/**
  The purchase collection and the queries of the purchase service over it:
  the paginated listing of active purchases (findAll), the lookup by id
  (findOne) and the soft delete (the update behind remove). The collection is a
  sequence in insertion order, the order in which the store returns documents.
 */
module PurchaseTable {
  import opened Entities
  import opened Money

  type Table = seq<Purchase>

  predicate HasId(table: Table, id: PurchaseId) {
    exists k :: 0 <= k < |table| && table[k].id == id
  }

  /** No two purchases share an id. */
  predicate UniqueIds(table: Table) {
    forall i, j :: 0 <= i < j < |table| ==> table[i].id != table[j].id
  }

  /** Appending a purchase under a new id keeps the ids unique. */
  lemma AppendKeepsIdsUnique(table: Table, p: Purchase)
    requires UniqueIds(table) && !HasId(table, p.id)
    ensures UniqueIds(table + [p])
  {
    forall i, j | 0 <= i < j < |table| + 1 ensures (table + [p])[i].id != (table + [p])[j].id {
      if j == |table| {
        assert table[i].id != p.id;
      }
    }
  }

  /** The position of the first purchase with the id. */
  function FindIndex(table: Table, id: PurchaseId): (r: Option<nat>)
    ensures r.Some? ==> r.value < |table| && table[r.value].id == id
    ensures r.Some? ==> forall k :: 0 <= k < r.value ==> table[k].id != id
    ensures r.None? <==> !HasId(table, id)
  {
    if table == [] then None
    else if table[0].id == id then Some(0)
    else match FindIndex(table[1..], id)
      case None =>
        assert forall k :: 1 <= k < |table| ==> table[k] == table[1..][k - 1];
        None
      case Some(k) => Some(k + 1)
  }

  /** `findById(...)`, then 404 when nothing came back. The `active` condition
      passed inside the argument is not a filter, so inactive purchases are found. */
  function FindOne(table: Table, id: PurchaseId): (r: Result<Purchase>)
    ensures r.Success? <==> HasId(table, id)
    ensures r.Success? ==> r.value.id == id && r.value in table
    ensures r.Failure? ==> r.error == NotFound(PurchaseNotFound) && r.error.Status() == 404
  {
    match FindIndex(table, id)
    case Some(k) => Success(table[k])
    case None => Failure(NotFound(PurchaseNotFound))
  }

  /** The documents matching `{ active: true }`, in store order. */
  function ActiveRecords(table: Table): (active: Table)
    ensures |active| <= |table|
    ensures forall p :: p in active <==> p in table && p.active
  {
    if table == [] then []
    else (if table[0].active then [table[0]] else []) + ActiveRecords(table[1..])
  }

  /** `countDocuments({ active: true })` counts the same records: each active
      record as many times as the collection holds it, and no other. */
  lemma {:induction false} ActiveRecordsCount(table: Table)
    ensures forall p :: multiset(ActiveRecords(table))[p] == (if p.active then multiset(table)[p] else 0)
  {
    if table != [] {
      ActiveRecordsCount(table[1..]);
      assert table == [table[0]] + table[1..];
      assert multiset(table) == multiset([table[0]]) + multiset(table[1..]);
    }
  }

  /** The projection `{ payment: 1, customer: 1, shipping: 1, active: 1 }`; the id
      is always returned. */
  datatype Summary = Summary(
    id: PurchaseId,
    customer: CustomerInfo,
    shipping: ShippingInfo,
    payment: PaymentInfo,
    active: bool)

  /** The projection drops the purchase lines and nothing else. */
  function Summarize(p: Purchase): (s: Summary)
    ensures Purchase(s.id, p.products, s.customer, s.shipping, s.payment, s.active) == p
  {
    Summary(p.id, p.customer, p.shipping, p.payment, p.active)
  }

  datatype Meta = Meta(
    currentPage: nat,
    itemCount: nat,
    itemsPerPage: nat,
    totalItems: nat,
    totalPages: int)

  datatype Paginated = Paginated(data: seq<Summary>, meta: Meta)

  function Min(a: int, b: int): int {
    if a < b then a else b
  }

  /** `totalPages` is the least number of pages of `size` items that holds them all. */
  lemma PageCount(total: nat, size: nat)
    requires 0 < size
    ensures 0 <= Ceil(total as real / size as real)
    ensures Ceil(total as real / size as real) * size >= total
    ensures (Ceil(total as real / size as real) - 1) * size < total
  {
    var c := Ceil(total as real / size as real);
    ScaleBounds(total as real, size as real, c);
    IntMulAsReal(c, size);
    IntMulAsReal(c - 1, size);
  }

  /** `find({ active: true }).skip(page * size).limit(size)` with its metadata. */
  function FindAll(table: Table, page: nat, size: nat): (r: Paginated)
    requires 0 < size
    ensures r.meta.currentPage == page && r.meta.itemsPerPage == size
    ensures r.meta.totalItems == |ActiveRecords(table)|
    ensures r.meta.itemCount == |r.data| <= size
    ensures |r.data| == Min(size, |ActiveRecords(table)| - Min(page * size, |ActiveRecords(table)|))
    ensures forall k :: 0 <= k < |r.data| ==>
      page * size + k < |ActiveRecords(table)| &&
      r.data[k] == Summarize(ActiveRecords(table)[page * size + k]) && r.data[k].active
    ensures 0 <= r.meta.totalPages
    ensures r.meta.totalPages * size >= r.meta.totalItems > (r.meta.totalPages - 1) * size
  {
    var active := ActiveRecords(table);
    var total := |active|;
    var start := Min(page * size, total);
    var end := Min(start + size, total);
    var data := seq(end - start, k requires 0 <= k < end - start => Summarize(active[start + k]));
    PageCount(total, size);
    Paginated(data, Meta(page, |data|, size, total, Ceil(total as real / size as real)))
  }

  /** A page has items exactly when it comes before the last page. */
  lemma PageNonEmpty(table: Table, page: nat, size: nat)
    requires 0 < size
    ensures FindAll(table, page, size).meta.itemCount > 0 <==> page < FindAll(table, page, size).meta.totalPages
  {
    var r := FindAll(table, page, size);
    var total, pages := r.meta.totalItems, r.meta.totalPages;
    assert r.meta.itemCount > 0 <==> page * size < total;
    if page < pages {
      MulMonotone(page, pages - 1, size);
    } else {
      MulMonotone(pages, page, size);
    }
  }

  /** `findByIdAndUpdate(id, { active: false })`: only the `active` field of the
      purchase with that id changes. */
  function SoftDelete(table: Table, id: PurchaseId): (t: Table)
    ensures |t| == |table|
    ensures forall k :: 0 <= k < |table| ==>
      t[k] == (if table[k].id == id && FindIndex(table, id) == Some(k) then table[k].(active := false) else table[k])
  {
    match FindIndex(table, id)
    case Some(k) => table[k := table[k].(active := false)]
    case None => table
  }

  /** Removing the same purchase twice is the same as removing it once. */
  lemma SoftDeleteIdempotent(table: Table, id: PurchaseId)
    ensures SoftDelete(SoftDelete(table, id), id) == SoftDelete(table, id)
  {
    var t := SoftDelete(table, id);
    assert forall k :: 0 <= k < |t| ==> t[k].id == table[k].id;
    match FindIndex(table, id)
    case None =>
    case Some(i) =>
      assert FindIndex(t, id) == Some(i);
  }

  /** After a remove, the lookup still finds the purchase, now inactive. */
  lemma FindOneAfterRemove(table: Table, id: PurchaseId)
    requires HasId(table, id)
    ensures FindOne(SoftDelete(table, id), id) == Success(FindOne(table, id).value.(active := false))
  {
    var t := SoftDelete(table, id);
    assert forall k :: 0 <= k < |t| ==> t[k].id == table[k].id;
    var i := FindIndex(table, id).value;
    assert FindIndex(t, id) == Some(i);
  }

  /** After a remove, the listing no longer holds that purchase. */
  lemma FindAllAfterRemove(table: Table, id: PurchaseId)
    requires UniqueIds(table)
    ensures forall p :: p in ActiveRecords(SoftDelete(table, id)) ==> p.id != id
  {
    var t := SoftDelete(table, id);
    forall k | 0 <= k < |t| && t[k].id == id ensures !t[k].active {
      var i := FindIndex(table, id).value;
      assert i == k;
    }
  }

  /** Removing a purchase keeps the ids unique. */
  lemma SoftDeleteKeepsIds(table: Table, id: PurchaseId)
    ensures forall k :: 0 <= k < |table| ==> SoftDelete(table, id)[k].id == table[k].id
    ensures UniqueIds(table) ==> UniqueIds(SoftDelete(table, id))
  {
  }
}

/**
  Stock reservation, the loop at the heart of checkout: the cart lines are
  walked in order; a line whose product exists and whose quantity does not
  exceed the product's current stock is copied into the purchase and its
  quantity is taken off that product's stock; any other line is skipped.
  `Reserve` is the specification the checkout loop is proved against.
 */
module Reservation {
  import opened Entities

  type Stock = map<ProductId, Product>

  /** The purchase lines built so far and the stock as it stands. */
  datatype Reservation = Reservation(items: seq<PurchaseItem>, stock: Stock)

  /** `currentProduct && product.quantity <= currentProduct.quantity`: the
      product exists, and taking the line off its stock does not make that
      stock negative. */
  predicate Accepts(stock: Stock, line: CartLine)
    ensures Accepts(stock, line) ==>
      line.product in stock && Take(stock, line.product, line.quantity)[line.product].quantity >= 0
  {
    line.product in stock && line.quantity <= stock[line.product].quantity
  }

  /** The purchase line copied from a cart line and the product found for it:
      it is the cart line with the product's catalogue data. */
  function Snapshot(line: CartLine, p: Product): (item: PurchaseItem)
    ensures LineOf(item) == line && SnapshotOf(item, p)
  {
    PurchaseItem(line.product, p.name, line.quantity, p.category, p.price, p.tax)
  }

  /** `changeAmount(id, -amount)`: only that product's quantity changes. */
  function Take(stock: Stock, id: ProductId, amount: int): (s: Stock)
    requires id in stock
    ensures s.Keys == stock.Keys
    ensures SameCatalogueEntry(s[id], stock[id]) && s[id].quantity == stock[id].quantity - amount
    ensures forall other :: other in stock && other != id ==> s[other] == stock[other]
  {
    stock[id := stock[id].(quantity := stock[id].quantity - amount)]
  }

  /** One iteration of the loop: an accepted line appends its snapshot and
      takes its quantity off its product; nothing else changes. */
  function Step(r: Reservation, line: CartLine): (s: Reservation)
    ensures s.stock.Keys == r.stock.Keys
    ensures |s.items| == |r.items| + (if Accepts(r.stock, line) then 1 else 0)
    ensures s.items[..|r.items|] == r.items
    ensures Accepts(r.stock, line) ==> s.items[|r.items|] == Snapshot(line, r.stock[line.product])
    ensures forall id :: id in r.stock && id != line.product ==> s.stock[id] == r.stock[id]
    ensures line.product in r.stock ==>
      SameCatalogueEntry(s.stock[line.product], r.stock[line.product]) &&
      s.stock[line.product].quantity ==
        r.stock[line.product].quantity - (if Accepts(r.stock, line) then line.quantity else 0)
    ensures !Accepts(r.stock, line) ==> s == r
  {
    if Accepts(r.stock, line)
    then Reservation(r.items + [Snapshot(line, r.stock[line.product])],
                     Take(r.stock, line.product, line.quantity))
    else r
  }

  /** The whole loop over the cart, from the first line to the last: it keeps
      the catalogue's products and makes at most one purchase line per cart line. */
  function Reserve(cart: seq<CartLine>, stock: Stock): (r: Reservation)
    ensures r.stock.Keys == stock.Keys
    ensures |r.items| <= |cart|
  {
    if cart == [] then Reservation([], stock)
    else Step(Reserve(cart[..|cart| - 1], stock), cart[|cart| - 1])
  }

  /** Reserving one more cart line is one more step. */
  lemma ReserveSnoc(cart: seq<CartLine>, i: nat, stock: Stock)
    requires i < |cart|
    ensures Reserve(cart[..i + 1], stock) == Step(Reserve(cart[..i], stock), cart[i])
  {
    assert cart[..i + 1][..i] == cart[..i];
  }

  predicate StockNonNegative(stock: Stock) {
    forall id :: id in stock ==> 0 <= stock[id].quantity
  }

  /** The quantity the purchase lines take of one product. */
  function QuantityOf(items: seq<PurchaseItem>, id: ProductId): int {
    if items == [] then 0
    else QuantityOf(items[..|items| - 1], id)
         + (if items[|items| - 1].product == id then items[|items| - 1].quantity else 0)
  }

  /** The cart line a purchase line was copied from. */
  function LineOf(item: PurchaseItem): CartLine {
    CartLine(item.product, item.quantity)
  }

  function Lines(items: seq<PurchaseItem>): (lines: seq<CartLine>)
    ensures |lines| == |items|
  {
    if items == [] then [] else Lines(items[..|items| - 1]) + [LineOf(items[|items| - 1])]
  }

  /** a can be obtained from b by deleting elements. */
  predicate Subsequence(a: seq<CartLine>, b: seq<CartLine>)
    decreases |b|
  {
    a == [] ||
    (b != [] &&
     ((a[|a| - 1] == b[|b| - 1] && Subsequence(a[..|a| - 1], b[..|b| - 1]))
      || Subsequence(a, b[..|b| - 1])))
  }

  /** The product's data other than its stock. */
  predicate SameCatalogueEntry(p: Product, q: Product) {
    p.id == q.id && p.name == q.name && p.category == q.category && p.price == q.price && p.tax == q.tax
  }

  /** The line keeps the product's name, category, price and tax. */
  predicate SnapshotOf(item: PurchaseItem, p: Product) {
    item.name == p.name && item.category == p.category && item.price == p.price && item.tax == p.tax
  }

  /** Only stock changes: the same products, each with the same data otherwise. */
  lemma {:induction false} ReserveKeepsCatalogue(cart: seq<CartLine>, stock: Stock)
    ensures Reserve(cart, stock).stock.Keys == stock.Keys
    ensures forall id :: id in stock ==> SameCatalogueEntry(Reserve(cart, stock).stock[id], stock[id])
  {
    if cart != [] {
      ReserveKeepsCatalogue(cart[..|cart| - 1], stock);
    }
  }

  /** Stock that starts non-negative stays non-negative. */
  lemma {:induction false} ReserveStockNonNegative(cart: seq<CartLine>, stock: Stock)
    requires StockNonNegative(stock)
    ensures StockNonNegative(Reserve(cart, stock).stock)
  {
    if cart != [] {
      ReserveStockNonNegative(cart[..|cart| - 1], stock);
    }
  }

  /** Appending a purchase line adds its quantity to its own product only. */
  lemma QuantityOfAppend(items: seq<PurchaseItem>, item: PurchaseItem, id: ProductId)
    ensures QuantityOf(items + [item], id) ==
      QuantityOf(items, id) + (if item.product == id then item.quantity else 0)
  {
    assert (items + [item])[..|items|] == items;
  }

  /** Each product's stock goes down by exactly the quantity of the purchase
      lines for it; a product no purchase line names keeps its stock. */
  lemma {:induction false} ReserveConservesStock(cart: seq<CartLine>, stock: Stock)
    ensures Reserve(cart, stock).stock.Keys == stock.Keys
    ensures forall id :: id in stock ==>
      Reserve(cart, stock).stock[id].quantity == stock[id].quantity - QuantityOf(Reserve(cart, stock).items, id)
  {
    if cart != [] {
      var prefix, line := cart[..|cart| - 1], cart[|cart| - 1];
      var r := Reserve(prefix, stock);
      ReserveConservesStock(prefix, stock);
      var s := Reserve(cart, stock);
      assert s == Step(r, line);
      if Accepts(r.stock, line) {
        var item := Snapshot(line, r.stock[line.product]);
        assert s.items == r.items + [item];
        forall id | id in stock
          ensures s.stock[id].quantity == stock[id].quantity - QuantityOf(s.items, id)
        {
          QuantityOfAppend(r.items, item, id);
        }
      } else {
        assert s == r;
      }
    }
  }

  /** A purchase line for another product adds nothing to the quantity of `id`. */
  lemma QuantityOfOther(items: seq<PurchaseItem>, item: PurchaseItem, id: ProductId)
    requires item.product != id
    ensures QuantityOf(items + [item], id) == QuantityOf(items, id)
  {
    assert (items + [item])[..|items|] == items;
  }

  /** A product that no cart line names is left exactly as it was. */
  lemma {:induction false} ReserveUntouched(cart: seq<CartLine>, stock: Stock, id: ProductId)
    requires forall k :: 0 <= k < |cart| ==> cart[k].product != id
    ensures id in Reserve(cart, stock).stock <==> id in stock
    ensures id in stock ==> Reserve(cart, stock).stock[id] == stock[id]
    ensures QuantityOf(Reserve(cart, stock).items, id) == 0
  {
    if cart != [] {
      var prefix, line := cart[..|cart| - 1], cart[|cart| - 1];
      assert line.product != id;
      assert forall k :: 0 <= k < |prefix| ==> prefix[k].product != id by {
        forall k | 0 <= k < |prefix| ensures prefix[k].product != id {
          assert prefix[k] == cart[k];
        }
      }
      ReserveUntouched(prefix, stock, id);
      var r := Reserve(prefix, stock);
      assert Reserve(cart, stock) == Step(r, line);
      if Accepts(r.stock, line) {
        QuantityOfOther(r.items, Snapshot(line, r.stock[line.product]), id);
      }
    }
  }

  /** Every purchase line names a product of the original stock and carries
      that product's name, category, price and tax. */
  lemma {:induction false} ReserveSnapshots(cart: seq<CartLine>, stock: Stock)
    ensures forall k :: 0 <= k < |Reserve(cart, stock).items| ==>
      Reserve(cart, stock).items[k].product in stock &&
      SnapshotOf(Reserve(cart, stock).items[k], stock[Reserve(cart, stock).items[k].product])
  {
    if cart != [] {
      var prefix, line := cart[..|cart| - 1], cart[|cart| - 1];
      ReserveSnapshots(prefix, stock);
      ReserveKeepsCatalogue(prefix, stock);
    }
  }

  /** The purchase lines follow cart order: they are the cart with some lines left out. */
  lemma {:induction false} ReserveKeepsCartOrder(cart: seq<CartLine>, stock: Stock)
    ensures Subsequence(Lines(Reserve(cart, stock).items), cart)
  {
    if cart != [] {
      var prefix, line := cart[..|cart| - 1], cart[|cart| - 1];
      var r := Reserve(prefix, stock);
      ReserveKeepsCartOrder(prefix, stock);
      assert cart[..|cart| - 1] == prefix;
      if Accepts(r.stock, line) {
        var items := r.items + [Snapshot(line, r.stock[line.product])];
        assert items[..|items| - 1] == r.items;
        assert Lines(items) == Lines(r.items) + [line];
      } else {
        assert Subsequence(Lines(r.items), cart);
      }
    }
  }

  function Fulfillable(cart: seq<CartLine>, stock: Stock): seq<CartLine> {
    if cart == [] then []
    else Fulfillable(cart[..|cart| - 1], stock)
         + (if Accepts(stock, cart[|cart| - 1]) then [cart[|cart| - 1]] else [])
  }

  predicate DistinctProducts(cart: seq<CartLine>) {
    forall i, j :: 0 <= i < j < |cart| ==> cart[i].product != cart[j].product
  }

  /** When no two cart lines name the same product, a line is copied exactly
      when its product exists and its quantity does not exceed the stock the
      product had before checkout. */
  lemma {:induction false} ReserveDistinct(cart: seq<CartLine>, stock: Stock)
    requires DistinctProducts(cart)
    ensures Lines(Reserve(cart, stock).items) == Fulfillable(cart, stock)
  {
    if cart != [] {
      var prefix, line := cart[..|cart| - 1], cart[|cart| - 1];
      var r := Reserve(prefix, stock);
      ReserveDistinct(prefix, stock);
      ReserveUntouched(prefix, stock, line.product);
      assert Accepts(r.stock, line) == Accepts(stock, line);
      if Accepts(r.stock, line) {
        var items := r.items + [Snapshot(line, r.stock[line.product])];
        assert items[..|items| - 1] == r.items;
      }
    }
  }
}

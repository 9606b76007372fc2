/**
  The purchase service (purchase.service.ts) over an in-memory store: the
  buyer's cart, the product stock of the product service and the purchase
  collection. `Checkout` turns the cart into a purchase; `Remove` soft-deletes a
  purchase. The user record, the name-capitalising helper, the shipping rate
  table, the new document's id and the clock are parameters.
 */
module Service {
  import opened Entities
  import opened Money
  import opened Pricing
  import opened Reservation
  import opened PurchaseTable
  import opened PurchaseDto

  /** `${firstName} ${secondName} ${lastName} ${familyName}`: the four names
      in that order, one space between each two. */
  function CompleteName(user: User): (name: string)
    ensures var f, s, l := |user.firstName|, |user.secondName|, |user.lastName|;
      && |name| == f + s + l + |user.familyName| + 3
      && name[..f] == user.firstName && name[f] == ' '
      && name[f + 1..f + 1 + s] == user.secondName && name[f + 1 + s] == ' '
      && name[f + 2 + s..f + 2 + s + l] == user.lastName && name[f + 2 + s + l] == ' '
      && name[f + 3 + s + l..] == user.familyName
  {
    user.firstName + " " + user.secondName + " " + user.lastName + " " + user.familyName
  }

  /** `catch (e) { ...; throw new Error(e.message) }`: the message survives,
      the kind and the HTTP status do not. */
  function Rethrow(e: Exception): (thrown: Exception)
    ensures thrown.message == e.message && thrown.Error? && thrown.Status() == 500
  {
    Error(e.message)
  }

  /** The payment part of the new purchase, from the order's total before
      shipping and its shipping cost. */
  function NewPayment(dto: CreatePurchaseDto, total: real, shippingCost: real, now: int): (p: PaymentInfo)
    ensures p.total == shippingCost + total
    ensures p.financed ==> p.debt == p.total - dto.initialPayment
    ensures !p.financed ==> p.debt == 0.0
    ensures p.paid == !dto.financed && p.financed == dto.financed
    ensures p.currentShare == 1 && p.shares == dto.share && p.paymentMethod == dto.paymentMethod
  {
    var totalPayment := shippingCost + total;
    PaymentInfo(dto.paymentMethod, !dto.financed, dto.financed, dto.share, 1,
                totalPayment, if dto.financed then totalPayment - dto.initialPayment else 0.0, now)
  }

  /** The document checkout creates from the reserved lines. */
  function NewPurchase(id: PurchaseId, items: seq<PurchaseItem>, user: User, dto: CreatePurchaseDto,
                       rates: ShippingRates, capitalize: string -> string, now: int): (p: Purchase)
    requires rates.Defines(dto.shippingMethod)
    ensures p.id == id && p.products == items && p.active
    ensures p.customer == CustomerInfo(user.id, capitalize(CompleteName(user)), user.email, user.phone)
    ensures p.shipping.shippingCost == ShippingCost(Totals(items).total, dto.shippingMethod, rates)
    ensures p.shipping == ShippingInfo(dto.shippingMethod, dto.address, dto.city, dto.country, p.shipping.shippingCost)
    ensures p.payment.total == Totals(items).subtotal + Totals(items).tax + p.shipping.shippingCost
    ensures p.payment == NewPayment(dto, Totals(items).total, p.shipping.shippingCost, now)
  {
    var cost := Totals(items);
    var shippingCost := ShippingCost(cost.total, dto.shippingMethod, rates);
    Purchase(
      id, items,
      CustomerInfo(user.id, capitalize(CompleteName(user)), user.email, user.phone),
      ShippingInfo(dto.shippingMethod, dto.address, dto.city, dto.country, shippingCost),
      NewPayment(dto, cost.total, shippingCost, now),
      true)
  }

  class PurchaseService {
    /** The buyer's cart, as the cart service holds it. */
    var cart: seq<CartLine>
    /** The products of the product service. */
    var products: Stock
    /** The purchase collection, in insertion order. */
    var purchases: Table

    ghost predicate Valid()
      reads this
    {
      StockNonNegative(products) && UniqueIds(purchases)
    }

    constructor (cart: seq<CartLine>, products: Stock)
      requires StockNonNegative(products)
      ensures Valid()
      ensures this.cart == cart && this.products == products && this.purchases == []
    {
      this.cart := cart;
      this.products := products;
      this.purchases := [];
    }

    /** Turns the cart into a purchase stored under `id`, takes the bought
        quantities off stock and empties the cart. On any failure the
        transaction is aborted: nothing changes and the error's message is
        rethrown. */
    method Checkout(user: User, dto: CreatePurchaseDto, rates: ShippingRates,
                    capitalize: string -> string, id: PurchaseId, now: int)
      returns (r: Result<PurchaseId>)
      requires Valid() && rates.Defines(dto.shippingMethod)
      modifies this
      ensures Valid()
      ensures r.Success? <==> old(cart) != [] && !HasId(old(purchases), id)
      ensures old(cart) == [] ==> r == Failure(Error(CartIsEmpty))
      ensures old(cart) != [] && HasId(old(purchases), id) ==> r == Failure(Error(DuplicateKey))
      ensures r.Failure? ==> cart == old(cart) && products == old(products) && purchases == old(purchases)
      ensures r.Success? ==>
        && r.value == id
        && products == Reserve(old(cart), old(products)).stock
        && purchases == old(purchases) + [NewPurchase(id, Reserve(old(cart), old(products)).items,
                                                      user, dto, rates, capitalize, now)]
        && cart == []
    {
      // startTransaction: the state an abort returns to
      var savedProducts := products;
      var lines := cart;
      if |lines| == 0 {
        r := Failure(Rethrow(BadRequest(CartIsEmpty)));
        return;
      }
      var userName := capitalize(CompleteName(user));

      var productsToBuy := ReserveLines(lines);

      var totalCost := Totals(productsToBuy);
      var shippingCost := ShippingCost(totalCost.total, dto.shippingMethod, rates);
      var totalPayment := shippingCost + totalCost.total;
      var totalDebt := 0.0;
      if dto.financed {
        totalDebt := totalPayment - dto.initialPayment;
      }

      if FindIndex(purchases, id).Some? {
        // create fails on the existing id; abortTransaction
        products := savedProducts;
        r := Failure(Rethrow(StoreError(DuplicateKey)));
        return;
      }
      var purchase := Purchase(
        id, productsToBuy,
        CustomerInfo(user.id, userName, user.email, user.phone),
        ShippingInfo(dto.shippingMethod, dto.address, dto.city, dto.country, shippingCost),
        PaymentInfo(dto.paymentMethod, !dto.financed, dto.financed, dto.share, 1,
                    totalPayment, totalDebt, now),
        true);
      assert purchase == NewPurchase(id, productsToBuy, user, dto, rates, capitalize, now);
      AppendKeepsIdsUnique(purchases, purchase);
      purchases := purchases + [purchase];
      // the purchase exists: clear the cart, then commit
      cart := [];
      r := Success(id);
    }

    /** The loop over the cart lines: each line whose product exists with
        enough stock is copied into the purchase lines and its quantity is
        taken off that product's stock. */
    method ReserveLines(lines: seq<CartLine>) returns (productsToBuy: seq<PurchaseItem>)
      requires StockNonNegative(products)
      modifies this
      ensures Reservation(productsToBuy, products) == Reserve(lines, old(products))
      ensures StockNonNegative(products)
      ensures cart == old(cart) && purchases == old(purchases)
    {
      productsToBuy := [];
      var i := 0;
      while i < |lines|
        invariant 0 <= i <= |lines|
        invariant Reservation(productsToBuy, products) == Reserve(lines[..i], old(products))
        invariant cart == old(cart) && purchases == old(purchases)
      {
        var line := lines[i];
        ReserveSnoc(lines, i, old(products));
        ghost var before := Reservation(productsToBuy, products);
        if line.product in products && line.quantity <= products[line.product].quantity {
          var current := products[line.product];
          assert Take(before.stock, line.product, line.quantity)
            == products[line.product := current.(quantity := current.quantity - line.quantity)];
          productsToBuy := productsToBuy + [PurchaseItem(line.product, current.name, line.quantity,
                                                         current.category, current.price, current.tax)];
          products := products[line.product := current.(quantity := current.quantity - line.quantity)];
          assert Accepts(before.stock, line);
          assert productsToBuy == before.items + [Snapshot(line, current)];
        } else {
          assert !Accepts(before.stock, line);
        }
        i := i + 1;
      }
      assert lines[..i] == lines;
      ReserveStockNonNegative(lines, old(products));
    }

    /** Soft-deletes the purchase with that id, active or not; 404 when there
        is none. */
    method Remove(id: PurchaseId) returns (r: Result<bool>)
      requires Valid()
      modifies this
      ensures Valid()
      ensures r == (if HasId(old(purchases), id) then Success(true) else Failure(NotFound(PurchaseNotFound)))
      ensures purchases == SoftDelete(old(purchases), id)
      ensures cart == old(cart) && products == old(products)
    {
      SoftDeleteKeepsIds(purchases, id);
      var found := FindIndex(purchases, id);
      if found.None? {
        r := Failure(NotFound(PurchaseNotFound));
        return;
      }
      var k := found.value;
      purchases := purchases[k := purchases[k].(active := false)];
      r := Success(true);
    }
  }

  /** Validation does not bound the initial payment by the purchase's total: a
      financed request that pays more up front than the total records a
      negative debt. */
  lemma OverpaymentGivesNegativeDebt(req: RawRequest, enums: Enums, total: real, shippingCost: real, now: int)
    requires Valid(req, enums) && req.financed == Bool(true)
    requires shippingCost + total < req.initialPayment.n
    ensures NewPayment(ToDto(req, enums), total, shippingCost, now).debt < 0.0
  {
  }

  /** Such a request exists: 100 paid up front against a total of 52.5. */
  lemma OverpaymentExample()
    ensures var req := RawRequest(Str("CARD"), Str("STANDARD"), Str("Main St 1"), Str("Bogota"),
                                  Str("Colombia"), Bool(true), Num(12.0), Num(100.0));
            var enums := Enums({"CARD"}, {"STANDARD"});
            Valid(req, enums) && NewPayment(ToDto(req, enums), 50.0, 2.5, 0).debt < 0.0
  {
  }

  /** One line of 2 units at 100 with tax 10 against a stock of 5, shipped at a
      rate of 0.05 and paid in cash: subtotal 180, tax 20, total 200, shipping
      10, total payment 210, no debt, 3 units left. Financed with 50 paid up
      front, the debt is 160. */
  lemma WorkedExample(user: User, capitalize: string -> string)
    ensures var stock := map["p" := Product("p", "Movie", "Drama", 100.0, 10.0, 5)];
            var rates := ShippingRates(map["X" := 0.05, "OTHER" := 0.1], "OTHER");
            var res := Reserve([CartLine("p", 2)], stock);
            var cash := CreatePurchaseDto("CARD", "X", "Main St 1", "Bogota", "Colombia", false, Num(1.0), 0.0);
            var credit := cash.(financed := true, initialPayment := 50.0);
            var paid := NewPurchase("a", res.items, user, cash, rates, capitalize, 0);
            var owed := NewPurchase("b", res.items, user, credit, rates, capitalize, 0);
            && Totals(res.items) == Cost(180.0, 20.0, 200.0)
            && paid.shipping.shippingCost == 10.0
            && paid.payment.total == 210.0 && paid.payment.debt == 0.0 && paid.payment.paid
            && owed.payment.total == 210.0 && owed.payment.debt == 160.0 && !owed.payment.paid
            && res.stock["p"].quantity == 3
  {
    var stock := map["p" := Product("p", "Movie", "Drama", 100.0, 10.0, 5)];
    var rates := ShippingRates(map["X" := 0.05, "OTHER" := 0.1], "OTHER");
    var res := Reserve([CartLine("p", 2)], stock);
    assert [CartLine("p", 2)][..0] == [];
    assert res.items == [PurchaseItem("p", "Movie", 2, "Drama", 100.0, 10.0)];
    assert Totals(res.items) == Cost(180.0, 20.0, 200.0);
    ShippingUsesMethodRate(200.0, "X", rates);
    assert HalfUpCents(10.0) == 1000;
  }

  /** A line asking for 10 units against a stock of 5 is left out and the
      stock is untouched; the totals count only the line that fits. */
  lemma ShortStockExample()
    ensures var stock := map["p" := Product("p", "Movie", "Drama", 100.0, 10.0, 5),
                             "q" := Product("q", "Album", "Music", 20.0, 2.0, 5)];
            var res := Reserve([CartLine("p", 10), CartLine("q", 1)], stock);
            && res.items == [PurchaseItem("q", "Album", 1, "Music", 20.0, 2.0)]
            && res.stock == stock["q" := stock["q"].(quantity := 4)]
            && Totals(res.items) == Cost(18.0, 2.0, 20.0)
  {
    var stock := map["p" := Product("p", "Movie", "Drama", 100.0, 10.0, 5),
                     "q" := Product("q", "Album", "Music", 20.0, 2.0, 5)];
    var cart := [CartLine("p", 10), CartLine("q", 1)];
    assert cart[..1] == [CartLine("p", 10)] && cart[..1][..0] == [];
    var first := Reserve(cart[..1], stock);
    assert Reserve(cart[..1][..0], stock) == Reservation([], stock);
    assert !Accepts(stock, cart[0]);
    assert first == Reservation([], stock);
    var res := Reserve(cart, stock);
    assert res == Step(first, cart[1]);
    assert res.items == [PurchaseItem("q", "Album", 1, "Music", 20.0, 2.0)];
    assert Totals(res.items) == Cost(18.0, 2.0, 20.0);
  }
}

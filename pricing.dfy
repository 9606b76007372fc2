/**
  The pricing part of the purchase service: the shipping cost of an order
  (purchase.service.ts, calculateShippingCost) and the fold of the purchase
  lines into subtotal, tax and total (the `reduce` inside checkout).
 */
module Pricing {
  import opened Entities
  import opened Money

  /** The shipping rate table: a rate per shipping method and the key of the
      OTHER method, whose rate is the fallback. */
  datatype ShippingRates = ShippingRates(byMethod: map<string, real>, other: string) {
    /** The method has a rate of its own that is not 0, so `||` keeps it. */
    predicate HasOwnRate(shippingMethod: string) {
      shippingMethod in byMethod && byMethod[shippingMethod] != 0.0
    }

    /** `shippingRates[method] || shippingRates[OTHER]` is a number: the method
        has its own non-zero rate, or OTHER has a rate (otherwise it is
        `undefined` and the cost NaN). */
    predicate Defines(shippingMethod: string) {
      HasOwnRate(shippingMethod) || other in byMethod
    }
  }

  /** `shippingRates[method] || shippingRates[OTHER]`: a missing rate and a rate
      of 0 are both falsy and fall back to OTHER. The rate chosen is one of the
      table's, and it is 0 only when the fallback is taken and OTHER's rate is 0. */
  function ShippingRate(rates: ShippingRates, shippingMethod: string): (rate: real)
    requires rates.Defines(shippingMethod)
    ensures rate in rates.byMethod.Values
    ensures rate == 0.0 ==> !rates.HasOwnRate(shippingMethod) && rates.byMethod[rates.other] == 0.0
  {
    if rates.HasOwnRate(shippingMethod)
    then rates.byMethod[shippingMethod]
    else rates.byMethod[rates.other]
  }

  /** `parseFloat((price * rate).toFixed(2))`. */
  function RoundedCharge(price: real, rate: real): real {
    Round2(price * rate)
  }

  function ShippingCost(price: real, shippingMethod: string, rates: ShippingRates): (cost: real)
    requires rates.Defines(shippingMethod)
    ensures IsCents(cost)
    ensures Abs(cost - price * ShippingRate(rates, shippingMethod)) <= 0.005
  {
    RoundedCharge(price, ShippingRate(rates, shippingMethod))
  }

  /** A method with a configured, non-zero rate is charged at that rate. */
  lemma ShippingUsesMethodRate(price: real, shippingMethod: string, rates: ShippingRates)
    requires rates.HasOwnRate(shippingMethod)
    ensures ShippingCost(price, shippingMethod, rates) == Round2(price * rates.byMethod[shippingMethod])
  {
    assert ShippingCost(price, shippingMethod, rates) == RoundedCharge(price, rates.byMethod[shippingMethod]);
  }

  /** A method without a rate, or with a rate of 0, is charged at the OTHER rate. */
  lemma ShippingFallsBackToOther(price: real, shippingMethod: string, rates: ShippingRates)
    requires rates.other in rates.byMethod && !rates.HasOwnRate(shippingMethod)
    ensures ShippingCost(price, shippingMethod, rates) == Round2(price * rates.byMethod[rates.other])
  {
    assert ShippingCost(price, shippingMethod, rates) == RoundedCharge(price, rates.byMethod[rates.other]);
  }

  /** With a non-negative price and non-negative rates the cost is not negative. */
  lemma ShippingCostNonNegative(price: real, shippingMethod: string, rates: ShippingRates)
    requires rates.Defines(shippingMethod)
    requires 0.0 <= price
    requires forall m :: m in rates.byMethod ==> 0.0 <= rates.byMethod[m]
    ensures 0.0 <= ShippingCost(price, shippingMethod, rates)
  {
    var rate := ShippingRate(rates, shippingMethod);
    assert 0.0 <= price * rate;
    var n := HalfUpCents(price * rate);
    assert 0 <= n;
  }

  /** The accumulator of the fold. */
  datatype Cost = Cost(subtotal: real, tax: real, total: real)

  function LinePrice(item: PurchaseItem): real {
    item.price * item.quantity as real
  }

  function LineTax(item: PurchaseItem): real {
    item.tax * item.quantity as real
  }

  /** One step of the reduce: the line's price, tax and price minus tax are added. */
  function AddLine(acc: Cost, item: PurchaseItem): Cost {
    Cost(acc.subtotal + (LinePrice(item) - LineTax(item)),
         acc.tax + LineTax(item),
         acc.total + LinePrice(item))
  }

  /** The reduce over the purchase lines, from the left, starting at zero. */
  function Totals(items: seq<PurchaseItem>): (c: Cost)
    ensures c.subtotal + c.tax == c.total
  {
    if items == [] then Cost(0.0, 0.0, 0.0)
    else AddLine(Totals(items[..|items| - 1]), items[|items| - 1])
  }

  /** Reference sums: the price of all lines, and the tax of all lines. */
  function SumPrice(items: seq<PurchaseItem>): real {
    if items == [] then 0.0 else LinePrice(items[0]) + SumPrice(items[1..])
  }

  function SumTax(items: seq<PurchaseItem>): real {
    if items == [] then 0.0 else LineTax(items[0]) + SumTax(items[1..])
  }

  lemma {:induction false} SumAppend(items: seq<PurchaseItem>, item: PurchaseItem)
    ensures SumPrice(items + [item]) == SumPrice(items) + LinePrice(item)
    ensures SumTax(items + [item]) == SumTax(items) + LineTax(item)
  {
    if items != [] {
      assert (items + [item])[1..] == items[1..] + [item];
      SumAppend(items[1..], item);
    }
  }

  /** total is the sum of price times quantity, tax the sum of tax times
      quantity and subtotal their difference; all three are 0 for no lines. */
  lemma {:induction false} TotalsAreSums(items: seq<PurchaseItem>)
    ensures Totals(items).total == SumPrice(items)
    ensures Totals(items).tax == SumTax(items)
    ensures Totals(items).subtotal == SumPrice(items) - SumTax(items)
  {
    if items != [] {
      var prefix, last := items[..|items| - 1], items[|items| - 1];
      assert items == prefix + [last];
      TotalsAreSums(prefix);
      SumAppend(prefix, last);
    }
  }
}

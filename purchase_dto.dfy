/**
  The checkout request and its validation rules (create-purchase.dto.ts). Each
  class-validator decorator is a predicate on the raw JavaScript value of its
  field; a request is valid when every field passes all of its decorators.
  `@ValidateIf(cond)` switches off every other decorator of its field when
  `cond` is false: for `share` the condition is membership of `validShares`.
  The two enums are not shown, so their values are parameters.
 */
module PurchaseDto {
  import opened Entities

  const ValidShares: seq<int> := [1, 3, 6, 12, 18, 24, 30, 36]

  const MaxInitialPayment: real := 10000000000000000.0

  /** The values of the PaymentMethod and ShippingMethod string enums. */
  datatype Enums = Enums(paymentMethods: set<string>, shippingMethods: set<string>)

  /** The request body as received, one raw value per field. */
  datatype RawRequest = RawRequest(
    paymentMethod: Value,
    shippingMethod: Value,
    address: Value,
    city: Value,
    country: Value,
    financed: Value,
    share: Value,
    initialPayment: Value)

  /** The request as checkout reads it. `share` keeps its raw value, since no
      rule constrains it. */
  datatype CreatePurchaseDto = CreatePurchaseDto(
    paymentMethod: string,
    shippingMethod: string,
    address: string,
    city: string,
    country: string,
    financed: bool,
    share: Value,
    initialPayment: real)

  // class-validator's checks

  predicate IsDefined(v: Value) {
    !v.Undefined? && !v.Null?
  }

  predicate IsNotEmpty(v: Value) {
    v != Str("") && !v.Null? && !v.Undefined?
  }

  predicate IsEnum(v: Value, values: set<string>) {
    v.Str? && v.s in values
  }

  predicate IsString(v: Value) {
    v.Str?
  }

  predicate MinLength(v: Value, n: nat) {
    v.Str? && |v.s| >= n
  }

  predicate IsBoolean(v: Value) {
    v.Bool?
  }

  predicate IsNumber(v: Value) {
    v.Num?
  }

  predicate IsInt(v: Value) {
    v.Num? && v.n.Floor as real == v.n
  }

  /** `@Min(bound)` */
  predicate MinCheck(v: Value, bound: real) {
    v.Num? && v.n >= bound
  }

  /** `@Max(bound)` */
  predicate MaxCheck(v: Value, bound: real) {
    v.Num? && v.n <= bound
  }

  /** `validShares.includes(value)` */
  predicate InValidShares(v: Value) {
    v.Num? && exists k :: 0 <= k < |ValidShares| && ValidShares[k] as real == v.n
  }

  // the rules of each field

  predicate MethodRule(v: Value, values: set<string>) {
    IsDefined(v) && IsNotEmpty(v) && IsEnum(v, values)
  }

  predicate PlaceRule(v: Value) {
    IsString(v) && IsNotEmpty(v) && MinLength(v, 3)
  }

  predicate FinancedRule(v: Value) {
    IsDefined(v) && IsNotEmpty(v) && IsBoolean(v)
  }

  /** The decorators of `share` other than ValidateIf. */
  predicate ShareChecks(v: Value) {
    IsNumber(v) && IsNotEmpty(v) && IsInt(v) && MinCheck(v, 1.0) && MaxCheck(v, 36.0)
  }

  /** ValidateIf runs the other checks only for a value of `validShares`, and
      every such value passes them: the rule rejects nothing, whether the share
      is 2, 100, "x" or missing. */
  predicate ShareRule(v: Value)
    ensures ShareRule(v)
  {
    if InValidShares(v) then ValidSharesPassChecks(v); ShareChecks(v) else true
  }

  predicate InitialPaymentRule(v: Value) {
    IsNumber(v) && IsNotEmpty(v) && MinCheck(v, 0.0) && MaxCheck(v, MaxInitialPayment)
  }

  /** A body passes validation exactly when both methods are non-empty strings
      of their enums, address, city and country are strings of at least three
      characters, financed is a boolean and initialPayment a number in
      [0, 1e16]; its share plays no part. */
  predicate Valid(req: RawRequest, enums: Enums)
    ensures Valid(req, enums) <==>
      && req.paymentMethod.Str? && req.paymentMethod.s != "" && req.paymentMethod.s in enums.paymentMethods
      && req.shippingMethod.Str? && req.shippingMethod.s != "" && req.shippingMethod.s in enums.shippingMethods
      && req.address.Str? && |req.address.s| >= 3
      && req.city.Str? && |req.city.s| >= 3
      && req.country.Str? && |req.country.s| >= 3
      && req.financed.Bool?
      && req.initialPayment.Num? && 0.0 <= req.initialPayment.n <= MaxInitialPayment
  {
    && MethodRule(req.paymentMethod, enums.paymentMethods)
    && MethodRule(req.shippingMethod, enums.shippingMethods)
    && PlaceRule(req.address)
    && PlaceRule(req.city)
    && PlaceRule(req.country)
    && FinancedRule(req.financed)
    && ShareRule(req.share)
    && InitialPaymentRule(req.initialPayment)
  }

  /** The typed request of a valid body. */
  function ToDto(req: RawRequest, enums: Enums): (dto: CreatePurchaseDto)
    requires Valid(req, enums)
    ensures dto.paymentMethod in enums.paymentMethods && dto.paymentMethod != ""
    ensures dto.shippingMethod in enums.shippingMethods && dto.shippingMethod != ""
    ensures |dto.address| >= 3 && |dto.city| >= 3 && |dto.country| >= 3
    ensures 0.0 <= dto.initialPayment <= MaxInitialPayment
    ensures req.financed == Bool(dto.financed) && dto.share == req.share
    ensures Str(dto.paymentMethod) == req.paymentMethod && Str(dto.shippingMethod) == req.shippingMethod
    ensures Str(dto.address) == req.address && Str(dto.city) == req.city && Str(dto.country) == req.country
    ensures Num(dto.initialPayment) == req.initialPayment
  {
    CreatePurchaseDto(
      req.paymentMethod.s, req.shippingMethod.s,
      req.address.s, req.city.s, req.country.s,
      req.financed.b, req.share, req.initialPayment.n)
  }

  /** A method field passes exactly when it is a non-empty string of the enum. */
  lemma MethodRuleMeans(v: Value, values: set<string>)
    ensures MethodRule(v, values) <==> v.Str? && v.s != "" && v.s in values
  {
  }

  /** An address, city or country passes exactly when it is a string of at
      least three characters. */
  lemma PlaceRuleMeans(v: Value)
    ensures PlaceRule(v) <==> v.Str? && |v.s| >= 3
  {
  }

  /** `financed` passes exactly when it is a boolean. */
  lemma FinancedRuleMeans(v: Value)
    ensures FinancedRule(v) <==> v.Bool?
  {
  }

  /** `initialPayment` passes exactly when it is a number in [0, 1e16]. */
  lemma InitialPaymentRuleMeans(v: Value)
    ensures InitialPaymentRule(v) <==> v.Num? && 0.0 <= v.n <= MaxInitialPayment
  {
  }

  /** Every element of `validShares` is an integer between 1 and 36. */
  lemma ValidSharesInRange()
    ensures forall k :: 0 <= k < |ValidShares| ==> 1 <= ValidShares[k] <= 36
  {
  }

  /** The share checks accept every member of `validShares`. */
  lemma ValidSharesPassChecks(v: Value)
    requires InValidShares(v)
    ensures ShareChecks(v)
  {
    var k :| 0 <= k < |ValidShares| && ValidShares[k] as real == v.n;
    ValidSharesInRange();
    assert (ValidShares[k] as real).Floor == ValidShares[k];
  }

  /** For instance 2, 37, 1.5, a string and a missing value all pass. */
  lemma ShareRuleAcceptsUnlisted()
    ensures ShareRule(Num(2.0)) && ShareRule(Num(37.0)) && ShareRule(Num(1.5))
    ensures ShareRule(Str("twelve")) && ShareRule(Undefined)
    ensures !ShareChecks(Num(37.0)) && !ShareChecks(Str("twelve")) && !ShareChecks(Undefined)
  {
    assert !InValidShares(Num(2.0)) by {
      forall k | 0 <= k < |ValidShares| ensures ValidShares[k] as real != 2.0 {
      }
    }
  }
}

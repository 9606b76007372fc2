# Purchase checkout and payment, modelled in Dafny

This project models the checkout-and-payment core of the NestJS service
`PurchaseService` of an e-commerce backend, together with the validation rules
of its checkout request (`CreatePurchaseDto`).

- **Checkout** turns the buyer's cart into a purchase record. It rejects an
  empty cart. It walks the cart lines in order. A line is copied into the
  purchase only when its product is found and has enough stock, and then that
  product's stock goes down by the line's quantity. A line asking for more
  than the stock is skipped, not an error. The accepted lines are
  folded into subtotal, tax and total. Checkout adds the shipping cost from a
  rate table, computes the debt of a financed purchase, stores the purchase and
  clears the cart. Any failure aborts the transaction, and the error's message
  is rethrown as a plain `Error`.
- **Shipping cost** looks up the rate of the shipping method. A missing rate, or
  a rate of 0, falls back to the rate of the OTHER method. The cost is the price
  times the rate, rounded to cents.
- **Purchase queries**: a paginated listing of active purchases with its
  metadata, a lookup by id that raises 404, and a soft delete that sets
  `active` to false and keeps the record.
- **Request validation**: each class-validator decorator is a predicate on the
  raw JavaScript value of its field.

Files, one module each:

| file | module | what it holds |
|---|---|---|
| entities.dfy | Entities | products, cart lines, the purchase aggregate, exceptions, raw JS values |
| money.dfy | Money | `Round2` (`parseFloat(x.toFixed(2))` on exact reals), `Ceil` (`Math.ceil`) and the multiplication facts the proofs use |
| pricing.dfy | Pricing | shipping rate and cost; the totals fold and reference sums |
| reservation.dfy | Reservation | `Reserve`, the specification of the checkout loop, and its lemmas |
| purchase_table.dfy | PurchaseTable | findAll, findOne and the soft delete over the purchase collection |
| purchase_dto.dfy | PurchaseDto | the request's field rules, the `validShares` list, the typed request |
| purchase_service.dfy | Service | class `PurchaseService` with `Checkout` and `Remove`, the new-purchase record, worked examples |

Money is modelled with exact reals. `Round2` rounds to the nearest cent, and a
tie goes away from zero, which is what `toFixed(2)` does on an exact value. The
binary-double behaviour of JavaScript is not reproduced.

The store is a `PurchaseService` object. Its three fields model the
collaborators' state: the buyer's cart (`cart`), the product service's products
(`products`) and the purchase collection (`purchases`, in insertion order).
`Checkout` is an imperative method. It runs the cart loop through
`PurchaseService.ReserveLines`, whose loop is proved against
`Reservation.Reserve`. Its postcondition gives the whole new state in terms of
`Reserve`, `Totals`, `ShippingCost` and `NewPurchase`. The lemmas about those
functions state what the source promises.

The following are parameters:
- the user record returned by the user service;
- `capitalizeText`, as a function `string -> string`;
- the shipping rate table, as `ShippingRates` with the key of the OTHER method;
- the products the product service holds, as the `products` map;
- the new document's id and the current time.

Two behaviours of the code that the model keeps:
- `findOne` passes `{ _id: id, active: true }` to `findById`, which looks up by
  id only. So a removed purchase is still found (`FindOneAfterRemove`).
- Checkout writes the share count under the key `shares`: the object it passes
  to `create` carries the request's value under that key.

## Model

| member | source | states |
|---|---|---|
| Money.Round2 | src/modules/purchase/services/purchase.service.ts:193 | the rounded amount has at most two decimals and lies within 0.005 of the input |
| Money.Round2Nearest | src/modules/purchase/services/purchase.service.ts:193 | no amount with two decimals is nearer to the input than the rounded one |
| Money.Round2TieAwayFromZero | src/modules/purchase/services/purchase.service.ts:193 | on a tie the result is further from zero than the input |
| Money.Round2OfCents | src/modules/purchase/services/purchase.service.ts:193 | an amount that already has two decimals is unchanged |
| Money.Round2Idempotent | src/modules/purchase/services/purchase.service.ts:193 | rounding twice is rounding once |
| Money.Ceil | src/modules/purchase/services/purchase.service.ts:225 | the least integer not below its argument |
| Pricing.ShippingRate | src/modules/purchase/services/purchase.service.ts:190-191 | the rate picked is one of the table's, and it is 0 only when the method has no non-zero rate of its own and OTHER's rate is 0 |
| Pricing.ShippingCost | src/modules/purchase/services/purchase.service.ts:189-195 | the cost is in whole cents and within 0.005 of price times the selected rate |
| Pricing.ShippingUsesMethodRate | src/modules/purchase/services/purchase.service.ts:190-193 | a method with a configured non-zero rate costs round2(price·rate) |
| Pricing.ShippingFallsBackToOther | src/modules/purchase/services/purchase.service.ts:190-193 | a method with no rate, or with a rate of 0, costs round2(price·OTHER rate) |
| Pricing.ShippingCostNonNegative | src/modules/purchase/services/purchase.service.ts:189-195 | a non-negative price with non-negative rates never yields a negative cost |
| Pricing.Totals | src/modules/purchase/services/purchase.service.ts:92-108 | the fold keeps subtotal + tax = total |
| Pricing.SumAppend | src/modules/purchase/services/purchase.service.ts:92-108 | appending a line adds its price·qty and tax·qty to the reference sums |
| Pricing.TotalsAreSums | src/modules/purchase/services/purchase.service.ts:92-108 | total = Σ price·qty, tax = Σ tax·qty, subtotal = their difference; all 0 for no lines |
| Reservation.Accepts | src/modules/purchase/services/purchase.service.ts:75 | an accepted line names an existing product, and taking it off that stock leaves the stock non-negative |
| Reservation.Snapshot | src/modules/purchase/services/purchase.service.ts:77-84 | the purchase line is the cart line (product and quantity) carrying the product's name, category, price and tax |
| Reservation.Take | src/modules/purchase/services/purchase.service.ts:86 | only the named product's quantity changes, by the amount; its catalogue data and every other product stay |
| Reservation.Step | src/modules/purchase/services/purchase.service.ts:75-86 | one iteration: the lines so far are kept; an accepted line appends its snapshot and lowers its product's stock by its quantity, keeping that product's catalogue data and every other product; a refused line changes nothing |
| Reservation.Reserve | src/modules/purchase/services/purchase.service.ts:69-88 | the loop over the whole cart keeps the same products and yields at most one purchase line per cart line |
| Reservation.ReserveKeepsCatalogue | src/modules/purchase/services/purchase.service.ts:69-88 | the loop keeps the same products with the same id, name, category, price and tax |
| Reservation.ReserveStockNonNegative | src/modules/purchase/services/purchase.service.ts:75-86 | stock that starts non-negative stays non-negative |
| Reservation.ReserveConservesStock | src/modules/purchase/services/purchase.service.ts:75-86 | every product's stock drops by exactly the quantity of the purchase lines for it |
| Reservation.ReserveUntouched | src/modules/purchase/services/purchase.service.ts:69-88 | a product named by no cart line is left exactly as it was |
| Reservation.ReserveSnapshots | src/modules/purchase/services/purchase.service.ts:77-84 | each purchase line names an existing product and copies its name, category, price and tax |
| Reservation.ReserveKeepsCartOrder | src/modules/purchase/services/purchase.service.ts:69-88 | the purchase lines are the cart lines with some left out, in cart order |
| Reservation.ReserveDistinct | src/modules/purchase/services/purchase.service.ts:69-88 | with distinct products, a line is copied iff its product exists and its quantity ≤ the stock |
| PurchaseTable.FindIndex | src/modules/purchase/services/purchase.service.ts:236-238 | the first position holding the id, and none exactly when no purchase has that id |
| PurchaseTable.FindOne | src/modules/purchase/services/purchase.service.ts:235-247 | succeeds iff a purchase has the id and returns it; otherwise NotFound "Purchase not found" with status 404 |
| PurchaseTable.ActiveRecords | src/modules/purchase/services/purchase.service.ts:204-207 | exactly the active purchases, never more than the collection holds |
| PurchaseTable.ActiveRecordsCount | src/modules/purchase/services/purchase.service.ts:204-207 | the listing holds each active record exactly as many times as the collection does and no inactive one, so its length is the count `countDocuments({ active: true })` returns |
| PurchaseTable.Summarize | src/modules/purchase/services/purchase.service.ts:208-213 | the projection drops exactly the purchase lines: with them put back it is the purchase again |
| PurchaseTable.PageCount | src/modules/purchase/services/purchase.service.ts:225 | ceil(total/size) is the least number of pages of `size` items that holds all items |
| PurchaseTable.FindAll | src/modules/purchase/services/purchase.service.ts:202-228 | only active purchases, the ones from position page·size on, at most `size`; itemCount, totalItems and totalPages = ceil(totalItems/size) |
| PurchaseTable.PageNonEmpty | src/modules/purchase/services/purchase.service.ts:215-225 | a page has items exactly when its number is below totalPages |
| PurchaseTable.SoftDelete | src/modules/purchase/services/purchase.service.ts:297-299 | only the `active` field of the purchase with that id changes, to false; the record stays |
| PurchaseTable.SoftDeleteIdempotent | src/modules/purchase/services/purchase.service.ts:296-308 | removing twice is removing once |
| PurchaseTable.FindOneAfterRemove | src/modules/purchase/services/purchase.service.ts:235-247 | after a remove the lookup still returns the purchase, now inactive |
| PurchaseTable.FindAllAfterRemove | src/modules/purchase/services/purchase.service.ts:202-217 | after a remove the listing no longer holds the purchase |
| PurchaseTable.SoftDeleteKeepsIds | src/modules/purchase/services/purchase.service.ts:297-299 | the soft delete changes no id, so ids stay unique |
| PurchaseDto.Valid | src/modules/purchase/dto/create-purchase.dto.ts:20-74 | a body is valid iff both methods are non-empty enum strings, the places strings of ≥ 3 characters, financed a boolean and initialPayment a number in [0, 1e16]; the share plays no part |
| PurchaseDto.ToDto | src/modules/purchase/dto/create-purchase.dto.ts:20-74 | every field of the typed request is the body's own value; for a valid body that gives enum methods, places of ≥ 3 characters, a boolean financed flag and 0 ≤ initialPayment ≤ 1e16 |
| PurchaseDto.MethodRuleMeans | src/modules/purchase/dto/create-purchase.dto.ts:21-31 | a method field passes iff it is a non-empty string of its enum |
| PurchaseDto.PlaceRuleMeans | src/modules/purchase/dto/create-purchase.dto.ts:33-49 | address, city and country pass iff they are strings of at least 3 characters |
| PurchaseDto.FinancedRuleMeans | src/modules/purchase/dto/create-purchase.dto.ts:51-57 | financed passes iff it is a boolean |
| PurchaseDto.ValidSharesInRange | src/modules/purchase/dto/create-purchase.dto.ts:18 | every element of validShares is an integer in [1, 36] |
| PurchaseDto.ValidSharesPassChecks | src/modules/purchase/dto/create-purchase.dto.ts:59-63 | a listed share passes IsNumber, IsNotEmpty, IsInt, Min(1) and Max(36) |
| PurchaseDto.ShareRule | src/modules/purchase/dto/create-purchase.dto.ts:59-66 | because of ValidateIf, no share value is ever rejected |
| PurchaseDto.ShareRuleAcceptsUnlisted | src/modules/purchase/dto/create-purchase.dto.ts:64 | 2, 37, 1.5, a string and a missing share all pass, though 37, the string and the missing value fail the checks |
| PurchaseDto.InitialPaymentRuleMeans | src/modules/purchase/dto/create-purchase.dto.ts:68-73 | initialPayment passes iff it is a number in [0, 1e16] |
| Service.Rethrow | src/modules/purchase/services/purchase.service.ts:175-179 | the rethrown error keeps the message and surfaces as a plain Error with status 500 |
| Service.CompleteName | src/modules/purchase/services/purchase.service.ts:61 | the first, second, last and family names in that order, with one space between each two and nothing else |
| Service.NewPayment | src/modules/purchase/services/purchase.service.ts:120-160 | total = shipping + order total; debt = total − initialPayment if financed, else 0; paid = ¬financed; currentShare = 1 |
| Service.NewPurchase | src/modules/purchase/services/purchase.service.ts:136-162 | the record holds the lines, customer, shipping with its cost, payment total = subtotal + tax + shipping, and active = true |
| Service.PurchaseService.Checkout | src/modules/purchase/services/purchase.service.ts:40-181 | an empty cart fails with "Cart is empty"; success iff the cart is non-empty and the id is new; on failure nothing changes; on success stock = Reserve's stock, the new purchase is appended, the cart is cleared |
| Service.PurchaseService.ReserveLines | src/modules/purchase/services/purchase.service.ts:67-88 | the loop builds exactly the lines and stock of `Reserve` over the cart, keeps stock non-negative and touches neither cart nor purchases |
| Service.PurchaseService.Remove | src/modules/purchase/services/purchase.service.ts:296-308 | 404 iff no purchase has the id, else true; the collection becomes SoftDelete of the old one; cart and stock unchanged |
| Service.OverpaymentGivesNegativeDebt | src/modules/purchase/services/purchase.service.ts:121-125 | every valid financed request whose initial payment exceeds the total payment records a negative debt |
| Service.OverpaymentExample | src/modules/purchase/dto/create-purchase.dto.ts:68-73 | a concrete valid request paying 100 against a total of 52.5, so such requests exist |
| Service.WorkedExample | src/modules/purchase/services/purchase.service.ts:92-125 | 2 units at 100 with tax 10 and rate 0.05: 180/20/200, shipping 10, payment 210, debt 0 or 160 when financed with 50, stock 5 → 3 |
| Service.ShortStockExample | src/modules/purchase/services/purchase.service.ts:69-108 | a line asking 10 of a stock of 5 is left out and its stock untouched; totals count only the other line |

## Left out

- `calculateInteres`, `calculateShare` and `calculateMonthlyPayment` (purchase.service.ts:264-280): floating-point math with `Math.pow` and a negative exponent, never called from checkout.
- `payShare` and `downloadInvoice` (purchase.service.ts:249-262, 282-294): their queries are not awaited, so the 404 branches cannot be taken. `payShare` updates a field the payment record does not have.
- Service.PurchaseService.Checkout: rollback is modelled as intended: on failure the products are restored. In the source, `changeAmount` and `create` are not given the session, and `save({ session })` is commented out, so the stock decrements are not actually undone.
- Service.PurchaseService.Checkout: the only failures modelled are the empty cart and a `create` on an id already stored. Other store, network, cart-service and user-service failures are not modelled. The success value is the new id, not the message string built at line 174.
- Service.PurchaseService.Checkout: the cart, user, product and purchase collaborators are in-memory state and parameters. Logging, `console.log` and the session object are left out. Concurrent checkouts are not modelled.
- Pricing.ShippingCost: requires that the method has a non-zero rate of its own or that the table has an OTHER rate. With neither, `shippingRates[category] || shippingRates[OTHER]` is `undefined` and the source computes NaN, which is not modelled. Rates and amounts are exact reals, not doubles.
- PurchaseTable.FindAll: requires size > 0 and a non-negative page. With size 0 the store applies no limit, and `Math.ceil(total / 0)` is Infinity when there are active purchases and NaN (0 / 0) when there are none. The pagination request's own validation is not part of this model.
- PurchaseTable.FindOne / Service.PurchaseService.Remove: ids are taken to be well-formed ObjectIds. A malformed id such as `"abc"` makes Mongoose's `_id` cast in `findById` / `findByIdAndUpdate` throw a CastError, a 500 rather than the 404 at lines 240 and 301, and that path is not modelled.
- Cart-line and product quantities are modelled as `int`. The source holds them as JavaScript numbers, so fractional, NaN or unsafe-integer quantities are not modelled.
- PurchaseTable.FindOne: the `active: true` condition passed to `findById` is not a filter, and the model does not claim it is.
- How the store maps the record's `shares` key onto the payment schema's `share` field (default 1) is not modelled. The record keeps the request's value.
- `capitalizeText`, the `shippingRates` table and the values of the PaymentMethod and ShippingMethod enums are not shown. They are parameters.
- PurchaseDto.PlaceRule: `MinLength(3)` is taken to count the characters of the string, one Dafny `char` each. How class-validator's length check treats surrogate pairs is not part of this model.
- PurchaseTable.FindAll: the store's natural order is taken to be insertion order. `find` without a sort does not guarantee any order, so which purchases fall on which page is an assumption of the model.
- Reservation.Accepts: the product collaborator is assumed to return nothing for an unknown id, so the `currentProduct &&` guard skips that line. `ProductService.findOne` is not part of this model; if it throws instead, as this service's own `findOne` does, checkout aborts and rethrows, and that path is not modelled.
- The DI and JWT wiring in `src/auth/auth.module.ts`, and the schema declarations in the entity files, have no behaviour to model.

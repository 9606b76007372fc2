/**
  The records the purchase service reads and writes: products and cart lines of
  the collaborating services, the purchase aggregate with its embedded customer,
  shipping and payment parts, the exceptions the service raises, and the
  JavaScript values a request body may carry.
 */
module Entities {

  type ProductId = string
  type PurchaseId = string
  type UserId = string

  /** A JavaScript value as it arrives in a JSON request body. Numbers are
      finite (NaN and the infinities are not modelled). */
  datatype Value =
    | Undefined
    | Null
    | Bool(b: bool)
    | Num(n: real)
    | Str(s: string)
    | Composite  // an array or an object

  /** A product as the product service returns it. */
  datatype Product = Product(
    id: ProductId,
    name: string,
    category: string,
    price: real,
    tax: real,
    quantity: int)

  /** One line of the buyer's cart. */
  datatype CartLine = CartLine(product: ProductId, quantity: int)

  /** A line of a purchase: a frozen copy of the product's data at checkout. */
  datatype PurchaseItem = PurchaseItem(
    product: ProductId,
    name: string,
    quantity: int,
    category: string,
    price: real,
    tax: real)

  /** The user as the user service returns it. */
  datatype User = User(
    id: UserId,
    firstName: string,
    secondName: string,
    lastName: string,
    familyName: string,
    email: string,
    phone: string)

  datatype CustomerInfo = CustomerInfo(
    userId: UserId,
    userName: string,
    email: string,
    phone: string)

  datatype ShippingInfo = ShippingInfo(
    shippingMethod: string,
    address: string,
    city: string,
    country: string,
    shippingCost: real)

  /** The payment part as checkout writes it; `shares` carries the request's
      share value untouched. */
  datatype PaymentInfo = PaymentInfo(
    paymentMethod: string,
    paid: bool,
    financed: bool,
    shares: Value,
    currentShare: int,
    total: real,
    debt: real,
    paidAt: int)

  /** The purchase aggregate; `active` is the soft-delete marker. */
  datatype Purchase = Purchase(
    id: PurchaseId,
    products: seq<PurchaseItem>,
    customer: CustomerInfo,
    shipping: ShippingInfo,
    payment: PaymentInfo,
    active: bool)

  /** The exceptions of the service: the two HTTP exceptions it raises, an error
      of the document store, and the plain Error that checkout rethrows. */
  datatype Exception =
    | BadRequest(message: string)
    | NotFound(message: string)
    | StoreError(message: string)
    | Error(message: string)
  {
    /** The HTTP status a caller sees; a plain Error surfaces as 500. */
    function Status(): int {
      match this
      case BadRequest(_) => 400
      case NotFound(_) => 404
      case StoreError(_) => 500
      case Error(_) => 500
    }
  }

  datatype Result<T> = Success(value: T) | Failure(error: Exception)

  datatype Option<T> = None | Some(value: T)

  const CartIsEmpty: string := "Cart is empty"
  const PurchaseNotFound: string := "Purchase not found"
  /** Stands for the store's message when a document with an existing id is created. */
  const DuplicateKey: string := "duplicate key"
}

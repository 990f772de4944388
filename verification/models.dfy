/** The database rows and enumerations of backend/models.py. Money columns
    are `Float` in the source; here they are integers in minor units. */
module Models {
  import opened Common

  /** The three accepted payment methods and their stored string values. */
  datatype PaymentMethod = CreditCard | Paypal | CashOnDelivery

  function MethodValue(m: PaymentMethod): string
  {
    match m
    case CreditCard => "credit_card"
    case Paypal => "paypal"
    case CashOnDelivery => "cash_on_delivery"
  }

  /** `PaymentMethod(s)`: the member whose value is `s`, or the ValueError. */
  function ParseMethod(s: string): (r: Option<PaymentMethod>)
    ensures r.Some? ==> MethodValue(r.value) == s
  {
    if s == "credit_card" then Some(CreditCard)
    else if s == "paypal" then Some(Paypal)
    else if s == "cash_on_delivery" then Some(CashOnDelivery)
    else None
  }

  /** Parsing accepts exactly the three stored values, each naming its own member. */
  lemma ParseMethodExact(s: string)
    ensures ParseMethod(s).Some? <==> s in {"credit_card", "paypal", "cash_on_delivery"}
    ensures forall m :: ParseMethod(MethodValue(m)) == Some(m)
  {
    forall m ensures ParseMethod(MethodValue(m)) == Some(m) {
      match m
      case CreditCard =>
      case Paypal =>
      case CashOnDelivery =>
    }
  }

  datatype PaymentStatus = Pending | Completed | Failed | AwaitingDelivery

  function StatusValue(s: PaymentStatus): string
  {
    match s
    case Pending => "pending"
    case Completed => "completed"
    case Failed => "failed"
    case AwaitingDelivery => "awaiting_delivery"
  }

  /** The four status values are pairwise distinct. */
  lemma StatusValuesDistinct(a: PaymentStatus, b: PaymentStatus)
    requires StatusValue(a) == StatusValue(b)
    ensures a == b
  {
  }

  datatype User = User(email: string, userType: string)

  /** A product row. `peeling_price` has no default and may be null. */
  datatype Product = Product(
    price: int,
    quantity: int,
    sellerId: int,
    peelingAvailable: bool,
    peelingPrice: Option<int>,
    validatedByAdmin: bool)

  /** `Product(...)` with the column defaults: not yet validated by an admin. */
  function NewProduct(price: int, quantity: int, sellerId: int, peelingAvailable: bool, peelingPrice: Option<int>): (p: Product)
    ensures !p.validatedByAdmin
    ensures p.price == price && p.quantity == quantity && p.sellerId == sellerId
  {
    Product(price, quantity, sellerId, peelingAvailable, peelingPrice, false)
  }

  datatype CartLine = CartLine(userId: int, productId: int, quantity: int, totalPrice: int)

  const StatusPending := "pending"
  const StatusAwaitingPayment := "awaiting_payment"

  datatype Order = Order(
    buyerId: int,
    productId: int,
    quantity: int,
    totalPrice: int,
    peelingRequested: bool,
    status: string,
    deliveryAddress: string)

  /** `Order(...)` without `status` or `peeling_requested`: the defaults
      `'pending'` and `False` apply. */
  function NewOrder(buyerId: int, productId: int, quantity: int, totalPrice: int, address: string): (o: Order)
    ensures o.status == StatusPending && !o.peelingRequested
    ensures o.buyerId == buyerId && o.productId == productId && o.quantity == quantity
    ensures o.totalPrice == totalPrice && o.deliveryAddress == address
  {
    Order(buyerId, productId, quantity, totalPrice, false, StatusPending, address)
  }

  datatype Payment = Payment(
    userId: int,
    amount: int,
    paymentMethod: PaymentMethod,
    paymentStatus: PaymentStatus,
    transactionId: Option<string>)

  /** `Payment(user_id, amount, payment_method)`: status defaults to PENDING
      and no transaction id is set yet. */
  function NewPayment(userId: int, amount: int, m: PaymentMethod): (p: Payment)
    ensures p.paymentStatus == Pending && p.transactionId == None
    ensures p.userId == userId && p.amount == amount && p.paymentMethod == m
  {
    Payment(userId, amount, m, Pending, None)
  }
}

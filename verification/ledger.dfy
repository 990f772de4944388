/** The inventory, cart, order and payment handlers of backend/main.py over
    the tables of backend/models.py. Each route handler is a method of
    `Store`: it receives the caller's identity (what `get_jwt_identity()`
    returns) and the request fields, checks its preconditions, updates the
    tables, and returns the HTTP status it answers with. A handler that
    answers with an error leaves every table as it was; where the source
    raises inside a transaction and rolls back, the model checks the failing
    condition before it writes anything, which ends in the same state. */
module Ledger {
  import opened Common
  import opened Models
  import opened Tally
  import Text

  /* ---------------------------------------------------------------------
     Where each product's stock is: on the shelf, in carts, or in orders.
     --------------------------------------------------------------------- */

  function Stock(products: map<int, Product>, pid: int): int
  {
    if pid in products then products[pid].quantity else 0
  }

  function CartedQty(line: CartLine, pid: int): int
  {
    if line.productId == pid then line.quantity else 0
  }

  function OrderedQty(o: Order, pid: int): int
  {
    if o.productId == pid then o.quantity else 0
  }

  ghost function CartedMap(cart: map<int, CartLine>, pid: int): map<int, int>
  {
    map k | k in cart :: CartedQty(cart[k], pid)
  }

  ghost function OrderedMap(orders: map<int, Order>, pid: int): map<int, int>
  {
    map k | k in orders :: OrderedQty(orders[k], pid)
  }

  /** Units of product `pid` sitting in cart lines. */
  ghost function Carted(cart: map<int, CartLine>, pid: int): int
  {
    Sum(CartedMap(cart, pid))
  }

  /** Units of product `pid` in orders. */
  ghost function Ordered(orders: map<int, Order>, pid: int): int
  {
    Sum(OrderedMap(orders, pid))
  }

  /** Stock plus carted plus ordered units: what the handlers keep fixed. */
  ghost function HeldIn(products: map<int, Product>, cart: map<int, CartLine>, orders: map<int, Order>, pid: int): int
  {
    Stock(products, pid) + Carted(cart, pid) + Ordered(orders, pid)
  }

  /** Writing a cart line moves the carted count of its product by the
      difference in quantity and leaves every other product's count alone. */
  lemma CartedSet(cart: map<int, CartLine>, k: int, line: CartLine, pid: int)
    ensures Carted(cart[k := line], pid)
         == Carted(cart, pid) - (if k in cart then CartedQty(cart[k], pid) else 0) + CartedQty(line, pid)
  {
    assert CartedMap(cart[k := line], pid) == CartedMap(cart, pid)[k := CartedQty(line, pid)];
    if k in cart {
      SumUpdate(CartedMap(cart, pid), k, CartedQty(line, pid));
    } else {
      SumInsert(CartedMap(cart, pid), k, CartedQty(line, pid));
    }
  }

  /** Deleting a cart line takes its quantity out of its product's carted count. */
  lemma CartedRemove(cart: map<int, CartLine>, k: int, pid: int)
    requires k in cart
    ensures Carted(cart - {k}, pid) == Carted(cart, pid) - CartedQty(cart[k], pid)
  {
    assert CartedMap(cart - {k}, pid) == CartedMap(cart, pid) - {k};
    SumRemove(CartedMap(cart, pid), k);
  }

  /** A new order adds its quantity to its product's ordered count. */
  lemma OrderedInsert(orders: map<int, Order>, k: int, o: Order, pid: int)
    requires k !in orders
    ensures Ordered(orders[k := o], pid) == Ordered(orders, pid) + OrderedQty(o, pid)
  {
    assert OrderedMap(orders[k := o], pid) == OrderedMap(orders, pid)[k := OrderedQty(o, pid)];
    SumInsert(OrderedMap(orders, pid), k, OrderedQty(o, pid));
  }

  /** Changing anything but the product and quantity of existing orders
      leaves every ordered count as it was. */
  lemma OrderedSameQuantities(a: map<int, Order>, b: map<int, Order>, pid: int)
    requires a.Keys == b.Keys
    requires forall k :: k in a ==> a[k].productId == b[k].productId && a[k].quantity == b[k].quantity
    ensures Ordered(a, pid) == Ordered(b, pid)
  {
    assert forall k :: k in OrderedMap(a, pid) ==> OrderedMap(a, pid)[k] == OrderedMap(b, pid)[k];
    assert OrderedMap(a, pid) == OrderedMap(b, pid);
  }

  /** The `total_price` of the user's cart lines, keyed by line id. */
  ghost function LineTotals(cart: map<int, CartLine>, user: int): map<int, int>
  {
    map k | k in cart && cart[k].userId == user :: cart[k].totalPrice
  }

  /** The ids of the user's cart lines: `Cart.query.filter_by(user_id=...)`. */
  function LinesOf(cart: map<int, CartLine>, user: int): set<int>
  {
    set k | k in cart && cart[k].userId == user
  }

  /* ---------------------------------------------------------------------
     Invariants the handlers keep: one cart line per user and product,
     which holds because `add_to_cart` merges into an existing line; the
     `unique=True` columns of backend/models.py (`email`,
     `transaction_id`); and the payment states the handlers can store.
     --------------------------------------------------------------------- */

  /** No user holds two cart lines for the same product. */
  ghost predicate UniqueLines(cart: map<int, CartLine>)
  {
    forall a, b :: a in cart && b in cart && a != b ==>
      cart[a].userId != cart[b].userId || cart[a].productId != cart[b].productId
  }

  /** `User.email` is declared `unique=True`. */
  ghost predicate UniqueEmails(users: map<int, User>)
  {
    forall a, b :: a in users && b in users && a != b ==> users[a].email != users[b].email
  }

  /** `Payment.transaction_id` is declared `unique=True` (NULLs may repeat). */
  ghost predicate UniqueTransactions(payments: map<int, Payment>)
  {
    forall a, b :: a in payments && b in payments && a != b && payments[a].transactionId.Some? ==>
      payments[a].transactionId != payments[b].transactionId
  }

  /** A stored payment is completed, or awaits delivery when paid in cash. */
  ghost predicate PaymentsSettled(payments: map<int, Payment>)
  {
    forall k :: k in payments ==>
      (payments[k].paymentStatus == Completed ||
       (payments[k].paymentStatus == AwaitingDelivery && payments[k].paymentMethod == CashOnDelivery)) &&
      payments[k].transactionId.Some?
  }

  /** The id SQLite gives the next row of a table with an INTEGER PRIMARY KEY
      (backend/models.py declares every `id` so): one past the largest id in
      use, or 1 for an empty table. */
  method NextRowId(keys: set<int>) returns (id: int)
    ensures id !in keys && 1 <= id
    ensures forall k :: k in keys ==> k < id
    ensures id == 1 || id - 1 in keys
  {
    id := 1;
    var rest := keys;
    while rest != {}
      invariant rest <= keys
      invariant 1 <= id
      invariant forall k :: k in keys && k !in rest ==> k < id
      invariant id == 1 || id - 1 in keys
      decreases rest
    {
      NonEmptyHasKey(rest);
      var k :| k in rest;
      if k >= id {
        id := k + 1;
      }
      rest := rest - {k};
    }
  }

  /** The order `create_orders_from_cart` (and `checkout`) makes of a cart line. */
  function OrderFromLine(line: CartLine, address: string, status: string): (o: Order)
    ensures o.buyerId == line.userId && o.productId == line.productId
    ensures o.quantity == line.quantity && o.totalPrice == line.totalPrice
    ensures o.status == status && o.deliveryAddress == address && !o.peelingRequested
  {
    NewOrder(line.userId, line.productId, line.quantity, line.totalPrice, address).(status := status)
  }

  /** `total_price` of a direct order: unit price times quantity, plus the
      peeling surcharge per unit when peeling is both asked for and offered.
      `None` is the TypeError of multiplying a null `peeling_price`. */
  function OrderTotal(p: Product, quantity: int, peelingRequested: bool): (r: Option<int>)
    ensures !(peelingRequested && p.peelingAvailable) ==> r == Some(p.price * quantity)
    ensures peelingRequested && p.peelingAvailable && p.peelingPrice.Some? ==>
              r == Some((p.price + p.peelingPrice.value) * quantity)
    ensures r.None? <==> peelingRequested && p.peelingAvailable && p.peelingPrice.None?
  {
    if peelingRequested && p.peelingAvailable then
      match p.peelingPrice
      case None => None
      case Some(pp) => Some(p.price * quantity + pp * quantity)
    else Some(p.price * quantity)
  }

  /** The payment status `process_payment` stores for a method. */
  function SettledStatus(m: PaymentMethod): PaymentStatus
  {
    if m == CashOnDelivery then AwaitingDelivery else Completed
  }

  /** The status `create_orders_from_cart` gives orders under a payment status. */
  function OrderStatusFor(s: PaymentStatus): string
  {
    if s == Completed then StatusPending else StatusAwaitingPayment
  }

  /** Cash on delivery leaves orders awaiting payment; the other methods
      release them as pending. */
  lemma OrderStatusByMethod(m: PaymentMethod)
    ensures OrderStatusFor(SettledStatus(m)) == (if m == CashOnDelivery then "awaiting_payment" else "pending")
    ensures SettledStatus(m) != Pending && SettledStatus(m) != Failed
  {
  }

  function TransactionPrefix(m: PaymentMethod): string
  {
    match m
    case CreditCard => "CC-"
    case Paypal => "PP-"
    case CashOnDelivery => "COD-"
  }

  /** The request fields of POST /api/payment/process. */
  datatype PaymentRequest = PaymentRequest(
    paymentMethod: Field<string>,
    hasCardFields: bool,       // card_number, expiry_month, expiry_year and cvv all present
    hasPaypalToken: bool,
    deliveryAddress: Field<string>)

  /** What `process_*_payment` checks of the request for each method. */
  predicate MethodAccepts(m: PaymentMethod, req: PaymentRequest)
  {
    match m
    case CreditCard => req.hasCardFields
    case Paypal => req.hasPaypalToken
    case CashOnDelivery => !req.deliveryAddress.Absent?
  }

  /** The fields of a PUT /api/products/<id> body that name columns. A JSON
      null in a nullable boolean column reads back as false. */
  datatype ProductPatch = ProductPatch(
    price: Field<int>,
    quantity: Field<int>,
    sellerId: Field<int>,
    peelingAvailable: Option<bool>,
    peelingPrice: Field<int>,
    validatedByAdmin: Option<bool>)

  /** A null in a NOT NULL column fails the commit. */
  predicate PatchFitsColumns(patch: ProductPatch)
  {
    !patch.price.Null? && !patch.quantity.Null? && !patch.sellerId.Null?
  }

  function ApplyPatch(p: Product, patch: ProductPatch): Product
    requires PatchFitsColumns(patch)
  {
    Product(
      if patch.price.Present? then patch.price.value else p.price,
      if patch.quantity.Present? then patch.quantity.value else p.quantity,
      if patch.sellerId.Present? then patch.sellerId.value else p.sellerId,
      if patch.peelingAvailable.Some? then patch.peelingAvailable.value else p.peelingAvailable,
      match patch.peelingPrice
      case Absent => p.peelingPrice
      case Null => None
      case Present(v) => Some(v),
      if patch.validatedByAdmin.Some? then patch.validatedByAdmin.value else p.validatedByAdmin)
  }

  /** The multipart `product_image` part of POST /api/products. */
  datatype ImageUpload = NoFile | File(filename: string, contentType: string)

  /** The form fields of POST /api/products, already converted by `float()`
      and `int()`; a missing `peeling_price` is 0. */
  datatype ProductForm = ProductForm(price: int, quantity: int, peelingAvailable: Option<string>, peelingPrice: Option<int>)

  predicate StartsWith(s: string, prefix: string)
  {
    |prefix| <= |s| && s[..|prefix|] == prefix
  }

  /** `GET /api/products`: the public listing keeps exactly the validated products. */
  function PublicProducts(products: map<int, Product>): (r: map<int, Product>)
    ensures forall id :: id in r <==> id in products && products[id].validatedByAdmin
    ensures forall id :: id in r ==> r[id] == products[id]
  {
    map id | id in products && products[id].validatedByAdmin :: products[id]
  }

  /** The orders `confirm_delivery_payment` releases: the caller's orders
      awaiting payment become pending. */
  function Released(orders: map<int, Order>, buyer: int): (r: map<int, Order>)
    ensures r.Keys == orders.Keys
    ensures forall o :: o in r ==> r[o] == orders[o].(status := r[o].status)
    ensures forall o :: o in r && r[o].buyerId == buyer ==> r[o].status != StatusAwaitingPayment
    ensures forall o :: o in r && orders[o].buyerId != buyer ==> r[o] == orders[o]
  {
    map o | o in orders ::
      if orders[o].buyerId == buyer && orders[o].status == StatusAwaitingPayment
      then orders[o].(status := StatusPending) else orders[o]
  }

  /** The method `PaymentMethod(data['payment_method'])` yields; a null or
      unknown value is the ValueError answered with 400. */
  function RequestedMethod(req: PaymentRequest): (r: Option<PaymentMethod>)
    ensures r.Some? <==> req.paymentMethod.Present? && ParseMethod(req.paymentMethod.value).Some?
    ensures r.Some? ==> MethodValue(r.value) == req.paymentMethod.value
  {
    if req.paymentMethod.Present? then ParseMethod(req.paymentMethod.value) else None
  }

  /** Some cart line names the product. */
  predicate InSomeCart(cart: map<int, CartLine>, pid: int)
  {
    exists k :: k in cart && cart[k].productId == pid
  }

  /** Some stored payment already carries transaction id `tx`. */
  predicate TransactionTaken(payments: map<int, Payment>, tx: string)
  {
    exists k :: k in payments && payments[k].transactionId == Some(tx)
  }

  /** The upload checks of `create_product`: a `product_image` part, with a
      file name, whose content type starts with "image/". */
  predicate ImageAccepted(image: ImageUpload)
  {
    image.File? && image.filename != [] && StartsWith(image.contentType, "image/")
  }

  /** The orders `placed` names are new, distinct and made from their cart
      lines; they are the only orders added, and the earlier ones are kept. */
  ghost predicate Placed(before: map<int, Order>, after: map<int, Order>, lines: map<int, CartLine>,
                         placed: map<int, int>, address: string, status: string)
  {
    placed.Keys <= lines.Keys &&
    (forall k :: k in placed ==>
       placed[k] !in before && placed[k] in after && after[placed[k]] == OrderFromLine(lines[k], address, status)) &&
    (forall a, b :: a in placed && b in placed && a != b ==> placed[a] != placed[b]) &&
    (forall o :: o in after ==> o in before || exists k :: k in placed && placed[k] == o) &&
    (forall o :: o in before ==> o in after && after[o] == before[o])
  }

  /** Turning one more line into a fresh order extends the placement. */
  lemma PlacedStep(before: map<int, Order>, mid: map<int, Order>, after: map<int, Order>,
                   lines: map<int, CartLine>, placed: map<int, int>, k: int, id: int,
                   address: string, status: string)
    requires Placed(before, mid, lines, placed, address, status)
    requires k in lines && k !in placed
    requires id !in mid && after == mid[id := OrderFromLine(lines[k], address, status)]
    ensures Placed(before, after, lines, placed[k := id], address, status)
  {
    assert forall j :: j in placed ==> placed[j] in mid;
  }

  /** The database: one map per table, keyed by row id. */
  class Store {
    var users: map<int, User>
    var products: map<int, Product>
    var cart: map<int, CartLine>
    var orders: map<int, Order>
    var payments: map<int, Payment>

    ghost predicate Valid()
      reads this
    {
      UniqueLines(cart) && UniqueEmails(users) &&
      UniqueTransactions(payments) && PaymentsSettled(payments)
    }

    /** Stock plus carted plus ordered units of product `pid`. */
    ghost function Held(pid: int): int
      reads this`products, this`cart, this`orders
    {
      HeldIn(products, cart, orders, pid)
    }

    constructor ()
      ensures Valid()
      ensures users == map[] && products == map[] && cart == map[] && orders == map[] && payments == map[]
    {
      users, products, cart, orders, payments := map[], map[], map[], map[], map[];
    }

    /** `Cart.update_total_price`: the line's total becomes its quantity times
        the product's unit price; nothing else changes. */
    method UpdateTotalPrice(k: int)
      requires k in cart && cart[k].productId in products
      modifies this`cart
      ensures cart == old(cart)[k := old(cart)[k].(totalPrice := old(cart)[k].quantity * products[old(cart)[k].productId].price)]
    {
      var line := cart[k];
      cart := cart[k := line.(totalPrice := line.quantity * products[line.productId].price)];
    }

    /** POST /api/register: an email already on file is refused. */
    method Register(email: string, userType: string) returns (status: int)
      requires Valid()
      modifies this`users
      ensures Valid()
      ensures status == 400 <==> exists k :: k in old(users) && old(users)[k].email == email
      ensures status == 400 ==> users == old(users)
      ensures status != 400 ==>
                status == 200 && exists id :: id !in old(users) && users == old(users)[id := User(email, userType)]
    {
      if exists k :: k in users && users[k].email == email {
        return 400;
      }
      var id := NextRowId(users.Keys);
      users := users[id := User(email, userType)];
      status := 200;
    }

    /** Adds `quantity` units to cart line `k` and recomputes its total at
        the product's price. */
    method GrowLine(k: int, quantity: int)
      requires k in cart && cart[k].productId in products
      requires UniqueLines(cart)
      modifies this`cart
      ensures cart == old(cart)[k := old(cart)[k].(quantity := old(cart)[k].quantity + quantity,
                                                   totalPrice := (old(cart)[k].quantity + quantity) * products[old(cart)[k].productId].price)]
      ensures UniqueLines(cart)
      ensures forall pid :: Carted(cart, pid) == Carted(old(cart), pid) + (if pid == old(cart)[k].productId then quantity else 0)
    {
      ghost var c0 := cart;
      cart := cart[k := cart[k].(quantity := cart[k].quantity + quantity)];
      UpdateTotalPrice(k);
      assert cart == c0[k := cart[k]];
      forall pid ensures Carted(cart, pid) == Carted(c0, pid) + (if pid == c0[k].productId then quantity else 0) {
        CartedSet(c0, k, cart[k], pid);
      }
    }

    /** Stores `line` under a fresh id. */
    method AddLine(line: CartLine) returns (id: int)
      requires UniqueLines(cart)
      requires forall k :: k in cart ==> cart[k].userId != line.userId || cart[k].productId != line.productId
      modifies this`cart
      ensures id !in old(cart) && cart == old(cart)[id := line]
      ensures UniqueLines(cart)
      ensures forall pid :: Carted(cart, pid) == Carted(old(cart), pid) + CartedQty(line, pid)
    {
      ghost var c0 := cart;
      id := NextRowId(cart.Keys);
      cart := cart[id := line];
      forall pid ensures Carted(cart, pid) == Carted(c0, pid) + CartedQty(line, pid) {
        CartedSet(c0, id, line, pid);
      }
    }

    /** POST /api/cart/add. */
    method AddToCart(caller: int, productId: int, quantity: int) returns (status: int)
      requires Valid()
      modifies this`cart, this`products
      ensures Valid()
      ensures status in {201, 400, 404}
      ensures status == 404 <==> productId !in old(products)
      ensures status != 201 ==> cart == old(cart) && products == old(products)
      // Rejected when the (already reduced) stock is below the requested
      // quantity, or below the existing line's quantity plus the request.
      ensures status == 400 <==>
                productId in old(products) &&
                (old(products)[productId].quantity < quantity ||
                 exists k :: k in old(cart) && old(cart)[k].userId == caller && old(cart)[k].productId == productId &&
                   old(products)[productId].quantity < old(cart)[k].quantity + quantity)
      ensures status == 201 ==>
                products == old(products)[productId := old(products)[productId].(quantity := old(products)[productId].quantity - quantity)]
      // An existing line for this user and product grows; it is never duplicated.
      ensures status == 201 ==> forall k :: k in old(cart) && old(cart)[k].userId == caller && old(cart)[k].productId == productId ==>
                cart == old(cart)[k := CartLine(caller, productId, old(cart)[k].quantity + quantity,
                                                (old(cart)[k].quantity + quantity) * old(products)[productId].price)]
      ensures status == 201 && (forall k :: k in old(cart) ==> old(cart)[k].userId != caller || old(cart)[k].productId != productId) ==>
                exists id :: id !in old(cart) &&
                  cart == old(cart)[id := CartLine(caller, productId, quantity, old(products)[productId].price * quantity)]
      ensures forall pid :: Held(pid) == old(Held(pid))
    {
      if productId !in products {
        return 404;
      }
      var product := products[productId];
      if product.quantity < quantity {
        return 400;
      }
      if k :| k in cart && cart[k].userId == caller && cart[k].productId == productId {
        var newQuantity := cart[k].quantity + quantity;
        if product.quantity < newQuantity {
          return 400;
        }
        GrowLine(k, quantity);
      } else {
        var id := AddLine(CartLine(caller, productId, quantity, product.price * quantity));
      }
      products := products[productId := product.(quantity := product.quantity - quantity)];
      status := 201;
    }

    /** PUT /api/cart/<id> with an optional `quantity`. The new quantity is
        not checked to be positive. */
    method UpdateCartItem(caller: int, itemId: int, quantity: Field<int>) returns (status: int)
      requires Valid()
      modifies this`cart, this`products
      ensures Valid()
      ensures status in {200, 400, 403, 404, 500}
      ensures status == 404 <==> itemId !in old(cart)
      ensures status == 403 <==> itemId in old(cart) && old(cart)[itemId].userId != caller
      // A null `quantity` fails the subtraction; a line whose product is gone
      // fails the stock read.
      ensures status == 500 <==> itemId in old(cart) && old(cart)[itemId].userId == caller &&
                                 (quantity.Null? || (quantity.Present? && old(cart)[itemId].productId !in old(products)))
      ensures status == 400 <==> itemId in old(cart) && old(cart)[itemId].userId == caller && quantity.Present? &&
                                 old(cart)[itemId].productId in old(products) &&
                                 old(products)[old(cart)[itemId].productId].quantity < quantity.value - old(cart)[itemId].quantity
      ensures status != 200 || quantity.Absent? ==> cart == old(cart) && products == old(products)
      ensures status == 200 && quantity.Present? ==>
                var line := old(cart)[itemId];
                var p := old(products)[line.productId];
                products == old(products)[line.productId := p.(quantity := p.quantity - (quantity.value - line.quantity))] &&
                cart == old(cart)[itemId := line.(quantity := quantity.value, totalPrice := quantity.value * p.price)]
      ensures forall pid :: Held(pid) == old(Held(pid))
    {
      if itemId !in cart {
        return 404;
      }
      var line := cart[itemId];
      if line.userId != caller {
        return 403;
      }
      if quantity.Absent? {
        return 200;
      }
      if quantity.Null? {
        return 500;
      }
      if line.productId !in products {
        // `product.quantity` on a deleted product raises; nothing was written.
        return 500;
      }
      var product := products[line.productId];
      var diff := quantity.value - line.quantity;
      if product.quantity < diff {
        return 400;
      }
      ghost var c0 := cart;
      products := products[line.productId := product.(quantity := product.quantity - diff)];
      cart := cart[itemId := line.(quantity := quantity.value)];
      UpdateTotalPrice(itemId);
      assert cart == c0[itemId := cart[itemId]];
      forall pid ensures Carted(cart, pid) == Carted(c0, pid) - CartedQty(line, pid) + CartedQty(cart[itemId], pid) {
        CartedSet(c0, itemId, cart[itemId], pid);
      }
      status := 200;
    }

    /** DELETE /api/cart/<id>: the line's quantity goes back to the shelf
        when its product still exists. */
    method RemoveFromCart(caller: int, itemId: int) returns (status: int)
      requires Valid()
      modifies this`cart, this`products
      ensures Valid()
      ensures status in {200, 403, 404}
      ensures status == 404 <==> itemId !in old(cart)
      ensures status == 403 <==> itemId in old(cart) && old(cart)[itemId].userId != caller
      ensures status != 200 ==> cart == old(cart) && products == old(products)
      ensures status == 200 ==>
                var line := old(cart)[itemId];
                cart == old(cart) - {itemId} &&
                products == (if line.productId in old(products)
                             then old(products)[line.productId := old(products)[line.productId].(quantity := old(products)[line.productId].quantity + line.quantity)]
                             else old(products))
      ensures status == 200 && old(cart)[itemId].productId !in old(products) ==>
                forall pid :: Held(pid) == old(Held(pid)) - CartedQty(old(cart)[itemId], pid)
      ensures status != 200 || old(cart)[itemId].productId in old(products) ==>
                forall pid :: Held(pid) == old(Held(pid))
    {
      if itemId !in cart {
        return 404;
      }
      var line := cart[itemId];
      if line.userId != caller {
        return 403;
      }
      ghost var c0 := cart;
      if line.productId in products {
        var product := products[line.productId];
        products := products[line.productId := product.(quantity := product.quantity + line.quantity)];
      }
      cart := cart - {itemId};
      forall pid ensures Carted(cart, pid) == Carted(c0, pid) - CartedQty(line, pid) {
        CartedRemove(c0, itemId, pid);
      }
      status := 200;
    }

    /** One turn of the loop of `create_orders_from_cart`: the cart line
        becomes a new order and is deleted. */
    method MoveLineToOrder(k: int, address: string, status: string) returns (id: int)
      requires Valid() && k in cart
      modifies this`cart, this`orders
      ensures Valid()
      ensures id !in old(orders) && orders == old(orders)[id := OrderFromLine(old(cart)[k], address, status)]
      ensures cart == old(cart) - {k}
      ensures forall pid :: Held(pid) == old(Held(pid))
    {
      var line := cart[k];
      id := NextRowId(orders.Keys);
      var order := OrderFromLine(line, address, status);
      forall pid ensures Carted(cart - {k}, pid) + Ordered(orders[id := order], pid) == Carted(cart, pid) + Ordered(orders, pid) {
        CartedRemove(cart, k, pid);
        OrderedInsert(orders, id, order, pid);
      }
      orders := orders[id := order];
      cart := cart - {k};
    }

    /** `create_orders_from_cart`, and the loop of `checkout`: every listed
        cart line becomes an order with the same buyer, product, quantity
        and total, and is deleted. `placed` tells which order each line became. */
    method CreateOrdersFromCart(lines: set<int>, address: string, status: string) returns (ghost placed: map<int, int>)
      requires Valid()
      requires lines <= cart.Keys
      modifies this`cart, this`orders
      ensures Valid()
      ensures cart == old(cart) - lines
      ensures placed.Keys == lines
      ensures Placed(old(orders), orders, old(cart), placed, address, status)
      ensures forall pid :: Held(pid) == old(Held(pid))
    {
      var rest := lines;
      placed := map[];
      while rest != {}
        invariant Valid()
        invariant rest <= lines
        invariant cart == old(cart) - (lines - rest)
        invariant placed.Keys == lines - rest
        invariant Placed(old(orders), orders, old(cart), placed, address, status)
        invariant forall pid :: Held(pid) == old(Held(pid))
        decreases rest
      {
        NonEmptyHasKey(rest);
        var k :| k in rest;
        ghost var before := orders;
        assert cart[k] == old(cart)[k];
        var id := MoveLineToOrder(k, address, status);
        PlacedStep(old(orders), before, orders, old(cart), placed, k, id, address, status);
        assert old(cart) - (lines - (rest - {k})) == (old(cart) - (lines - rest)) - {k};
        rest := rest - {k};
        placed := placed[k := id];
      }
    }

    /** POST /api/cart/checkout: the caller's whole cart becomes pending
        orders at the given address; stock is not touched again. */
    method Checkout(caller: int, address: Field<string>) returns (status: int, ghost placed: map<int, int>)
      requires Valid()
      modifies this`cart, this`orders
      ensures Valid()
      ensures status in {201, 400, 500}
      ensures status == 400 <==> LinesOf(old(cart), caller) == {}
      // A missing address raises inside the transaction, a null one fails the
      // commit: both roll back and answer 500.
      ensures status == 500 <==> LinesOf(old(cart), caller) != {} && !address.Present?
      ensures status != 201 ==> cart == old(cart) && orders == old(orders)
      ensures status == 201 ==>
                cart == old(cart) - LinesOf(old(cart), caller) &&
                placed.Keys == LinesOf(old(cart), caller) &&
                Placed(old(orders), orders, old(cart), placed, address.value, StatusPending)
      ensures forall pid :: Held(pid) == old(Held(pid))
    {
      var lines := LinesOf(cart, caller);
      if lines == {} {
        return 400, map[];
      }
      if !address.Present? {
        return 500, map[];
      }
      placed := CreateOrdersFromCart(lines, address.value, StatusPending);
      status := 201;
    }

    /** POST /api/orders: a direct order, taken from stock. */
    method CreateOrder(caller: int, productId: int, quantity: int, peelingRequested: bool, address: Field<string>)
      returns (status: int)
      requires Valid()
      modifies this`orders, this`products
      ensures Valid()
      ensures status in {201, 400, 404, 500}
      ensures status == 404 <==> productId !in old(products)
      ensures status == 400 <==> productId in old(products) && old(products)[productId].quantity < quantity
      ensures status == 500 <==>
                productId in old(products) && quantity <= old(products)[productId].quantity &&
                (OrderTotal(old(products)[productId], quantity, peelingRequested).None? || !address.Present?)
      ensures status != 201 ==> orders == old(orders) && products == old(products)
      ensures status == 201 ==>
                var p := old(products)[productId];
                products == old(products)[productId := p.(quantity := p.quantity - quantity)] &&
                exists id :: id !in old(orders) &&
                  orders == old(orders)[id := Order(caller, productId, quantity,
                                                    OrderTotal(p, quantity, peelingRequested).value,
                                                    peelingRequested, StatusPending, address.value)]
      ensures forall pid :: Held(pid) == old(Held(pid))
    {
      if productId !in products {
        return 404;
      }
      var product := products[productId];
      if product.quantity < quantity {
        return 400;
      }
      var total := OrderTotal(product, quantity, peelingRequested);
      if total.None? || !address.Present? {
        return 500;
      }
      var order := NewOrder(caller, productId, quantity, total.value, address.value).(peelingRequested := peelingRequested);
      var id := NextRowId(orders.Keys);
      forall pid ensures Ordered(orders[id := order], pid) == Ordered(orders, pid) + OrderedQty(order, pid) {
        OrderedInsert(orders, id, order, pid);
      }
      orders := orders[id := order];
      products := products[productId := product.(quantity := product.quantity - quantity)];
      status := 201;
    }

    /** `sum(item.total_price for item in cart_items)` over the caller's cart. */
    method CartTotal(caller: int) returns (total: int)
      ensures total == Sum(LineTotals(cart, caller))
    {
      var rest := LinesOf(cart, caller);
      ghost var seen: map<int, int> := map[];
      total := 0;
      while rest != {}
        invariant rest <= LinesOf(cart, caller)
        invariant seen == map k | k in LinesOf(cart, caller) && k !in rest :: cart[k].totalPrice
        invariant total == Sum(seen)
        decreases rest
      {
        NonEmptyHasKey(rest);
        var k :| k in rest;
        SumInsert(seen, k, cart[k].totalPrice);
        total := total + cart[k].totalPrice;
        seen := seen[k := cart[k].totalPrice];
        rest := rest - {k};
      }
      assert seen == LineTotals(cart, caller);
    }

    /** POST /api/payment/process with `process_credit_card_payment`,
        `process_paypal_payment` and `process_cash_on_delivery`. `stamp` is
        the clock reading the source formats into the transaction id. A
        missing method is a KeyError outside the `try` (500); a missing
        address raises inside it and a null one or a reused transaction id
        fails the commit, which all roll back (500). */
    method ProcessPayment(caller: int, req: PaymentRequest, stamp: string)
      returns (status: int, ghost placed: map<int, int>)
      requires Valid()
      modifies this`cart, this`orders, this`payments
      ensures Valid()
      ensures status in {201, 400, 500}
      ensures req.paymentMethod.Absent? ==> status == 500
      ensures status == 400 <==>
                !req.paymentMethod.Absent? &&
                (RequestedMethod(req).None? || LinesOf(old(cart), caller) == {} ||
                 !MethodAccepts(RequestedMethod(req).value, req))
      ensures status == 201 <==>
                RequestedMethod(req).Some? && LinesOf(old(cart), caller) != {} &&
                MethodAccepts(RequestedMethod(req).value, req) && req.deliveryAddress.Present? &&
                !TransactionTaken(old(payments), TransactionPrefix(RequestedMethod(req).value) + stamp)
      ensures status != 201 ==> cart == old(cart) && orders == old(orders) && payments == old(payments)
      ensures status == 201 ==>
                var m := RequestedMethod(req).value;
                (exists id :: id !in old(payments) &&
                   payments == old(payments)[id := Payment(caller, Sum(LineTotals(old(cart), caller)), m,
                                                           SettledStatus(m), Some(TransactionPrefix(m) + stamp))]) &&
                cart == old(cart) - LinesOf(old(cart), caller) &&
                placed.Keys == LinesOf(old(cart), caller) &&
                Placed(old(orders), orders, old(cart), placed, req.deliveryAddress.value, OrderStatusFor(SettledStatus(m)))
      ensures forall pid :: Held(pid) == old(Held(pid))
    {
      placed := map[];
      if req.paymentMethod.Absent? {
        return 500, placed;
      }
      var parsed := RequestedMethod(req);
      if parsed.None? {
        return 400, placed;
      }
      var m := parsed.value;
      var lines := LinesOf(cart, caller);
      if lines == {} {
        return 400, placed;
      }
      var amount := CartTotal(caller);
      if !MethodAccepts(m, req) {
        return 400, placed;
      }
      var tx := TransactionPrefix(m) + stamp;
      var paymentStatus := SettledStatus(m);
      if !req.deliveryAddress.Present? || TransactionTaken(payments, tx) {
        return 500, placed;
      }
      placed := CreateOrdersFromCart(lines, req.deliveryAddress.value, OrderStatusFor(paymentStatus));
      var id := NextRowId(payments.Keys);
      // `Payment(...)` starts `pending` with no transaction id; the outcome
      // of the method's processing then overwrites both.
      var payment := NewPayment(caller, amount, m).(paymentStatus := paymentStatus, transactionId := Some(tx));
      payments := payments[id := payment];
      status := 201;
    }

    /** POST /api/payment/confirm-delivery/<id>: only a cash-on-delivery
        payment still awaiting delivery is confirmed. The orders released are
        the caller's, whoever made the payment. */
    method ConfirmDeliveryPayment(caller: int, paymentId: int) returns (status: int)
      requires Valid()
      modifies this`payments, this`orders
      ensures Valid()
      ensures status in {200, 400, 404}
      ensures status == 404 <==> paymentId !in old(payments)
      ensures status == 400 <==>
                paymentId in old(payments) &&
                (old(payments)[paymentId].paymentMethod != CashOnDelivery ||
                 old(payments)[paymentId].paymentStatus != AwaitingDelivery)
      ensures status != 200 ==> payments == old(payments) && orders == old(orders)
      ensures status == 200 ==>
                payments == old(payments)[paymentId := old(payments)[paymentId].(paymentStatus := Completed)] &&
                orders == Released(old(orders), caller)
      ensures forall pid :: Held(pid) == old(Held(pid))
    {
      if paymentId !in payments {
        return 404;
      }
      var payment := payments[paymentId];
      if payment.paymentMethod != CashOnDelivery {
        return 400;
      }
      if payment.paymentStatus != AwaitingDelivery {
        return 400;
      }
      payments := payments[paymentId := payment.(paymentStatus := Completed)];
      assert UniqueTransactions(payments) by {
        forall a, b | a in payments && b in payments && a != b && payments[a].transactionId.Some?
          ensures payments[a].transactionId != payments[b].transactionId
        {
          assert payments[a].transactionId == old(payments)[a].transactionId;
          assert payments[b].transactionId == old(payments)[b].transactionId;
        }
      }
      var rest := orders.Keys;
      while rest != {}
        invariant payments == old(payments)[paymentId := payment.(paymentStatus := Completed)]
        invariant rest <= old(orders).Keys
        invariant orders.Keys == old(orders).Keys
        invariant forall o :: o in orders ==>
                    orders[o] == (if o in rest then old(orders)[o] else Released(old(orders), caller)[o])
        decreases rest
      {
        NonEmptyHasKey(rest);
        var o :| o in rest;
        if orders[o].buyerId == caller && orders[o].status == StatusAwaitingPayment {
          orders := orders[o := orders[o].(status := StatusPending)];
        }
        rest := rest - {o};
      }
      assert forall o :: o in orders ==> orders[o] == Released(old(orders), caller)[o];
      forall pid ensures Ordered(orders, pid) == Ordered(old(orders), pid) {
        OrderedSameQuantities(orders, old(orders), pid);
      }
      status := 200;
    }

    /** POST /api/admin/products/<id>/validate. `isAdmin` is the token's
        `is_admin` claim. */
    method ValidateProduct(isAdmin: bool, productId: int) returns (status: int)
      requires Valid()
      modifies this`products
      ensures Valid()
      ensures status in {200, 400, 403, 404}
      ensures status == 403 <==> !isAdmin
      ensures status == 404 <==> isAdmin && productId !in old(products)
      ensures status == 400 <==> isAdmin && productId in old(products) && old(products)[productId].validatedByAdmin
      ensures status != 200 ==> products == old(products)
      ensures status == 200 ==>
                products == old(products)[productId := old(products)[productId].(validatedByAdmin := true)] &&
                productId in PublicProducts(products) && productId !in PublicProducts(old(products))
      ensures forall pid :: Held(pid) == old(Held(pid))
    {
      if !isAdmin {
        return 403;
      }
      if productId !in products {
        return 404;
      }
      var product := products[productId];
      if product.validatedByAdmin {
        return 400;
      }
      products := products[productId := product.(validatedByAdmin := true)];
      status := 200;
    }

    /** PUT /api/products/<id>: only the seller may patch a product; every
        column the body names is overwritten. */
    method UpdateProduct(caller: int, productId: int, patch: ProductPatch) returns (status: int)
      requires Valid()
      modifies this`products
      ensures Valid()
      ensures status in {200, 403, 404, 500}
      ensures status == 404 <==> productId !in old(products)
      ensures status == 403 <==> productId in old(products) && old(products)[productId].sellerId != caller
      ensures status == 500 <==>
                productId in old(products) && old(products)[productId].sellerId == caller && !PatchFitsColumns(patch)
      ensures status != 200 ==> products == old(products)
      ensures status == 200 ==>
                PatchFitsColumns(patch) &&
                products == old(products)[productId := ApplyPatch(old(products)[productId], patch)]
      ensures forall pid :: pid != productId ==> Held(pid) == old(Held(pid))
      ensures Held(productId) == old(Held(productId)) - old(Stock(products, productId)) + Stock(products, productId)
    {
      if productId !in products {
        return 404;
      }
      var product := products[productId];
      if product.sellerId != caller {
        return 403;
      }
      if !PatchFitsColumns(patch) {
        return 500;
      }
      products := products[productId := ApplyPatch(product, patch)];
      status := 200;
    }

    /** DELETE /api/products/<id>: only the seller may delete a product.
        `Cart.product` has no delete cascade, so deleting a product that a
        cart line names nulls that line's NOT NULL `product_id` and the
        commit fails (500, nothing deleted). Orders have no relationship to
        the product and keep naming it. */
    method DeleteProduct(caller: int, productId: int) returns (status: int)
      requires Valid()
      modifies this`products
      ensures Valid()
      ensures status in {200, 403, 404, 500}
      ensures status == 404 <==> productId !in old(products)
      ensures status == 403 <==> productId in old(products) && old(products)[productId].sellerId != caller
      ensures status == 500 <==>
                productId in old(products) && old(products)[productId].sellerId == caller &&
                InSomeCart(cart, productId)
      ensures status != 200 ==> products == old(products)
      ensures status == 200 ==> products == old(products) - {productId}
      ensures status == 200 ==> forall k :: k in cart ==> cart[k].productId != productId
      ensures forall pid :: pid != productId ==> Held(pid) == old(Held(pid))
      ensures status != 200 ==> Held(productId) == old(Held(productId))
      ensures status == 200 ==> Held(productId) == old(Held(productId)) - old(products)[productId].quantity
    {
      if productId !in products {
        return 404;
      }
      if products[productId].sellerId != caller {
        return 403;
      }
      if InSomeCart(cart, productId) {
        return 500;
      }
      products := products - {productId};
      status := 200;
    }

    /** POST /api/products: a farmer lists a product with an image; it waits
        for an administrator's validation. `User.query.get` finding nobody
        makes the type check raise (500). */
    method CreateProduct(caller: int, form: ProductForm, image: ImageUpload) returns (status: int)
      requires Valid()
      modifies this`products
      ensures Valid()
      ensures status in {201, 400, 403, 500}
      ensures status == 500 <==> caller !in users
      ensures status == 403 <==> caller in users && users[caller].userType != "farmer"
      ensures status == 400 <==> caller in users && users[caller].userType == "farmer" && !ImageAccepted(image)
      ensures status != 201 ==> products == old(products)
      ensures status == 201 ==>
                exists id :: id !in old(products) &&
                  products == old(products)[id := NewProduct(
                    form.price, form.quantity, caller,
                    Text.ToLower(if form.peelingAvailable.Some? then form.peelingAvailable.value else "false") == "true",
                    Some(if form.peelingPrice.Some? then form.peelingPrice.value else 0))]
      ensures status == 201 ==> exists id :: id in products && id !in PublicProducts(products) && products[id].sellerId == caller
      ensures forall pid :: pid in old(products) ==> Held(pid) == old(Held(pid))
    {
      if caller !in users {
        return 500;
      }
      if users[caller].userType != "farmer" {
        return 403;
      }
      if !ImageAccepted(image) {
        return 400;
      }
      var peeling := if form.peelingAvailable.Some? then form.peelingAvailable.value else "false";
      // Python's `str.lower()` differs from `Text.ToLower` only on letters
      // beyond Latin-1, none of which lowers to a letter of "true", so the
      // comparison below comes out the same.
      var peelingPrice := if form.peelingPrice.Some? then form.peelingPrice.value else 0;
      var id := NextRowId(products.Keys);
      products := products[id := NewProduct(form.price, form.quantity, caller,
                                            Text.ToLower(peeling) == "true", Some(peelingPrice))];
      assert id in products && id !in PublicProducts(products) && products[id].sellerId == caller;
      status := 201;
    }
  }
}

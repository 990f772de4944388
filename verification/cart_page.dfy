/** The live `Cart` page of eswika-frontend/src/pages/Cart.jsx (the
    component at lines 500-795): its fetch, quantity, remove and checkout
    handlers over the page state, and the displayed total. Each handler is
    one step; the server's answer is a parameter. */
module CartPage {
  import opened Common
  import opened Text
  import opened Browser
  import StoredUser

  const CartUrl := ApiUrl + "/cart"
  const CheckoutUrl := ApiUrl + "/cart/checkout"

  const LoadFailed := "Unable to load your cart. Please try again later."
  const InsufficientStock := "Insufficient stock"
  const UpdateFailed := "Failed to update quantity"
  const RemoveFailed := "Failed to remove item. Please try again."
  const AddressMissing := "Please enter a delivery address"
  const OrderFailed := "Order creation failed"
  const CheckoutFailed := "Checkout failed. Please try again."

  /** The fields of a cart line the page acts on. */
  datatype CartItem = CartItem(id: nat, quantity: int, totalPrice: int)

  /** `cartItems.reduce((sum, item) => sum + item.total_price, 0)`. */
  function TotalAmount(items: seq<CartItem>): int
  {
    if items == [] then 0 else TotalAmount(items[..|items| - 1]) + items[|items| - 1].totalPrice
  }

  /** The total of two runs of lines is the sum of their totals. */
  lemma {:induction false} TotalAmountAppend(a: seq<CartItem>, b: seq<CartItem>)
    ensures TotalAmount(a + b) == TotalAmount(a) + TotalAmount(b)
    decreases |b|
  {
    if b == [] {
      assert a + b == a;
    } else {
      assert (a + b)[..|a + b| - 1] == a + b[..|b| - 1];
      TotalAmountAppend(a, b[..|b| - 1]);
    }
  }

  /** The displayed total does not depend on the order of the lines. */
  lemma TotalAmountOrderFree(a: seq<CartItem>, b: seq<CartItem>)
    ensures TotalAmount(a + b) == TotalAmount(b + a)
  {
    TotalAmountAppend(a, b);
    TotalAmountAppend(b, a);
  }

  /** The quantity the decrement button asks for; `None` while it is
      disabled. */
  function DecrementQuantity(item: CartItem): (q: Option<int>)
    ensures q.None? <==> item.quantity <= 1
    ensures q.Some? ==> q.value >= 1 && q.value == item.quantity - 1
  {
    if item.quantity <= 1 then None else Some(item.quantity - 1)
  }

  /** `JSON.stringify({ quantity })`. */
  function QuantityBody(quantity: int): string
  {
    "{\"quantity\":" + IntToString(quantity) + "}"
  }

  /** `JSON.stringify({ delivery_address: address })`. */
  function CheckoutBody(address: string): string
  {
    "{\"delivery_address\":\"" + StoredUser.Escape(address) + "\"}"
  }

  /** The checkout post: the address as JSON, with the stored token. */
  function CheckoutRequest(storage: map<string, string>, address: string): HttpRequest
  {
    HttpRequest("POST", CheckoutUrl,
                map["Content-Type" := "application/json", "Authorization" := AuthHeader(storage)],
                CheckoutBody(address))
  }

  /** The checkout body is determined by the address alone, and distinct
      addresses give distinct bodies. */
  lemma CheckoutBodyCarriesAddress(a: string, b: string)
    ensures CheckoutBody(a) == CheckoutBody(b) <==> a == b
  {
    if CheckoutBody(a) == CheckoutBody(b) {
      var pre := "{\"delivery_address\":\"";
      var ea := StoredUser.Escape(a);
      var eb := StoredUser.Escape(b);
      assert ea + "\"}" == eb + "\"}" by {
        assert CheckoutBody(a)[|pre|..] == ea + "\"}";
        assert CheckoutBody(b)[|pre|..] == eb + "\"}";
      }
      assert |ea| == |eb|;
      assert ea == (ea + "\"}")[..|ea|];
      assert eb == (eb + "\"}")[..|eb|];
      StoredUser.EscapeInjective(a, b);
    }
  }

  class CartPage {
    const window: Window
    var items: seq<CartItem>
    var loading: bool
    var error: Option<string>
    var paymentMethod: string
    var address: string
    var navigatedTo: Option<string>

    constructor (window: Window)
      ensures this.window == window && items == [] && loading && error == None
      ensures paymentMethod == "CASH_ON_DELIVERY" && address == "" && navigatedTo == None
    {
      this.window := window;
      items := [];
      loading := true;
      error := None;
      paymentMethod := "CASH_ON_DELIVERY";
      address := "";
      navigatedTo := None;
    }

    /** `fetchCart`: a good answer replaces the lines, any failure sets the
        load error; loading ends either way. */
    method FetchCart(reply: Reply<seq<CartItem>>) returns (sent: HttpRequest)
      modifies this`items, this`loading, this`error
      ensures sent == HttpRequest("GET", CartUrl, map["Authorization" := AuthHeader(window.storage)], "")
      ensures reply.Ok() ==> items == reply.body && error == old(error)
      ensures !reply.Ok() ==> items == old(items) && error == Some(LoadFailed)
      ensures !loading
    {
      sent := HttpRequest("GET", CartUrl, map["Authorization" := AuthHeader(window.storage)], "");
      if reply.Ok() {
        items := reply.body;
      } else {
        error := Some(LoadFailed);
      }
      loading := false;
    }

    /** `updateQuantity(itemId, newQuantity)`: a 400 means "Insufficient
        stock", any other failure status "Failed to update quantity", a
        network failure its own message; success refetches the cart. */
    method UpdateQuantity(itemId: nat, newQuantity: int, reply: Reply<()>, refetch: Reply<seq<CartItem>>)
      returns (sent: HttpRequest, refetched: Option<HttpRequest>)
      modifies this`items, this`loading, this`error
      ensures sent == HttpRequest("PUT", CartUrl + "/" + NatToString(itemId),
                                  map["Content-Type" := "application/json", "Authorization" := AuthHeader(window.storage)],
                                  QuantityBody(newQuantity))
      ensures refetched.Some? <==> reply.Ok()
      ensures reply.Response? && reply.status == 400 ==> error == Some(InsufficientStock)
      ensures reply.Response? && reply.status != 400 && !reply.Ok() ==> error == Some(UpdateFailed)
      ensures reply.NoResponse? ==> error == Some(reply.message)
      ensures !reply.Ok() ==> items == old(items) && loading == old(loading)
      ensures reply.Ok() ==>
                refetched == Some(HttpRequest("GET", CartUrl, map["Authorization" := AuthHeader(window.storage)], "")) &&
                !loading &&
                (refetch.Ok() ==> items == refetch.body && error == old(error)) &&
                (!refetch.Ok() ==> items == old(items) && error == Some(LoadFailed))
    {
      sent := HttpRequest("PUT", CartUrl + "/" + NatToString(itemId),
                          map["Content-Type" := "application/json", "Authorization" := AuthHeader(window.storage)],
                          QuantityBody(newQuantity));
      refetched := None;
      if reply.NoResponse? {
        error := Some(reply.message);
      } else if reply.status == 400 {
        error := Some(InsufficientStock);
      } else if !reply.Ok() {
        error := Some(UpdateFailed);
      } else {
        var again := FetchCart(refetch);
        refetched := Some(again);
      }
    }

    /** `removeItem(itemId)`: success refetches the cart, any failure sets
        one message. */
    method RemoveItem(itemId: nat, reply: Reply<()>, refetch: Reply<seq<CartItem>>)
      returns (sent: HttpRequest, refetched: Option<HttpRequest>)
      modifies this`items, this`loading, this`error
      ensures sent == HttpRequest("DELETE", CartUrl + "/" + NatToString(itemId),
                                  map["Authorization" := AuthHeader(window.storage)], "")
      ensures refetched.Some? <==> reply.Ok()
      ensures !reply.Ok() ==> items == old(items) && loading == old(loading) && error == Some(RemoveFailed)
      ensures reply.Ok() ==>
                !loading &&
                (refetch.Ok() ==> items == refetch.body && error == old(error)) &&
                (!refetch.Ok() ==> items == old(items) && error == Some(LoadFailed))
    {
      sent := HttpRequest("DELETE", CartUrl + "/" + NatToString(itemId),
                          map["Authorization" := AuthHeader(window.storage)], "");
      refetched := None;
      if !reply.Ok() {
        error := Some(RemoveFailed);
      } else {
        var again := FetchCart(refetch);
        refetched := Some(again);
      }
    }

    /** The address box's `onChange`. */
    method EditAddress(text: string)
      modifies this`address
      ensures address == text
    {
      address := text;
    }

    /** `handleCheckout`: an address that trims to nothing stops before any
        request; otherwise the address is posted and a good answer moves to
        the orders page. */
    method HandleCheckout(reply: Reply<()>) returns (sent: Option<HttpRequest>)
      modifies this`error, this`navigatedTo
      ensures Trim(address) == "" ==>
                sent == None && error == Some(AddressMissing) && navigatedTo == old(navigatedTo)
      ensures Trim(address) != "" ==>
                sent == Some(CheckoutRequest(window.storage, address))
      ensures Trim(address) != "" && reply.Ok() ==> navigatedTo == Some("/orders") && error == old(error)
      ensures Trim(address) != "" && reply.Response? && !reply.Ok() ==>
                navigatedTo == old(navigatedTo) && error == Some(OrderFailed)
      ensures Trim(address) != "" && reply.NoResponse? ==>
                navigatedTo == old(navigatedTo) &&
                error == Some(if reply.message != "" then reply.message else CheckoutFailed)
    {
      if Trim(address) == "" {
        error := Some(AddressMissing);
        return None;
      }
      sent := Some(CheckoutRequest(window.storage, address));
      if reply.NoResponse? {
        error := Some(if reply.message != "" then reply.message else CheckoutFailed);
      } else if !reply.Ok() {
        error := Some(OrderFailed);
      } else {
        navigatedTo := Some("/orders");
      }
    }
  }
}

/** The Shop page's handlers: add, update and remove cart lines, open the
    checkout, confirm the order, and the search effect. Each request the
    page would send is returned as a `Request` value, its answer is an
    `Outcome` parameter, and each `alert` is returned as an `Alert`. */
module Shop {
  import opened Wrappers
  import opened Text
  import opened ShopCart
  import opened DeliveryLink
  import AuthContext

  /** What the backend holds for a placed order. */
  datatype Order = Order(id: string, deliveryLocation: string, phoneNumber: string, totalAmount: int, status: string)

  /** The requests the handlers send. */
  datatype Request =
    | AddItem(userId: string, productId: string, quantity: int)           // POST /api/cart
    | SetQuantity(userId: string, productId: string, quantity: int)       // PUT /api/cart/:user/:product
    | RemoveItem(userId: string, productId: string)                       // DELETE /api/cart/:user/:product
    | PlaceOrder(userId: string, cartId: Option<string>, deliveryLocation: string, phoneNumber: string)  // POST /api/orders

  /** The page's `alert` messages. */
  datatype Alert =
    | LoginToAdd | AddFailed | UpdateFailed | RemoveFailed
    | LoginToOrder | CartIsEmpty
    | InvalidMapsLink | InvalidPhone | OrderPlaced | OrderFailed

  /** `!phoneNumber || phoneNumber.trim() === ""` fails for this number. */
  predicate IsValidPhone(phone: string)
  {
    !IsBlank(phone)
  }

  /** The state confirmOrderWithLocation reads and writes. */
  datatype CheckoutState = CheckoutState(
    cart: Cart, orders: seq<Order>, deliveryLocation: string, phoneNumber: string,
    showCart: bool, showLocationModal: bool)

  /** What confirmOrderWithLocation leaves: the new state, the request sent, the alert shown. */
  datatype CheckoutReply = CheckoutReply(next: CheckoutState, request: Option<Request>, alert: Alert)

  /** The checks before the request, in the page's order: the maps link,
      then the phone number, then the user (reading `user._id` throws inside
      the `try` and is reported as a failed order). None lets the order go. */
  function CheckoutRefusal(linkOk: bool, phoneOk: bool, user: Option<AuthContext.User>): Option<Alert>
  {
    if !linkOk then Some(InvalidMapsLink)
    else if !phoneOk then Some(InvalidPhone)
    else if user.None? then Some(OrderFailed)
    else None
  }

  /** confirmOrderWithLocation: checks the link, then the phone, then sends
      the order. Success empties the cart, clears the link, closes the
      drawer and the dialog and puts the new order first; failure keeps
      everything for a retry. */
  function ConfirmStep(c: CheckoutState, user: Option<AuthContext.User>, response: Outcome<Order>): CheckoutReply
  {
    var refusal := CheckoutRefusal(IsValidDeliveryLink(c.deliveryLocation), IsValidPhone(c.phoneNumber), user);
    if refusal.Some? then CheckoutReply(c, None, refusal.value)
    else
      var request := Some(PlaceOrder(user.value.id, c.cart.id, c.deliveryLocation, c.phoneNumber));
      match response
      case Success(order) =>
        CheckoutReply(c.(cart := EmptyCart, deliveryLocation := "", showCart := false,
                         showLocationModal := false, orders := [order] + c.orders),
                      request, OrderPlaced)
      case Failure(_) => CheckoutReply(c, request, OrderFailed)
  }

  class ShopPage {
    var cart: Cart
    var orders: seq<Order>
    var deliveryLocation: string
    var phoneNumber: string
    var showCart: bool
    var showLocationModal: bool
    var products: seq<Product>
    var searchTerm: string
    var filteredProducts: seq<Product>
    var suggestions: seq<string>

    /** Mount: empty cart and lists, the phone taken from the user when it is truthy. */
    constructor (user: Option<AuthContext.User>)
      ensures cart == EmptyCart && orders == [] && deliveryLocation == ""
      ensures phoneNumber == if user.Some? then user.value.phoneNumber else ""
      ensures !showCart && !showLocationModal
      ensures products == [] && searchTerm == "" && filteredProducts == [] && suggestions == []
    {
      cart := EmptyCart;
      orders := [];
      deliveryLocation := "";
      phoneNumber := if user.Some? && user.value.phoneNumber != "" then user.value.phoneNumber else "";
      showCart, showLocationModal := false, false;
      products, searchTerm, filteredProducts, suggestions := [], "", [], [];
    }

    /** handleAddToCart: needs a user; sends quantity 1 and adopts the
        server's cart, or keeps the cart when the request fails. */
    method HandleAddToCart(user: Option<AuthContext.User>, productId: string, response: Outcome<Cart>)
      returns (request: Option<Request>, alert: Option<Alert>)
      modifies this`cart
      ensures user.None? ==> request == None && alert == Some(LoginToAdd) && cart == old(cart)
      ensures user.Some? ==> request == Some(AddItem(user.value.id, productId, 1))
      ensures user.Some? && response.Success? ==> cart == response.response && alert == None
      ensures user.Some? && response.Failure? ==> cart == old(cart) && alert == Some(AddFailed)
    {
      if user.None? {
        return None, Some(LoginToAdd);
      }
      request := Some(AddItem(user.value.id, productId, 1));
      match response
      case Success(c) =>
        cart := c;
        alert := None;
      case Failure(_) =>
        alert := Some(AddFailed);
    }

    /** handleUpdateQuantity: a quantity below 1 is ignored without a request.
        Without a user, reading `user._id` throws inside the `try`, so the
        failure alert is shown and nothing is sent. */
    method HandleUpdateQuantity(user: Option<AuthContext.User>, productId: string, newQuantity: int, response: Outcome<Cart>)
      returns (request: Option<Request>, alert: Option<Alert>)
      modifies this`cart
      ensures newQuantity < 1 ==> request == None && alert == None && cart == old(cart)
      ensures newQuantity >= 1 && user.None? ==> request == None && alert == Some(UpdateFailed) && cart == old(cart)
      ensures newQuantity >= 1 && user.Some? ==> request == Some(SetQuantity(user.value.id, productId, newQuantity))
      ensures request.Some? && response.Success? ==> cart == response.response && alert == None
      ensures request.Some? && response.Failure? ==> cart == old(cart) && alert == Some(UpdateFailed)
    {
      if newQuantity < 1 {
        return None, None;
      }
      if user.None? {
        return None, Some(UpdateFailed);
      }
      request := Some(SetQuantity(user.value.id, productId, newQuantity));
      match response
      case Success(c) =>
        cart := c;
        alert := None;
      case Failure(_) =>
        alert := Some(UpdateFailed);
    }

    /** handleRemoveFromCart: like an update, but with no quantity guard. */
    method HandleRemoveFromCart(user: Option<AuthContext.User>, productId: string, response: Outcome<Cart>)
      returns (request: Option<Request>, alert: Option<Alert>)
      modifies this`cart
      ensures user.None? ==> request == None && alert == Some(RemoveFailed) && cart == old(cart)
      ensures user.Some? ==> request == Some(RemoveItem(user.value.id, productId))
      ensures user.Some? && response.Success? ==> cart == response.response && alert == None
      ensures user.Some? && response.Failure? ==> cart == old(cart) && alert == Some(RemoveFailed)
    {
      if user.None? {
        return None, Some(RemoveFailed);
      }
      request := Some(RemoveItem(user.value.id, productId));
      match response
      case Success(c) =>
        cart := c;
        alert := None;
      case Failure(_) =>
        alert := Some(RemoveFailed);
    }

    /** handleCreateOrder: opens the delivery dialog only for a logged-in
        user with a non-empty cart. */
    method HandleCreateOrder(user: Option<AuthContext.User>) returns (alert: Option<Alert>)
      modifies this`showLocationModal
      ensures user.None? ==> alert == Some(LoginToOrder) && showLocationModal == old(showLocationModal)
      ensures user.Some? && cart.items == [] ==> alert == Some(CartIsEmpty) && showLocationModal == old(showLocationModal)
      ensures user.Some? && cart.items != [] ==> alert == None && showLocationModal
    {
      if user.None? {
        return Some(LoginToOrder);
      }
      if |cart.items| == 0 {
        return Some(CartIsEmpty);
      }
      showLocationModal := true;
      alert := None;
    }

    /** The checkout part of the page's state. */
    function Checkout(): CheckoutState
      reads this
    {
      CheckoutState(cart, orders, deliveryLocation, phoneNumber, showCart, showLocationModal)
    }

    /** confirmOrderWithLocation */
    method ConfirmOrderWithLocation(user: Option<AuthContext.User>, response: Outcome<Order>)
      returns (request: Option<Request>, alert: Alert)
      modifies this`cart, this`orders, this`deliveryLocation, this`showCart, this`showLocationModal
      ensures CheckoutReply(Checkout(), request, alert) == ConfirmStep(old(Checkout()), user, response)
    {
      // `!deliveryLocation` and `!phoneNumber` are covered: "" is neither a
      // valid link nor a valid phone number.
      var linkOk := IsValidDeliveryLink(deliveryLocation);
      var phoneOk := IsValidPhone(phoneNumber);
      var refusal := CheckoutRefusal(linkOk, phoneOk, user);
      if refusal.Some? {
        return None, refusal.value;
      }
      request := Some(PlaceOrder(user.value.id, cart.id, deliveryLocation, phoneNumber));
      match response
      case Success(order) =>
        cart := EmptyCart;
        deliveryLocation := "";
        showCart := false;
        showLocationModal := false;
        orders := [order] + orders;
        alert := OrderPlaced;
      case Failure(_) =>
        alert := OrderFailed;
    }

    /** The search effect: recomputes the filtered list and the suggestions
        from the products and the term. */
    method RunSearchEffect()
      modifies this`filteredProducts, this`suggestions
      ensures filteredProducts == SearchProducts(products, searchTerm)
      ensures suggestions == ProductSuggestions(products, searchTerm)
    {
      if IsBlank(searchTerm) {
        filteredProducts := products;
        suggestions := [];
        return;
      }
      filteredProducts := Sequences.Filter(products, TitleMatcher(searchTerm));
      var matched := Sequences.Filter(Titles(products), TextMatcher(searchTerm));
      suggestions := Sequences.Take(matched, 5);
    }

    /** The item count the cart icon shows. */
    function ItemCount(): (n: int)
      reads this
      ensures n == SumOf(cart.items, Quantity)
    {
      CartTotalsAreSums(cart.items);
      CartItemCount(cart.items)
    }

    /** The total the cart drawer shows. */
    function Total(): (n: int)
      reads this
      ensures n == SumOf(cart.items, LineTotal)
    {
      CartTotalsAreSums(cart.items);
      TotalAmount(cart.items)
    }
  }

  /** The order is sent exactly when the link matches the page's maps
      pattern, the phone number holds a character other than white space,
      and a user is logged in. */
  lemma {:induction false} OrderSentIff(c: CheckoutState, user: Option<AuthContext.User>, response: Outcome<Order>)
    ensures ConfirmStep(c, user, response).request.Some? <==>
      RegexMatches(c.deliveryLocation)
      && (exists i :: 0 <= i < |c.phoneNumber| && !IsJsSpace(c.phoneNumber[i]))
      && user.Some?
    ensures ConfirmStep(c, user, response).request.Some? ==>
      ConfirmStep(c, user, response).request
      == Some(PlaceOrder(user.value.id, c.cart.id, c.deliveryLocation, c.phoneNumber))
  {
    ValidIffRegex(c.deliveryLocation);
    BlankIffAllSpace(c.phoneNumber);
  }

  /** Only a placed order changes the state; a refusal or a failed request
      leaves everything for a retry, and the alert tells which check failed. */
  lemma ConfirmOutcomes(c: CheckoutState, user: Option<AuthContext.User>, response: Outcome<Order>)
    ensures var r := ConfirmStep(c, user, response);
      (r.alert == OrderPlaced <==> r.request.Some? && response.Success?)
      && (r.alert != OrderPlaced ==> r.next == c)
    ensures var r := ConfirmStep(c, user, response);
      !IsValidDeliveryLink(c.deliveryLocation) ==> r.alert == InvalidMapsLink
    ensures var r := ConfirmStep(c, user, response);
      IsValidDeliveryLink(c.deliveryLocation) && IsBlank(c.phoneNumber) ==> r.alert == InvalidPhone
    ensures var r := ConfirmStep(c, user, response);
      r.alert == OrderPlaced ==>
        r.next.cart == EmptyCart && r.next.deliveryLocation == "" && r.next.phoneNumber == c.phoneNumber
        && !r.next.showCart && !r.next.showLocationModal
        && |r.next.orders| == |c.orders| + 1 && r.next.orders[0] == response.response
        && r.next.orders[1..] == c.orders
  {
  }

  /** After a placed order the cart shows no item and a zero total, and a
      second confirmation sends nothing: the cleared link is refused. */
  lemma {:induction false} NoSecondOrder(c: CheckoutState, user: Option<AuthContext.User>, response: Outcome<Order>,
                                        user2: Option<AuthContext.User>, response2: Outcome<Order>)
    requires ConfirmStep(c, user, response).alert == OrderPlaced
    ensures var next := ConfirmStep(c, user, response).next;
      CartItemCount(next.cart.items) == 0 && TotalAmount(next.cart.items) == 0
      && ConfirmStep(next, user2, response2) == CheckoutReply(next, None, InvalidMapsLink)
  {
    var next := ConfirmStep(c, user, response).next;
    assert next.deliveryLocation == "";
  }
}

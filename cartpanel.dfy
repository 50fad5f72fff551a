/** The cart panel (src/components/CartPanel.js): the customer list it
    hands to the customer picker, the item and cart handlers, and the
    rules that disable its buttons. It reads the cart store's `isLoading`
    under the local name `isPlacingOrder`. */
module CartPanel {
  import opened Wrappers
  import opened Text
  import opened Entities
  import opened Effects
  import Notifications
  import Cart
  import CustomerModal

  /** The first address's telephone, or "N/A" when there is none or it is
      empty. */
  function Phone(addresses: Option<seq<Address>>): (phone: string)
    ensures phone != ""
    ensures addresses.Some? && |addresses.value| > 0 && Truthy(addresses.value[0].telephone) ==>
              phone == addresses.value[0].telephone.value
    ensures (addresses.None? || |addresses.value| == 0 || !Truthy(addresses.value[0].telephone)) ==> phone == "N/A"
  {
    var first := if addresses.Some? && |addresses.value| > 0 then addresses.value[0].telephone else None;
    OrElse(first.GetOr(""), "N/A")
  }

  /** One entry of `formattedCustomers`. */
  function FormatCustomer(c: Customer): (f: CustomerModal.ListedCustomer)
    ensures f.id == c.id && f.email == c.email && f.firstname == c.firstname && f.lastname == c.lastname
    ensures f.addresses == c.addresses
    ensures f.name == c.firstname + " " + c.lastname
    ensures f.phone == Phone(c.addresses)
    ensures f.orders == c.ordersTotalCount.GetOr(0)
  {
    CustomerModal.ListedCustomer(
      c.id, c.firstname + " " + c.lastname, c.email, Phone(c.addresses),
      if c.ordersTotalCount.Some? && c.ordersTotalCount.value != 0 then c.ordersTotalCount.value else 0,
      c.firstname, c.lastname, c.addresses)
  }

  /** `formattedCustomers`: one entry per customer, in order. */
  function FormatCustomers(customers: seq<Customer>): (r: seq<CustomerModal.ListedCustomer>)
    ensures |r| == |customers| && forall k :: 0 <= k < |customers| ==> r[k] == FormatCustomer(customers[k])
  {
    seq(|customers|, k requires 0 <= k < |customers| => FormatCustomer(customers[k]))
  }

  /** The picker offers a customer's orders only when the backend reported
      a positive order count for that customer. */
  lemma ViewOrdersNeedsCount(hasViewOrders: bool, c: Customer)
    ensures CustomerModal.ViewOrdersShown(hasViewOrders, FormatCustomer(c)) <==>
              hasViewOrders && c.ordersTotalCount.Some? && c.ordersTotalCount.value > 0
  {
  }

  /** `handleRemoveItem(item)`: remove by the parsed item id with the sku
      as fallback, and confirm at once, before the removal settles. */
  function RemoveItem(cartId: Option<string>, item: Cart.CartItem): (effects: seq<Effect>)
    ensures |effects| == 2
    ensures effects[0] == RemoveFromCart(cartId, ParseInt(item.id), Some(item.sku))
    ensures effects[1] == Notify(Notifications.Success, "Item removed from cart")
  {
    [RemoveFromCart(cartId, ParseInt(item.id), Some(item.sku)),
     Notify(Notifications.Success, "Item removed from cart")]
  }

  /** `handleQuantityChange(item, change)`: a new quantity of zero or less
      becomes a removal; otherwise the sku is re-added with the new
      quantity. */
  function QuantityChange(cartId: Option<string>, item: Cart.CartItem, change: int): (effects: seq<Effect>)
    ensures item.quantity + change <= 0 ==> effects == RemoveItem(cartId, item)
    ensures item.quantity + change > 0 ==> effects == [AddToCart(cartId, item.sku, item.quantity + change)]
    ensures forall k :: 0 <= k < |effects| && effects[k].AddToCart? ==> effects[k].quantity > 0
  {
    var newQuantity := item.quantity + change;
    if newQuantity <= 0 then RemoveItem(cartId, item)
    else [AddToCart(cartId, item.sku, newQuantity)]
  }

  /** The minus button is disabled at quantity 1 or less. */
  predicate MinusDisabled(item: Cart.CartItem) {
    item.quantity <= 1
  }

  /** An enabled minus button never removes the item: it lowers the
      quantity by one, to at least 1. */
  lemma MinusNeverRemoves(cartId: Option<string>, item: Cart.CartItem)
    requires !MinusDisabled(item)
    ensures QuantityChange(cartId, item, -1) == [AddToCart(cartId, item.sku, item.quantity - 1)]
    ensures item.quantity - 1 >= 1
  {
  }

  /** What `handleClearCart` does: the store actions it dispatches, and
      whether it then throws. */
  datatype ClearOutcome = ClearOutcome(dispatched: seq<Cart.Action>, throws: bool)

  /** `handleClearCart`: with a cart id it dispatches the local `clearCart`
      reducer action (not the `clearCartItems` thunk) and calls `unwrap` on
      the plain action it gets back, which throws a TypeError; so no
      request reaches the backend and neither notification is shown. */
  function ClearCartClick(cartId: Option<string>): (r: ClearOutcome)
    ensures !Truthy(cartId) ==> r == ClearOutcome([], false)
    ensures Truthy(cartId) ==> r.dispatched == [Cart.ClearCart] && r.throws
  {
    if Truthy(cartId) then ClearOutcome([Cart.ClearCart], true) else ClearOutcome([], false)
  }

  /** A clear-cart click empties the local cache only: the cart id stays,
      so the server cart still holds its items and the next server payload
      brings them back. */
  lemma ClearCartIsLocal(s: Cart.CartState, cartId: Option<string>)
    requires Truthy(cartId)
    ensures var r := Cart.Reduce(s, ClearCartClick(cartId).dispatched[0]);
            r.items == [] && r.total == 0 && r.cartId == s.cartId
    ensures ClearCartClick(cartId).throws
  {
  }

  /** The clear-cart button is disabled when the cart is empty. */
  predicate ClearCartDisabled(items: seq<Cart.CartItem>) {
    |items| == 0
  }

  /** `handlePlaceOrder`: nothing without a cart id or with an empty cart;
      otherwise place the order and report how it settled. `placed` is the
      outcome of the unwrapped `placeOrder` dispatch. */
  function PlaceOrderClick(cartId: Option<string>, items: seq<Cart.CartItem>, placed: Result<Option<string>>): (effects: seq<Effect>)
    ensures !Truthy(cartId) || |items| == 0 ==> effects == []
    ensures Truthy(cartId) && |items| > 0 ==>
              |effects| == 2 && effects[0] == PlaceOrder(cartId) && effects[1].Notify?
    ensures Truthy(cartId) && |items| > 0 && placed.Ok? ==>
              effects[1] == Notify(Notifications.Success, "Order placed successfully!")
    ensures Truthy(cartId) && |items| > 0 && placed.Err? ==>
              effects[1] == Notify(Notifications.Error, "Error placing order")
  {
    if !Truthy(cartId) || |items| == 0 then []
    else if placed.Ok? then [PlaceOrder(cartId), Notify(Notifications.Success, "Order placed successfully!")]
    else [PlaceOrder(cartId), Notify(Notifications.Error, "Error placing order")]
  }

  /** The place-order button is disabled with an empty cart or while the
      cart store's `isLoading` is set. */
  predicate PlaceOrderDisabled(s: Cart.CartState) {
    |s.items| == 0 || s.isLoading
  }

  /** The button reads `isLoading`, which `placeOrder` never sets: while
      an order is being placed the button stays enabled for a non-empty,
      idle cart, so a second order can be sent. */
  lemma PlaceOrderStaysEnabledWhilePlacing(s: Cart.CartState)
    requires |s.items| > 0 && !s.isLoading
    ensures var r := Cart.Reduce(s, Cart.PlacePending);
            r.isPlacingOrder && !PlaceOrderDisabled(r)
  {
  }
}

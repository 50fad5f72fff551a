/** The cart store (src/store/cartSlice.js): a cache of the server-owned
    cart, replaced wholesale by every server payload, and the thunks that
    talk to the backend. A thunk's backend is an abstract reply (one
    request) or a `CartServer` function (several requests). */
module Cart {
  import Store
  import opened Wrappers
  import opened Text

  /** A line item: `id` is the backend's string id, `price` is opaque. */
  datatype CartItem = CartItem(id: string, sku: string, name: string, quantity: int, price: int)

  /** A `cart` object as the backend returns it; the fields may be absent. */
  datatype CartPayload = CartPayload(id: Option<string>, items: Option<seq<CartItem>>, grandTotal: Option<int>)

  /** The cart's grand total, or 0 when the prices or the total are absent. */
  function GrandTotal(c: CartPayload): int {
    c.grandTotal.GetOr(0)
  }

  /** The payload `clearCartItems` fulfils with: the given id, no items, a
      zero grand total. */
  function EmptyCart(cartId: Option<string>): CartPayload {
    CartPayload(cartId, Some([]), Some(0))
  }

  // ---------------------------------------------------------------------
  // Requests and thunks (cartSlice.js:150-310)

  datatype CartRequest =
    | CreateEmptyCart
    | GetCart(cartId: Option<string>)
    | AddProducts(cartId: Option<string>, sku: string, quantity: int)
    | RemoveItem(cartId: Option<string>, itemId: Option<int>)
    | PlaceOrderRequest(cartId: Option<string>)

  /** A backend that answers cart requests: the reply to a request may
      depend on every request sent before it in the same thunk. */
  type CartServer = (seq<CartRequest>, CartRequest) -> Reply<Option<CartPayload>>

  /** `createCart()`: one `createEmptyCart` mutation. */
  function CreateCart(token: Option<string>, reply: Reply<Option<string>>): (run: Run<Option<string>, CartRequest>)
    ensures !Truthy(token) ==> run == Run(Err(NoTokenMessage), [])
    ensures Truthy(token) ==> run.sent == [CreateEmptyCart]
    ensures Truthy(token) && reply.Replied? ==> run.result == Ok(reply.value)
    ensures Truthy(token) && reply.Failed? ==> run.result == Err(OrElse(reply.fault.message, "Failed to create cart"))
  {
    GuardedRequest(token, CreateEmptyCart, reply, "Failed to create cart")
  }

  /** `fetchCart(cartId)`: one uncached `cart` query. */
  function FetchCart(token: Option<string>, cartId: Option<string>, reply: Reply<Option<CartPayload>>): (run: Run<Option<CartPayload>, CartRequest>)
    ensures !Truthy(token) ==> run == Run(Err(NoTokenMessage), [])
    ensures Truthy(token) ==> run.sent == [GetCart(cartId)]
    ensures Truthy(token) && reply.Replied? ==> run.result == Ok(reply.value)
    ensures Truthy(token) && reply.Failed? ==> run.result == Err(OrElse(reply.fault.message, "Failed to fetch cart"))
  {
    GuardedRequest(token, GetCart(cartId), reply, "Failed to fetch cart")
  }

  /** `addToCart({cartId, sku, quantity})`: one `addProductsToCart`
      mutation with exactly the given quantity. */
  function AddToCart(token: Option<string>, cartId: Option<string>, sku: string, quantity: int, reply: Reply<Option<CartPayload>>): (run: Run<Option<CartPayload>, CartRequest>)
    ensures !Truthy(token) ==> run == Run(Err(NoTokenMessage), [])
    ensures Truthy(token) ==> run.sent == [AddProducts(cartId, sku, quantity)]
    ensures Truthy(token) && reply.Replied? ==> run.result == Ok(reply.value)
    ensures Truthy(token) && reply.Failed? ==> run.result == Err(OrElse(reply.fault.message, "Failed to add item to cart"))
  {
    GuardedRequest(token, AddProducts(cartId, sku, quantity), reply, "Failed to add item to cart")
  }

  /** `placeOrder(cartId)`: one `placeOrder` mutation; the reply is the
      order's `order_number`. */
  function PlaceOrder(token: Option<string>, cartId: Option<string>, reply: Reply<Option<string>>): (run: Run<Option<string>, CartRequest>)
    ensures !Truthy(token) ==> run == Run(Err(NoTokenMessage), [])
    ensures Truthy(token) ==> run.sent == [PlaceOrderRequest(cartId)]
    ensures Truthy(token) && reply.Replied? ==> run.result == Ok(reply.value)
    ensures Truthy(token) && reply.Failed? ==> run.result == Err(OrElse(reply.fault.message, "Failed to place order"))
  {
    GuardedRequest(token, PlaceOrderRequest(cartId), reply, "Failed to place order")
  }

  /** The fallback `removeFromCart` takes when the remove mutation fails:
      re-add the sku at quantity 0 when a sku is given, else refetch. */
  function RemoveFallback(cartId: Option<string>, sku: Option<string>): CartRequest {
    if Truthy(sku) then AddProducts(cartId, sku.value, 0) else GetCart(cartId)
  }

  /** `removeFromCart({cartId, itemId, sku})`: remove by item id; if that
      throws, one fallback; the result is the first reply that succeeds,
      and the thunk rejects only when the fallback fails too. */
  function RemoveFromCart(token: Option<string>, cartId: Option<string>, itemId: Option<int>, sku: Option<string>, server: CartServer): (run: Run<Option<CartPayload>, CartRequest>)
    ensures !Truthy(token) ==> run == Run(Err(NoTokenMessage), [])
    ensures Truthy(token) ==> 1 <= |run.sent| <= 2 && run.sent[0] == RemoveItem(cartId, itemId)
    ensures Truthy(token) ==> (|run.sent| == 1 <==> server([], RemoveItem(cartId, itemId)).Replied?)
    ensures |run.sent| == 2 ==> run.sent[1] == RemoveFallback(cartId, sku)
    ensures run.sent != [] && run.result.Ok? ==>
              server(run.sent[..|run.sent| - 1], run.sent[|run.sent| - 1]) == Replied(run.result.value)
    ensures run.sent != [] && run.result.Err? ==>
              |run.sent| == 2 && server(run.sent[..1], run.sent[1]).Failed? &&
              run.result == Err(OrElse(server(run.sent[..1], run.sent[1]).fault.message, "Failed to remove item from cart")) &&
              run.result.message != ""
  {
    if !Truthy(token) then Run(Err(NoTokenMessage), [])
    else
      var remove := RemoveItem(cartId, itemId);
      match server([], remove)
      case Replied(c) =>
        assert [remove][..0] == [];
        Run(Ok(c), [remove])
      case Failed(_) =>
        var fallback := RemoveFallback(cartId, sku);
        assert [remove, fallback][..1] == [remove];
        match server([remove], fallback)
        case Replied(c) => Run(Ok(c), [remove, fallback])
        case Failed(f) => Run(Err(OrElse(f.message, "Failed to remove item from cart")), [remove, fallback])
  }

  /** The requests `clearCartItems` sends for one item after `sent`: the
      remove mutation, then a quantity-0 re-add only if it failed. */
  function ItemRequests(sent: seq<CartRequest>, cartId: Option<string>, item: CartItem, server: CartServer): seq<CartRequest> {
    var remove := RemoveItem(cartId, ParseInt(item.id));
    if server(sent, remove).Failed? then [remove, AddProducts(cartId, item.sku, 0)] else [remove]
  }

  /** The request log after visiting `items` in order, one at a time. */
  function ClearLog(sent: seq<CartRequest>, cartId: Option<string>, items: seq<CartItem>, server: CartServer): seq<CartRequest>
    decreases |items|
  {
    if items == [] then sent
    else ClearLog(sent + ItemRequests(sent, cartId, items[0], server), cartId, items[1..], server)
  }

  /** The message of the TypeError raised when the fetched `cart` is null
      and its `items` is read (V8's wording); the thunk rejects with it. */
  const NullCartMessage: string := "Cannot read properties of null (reading 'items')"

  /** `clearCartItems(cartId)`: fetch the cart, then for each item in
      order try remove and, on failure, a quantity-0 re-add, swallowing
      every per-item failure; then fulfil with an empty cart. */
  method ClearCartItems(token: Option<string>, cartId: Option<string>, server: CartServer)
    returns (result: Result<Option<CartPayload>>, sent: seq<CartRequest>)
    ensures !Truthy(token) ==> result == Err(NoTokenMessage) && sent == []
    ensures Truthy(token) ==> |sent| >= 1 && sent[0] == GetCart(cartId)
    ensures Truthy(token) && server([], GetCart(cartId)).Failed? ==>
              sent == [GetCart(cartId)] &&
              result == Err(OrElse(server([], GetCart(cartId)).fault.message, "Failed to clear cart"))
    ensures Truthy(token) && server([], GetCart(cartId)) == Replied(None) ==>
              sent == [GetCart(cartId)] && result == Err(NullCartMessage)
    ensures Truthy(token) && server([], GetCart(cartId)).Replied? && server([], GetCart(cartId)).value.Some? ==>
              && result == Ok(Some(EmptyCart(cartId)))
              && sent == ClearLog([GetCart(cartId)], cartId, server([], GetCart(cartId)).value.value.items.GetOr([]), server)
  {
    if !Truthy(token) {
      return Err(NoTokenMessage), [];
    }
    var fetch := GetCart(cartId);
    sent := [fetch];
    var fetched := server([], fetch);
    if fetched.Failed? {
      return Err(OrElse(fetched.fault.message, "Failed to clear cart")), sent;
    }
    if fetched.value.None? {
      return Err(NullCartMessage), sent;
    }
    var items := fetched.value.value.items.GetOr([]);
    var i := 0;
    while i < |items|
      invariant 0 <= i <= |items|
      invariant |sent| >= 1 && sent[0] == fetch
      invariant ClearLog(sent, cartId, items[i..], server) == ClearLog([fetch], cartId, items, server)
    {
      var item := items[i];
      var remove := RemoveItem(cartId, ParseInt(item.id));
      var removed := server(sent, remove);
      assert items[i..][0] == item && items[i..][1..] == items[i + 1..];
      var step := ItemRequests(sent, cartId, item, server);
      assert step == if removed.Failed? then [remove, AddProducts(cartId, item.sku, 0)] else [remove];
      assert ClearLog(sent, cartId, items[i..], server) == ClearLog(sent + step, cartId, items[i + 1..], server);
      ghost var expected := sent + step;
      sent := sent + [remove];
      if removed.Failed? {
        var zero := AddProducts(cartId, item.sku, 0);
        var _ := server(sent, zero);
        sent := sent + [zero];
      }
      assert sent == expected;
      i := i + 1;
    }
    assert items[i..] == [];
    result := Ok(Some(EmptyCart(cartId)));
  }

  /** The item ids `clearCartItems` passes to the remove mutation, in order. */
  function ItemIds(items: seq<CartItem>): (ids: seq<Option<int>>)
    ensures |ids| == |items| && forall k :: 0 <= k < |items| ==> ids[k] == ParseInt(items[k].id)
  {
    seq(|items|, k requires 0 <= k < |items| => ParseInt(items[k].id))
  }

  /** The item ids targeted by the remove mutations of a request log. */
  function Removed(log: seq<CartRequest>): seq<Option<int>>
    decreases |log|
  {
    if log == [] then []
    else (if log[0].RemoveItem? then [log[0].itemId] else []) + Removed(log[1..])
  }

  lemma {:induction false} RemovedAppend(a: seq<CartRequest>, b: seq<CartRequest>)
    ensures Removed(a + b) == Removed(a) + Removed(b)
    decreases |a|
  {
    if a == [] {
      assert a + b == b;
    } else {
      var ab := a + b;
      assert ab[0] == a[0] && ab[1..] == a[1..] + b;
      RemovedAppend(a[1..], b);
      var head := if a[0].RemoveItem? then [a[0].itemId] else [];
      assert Removed(ab) == head + Removed(a[1..] + b);
      assert Removed(a) == head + Removed(a[1..]);
    }
  }

  /** Every fetched item gets exactly one remove attempt, in the order of
      the fetched list, whatever the backend answers. */
  lemma {:induction false} ClearRemovesEveryItem(sent: seq<CartRequest>, cartId: Option<string>, items: seq<CartItem>, server: CartServer)
    ensures Removed(ClearLog(sent, cartId, items, server)) == Removed(sent) + ItemIds(items)
    decreases |items|
  {
    if items != [] {
      var step := ItemRequests(sent, cartId, items[0], server);
      ClearRemovesEveryItem(sent + step, cartId, items[1..], server);
      RemovedAppend(sent, step);
      StepRemovesOnce(sent, cartId, items[0], server);
      assert ItemIds(items) == [ParseInt(items[0].id)] + ItemIds(items[1..]);
      assert Removed(ClearLog(sent, cartId, items, server))
          == Removed(sent + step) + ItemIds(items[1..])
          == Removed(sent) + [ParseInt(items[0].id)] + ItemIds(items[1..]);
    }
  }

  /** The requests for one item remove exactly that item's id. */
  lemma StepRemovesOnce(sent: seq<CartRequest>, cartId: Option<string>, item: CartItem, server: CartServer)
    ensures Removed(ItemRequests(sent, cartId, item, server)) == [ParseInt(item.id)]
  {
    var step := ItemRequests(sent, cartId, item, server);
    StepShape(sent, cartId, item, server);
    if |step| == 2 {
      assert step[1..] == [step[1]];
      assert Removed([step[1]]) == [] by { assert [step[1]][1..] == []; }
    } else {
      assert step[1..] == [];
    }
  }

  /** The requests for one item: a remove of its id and, when the backend
      rejects that remove, a quantity-0 re-add of its sku. */
  lemma StepShape(sent: seq<CartRequest>, cartId: Option<string>, item: CartItem, server: CartServer)
    ensures var step := ItemRequests(sent, cartId, item, server);
            && 1 <= |step| <= 2
            && step[0] == RemoveItem(cartId, ParseInt(item.id))
            && (|step| == 2 <==> server(sent, step[0]).Failed?)
            && (|step| == 2 ==> step[1] == AddProducts(cartId, item.sku, 0))
  {
  }

  /** Request `k` of the log, past position `base`, is a remove or a
      quantity-0 re-add for the cart, and a re-add comes right after a
      remove the backend rejected. */
  predicate ClearRequestAt(log: seq<CartRequest>, base: nat, k: nat, cartId: Option<string>, server: CartServer)
    requires k < |log|
  {
    && (log[k].RemoveItem? || log[k].AddProducts?)
    && log[k].cartId == cartId
    && (log[k].AddProducts? ==>
          log[k].quantity == 0 && base < k && log[k - 1].RemoveItem? && server(log[..k - 1], log[k - 1]).Failed?)
  }

  /** The requests of the first item keep their shape in any log that
      extends `sent` and them. */
  lemma StepRequestAt(sent: seq<CartRequest>, cartId: Option<string>, item: CartItem, server: CartServer,
                      log: seq<CartRequest>, k: nat)
    requires sent + ItemRequests(sent, cartId, item, server) <= log
    requires |sent| <= k < |sent + ItemRequests(sent, cartId, item, server)|
    ensures ClearRequestAt(log, |sent|, k, cartId, server)
  {
    var step := ItemRequests(sent, cartId, item, server);
    var next := sent + step;
    StepShape(sent, cartId, item, server);
    assert log[k] == next[k] == step[k - |sent|];
    if k == |sent| + 1 {
      assert log[k - 1] == next[k - 1] == step[0];
      assert log[..k - 1] == next[..|sent|] == sent;
    }
  }

  /** The shape of the log after `sent`: it extends `sent`; every later
      request targets the cart and is a remove or a quantity-0 re-add; a
      re-add comes right after a remove the backend rejected; and there are
      between one and two requests per item. */
  lemma {:induction false} ClearLogShape(sent: seq<CartRequest>, cartId: Option<string>, items: seq<CartItem>, server: CartServer)
    ensures var log := ClearLog(sent, cartId, items, server);
            && |sent| + |items| <= |log| <= |sent| + 2 * |items|
            && sent <= log
            && forall k: nat :: |sent| <= k < |log| ==> ClearRequestAt(log, |sent|, k, cartId, server)
    decreases |items|
  {
    var log := ClearLog(sent, cartId, items, server);
    if items == [] {
      assert log == sent;
    } else {
      var step := ItemRequests(sent, cartId, items[0], server);
      var next := sent + step;
      StepShape(sent, cartId, items[0], server);
      ClearLogShape(next, cartId, items[1..], server);
      assert log == ClearLog(next, cartId, items[1..], server);
      assert sent <= next <= log;
      forall k: nat | |sent| <= k < |log|
        ensures ClearRequestAt(log, |sent|, k, cartId, server)
      {
        if k < |next| {
          StepRequestAt(sent, cartId, items[0], server, log, k);
        } else {
          assert ClearRequestAt(log, |next|, k, cartId, server);
        }
      }
    }
  }

  // ---------------------------------------------------------------------
  // The slice (cartSlice.js:312-443)

  datatype CartState = CartState(
    cartId: Option<string>,
    items: seq<CartItem>,
    total: int,
    isLoading: bool,
    error: Option<string>,
    orderNumber: Option<string>,
    isPlacingOrder: bool)

  const Initial: CartState := CartState(None, [], 0, false, None, None, false)

  /** The four thunks whose fulfilled payload is a whole cart. */
  datatype CartOp = FetchOp | AddOp | RemoveOp | ClearOp

  datatype Action =
    | CreatePending
    | CreateFulfilled(newCartId: Option<string>)
    | CreateRejected(message: string)
    | OpPending(op: CartOp)
    | OpFulfilled(op: CartOp, cart: Option<CartPayload>)
    | OpRejected(op: CartOp, message: string)
    | PlacePending
    | PlaceFulfilled(orderNumber: Option<string>)
    | PlaceRejected(message: string)
    | ClearCart
    | ClearError
    | SetOrderNumber(orderNumber: Option<string>)
    | ClearOrderNumber

  predicate IsRejected(a: Action) {
    a.CreateRejected? || a.OpRejected? || a.PlaceRejected?
  }

  /** The cached cart: what the server last said it holds. */
  predicate SameCart(r: CartState, s: CartState) {
    r.cartId == s.cartId && r.items == s.items && r.total == s.total
  }

  function Reduce(s: CartState, a: Action): (r: CartState)
    ensures a.CreatePending? || a.OpPending? ==> r == s.(isLoading := true, error := None)
    ensures a.PlacePending? ==> r == s.(isPlacingOrder := true, error := None)
    ensures IsRejected(a) ==>
              SameCart(r, s) && r.error == Some(a.message) && r.orderNumber == s.orderNumber
    ensures a.CreateRejected? || a.OpRejected? ==> !r.isLoading && r.isPlacingOrder == s.isPlacingOrder
    ensures a.PlaceRejected? ==> !r.isPlacingOrder && r.isLoading == s.isLoading
    ensures a.CreateFulfilled? ==>
              r.cartId == a.newCartId && r.items == [] && r.total == 0 && !r.isLoading &&
              r.error == s.error && r.orderNumber == s.orderNumber
    ensures a.OpFulfilled? && a.cart.Some? ==>
              && r.cartId == a.cart.value.id
              && r.items == a.cart.value.items.GetOr([])
              && r.total == GrandTotal(a.cart.value)
              && !r.isLoading && r.error == s.error && r.orderNumber == s.orderNumber
    ensures a.OpFulfilled? && a.cart.None? ==> r == s.(isLoading := false)
    ensures a.PlaceFulfilled? ==>
              r.orderNumber == a.orderNumber && r.items == [] && r.total == 0 && r.cartId == s.cartId &&
              !r.isPlacingOrder && r.isLoading == s.isLoading && r.error == s.error
    ensures a.ClearCart? ==>
              r.items == [] && r.total == 0 && r.orderNumber.None? &&
              r.cartId == s.cartId && r.error == s.error && r.isLoading == s.isLoading
    ensures !(a.PlacePending? || a.PlaceFulfilled? || a.PlaceRejected?) ==> r.isPlacingOrder == s.isPlacingOrder
    ensures a.PlacePending? || a.PlaceFulfilled? || a.PlaceRejected? ==> r.isLoading == s.isLoading
    ensures a.ClearError? ==> r == s.(error := None)
    ensures a.SetOrderNumber? ==> r == s.(orderNumber := a.orderNumber)
    ensures a.ClearOrderNumber? ==> r == s.(orderNumber := None)
  {
    match a
    case CreatePending => s.(isLoading := true, error := None)
    case CreateFulfilled(id) => s.(isLoading := false, cartId := id, items := [], total := 0)
    case CreateRejected(m) => s.(isLoading := false, error := Some(m))
    case OpPending(_) => s.(isLoading := true, error := None)
    case OpFulfilled(_, cart) =>
      if cart.Some? then
        s.(isLoading := false, cartId := cart.value.id, items := cart.value.items.GetOr([]),
           total := GrandTotal(cart.value))
      else s.(isLoading := false)
    case OpRejected(_, m) => s.(isLoading := false, error := Some(m))
    case PlacePending => s.(isPlacingOrder := true, error := None)
    case PlaceFulfilled(n) => s.(isPlacingOrder := false, orderNumber := n, items := [], total := 0)
    case PlaceRejected(m) => s.(isPlacingOrder := false, error := Some(m))
    case ClearCart => s.(items := [], total := 0, orderNumber := None)
    case ClearError => s.(error := None)
    case SetOrderNumber(n) => s.(orderNumber := n)
    case ClearOrderNumber => s.(orderNumber := None)
  }

  /** The state after dispatching `actions` in order. */
  function ReduceAll(s: CartState, actions: seq<Action>): CartState {
    Store.Replay(Reduce, s, actions)
  }

  /** Only server payloads, order placement and the local clear change the
      cached items: any run of pending, rejected and flag actions leaves
      the cart as it was. */
  lemma {:induction false} FailuresKeepCart(s: CartState, actions: seq<Action>)
    requires forall k :: 0 <= k < |actions| ==>
               !(actions[k].CreateFulfilled? || actions[k].OpFulfilled? || actions[k].PlaceFulfilled? || actions[k].ClearCart?)
    ensures SameCart(ReduceAll(s, actions), s)
    decreases |actions|
  {
    if actions != [] {
      FailuresKeepCart(Reduce(s, actions[0]), actions[1..]);
    }
  }

  /** A settled `clearCartItems` run, reduced into any store, leaves it
      holding the cleared cart's id, no items and a zero total. */
  lemma ClearedStoreIsEmpty(s: CartState, cartId: Option<string>)
    ensures var r := ReduceAll(s, [OpPending(ClearOp), OpFulfilled(ClearOp, Some(EmptyCart(cartId)))]);
            r.cartId == cartId && r.items == [] && r.total == 0 && !r.isLoading && r.error.None?
  {
    Store.ReplayTwo(Reduce, s, OpPending(ClearOp), OpFulfilled(ClearOp, Some(EmptyCart(cartId))));
  }


  /** The slice's state, updated field by field as the reducers do. */
  class CartStore {
    var cartId: Option<string>
    var items: seq<CartItem>
    var total: int
    var isLoading: bool
    var error: Option<string>
    var orderNumber: Option<string>
    var isPlacingOrder: bool

    function State(): CartState
      reads this
    {
      CartState(cartId, items, total, isLoading, error, orderNumber, isPlacingOrder)
    }

    constructor ()
      ensures State() == Initial
    {
      cartId, items, total, isLoading, error, orderNumber, isPlacingOrder := None, [], 0, false, None, None, false;
    }

    method Dispatch(a: Action)
      modifies this
      ensures State() == Reduce(old(State()), a)
    {
      match a {
        case CreatePending =>
          isLoading := true;
          error := None;
        case CreateFulfilled(id) =>
          isLoading := false;
          cartId := id;
          items := [];
          total := 0;
        case CreateRejected(m) =>
          isLoading := false;
          error := Some(m);
        case OpPending(_) =>
          isLoading := true;
          error := None;
        case OpFulfilled(_, cart) =>
          isLoading := false;
          if cart.Some? {
            cartId := cart.value.id;
            items := if cart.value.items.Some? then cart.value.items.value else [];
            total := GrandTotal(cart.value);
          }
        case OpRejected(_, m) =>
          isLoading := false;
          error := Some(m);
        case PlacePending =>
          isPlacingOrder := true;
          error := None;
        case PlaceFulfilled(n) =>
          isPlacingOrder := false;
          orderNumber := n;
          items := [];
          total := 0;
        case PlaceRejected(m) =>
          isPlacingOrder := false;
          error := Some(m);
        case ClearCart =>
          items := [];
          total := 0;
          orderNumber := None;
        case ClearError =>
          error := None;
        case SetOrderNumber(n) =>
          orderNumber := n;
        case ClearOrderNumber =>
          orderNumber := None;
      }
    }
  }
}

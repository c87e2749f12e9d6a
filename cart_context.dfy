/** The cart store of src/context/CartContext.tsx: a reducer over
    `{ cart, loading }` and a provider whose async methods call the cart
    service and dispatch what it returned. Every successful mutation installs
    the server's cart as it came back; a failed one dispatches nothing. */
module CartContext {
  import opened Wrappers
  import opened Backend
  import opened Types

  datatype CartState = CartState(cart: Option<Cart>, loading: bool)

  /** The actions the provider dispatches, each with the payload it carries. */
  datatype CartAction =
    | SetCart(payload: Cart)
    | SetLoading(flag: bool)
    | AddItem(payload: Cart)
    | RemoveItem(payload: Cart)
    | UpdateQuantity(payload: Cart)
    | ClearCart

  /** The request a provider method sends to the cart service. */
  datatype CartRequest =
    | GetCart
    | AddLine(productId: string, quantity: int)
    | UpdateLine(cartItemId: string, quantity: int)
    | RemoveLine(cartItemId: string)
    | DeleteCart

  const InitialState := CartState(None, false)

  function CartReducer(s: CartState, a: CartAction): CartState {
    match a
    case SetCart(c) => CartState(Some(c), false)
    case SetLoading(f) => s.(loading := f)
    case AddItem(c) => s.(cart := Some(c))
    case RemoveItem(c) => s.(cart := Some(c))
    case UpdateQuantity(c) => s.(cart := Some(c))
    case ClearCart => CartState(None, false)
  }

  /** The state after dispatching `actions` in order. */
  function Run(s: CartState, actions: seq<CartAction>): CartState
    decreases |actions|
  {
    if actions == [] then s else Run(CartReducer(s, actions[0]), actions[1..])
  }

  /** The cart the server last handed over in `actions` (None after a
      CLEAR_CART), or `before` when no action carried a cart. */
  function LastServerCart(before: Option<Cart>, actions: seq<CartAction>): Option<Cart>
    decreases |actions|
  {
    if actions == [] then before
    else
      match actions[|actions| - 1]
      case SetLoading(_) => LastServerCart(before, actions[..|actions| - 1])
      case ClearCart => None
      case SetCart(c) => Some(c)
      case AddItem(c) => Some(c)
      case RemoveItem(c) => Some(c)
      case UpdateQuantity(c) => Some(c)
  }

  lemma {:induction false} RunSnoc(s: CartState, actions: seq<CartAction>, a: CartAction)
    ensures Run(s, actions + [a]) == CartReducer(Run(s, actions), a)
    decreases |actions|
  {
    if actions != [] {
      assert (actions + [a])[1..] == actions[1..] + [a];
      RunSnoc(CartReducer(s, actions[0]), actions[1..], a);
    }
  }

  /** Write-through: whatever was dispatched, the cart held is exactly the one
      the server returned last (or none after a clear); the client never
      computes a cart of its own. */
  lemma {:induction false} CartIsLastServerCart(s: CartState, actions: seq<CartAction>)
    ensures Run(s, actions).cart == LastServerCart(s.cart, actions)
    decreases |actions|
  {
    if actions != [] {
      var init := actions[..|actions| - 1];
      assert actions == init + [actions[|actions| - 1]];
      RunSnoc(s, init, actions[|actions| - 1]);
      CartIsLastServerCart(s, init);
    }
  }

  /** SET_CART installs its payload and always ends loading. */
  lemma SetCartInstalls(s: CartState, c: Cart)
    ensures CartReducer(s, SetCart(c)).cart == Some(c)
    ensures !CartReducer(s, SetCart(c)).loading
  {
  }

  /** SET_LOADING changes the loading flag and nothing else. */
  lemma SetLoadingOnlyLoading(s: CartState, f: bool)
    ensures CartReducer(s, SetLoading(f)) == CartState(s.cart, f)
  {
  }

  /** ADD_ITEM, REMOVE_ITEM and UPDATE_QUANTITY replace the cart wholesale
      with their payload and leave the loading flag as it was. */
  lemma ItemActionsReplaceCart(s: CartState, a: CartAction)
    requires a.AddItem? || a.RemoveItem? || a.UpdateQuantity?
    ensures CartReducer(s, a) == CartState(Some(a.payload), s.loading)
  {
  }

  /** CLEAR_CART empties the store whatever it held. */
  lemma ClearCartEmpties(s: CartState)
    ensures CartReducer(s, ClearCart) == InitialState
  {
  }

  /** The provider of the cart context; `cart` and `loading` are the reducer's state. */
  class CartProvider {
    var cart: Option<Cart>
    var loading: bool

    function State(): CartState
      reads this
    {
      CartState(cart, loading)
    }

    constructor ()
      ensures State() == InitialState
    {
      cart := None;
      loading := false;
    }

    /** React's `dispatch`: the next state is the reducer applied to this one. */
    method Dispatch(a: CartAction)
      modifies this
      ensures State() == CartReducer(old(State()), a)
    {
      var next := CartReducer(State(), a);
      cart, loading := next.cart, next.loading;
    }

    /** `fetchCart`: loading on, then the server's cart, or loading off on failure. */
    method FetchCart(reply: Reply<Cart>) returns (request: CartRequest, dispatched: seq<CartAction>)
      modifies this
      ensures request == GetCart
      ensures dispatched == [SetLoading(true)] + (if reply.Ok? then [SetCart(reply.value)] else [SetLoading(false)])
      ensures State() == Run(old(State()), dispatched)
      ensures cart == (if reply.Ok? then Some(reply.value) else old(cart))
      ensures !loading
    {
      request := GetCart;
      ghost var before := State();
      Dispatch(SetLoading(true));
      var second := if reply.Ok? then SetCart(reply.value) else SetLoading(false);
      Dispatch(second);
      dispatched := [SetLoading(true), second];
      ghost var mid := CartReducer(before, SetLoading(true));
      assert Run(mid, [second]) == Run(CartReducer(mid, second), []);
      assert Run(before, dispatched) == Run(mid, [second]);
    }

    /** The shared shape of addToCart, removeFromCart and updateQuantity: on
        success dispatch `action` carrying the returned cart; on failure
        dispatch nothing and rethrow. */
    method WriteThrough(reply: Reply<Cart>, action: Cart -> CartAction) returns (status: Status, dispatched: seq<CartAction>)
      modifies this
      ensures dispatched == if reply.Ok? then [action(reply.value)] else []
      ensures status == if reply.Ok? then Done else Failed(reply.message)
      ensures State() == Run(old(State()), dispatched)
    {
      if reply.Ok? {
        Dispatch(action(reply.value));
        dispatched, status := [action(reply.value)], Done;
      } else {
        dispatched, status := [], Failed(reply.message);
      }
    }

    /** `addToCart(productId, quantity)`. */
    method AddToCart(productId: string, quantity: int, reply: Reply<Cart>)
      returns (request: CartRequest, status: Status, dispatched: seq<CartAction>)
      modifies this
      ensures request == AddLine(productId, quantity)
      ensures status == if reply.Ok? then Done else Failed(reply.message)
      ensures dispatched == if reply.Ok? then [AddItem(reply.value)] else []
      ensures State() == Run(old(State()), dispatched)
      ensures State() == if reply.Ok? then CartState(Some(reply.value), old(loading)) else old(State())
    {
      request := AddLine(productId, quantity);
      status, dispatched := WriteThrough(reply, c => AddItem(c));
    }

    /** `removeFromCart(cartItemId)`. */
    method RemoveFromCart(cartItemId: string, reply: Reply<Cart>)
      returns (request: CartRequest, status: Status, dispatched: seq<CartAction>)
      modifies this
      ensures request == RemoveLine(cartItemId)
      ensures status == if reply.Ok? then Done else Failed(reply.message)
      ensures dispatched == if reply.Ok? then [RemoveItem(reply.value)] else []
      ensures State() == Run(old(State()), dispatched)
      ensures State() == if reply.Ok? then CartState(Some(reply.value), old(loading)) else old(State())
    {
      request := RemoveLine(cartItemId);
      status, dispatched := WriteThrough(reply, c => RemoveItem(c));
    }

    /** `updateQuantity(cartItemId, quantity)`; the quantity is sent as given. */
    method UpdateQuantity(cartItemId: string, quantity: int, reply: Reply<Cart>)
      returns (request: CartRequest, status: Status, dispatched: seq<CartAction>)
      modifies this
      ensures request == UpdateLine(cartItemId, quantity)
      ensures status == if reply.Ok? then Done else Failed(reply.message)
      ensures dispatched == if reply.Ok? then [CartAction.UpdateQuantity(reply.value)] else []
      ensures State() == Run(old(State()), dispatched)
      ensures State() == if reply.Ok? then CartState(Some(reply.value), old(loading)) else old(State())
    {
      request := UpdateLine(cartItemId, quantity);
      status, dispatched := WriteThrough(reply, c => CartAction.UpdateQuantity(c));
    }

    /** `clearCart`: the store empties only once the server confirmed. */
    method ClearCart(reply: Reply<()>) returns (request: CartRequest, status: Status, dispatched: seq<CartAction>)
      modifies this
      ensures request == DeleteCart
      ensures status == if reply.Ok? then Done else Failed(reply.message)
      ensures dispatched == if reply.Ok? then [CartAction.ClearCart] else []
      ensures State() == Run(old(State()), dispatched)
      ensures State() == if reply.Ok? then InitialState else old(State())
    {
      request := DeleteCart;
      if reply.Ok? {
        Dispatch(CartAction.ClearCart);
        status, dispatched := Done, [CartAction.ClearCart];
      } else {
        status, dispatched := Failed(reply.message), [];
      }
    }

    /** The effect that runs whenever the session user changes: fetch the
        cart for a user, clear it when there is none. */
    method OnUserChange(user: Option<User>, reply: Reply<Cart>)
      returns (request: Option<CartRequest>, dispatched: seq<CartAction>)
      modifies this
      ensures user.None? ==> request == None && dispatched == [CartAction.ClearCart] && State() == InitialState
      ensures user.Some? ==> request == Some(GetCart) && !loading &&
                             cart == (if reply.Ok? then Some(reply.value) else old(cart))
      ensures State() == Run(old(State()), dispatched)
    {
      if user.Some? {
        var r;
        r, dispatched := FetchCart(reply);
        request := Some(r);
      } else {
        Dispatch(CartAction.ClearCart);
        request, dispatched := None, [CartAction.ClearCart];
      }
    }
  }
}

/** The checkout page, src/pages/CheckoutPage.tsx: three steps (shipping,
    payment, review) driven by the handlers of the controls each step shows,
    and an order submission that clears the cart only after the order exists. */
module CheckoutPage {
  import opened Wrappers
  import opened Backend
  import opened Types
  import opened CartContext

  datatype Step = ShippingStep | PaymentStep | ReviewStep

  /** The user actions the page reacts to. */
  datatype CheckoutEvent =
    | SubmitShipping(address: ShippingAddress)   // the address form's onSubmit
    | BackToCart                                  // the address form's onBack
    | SelectPayment(choice: PaymentMethod)        // the payment options' onSelect
    | BackToShipping                              // the payment options' onBack
    | BackToPayment                               // "Back to Payment" on the review
    | PlaceOrder                                  // "Place Order" on the review

  /** The controls `renderStep` shows at each step. */
  predicate Offered(step: Step, e: CheckoutEvent) {
    match step
    case ShippingStep => e.SubmitShipping? || e.BackToCart?
    case PaymentStep => e.SelectPayment? || e.BackToShipping?
    case ReviewStep => e.BackToPayment? || e.PlaceOrder?
  }

  /** The step after an event; the handlers set the step without looking at it. */
  function NextStep(step: Step, e: CheckoutEvent): Step {
    match e
    case SubmitShipping(_) => PaymentStep
    case SelectPayment(_) => ReviewStep
    case BackToShipping => ShippingStep
    case BackToPayment => PaymentStep
    case BackToCart => step
    case PlaceOrder => step
  }

  function Rank(step: Step): nat {
    match step
    case ShippingStep => 0
    case PaymentStep => 1
    case ReviewStep => 2
  }

  /** Through the offered controls the page moves at most one step forward,
      and the only backward moves are payment to shipping and review to payment. */
  lemma StepMoves(step: Step, e: CheckoutEvent)
    requires Offered(step, e)
    ensures Rank(NextStep(step, e)) <= Rank(step) + 1
    ensures Rank(NextStep(step, e)) < Rank(step) ==>
              (step == PaymentStep && NextStep(step, e) == ShippingStep) ||
              (step == ReviewStep && NextStep(step, e) == PaymentStep)
    ensures NextStep(step, e) == ReviewStep ==> step == ReviewStep || (step == PaymentStep && e.SelectPayment?)
    ensures NextStep(step, e) == PaymentStep ==> step != PaymentStep ==> e.SubmitShipping? || e.BackToPayment?
  {
  }

  /** The step reached after a series of events. */
  function Walk(step: Step, events: seq<CheckoutEvent>): Step
    decreases |events|
  {
    if events == [] then step else Walk(NextStep(step, events[0]), events[1..])
  }

  /** Every event of the series is a control shown at the time. */
  predicate OfferedWalk(step: Step, events: seq<CheckoutEvent>)
    decreases |events|
  {
    events == [] || (Offered(step, events[0]) && OfferedWalk(NextStep(step, events[0]), events[1..]))
  }

  lemma WalkPrefixStep(step: Step, events: seq<CheckoutEvent>, k: nat)
    requires k < |events|
    ensures Walk(step, events[..k + 1]) == Walk(NextStep(step, events[0]), events[1..][..k])
  {
    assert events[..k + 1][1..] == events[1..][..k];
  }

  /** No skipping to the review: a walk that ends there, from any step but the
      review itself, chose a payment method while on the payment step. */
  lemma {:induction false} ReviewOnlyViaPayment(step: Step, events: seq<CheckoutEvent>)
    requires step != ReviewStep && OfferedWalk(step, events)
    requires Walk(step, events) == ReviewStep
    ensures exists i :: 0 <= i < |events| && Walk(step, events[..i]) == PaymentStep && events[i].SelectPayment?
    decreases |events|
  {
    var next := NextStep(step, events[0]);
    if next == ReviewStep {
      assert events[..0] == [];
      assert Walk(step, events[..0]) == PaymentStep;
    } else {
      ReviewOnlyViaPayment(next, events[1..]);
      var i :| 0 <= i < |events[1..]| && Walk(next, events[1..][..i]) == PaymentStep && events[1..][i].SelectPayment?;
      WalkPrefixStep(step, events, i);
      assert events[i + 1] == events[1..][i];
    }
  }

  /** No skipping the address: a walk that leaves the shipping step submitted
      an address while on it. */
  lemma {:induction false} PaymentOnlyViaShipping(events: seq<CheckoutEvent>)
    requires OfferedWalk(ShippingStep, events)
    requires Walk(ShippingStep, events) != ShippingStep
    ensures exists i :: 0 <= i < |events| && Walk(ShippingStep, events[..i]) == ShippingStep && events[i].SubmitShipping?
    decreases |events|
  {
    var next := NextStep(ShippingStep, events[0]);
    if events[0].SubmitShipping? {
      assert events[..0] == [];
      assert Walk(ShippingStep, events[..0]) == ShippingStep;
    } else {
      assert next == ShippingStep;
      PaymentOnlyViaShipping(events[1..]);
      var i :| 0 <= i < |events[1..]| && Walk(next, events[1..][..i]) == ShippingStep && events[1..][i].SubmitShipping?;
      WalkPrefixStep(ShippingStep, events, i);
      assert events[i + 1] == events[1..][i];
    }
  }

  /** Where the page sends the browser. */
  datatype Route = CartRoute | OrdersRoute(orderId: string)

  /** The body of the order-creation request: the address and the payment
      method only; items and amounts are left to the server. */
  datatype CreateOrderRequest = CreateOrderRequest(shippingAddress: ShippingAddress, paymentMethod: PaymentMethod)

  const OrderFallback := "Failed to place order. Please try again."

  /** `!cart || cart.items.length === 0`: the page redirects to the cart and
      renders nothing. */
  predicate RedirectsToCart(cart: Option<Cart>) {
    cart.None? || |cart.value.items| == 0
  }

  /** The page is shown only for a cart with lines, and the empty store that
      a successful `clearCart` leaves behind makes it redirect to the cart. */
  lemma RedirectRule(cart: Cart)
    ensures RedirectsToCart(Some(cart)) <==> |cart.items| == 0
    ensures RedirectsToCart(CartContext.InitialState.cart)
  {
  }

  /** The address form starts from the user's profile, empty street and city,
      and Kenya. */
  function InitialAddress(user: Option<User>): (a: ShippingAddress)
    ensures a.address == "" && a.city == "" && a.country == "Kenya"
    ensures user.None? ==> a.firstName == "" && a.lastName == "" && a.email == "" && a.phone == ""
    ensures user.Some? ==> a.firstName == user.value.firstName && a.lastName == user.value.lastName &&
                           a.email == user.value.email && a.phone == user.value.phone
  {
    match user
    case None => ShippingAddress("", "", "", "", "", "", "Kenya")
    case Some(u) => ShippingAddress(u.firstName, u.lastName, u.email, u.phone, "", "", "Kenya")
  }

  class CheckoutPageState {
    var step: Step
    var shippingAddress: ShippingAddress
    var paymentMethod: PaymentMethod
    var loading: bool
    var error: string
    var navigatedTo: Option<Route>

    constructor (user: Option<User>)
      ensures step == ShippingStep && shippingAddress == InitialAddress(user) && paymentMethod == Mpesa
      ensures !loading && error == "" && navigatedTo == None
    {
      step := ShippingStep;
      shippingAddress := InitialAddress(user);
      paymentMethod := Mpesa;
      loading := false;
      error := "";
      navigatedTo := None;
    }

    /** `handleShippingSubmit(address)`: stores the address as given, with no
        check of its fields, and moves to payment. */
    method HandleShippingSubmit(address: ShippingAddress)
      modifies this
      ensures shippingAddress == address && step == NextStep(old(step), SubmitShipping(address))
      ensures step == PaymentStep
      ensures paymentMethod == old(paymentMethod) && loading == old(loading) && error == old(error)
      ensures navigatedTo == old(navigatedTo)
    {
      shippingAddress := address;
      step := PaymentStep;
    }

    /** `handlePaymentSubmit(method)`: stores the method and moves to review. */
    method HandlePaymentSubmit(m: PaymentMethod)
      modifies this
      ensures paymentMethod == m && step == NextStep(old(step), SelectPayment(m))
      ensures step == ReviewStep
      ensures shippingAddress == old(shippingAddress) && loading == old(loading) && error == old(error)
      ensures navigatedTo == old(navigatedTo)
    {
      paymentMethod := m;
      step := ReviewStep;
    }

    /** The payment step's back button. */
    method BackToShipping()
      modifies this`step
      ensures step == NextStep(old(step), CheckoutEvent.BackToShipping) == ShippingStep
    {
      step := ShippingStep;
    }

    /** The review's "Back to Payment" button. */
    method BackToPayment()
      modifies this`step
      ensures step == NextStep(old(step), CheckoutEvent.BackToPayment) == PaymentStep
    {
      step := PaymentStep;
    }

    /** The address form's back button leaves checkout for the cart. */
    method BackToCart()
      modifies this`navigatedTo
      ensures navigatedTo == Some(CartRoute)
    {
      navigatedTo := Some(CartRoute);
    }

    /** `handleOrderSubmit`: create the order from the stored address and
        method, then clear the cart, then go to the orders page. A failure of
        either call shows the server's message or the fallback, stays on the
        page and does not navigate; loading ends false on every path. */
    method HandleOrderSubmit(store: CartProvider, orderReply: Reply<Order>, clearReply: Reply<()>)
      returns (request: CreateOrderRequest, clearRequested: bool)
      modifies this, store
      ensures request == CreateOrderRequest(old(shippingAddress), old(paymentMethod))
      ensures clearRequested <==> orderReply.Ok?
      ensures !loading
      ensures step == old(step) && shippingAddress == old(shippingAddress) && paymentMethod == old(paymentMethod)
      ensures orderReply.Err? ==>
                error == ErrorText(orderReply.message, OrderFallback) &&
                store.State() == old(store.State()) && navigatedTo == old(navigatedTo)
      ensures orderReply.Ok? && clearReply.Err? ==>
                error == ErrorText(clearReply.message, OrderFallback) &&
                store.State() == old(store.State()) && navigatedTo == old(navigatedTo)
      ensures orderReply.Ok? && clearReply.Ok? ==>
                error == "" && store.State() == CartContext.InitialState &&
                navigatedTo == Some(OrdersRoute(orderReply.value.id))
    {
      loading := true;
      error := "";
      request := CreateOrderRequest(shippingAddress, paymentMethod);
      clearRequested := false;
      if orderReply.Err? {
        error := ErrorText(orderReply.message, OrderFallback);
      } else {
        clearRequested := true;
        var r, status, dispatched := store.ClearCart(clearReply);
        if status.Failed? {
          error := ErrorText(status.message, OrderFallback);
        } else {
          navigatedTo := Some(OrdersRoute(orderReply.value.id));
        }
      }
      loading := false;
    }
  }

  /** The whole happy path: address, payment, then a successful order and
      clear leave the cart empty and the browser on the orders page. */
  method HappyPath(store: CartProvider, user: Option<User>, address: ShippingAddress, order: Order)
    returns (page: CheckoutPageState, request: CreateOrderRequest)
    modifies store
    ensures request == CreateOrderRequest(address, Mpesa)
    ensures store.State() == CartContext.InitialState
    ensures page.navigatedTo == Some(OrdersRoute(order.id)) && page.step == ReviewStep && !page.loading
  {
    page := new CheckoutPageState(user);
    page.HandleShippingSubmit(address);
    assert page.step == PaymentStep;
    page.HandlePaymentSubmit(Mpesa);
    var cleared;
    request, cleared := page.HandleOrderSubmit(store, Ok(order), Ok(()));
  }
}

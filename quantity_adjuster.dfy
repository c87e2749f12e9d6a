/** The −/+ control of src/components/cart/QuantityAdjuster.tsx. It holds no
    state: each button either reports one new quantity to its parent or does
    nothing, and each is disabled exactly when it would do nothing. */
module QuantityAdjuster {
  import opened Wrappers

  /** `decreaseQuantity`: the value handed to `onQuantityChange`, if any. */
  function DecreaseQuantity(quantity: int): Option<int> {
    if quantity > 1 then Some(quantity - 1) else None
  }

  /** `increaseQuantity`: the value handed to `onQuantityChange`, if any. */
  function IncreaseQuantity(quantity: int, maxQuantity: int): Option<int> {
    if quantity < maxQuantity then Some(quantity + 1) else None
  }

  predicate DecreaseDisabled(quantity: int) {
    quantity <= 1
  }

  predicate IncreaseDisabled(quantity: int, maxQuantity: int) {
    quantity >= maxQuantity
  }

  /** Each button is disabled exactly when its handler would emit nothing. */
  lemma DisabledIffSilent(quantity: int, maxQuantity: int)
    ensures DecreaseDisabled(quantity) <==> DecreaseQuantity(quantity).None?
    ensures IncreaseDisabled(quantity, maxQuantity) <==> IncreaseQuantity(quantity, maxQuantity).None?
  {
  }

  /** A decrease emits one less only above 1, so it never emits anything below 1;
      an increase emits one more only below the maximum, so never above it. */
  lemma EmittedWithinBounds(quantity: int, maxQuantity: int)
    ensures DecreaseQuantity(quantity).Some? ==> DecreaseQuantity(quantity).value == quantity - 1 >= 1
    ensures IncreaseQuantity(quantity, maxQuantity).Some? ==>
              IncreaseQuantity(quantity, maxQuantity).value == quantity + 1 <= maxQuantity
    ensures quantity >= 1 && IncreaseQuantity(quantity, maxQuantity).Some? ==>
              IncreaseQuantity(quantity, maxQuantity).value >= 2
  {
  }

  datatype Click = Minus | Plus

  /** The quantity after a series of clicks, when every emitted value is
      adopted as the new quantity (what the cart page does once the server
      accepts each update). */
  function AfterClicks(quantity: int, maxQuantity: int, clicks: seq<Click>): int
    decreases |clicks|
  {
    if clicks == [] then quantity
    else
      var emitted := match clicks[0]
        case Minus => DecreaseQuantity(quantity)
        case Plus => IncreaseQuantity(quantity, maxQuantity);
      AfterClicks(emitted.GetOr(quantity), maxQuantity, clicks[1..])
  }

  /** Starting inside [1, maxQuantity], no series of clicks leaves it; in
      particular 0 is never reached. */
  lemma {:induction false} ClicksStayInRange(quantity: int, maxQuantity: int, clicks: seq<Click>)
    requires 1 <= quantity <= maxQuantity
    ensures 1 <= AfterClicks(quantity, maxQuantity, clicks) <= maxQuantity
    decreases |clicks|
  {
    if clicks != [] {
      var next := match clicks[0]
        case Minus => DecreaseQuantity(quantity)
        case Plus => IncreaseQuantity(quantity, maxQuantity);
      ClicksStayInRange(next.GetOr(quantity), maxQuantity, clicks[1..]);
    }
  }

  /** Starting above the maximum (stock fell below what is in the cart),
      clicks never raise the quantity: only decreases take effect. */
  lemma {:induction false} ClicksNeverRaiseAboveStock(quantity: int, maxQuantity: int, clicks: seq<Click>)
    requires quantity >= 1
    ensures 1 <= AfterClicks(quantity, maxQuantity, clicks)
    ensures AfterClicks(quantity, maxQuantity, clicks) <= if quantity > maxQuantity then quantity else maxQuantity
    decreases |clicks|
  {
    if clicks != [] {
      var next := match clicks[0]
        case Minus => DecreaseQuantity(quantity)
        case Plus => IncreaseQuantity(quantity, maxQuantity);
      ClicksNeverRaiseAboveStock(next.GetOr(quantity), maxQuantity, clicks[1..]);
    }
  }
}

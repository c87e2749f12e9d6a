/** One line of the cart page, src/components/cart/CartItem.tsx. A requested
    quantity of 0 is routed to removal, anything else to an update; errors from
    either call are caught and logged, so the caller never sees them. */
module CartItemView {
  import opened Wrappers
  import opened Backend
  import opened Types
  import opened CartContext
  import QuantityAdjuster

  /** Which cart-service call `handleQuantityChange(newQuantity)` leads to. */
  function QuantityChangeCall(item: CartItem, newQuantity: int): (r: CartRequest)
    ensures r.RemoveLine? <==> newQuantity == 0
    ensures r.RemoveLine? ==> r.cartItemId == item.id
    ensures !r.RemoveLine? ==> r == UpdateLine(item.id, newQuantity)
  {
    if newQuantity == 0 then RemoveLine(item.id) else UpdateLine(item.id, newQuantity)
  }

  /** The upper bound handed to the adjuster is the product's stock. */
  function AdjusterMax(item: CartItem): int {
    item.product.stock
  }

  /** Nothing the adjuster emits for a line of positive quantity is 0, so the
      adjuster alone never removes a line: only the Remove button does. */
  lemma {:induction false} AdjusterNeverRemoves(item: CartItem)
    requires item.quantity >= 1
    ensures var d := QuantityAdjuster.DecreaseQuantity(item.quantity);
            d.Some? ==> QuantityChangeCall(item, d.value).UpdateLine?
    ensures var u := QuantityAdjuster.IncreaseQuantity(item.quantity, AdjusterMax(item));
            u.Some? ==> QuantityChangeCall(item, u.value) == UpdateLine(item.id, item.quantity + 1) &&
                        item.quantity + 1 <= item.product.stock
  {
    QuantityAdjuster.EmittedWithinBounds(item.quantity, AdjusterMax(item));
  }

  /** `handleRemove`: remove the line; a failure is logged and swallowed. */
  method HandleRemove(store: CartProvider, item: CartItem, reply: Reply<Cart>) returns (request: CartRequest)
    modifies store
    ensures request == RemoveLine(item.id)
    ensures store.State() == if reply.Ok? then CartReducer(old(store.State()), RemoveItem(reply.value)) else old(store.State())
  {
    var status, dispatched;
    request, status, dispatched := store.RemoveFromCart(item.id, reply);
  }

  /** `handleQuantityChange(newQuantity)`: 0 goes to removal and never to
      `updateQuantity`; any other value is passed on unchanged. */
  method HandleQuantityChange(store: CartProvider, item: CartItem, newQuantity: int, reply: Reply<Cart>)
    returns (request: CartRequest)
    modifies store
    ensures request == QuantityChangeCall(item, newQuantity)
    ensures reply.Err? ==> store.State() == old(store.State())
    ensures reply.Ok? && newQuantity == 0 ==> store.State() == CartReducer(old(store.State()), RemoveItem(reply.value))
    ensures reply.Ok? && newQuantity != 0 ==>
              store.State() == CartReducer(old(store.State()), CartAction.UpdateQuantity(reply.value))
  {
    if newQuantity == 0 {
      request := HandleRemove(store, item, reply);
      return;
    }
    var status, dispatched;
    request, status, dispatched := store.UpdateQuantity(item.id, newQuantity, reply);
  }
}

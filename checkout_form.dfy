/** `CartSummary` in src/components/checkout/CheckoutForm.tsx: a second copy
    of the pricing rule of OrderSummary.tsx, written out again. */
module CheckoutForm {
  import opened Wrappers
  import opened Types
  import OrderSummary

  function CartShipping(cart: Cart): real {
    if cart.totalAmount > 10000.0 then 0.0 else 500.0
  }

  function CartTax(cart: Cart): real {
    cart.totalAmount * 0.14
  }

  function CartTotal(cart: Cart): real {
    cart.totalAmount + CartShipping(cart) + CartTax(cart)
  }

  function CartHint(cart: Cart): Option<real> {
    if cart.totalAmount < 10000.0 then Some(10000.0 - cart.totalAmount) else None
  }

  /** For every cart the two panels show the same shipping, tax, total and hint. */
  lemma SameAsOrderSummary(cart: Cart)
    ensures CartShipping(cart) == OrderSummary.Summarize(cart).shipping
    ensures CartTax(cart) == OrderSummary.Summarize(cart).tax
    ensures CartTotal(cart) == OrderSummary.Summarize(cart).total
    ensures CartHint(cart) == OrderSummary.Summarize(cart).hint
  {
  }

  /** CartSummary's own rule, stated directly: free shipping iff over 10000,
      tax 14%, total the sum, hint iff under 10000 with the shortfall. */
  lemma CartSummaryRule(cart: Cart)
    ensures CartShipping(cart) == 0.0 <==> cart.totalAmount > 10000.0
    ensures CartShipping(cart) != 0.0 ==> CartShipping(cart) == 500.0
    ensures CartTax(cart) * 100.0 == 14.0 * cart.totalAmount
    ensures CartTotal(cart) == cart.totalAmount + CartShipping(cart) + CartTax(cart)
    ensures CartHint(cart).Some? <==> cart.totalAmount < 10000.0
    ensures CartHint(cart).Some? ==> CartHint(cart).value == 10000.0 - cart.totalAmount
  {
  }
}

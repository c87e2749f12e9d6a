/** The pricing panel of src/components/checkout/OrderSummary.tsx. Shipping
    is free strictly above 10000, tax is 14% of the subtotal, the total is
    their sum, and a hint names the amount missing for free shipping. The
    subtotal is the server's `cart.totalAmount`; amounts are exact reals. */
module OrderSummary {
  import opened Wrappers
  import opened Types

  const Threshold: real := 10000.0
  const ShippingFee: real := 500.0
  const TaxRate: real := 0.14

  function ShippingCost(subtotal: real): real {
    if subtotal > Threshold then 0.0 else ShippingFee
  }

  function Tax(subtotal: real): real {
    subtotal * TaxRate
  }

  function Total(subtotal: real): real {
    subtotal + ShippingCost(subtotal) + Tax(subtotal)
  }

  /** The "Add KSh … more for free shipping!" banner, with its amount. */
  function FreeShippingHint(subtotal: real): Option<real> {
    if subtotal < Threshold then Some(Threshold - subtotal) else None
  }

  /** What the panel shows for a cart. */
  datatype Summary = Summary(
    lines: seq<real>,
    subtotal: real,
    shipping: real,
    tax: real,
    total: real,
    hint: Option<real>)

  function Summarize(cart: Cart): (r: Summary)
    ensures |r.lines| == |cart.items|
    ensures forall i :: 0 <= i < |cart.items| ==> r.lines[i] == cart.items[i].quantity as real * cart.items[i].product.price
    ensures r.subtotal == cart.totalAmount
    ensures r.total == r.subtotal + r.shipping + r.tax
    ensures r.tax * 100.0 == 14.0 * r.subtotal
    ensures r.shipping == 0.0 <==> r.subtotal > Threshold
    ensures r.subtotal <= Threshold ==> r.shipping == ShippingFee
    ensures r.hint == if r.subtotal < Threshold then Some(Threshold - r.subtotal) else None
  {
    Summary(
      seq(|cart.items|, i requires 0 <= i < |cart.items| => LineTotal(cart.items[i])),
      cart.totalAmount,
      ShippingCost(cart.totalAmount),
      Tax(cart.totalAmount),
      Total(cart.totalAmount),
      FreeShippingHint(cart.totalAmount))
  }

  /** Shipping is free exactly above the threshold; everywhere else it is the
      flat fee, so a subtotal of exactly 10000 still pays 500. */
  lemma ShippingStep(subtotal: real)
    ensures ShippingCost(subtotal) == 0.0 <==> subtotal > 10000.0
    ensures ShippingCost(subtotal) == 0.0 || ShippingCost(subtotal) == 500.0
    ensures ShippingCost(10000.0) == 500.0
  {
  }

  /** The total is not monotone in the subtotal: crossing the threshold drops it. */
  lemma TotalDropsAtThreshold()
    ensures Total(10000.0) == 11900.0
    ensures Total(10001.0) == 11401.14
    ensures Total(10001.0) < Total(10000.0)
  {
  }

  /** Every subtotal just above the threshold, up to the point where the
      saved fee is made up by tax and price, costs less in total than a
      subtotal of exactly 10000. */
  lemma TotalDropsJustAboveThreshold(subtotal: real)
    requires 10000.0 < subtotal < 10000.0 + 500.0 / 1.14
    ensures Total(subtotal) < Total(10000.0)
  {
  }

  /** Above the threshold the total is 1.14 times the subtotal; at or below it,
      500 more than that. */
  lemma TotalClosedForm(subtotal: real)
    ensures subtotal > 10000.0 ==> Total(subtotal) == 1.14 * subtotal
    ensures subtotal <= 10000.0 ==> Total(subtotal) == 1.14 * subtotal + 500.0
  {
  }

  /** The hint appears exactly below the threshold and names the shortfall. */
  lemma HintIffBelowThreshold(subtotal: real)
    ensures FreeShippingHint(subtotal).Some? <==> subtotal < 10000.0
    ensures FreeShippingHint(subtotal).Some? ==> subtotal + FreeShippingHint(subtotal).value == 10000.0
    ensures FreeShippingHint(subtotal).Some? ==> FreeShippingHint(subtotal).value > 0.0
  {
  }

  /** At exactly 10000 the customer gets neither free shipping nor the hint,
      and topping up by the hinted amount lands exactly there: the hint
      promises free shipping that the strict comparison does not give. */
  lemma HintedTopUpStillPaysShipping(subtotal: real)
    requires FreeShippingHint(subtotal).Some?
    ensures ShippingCost(subtotal + FreeShippingHint(subtotal).value) == 500.0
    ensures FreeShippingHint(subtotal + FreeShippingHint(subtotal).value).None?
  {
  }
}

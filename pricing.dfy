/** The price summary formula shared by the server cart, checkout and the
    client store: 8% tax, free shipping strictly above 50, otherwise a flat
    5.99, and a total that adds the three. Amounts are exact reals; the
    two-decimal rounding of the source is not modelled. */
module Pricing {

  const TaxRate: real := 0.08
  const FreeShippingAbove: real := 50.0
  const FlatShipping: real := 5.99

  datatype Summary = Summary(subtotal: real, tax: real, shipping: real, total: real)

  /** Shipping is free exactly when the subtotal exceeds the threshold. */
  function ShippingFor(subtotal: real): (r: real)
    ensures r == 0.0 <==> subtotal > FreeShippingAbove
    ensures r == 0.0 || r == FlatShipping
  {
    if subtotal > FreeShippingAbove then 0.0 else FlatShipping
  }

  /** The summary of a subtotal: every component is determined by it, and the
      total is the sum of the other three. */
  function Summarize(subtotal: real): (s: Summary)
    ensures s.subtotal == subtotal && s.tax == subtotal * TaxRate
    ensures s.shipping == ShippingFor(subtotal)
    ensures s.total == s.subtotal + s.tax + s.shipping
  {
    var tax := subtotal * TaxRate;
    var shipping := ShippingFor(subtotal);
    Summary(subtotal, tax, shipping, subtotal + tax + shipping)
  }

  /** A summary is well formed when its parts are non-negative and add up. */
  predicate WellFormed(s: Summary) {
    s.subtotal >= 0.0 && s.tax >= 0.0 && s.shipping >= 0.0 && s.total >= 0.0
    && s.total == s.subtotal + s.tax + s.shipping
  }

  /** The total lies between 108% of the subtotal and that plus the flat fee,
      and a non-negative subtotal gives a well-formed summary. */
  lemma TotalBounds(subtotal: real)
    requires subtotal >= 0.0
    ensures WellFormed(Summarize(subtotal))
    ensures subtotal * 1.08 <= Summarize(subtotal).total <= subtotal * 1.08 + FlatShipping
  {
  }

  /** The worked example: one line at 10 with quantity 3. */
  lemma ThirtyExample()
    ensures Summarize(10.0 * 3.0) == Summary(30.0, 2.4, 5.99, 38.39)
  {
  }

  /** Once shipping is free it stays free for every larger subtotal. */
  lemma FreeShippingMonotone(a: real, b: real)
    requires a <= b && ShippingFor(a) == 0.0
    ensures ShippingFor(b) == 0.0
  {
  }
}

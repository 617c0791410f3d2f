/**
  The order summary on the cart page (client/src/pages/Cart.tsx): a flat shipping
  charge that disappears from a subtotal threshold on, the total shown to the
  shopper, and the "add more for free shipping" hint with its progress bar.
  Amounts are whole rupees.
 */
module CartSummary {
  import CartStore

  const FreeShippingThreshold: int := 2000
  const FlatShippingCost: int := 200

  /** Shipping is free from the threshold on and a flat charge below it. */
  function ShippingCost(subtotal: int): (r: int)
    ensures r == 0 <==> subtotal >= FreeShippingThreshold
    ensures r == 0 || r == FlatShippingCost
  {
    if subtotal >= FreeShippingThreshold then 0 else FlatShippingCost
  }

  /** The total shown: the cart's `getTotal()` plus the shipping charge. */
  function DisplayedTotal(cart: CartStore.Cart): (r: int)
    reads cart
    ensures r == cart.GetSubtotal() + ShippingCost(cart.GetSubtotal())
    ensures r >= cart.GetSubtotal()
    ensures cart.GetSubtotal() < FreeShippingThreshold ==> r == cart.GetSubtotal() + FlatShippingCost
  {
    cart.GetTotal() + ShippingCost(cart.GetSubtotal())
  }

  datatype ShippingLabel = Free | Charged(amount: int)

  /** The shipping row reads "Free" exactly when nothing is charged. */
  function ShippingRow(subtotal: int): (r: ShippingLabel)
    ensures r.Free? <==> ShippingCost(subtotal) == 0
    ensures r.Charged? ==> r.amount == FlatShippingCost
  {
    var cost := ShippingCost(subtotal);
    if cost == 0 then Free else Charged(cost)
  }

  /** The free-shipping box is rendered only below the threshold. */
  predicate ShowsFreeShippingHint(subtotal: int)
  {
    subtotal < FreeShippingThreshold
  }

  /** The hint is shown exactly when shipping is charged. */
  lemma HintIffCharged(subtotal: int)
    ensures ShowsFreeShippingHint(subtotal) <==> ShippingRow(subtotal).Charged?
  {
  }

  /** The "add ... more" amount: positive, and it brings the subtotal exactly to the threshold. */
  function AmountToFreeShipping(subtotal: int): (r: int)
    requires ShowsFreeShippingHint(subtotal)
    ensures r > 0
    ensures ShippingCost(subtotal + r) == 0 && ShippingCost(subtotal + r - 1) == FlatShippingCost
  {
    FreeShippingThreshold - subtotal
  }

  /** Width of the progress bar, `Math.min(subtotal / 2000 * 100, 100)` percent. */
  function ProgressPercent(subtotal: int): (r: real)
    ensures r <= 100.0
    ensures subtotal >= 0 ==> r >= 0.0
    ensures subtotal < FreeShippingThreshold ==> r == subtotal as real / 20.0 && r < 100.0
    ensures subtotal >= FreeShippingThreshold ==> r == 100.0
  {
    var pct := (subtotal as real / FreeShippingThreshold as real) * 100.0;
    if pct < 100.0 then pct else 100.0
  }

  /**
    The bar fills as the subtotal grows and is full exactly when shipping is free, so
    a full bar and the "Free" shipping row always go together.
   */
  lemma ProgressTracksShipping(a: int, b: int)
    requires a <= b
    ensures ProgressPercent(a) <= ProgressPercent(b)
    ensures ProgressPercent(a) == 100.0 <==> ShippingCost(a) == 0
  {
  }

  /**
    The shown total is not monotone in the subtotal: just below the threshold the
    shopper pays more than at the threshold itself.
   */
  lemma TotalDropsAtThreshold()
    ensures FreeShippingThreshold - 1 + ShippingCost(FreeShippingThreshold - 1) >
            FreeShippingThreshold + ShippingCost(FreeShippingThreshold)
  {
  }
}

/**
 * How an order's price is computed from its request entries: the item
 * subtotal, the free-shipping threshold and the stored total.
 */
module Pricing {
  import opened Entities

  /** Orders whose subtotal is at most 10 EUR (1000 cents) pay the restaurant's flat shipping cost. */
  const FreeShippingThreshold: int := 1000

  /** Every entry of the request names a product of the catalogue. */
  predicate AllKnown(reqs: seq<LineRequest>, catalogue: map<int, Product>) {
    forall i :: 0 <= i < |reqs| ==> reqs[i].productId in catalogue
  }

  /** Sum, left to right, of the current product price times the requested quantity. */
  function Subtotal(reqs: seq<LineRequest>, catalogue: map<int, Product>): int
    requires AllKnown(reqs, catalogue)
  {
    if |reqs| == 0 then 0
    else
      var last := reqs[|reqs| - 1];
      Subtotal(reqs[..|reqs| - 1], catalogue) + catalogue[last.productId].price * last.quantity
  }

  /** Subtotals add up over concatenated requests. */
  lemma {:induction false} SubtotalAppend(a: seq<LineRequest>, b: seq<LineRequest>, catalogue: map<int, Product>)
    requires AllKnown(a, catalogue) && AllKnown(b, catalogue)
    ensures AllKnown(a + b, catalogue)
    ensures Subtotal(a + b, catalogue) == Subtotal(a, catalogue) + Subtotal(b, catalogue)
  {
    assert AllKnown(a + b, catalogue) by {
      forall i | 0 <= i < |a + b| ensures (a + b)[i].productId in catalogue {
        if i < |a| { assert (a + b)[i] == a[i]; } else { assert (a + b)[i] == b[i - |a|]; }
      }
    }
    if |b| > 0 {
      var b' := b[..|b| - 1];
      assert (a + b)[..|a + b| - 1] == a + b';
      assert AllKnown(b', catalogue) by {
        forall i | 0 <= i < |b'| ensures b'[i].productId in catalogue { assert b'[i] == b[i]; }
      }
      SubtotalAppend(a, b', catalogue);
    } else {
      assert a + b == a;
    }
  }

  /** With non-negative prices and quantities the subtotal is non-negative. */
  lemma {:induction false} SubtotalNonNegative(reqs: seq<LineRequest>, catalogue: map<int, Product>)
    requires AllKnown(reqs, catalogue)
    requires forall i :: 0 <= i < |reqs| ==> reqs[i].quantity >= 0 && catalogue[reqs[i].productId].price >= 0
    ensures Subtotal(reqs, catalogue) >= 0
  {
    if |reqs| > 0 {
      var init := reqs[..|reqs| - 1];
      assert forall i :: 0 <= i < |init| ==> init[i] == reqs[i];
      SubtotalNonNegative(init, catalogue);
      var last := reqs[|reqs| - 1];
      assert catalogue[last.productId].price * last.quantity >= 0;
    }
  }

  /** The result of applying the shipping rule to a subtotal. */
  datatype Charge = Charge(shippingCosts: int, price: int)

  /**
   * Shipping rule: at or below the threshold the flat cost is charged and
   * added to the price; above it shipping is free.
   */
  function ApplyShipping(subtotal: int, flat: int): (c: Charge)
    ensures c.price == subtotal + c.shippingCosts
    ensures c.shippingCosts == (if subtotal <= FreeShippingThreshold then flat else 0)
  {
    if subtotal <= FreeShippingThreshold then Charge(flat, subtotal + flat) else Charge(0, subtotal)
  }

  /**
   * The total is not monotone in the subtotal: with a positive flat cost, one
   * cent more of items just above the threshold makes the order cheaper.
   */
  lemma ThresholdMakesTotalNonMonotone(flat: int)
    requires flat > 1
    ensures ApplyShipping(FreeShippingThreshold, flat).price > ApplyShipping(FreeShippingThreshold + 1, flat).price
  {
  }

  /** 2 x 4.00 EUR with 2.50 EUR shipping gives 10.50 EUR; 2 x 6.00 EUR gives 12.00 EUR. */
  lemma ShippingScenarios()
    ensures ApplyShipping(2 * 400, 250) == Charge(250, 1050)
    ensures ApplyShipping(2 * 600, 250) == Charge(0, 1200)
  {
  }
}

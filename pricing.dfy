/** The discount and rating display rules that the product page
    (`client/src/pages/product-detail.tsx`) and the product card
    (`client/src/components/ui/product-card.tsx`) share. Prices are exact reals, so
    `Math.round` is rounding half up on a real. */
module Pricing {
  import opened Wrappers
  import opened Catalog

  /** `Math.round`: the nearest integer, halves rounded up. */
  function Round(x: real): (n: int)
    ensures x - 0.5 < n as real <= x + 0.5
  {
    (x + 0.5).Floor
  }

  /** Rounding keeps integers and is monotone. */
  lemma RoundProperties(x: real, y: real, m: int)
    ensures Round(m as real) == m
    ensures x <= y ==> Round(x) <= Round(y)
  {
  }

  /** `Math.round(((oldPrice - price) / oldPrice) * 100)`, computed only when the old
      price is truthy (present and non-zero). */
  function Discount(p: Product): (d: Option<int>)
    ensures d.None? <==> !TruthyNum(p.oldPrice)
    ensures d.Some? ==> Round((p.oldPrice.value - p.price) / p.oldPrice.value * 100.0) == d.value
  {
    if TruthyNum(p.oldPrice) then Some(Round((p.oldPrice.value - p.price) / p.oldPrice.value * 100.0)) else None
  }

  /** The card's badge: `discountPercentage && discountPercentage > 0`. */
  predicate ShowsBadge(p: Product) {
    Discount(p).Some? && Discount(p).value > 0
  }

  /** For a sale price between 0 and a positive old price the discount is a
      percentage, and the badge shows exactly when the price is at most 99.5% of
      the old price; a price at or above the old one never shows it. */
  lemma DiscountBounds(p: Product)
    requires p.oldPrice.Some? && p.oldPrice.value > 0.0
    ensures 0.0 <= p.price <= p.oldPrice.value ==> 0 <= Discount(p).value <= 100
    ensures ShowsBadge(p) <==> p.price * 200.0 <= p.oldPrice.value * 199.0
    ensures p.price >= p.oldPrice.value ==> !ShowsBadge(p)
  {
    var was := p.oldPrice.value;
    var x := (was - p.price) / was * 100.0;
    assert x * was == (was - p.price) * 100.0;
    if 0.0 <= p.price <= was {
      assert 0.0 <= x <= 100.0 by {
        assert (was - p.price) * 100.0 <= was * 100.0;
      }
      RoundProperties(0.0, x, 0);
      RoundProperties(x, 100.0, 100);
    }
    assert Round(x) > 0 <==> x >= 0.5;
    assert x >= 0.5 <==> p.price * 200.0 <= was * 199.0 by {
      assert x >= 0.5 <==> x * was >= 0.5 * was;
    }
  }

  /** Star `i` of five is filled when `i < Math.round(rating)`; no stars are shown
      for a falsy rating. */
  function Stars(rating: Option<real>): (stars: seq<bool>)
    ensures |stars| == if TruthyNum(rating) then 5 else 0
    ensures forall i :: 0 <= i < |stars| ==> (stars[i] <==> i < Round(rating.value))
  {
    if TruthyNum(rating) then seq(5, i => i < Round(rating.value)) else []
  }

  /** The filled stars come first, and their number is the rounded rating clamped to
      0..5: a rating of 4.5 fills all five, one below 0.5 fills none. */
  lemma StarsSpec(rating: real)
    requires rating != 0.0
    ensures var stars := Stars(Some(rating));
      forall i, j :: 0 <= i < j < 5 && stars[j] ==> stars[i]
    ensures rating >= 4.5 ==> Stars(Some(rating)) == [true, true, true, true, true]
    ensures rating < 0.5 ==> Stars(Some(rating)) == [false, false, false, false, false]
    ensures 0 <= Round(rating) <= 5 ==>
      forall i :: 0 <= i < 5 ==> (Stars(Some(rating))[i] <==> i < Round(rating))
  {
  }
}

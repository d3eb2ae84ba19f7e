/**
 * The product card: a five-star rating built in a loop from
 * `product.rating || 4`, the review count with its default, and the two
 * price decorations that appear only when their number is truthy.
 */
module ProductCard {
  import opened Options

  datatype Star = Filled | HalfFilled | Outline

  /** `product.rating || 4`: a missing or zero rating counts as 4. */
  function EffectiveRating(rating: Option<real>): (r: real)
    ensures r != 0.0
    ensures rating.Some? && rating.value != 0.0 ==> r == rating.value
    ensures rating.None? || rating.value == 0.0 ==> r == 4.0
  {
    if rating.Some? && rating.value != 0.0 then rating.value else 4.0
  }

  /** JavaScript's `x % 1`: x less its truncation toward zero, so it has x's sign. */
  function RemainderOne(x: real): (f: real)
    ensures x >= 0.0 ==> f == x - x.Floor as real && 0.0 <= f < 1.0
    ensures x < 0.0 ==> -1.0 < f <= 0.0
  {
    if x >= 0.0 then x - x.Floor as real else x + (-x).Floor as real
  }

  /** `(product.rating || 4) % 1 >= 0.5`. */
  predicate HasHalfStar(r: real)
  {
    RemainderOne(r) >= 0.5
  }

  /** The star at 1-based position i for rating r. */
  function StarAt(r: real, i: int): Star
  {
    if i <= r.Floor then Filled
    else if i == r.Floor + 1 && HasHalfStar(r) then HalfFilled
    else Outline
  }

  /** `renderRating`: one star per position 1..5, pushed in order. */
  method RenderRating(rating: Option<real>) returns (stars: seq<Star>)
    ensures |stars| == 5
    ensures forall i :: 0 <= i < 5 ==> stars[i] == StarAt(EffectiveRating(rating), i + 1)
  {
    var r := EffectiveRating(rating);
    var fullStars := r.Floor;
    var hasHalfStar := RemainderOne(r) >= 0.5;
    stars := [];
    for i := 1 to 6
      invariant |stars| == i - 1
      invariant forall k :: 0 <= k < i - 1 ==> stars[k] == StarAt(r, k + 1)
    {
      if i <= fullStars {
        stars := stars + [Filled];
      } else if i == fullStars + 1 && hasHalfStar {
        stars := stars + [HalfFilled];
      } else {
        stars := stars + [Outline];
      }
    }
  }

  /** The five stars for rating r. */
  function Stars(r: real): seq<Star>
  {
    seq(5, k => StarAt(r, k + 1))
  }

  function Repeat(s: Star, n: nat): (r: seq<Star>)
    ensures |r| == n && forall k :: 0 <= k < n ==> r[k] == s
  {
    if n == 0 then [] else [s] + Repeat(s, n - 1)
  }

  /** The number of filled stars: floor(r), clamped to 0..5. */
  function FilledCount(r: real): (n: nat)
    ensures n <= 5
  {
    if r.Floor < 0 then 0 else if r.Floor > 5 then 5 else r.Floor
  }

  /** A half star is drawn: there is room for it and the fraction is at least a half. */
  predicate ShowsHalf(r: real)
  {
    0 <= r.Floor < 5 && HasHalfStar(r)
  }

  /**
   * The stars are all filled ones, then at most one half star, then outlines:
   * floor(r) filled (clamped to 0..5), a half star exactly when there is room
   * and r % 1 >= 0.5, and outlines for the rest.
   */
  lemma StarsLayout(r: real)
    ensures var half := if ShowsHalf(r) then 1 else 0;
            Stars(r) == Repeat(Filled, FilledCount(r))
                        + Repeat(HalfFilled, half)
                        + Repeat(Outline, 5 - FilledCount(r) - half)
  {
    var half := if ShowsHalf(r) then 1 else 0;
    var n := FilledCount(r);
    if r.Floor < 0 {
      assert !ShowsHalf(r) by {
        assert r < 0.0;
      }
    }
    var layout := Repeat(Filled, n) + Repeat(HalfFilled, half) + Repeat(Outline, 5 - n - half);
    forall k | 0 <= k < 5 ensures Stars(r)[k] == layout[k] {
      if k < n {
        assert layout[k] == Filled;
      } else if k < n + half {
        assert layout[k] == HalfFilled;
      } else {
        assert layout[k] == Outline;
      }
    }
  }

  /** A missing or zero rating shows four filled stars and one outline. */
  lemma DefaultRatingStars(rating: Option<real>)
    requires rating.None? || rating.value == 0.0
    ensures Stars(EffectiveRating(rating)) == [Filled, Filled, Filled, Filled, Outline]
  {
    var r := EffectiveRating(rating);
    assert r.Floor == 4;
    assert RemainderOne(r) == 0.0;
    assert Stars(r)[4] == Outline;
  }

  /** A rating of five or more fills every star; a negative one fills none and has no half. */
  lemma ExtremeRatings(r: real)
    ensures r >= 5.0 ==> Stars(r) == [Filled, Filled, Filled, Filled, Filled]
    ensures r < 0.0 ==> Stars(r) == [Outline, Outline, Outline, Outline, Outline]
  {
    if r < 0.0 {
      assert !HasHalfStar(r);
    }
  }

  /** `product.reviewCount || 124`. */
  function ReviewCount(reviewCount: Option<int>): (n: int)
    ensures n != 0
    ensures reviewCount.Some? && reviewCount.value != 0 ==> n == reviewCount.value
    ensures reviewCount.None? || reviewCount.value == 0 ==> n == 124
  {
    if reviewCount.Some? && reviewCount.value != 0 then reviewCount.value else 124
  }

  /**
   * What `{x && <element/>}` renders for an optional number: nothing when it
   * is absent, the text "0" when it is zero (React prints a falsy number),
   * and the element otherwise.
   */
  datatype Slot = Nothing | ZeroText | Shown(value: real)

  function NumberSlot(x: Option<real>): (s: Slot)
    ensures s.Shown? <==> x.Some? && x.value != 0.0
    ensures s.Shown? ==> s.value == x.value
    ensures s.ZeroText? <==> x == Some(0.0)
  {
    if x.None? then Nothing else if x.value == 0.0 then ZeroText else Shown(x.value)
  }

  datatype CardProduct = CardProduct(name: string, image: string, price: real, rating: Option<real>,
                                     reviewCount: Option<int>, discount: Option<real>,
                                     originalPrice: Option<real>)

  /** The card's decorations besides the stars. */
  datatype CardExtras = CardExtras(reviewCount: int, discountBadge: Slot, originalPrice: Slot)

  function Extras(p: CardProduct): (e: CardExtras)
    ensures e.reviewCount != 0
    ensures e.discountBadge.Shown? <==> p.discount.Some? && p.discount.value != 0.0
    ensures e.originalPrice.Shown? <==> p.originalPrice.Some? && p.originalPrice.value != 0.0
  {
    CardExtras(ReviewCount(p.reviewCount), NumberSlot(p.discount), NumberSlot(p.originalPrice))
  }
}

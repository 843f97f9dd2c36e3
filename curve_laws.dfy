/**
 * Relations between the easing curves: the out form is the in form run
 * backwards, the in-out form glues the two halves together, the back curves
 * without overshoot are the cubic ones, and bounce-out never leaves the range
 * it eases across.
 */
module CurveLaws {
  import opened Curves
  import opened Numerics
  import Utils

  /** Linear easing interpolates from `b` to `b + c` by the elapsed fraction of the duration. */
  lemma LinearIsLerp(t: real, b: real, c: real, d: real)
    requires d != 0.0
    ensures Linear(t, b, c, d) == Utils.Lerp(t / d, b, b + c)
  {
  }

  // ---------------------------------------------------------------------
  // Out is in, reversed in time and in value

  lemma TimeReversed(t: real, d: real)
    requires d != 0.0
    ensures (d - t) / d == 1.0 - t / d
  {
    DivSub(d, t, d);
    DivSelf(d);
  }

  lemma TimeInHalves(t: real, d: real)
    requires d != 0.0
    ensures t / (d / 2.0) == (t * 2.0) / d
    ensures (t * 2.0 - d) / d == t / (d / 2.0) - 1.0
  {
    DivByHalf(t, d);
    DivSub(t * 2.0, d, d);
    DivSelf(d);
  }

  lemma {:induction false} ReversedQuad(t: real, b: real, c: real, d: real)
    requires d != 0.0
    ensures EaseOutQuad(t, b, c, d) == c - EaseInQuad(d - t, 0.0, c, d) + b
  {
    TimeReversed(t, d);
  }

  lemma {:induction false} ReversedCubic(t: real, b: real, c: real, d: real)
    requires d != 0.0
    ensures EaseOutCubic(t, b, c, d) == c - EaseInCubic(d - t, 0.0, c, d) + b
  {
    TimeReversed(t, d);
  }

  lemma {:induction false} ReversedQuart(t: real, b: real, c: real, d: real)
    requires d != 0.0
    ensures EaseOutQuart(t, b, c, d) == c - EaseInQuart(d - t, 0.0, c, d) + b
  {
    TimeReversed(t, d);
  }

  lemma {:induction false} ReversedQuint(t: real, b: real, c: real, d: real)
    requires d != 0.0
    ensures EaseOutQuint(t, b, c, d) == c - EaseInQuint(d - t, 0.0, c, d) + b
  {
    TimeReversed(t, d);
  }

  lemma {:induction false} ReversedBack(t: real, b: real, c: real, d: real, s: real)
    requires d != 0.0
    ensures EaseOutBack(t, b, c, d, s) == c - EaseInBack(d - t, 0.0, c, d, s) + b
  {
    TimeReversed(t, d);
  }

  /** Bounce-in is defined as reversed bounce-out; the relation also holds the other way round. */
  lemma ReversedBounce(t: real, b: real, c: real, d: real)
    requires d != 0.0
    ensures EaseOutBounce(t, b, c, d) == c - EaseInBounce(d - t, 0.0, c, d) + b
  {
    assert d - (d - t) == t;
  }

  // ---------------------------------------------------------------------
  // In-out is in over the first half and out over the second

  lemma {:induction false} InOutQuadHalves(t: real, b: real, c: real, d: real)
    requires d > 0.0
    ensures EaseInOutQuad(t, b, c, d) ==
            if t < d / 2.0 then EaseInQuad(t * 2.0, 0.0, c, d) * 0.5 + b
            else EaseOutQuad(t * 2.0 - d, 0.0, c, d) * 0.5 + c * 0.5 + b
  {
    TimeInHalves(t, d);
  }

  lemma {:induction false} InOutCubicHalves(t: real, b: real, c: real, d: real)
    requires d > 0.0
    ensures EaseInOutCubic(t, b, c, d) ==
            if t < d / 2.0 then EaseInCubic(t * 2.0, 0.0, c, d) * 0.5 + b
            else EaseOutCubic(t * 2.0 - d, 0.0, c, d) * 0.5 + c * 0.5 + b
  {
    TimeInHalves(t, d);
  }

  lemma {:induction false} InOutQuartHalves(t: real, b: real, c: real, d: real)
    requires d > 0.0
    ensures EaseInOutQuart(t, b, c, d) ==
            if t < d / 2.0 then EaseInQuart(t * 2.0, 0.0, c, d) * 0.5 + b
            else EaseOutQuart(t * 2.0 - d, 0.0, c, d) * 0.5 + c * 0.5 + b
  {
    TimeInHalves(t, d);
  }

  lemma {:induction false} InOutQuintHalves(t: real, b: real, c: real, d: real)
    requires d > 0.0
    ensures EaseInOutQuint(t, b, c, d) ==
            if t < d / 2.0 then EaseInQuint(t * 2.0, 0.0, c, d) * 0.5 + b
            else EaseOutQuint(t * 2.0 - d, 0.0, c, d) * 0.5 + c * 0.5 + b
  {
    TimeInHalves(t, d);
  }

  /** The in-out back curve is the in and out back curves with 1.525 times the overshoot. */
  lemma {:induction false} InOutBackHalves(t: real, b: real, c: real, d: real, s: real)
    requires d > 0.0
    ensures EaseInOutBack(t, b, c, d, s) ==
            if t < d / 2.0 then EaseInBack(t * 2.0, 0.0, c, d, s * 1.525) * 0.5 + b
            else EaseOutBack(t * 2.0 - d, 0.0, c, d, s * 1.525) * 0.5 + c * 0.5 + b
  {
    TimeInHalves(t, d);
  }

  // ---------------------------------------------------------------------
  // Back without overshoot

  /** With overshoot 0 (the source's effective default) the back curves are the cubic ones. */
  lemma BackWithoutOvershootIsCubic(t: real, b: real, c: real, d: real)
    requires d != 0.0
    ensures EaseInBack(t, b, c, d) == EaseInCubic(t, b, c, d)
    ensures EaseOutBack(t, b, c, d) == EaseOutCubic(t, b, c, d)
    ensures EaseInOutBack(t, b, c, d) == EaseInOutCubic(t, b, c, d)
  {
  }

  // ---------------------------------------------------------------------
  // Bounce

  lemma SquareBound(w: real, k: real)
    requires -k <= w <= k
    ensures 0.0 <= w * w <= k * k
  {
    assert (k - w) * (k + w) >= 0.0;
  }

  /** On the unit interval the bounce shape stays between 0 and 1. */
  lemma {:induction false} BounceUnitBounded(u: real)
    requires 0.0 <= u <= 1.0
    ensures 0.0 <= BounceUnit(u) <= 1.0
  {
    if u < 1.0 / 2.75 {
      SquareBound(u, 1.0 / 2.75);
    } else if u < 2.0 / 2.75 {
      SquareBound(u - 1.5 / 2.75, 0.5 / 2.75);
    } else if u < 2.5 / 2.75 {
      SquareBound(u - 2.25 / 2.75, 0.25 / 2.75);
    } else {
      SquareBound(u - 2.625 / 2.75, 0.125 / 2.75);
    }
  }

  /**
   * Each arc ends where the next begins, on the floor: at the three break
   * points both neighbouring arcs have height 1.
   */
  lemma BounceTouchdowns()
    ensures BounceUnit(1.0 / 2.75) == 1.0 && 7.5625 * (1.0 / 2.75) * (1.0 / 2.75) == 1.0
    ensures BounceUnit(2.0 / 2.75) == 1.0 && 7.5625 * (0.5 / 2.75) * (0.5 / 2.75) + 0.75 == 1.0
    ensures BounceUnit(2.5 / 2.75) == 1.0 && 7.5625 * (0.25 / 2.75) * (0.25 / 2.75) + 0.9375 == 1.0
  {
  }

  /** Bounce-out never leaves the range from `b` to `b + c` during the tween. */
  lemma {:induction false} OutBounceWithinRange(t: real, b: real, c: real, d: real)
    requires d > 0.0 && 0.0 <= t <= d && c >= 0.0
    ensures b <= EaseOutBounce(t, b, c, d) <= b + c
  {
    var k := BounceUnit(t / d);
    assert 0.0 <= t / d <= 1.0;
    BounceUnitBounded(t / d);
    assert c * k <= c by {
      assert c * (1.0 - k) >= 0.0;
    }
    assert c * k >= 0.0;
    assert EaseOutBounce(t, b, c, d) == c * k + b;
  }

  /** The halves of in-out bounce meet at the midpoint, halfway between `b` and `b + c`. */
  lemma InOutBounceMidpoint(b: real, c: real, d: real)
    requires d > 0.0
    ensures EaseInOutBounce(d / 2.0, b, c, d) == b + c / 2.0
    ensures EaseInBounce(d, 0.0, c, d) * 0.5 + b == b + c / 2.0
  {
  }
}

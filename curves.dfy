/**
 * Robert Penner's easing equations.  Every curve has the shape
 * f(t, b, c, d): the value at time `t` of a quantity that starts at `b` and
 * changes by `c` over the duration `d`.  The source divides by `d`, so every
 * curve requires `d != 0` (the source would return Infinity or NaN).
 *
 * Each curve's contract states the boundary identities f(0) == b and
 * f(d) == b + c.  The polynomial, back and bounce curves meet them outright;
 * the sine, exponential and circular curves meet them given the one special
 * value of a Math function that each end reaches, named in its contract; the
 * elastic curves meet them through their explicit guards.
 */
module Curves {
  import opened Numerics

  lemma HalfDuration(d: real)
    requires d != 0.0
    ensures d / d == 1.0
    ensures d / (d / 2.0) == 2.0
  {
  }

  // ---------------------------------------------------------------------
  // Linear and the polynomial families

  /** No easing: constant speed. */
  function Linear(t: real, b: real, c: real, d: real): (r: real)
    requires d != 0.0
    ensures t == 0.0 ==> r == b
    ensures t == d ==> r == b + c
  {
    HalfDuration(d);
    (c * t) / d + b
  }

  function EaseInQuad(t: real, b: real, c: real, d: real): (r: real)
    requires d != 0.0
    ensures t == 0.0 ==> r == b
    ensures t == d ==> r == b + c
  {
    HalfDuration(d);
    var u := t / d;
    c * u * u + b
  }

  function EaseOutQuad(t: real, b: real, c: real, d: real): (r: real)
    requires d != 0.0
    ensures t == 0.0 ==> r == b
    ensures t == d ==> r == b + c
  {
    HalfDuration(d);
    var u := t / d;
    -c * u * (u - 2.0) + b
  }

  /** Time is measured in half durations; the second half starts at 1, which `--t` moves to 0. */
  function EaseInOutQuad(t: real, b: real, c: real, d: real): (r: real)
    requires d != 0.0
    ensures t == 0.0 ==> r == b
    ensures t == d ==> r == b + c
  {
    HalfDuration(d);
    var u := t / (d / 2.0);
    if u < 1.0 then (c / 2.0) * u * u + b
    else
      var u := u - 1.0;
      (-c / 2.0) * (u * (u - 2.0) - 1.0) + b
  }

  function EaseInCubic(t: real, b: real, c: real, d: real): (r: real)
    requires d != 0.0
    ensures t == 0.0 ==> r == b
    ensures t == d ==> r == b + c
  {
    HalfDuration(d);
    var u := t / d;
    c * (u * u * u) + b
  }

  function EaseOutCubic(t: real, b: real, c: real, d: real): (r: real)
    requires d != 0.0
    ensures t == 0.0 ==> r == b
    ensures t == d ==> r == b + c
  {
    HalfDuration(d);
    var u := t / d - 1.0;
    c * (u * u * u + 1.0) + b
  }

  function EaseInOutCubic(t: real, b: real, c: real, d: real): (r: real)
    requires d != 0.0
    ensures t == 0.0 ==> r == b
    ensures t == d ==> r == b + c
  {
    HalfDuration(d);
    var u := t / (d / 2.0);
    if u < 1.0 then (c / 2.0) * (u * u * u) + b
    else
      var w := u - 2.0;
      (c / 2.0) * (w * w * w + 2.0) + b
  }

  function EaseInQuart(t: real, b: real, c: real, d: real): (r: real)
    requires d != 0.0
    ensures t == 0.0 ==> r == b
    ensures t == d ==> r == b + c
  {
    HalfDuration(d);
    var u := t / d;
    c * (u * u * u * u) + b
  }

  function EaseOutQuart(t: real, b: real, c: real, d: real): (r: real)
    requires d != 0.0
    ensures t == 0.0 ==> r == b
    ensures t == d ==> r == b + c
  {
    HalfDuration(d);
    var u := t / d - 1.0;
    -c * (u * u * u * u - 1.0) + b
  }

  function EaseInOutQuart(t: real, b: real, c: real, d: real): (r: real)
    requires d != 0.0
    ensures t == 0.0 ==> r == b
    ensures t == d ==> r == b + c
  {
    HalfDuration(d);
    var u := t / (d / 2.0);
    if u < 1.0 then (c / 2.0) * (u * u * u * u) + b
    else
      var w := u - 2.0;
      (-c / 2.0) * (w * w * w * w - 2.0) + b
  }

  function EaseInQuint(t: real, b: real, c: real, d: real): (r: real)
    requires d != 0.0
    ensures t == 0.0 ==> r == b
    ensures t == d ==> r == b + c
  {
    HalfDuration(d);
    var u := t / d;
    c * (u * u * u * u * u) + b
  }

  function EaseOutQuint(t: real, b: real, c: real, d: real): (r: real)
    requires d != 0.0
    ensures t == 0.0 ==> r == b
    ensures t == d ==> r == b + c
  {
    HalfDuration(d);
    var u := t / d - 1.0;
    c * (u * u * u * u * u + 1.0) + b
  }

  function EaseInOutQuint(t: real, b: real, c: real, d: real): (r: real)
    requires d != 0.0
    ensures t == 0.0 ==> r == b
    ensures t == d ==> r == b + c
  {
    HalfDuration(d);
    var u := t / (d / 2.0);
    if u < 1.0 then (c / 2.0) * (u * u * u * u * u) + b
    else
      var w := u - 2.0;
      (c / 2.0) * (w * w * w * w * w + 2.0) + b
  }

  // ---------------------------------------------------------------------
  // Sine, exponential and circular: through the Math functions

  function EaseInSine(m: MathLib, t: real, b: real, c: real, d: real): (r: real)
    requires d != 0.0
    ensures t == 0.0 && m.cos(0.0) == 1.0 ==> r == b
    ensures t == d && m.cos(PI / 2.0) == 0.0 ==> r == b + c
  {
    HalfDuration(d);
    -c * m.cos((t / d) * (PI / 2.0)) + c + b
  }

  function EaseOutSine(m: MathLib, t: real, b: real, c: real, d: real): (r: real)
    requires d != 0.0
    ensures t == 0.0 && m.sin(0.0) == 0.0 ==> r == b
    ensures t == d && m.sin(PI / 2.0) == 1.0 ==> r == b + c
  {
    HalfDuration(d);
    c * m.sin((t / d) * (PI / 2.0)) + b
  }

  function EaseInOutSine(m: MathLib, t: real, b: real, c: real, d: real): (r: real)
    requires d != 0.0
    ensures t == 0.0 && m.cos(0.0) == 1.0 ==> r == b
    ensures t == d && m.cos(PI) == -1.0 ==> r == b + c
  {
    HalfDuration(d);
    assert t == d ==> (PI * t) / d == PI;
    (-c / 2.0) * (m.cos((PI * t) / d) - 1.0) + b
  }

  /** The guard makes the start exact; the end needs 2^0 == 1. */
  function EaseInExpo(m: MathLib, t: real, b: real, c: real, d: real): (r: real)
    requires d != 0.0
    ensures t == 0.0 ==> r == b
    ensures t == d && m.exp2(0.0) == 1.0 ==> r == b + c
  {
    HalfDuration(d);
    if t == 0.0 then b else c * m.exp2(10.0 * (t / d - 1.0)) + b
  }

  /** The guard makes the end exact; the start needs 2^0 == 1. */
  function EaseOutExpo(m: MathLib, t: real, b: real, c: real, d: real): (r: real)
    requires d != 0.0
    ensures t == 0.0 && m.exp2(0.0) == 1.0 ==> r == b
    ensures t == d ==> r == b + c
  {
    if t == d then b + c else c * (-m.exp2((-10.0 * t) / d) + 1.0) + b
  }

  /** Both ends are guarded. */
  function EaseInOutExpo(m: MathLib, t: real, b: real, c: real, d: real): (r: real)
    requires d != 0.0
    ensures t == 0.0 ==> r == b
    ensures t == d ==> r == b + c
  {
    if t == 0.0 then b
    else if t == d then b + c
    else
      var u := t / (d / 2.0);
      if u < 1.0 then (c / 2.0) * m.exp2(10.0 * (u - 1.0)) + b
      else (c / 2.0) * (-m.exp2(-10.0 * (u - 1.0)) + 2.0) + b
  }

  /** For d > 0, outside -d <= t <= d the root is of a negative number, which is NaN in the source. */
  function EaseInCirc(m: MathLib, t: real, b: real, c: real, d: real): (r: real)
    requires d != 0.0
    ensures t == 0.0 && m.sqrt(1.0) == 1.0 ==> r == b
    ensures t == d && m.sqrt(0.0) == 0.0 ==> r == b + c
  {
    HalfDuration(d);
    var u := t / d;
    -c * (m.sqrt(1.0 - u * u) - 1.0) + b
  }

  function EaseOutCirc(m: MathLib, t: real, b: real, c: real, d: real): (r: real)
    requires d != 0.0
    ensures t == 0.0 && m.sqrt(0.0) == 0.0 ==> r == b
    ensures t == d && m.sqrt(1.0) == 1.0 ==> r == b + c
  {
    HalfDuration(d);
    var u := t / d - 1.0;
    c * m.sqrt(1.0 - u * u) + b
  }

  function EaseInOutCirc(m: MathLib, t: real, b: real, c: real, d: real): (r: real)
    requires d != 0.0
    ensures t == 0.0 && m.sqrt(1.0) == 1.0 ==> r == b
    ensures t == d && m.sqrt(1.0) == 1.0 ==> r == b + c
  {
    HalfDuration(d);
    var u := t / (d / 2.0);
    if u < 1.0 then (-c / 2.0) * (m.sqrt(1.0 - u * u) - 1.0) + b
    else
      var w := u - 2.0;
      (c / 2.0) * (m.sqrt(1.0 - w * w) + 1.0) + b
  }

  // ---------------------------------------------------------------------
  // Elastic: an exponentially decaying sine wave

  /**
   * The phase computation reaches `asin(c / a)` when `a >= |c|`; with `a == 0`
   * (and so `c == 0`) that is 0 / 0, NaN in the source.  This says it is not
   * reached.
   */
  predicate PhaseDefined(c: real, a: real)
  {
    a < Abs(c) || a != 0.0
  }

  /** The amplitude and phase shift the elastic curves use, for a non-zero period. */
  function ElasticShape(m: MathLib, c: real, a: real, p: real): (r: (real, real))
    requires p != 0.0 && PhaseDefined(c, a)
    ensures a < Abs(c) ==> r == (c, p / 4.0)
    ensures a >= Abs(c) ==> r.0 == a
  {
    if a < Abs(c) then (c, p / 4.0)
    else (a, (p / (2.0 * PI)) * m.asin(c / a))
  }

  /** A zero period (the source's `!p`) defaults to 0.3 of the duration. */
  function EaseInElastic(m: MathLib, t: real, b: real, c: real, d: real, a: real := 0.0, p: real := 0.0): (r: real)
    requires d != 0.0
    requires t == 0.0 || t == d || PhaseDefined(c, a)
    ensures t == 0.0 ==> r == b
    ensures t == d ==> r == b + c
  {
    HalfDuration(d);
    if t == 0.0 then b
    else if t / d == 1.0 then b + c
    else
      var p := if p == 0.0 then d * 0.3 else p;
      var (a, s) := ElasticShape(m, c, a, p);
      var u := t / d - 1.0;
      -(a * m.exp2(10.0 * u) * m.sin(((u * d - s) * (2.0 * PI)) / p)) + b
  }

  function EaseOutElastic(m: MathLib, t: real, b: real, c: real, d: real, a: real := 0.0, p: real := 0.0): (r: real)
    requires d != 0.0
    requires t == 0.0 || t == d || PhaseDefined(c, a)
    ensures t == 0.0 ==> r == b
    ensures t == d ==> r == b + c
  {
    HalfDuration(d);
    if t == 0.0 then b
    else if t / d == 1.0 then b + c
    else
      var p := if p == 0.0 then d * 0.3 else p;
      var (a, s) := ElasticShape(m, c, a, p);
      var u := t / d;
      a * m.exp2(-10.0 * u) * m.sin(((u * d - s) * (2.0 * PI)) / p) + c + b
  }

  /** Here time is in half durations and the default period is 0.45 of the duration. */
  function EaseInOutElastic(m: MathLib, t: real, b: real, c: real, d: real, a: real := 0.0, p: real := 0.0): (r: real)
    requires d != 0.0
    requires t == 0.0 || t == d || PhaseDefined(c, a)
    ensures t == 0.0 ==> r == b
    ensures t == d ==> r == b + c
  {
    HalfDuration(d);
    if t == 0.0 then b
    else if t / (d / 2.0) == 2.0 then b + c
    else
      var p := if p == 0.0 then d * (0.3 * 1.5) else p;
      var (a, s) := ElasticShape(m, c, a, p);
      var u := t / (d / 2.0);
      if u < 1.0 then
        var w := u - 1.0;
        -0.5 * (a * m.exp2(10.0 * w) * m.sin(((w * d - s) * (2.0 * PI)) / p)) + b
      else
        var w := u - 1.0;
        a * m.exp2(-10.0 * w) * m.sin(((w * d - s) * (2.0 * PI)) / p) * 0.5 + c + b
  }

  // ---------------------------------------------------------------------
  // Back: an overshooting cubic, (s + 1) * t^3 - s * t^2

  /** The source's default overshoot is 0; its 1.70158 fallback never fires. */
  function EaseInBack(t: real, b: real, c: real, d: real, s: real := 0.0): (r: real)
    requires d != 0.0
    ensures t == 0.0 ==> r == b
    ensures t == d ==> r == b + c
  {
    HalfDuration(d);
    var u := t / d;
    c * u * u * ((s + 1.0) * u - s) + b
  }

  function EaseOutBack(t: real, b: real, c: real, d: real, s: real := 0.0): (r: real)
    requires d != 0.0
    ensures t == 0.0 ==> r == b
    ensures t == d ==> r == b + c
  {
    HalfDuration(d);
    var u := t / d - 1.0;
    c * (u * u * ((s + 1.0) * u + s) + 1.0) + b
  }

  /** The overshoot is scaled by 1.525 once, in whichever half runs. */
  function EaseInOutBack(t: real, b: real, c: real, d: real, s: real := 0.0): (r: real)
    requires d != 0.0
    ensures t == 0.0 ==> r == b
    ensures t == d ==> r == b + c
  {
    HalfDuration(d);
    var u := t / (d / 2.0);
    var s := s * 1.525;
    if u < 1.0 then (c / 2.0) * (u * u * ((s + 1.0) * u - s)) + b
    else
      var w := u - 2.0;
      (c / 2.0) * (w * w * ((s + 1.0) * w + s) + 2.0) + b
  }

  // ---------------------------------------------------------------------
  // Bounce: four parabolic arcs of decreasing height

  /**
   * The bounce-out shape on the unit square: arcs with break points at
   * 1/2.75, 2/2.75 and 2.5/2.75 and the curvature 7.5625 = 2.75^2.
   */
  function BounceUnit(u: real): (r: real)
    ensures u == 0.0 ==> r == 0.0
    ensures u == 1.0 ==> r == 1.0
  {
    if u < 1.0 / 2.75 then 7.5625 * u * u
    else if u < 2.0 / 2.75 then
      var w := u - 1.5 / 2.75;
      7.5625 * w * w + 0.75
    else if u < 2.5 / 2.75 then
      var w := u - 2.25 / 2.75;
      7.5625 * w * w + 0.9375
    else
      var w := u - 2.625 / 2.75;
      7.5625 * w * w + 0.984375
  }

  function EaseOutBounce(t: real, b: real, c: real, d: real): (r: real)
    requires d != 0.0
    ensures t == 0.0 ==> r == b
    ensures t == d ==> r == b + c
  {
    HalfDuration(d);
    c * BounceUnit(t / d) + b
  }

  /** Defined by running bounce-out backwards in time. */
  function EaseInBounce(t: real, b: real, c: real, d: real): (r: real)
    requires d != 0.0
    ensures t == 0.0 ==> r == b
    ensures t == d ==> r == b + c
  {
    c - EaseOutBounce(d - t, 0.0, c, d) + b
  }

  /** Bounce-in over the first half, bounce-out over the second; needs a positive duration. */
  function EaseInOutBounce(t: real, b: real, c: real, d: real): (r: real)
    requires d != 0.0
    ensures d > 0.0 && t == 0.0 ==> r == b
    ensures d > 0.0 && t == d ==> r == b + c
  {
    if t < d / 2.0 then EaseInBounce(t * 2.0, 0.0, c, d) * 0.5 + b
    else EaseOutBounce(t * 2.0 - d, 0.0, c, d) * 0.5 + c * 0.5 + b
  }
}

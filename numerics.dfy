/**
 * Numbers are modelled as `real`: the model is exact where the JavaScript
 * source works on IEEE doubles.  Math.min, Math.max and Math.abs are written
 * out; the transcendental functions of the Math object cannot be, so they are
 * passed in as a `MathLib` record whose contents the model does not fix.
 */
module Numerics {

  /** Math.PI, as JavaScript prints it. */
  const PI: real := 3.141592653589793

  function Min(a: real, b: real): (r: real)
    ensures r <= a && r <= b
    ensures r == a || r == b
  {
    if a <= b then a else b
  }

  function Max(a: real, b: real): (r: real)
    ensures r >= a && r >= b
    ensures r == a || r == b
  {
    if a >= b then a else b
  }

  function Abs(a: real): (r: real)
    ensures r >= 0.0
    ensures r == a || r == -a
  {
    if a < 0.0 then -a else a
  }

  lemma DivSelf(k: real)
    requires k != 0.0
    ensures k / k == 1.0
  {
  }

  lemma MulDivCancel(k: real, n: real)
    requires k != 0.0
    ensures (k * n) / k == n
  {
  }

  lemma DivByHalf(x: real, k: real)
    requires k != 0.0
    ensures x / (k / 2.0) == (x * 2.0) / k
  {
  }

  lemma DivSub(x: real, y: real, k: real)
    requires k != 0.0
    ensures (x - y) / k == x / k - y / k
  {
  }

  /**
   * Math.cos, Math.sin, Math.sqrt, Math.asin and `x => Math.pow(2, x)`.
   * Nothing about them is assumed; lemmas that need a fact about them say so
   * with one of the predicates below.
   */
  datatype MathLib = MathLib(
    cos: real -> real,
    sin: real -> real,
    sqrt: real -> real,
    asin: real -> real,
    exp2: real -> real)
  {
    /**
     * The special values that IEEE-754 double arithmetic returns exactly at
     * the ends of the easing curves: cos 0, cos PI, sin 0, sin(PI/2), sqrt 0,
     * sqrt 1 and 2^0.  cos(PI/2) is not among them: for the double nearest
     * PI/2 it is about 6.1e-17, not 0.
     */
    predicate DoubleSpecialValues()
    {
      && cos(0.0) == 1.0 && cos(PI) == -1.0
      && sin(0.0) == 0.0 && sin(PI / 2.0) == 1.0
      && sqrt(0.0) == 0.0 && sqrt(1.0) == 1.0
      && exp2(0.0) == 1.0
    }

    /** The square root of a positive number is a positive number whose square it is. */
    ghost predicate SqrtSound()
    {
      forall v :: v > 0.0 ==> sqrt(v) > 0.0 && sqrt(v) * sqrt(v) == v
    }
  }
}

/**
 * The interval, rectangle and interpolation helpers of the utilities module.
 * The affine maps need a non-degenerate range: where the source divides by
 * zero (Infinity or NaN) the model has a precondition instead.
 */
module Utils {
  import opened Numerics
  import opened Shapes

  // ---------------------------------------------------------------------
  // Affine maps

  /** Where `value` sits in [min, max], as a fraction. */
  function Normalize(value: real, min: real, max: real): (r: real)
    requires min != max
    ensures value == min ==> r == 0.0
    ensures value == max ==> r == 1.0
  {
    DivSelf(max - min);
    (value - min) / (max - min)
  }

  /** The point a fraction `norm` of the way from `min` to `max`. */
  function Lerp(norm: real, min: real, max: real): (r: real)
    ensures norm == 0.0 ==> r == min
    ensures norm == 1.0 ==> r == max
  {
    (max - min) * norm + min
  }

  /** Lerp undoes Normalize. */
  lemma LerpNormalize(value: real, min: real, max: real)
    requires min != max
    ensures Lerp(Normalize(value, min, max), min, max) == value
  {
  }

  /** Normalize undoes Lerp whenever the range is not a single point. */
  lemma NormalizeLerp(norm: real, min: real, max: real)
    requires min != max
    ensures Normalize(Lerp(norm, min, max), min, max) == norm
  {
    assert Lerp(norm, min, max) - min == (max - min) * norm;
    MulDivCancel(max - min, norm);
  }

  /** Moves `value` from the source range to the destination range. */
  function Map(value: real, sourceMin: real, sourceMax: real, destMin: real, destMax: real): (r: real)
    requires sourceMin != sourceMax
    ensures value == sourceMin ==> r == destMin
    ensures value == sourceMax ==> r == destMax
  {
    Lerp(Normalize(value, sourceMin, sourceMax), destMin, destMax)
  }

  /** Mapping back with the two ranges exchanged returns the original value. */
  lemma MapInverse(value: real, sourceMin: real, sourceMax: real, destMin: real, destMax: real)
    requires sourceMin != sourceMax && destMin != destMax
    ensures Map(Map(value, sourceMin, sourceMax, destMin, destMax), destMin, destMax, sourceMin, sourceMax) == value
  {
    var n := Normalize(value, sourceMin, sourceMax);
    NormalizeLerp(n, destMin, destMax);
    LerpNormalize(value, sourceMin, sourceMax);
  }

  // ---------------------------------------------------------------------
  // Intervals whose bounds may come in either order

  /** `value` lies between `min` and `max`, whichever of them is larger. */
  function InRange(value: real, min: real, max: real): (r: bool)
    ensures r <==> (min <= value <= max || max <= value <= min)
  {
    value >= Numerics.Min(min, max) && value <= Numerics.Max(min, max)
  }

  lemma InRangeSwap(value: real, min: real, max: real)
    ensures InRange(value, min, max) == InRange(value, max, min)
  {
  }

  /** `value` moved into the interval between `min` and `max`. */
  function Clamp(value: real, min: real, max: real): (r: real)
    ensures InRange(r, min, max)
    ensures InRange(value, min, max) ==> r == value
    ensures value < min && value < max ==> r == Numerics.Min(min, max)
    ensures value > min && value > max ==> r == Numerics.Max(min, max)
  {
    Numerics.Min(Numerics.Max(value, Numerics.Min(min, max)), Numerics.Max(min, max))
  }

  /** Clamp leaves `value` alone exactly when it is already in range. */
  lemma ClampFixedIffInRange(value: real, min: real, max: real)
    ensures Clamp(value, min, max) == value <==> InRange(value, min, max)
  {
  }

  lemma ClampSwap(value: real, min: real, max: real)
    ensures Clamp(value, min, max) == Clamp(value, max, min)
  {
  }

  lemma ClampIdempotent(value: real, min: real, max: real)
    ensures Clamp(Clamp(value, min, max), min, max) == Clamp(value, min, max)
  {
  }

  /**
   * The two intervals, each given by its bounds in either order, overlap:
   * exactly when an end of one lies in the other.
   */
  function RangeIntersect(minA: real, maxA: real, minB: real, maxB: real): (r: bool)
    ensures r <==> InRange(minA, minB, maxB) || InRange(maxA, minB, maxB)
                   || InRange(minB, minA, maxA) || InRange(maxB, minA, maxA)
  {
    Numerics.Max(minA, maxA) >= Numerics.Min(minB, maxB) && Numerics.Min(minA, maxA) <= Numerics.Max(minB, maxB)
  }

  /** Two intervals intersect exactly when some value lies in both. */
  lemma RangeIntersectIffCommonPoint(minA: real, maxA: real, minB: real, maxB: real)
    ensures RangeIntersect(minA, maxA, minB, maxB) <==>
            exists v :: InRange(v, minA, maxA) && InRange(v, minB, maxB)
  {
    if RangeIntersect(minA, maxA, minB, maxB) {
      var v := Numerics.Max(Numerics.Min(minA, maxA), Numerics.Min(minB, maxB));
      assert InRange(v, minA, maxA) && InRange(v, minB, maxB);
    }
  }

  lemma RangeIntersectSymmetric(minA: real, maxA: real, minB: real, maxB: real)
    ensures RangeIntersect(minA, maxA, minB, maxB) == RangeIntersect(minB, maxB, minA, maxA)
  {
  }

  lemma RangeIntersectSwap(minA: real, maxA: real, minB: real, maxB: real)
    ensures RangeIntersect(minA, maxA, minB, maxB) == RangeIntersect(maxA, minA, minB, maxB)
    ensures RangeIntersect(minA, maxA, minB, maxB) == RangeIntersect(minA, maxA, maxB, minB)
  {
  }

  // ---------------------------------------------------------------------
  // Rectangles

  /** The point lies in the rectangle, on both axes; a negative side is allowed. */
  function PointInRectangle(x: real, y: real, rectangle: Rectangle): (r: bool)
    ensures r <==>
      && (rectangle.x <= x <= rectangle.x + rectangle.width || rectangle.x + rectangle.width <= x <= rectangle.x)
      && (rectangle.y <= y <= rectangle.y + rectangle.height || rectangle.y + rectangle.height <= y <= rectangle.y)
  {
    InRange(x, rectangle.x, rectangle.x + rectangle.width) && InRange(y, rectangle.y, rectangle.y + rectangle.height)
  }

  /** Both corners the rectangle is given by are inside it, whatever the sign of its sides. */
  lemma CornersInRectangle(rectangle: Rectangle)
    ensures PointInRectangle(rectangle.x, rectangle.y, rectangle)
    ensures PointInRectangle(rectangle.x + rectangle.width, rectangle.y + rectangle.height, rectangle)
  {
  }

  /**
   * The two rectangles overlap on both axes (the source spells it
   * `rectanlgeIntersect`); in particular when a corner of one lies in the other.
   */
  function RectangleIntersect(a: Rectangle, b: Rectangle): (r: bool)
    ensures PointInRectangle(a.x, a.y, b) || PointInRectangle(b.x, b.y, a) ==> r
    ensures PointInRectangle(a.x + a.width, a.y + a.height, b) ==> r
  {
    RangeIntersect(a.x, a.x + a.width, b.x, b.x + b.width) &&
    RangeIntersect(a.y, a.y + a.height, b.y, b.y + b.height)
  }

  lemma RectangleIntersectSymmetric(a: Rectangle, b: Rectangle)
    ensures RectangleIntersect(a, b) == RectangleIntersect(b, a)
  {
    RangeIntersectSymmetric(a.x, a.x + a.width, b.x, b.x + b.width);
    RangeIntersectSymmetric(a.y, a.y + a.height, b.y, b.y + b.height);
  }

  /** Two rectangles intersect exactly when some point lies in both. */
  lemma RectangleIntersectIffCommonPoint(a: Rectangle, b: Rectangle)
    ensures RectangleIntersect(a, b) <==>
            exists px, py :: PointInRectangle(px, py, a) && PointInRectangle(px, py, b)
  {
    RangeIntersectIffCommonPoint(a.x, a.x + a.width, b.x, b.x + b.width);
    RangeIntersectIffCommonPoint(a.y, a.y + a.height, b.y, b.y + b.height);
    if RectangleIntersect(a, b) {
      var px :| InRange(px, a.x, a.x + a.width) && InRange(px, b.x, b.x + b.width);
      var py :| InRange(py, a.y, a.y + a.height) && InRange(py, b.y, b.y + b.height);
      assert PointInRectangle(px, py, a) && PointInRectangle(px, py, b);
    }
  }

  // ---------------------------------------------------------------------
  // Angles and depth ordering

  function DegreesToRadians(degrees: real): (r: real)
    ensures degrees == 180.0 ==> r == PI
  {
    (degrees / 180.0) * PI
  }

  function RadiansToDegrees(radians: real): (r: real)
    ensures radians == PI ==> r == 180.0
  {
    (radians * 180.0) / PI
  }

  lemma DegreesRadiansRoundTrip(degrees: real, radians: real)
    ensures RadiansToDegrees(DegreesToRadians(degrees)) == degrees
    ensures DegreesToRadians(RadiansToDegrees(radians)) == radians
  {
  }

  /** A comparator that sorts by decreasing depth. */
  function ZSort(a: Object3D, b: Object3D): (r: real)
    ensures r < 0.0 <==> a.z > b.z
    ensures r == 0.0 <==> a.z == b.z
  {
    b.z - a.z
  }

  lemma ZSortAntisymmetric(a: Object3D, b: Object3D)
    ensures ZSort(a, b) == -ZSort(b, a)
  {
  }

  // ---------------------------------------------------------------------
  // Bezier curves, one coordinate at a time

  /** The quadratic Bernstein form used for each coordinate. */
  function QuadraticAt(p0: real, p1: real, p2: real, t: real): (r: real)
    ensures t == 0.0 ==> r == p0
    ensures t == 1.0 ==> r == p2
  {
    (1.0 - t) * (1.0 - t) * p0 + (1.0 - t) * 2.0 * t * p1 + t * t * p2
  }

  /** The cubic Bernstein form used for each coordinate. */
  function CubicAt(p0: real, p1: real, p2: real, p3: real, t: real): (r: real)
    ensures t == 0.0 ==> r == p0
    ensures t == 1.0 ==> r == p3
  {
    (1.0 - t) * (1.0 - t) * (1.0 - t) * p0 + (1.0 - t) * (1.0 - t) * 3.0 * t * p1
      + (1.0 - t) * 3.0 * t * t * p2 + t * t * t * p3
  }

  /** The Bernstein form agrees with de Casteljau's construction by repeated Lerp. */
  lemma QuadraticIsRepeatedLerp(p0: real, p1: real, p2: real, t: real)
    ensures QuadraticAt(p0, p1, p2, t) == Lerp(t, Lerp(t, p0, p1), Lerp(t, p1, p2))
  {
  }

  lemma CubicIsRepeatedLerp(p0: real, p1: real, p2: real, p3: real, t: real)
    ensures CubicAt(p0, p1, p2, p3, t) == Lerp(t, QuadraticAt(p0, p1, p2, t), QuadraticAt(p1, p2, p3, t))
  {
    var q0, q1 := QuadraticAt(p0, p1, p2, t), QuadraticAt(p1, p2, p3, t);
    BernsteinSplit(t, p0, p1, p2, p3, q0, q1);
  }

  /** The polynomial identity behind de Casteljau's construction of the cubic. */
  lemma BernsteinSplit(t: real, p0: real, p1: real, p2: real, p3: real, q0: real, q1: real)
    requires q0 == (1.0 - t) * (1.0 - t) * p0 + (1.0 - t) * 2.0 * t * p1 + t * t * p2
    requires q1 == (1.0 - t) * (1.0 - t) * p1 + (1.0 - t) * 2.0 * t * p2 + t * t * p3
    ensures (1.0 - t) * (1.0 - t) * (1.0 - t) * p0 + (1.0 - t) * (1.0 - t) * 3.0 * t * p1
              + (1.0 - t) * 3.0 * t * t * p2 + t * t * t * p3 == (q1 - q0) * t + q0
  {
    assert (q1 - q0) * t + q0 == (1.0 - t) * q0 + t * q1;
  }

  /**
   * Writes the point at parameter `t` of the quadratic curve into `pointFinal`
   * and returns that same object.  `pointFinal` may be one of the control
   * points: each coordinate is computed from the values before the call.
   */
  method QuadraticBezier(point0: Point, point1: Point, point2: Point, t: real, pointFinal: Point)
    returns (r: Point)
    modifies pointFinal
    ensures r == pointFinal
    ensures pointFinal.x == QuadraticAt(old(point0.x), old(point1.x), old(point2.x), t)
    ensures pointFinal.y == QuadraticAt(old(point0.y), old(point1.y), old(point2.y), t)
  {
    pointFinal.x := QuadraticAt(point0.x, point1.x, point2.x, t);
    pointFinal.y := QuadraticAt(point0.y, point1.y, point2.y, t);
    r := pointFinal;
  }

  method CubicBezier(point0: Point, point1: Point, point2: Point, point3: Point, t: real, pointFinal: Point)
    returns (r: Point)
    modifies pointFinal
    ensures r == pointFinal
    ensures pointFinal.x == CubicAt(old(point0.x), old(point1.x), old(point2.x), old(point3.x), t)
    ensures pointFinal.y == CubicAt(old(point0.y), old(point1.y), old(point2.y), old(point3.y), t)
  {
    pointFinal.x := CubicAt(point0.x, point1.x, point2.x, point3.x, t);
    pointFinal.y := CubicAt(point0.y, point1.y, point2.y, point3.y, t);
    r := pointFinal;
  }

  /**
   * `quadraticBezier` called without `pointFinal`: the point is written into
   * a new `{x: 0, y: 0}` object, which is returned.
   */
  method QuadraticBezierFresh(point0: Point, point1: Point, point2: Point, t: real) returns (r: Point)
    ensures fresh(r)
    ensures r.x == QuadraticAt(point0.x, point1.x, point2.x, t)
    ensures r.y == QuadraticAt(point0.y, point1.y, point2.y, t)
  {
    var pointFinal := new Point(0.0, 0.0);
    r := QuadraticBezier(point0, point1, point2, t, pointFinal);
  }

  /** `cubicBezier` called without `pointFinal`: the result is a new object. */
  method CubicBezierFresh(point0: Point, point1: Point, point2: Point, point3: Point, t: real) returns (r: Point)
    ensures fresh(r)
    ensures r.x == CubicAt(point0.x, point1.x, point2.x, point3.x, t)
    ensures r.y == CubicAt(point0.y, point1.y, point2.y, point3.y, t)
  {
    var pointFinal := new Point(0.0, 0.0);
    r := CubicBezier(point0, point1, point2, point3, t, pointFinal);
  }
}

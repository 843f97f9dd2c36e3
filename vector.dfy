/**
 * The two-component vector class.  `Add`, `Subtract`, `Multiply` and `Divide`
 * leave both operands alone and return a new vector; `AddTo`, `SubtractFrom`,
 * `MultiplyBy` and `DivideBy` update the receiver in place.  Dividing by zero
 * gives Infinity or NaN in the source; here it is excluded by a precondition.
 */
module Vectors {

  class Vector {
    var x: real
    var y: real

    constructor (x: real := 0.0, y: real := 0.0)
      ensures this.x == x && this.y == y
    {
      this.x := x;
      this.y := y;
    }

    /** The `x` setter. */
    method SetX(x: real)
      modifies this`x
      ensures this.x == x && this.y == old(this.y)
    {
      this.x := x;
    }

    /** The `y` setter. */
    method SetY(y: real)
      modifies this`y
      ensures this.y == y && this.x == old(this.x)
    {
      this.y := y;
    }

    method Add(v2: Vector) returns (r: Vector)
      ensures fresh(r)
      ensures r.x == x + v2.x && r.y == y + v2.y
    {
      r := new Vector(x + v2.x, y + v2.y);
    }

    method Subtract(v2: Vector) returns (r: Vector)
      ensures fresh(r)
      ensures r.x == x - v2.x && r.y == y - v2.y
    {
      r := new Vector(x - v2.x, y - v2.y);
    }

    method Multiply(value: real) returns (r: Vector)
      ensures fresh(r)
      ensures r.x == x * value && r.y == y * value
    {
      r := new Vector(x * value, y * value);
    }

    method Divide(value: real) returns (r: Vector)
      requires value != 0.0
      ensures fresh(r)
      ensures r.x == x / value && r.y == y / value
    {
      r := new Vector(x / value, y / value);
    }

    /** In place; `v2` may be the receiver itself, in which case it doubles. */
    method AddTo(v2: Vector)
      modifies this
      ensures x == old(x) + old(v2.x) && y == old(y) + old(v2.y)
      ensures v2 != this ==> v2.x == old(v2.x) && v2.y == old(v2.y)
    {
      x := x + v2.x;
      y := y + v2.y;
    }

    method SubtractFrom(v2: Vector)
      modifies this
      ensures x == old(x) - old(v2.x) && y == old(y) - old(v2.y)
    {
      x := x - v2.x;
      y := y - v2.y;
    }

    method MultiplyBy(value: real)
      modifies this
      ensures x == old(x) * value && y == old(y) * value
    {
      x := x * value;
      y := y * value;
    }

    method DivideBy(value: real)
      requires value != 0.0
      modifies this
      ensures x == old(x) / value && y == old(y) / value
    {
      x := x / value;
      y := y / value;
    }
  }

  /** `v.add(w).subtract(w)` has the components of `v`, and neither operand moves. */
  method AddThenSubtract(v: Vector, w: Vector) returns (r: Vector)
    ensures r.x == v.x && r.y == v.y
    ensures r != v && r != w
  {
    var sum := v.Add(w);
    r := sum.Subtract(w);
  }

  /** `v.multiply(s).divide(s)` has the components of `v` for every non-zero `s`. */
  method MultiplyThenDivide(v: Vector, s: real) returns (r: Vector)
    requires s != 0.0
    ensures r.x == v.x && r.y == v.y
    ensures r != v
  {
    var scaled := v.Multiply(s);
    r := scaled.Divide(s);
  }

  /** `v.addTo(v)` reads the receiver's own components before it writes them, so it doubles `v`. */
  method AddToSelf(v: Vector)
    modifies v
    ensures v.x == 2.0 * old(v.x) && v.y == 2.0 * old(v.y)
  {
    v.AddTo(v);
  }
}

/** The plain records the utilities, the tweens and the particles share. */
module Shapes {

  /** A mutable `{x, y}` object; its identity matters where it is a spring anchor. */
  class Point {
    var x: real
    var y: real

    constructor (x: real, y: real)
      ensures this.x == x && this.y == y
    {
      this.x := x;
      this.y := y;
    }
  }

  /** An axis-aligned rectangle; width and height may be negative. */
  datatype Rectangle = Rectangle(x: real, y: real, width: real, height: real)

  /** Anything with a depth coordinate. */
  datatype Object3D = Object3D(z: real)
}

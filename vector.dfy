/**
 * The 2D vector of vector.js. Its constructor stores `x` and `y` unchanged,
 * which is exactly what the datatype constructor `Vector2D(x, y)` does.
 */
module Vectors {

  datatype Vector2D = Vector2D(x: real, y: real) {

    /** The dot product of this vector and `v`. */
    function Dot(v: Vector2D): (r: real)
      ensures x == 0.0 && y == 0.0 ==> r == 0.0
      ensures v.x == 0.0 && v.y == 0.0 ==> r == 0.0
    {
      x * v.x + y * v.y
    }
  }

  /** The dot product does not depend on the order of its operands. */
  lemma DotSymmetric(a: Vector2D, b: Vector2D)
    ensures a.Dot(b) == b.Dot(a)
  {
  }
}

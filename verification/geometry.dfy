/** Plane geometry shared by the motion model and the hit resolver.
    The game compares Euclidean distances; the model compares their squares
    instead, and the lemma below says when that is the same comparison. */
module Geometry {

  /** A point or a heading in the plane. */
  datatype Vec = Vec(x: real, y: real)

  /** Square of the Euclidean distance between two points. */
  function SquaredDistance(p: Vec, q: Vec): (d2: real)
    ensures d2 >= 0.0
  {
    SquareNonNegative(p.x - q.x);
    SquareNonNegative(p.y - q.y);
    (p.x - q.x) * (p.x - q.x) + (p.y - q.y) * (p.y - q.y)
  }

  lemma SquareNonNegative(a: real)
    ensures a * a >= 0.0
    ensures a != 0.0 ==> a * a > 0.0
  {
    if a > 0.0 {
      PositiveProduct(a, a);
    } else if a < 0.0 {
      assert a * a == (-a) * (-a);
      PositiveProduct(-a, -a);
      assert a * a > 0.0;
    }
  }

  /** Squaring is strictly increasing on the non-negative reals. */
  lemma SquareLess(a: real, b: real)
    requires 0.0 <= a < b
    ensures a * a < b * b
  {
    PositiveProduct(b - a, b + a);
    assert b * b - a * a == (b - a) * (b + a);
  }

  /** For a non-negative length `a` (a distance), comparing `a` with any
      bound `b` is the same as comparing the squares, once the sign of `b`
      is taken into account. */
  lemma CompareBySquares(a: real, b: real)
    requires a >= 0.0
    ensures a <= b <==> b >= 0.0 && a * a <= b * b
    ensures a < b <==> b > 0.0 && a * a < b * b
  {
    if a < b {
      SquareLess(a, b);
    } else if b < a && b >= 0.0 {
      SquareLess(b, a);
    }
  }

  lemma PositiveProduct(x: real, y: real)
    requires x > 0.0 && y > 0.0
    ensures x * y > 0.0
  {
  }
}

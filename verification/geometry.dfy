/**
 * Points and 4x4 transforms as the host's OpenMaya `MPoint` and `MMatrix` use them: a point is
 * a row vector (x, y, z, 1) multiplied on the right by the matrix.
 */
module Geometry {

  /** The x, y, z of an `MPoint` whose w is 1. */
  datatype Point = Point(x: real, y: real, z: real)

  datatype Row = Row(c0: real, c1: real, c2: real, c3: real)

  /** A 4x4 matrix, row by row; a camera's world (inclusive) matrix is one of these. */
  datatype Matrix = Matrix(r0: Row, r1: Row, r2: Row, r3: Row)

  function Identity(): Matrix {
    Matrix(Row(1.0, 0.0, 0.0, 0.0), Row(0.0, 1.0, 0.0, 0.0), Row(0.0, 0.0, 1.0, 0.0), Row(0.0, 0.0, 0.0, 1.0))
  }

  /** The matrix that moves every point by `t` (row-vector convention: the offset is the last row). */
  function Translation(t: Point): Matrix {
    Matrix(Row(1.0, 0.0, 0.0, 0.0), Row(0.0, 1.0, 0.0, 0.0), Row(0.0, 0.0, 1.0, 0.0), Row(t.x, t.y, t.z, 1.0))
  }

  /**
   * `p * m` for a point with w = 1; the x, y, z of the product are read as they are
   * (no division by the product's w, as `MPoint.x` does not divide either).
   */
  function Transform(p: Point, m: Matrix): (q: Point)
    ensures m == Identity() ==> q == p
    ensures forall t :: m == Translation(t) ==> q == Point(p.x + t.x, p.y + t.y, p.z + t.z)
  {
    Point(p.x * m.r0.c0 + p.y * m.r1.c0 + p.z * m.r2.c0 + m.r3.c0,
          p.x * m.r0.c1 + p.y * m.r1.c1 + p.z * m.r2.c1 + m.r3.c1,
          p.x * m.r0.c2 + p.y * m.r1.c2 + p.z * m.r2.c2 + m.r3.c2)
  }

  /** `[p * mtx for p in pts]`. */
  function TransformAll(pts: seq<Point>, m: Matrix): (r: seq<Point>)
    ensures |r| == |pts|
    ensures forall i :: 0 <= i < |pts| ==> r[i] == Transform(pts[i], m)
    ensures m == Identity() ==> r == pts
  {
    seq(|pts|, i requires 0 <= i < |pts| => Transform(pts[i], m))
  }
}

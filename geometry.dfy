/**
 * Plane geometry used by the rotation recognizer: points, displacement
 * vectors, sizes and rectangles, with real coordinates standing in for
 * the floating-point ones of the host toolkit.
 */
module Geometry {

  datatype Point = Point(x: real, y: real)

  /** A displacement in the plane. */
  datatype Vector = Vector(dx: real, dy: real)

  datatype Size = Size(width: real, height: real)

  /** A rectangle given by its origin corner and its extent. */
  datatype Rect = Rect(origin: Point, size: Size)

  const ZeroVector: Vector := Vector(0.0, 0.0)

  /** The point reached from `p` by moving along `v`. */
  function Translate(p: Point, v: Vector): Point {
    Point(p.x + v.dx, p.y + v.dy)
  }

  /**
   * Point subtraction: the displacement that leads from `rhs` to `lhs`.
   * It is the zero vector exactly when the two points coincide.
   */
  function Sub(lhs: Point, rhs: Point): (v: Vector)
    ensures Translate(rhs, v) == lhs
    ensures v == ZeroVector <==> lhs == rhs
  {
    Vector(lhs.x - rhs.x, lhs.y - rhs.y)
  }

  /** `Sub` gives the only displacement that leads from `rhs` to `lhs`. */
  lemma SubUnique(lhs: Point, rhs: Point, w: Vector)
    requires Translate(rhs, w) == lhs
    ensures w == Sub(lhs, rhs)
  {
  }

  /** Reversing the two points reverses the displacement. */
  lemma SubAntisymmetric(p: Point, q: Point)
    ensures Sub(q, p) == Vector(-Sub(p, q).dx, -Sub(p, q).dy)
  {
  }

  /** The corner of `r` opposite its origin. */
  function FarCorner(r: Rect): Point {
    Translate(r.origin, Vector(r.size.width, r.size.height))
  }

  /**
   * The center of a rectangle: the midpoint of its origin and its far
   * corner, so it lies inside the rectangle whenever the extent is not
   * negative.
   */
  function Center(r: Rect): (c: Point)
    ensures Sub(c, r.origin) == Sub(FarCorner(r), c)
    ensures 0.0 <= r.size.width ==> r.origin.x <= c.x <= FarCorner(r).x
    ensures 0.0 <= r.size.height ==> r.origin.y <= c.y <= FarCorner(r).y
  {
    Point(r.origin.x + r.size.width / 2.0, r.origin.y + r.size.height / 2.0)
  }

  /** The midpoint property determines the center uniquely. */
  lemma CenterUnique(r: Rect, c: Point)
    requires Sub(c, r.origin) == Sub(FarCorner(r), c)
    ensures c == Center(r)
  {
  }
}

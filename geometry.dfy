/** Plain values shared by the game logic: unsigned bytes, positions and
    axis-aligned rectangles in the ground plane. Floats are modelled as reals. */
module Geometry {

  /** An unsigned 8-bit value (`uint8_t`). */
  type byte = x: int | 0 <= x < 256

  /** A position in the world: x and y span the ground plane, z is height. */
  datatype Vec3 = Vec3(x: real, y: real, z: real)

  /** An axis-aligned rectangle of the ground plane, given by its bounds. */
  datatype Rect = Rect(xLo: real, xHi: real, yLo: real, yHi: real)

  /** The point lies in the open rectangle (all four comparisons strict). */
  predicate StrictlyInside(p: Vec3, r: Rect) {
    r.xLo < p.x < r.xHi && r.yLo < p.y < r.yHi
  }

  /** The point lies in the closed rectangle. */
  predicate InClosed(p: Vec3, r: Rect) {
    r.xLo <= p.x <= r.xHi && r.yLo <= p.y <= r.yHi
  }

  /** The point lies on the border of the rectangle: in the closed
      rectangle but not in the open one. */
  predicate OnBoundary(p: Vec3, r: Rect) {
    InClosed(p, r) && !StrictlyInside(p, r)
  }

  /** The smaller of two reals (`fmin` without NaNs). */
  function Min(a: real, b: real): (m: real)
    ensures m <= a && m <= b && (m == a || m == b)
  {
    if a <= b then a else b
  }

  /** The absolute value (`fabs`). */
  function Abs(a: real): (m: real)
    ensures m >= 0.0 && (m == a || m == -a)
  {
    if a < 0.0 then -a else a
  }
}

/** Points, the tolerance-aware range test and the hypot oracle (src/utils/geometry.ts). */
module Geometry {
  /** A point in canvas-buffer coordinates. */
  datatype Point = Point(x: real, y: real) {
    /** This point moved by (dx, dy). */
    function Plus(dx: real, dy: real): Point {
      Point(x + dx, y + dy)
    }
  }

  /** `Math.min` on two reals. */
  function Min(a: real, b: real): (m: real)
    ensures m <= a && m <= b && (m == a || m == b)
  {
    if a <= b then a else b
  }

  /** `Math.max` on two reals. */
  function Max(a: real, b: real): (m: real)
    ensures m >= a && m >= b && (m == a || m == b)
  {
    if a >= b then a else b
  }

  /** `Math.abs`. */
  function Abs(a: real): (r: real)
    ensures r >= 0.0 && (r == a || r == -a)
  {
    if a < 0.0 then -a else a
  }

  /** The slack `between` grants on both sides of the range. */
  const Tolerance: real := 2.0

  /**
   * `between(v, min, max)`: v + 2 >= Math.min(min, max) and
   * v - 2 <= Math.max(min, max).
   */
  predicate Between(v: real, min: real, max: real)
    ensures Min(min, max) <= v <= Max(min, max) ==> Between(v, min, max)
    ensures v < Min(min, max) - Tolerance || v > Max(min, max) + Tolerance ==> !Between(v, min, max)
  {
    v + Tolerance >= Min(min, max) && v - Tolerance <= Max(min, max)
  }

  /** The order of the two bounds does not matter. */
  lemma BetweenSymmetric(v: real, a: real, b: real)
    ensures Between(v, a, b) == Between(v, b, a)
  {
  }

  /** `between` is the closed range [min - 2, max + 2]. */
  lemma BetweenIsWidenedRange(v: real, a: real, b: real)
    ensures Between(v, a, b) <==> Min(a, b) - 2.0 <= v <= Max(a, b) + 2.0
  {
  }

  /**
   * Every value of the closed range is accepted, so are the two points at
   * distance exactly 2, and nothing further out is.
   */
  lemma BetweenBoundaries(v: real, a: real, b: real)
    ensures Min(a, b) <= v <= Max(a, b) ==> Between(v, a, b)
    ensures Between(Min(a, b) - 2.0, a, b) && Between(Max(a, b) + 2.0, a, b)
    ensures v < Min(a, b) - 2.0 || v > Max(a, b) + 2.0 ==> !Between(v, a, b)
  {
  }

  /** Shifting the value and both bounds by the same amount changes nothing. */
  lemma BetweenShift(v: real, a: real, b: real, d: real)
    ensures Between(v + d, a + d, b + d) == Between(v, a, b)
  {
  }

  /**
   * `h` is what `Math.hypot(dx, dy)` returns, read as an exact real: the
   * non-negative square root of dx² + dy².
   */
  predicate IsHypot(h: real, dx: real, dy: real) {
    h >= 0.0 && h * h == dx * dx + dy * dy
  }

  /** A product of two positive reals is positive. */
  lemma PositiveProduct(x: real, y: real)
    requires x > 0.0 && y > 0.0
    ensures x * y > 0.0
  {
  }

  /** For non-negative reals, squaring preserves and reflects the order. */
  lemma SquareMonotone(a: real, b: real)
    requires 0.0 <= a && 0.0 <= b
    ensures a <= b <==> a * a <= b * b
  {
    if a < b {
      PositiveProduct(b + a, b - a);
      assert (b + a) * (b - a) == b * b - a * a;
    } else if b < a {
      PositiveProduct(a + b, a - b);
      assert (a + b) * (a - b) == a * a - b * b;
    }
  }

  /** The hypot oracle leaves no freedom: its value is unique. */
  lemma HypotUnique(h1: real, h2: real, dx: real, dy: real)
    requires IsHypot(h1, dx, dy) && IsHypot(h2, dx, dy)
    ensures h1 == h2
  {
    SquareMonotone(h1, h2);
    SquareMonotone(h2, h1);
  }

  /** The hypot of a zero delta is 0, and 0 is the hypot of a zero delta. */
  lemma HypotZero(h: real)
    ensures IsHypot(h, 0.0, 0.0) <==> h == 0.0
  {
    if IsHypot(h, 0.0, 0.0) {
      SquareMonotone(h, 0.0);
    }
  }
}

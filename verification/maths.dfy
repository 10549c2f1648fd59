/**
 * The parts of JavaScript's `Math` object the generators and the renderer use.
 * `Math.min`/`Math.max` are modelled exactly on reals; `Math.random`,
 * `Math.sqrt` and `Math.atan2` are not computed here: their results are
 * supplied by the caller, constrained by the ranges these predicates state.
 */
module Maths {
  function Min(a: real, b: real): (m: real)
    ensures m <= a && m <= b && (m == a || m == b)
  {
    if a <= b then a else b
  }

  function Max(a: real, b: real): (m: real)
    ensures a <= m && b <= m && (m == a || m == b)
  {
    if a <= b then b else a
  }

  /** One value of `Math.random()`: uniform in [0, 1). */
  predicate IsDraw(u: real) {
    0.0 <= u < 1.0
  }

  /** A stream of `Math.random()` values, consumed in order. */
  predicate AllDraws(rnd: seq<real>) {
    forall i :: 0 <= i < |rnd| ==> IsDraw(rnd[i])
  }

  /** What every caller may rely on from `Math.sqrt` on a non-negative argument. */
  ghost predicate SqrtNonNegative(sqrt: real -> real) {
    forall x :: 0.0 <= x ==> 0.0 <= sqrt(x)
  }

  /** `Math.sqrt` taken as the exact square root on the non-negative reals. */
  ghost predicate IsSqrt(sqrt: real -> real) {
    forall x :: 0.0 <= x ==> 0.0 <= sqrt(x) && sqrt(x) * sqrt(x) == x
  }

  /**
   * `Math.atan2(y, x) * 180 / Math.PI`: `Math.atan2` returns an angle in
   * [-pi, pi], so in degrees the value lies in [-180, 180].
   */
  ghost predicate AtanDegreesInRange(atan2Degrees: (real, real) -> real) {
    forall y, x :: -180.0 <= atan2Degrees(y, x) <= 180.0
  }

  /** Scaling by a non-negative factor keeps the order. */
  lemma MulMonotone(a: real, p1: real, p2: real)
    requires 0.0 <= a && p1 <= p2
    ensures a * p1 <= a * p2
  {
  }

  /** A square is never negative. */
  lemma SquareNonNegative(a: real)
    ensures 0.0 <= a * a
  {
    if a < 0.0 {
      MulMonotone(-a, 0.0, -a);
    }
  }

  /**
   * The degenerate-centre guard `dist < 0.1` of the vector generators, read
   * on the squared distance: a square root is below 0.1 exactly when its
   * square is below 0.01.
   */
  lemma RootBelowTenth(s: real, k: real)
    requires 0.0 <= s && s * s == k
    ensures s < 0.1 <==> k < 0.01
  {
    if s < 0.1 {
      assert s * s <= 0.1 * s;
    } else {
      assert s * s >= 0.1 * s;
    }
  }
}

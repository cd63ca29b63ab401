/** Square roots as the host supplies them, and the real-arithmetic facts the geometry needs. */
module Numerics {

  /**
    * `sqrt` is an exact non-negative square root on the non-negative reals.
    * The engine raises to the power 0.5; every member that needs an exact
    * magnitude takes the root as a parameter constrained by this predicate.
    */
  ghost predicate IsSqrt(sqrt: real -> real) {
    forall x: real {:trigger sqrt(x)} :: 0.0 <= x ==> 0.0 <= sqrt(x) && sqrt(x) * sqrt(x) == x
  }

  /** Squaring is strictly monotone on the non-negative reals. */
  lemma SquareLess(a: real, b: real)
    requires 0.0 <= a && 0.0 <= b
    ensures a < b <==> a * a < b * b
  {
    var p, q, q', r := a * a, a * b, b * a, b * b;
    assert q == q';
    if a < b {
      assert p <= q;
      assert q < r;
    } else {
      assert r <= q';
      assert q' <= p;
    }
  }

  /** A magnitude compared with a bound: for s >= 0, sqrt(x) < s exactly when x < s*s. */
  lemma SqrtLess(sqrt: real -> real, x: real, s: real)
    requires IsSqrt(sqrt) && 0.0 <= x && 0.0 <= s
    ensures sqrt(x) < s <==> x < s * s
  {
    SquareLess(sqrt(x), s);
  }

  /** (a/s)^2 * s^2 == a^2 for a positive divisor. */
  lemma SquareOfQuotient(a: real, s: real)
    requires 0.0 < s
    ensures (a / s) * (a / s) * (s * s) == a * a
  {
  }

  /** Multiplying equal reals by the same square gives equal products. */
  lemma ScaleEqual(c: real, n: real, m: real)
    requires n == m
    ensures c * c * n == c * c * m
  {
  }

  /** Squares keep the order of non-negative reals. */
  lemma SquareMonotone(s: real, m: real)
    requires 0.0 <= s <= m
    ensures s * s <= m * m
  {
  }
}

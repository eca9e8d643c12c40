/**
 * Real-number stand-ins for the two numerical facts the filters rely on:
 * the square root behind `numpy.linalg.norm`, and the NaN that numpy
 * produces when a vector of norm zero is divided by its norm (0/0).
 */
module Numerics {

  /**
   * `sqrt` returns the non-negative square root of every non-negative real.
   * The norms of the filters are taken through such a function, supplied by
   * the caller, instead of through floating point.
   */
  ghost predicate IsSqrt(sqrt: real -> real)
  {
    forall x :: 0.0 <= x ==> 0.0 <= sqrt(x) && sqrt(x) * sqrt(x) == x
  }

  /**
   * A numpy quantity that is either finite or, after a 0/0, NaN in every
   * component. NaN is absorbing: every later computation from it is NaN.
   */
  datatype Num<+T> = Finite(value: T) | NaN

  /** The square root of a non-negative real is zero exactly when the real is. */
  lemma SqrtZero(sqrt: real -> real, s: real)
    requires IsSqrt(sqrt) && 0.0 <= s
    ensures sqrt(s) == 0.0 <==> s == 0.0
    ensures 0.0 < s ==> 0.0 < sqrt(s)
  {
    var n := sqrt(s);
    assert 0.0 <= n && n * n == s;
    if 0.0 < n {
      calc { s; == n * n; > 0.0; }
    } else {
      calc { s; == n * n; == 0.0 * 0.0; == 0.0; }
    }
  }

  /** The square root of 1 is 1. */
  lemma SqrtOne(sqrt: real -> real)
    requires IsSqrt(sqrt)
    ensures sqrt(1.0) == 1.0
  {
    var n := sqrt(1.0);
    UnitRoot(n, n * n);
  }

  /** The only non-negative real whose square is 1 is 1 itself. */
  lemma UnitRoot(n: real, m: real)
    requires 0.0 <= n && m == n * n && m == 1.0
    ensures n == 1.0
  {
    var lo, hi := 1.0 - n, 1.0 + n;
    var p := lo * hi;
    assert p == 0.0;
    ZeroFactor(lo, hi, p);
  }

  /** A product is zero only when a factor is. */
  lemma ZeroFactor(a: real, b: real, p: real)
    requires p == a * b && p == 0.0 && b != 0.0
    ensures a == 0.0
  {
    var q := p / b;
    assert q == a;
  }

  lemma ProductPositive(a: real, b: real)
    requires 0.0 < a && 0.0 < b
    ensures 0.0 < a * b
  {
  }

  /** The square `m` of a real `x` is non-negative, and zero only when `x` is. */
  lemma SquareSign(x: real, m: real)
    requires m == x * x
    ensures 0.0 <= m
    ensures m == 0.0 <==> x == 0.0
  {
    if 0.0 < x {
      calc { m; == x * x; > 0.0; }
    } else if x < 0.0 {
      calc { m; == x * x; == (-x) * (-x); > 0.0; }
    }
  }

  /** A number strictly between -1 and 1 has a square below 1. */
  lemma SquareBelowOne(c: real)
    requires -1.0 < c < 1.0
    ensures c * c < 1.0
  {
    if c < 0.0 {
      assert c * c == (-c) * (-c);
      assert (-c) * (-c) < 1.0 * (-c);
    } else {
      assert c * c <= c * 1.0;
    }
  }
}

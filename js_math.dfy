/**
 * The handful of JavaScript `Math` operations and operators the colour engine
 * relies on, over exact rationals (`real`) rather than IEEE doubles.
 */
module JsMath {

  function Abs(x: real): (r: real)
    ensures r >= 0.0 && (r == x || r == -x)
  {
    if x < 0.0 then -x else x
  }

  function Min(a: real, b: real): (r: real)
    ensures r <= a && r <= b && (r == a || r == b)
  {
    if a <= b then a else b
  }

  function Max(a: real, b: real): (r: real)
    ensures r >= a && r >= b && (r == a || r == b)
  {
    if a >= b then a else b
  }

  /** `Math.min` on integers: `Min` taken on their real values. */
  function MinInt(a: int, b: int): (r: int)
    ensures r <= a && r <= b && (r == a || r == b)
  {
    Min(a as real, b as real).Floor
  }

  /** `Math.round`: halves round towards positive infinity. */
  function Round(x: real): (r: int)
    ensures x - 0.5 < r as real <= x + 0.5
  {
    (x + 0.5).Floor
  }

  /** Truncation towards zero, the quotient JavaScript's `%` is built on. */
  function Trunc(x: real): (r: int)
    ensures x >= 0.0 ==> 0.0 <= r as real <= x < r as real + 1.0
    ensures x < 0.0 ==> r as real - 1.0 < x <= r as real <= 0.0
  {
    if x >= 0.0 then x.Floor else -((-x).Floor)
  }

  /**
   * JavaScript's `x % m` on numbers: the remainder keeps the sign of the
   * dividend (unlike Dafny's Euclidean `%`).
   */
  function Rem(x: real, m: real): real
    requires m > 0.0
  {
    x - m * (Trunc(x / m) as real)
  }

  lemma PositiveFactor(a: real, c: real)
    requires c > 0.0 && a * c > 0.0
    ensures a > 0.0
  {
  }

  lemma NonNegativeFactor(a: real, c: real)
    requires c > 0.0 && a * c >= 0.0
    ensures a >= 0.0
  {
  }

  lemma QuotientBelowOne(x: real, m: real)
    requires m > 0.0 && 0.0 <= x < m
    ensures 0.0 <= x / m < 1.0
  {
    var q := x / m;
    assert q * m == x;
    NonNegativeFactor(q, m);
    assert (1.0 - q) * m == m - x;
    PositiveFactor(1.0 - q, m);
  }

  lemma QuotientBelowTwo(x: real, m: real)
    requires m > 0.0 && m <= x < 2.0 * m
    ensures 1.0 <= x / m < 2.0
  {
    var q := x / m;
    assert (q - 1.0) * m == x - m;
    NonNegativeFactor(q - 1.0, m);
    assert (2.0 - q) * m == 2.0 * m - x;
    PositiveFactor(2.0 - q, m);
  }

  /**
   * On a non-negative dividend below twice the modulus, JavaScript's
   * remainder subtracts the modulus at most once.
   */
  lemma {:induction false} RemBelowTwice(x: real, m: real)
    requires m > 0.0 && 0.0 <= x < 2.0 * m
    ensures Rem(x, m) == if x < m then x else x - m
    ensures 0.0 <= Rem(x, m) < m
  {
    if x < m {
      QuotientBelowOne(x, m);
      assert Trunc(x / m) == 0;
    } else {
      QuotientBelowTwo(x, m);
      assert Trunc(x / m) == 1;
    }
  }

  /** A quotient whose numerator is bounded by its positive denominator. */
  lemma Ratio(x: real, y: real)
    requires y > 0.0 && -y <= x <= y
    ensures -1.0 <= x / y <= 1.0
    ensures x < 0.0 ==> x / y < 0.0
    ensures x >= 0.0 ==> x / y >= 0.0
    ensures x > 0.0 ==> x / y > 0.0
  {
    var q := x / y;
    assert (1.0 - q) * y == y - x;
    NonNegativeFactor(1.0 - q, y);
    assert (q + 1.0) * y == x + y;
    NonNegativeFactor(q + 1.0, y);
    if x < 0.0 {
      assert (-q) * y == -x;
      PositiveFactor(-q, y);
    } else {
      NonNegativeFactor(q, y);
      if x > 0.0 {
        PositiveFactor(q, y);
      }
    }
  }
}

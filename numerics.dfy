/**
 * The .NET numeric primitives the estimators use, over exact reals:
 * Math.Round (midpoint to even, the .NET default), Math.Clamp, Math.Min/Max.
 */
module Numerics {

  /** Math.Round(x): the nearest integer, a midpoint going to the even neighbour. */
  function Round(x: real): (r: int)
    ensures x - 1.0 / 2.0 <= r as real <= x + 1.0 / 2.0
    ensures r as real == x - 1.0 / 2.0 || r as real == x + 1.0 / 2.0 ==> r % 2 == 0
  {
    var f := x.Floor;
    var d := x - f as real;
    if d < 1.0 / 2.0 then f
    else if d > 1.0 / 2.0 then f + 1
    else if f % 2 == 0 then f else f + 1
  }

  /** The two properties in Round's contract single out one integer. */
  lemma RoundUnique(x: real, n: int)
    requires x - 1.0 / 2.0 <= n as real <= x + 1.0 / 2.0
    requires n as real == x - 1.0 / 2.0 || n as real == x + 1.0 / 2.0 ==> n % 2 == 0
    ensures Round(x) == n
  {
  }

  /** Rounding an integer gives it back. */
  lemma RoundOfInt(n: int)
    ensures Round(n as real) == n
  {
    RoundUnique(n as real, n);
  }

  /** Rounding is monotone. */
  lemma RoundMonotone(x: real, y: real)
    requires x <= y
    ensures Round(x) <= Round(y)
  {
  }

  /** Rounding a scaled value is monotone in the factor scaled. */
  lemma RoundScaledMonotone(low: real, high: real, n: int)
    requires low <= high && n >= 0
    ensures Round(low * n as real) <= Round(high * n as real)
  {
    MulLe(n as real, low, high);
    RoundMonotone(low * n as real, high * n as real);
  }

  /** A value at most (at least) an integer rounds to at most (at least) it. */
  lemma RoundBetweenInts(x: real, lo: int, hi: int)
    requires lo as real <= x <= hi as real
    ensures lo <= Round(x) <= hi
  {
    RoundMonotone(lo as real, x);
    RoundMonotone(x, hi as real);
    RoundOfInt(lo);
    RoundOfInt(hi);
  }

  /** Math.Clamp(x, lo, hi). */
  function Clamp(x: real, lo: real, hi: real): (r: real)
    requires lo <= hi
    ensures lo <= r <= hi
    ensures lo <= x <= hi ==> r == x
    ensures x < lo ==> r == lo
    ensures x > hi ==> r == hi
  {
    if x < lo then lo else if x > hi then hi else x
  }

  function Min(a: int, b: int): (r: int)
    ensures r <= a && r <= b && (r == a || r == b)
  {
    if a <= b then a else b
  }

  function Max(a: int, b: int): (r: int)
    ensures r >= a && r >= b && (r == a || r == b)
  {
    if a >= b then a else b
  }

  /** C#'s integer `a / b` for a positive divisor: the quotient truncated toward zero. */
  function Quot(a: int, b: int): (r: int)
    requires b > 0
    ensures a >= 0 ==> r == a / b && r >= 0 && r * b <= a < (r + 1) * b
    ensures a < 0 ==> r <= 0
  {
    if a >= 0 then
      DivBounds(a, b);
      a / b
    else -((-a) / b)
  }

  /** Euclidean division of a non-negative number: the quotient times the divisor is at most it, one more is above it. */
  lemma DivBounds(a: int, b: int)
    requires a >= 0 && b > 0
    ensures a / b >= 0 && (a / b) * b <= a < (a / b + 1) * b
  {
    var q, m := a / b, a % b;
    assert a == q * b + m && 0 <= m < b;
    assert (q + 1) * b == q * b + b;
  }

  // Small facts of real arithmetic that keep the nonlinear steps of the proofs explicit.

  lemma MulLe(x: real, a: real, b: real)
    requires x >= 0.0 && a <= b
    ensures x * a <= x * b
  {
  }

  lemma MulNonneg(a: real, b: real)
    requires a >= 0.0 && b >= 0.0
    ensures a * b >= 0.0
  {
  }

  lemma DivTimes(y: real, d: real)
    requires d != 0.0
    ensures (y / d) * d == y
  {
  }

  lemma CancelLe(a: real, b: real, d: real)
    requires d > 0.0 && a * d <= b * d
    ensures a <= b
  {
  }

  lemma DivNonneg(y: real, d: real)
    requires y >= 0.0 && d > 0.0
    ensures y / d >= 0.0
  {
  }

  lemma QuotientInUnitInterval(p: real, m: real)
    requires 0.0 <= p <= m && m != 0.0
    ensures 0.0 <= p / m <= 1.0
  {
    DivTimes(p, m);
    CancelLe(0.0, p / m, m);
    CancelLe(p / m, 1.0, m);
  }

  lemma DivLe(a: real, b: real, d: real)
    requires a <= b && d > 0.0
    ensures a / d <= b / d
  {
    assert (b - a) / d >= 0.0;
    assert b / d - a / d == (b - a) / d;
  }

  /** A value within 1/2 of a·n, divided by n, is within 1/(2n) of a. */
  lemma ShareClose(a: real, t: real, n: real)
    requires n > 0.0 && a * n - 0.5 <= t <= a * n + 0.5
    ensures a - 1.0 / (2.0 * n) <= t / n <= a + 1.0 / (2.0 * n)
  {
    DivLe(a * n - 0.5, t, n);
    DivLe(t, a * n + 0.5, n);
    assert (a * n - 0.5) / n == a - 1.0 / (2.0 * n);
    assert (a * n + 0.5) / n == a + 1.0 / (2.0 * n);
  }

  /** A value within w of a·n, divided by n, is within w/n of a. */
  lemma ShareWithin(a: real, t: real, n: real, w: real)
    requires n > 0.0 && a * n - w <= t <= a * n + w
    ensures a - w / n <= t / n <= a + w / n
  {
    DivLe(a * n - w, t, n);
    DivLe(t, a * n + w, n);
    assert (a * n - w) / n == a - w / n;
    assert (a * n + w) / n == a + w / n;
  }

  lemma SelfQuotient(p: real)
    requires p != 0.0
    ensures p / p == 1.0
  {
  }
}

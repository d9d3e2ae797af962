/**
 * Numeric helpers shared by the client and the server models: the `min`/`max`
 * of two numbers, JavaScript's `Math.round`, Python's `int()` truncation and
 * Python's `round(x, n)` (round half to even), all stated over exact reals.
 */
module Numeric {

  function Min(a: real, b: real): (r: real)
    ensures r <= a && r <= b && (r == a || r == b)
  {
    if b < a then b else a
  }

  function Max(a: real, b: real): (r: real)
    ensures r >= a && r >= b && (r == a || r == b)
  {
    if b > a then b else a
  }

  function Abs(a: real): (r: real)
    ensures r >= 0.0 && (r == a || r == -a)
  {
    if a < 0.0 then -a else a
  }

  lemma MulNonneg(a: real, b: real)
    requires 0.0 <= a && 0.0 <= b
    ensures 0.0 <= a * b
  {
  }

  lemma MulPositive(a: real, b: real)
    requires 0.0 < a && 0.0 < b
    ensures 0.0 < a * b
  {
  }

  lemma MulMonotone(a: real, b: real, c: real)
    requires 0.0 <= c && a <= b
    ensures a * c <= b * c
  {
    MulNonneg(b - a, c);
  }

  lemma MulMonotoneLeft(c: real, a: real, b: real)
    requires 0.0 <= c && a <= b
    ensures c * a <= c * b
  {
    MulNonneg(c, b - a);
  }

  /** A quotient by a positive divisor is at least `bound` when the dividend is at least `bound` times the divisor. */
  lemma DivAtLeast(x: real, d: real, bound: real)
    requires d > 0.0 && x >= bound * d
    ensures x / d >= bound
  {
    var q := x / d;
    assert q * d == x;
    if q < bound {
      MulPositive(bound - q, d);
    }
  }

  /** JavaScript `Math.round`: the nearest integer, halves rounded towards +infinity. */
  function JsRound(x: real): (r: int)
    ensures x - 0.5 < r as real <= x + 0.5
  {
    (x + 0.5).Floor
  }

  /** Python `int()` on a float: truncation towards zero. */
  function Trunc(x: real): (r: int)
    ensures x >= 0.0 ==> r >= 0 && r as real <= x < r as real + 1.0
    ensures x < 0.0 ==> r <= 0 && r as real - 1.0 < x <= r as real
  {
    if x >= 0.0 then x.Floor else -((-x).Floor)
  }

  lemma TruncMonotone(x: real, y: real)
    requires x <= y
    ensures Trunc(x) <= Trunc(y)
  {
  }

  lemma TruncOfInt(n: int, x: real)
    requires n as real <= x
    ensures n <= Trunc(x)
  {
    TruncMonotone(n as real, x);
  }

  /** The nearest integer, ties going to the even neighbour (Python's `round`). */
  function RoundHalfEven(x: real): (r: int)
    ensures r as real - 0.5 <= x <= r as real + 0.5
    ensures x == x.Floor as real ==> r == x.Floor
  {
    var n := x.Floor;
    var f := x - n as real;
    if f < 0.5 then n
    else if f > 0.5 then n + 1
    else if n % 2 == 0 then n
    else n + 1
  }

  lemma {:induction false} RoundHalfEvenMonotone(x: real, y: real)
    requires x <= y
    ensures RoundHalfEven(x) <= RoundHalfEven(y)
  {
    var n, m := x.Floor, y.Floor;
    if n < m {
      assert RoundHalfEven(x) <= n + 1 <= m <= RoundHalfEven(y);
    } else {
      assert n == m;
    }
  }

  /** A value with at most two decimals, as every result of `round(x, 2)` is. */
  predicate IsCents(x: real) {
    (x * 100.0).Floor as real == x * 100.0
  }

  /** A whole number of hundredths has at most two decimals. */
  lemma HundredthsAreCents(k: int)
    ensures IsCents(k as real / 100.0)
  {
    var q := k as real / 100.0;
    assert q * 100.0 == k as real;
    assert (q * 100.0).Floor == k;
  }

  /** An integer within 0.5 of `100 x`, scaled down, is within 0.005 of `x`. */
  lemma ScaledDownWithin(x: real, k: int)
    requires k as real - 0.5 <= x * 100.0 <= k as real + 0.5
    ensures x - 0.005 <= k as real / 100.0 <= x + 0.005
  {
    var q := k as real / 100.0;
    assert q * 100.0 == k as real;
    assert (q - x) * 100.0 == k as real - x * 100.0;
  }

  /** Python `round(x, 2)`, on the exact value of `x`. */
  function PyRound2(x: real): (r: real)
    ensures IsCents(r)
    ensures x - 0.005 <= r <= x + 0.005
  {
    var k := RoundHalfEven(x * 100.0);
    HundredthsAreCents(k);
    ScaledDownWithin(x, k);
    k as real / 100.0
  }

  /** Python `round(x, 4)`, on the exact value of `x`. */
  function PyRound4(x: real): (r: real)
    ensures x - 0.00005 <= r <= x + 0.00005
  {
    RoundHalfEven(x * 10000.0) as real / 10000.0
  }

  lemma PyRound2Monotone(x: real, y: real)
    requires x <= y
    ensures PyRound2(x) <= PyRound2(y)
  {
    RoundHalfEvenMonotone(x * 100.0, y * 100.0);
  }

  lemma PyRound2OfCents(x: real)
    requires IsCents(x)
    ensures PyRound2(x) == x
  {
  }

  /** Rounding to cents never leaves an interval whose ends are cents. */
  lemma PyRound2Within(lo: real, x: real, hi: real)
    requires IsCents(lo) && IsCents(hi) && lo <= x <= hi
    ensures lo <= PyRound2(x) <= hi
  {
    PyRound2Monotone(lo, x);
    PyRound2Monotone(x, hi);
    PyRound2OfCents(lo);
    PyRound2OfCents(hi);
  }
}

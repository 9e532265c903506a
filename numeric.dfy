/** Python's numeric conversions that the advice core relies on: `round(x, n)` and `int(x)`. */
module Numeric {

  function Pow10(n: nat): (p: nat)
    ensures p >= 1
  {
    if n == 0 then 1 else 10 * Pow10(n - 1)
  }

  /** The whole number of units of size 1/s nearest to `x` (ties upward). */
  function NearestUnits(x: real, s: real): (n: int)
    ensures x * s - 0.5 < n as real <= x * s + 0.5
  {
    (x * s + 0.5).Floor
  }

  /**
   * `round(x, digits)`: the multiple of 10^-digits nearest to `x`.
   * On exact reals a tie goes upward; Python breaks ties on the binary float it holds.
   */
  function RoundTo(x: real, digits: nat): real {
    var s := Pow10(digits) as real;
    NearestUnits(x, s) as real / s
  }

  /** Rounding never reverses the order of two numbers. */
  lemma RoundMonotone(x: real, y: real, digits: nat)
    requires x <= y
    ensures RoundTo(x, digits) <= RoundTo(y, digits)
  {
    var s := Pow10(digits) as real;
    MulMonotone(x, y, s);
    var fx, fy := NearestUnits(x, s), NearestUnits(y, s);
    assert fx <= fy;
    DivMonotone(fx as real, fy as real, s);
  }

  /** A number that already has at most `digits` decimals is left unchanged. */
  lemma RoundOfMultiple(k: int, digits: nat)
    ensures RoundTo(k as real / Pow10(digits) as real, digits) == k as real / Pow10(digits) as real
  {
    var s := Pow10(digits) as real;
    var x := k as real / s;
    DivMulCancel(k as real, s);
    assert NearestUnits(x, s) == k;
  }

  /** In particular every whole number is left unchanged. */
  lemma RoundOfInt(n: int, digits: nat)
    ensures RoundTo(n as real, digits) == n as real
  {
    var s := Pow10(digits) as real;
    var m := n * Pow10(digits);
    IntProduct(n, Pow10(digits));
    assert NearestUnits(n as real, s) == m;
    MulDivCancel(n as real, s);
  }

  lemma IntProduct(a: int, b: int)
    ensures (a * b) as real == a as real * b as real
  {
  }

  /** The rounded value lies within half a unit of the last kept decimal. */
  lemma RoundError(x: real, digits: nat)
    ensures -0.5 / Pow10(digits) as real < RoundTo(x, digits) - x <= 0.5 / Pow10(digits) as real
  {
    var s := Pow10(digits) as real;
    ScaledError(NearestUnits(x, s) as real, x, s);
  }

  /** A whole number of units within half a unit of `x * s` is within half a unit, divided by
      `s`, of `x`. */
  lemma ScaledError(f: real, x: real, s: real)
    requires s > 0.0 && -0.5 < f - x * s <= 0.5
    ensures -0.5 / s < f / s - x <= 0.5 / s
  {
    var d := f - x * s;
    DivSub(f, x * s, s);
    MulDivCancel(x, s);
    DivStrict(-0.5, d, s);
    DivMonotone(d, 0.5, s);
  }

  lemma MulDivCancel(a: real, s: real)
    requires s != 0.0
    ensures (a * s) / s == a
  {
  }

  lemma DivMulCancel(a: real, s: real)
    requires s != 0.0
    ensures (a / s) * s == a
  {
  }

  lemma DivSub(a: real, b: real, s: real)
    requires s != 0.0
    ensures (a - b) / s == a / s - b / s
  {
  }

  /** Rounding a non-negative number gives a non-negative number. */
  lemma RoundNonNegative(x: real, digits: nat)
    requires x >= 0.0
    ensures RoundTo(x, digits) >= 0.0
  {
    RoundMonotone(0.0, x, digits);
    RoundOfInt(0, digits);
  }

  lemma MulMonotone(x: real, y: real, s: real)
    requires x <= y && s > 0.0
    ensures x * s <= y * s
  {
    assert y * s - x * s == (y - x) * s;
  }

  lemma MulNonNegMonotone(x: real, y: real, s: real)
    requires x <= y && s >= 0.0
    ensures x * s <= y * s && s * x <= s * y
  {
    assert y * s - x * s == (y - x) * s;
  }

  lemma DivSelf(x: real)
    requires x != 0.0
    ensures x / x == 1.0
  {
  }

  lemma DivStrict(x: real, y: real, s: real)
    requires x < y && s > 0.0
    ensures x / s < y / s
  {
    assert y / s - x / s == (y - x) / s;
  }

  lemma DivMonotone(x: real, y: real, s: real)
    requires x <= y && s > 0.0
    ensures x / s <= y / s
  {
    assert y / s - x / s == (y - x) / s;
  }

  /** Python's `int(x)` on a float: truncation toward zero. */
  function Trunc(x: real): (n: int)
    ensures x >= 0.0 ==> n as real <= x < n as real + 1.0
    ensures x < 0.0 ==> n as real - 1.0 < x <= n as real
  {
    if x >= 0.0 then x.Floor else -((-x).Floor)
  }
}

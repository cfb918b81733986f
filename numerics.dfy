/**
 * Exact counterparts of the Python numeric built-ins the system relies on,
 * stated over mathematical reals: `round` (half to even), `round(x, d)`,
 * `int()` (truncation toward zero), an integer power, and clamping.
 */
module Numerics {

  /** Python's `round(x)`: the nearest integer, ties going to the even one. */
  function RoundHalfEven(x: real): (r: int)
    ensures x - 0.5 <= r as real <= x + 0.5
    ensures (r as real - x == 0.5 || x - r as real == 0.5) ==> r % 2 == 0
  {
    var f := x.Floor;
    var d := x - f as real;
    if d < 0.5 then f
    else if d > 0.5 then f + 1
    else if f % 2 == 0 then f
    else f + 1
  }

  /** Rounding never reverses the order of its arguments. */
  lemma RoundMonotone(x: real, y: real)
    requires x <= y
    ensures RoundHalfEven(x) <= RoundHalfEven(y)
  {
  }

  /** An integer is its own rounding. */
  lemma RoundOfInteger(n: int)
    ensures RoundHalfEven(n as real) == n
  {
  }

  /** 10^d as a real. */
  function Pow10(d: nat): (r: real)
    ensures r >= 1.0
  {
    if d == 0 then 1.0 else 10.0 * Pow10(d - 1)
  }

  /** Python's `round(x, d)` for d >= 0, in exact decimal arithmetic; `scale` is 10^d. */
  function RoundTo(x: real, scale: real): real
    requires scale > 0.0
  {
    (RoundHalfEven(x * scale) as real) / scale
  }

  lemma RoundToMonotone(x: real, y: real, scale: real)
    requires x <= y && scale > 0.0
    ensures RoundTo(x, scale) <= RoundTo(y, scale)
  {
    assert x * scale <= y * scale;
    RoundMonotone(x * scale, y * scale);
    var a, b := RoundHalfEven(x * scale) as real, RoundHalfEven(y * scale) as real;
    DivideByPositive(a, b, scale);
  }

  /** Multiplying by a positive factor keeps an order. */
  lemma ScaleMonotone(a: real, b: real, s: real)
    requires a <= b && s > 0.0
    ensures a * s <= b * s
  {
    assert (b - a) * s >= 0.0;
  }

  /** A negative amount smaller than a positive divisor gives a quotient strictly between -1 and 0. */
  lemma QuotientInOpenUnit(a: real, z: real)
    requires z > 0.0 && -z < a < 0.0
    ensures -1.0 < a / z < 0.0
  {
    var t := a / z;
    assert t * z == a;
    if t >= 0.0 {
      ScaleMonotone(0.0, t, z);
      assert false;
    }
    if t <= -1.0 {
      ScaleMonotone(t, -1.0, z);
      assert false;
    }
  }

  lemma DivideByPositive(a: real, b: real, p: real)
    requires a <= b && p > 0.0
    ensures a / p <= b / p
  {
    var q := (b - a) / p;
    assert q * p == b - a;
    assert b / p - a / p == q;
  }

  /** Python's `int(x)` on a float: truncation toward zero. */
  function Trunc(x: real): (r: int)
    ensures 0.0 <= x ==> 0 <= r && r as real <= x < r as real + 1.0
    ensures x < 0.0 ==> r <= 0 && r as real - 1.0 < x <= r as real
  {
    if x >= 0.0 then x.Floor else -((-x).Floor)
  }

  lemma TruncMonotone(x: real, y: real)
    requires 0.0 <= x <= y
    ensures Trunc(x) <= Trunc(y)
  {
  }

  /** Truncation separates two non-negative reals at least one apart. */
  lemma TruncStrict(x: real, y: real)
    requires 0.0 <= x && x + 1.0 <= y
    ensures Trunc(x) < Trunc(y)
  {
  }

  /** `b ** n` for a natural exponent, as Python computes `(1 + rate) ** years`. */
  function Pow(b: real, n: nat): real
  {
    if n == 0 then 1.0 else b * Pow(b, n - 1)
  }

  lemma {:induction false} PowAtLeastOne(b: real, n: nat)
    requires b >= 1.0
    ensures Pow(b, n) >= 1.0
  {
    if n > 0 {
      PowAtLeastOne(b, n - 1);
      assert b * Pow(b, n - 1) >= 1.0 * Pow(b, n - 1);
    }
  }

  /** A base of at least one gives a power that grows with the exponent. */
  lemma {:induction false} PowMonotone(b: real, m: nat, n: nat)
    requires b >= 1.0 && m <= n
    ensures Pow(b, m) <= Pow(b, n)
    decreases n
  {
    if m < n {
      PowMonotone(b, m, n - 1);
      PowAtLeastOne(b, n - 1);
      assert b * Pow(b, n - 1) >= 1.0 * Pow(b, n - 1);
    }
  }

  /** Python's `max(lo, min(v, hi))`. */
  function Clamp(v: int, lo: int, hi: int): (r: int)
    ensures lo <= hi ==> lo <= r <= hi
    ensures lo <= v <= hi ==> r == v
    ensures r == lo || r == hi || r == v
  {
    var m := if v < hi then v else hi;
    if lo < m then m else lo
  }
}

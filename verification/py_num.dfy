/**
 * The numeric rules of Python that the source relies on, stated on Dafny's
 * exact reals: `round` (ties to even), `round(x, n)`, `int()` on a float
 * (truncation toward zero) and `numpy.clip`.
 */
module PyNum {

  /** Python's `round(x)`: the nearest integer, ties going to the even one. */
  function RoundHalfEven(x: real): (r: int)
    ensures -0.5 <= x - r as real <= 0.5
    ensures x == x.Floor as real ==> r == x.Floor
    ensures (x - r as real == 0.5 || r as real - x == 0.5) ==> r % 2 == 0
  {
    var f := x.Floor;
    var d := x - f as real;
    if d < 0.5 then f
    else if d > 0.5 then f + 1
    else if f % 2 == 0 then f
    else f + 1
  }

  function Pow10(n: nat): (p: nat)
    ensures p >= 1
  {
    if n == 0 then 1 else 10 * Pow10(n - 1)
  }

  /** Python's `round(x, n)`: x rounded to n decimal places. */
  function RoundTo(x: real, n: nat): (r: real)
    ensures var p := Pow10(n) as real; -0.5 <= (x - r) * p <= 0.5
  {
    var p := Pow10(n) as real;
    var k := RoundHalfEven(x * p);
    assert (x - k as real / p) * p == x * p - k as real;
    k as real / p
  }

  /** Python's `int(x)` on a float: truncation toward zero. */
  function Trunc(x: real): (r: int)
    ensures x >= 0.0 ==> 0 <= r && r as real <= x < r as real + 1.0
    ensures x < 0.0 ==> r <= 0 && r as real - 1.0 < x <= r as real
  {
    if x >= 0.0 then x.Floor else -((-x).Floor)
  }

  /** `numpy.clip(x, lo, hi)` for an ordered pair of bounds. */
  function Clip(x: real, lo: real, hi: real): (r: real)
    requires lo <= hi
    ensures lo <= r <= hi
    ensures lo <= x <= hi ==> r == x
    ensures x < lo ==> r == lo
    ensures x > hi ==> r == hi
  {
    if x < lo then lo else if x > hi then hi else x
  }

  /** Python's `max(lo, min(hi, x))`, the clamp the evaluation metrics use. */
  function Clamp01(x: real): (r: real)
    ensures 0.0 <= r <= 1.0
    ensures 0.0 <= x <= 1.0 ==> r == x
  {
    Clip(x, 0.0, 1.0)
  }
}

/** Python's conversions from a float to a whole or rounded number, on exact reals:
    `int(x)` truncates toward zero, `round(x)` rounds to the nearest integer with
    ties going to the even neighbour, and `round(x, 2)` does the same at the
    second decimal place. */
module PyNum {

  /** `int(x)`: drop the fractional part, toward zero. */
  function Trunc(x: real): (r: int)
    ensures x >= 0.0 ==> r as real <= x < r as real + 1.0
    ensures x < 0.0 ==> r as real - 1.0 < x <= r as real
  {
    if x >= 0.0 then x.Floor else -((-x).Floor)
  }

  /** `round(x)`: the nearest integer; of two equally near, the even one. */
  function Round(x: real): (r: int)
    ensures x - 0.5 <= r as real <= x + 0.5
    ensures (r as real == x - 0.5 || r as real == x + 0.5) ==> r % 2 == 0
  {
    var f := x.Floor;
    var frac := x - f as real;
    if frac < 0.5 then f
    else if frac > 0.5 then f + 1
    else if f % 2 == 0 then f
    else f + 1
  }

  /** `round(x, 2)`: the nearest multiple of 1/100, ties to an even number of hundredths. */
  function Round2(x: real): (r: real)
    ensures x - 0.005 <= r <= x + 0.005
    ensures (r * 100.0).Floor as real == r * 100.0
  {
    Round(x * 100.0) as real / 100.0
  }

  /** A whole number rounds to itself. */
  lemma RoundWhole(n: int)
    ensures Round(n as real) == n
  {
  }

  /** Rounding never reverses the order of two numbers. */
  lemma RoundMonotone(x: real, y: real)
    requires x <= y
    ensures Round(x) <= Round(y)
  {
  }

  /** Rounding to two places a second time changes nothing, so the source's
      `round(round(x, 2), 2)` equals `round(x, 2)`. */
  lemma Round2Idempotent(x: real)
    ensures Round2(Round2(x)) == Round2(x)
  {
    var k := Round(x * 100.0);
    assert Round2(x) * 100.0 == k as real;
    RoundWhole(k);
  }
}

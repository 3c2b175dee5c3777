/** Exact arithmetic helpers standing in for the JavaScript `Math` functions
    the tracker uses. Every number is a `real`, so no rounding error creeps in
    except where the program itself rounds. */
module Numeric {

  /** JavaScript `Math.round`: the nearest integer, halves going toward
      positive infinity (so -2.5 rounds to -2, not -3). */
  function Round(x: real): (r: int)
    ensures x - 1.0 / 2.0 < r as real <= x + 1.0 / 2.0
  {
    (x + 1.0 / 2.0).Floor
  }

  /** `Math.round` is determined by its nearest-integer property: any integer
      within the half-open window around `x` is the rounded value. */
  lemma RoundUnique(x: real, n: int)
    requires x - 1.0 / 2.0 < n as real <= x + 1.0 / 2.0
    ensures Round(x) == n
  {
    var r := Round(x);
    assert x - 1.0 / 2.0 < r as real <= x + 1.0 / 2.0;
    assert (r - n) as real < 1.0 && (n - r) as real < 1.0;
  }

  /** Rounding preserves order. */
  lemma RoundMonotone(x: real, y: real)
    requires x <= y
    ensures Round(x) <= Round(y)
  {
  }

  /** Halves go up: `Math.round(-2.5)` is -2 and `Math.round(2.5)` is 3. */
  lemma RoundHalves()
    ensures Round(-5.0 / 2.0) == -2
    ensures Round(5.0 / 2.0) == 3
  {
    RoundUnique(-5.0 / 2.0, -2);
    RoundUnique(5.0 / 2.0, 3);
  }

  /** Rounding an integer gives it back. */
  lemma RoundInt(n: int)
    ensures Round(n as real) == n
  {
    RoundUnique(n as real, n);
  }

  /** `Math.min` on two numbers. */
  function Min(a: real, b: real): (r: real)
    ensures r <= a && r <= b
    ensures r == a || r == b
  {
    if a <= b then a else b
  }

  /** `Math.max` on two numbers. */
  function Max(a: real, b: real): (r: real)
    ensures r >= a && r >= b
    ensures r == a || r == b
  {
    if a >= b then a else b
  }

  /** `Math.min` on two integers (the rounded percentages). */
  function MinInt(a: int, b: int): (r: int)
    ensures r <= a && r <= b
    ensures r == a || r == b
  {
    if a <= b then a else b
  }

  /** `Math.max` on two integers. */
  function MaxInt(a: int, b: int): (r: int)
    ensures r >= a && r >= b
    ensures r == a || r == b
  {
    if a >= b then a else b
  }

  /** `Math.abs` on an integer. */
  function Abs(n: int): (r: nat)
    ensures r == n || r == -n
  {
    if n < 0 then -n else n
  }
}

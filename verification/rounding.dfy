/** The three rounding operations the source relies on, written out for exact
    (decimal) arithmetic: Python's `int(x)` (truncation toward zero),
    Python's `round(x)` (to the nearest integer, ties to even) and
    `round(x, 2)` (to the nearest cent, ties to an even cent). */
module Rounding {

  /** `int(x)`: truncation toward zero. */
  function Truncate(x: real): (n: int)
    ensures 0.0 <= x ==> n as real <= x < n as real + 1.0
    ensures x < 0.0 ==> n as real - 1.0 < x <= n as real
  {
    if x >= 0.0 then x.Floor else -((-x).Floor)
  }

  /** `round(x)`: the nearest integer, a tie going to the even neighbour. */
  function RoundHalfEven(x: real): (n: int)
    ensures -0.5 <= x - n as real <= 0.5
    ensures (x - n as real == 0.5 || x - n as real == -0.5) ==> n % 2 == 0
  {
    var f := x.Floor;
    var d := x - f as real;
    if d < 0.5 then f
    else if d > 0.5 then f + 1
    else if f % 2 == 0 then f
    else f + 1
  }

  /** The two properties in RoundHalfEven's contract single out its result. */
  lemma RoundHalfEvenUnique(x: real, m: int)
    requires -0.5 < x - m as real < 0.5 || ((x - m as real == 0.5 || x - m as real == -0.5) && m % 2 == 0)
    ensures RoundHalfEven(x) == m
  {
  }

  lemma RoundHalfEvenOfInteger(n: int)
    ensures RoundHalfEven(n as real) == n
  {
    RoundHalfEvenUnique(n as real, n);
  }

  lemma RoundHalfEvenMonotone(x: real, y: real)
    requires x <= y
    ensures RoundHalfEven(x) <= RoundHalfEven(y)
  {
  }

  /** An amount that is a whole number of cents. */
  predicate IsCents(x: real) {
    (x * 100.0).Floor as real == x * 100.0
  }

  /** A whole number of cents, as an amount. */
  lemma CentsOfWhole(n: int)
    ensures IsCents(n as real / 100.0)
  {
    var r := n as real / 100.0;
    assert r * 100.0 == n as real;
  }

  /** `round(x, 2)`. */
  function RoundCents(x: real): (r: real)
    ensures -0.005 <= r - x <= 0.005
    ensures IsCents(r)
  {
    CentsOfWhole(RoundHalfEven(x * 100.0));
    RoundHalfEven(x * 100.0) as real / 100.0
  }

  lemma CentsSum(a: real, b: real)
    requires IsCents(a) && IsCents(b)
    ensures IsCents(a + b)
  {
    var na, nb := (a * 100.0).Floor, (b * 100.0).Floor;
    assert (a + b) * 100.0 == (na + nb) as real;
  }

  lemma CentsZero()
    ensures IsCents(0.0)
  {
  }

  /** Rounding an amount that is already whole cents leaves it unchanged. */
  lemma RoundCentsOfCents(x: real)
    requires IsCents(x)
    ensures RoundCents(x) == x
  {
    var n := (x * 100.0).Floor;
    RoundHalfEvenOfInteger(n);
    assert x * 100.0 == n as real;
  }

  lemma RoundCentsMonotone(x: real, y: real)
    requires x <= y
    ensures RoundCents(x) <= RoundCents(y)
  {
    RoundHalfEvenMonotone(x * 100.0, y * 100.0);
  }
}

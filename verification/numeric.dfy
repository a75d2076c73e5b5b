/** Exact arithmetic shared by the tax engine, the configuration provider and
    the simulators: minimum and maximum, natural and integer powers, and sums
    of sequences of amounts. */
module Numeric {

  function Min(a: real, b: real): real
  {
    if a <= b then a else b
  }

  function Max(a: real, b: real): real
  {
    if a >= b then a else b
  }

  /** Min is monotone in both arguments. */
  lemma MinMonotone(a1: real, b1: real, a2: real, b2: real)
    requires a1 <= a2 && b1 <= b2
    ensures Min(a1, b1) <= Min(a2, b2)
  {
  }

  /** A rate applied to an amount.  Naming the product lets proofs about
      tiered and capped amounts reason about it as one quantity. */
  function Scale(rate: real, amount: real): real
  {
    rate * amount
  }

  lemma ScaleNonNegative(rate: real, amount: real)
    requires rate >= 0.0 && amount >= 0.0
    ensures Scale(rate, amount) >= 0.0
  {
    MulNonNegative(rate, amount);
  }

  lemma ScalePositive(rate: real, amount: real)
    requires rate > 0.0 && amount > 0.0
    ensures Scale(rate, amount) > 0.0
  {
    MulAtLeastOne(rate, amount);
  }

  lemma ScaleMonotone(rate: real, a: real, b: real)
    requires rate >= 0.0 && a <= b
    ensures Scale(rate, a) <= Scale(rate, b)
  {
    MulLeftMonotone(rate, a, b);
  }

  lemma ScaleRateMonotone(r1: real, r2: real, amount: real)
    requires r1 <= r2 && amount >= 0.0
    ensures Scale(r1, amount) <= Scale(r2, amount)
  {
    MulLeftMonotone(amount, r1, r2);
  }

  /** `x ** n` for a natural exponent. */
  function Pow(x: real, n: nat): real
  {
    if n == 0 then 1.0 else x * Pow(x, n - 1)
  }

  lemma {:induction false} PowPositive(x: real, n: nat)
    requires x > 0.0
    ensures Pow(x, n) > 0.0
  {
    if n > 0 {
      PowPositive(x, n - 1);
      MulAtLeastOne(x, Pow(x, n - 1));
    }
  }

  lemma {:induction false} PowAtLeastOne(x: real, n: nat)
    requires x >= 1.0
    ensures Pow(x, n) >= 1.0
  {
    if n > 0 {
      PowAtLeastOne(x, n - 1);
      MulAtLeastOne(x, Pow(x, n - 1));
    }
  }

  /** `x ** e` for an integer exponent of either sign, as Python evaluates it
      for a positive base. */
  function PowInt(x: real, e: int): (p: real)
    requires x > 0.0
    ensures p > 0.0
  {
    if e >= 0 then PowPositive(x, e); Pow(x, e)
    else PowPositive(x, -e); 1.0 / Pow(x, -e)
  }

  lemma MulAtLeastOne(x: real, y: real)
    ensures x > 0.0 && y > 0.0 ==> x * y > 0.0
    ensures x >= 1.0 && y >= 1.0 ==> x * y >= 1.0
  {
    if x >= 1.0 && y >= 1.0 {
      assert x * y >= 1.0 * y;
    }
  }

  lemma MulAssociative(a: real, b: real, c: real)
    ensures a * (b * c) == (a * b) * c
  {
  }

  lemma MulNonNegative(a: real, b: real)
    requires a >= 0.0 && b >= 0.0
    ensures a * b >= 0.0
  {
  }

  /** Multiplying both sides of an inequality by a non-negative factor. */
  lemma MulLeftMonotone(c: real, a: real, b: real)
    requires c >= 0.0 && a <= b
    ensures c * a <= c * b
  {
    assert c * b - c * a == c * (b - a);
  }

  /** Multiplying both sides of an inequality by a non-negative factor on
      the right. */
  lemma MulRightMonotone(a: real, b: real, c: real)
    requires c >= 0.0 && a <= b
    ensures a * c <= b * c
  {
    MulLeftMonotone(c, a, b);
  }

  lemma {:induction false} PowNonNegative(x: real, n: nat)
    requires x >= 0.0
    ensures Pow(x, n) >= 0.0
  {
    if n > 0 {
      PowNonNegative(x, n - 1);
      MulNonNegative(x, Pow(x, n - 1));
    }
  }

  /** Powers of a non-negative base are monotone in the base. */
  lemma {:induction false} PowMonotoneBase(x: real, y: real, n: nat)
    requires 0.0 <= x <= y
    ensures Pow(x, n) <= Pow(y, n)
  {
    if n > 0 {
      PowMonotoneBase(x, y, n - 1);
      PowNonNegative(y, n - 1);
      MulLeftMonotone(x, Pow(x, n - 1), Pow(y, n - 1));
      MulRightMonotone(x, y, Pow(y, n - 1));
    }
  }

  /** An amount grown for a whole number of years at a fixed yearly rate,
      `amount * (1 + rate) ** years`. */
  function Compounded(amount: real, years: nat, rate: real): real
  {
    amount * Pow(1.0 + rate, years)
  }

  lemma {:induction false} PowAdd(x: real, m: nat, n: nat)
    ensures Pow(x, m + n) == Pow(x, m) * Pow(x, n)
    decreases m
  {
    if m > 0 {
      PowAdd(x, m - 1, n);
      assert Pow(x, m + n) == x * Pow(x, m - 1 + n);
      MulAssociative(x, Pow(x, m - 1), Pow(x, n));
    }
  }

  /** Growing for `m` years and then for `n` more is growing for `m + n`. */
  lemma CompoundedTwice(amount: real, m: nat, n: nat, rate: real)
    ensures Compounded(Compounded(amount, m, rate), n, rate) == Compounded(amount, m + n, rate)
  {
    PowAdd(1.0 + rate, m, n);
  }

  /** One year of growth followed by `n` more is `n + 1` years of growth. */
  lemma CompoundedStep(amount: real, n: nat, rate: real)
    ensures Compounded(Scale(amount, 1.0 + rate), n, rate) == Compounded(amount, n + 1, rate)
  {
    MulAssociative(amount, 1.0 + rate, Pow(1.0 + rate, n));
  }

  /** A non-negative rate never shrinks a non-negative amount. */
  lemma CompoundedGrows(amount: real, years: nat, rate: real)
    requires rate >= 0.0 && amount >= 0.0
    ensures Compounded(amount, years, rate) >= amount
  {
    PowAtLeastOne(1.0 + rate, years);
    MulLeftMonotone(amount, 1.0, Pow(1.0 + rate, years));
  }

  /** A positive amount stays positive at any rate above -100%. */
  lemma CompoundedPositive(amount: real, years: nat, rate: real)
    requires rate > -1.0 && amount > 0.0
    ensures Compounded(amount, years, rate) > 0.0
  {
    PowPositive(1.0 + rate, years);
    MulAtLeastOne(amount, Pow(1.0 + rate, years));
  }

  /** Sum of a sequence, accumulated left to right as the source's loops do. */
  function Sum(s: seq<real>): real
  {
    if |s| == 0 then 0.0 else Sum(s[..|s| - 1]) + s[|s| - 1]
  }

  lemma {:induction false} SumCons(a: real, t: seq<real>)
    ensures Sum([a] + t) == a + Sum(t)
  {
    if |t| > 0 {
      var s := [a] + t;
      assert s[..|s| - 1] == [a] + t[..|t| - 1];
      SumCons(a, t[..|t| - 1]);
    }
  }

  /** Dividing by a non-zero amount and multiplying back gives the original. */
  lemma DivisionUndone(x: real, y: real)
    requires y != 0.0
    ensures x / y * y == x
  {
  }
}

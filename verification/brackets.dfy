/** The progressive bracket walk shared by the federal ordinary-income tax and
    the California tax (tax_estimate.py:68-77 and 108-117), and the
    preferential-rate lookup of the federal tax (tax_estimate.py:45-58).

    The walk taxes each bracket's share `min(remaining, upper - lower + 1)` at
    that bracket's rate and stops once nothing remains.  It uses only the
    widths of the brackets, never their positions, so nothing here assumes
    that consecutive brackets meet: the literal California tables overlap at
    several boundaries. */
module Brackets {
  import opened Numeric
  import opened TaxTypes

  /** `upper - lower + 1`, infinite for the top bracket. */
  function Width(b: Bracket): Bound
  {
    match b.upper
    case Unbounded => Unbounded
    case Finite(u) => Finite(u - b.lower + 1.0)
  }

  /** The amount of the remaining income that one bracket takes. */
  function ShareOf(b: Bracket, remaining: real): (a: real)
    ensures a <= remaining
    ensures Width(b).Finite? ==> a <= Width(b).value
    ensures Width(b).Unbounded? ==> a == remaining
  {
    match Width(b)
    case Unbounded => remaining
    case Finite(w) => Min(remaining, w)
  }

  /** The shares of income the walk assigns to the brackets, in order.  The
      walk stops at the first bracket it reaches with nothing remaining, so
      the list may be shorter than the table. */
  function Shares(brackets: seq<Bracket>, income: real): (s: seq<real>)
    ensures |s| <= |brackets|
    decreases |brackets|
  {
    if |brackets| == 0 || income <= 0.0 then []
    else
      var a := ShareOf(brackets[0], income);
      [a] + Shares(brackets[1..], income - a)
  }

  /** The tax the walk accumulates: each share times its bracket's rate. */
  function BracketTax(brackets: seq<Bracket>, income: real): real
    decreases |brackets|
  {
    if |brackets| == 0 || income <= 0.0 then 0.0
    else
      var a := ShareOf(brackets[0], income);
      Scale(brackets[0].rate, a) + BracketTax(brackets[1..], income - a)
  }

  /** Sum of `shares[k] * brackets[k].rate`. */
  function RateWeighted(shares: seq<real>, brackets: seq<Bracket>): real
    requires |shares| <= |brackets|
  {
    if |shares| == 0 then 0.0
    else Scale(brackets[0].rate, shares[0]) + RateWeighted(shares[1..], brackets[1..])
  }

  /** Every finite bracket has a non-negative width. */
  predicate NonNegativeWidths(brackets: seq<Bracket>)
  {
    forall k :: 0 <= k < |brackets| ==> Width(brackets[k]).Finite? ==> Width(brackets[k]).value >= 0.0
  }

  predicate NonNegativeRates(brackets: seq<Bracket>)
  {
    forall k :: 0 <= k < |brackets| ==> brackets[k].rate >= 0.0
  }

  predicate EndsUnbounded(brackets: seq<Bracket>)
  {
    |brackets| > 0 && brackets[|brackets| - 1].upper.Unbounded?
  }

  /** The accumulated tax is the rate-weighted sum of the shares. */
  lemma {:induction false} BracketTaxIsRateWeightedShares(brackets: seq<Bracket>, income: real)
    ensures BracketTax(brackets, income) == RateWeighted(Shares(brackets, income), brackets)
    decreases |brackets|
  {
    if |brackets| > 0 && income > 0.0 {
      var a := ShareOf(brackets[0], income);
      BracketTaxIsRateWeightedShares(brackets[1..], income - a);
      var s := Shares(brackets, income);
      assert s[1..] == Shares(brackets[1..], income - a);
    }
  }

  /** No share exceeds its bracket's width. */
  lemma {:induction false} SharesWithinWidths(brackets: seq<Bracket>, income: real)
    ensures var s := Shares(brackets, income);
      forall k :: 0 <= k < |s| ==> Width(brackets[k]).Finite? ==> s[k] <= Width(brackets[k]).value
    decreases |brackets|
  {
    if |brackets| > 0 && income > 0.0 {
      var a := ShareOf(brackets[0], income);
      SharesWithinWidths(brackets[1..], income - a);
      assert forall k :: 1 <= k < |brackets| ==> brackets[k] == brackets[1..][k - 1];
    }
  }

  /** A bracket is reached only while something remains, and its share is
      at most what remains. */
  lemma {:induction false} ShareWithinRemaining(brackets: seq<Bracket>, income: real, k: nat)
    requires k < |Shares(brackets, income)|
    ensures var s := Shares(brackets, income);
      0.0 < income - Sum(s[..k]) && s[k] <= income - Sum(s[..k])
    decreases k
  {
    var s := Shares(brackets, income);
    var a := ShareOf(brackets[0], income);
    var t := Shares(brackets[1..], income - a);
    assert s == [a] + t;
    PrefixSum(a, t, k);
    if k == 0 {
      assert s[..k] == [];
    } else {
      ShareWithinRemaining(brackets[1..], income - a, k - 1);
      assert s[k] == t[k - 1];
    }
  }

  /** The walk ends before the last bracket only once nothing remains. */
  lemma {:induction false} WalkStopsWhenExhausted(brackets: seq<Bracket>, income: real)
    ensures var s := Shares(brackets, income);
      |s| < |brackets| ==> income - Sum(s) <= 0.0
    decreases |brackets|
  {
    if |brackets| > 0 && income > 0.0 {
      var a := ShareOf(brackets[0], income);
      WalkStopsWhenExhausted(brackets[1..], income - a);
      SumCons(a, Shares(brackets[1..], income - a));
    }
  }

  /** A prefix of `[a] + t` sums to `a` plus the matching prefix of `t`. */
  lemma PrefixSum(a: real, t: seq<real>, k: nat)
    requires k <= |t| + 1
    ensures Sum(([a] + t)[..k]) == if k == 0 then 0.0 else a + Sum(t[..k - 1])
  {
    if k > 0 {
      assert ([a] + t)[..k] == [a] + t[..k - 1];
      SumCons(a, t[..k - 1]);
    }
  }

  /** With an unbounded top bracket the shares account for the whole
      (positive) income: nothing is left untaxed and nothing is taxed twice. */
  lemma {:induction false} SharesCoverIncome(brackets: seq<Bracket>, income: real)
    requires EndsUnbounded(brackets)
    ensures Sum(Shares(brackets, income)) == Max(0.0, income)
    decreases |brackets|
  {
    if income > 0.0 {
      var a := ShareOf(brackets[0], income);
      var t := Shares(brackets[1..], income - a);
      SumCons(a, t);
      if |brackets| == 1 {
        assert t == [];
      } else {
        SharesCoverIncome(brackets[1..], income - a);
      }
    }
  }

  lemma {:induction false} BracketTaxNonNegative(brackets: seq<Bracket>, income: real)
    requires NonNegativeWidths(brackets) && NonNegativeRates(brackets)
    ensures BracketTax(brackets, income) >= 0.0
    decreases |brackets|
  {
    if |brackets| > 0 && income > 0.0 {
      var a := ShareOf(brackets[0], income);
      BracketTaxNonNegative(brackets[1..], income - a);
      ScaleNonNegative(brackets[0].rate, a);
    }
  }

  /** A bracket takes no less of a larger remainder, and leaves no less of it. */
  lemma ShareOfMonotone(b: Bracket, x: real, y: real)
    requires x <= y
    ensures ShareOf(b, x) <= ShareOf(b, y)
    ensures x - ShareOf(b, x) <= y - ShareOf(b, y)
  {
  }

  /** More income never means less bracket tax, provided no bracket has a
      negative width and no rate is negative. */
  lemma {:induction false} BracketTaxMonotone(brackets: seq<Bracket>, x: real, y: real)
    requires NonNegativeWidths(brackets) && NonNegativeRates(brackets)
    requires x <= y
    ensures BracketTax(brackets, x) <= BracketTax(brackets, y)
    decreases |brackets|
  {
    if |brackets| == 0 {
    } else if x <= 0.0 {
      BracketTaxNonNegative(brackets, y);
    } else {
      ShareOfMonotone(brackets[0], x, y);
      BracketTaxMonotone(brackets[1..], x - ShareOf(brackets[0], x), y - ShareOf(brackets[0], y));
      ScaleMonotone(brackets[0].rate, ShareOf(brackets[0], x), ShareOf(brackets[0], y));
    }
  }

  /** The membership test as the lookup writes it: Python's
      `lower <= x <= upper or (lower <= x and upper == inf)`.  The tables
      use whole-dollar bounds, so an income strictly between one bracket's
      upper bound and the next bracket's lower bound is in neither. */
  predicate InBracketAsWritten(b: Bracket, x: real)
  {
    (b.lower <= x && b.upper.Finite? && x <= b.upper.value)
    || (b.lower <= x && b.upper.Unbounded?)
  }

  /** The lookup as written: the rate of the first bracket that contains `x`
      by `InBracketAsWritten`, or 0 when none does, which includes an income
      in the one-dollar gap between two brackets. */
  function PreferentialRateAsWritten(brackets: seq<Bracket>, x: real): (rate: real)
    ensures (forall k :: 0 <= k < |brackets| ==> !InBracketAsWritten(brackets[k], x)) ==> rate == 0.0
    ensures forall k ::
      (0 <= k < |brackets| && InBracketAsWritten(brackets[k], x)
       && forall j :: 0 <= j < k ==> !InBracketAsWritten(brackets[j], x))
      ==> rate == brackets[k].rate
    decreases |brackets|
  {
    if |brackets| == 0 then 0.0
    else if InBracketAsWritten(brackets[0], x) then brackets[0].rate
    else
      var r := PreferentialRateAsWritten(brackets[1..], x);
      assert forall k :: 1 <= k < |brackets| ==> brackets[k] == brackets[1..][k - 1];
      r
  }

  /** Corrected membership: a bracket holds every income above `lower - 1`,
      the previous bracket's upper bound in a whole-dollar table, up to its
      own upper bound, so consecutive brackets leave no gap. */
  predicate InBracket(b: Bracket, x: real)
  {
    b.lower - 1.0 < x && (b.upper.Unbounded? || x <= b.upper.value)
  }

  /** The preferential-rate lookup the model uses: the rate of the first
      bracket that contains `x` by `InBracket`, or 0 when none does. */
  function PreferentialRate(brackets: seq<Bracket>, x: real): (rate: real)
    ensures (forall k :: 0 <= k < |brackets| ==> !InBracket(brackets[k], x)) ==> rate == 0.0
    ensures forall k ::
      (0 <= k < |brackets| && InBracket(brackets[k], x) && forall j :: 0 <= j < k ==> !InBracket(brackets[j], x))
      ==> rate == brackets[k].rate
    decreases |brackets|
  {
    if |brackets| == 0 then 0.0
    else if InBracket(brackets[0], x) then brackets[0].rate
    else
      var r := PreferentialRate(brackets[1..], x);
      assert forall k :: 1 <= k < |brackets| ==> brackets[k] == brackets[1..][k - 1];
      r
  }

  /** Every bracket has a whole-dollar lower bound. */
  predicate WholeDollarLowers(brackets: seq<Bracket>)
  {
    forall k :: 0 <= k < |brackets| ==> brackets[k].lower == brackets[k].lower.Floor as real
  }

  /** On a whole-dollar income the corrected lookup and the lookup as
      written agree: the correction changes only incomes inside a gap. */
  lemma {:induction false} PreferentialRateAgreesOnWholeDollars(brackets: seq<Bracket>, n: int)
    requires WholeDollarLowers(brackets)
    ensures PreferentialRate(brackets, n as real) == PreferentialRateAsWritten(brackets, n as real)
    decreases |brackets|
  {
    if |brackets| > 0 {
      var b, lo := brackets[0], brackets[0].lower.Floor;
      assert b.lower == lo as real;
      assert (b.lower - 1.0 < n as real) == (lo - 1 < n) == (lo <= n) == (b.lower <= n as real);
      if !InBracket(b, n as real) {
        assert forall k :: 0 <= k < |brackets| - 1 ==> brackets[1..][k] == brackets[k + 1];
        PreferentialRateAgreesOnWholeDollars(brackets[1..], n);
      }
    }
  }

  /** Consecutive brackets meet: every bracket but the last has an upper
      bound, the next one starts one dollar above it, and no bracket ends
      below its own lower bound. */
  predicate Contiguous(brackets: seq<Bracket>)
  {
    && (forall k :: 0 <= k < |brackets| - 1 ==>
          brackets[k].upper.Finite? && brackets[k + 1].lower == brackets[k].upper.value + 1.0)
    && (forall k :: 0 <= k < |brackets| ==> brackets[k].upper.Finite? ==> brackets[k].lower <= brackets[k].upper.value)
  }

  /** Rates never fall from one bracket to the next. */
  predicate AscendingRates(brackets: seq<Bracket>)
  {
    forall j, k :: 0 <= j < k < |brackets| ==> brackets[j].rate <= brackets[k].rate
  }

  /** The tail of a table keeps each of its shape properties. */
  lemma TailKeepsShape(brackets: seq<Bracket>)
    requires |brackets| > 1
    ensures Contiguous(brackets) ==> Contiguous(brackets[1..])
    ensures AscendingRates(brackets) ==> AscendingRates(brackets[1..])
    ensures NonNegativeRates(brackets) ==> NonNegativeRates(brackets[1..])
    ensures EndsUnbounded(brackets) ==> EndsUnbounded(brackets[1..])
  {
    assert forall k :: 0 <= k < |brackets| - 1 ==> brackets[1..][k] == brackets[k + 1];
  }

  lemma {:induction false} PreferentialRateNonNegative(brackets: seq<Bracket>, x: real)
    requires NonNegativeRates(brackets)
    ensures PreferentialRate(brackets, x) >= 0.0
    decreases |brackets|
  {
    if |brackets| > 0 && !InBracket(brackets[0], x) {
      PreferentialRateNonNegative(brackets[1..], x);
    }
  }

  /** An income at or below `lower - 1` of the first bracket of a contiguous
      table is in no bracket. */
  lemma {:induction false} BelowTableRateZero(brackets: seq<Bracket>, x: real)
    requires |brackets| > 0 && Contiguous(brackets) && x <= brackets[0].lower - 1.0
    ensures PreferentialRate(brackets, x) == 0.0
    decreases |brackets|
  {
    if |brackets| > 1 {
      TailKeepsShape(brackets);
      BelowTableRateZero(brackets[1..], x);
    }
  }

  /** Past `lower - 1` of the first bracket, a contiguous table that ends
      unbounded always finds a bracket, and with ascending rates the rate is
      at least the first bracket's. */
  lemma {:induction false} RateAtLeastFirst(brackets: seq<Bracket>, x: real)
    requires Contiguous(brackets) && EndsUnbounded(brackets) && AscendingRates(brackets)
    requires x > brackets[0].lower - 1.0
    ensures PreferentialRate(brackets, x) >= brackets[0].rate
    decreases |brackets|
  {
    if !InBracket(brackets[0], x) {
      TailKeepsShape(brackets);
      RateAtLeastFirst(brackets[1..], x);
    }
  }

  /** A table whose brackets meet, whose last bracket is unbounded and
      whose rates are non-negative and ascending. */
  predicate Orderly(brackets: seq<Bracket>)
  {
    Contiguous(brackets) && EndsUnbounded(brackets) && AscendingRates(brackets) && NonNegativeRates(brackets)
  }

  /** A three-bracket table of whole-dollar bounds starting at 0, like every
      preferential table, is orderly when its bounds and rates rise. */
  lemma ThreeBracketsOrderly(t: seq<Bracket>)
    requires |t| == 3 && t[0].lower == 0.0
    requires t[0].upper.Finite? && t[1].upper.Finite? && t[2].upper.Unbounded?
    requires t[1].lower == t[0].upper.value + 1.0 && t[2].lower == t[1].upper.value + 1.0
    requires 0.0 <= t[0].upper.value && t[0].upper.value + 1.0 <= t[1].upper.value
    requires 0.0 <= t[0].rate <= t[1].rate <= t[2].rate
    requires t[0].upper.value == t[0].upper.value.Floor as real && t[1].upper.value == t[1].upper.value.Floor as real
    ensures Orderly(t) && WholeDollarLowers(t)
  {
    assert t[1].lower == (t[0].upper.value.Floor + 1) as real;
    assert t[2].lower == (t[1].upper.value.Floor + 1) as real;
  }

  /** With the corrected membership, on an orderly table more income never
      finds a lower preferential rate. */
  lemma {:induction false} PreferentialRateMonotone(brackets: seq<Bracket>, x: real, y: real)
    requires Orderly(brackets)
    requires x <= y
    ensures PreferentialRate(brackets, x) <= PreferentialRate(brackets, y)
    decreases |brackets|
  {
    PreferentialRateNonNegative(brackets, y);
    if InBracket(brackets[0], x) {
      RateAtLeastFirst(brackets, y);
    } else if x <= brackets[0].lower - 1.0 {
      BelowTableRateZero(brackets, x);
    } else {
      TailKeepsShape(brackets);
      PreferentialRateMonotone(brackets[1..], x, y);
    }
  }
}

/** The withdrawal schedules (withdrawal_rsu_401K.py:136-208): the
    inflation-growing annuity that depletes one asset over a window of years,
    and the consolidation of the 401(k) and RSU schedules onto one run of
    years.

    The annuity is the ordinary one: each year the balance grows first and
    the year's withdrawal is taken at the end, so the schedule's present
    value, discounted at the growth rate, is the projected balance. */
module Schedule {
  import opened Numeric
  import opened Outcomes
  import opened Portfolio

  /** The two `ValueError`s of the single-asset schedule. */
  datatype ScheduleError =
    | StartBeforeCurrent(startYear: int, currentYear: int)
    | EndBeforeStart(startYear: int, endYear: int)

  /** `w, w*a, w*a^2, ...` with `n` entries. */
  function Geometric(w: real, a: real, n: nat): (s: seq<real>)
    ensures |s| == n
    decreases n
  {
    if n == 0 then [] else [w] + Geometric(Scale(a, w), a, n - 1)
  }

  /** Entry `k` of the geometric sequence is `w * a ** k`, the source's list
      comprehension. */
  lemma {:induction false} GeometricEntry(w: real, a: real, n: nat, k: nat)
    requires k < n
    ensures Geometric(w, a, n)[k] == w * Pow(a, k)
    decreases k
  {
    if k > 0 {
      GeometricEntry(Scale(a, w), a, n - 1, k - 1);
      assert Geometric(w, a, n)[k] == Geometric(Scale(a, w), a, n - 1)[k - 1];
      MulAssociative(w, a, Pow(a, k - 1));
    }
  }

  lemma {:induction false} PowBelowOne(q: real, n: nat)
    requires 0.0 <= q < 1.0 && n >= 1
    ensures 0.0 <= Pow(q, n) < 1.0
    decreases n
  {
    if n > 1 {
      PowBelowOne(q, n - 1);
      MulLeftMonotone(q, Pow(q, n - 1), 1.0);
    }
  }

  /** A ratio of two positive amounts, the first the smaller, lies in (0, 1). */
  lemma RatioBelowOne(x: real, y: real)
    requires 0.0 < x < y
    ensures 0.0 < x / y < 1.0
  {
    DivisionUndone(x, y);
    QuotientBounds(x / y, x, y);
  }

  lemma QuotientBounds(q: real, x: real, y: real)
    requires 0.0 < x < y && q * y == x
    ensures 0.0 < q < 1.0
  {
    if q >= 1.0 {
      MulRightMonotone(1.0, q, y);
    } else if q <= 0.0 {
      MulRightMonotone(q, 0.0, y);
    }
  }

  /** The first withdrawal of the annuity that depletes `projected` over `n`
      years when the balance grows at `g` and the withdrawals at `i`.  The
      source only ever uses the growth rate above the inflation rate; equal
      rates take the division-free branch. */
  function FirstWithdrawal(projected: real, n: nat, g: real, i: real): real
    requires n >= 1 && -1.0 < i <= g
  {
    if g == i then projected / (n as real)
    else
      RatioBelowOne(1.0 + i, 1.0 + g);
      PowBelowOne((1.0 + i) / (1.0 + g), n);
      projected * (g - i) / (1.0 - Pow((1.0 + i) / (1.0 + g), n))
  }

  /** For growth above inflation the first withdrawal solves the annuity
      equation `w * (1 - ((1+i)/(1+g))^n) == projected * (g - i)`, and the
      factor it is divided by is positive. */
  lemma FirstWithdrawalSolves(projected: real, n: nat, g: real, i: real)
    requires n >= 1 && -1.0 < i < g
    ensures 0.0 < 1.0 - Pow((1.0 + i) / (1.0 + g), n) <= 1.0
    ensures Scale(FirstWithdrawal(projected, n, g, i), 1.0 - Pow((1.0 + i) / (1.0 + g), n)) == Scale(projected, g - i)
  {
    RatioBelowOne(1.0 + i, 1.0 + g);
    PowBelowOne((1.0 + i) / (1.0 + g), n);
    DivisionUndone(projected * (g - i), 1.0 - Pow((1.0 + i) / (1.0 + g), n));
  }

  /** With equal rates the first withdrawal is an equal share of the
      projected balance. */
  lemma FirstWithdrawalEqualRates(projected: real, n: nat, g: real)
    requires n >= 1 && g > -1.0
    ensures Scale(FirstWithdrawal(projected, n, g, g), n as real) == projected
  {
    DivisionUndone(projected, n as real);
  }

  /** `compute_withdrawal_schedule_single_asset`.  The asset is grown from
      the current year to the start year, and the schedule grows by
      inflation from the first withdrawal. */
  function SingleAssetSchedule(amount: real, startYear: int, endYear: int, currentYear: int)
    : (r: Result<seq<real>, ScheduleError>)
    ensures startYear < currentYear <==> r == Failure(StartBeforeCurrent(startYear, currentYear))
    ensures currentYear <= startYear && endYear < startYear <==> r == Failure(EndBeforeStart(startYear, endYear))
    ensures r.Success? ==> |r.value| == endYear - startYear + 1
  {
    if startYear < currentYear then Failure(StartBeforeCurrent(startYear, currentYear))
    else if endYear < startYear then Failure(EndBeforeStart(startYear, endYear))
    else
      Success(Geometric(
        FirstWithdrawal(Compounded(amount, startYear - currentYear, GrowthRate), endYear - startYear + 1, GrowthRate, InflationRate),
        1.0 + InflationRate,
        endYear - startYear + 1))
  }

  /** The balance left after the schedule when the balance grows at `g`
      each year before that year's withdrawal. */
  function BalanceAfter(balance: real, s: seq<real>, g: real): real
    decreases |s|
  {
    if |s| == 0 then balance else BalanceAfter(Compounded(balance, 1, g) - s[0], s[1..], g)
  }

  /** The schedule's present value, each withdrawal discounted to the start
      at the growth rate. */
  function Discounted(s: seq<real>, g: real): real
    requires g > -1.0
    decreases |s|
  {
    if |s| == 0 then 0.0 else (s[0] + Discounted(s[1..], g)) / (1.0 + g)
  }

  /** Starting from a balance, the schedule leaves the difference to its
      present value, grown for the schedule's length. */
  lemma {:induction false} BalanceAfterIsGrownShortfall(balance: real, s: seq<real>, g: real)
    requires g > -1.0
    ensures BalanceAfter(balance, s, g) == Compounded(balance - Discounted(s, g), |s|, g)
    decreases |s|
  {
    if |s| > 0 {
      BalanceAfterIsGrownShortfall(Compounded(balance, 1, g) - s[0], s[1..], g);
      ShortfallStep(balance, s[0], Discounted(s[1..], g), Discounted(s, g), g, |s|);
    }
  }

  /** One year of BalanceAfterIsGrownShortfall: growing then withdrawing
      `s0` and growing the rest for `n - 1` years is growing the whole
      shortfall for `n` years. */
  lemma ShortfallStep(balance: real, s0: real, rest: real, d: real, g: real, n: nat)
    requires g > -1.0 && n >= 1
    requires d * (1.0 + g) == s0 + rest
    ensures Compounded(Compounded(balance, 1, g) - s0 - rest, n - 1, g) == Compounded(balance - d, n, g)
  {
    var b, p := 1.0 + g, Pow(1.0 + g, n - 1);
    assert Pow(b, 1) == b;
    assert Pow(b, n) == b * p;
    calc {
      (balance * b - s0 - rest) * p;
      (balance * b - d * b) * p;
      ((balance - d) * b) * p;
      { MulAssociative(balance - d, b, p); }
      (balance - d) * (b * p);
    }
  }

  /** The discounted geometric schedule in closed form, with no division:
      `D * (b - a) * b^n == w * (b^n - a^n)` for `b = 1 + g`. */
  lemma {:induction false} DiscountedGeometric(w: real, a: real, n: nat, g: real)
    requires g > -1.0
    ensures Scale(Scale(Discounted(Geometric(w, a, n), g), (1.0 + g) - a), Pow(1.0 + g, n))
      == Scale(w, Pow(1.0 + g, n) - Pow(a, n))
    decreases n
  {
    if n > 0 {
      DiscountedGeometric(Scale(a, w), a, n - 1, g);
      DiscountedGeometricFirst(w, a, n, g);
      PowStep(1.0 + g, n);
      PowStep(a, n);
      DiscountedGeometricStep(w, a, 1.0 + g, Discounted(Geometric(w, a, n), g),
        Discounted(Geometric(Scale(a, w), a, n - 1), g), Pow(1.0 + g, n - 1), Pow(a, n - 1), Pow(1.0 + g, n), Pow(a, n));
    }
  }

  lemma DiscountedGeometricFirst(w: real, a: real, n: nat, g: real)
    requires g > -1.0 && n > 0
    ensures Scale(Discounted(Geometric(w, a, n), g), 1.0 + g) == w + Discounted(Geometric(Scale(a, w), a, n - 1), g)
  {
    DiscountedFirst(Geometric(w, a, n), g);
    assert Geometric(w, a, n)[1..] == Geometric(Scale(a, w), a, n - 1);
  }

  lemma PowStep(x: real, n: nat)
    requires n >= 1
    ensures Pow(x, n) == Scale(x, Pow(x, n - 1))
  {
  }

  /** Discounting a non-empty schedule: its first withdrawal plus the rest's
      present value, discounted one year. */
  lemma DiscountedFirst(s: seq<real>, g: real)
    requires g > -1.0 && |s| > 0
    ensures Discounted(s, g) * (1.0 + g) == s[0] + Discounted(s[1..], g)
  {
    DivisionUndone(s[0] + Discounted(s[1..], g), 1.0 + g);
  }

  /** The algebra of one step of DiscountedGeometric. */
  lemma DiscountedGeometricStep(w: real, a: real, b: real, dd: real, d: real, bn: real, an: real, bn1: real, an1: real)
    requires Scale(dd, b) == w + d
    requires Scale(Scale(d, b - a), bn) == Scale(Scale(a, w), bn - an)
    requires bn1 == Scale(b, bn) && an1 == Scale(a, an)
    ensures Scale(Scale(dd, b - a), bn1) == Scale(w, bn1 - an1)
  {
    calc {
      dd * (b - a) * bn1;
      dd * (b - a) * (b * bn);
      (dd * b) * (b - a) * bn;
      (w + d) * (b - a) * bn;
      w * (b - a) * bn + d * (b - a) * bn;
      w * (b - a) * bn + a * w * (bn - an);
      w * (b * bn - a * an);
    }
  }

  /** Powers distribute over a product: `(q*b)^n == q^n * b^n`. */
  lemma {:induction false} PowOfProduct(q: real, b: real, c: real, n: nat)
    requires Scale(q, b) == c
    ensures Scale(Pow(q, n), Pow(b, n)) == Pow(c, n)
    decreases n
  {
    if n > 0 {
      PowOfProduct(q, b, c, n - 1);
      PowStep(q, n);
      PowStep(b, n);
      PowStep(c, n);
      PowProductStep(q, b, c, Pow(q, n - 1), Pow(b, n - 1), Pow(c, n - 1));
    }
  }

  lemma PowProductStep(q: real, b: real, c: real, qn: real, bn: real, cn: real)
    requires Scale(q, b) == c && Scale(qn, bn) == cn
    ensures Scale(Scale(q, qn), Scale(b, bn)) == Scale(c, cn)
  {
    calc {
      (q * qn) * (b * bn);
      { MulAssociative(q, qn, b * bn); }
      q * (qn * (b * bn));
      { MulAssociative(qn, b, bn); }
      q * ((qn * b) * bn);
      q * ((b * qn) * bn);
      { MulAssociative(b, qn, bn); }
      q * (b * (qn * bn));
      { MulAssociative(q, b, qn * bn); }
      (q * b) * (qn * bn);
    }
  }

  /** The annuity formula solved back: with the first withdrawal the source
      computes, the schedule's present value is the projected balance. */
  lemma AnnuityAlgebra(projected: real, w: real, d: real, c: real, c': real, bn: real, an: real, qn: real)
    requires c != 0.0 && bn > 0.0 && c' == c
    requires Scale(w, 1.0 - qn) == Scale(projected, c)
    requires Scale(Scale(d, c'), bn) == Scale(w, bn - an)
    requires Scale(qn, bn) == an
    ensures d == projected
  {
    calc {
      d * c * bn;
      w * (bn - qn * bn);
      (w * (1.0 - qn)) * bn;
      projected * c * bn;
    }
    assert (d - projected) * (c * bn) == 0.0;
    assert c * bn != 0.0;
  }

  /** The withdrawals the source computes for growth above inflation have
      present value equal to the projected balance: the annuity depletes it. */
  lemma AnnuityPresentValue(projected: real, n: nat, g: real, i: real)
    requires n >= 1 && -1.0 < i < g
    ensures Discounted(Geometric(FirstWithdrawal(projected, n, g, i), 1.0 + i, n), g) == projected
  {
    var w := FirstWithdrawal(projected, n, g, i);
    var q := (1.0 + i) / (1.0 + g);
    RatioBelowOne(1.0 + i, 1.0 + g);
    FirstWithdrawalSolves(projected, n, g, i);
    DivisionUndone(1.0 + i, 1.0 + g);
    PowOfProduct(q, 1.0 + g, 1.0 + i, n);
    PowPositive(1.0 + g, n);
    DiscountedGeometric(w, 1.0 + i, n, g);
    AnnuityAlgebra(projected, w, Discounted(Geometric(w, 1.0 + i, n), g), g - i, (1.0 + g) - (1.0 + i), Pow(1.0 + g, n), Pow(1.0 + i, n), Pow(q, n));
  }

  /** Taking the schedule from the projected balance, growing the balance
      each year before the withdrawal, leaves nothing. */
  lemma AnnuityDepletes(projected: real, n: nat, g: real, i: real)
    requires n >= 1 && -1.0 < i < g
    ensures BalanceAfter(projected, Geometric(FirstWithdrawal(projected, n, g, i), 1.0 + i, n), g) == 0.0
  {
    var s := Geometric(FirstWithdrawal(projected, n, g, i), 1.0 + i, n);
    AnnuityPresentValue(projected, n, g, i);
    BalanceAfterIsGrownShortfall(projected, s, g);
  }

  /** Each withdrawal is the previous one grown by `a`. */
  lemma GeometricStep(w: real, a: real, n: nat, k: nat)
    requires k + 1 < n
    ensures Geometric(w, a, n)[k + 1] == Scale(a, Geometric(w, a, n)[k])
  {
    GeometricEntry(w, a, n, k);
    GeometricEntry(w, a, n, k + 1);
    PowStep(a, k + 1);
    calc {
      w * (a * Pow(a, k));
      { MulAssociative(w, a, Pow(a, k)); }
      (w * a) * Pow(a, k);
      { MulAssociative(a, w, Pow(a, k)); }
      a * (w * Pow(a, k));
    }
  }

  lemma GeometricPositive(w: real, a: real, n: nat, k: nat)
    requires w > 0.0 && a > 0.0 && k < n
    ensures Geometric(w, a, n)[k] > 0.0
  {
    GeometricEntry(w, a, n, k);
    PowPositive(a, k);
    MulAtLeastOne(w, Pow(a, k));
  }

  /** A positive projected balance gives a positive first withdrawal. */
  lemma FirstWithdrawalPositive(projected: real, n: nat, g: real, i: real)
    requires n >= 1 && -1.0 < i < g && projected > 0.0
    ensures FirstWithdrawal(projected, n, g, i) > 0.0
  {
    FirstWithdrawalSolves(projected, n, g, i);
    ScalePositive(projected, g - i);
    PositiveFactor(FirstWithdrawal(projected, n, g, i), 1.0 - Pow((1.0 + i) / (1.0 + g), n), Scale(projected, g - i));
  }

  lemma PositiveFactor(x: real, y: real, z: real)
    requires Scale(x, y) == z && y > 0.0 && z > 0.0
    ensures x > 0.0
  {
    if x <= 0.0 {
      MulRightMonotone(x, 0.0, y);
    }
  }

  /** Entry `k` of a successful single-asset schedule: the first withdrawal
      grown by inflation for `k` years. */
  lemma SingleAssetScheduleEntry(amount: real, startYear: int, endYear: int, currentYear: int, k: nat)
    requires SingleAssetSchedule(amount, startYear, endYear, currentYear).Success?
    requires k < endYear - startYear + 1
    ensures SingleAssetSchedule(amount, startYear, endYear, currentYear).value[k]
      == SingleAssetSchedule(amount, startYear, endYear, currentYear).value[0] * Pow(1.0 + InflationRate, k)
    ensures k + 1 < endYear - startYear + 1 ==>
      SingleAssetSchedule(amount, startYear, endYear, currentYear).value[k + 1]
      == Scale(1.0 + InflationRate, SingleAssetSchedule(amount, startYear, endYear, currentYear).value[k])
  {
    var n := endYear - startYear + 1;
    var w := FirstWithdrawal(Compounded(amount, startYear - currentYear, GrowthRate), n, GrowthRate, InflationRate);
    GeometricEntry(w, 1.0 + InflationRate, n, k);
    GeometricEntry(w, 1.0 + InflationRate, n, 0);
    if k + 1 < n {
      GeometricStep(w, 1.0 + InflationRate, n, k);
    }
  }

  /** A positive amount gives an all-positive schedule. */
  lemma SingleAssetSchedulePositive(amount: real, startYear: int, endYear: int, currentYear: int, k: nat)
    requires amount > 0.0
    requires SingleAssetSchedule(amount, startYear, endYear, currentYear).Success?
    requires k < endYear - startYear + 1
    ensures SingleAssetSchedule(amount, startYear, endYear, currentYear).value[k] > 0.0
  {
    var n := endYear - startYear + 1;
    var projected := Compounded(amount, startYear - currentYear, GrowthRate);
    CompoundedPositive(amount, startYear - currentYear, GrowthRate);
    FirstWithdrawalPositive(projected, n, GrowthRate, InflationRate);
    GeometricPositive(FirstWithdrawal(projected, n, GrowthRate, InflationRate), 1.0 + InflationRate, n, k);
  }

  /** The schedule depletes the asset: from the balance projected to the
      start year, growing each year and then withdrawing leaves nothing. */
  lemma SingleAssetScheduleDepletes(amount: real, startYear: int, endYear: int, currentYear: int)
    requires SingleAssetSchedule(amount, startYear, endYear, currentYear).Success?
    ensures BalanceAfter(Compounded(amount, startYear - currentYear, GrowthRate),
      SingleAssetSchedule(amount, startYear, endYear, currentYear).value, GrowthRate) == 0.0
  {
    AnnuityDepletes(Compounded(amount, startYear - currentYear, GrowthRate), endYear - startYear + 1, GrowthRate, InflationRate);
  }

  /** The balance left when each year's withdrawal comes first and the rest
      then grows at `g`, with no growth after the last withdrawal: the order
      in which the simulator spends the schedule. */
  function BalanceWithdrawingFirst(balance: real, s: seq<real>, g: real): real
    decreases |s|
  {
    if |s| == 0 then balance
    else if |s| == 1 then balance - s[0]
    else BalanceWithdrawingFirst(Compounded(balance - s[0], 1, g), s[1..], g)
  }

  /** Withdrawing first leaves the shortfall against the present value grown
      by one year, itself grown for one year fewer than the schedule has
      withdrawals. */
  lemma {:induction false} WithdrawingFirstIsGrownShortfall(balance: real, s: seq<real>, g: real)
    requires |s| >= 1 && g > -1.0
    ensures BalanceWithdrawingFirst(balance, s, g) == Compounded(balance - Scale(1.0 + g, Discounted(s, g)), |s| - 1, g)
    decreases |s|
  {
    DiscountedFirst(s, g);
    if |s| == 1 {
      assert Pow(1.0 + g, 0) == 1.0;
    } else {
      WithdrawingFirstIsGrownShortfall(Compounded(balance - s[0], 1, g), s[1..], g);
      WithdrawFirstStep(balance, s[0], Discounted(s[1..], g), Discounted(s, g), g, |s| - 2);
    }
  }

  /** One year of WithdrawingFirstIsGrownShortfall: withdrawing `s0`,
      growing for a year and then growing the shortfall against the rest
      for `m` years is growing the whole shortfall for `m + 1` years. */
  lemma WithdrawFirstStep(balance: real, s0: real, rest: real, d: real, g: real, m: nat)
    requires d * (1.0 + g) == s0 + rest
    ensures Compounded(Compounded(balance - s0, 1, g) - Scale(1.0 + g, rest), m, g)
      == Compounded(balance - Scale(1.0 + g, d), m + 1, g)
  {
    var b, p := 1.0 + g, Pow(1.0 + g, m);
    assert Pow(b, 1) == b;
    assert Pow(b, m + 1) == b * p;
    calc {
      ((balance - s0) * b - b * rest) * p;
      ((balance - s0 - rest) * b) * p;
      { MulAssociative(balance - s0 - rest, b, p); }
      (balance - s0 - rest) * (b * p);
      (balance - b * d) * (b * p);
    }
  }

  /** Spent in the simulator's order, withdrawing first and growing the
      rest, the schedule overdraws the asset: the formula assumes a year of
      growth before every withdrawal, so the last withdrawal exceeds what is
      left by `GrowthRate` times the projected balance grown for one year
      fewer than the schedule has withdrawals. */
  lemma SingleAssetScheduleOverdrawsWithdrawingFirst(amount: real, startYear: int, endYear: int, currentYear: int)
    requires SingleAssetSchedule(amount, startYear, endYear, currentYear).Success?
    ensures BalanceWithdrawingFirst(Compounded(amount, startYear - currentYear, GrowthRate),
        SingleAssetSchedule(amount, startYear, endYear, currentYear).value, GrowthRate)
      == -Scale(GrowthRate, Compounded(Compounded(amount, startYear - currentYear, GrowthRate), endYear - startYear, GrowthRate))
    ensures amount > 0.0 ==>
      BalanceWithdrawingFirst(Compounded(amount, startYear - currentYear, GrowthRate),
        SingleAssetSchedule(amount, startYear, endYear, currentYear).value, GrowthRate) < 0.0
  {
    var projected := Compounded(amount, startYear - currentYear, GrowthRate);
    var n := endYear - startYear + 1;
    var s := SingleAssetSchedule(amount, startYear, endYear, currentYear).value;
    AnnuityPresentValue(projected, n, GrowthRate, InflationRate);
    WithdrawingFirstIsGrownShortfall(projected, s, GrowthRate);
    assert projected - Scale(1.0 + GrowthRate, projected) == -(GrowthRate * projected);
    MulAssociative(GrowthRate, projected, Pow(1.0 + GrowthRate, n - 1));
    assert Compounded(-(GrowthRate * projected), n - 1, GrowthRate) == -Scale(GrowthRate, Compounded(projected, n - 1, GrowthRate));
    if amount > 0.0 {
      CompoundedPositive(amount, startYear - currentYear, GrowthRate);
      CompoundedPositive(projected, n - 1, GrowthRate);
      ScalePositive(GrowthRate, Compounded(projected, n - 1, GrowthRate));
    }
  }
}

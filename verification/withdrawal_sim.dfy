/** The two year-by-year simulators of withdrawal_rsu_401K.py and the
    scenario that chains them (lines 211-231 and 263-533).

    The schedule phase follows the consolidated withdrawal schedule: it
    draws the scheduled 401(k) and RSU amounts, pays tax on them, records a
    shortfall against the inflated need or puts the surplus into the Roth
    and the non-RSU stock.  The after-schedule phase then meets the need
    from non-RSU stock and the Roth, recording whatever is still missing.

    The tax of a year is the parameter `taxOf`, the total tax of an income
    record; the scenarios use the 2024 married-filing-jointly tax (see
    Scenario.TaxMarriedJointly2024). */
module WithdrawalSim {
  import opened Numeric
  import opened Outcomes
  import opened TaxEngine
  import opened Portfolio
  import opened Ledger
  import opened Consolidation

  /** The capital-gains rate `stock_sale_for_annual_need` is called with. */
  const CapitalGainsRate: real := 0.20

  /** `stock_sale_for_annual_need`: the sale whose proceeds, after tax on the
      gain at `rate`, cover `need`.  A basis at or above the value has no
      gain; a gain taxed at exactly 100% has no solution (the source divides
      by zero). */
  function StockSaleForNeed(need: real, ratio: real, rate: real): (sale: Option<real>)
    ensures sale.None? <==> ratio < 1.0 && (1.0 - ratio) * rate == 1.0
  {
    if ratio >= 1.0 then Some(need)
    else if (1.0 - ratio) * rate == 1.0 then None
    else Some(need / (1.0 - (1.0 - ratio) * rate))
  }

  /** The sale meets the need exactly once the gain on it is taxed: with
      cost basis `sale * ratio`, `sale - (sale - basis) * rate == need`.  For
      a basis ratio in [0, 1) and a rate in [0, 1) the sale is at least the
      need; a basis at or above the value sells exactly the need. */
  lemma StockSaleGrossUp(need: real, ratio: real, rate: real)
    requires StockSaleForNeed(need, ratio, rate).Some?
    ensures ratio < 1.0 ==>
      StockSaleForNeed(need, ratio, rate).value
      - Scale(rate, StockSaleForNeed(need, ratio, rate).value - Scale(ratio, StockSaleForNeed(need, ratio, rate).value)) == need
    ensures ratio >= 1.0 ==> StockSaleForNeed(need, ratio, rate).value == need
    ensures 0.0 <= ratio < 1.0 && 0.0 <= rate < 1.0 && need >= 0.0 ==> StockSaleForNeed(need, ratio, rate).value >= need
  {
    if ratio < 1.0 {
      var e := (1.0 - ratio) * rate;
      var sale := need / (1.0 - e);
      DivisionUndone(need, 1.0 - e);
      assert sale - rate * (sale - ratio * sale) == sale * (1.0 - e);
      if 0.0 <= ratio && 0.0 <= rate < 1.0 && need >= 0.0 {
        MulNonNegative(1.0 - ratio, rate);
        MulLeftMonotone(rate, 1.0 - ratio, 1.0);
        SaleAtLeastNeed(sale, 1.0 - e, need);
      }
    }
  }

  lemma SaleAtLeastNeed(sale: real, factor: real, need: real)
    requires 0.0 < factor <= 1.0 && need >= 0.0 && sale * factor == need
    ensures sale >= need
  {
    if sale < need {
      MulRightMonotone(factor, 1.0, sale);
    }
  }

  /** What the simulators can fail with, besides an invalid schedule. */
  datatype SimError =
    | EmptySchedule                        // `withdrawal_schedule['years'][-1]` of an empty list
    | K401NotDepleted(balance: real)       // the after-schedule sanity checks
    | RsuNotDepleted(balance: real)
    | UnsolvableSale(ratio: real)          // a division by zero in the stock sale

  /** The state carried from one simulated year to the next: the assets,
      the gap ledger and the last year's inflated need. */
  datatype SimState = SimState(assets: Assets, gaps: Gaps, need: real)

  /** The income of a schedule year.  Only positive amounts are reported,
      and a record with nothing reported is not taxed. */
  function ScheduleIncome(k401Withdrawal: real, gains: real, baseDividend: real): Income
  {
    NoIncome.(
      k401Distribution := if k401Withdrawal > 0.0 then k401Withdrawal else 0.0,
      longTermGain := if gains > 0.0 then gains else 0.0,
      ordinaryDividend := if baseDividend > 0.0 then baseDividend else 0.0)
  }

  function ScheduleTax(k401Withdrawal: real, gains: real, baseDividend: real, taxOf: Income -> real): real
  {
    if k401Withdrawal > 0.0 || gains > 0.0 || baseDividend > 0.0
    then taxOf(ScheduleIncome(k401Withdrawal, gains, baseDividend))
    else 0.0
  }


  /** The share of the RSU balance that is cost basis, 0 without a balance. */
  function RsuBasisRatio(a: Assets): real
  {
    if a.rsu > 0.0 then a.rsuBasis / a.rsu else 0.0
  }

  /** The need of a year: the base need inflated from the current year, a
      year before it deflated. */
  function InflatedNeed(baseNeed: real, year: int, currentYear: int): real
  {
    Scale(baseNeed, PowInt(1.0 + InflationRate, year - currentYear))
  }

  /** The 401(k) and RSU amounts drawn in a schedule year. */
  datatype Draw = Draw(k401: real, rsu: real)

  /** The scheduled amounts, each capped by its balance. */
  function CappedDraw(a: Assets, scheduled401: real, scheduledRsu: real): Draw
  {
    Draw(Min(scheduled401, a.k401), Min(scheduledRsu, a.rsu))
  }

  /** The assets after the draw: both balances reduced and the RSU basis
      reset to the old basis ratio of the new balance. */
  function AfterDraw(a: Assets, d: Draw): Assets
  {
    a.(k401 := a.k401 - d.k401, rsu := a.rsu - d.rsu, rsuBasis := Scale(a.rsu - d.rsu, RsuBasisRatio(a)))
  }

  /** Capping keeps both balances non-negative whatever was scheduled, a
      non-negative schedule never raises a non-negative balance, the draw is the scheduled
      amount whenever the balance allows it, and the other entries are
      untouched. */
  lemma CappedDrawFacts(a: Assets, scheduled401: real, scheduledRsu: real)
    ensures var d := CappedDraw(a, scheduled401, scheduledRsu);
      var b := AfterDraw(a, d);
      && b.k401 >= 0.0 && b.rsu >= 0.0
      && d.k401 <= scheduled401 && d.rsu <= scheduledRsu
      && (scheduled401 <= a.k401 ==> d.k401 == scheduled401)
      && (scheduledRsu <= a.rsu ==> d.rsu == scheduledRsu)
      && (scheduled401 >= 0.0 && a.k401 >= 0.0 ==> b.k401 <= a.k401)
      && (scheduledRsu >= 0.0 && a.rsu >= 0.0 ==> b.rsu <= a.rsu)
      && b.roth == a.roth && b.nonRsu == a.nonRsu && b.nonRsuBasis == a.nonRsuBasis
  {
  }

  /** The basis-to-balance ratio of the RSU stock is the same after the draw
      whenever some balance is left. */
  lemma RsuRatioPreserved(a: Assets, d: Draw)
    requires a.rsu > 0.0 && AfterDraw(a, d).rsu > 0.0
    ensures AfterDraw(a, d).rsuBasis / AfterDraw(a, d).rsu == a.rsuBasis / a.rsu
  {
    RatioOfScaled(a.rsu - d.rsu, a.rsuBasis / a.rsu, AfterDraw(a, d).rsuBasis);
  }

  lemma RatioOfScaled(x: real, r: real, y: real)
    requires x > 0.0 && y == Scale(x, r)
    ensures y / x == r
  {
  }

  /** The after-tax income of a schedule year. */
  function ScheduleNet(a: Assets, d: Draw, baseDividend: real, taxOf: Income -> real): real
  {
    d.k401 + d.rsu - ScheduleTax(d.k401, Scale(d.rsu, 1.0 - RsuBasisRatio(a)), baseDividend, taxOf)
  }

  /** A surplus goes to the Roth up to the year's 401(k) withdrawal, and the
      rest, if any, to the non-RSU stock and its basis. */
  function PlaceSurplus(a: Assets, surplus: real, k401Withdrawal: real): Assets
  {
    var conversion := Min(surplus, k401Withdrawal);
    var addition := surplus - conversion;
    var converted := a.(roth := a.roth + conversion);
    if addition > 0.0
    then converted.(nonRsu := converted.nonRsu + addition, nonRsuBasis := converted.nonRsuBasis + addition)
    else converted
  }

  /** Settling a schedule year against its need: a shortfall is recorded
      for the year, a surplus is placed. */
  function Settle(drawn: Assets, gaps: Gaps, year: int, need: real, net: real, k401Withdrawal: real): SimState
  {
    if net < need then SimState(drawn, Record(gaps, year, need - net), need)
    else if net - need > 0.0 then SimState(PlaceSurplus(drawn, net - need, k401Withdrawal), gaps, need)
    else SimState(drawn, gaps, need)
  }

  /** A gap is recorded exactly when the net income falls short of the
      need, for that year, with the shortfall as its amount, and nothing
      else moves.  Otherwise the ledger is unchanged and the Roth and the
      non-RSU stock together receive exactly the surplus: the Roth the smaller
      of the surplus and the 401(k) withdrawal, the stock the rest, and the stock's basis grows
      with it. */
  lemma SettleFacts(drawn: Assets, gaps: Gaps, year: int, need: real, net: real, k401Withdrawal: real)
    ensures var s := Settle(drawn, gaps, year, need, net, k401Withdrawal);
      && s.need == need
      && (AllPositive(gaps) ==> AllPositive(s.gaps))
      && (net < need ==> s.assets == drawn && Years(s.gaps) == Years(gaps) + {year}
                         && AmountOf(s.gaps, year) == Some(need - net))
      && (year !in Years(gaps) ==> (net < need <==> year in Years(s.gaps)))
      && (net >= need ==> && s.gaps == gaps
                          && (s.assets.roth - drawn.roth) + (s.assets.nonRsu - drawn.nonRsu) == net - need
                          && s.assets.roth - drawn.roth <= Max(k401Withdrawal, 0.0)
                          && (net > need ==> s.assets.roth - drawn.roth == Min(net - need, k401Withdrawal))
                          && s.assets.nonRsu >= drawn.nonRsu
                          && s.assets.nonRsuBasis - drawn.nonRsuBasis == s.assets.nonRsu - drawn.nonRsu
                          && s.assets.k401 == drawn.k401 && s.assets.rsu == drawn.rsu
                          && s.assets.rsuBasis == drawn.rsuBasis)
  {
    RecordSets(gaps, year, need - net, year + 1);
    if AllPositive(gaps) && net < need {
      RecordKeepsPositive(gaps, year, need - net);
    }
  }

  /** One year of `simulate_withdrawal_schedule` before the assets grow. */
  function ScheduleYearDrawn(a: Assets, gaps: Gaps, year: int, scheduled401: real, scheduledRsu: real,
                             baseNeed: real, baseDividend: real, currentYear: int, taxOf: Income -> real): SimState
  {
    var d := CappedDraw(a, scheduled401, scheduledRsu);
    Settle(AfterDraw(a, d), gaps, year, InflatedNeed(baseNeed, year, currentYear),
      ScheduleNet(a, d, baseDividend, taxOf), d.k401)
  }

  /** One year of `simulate_withdrawal_schedule`, growth included. */
  function ScheduleYear(a: Assets, gaps: Gaps, year: int, scheduled401: real, scheduledRsu: real,
                        baseNeed: real, baseDividend: real, currentYear: int, taxOf: Income -> real): SimState
  {
    var s := ScheduleYearDrawn(a, gaps, year, scheduled401, scheduledRsu, baseNeed, baseDividend, currentYear, taxOf);
    s.(assets := GrowAssets(s.assets, 1))
  }

  /** A schedule year keeps every recorded year, adds at most its own, and
      keeps every amount positive. */
  lemma ScheduleYearLedger(a: Assets, gaps: Gaps, year: int, scheduled401: real, scheduledRsu: real,
                           baseNeed: real, baseDividend: real, currentYear: int, taxOf: Income -> real)
    ensures var s := ScheduleYear(a, gaps, year, scheduled401, scheduledRsu, baseNeed, baseDividend, currentYear, taxOf);
      && Years(gaps) <= Years(s.gaps) <= Years(gaps) + {year}
      && (AllPositive(gaps) ==> AllPositive(s.gaps))
  {
    var d := CappedDraw(a, scheduled401, scheduledRsu);
    SettleFacts(AfterDraw(a, d), gaps, year, InflatedNeed(baseNeed, year, currentYear),
      ScheduleNet(a, d, baseDividend, taxOf), d.k401);
  }

  /** A schedule year leaves the 401(k) and RSU balances non-negative. */
  lemma ScheduleYearBalances(a: Assets, gaps: Gaps, year: int, scheduled401: real, scheduledRsu: real,
                             baseNeed: real, baseDividend: real, currentYear: int, taxOf: Income -> real)
    ensures var s := ScheduleYear(a, gaps, year, scheduled401, scheduledRsu, baseNeed, baseDividend, currentYear, taxOf);
      s.assets.k401 >= 0.0 && s.assets.rsu >= 0.0
  {
    var d := CappedDraw(a, scheduled401, scheduledRsu);
    CappedDrawFacts(a, scheduled401, scheduledRsu);
    SettleFacts(AfterDraw(a, d), gaps, year, InflatedNeed(baseNeed, year, currentYear),
      ScheduleNet(a, d, baseDividend, taxOf), d.k401);
    var s := ScheduleYearDrawn(a, gaps, year, scheduled401, scheduledRsu, baseNeed, baseDividend, currentYear, taxOf);
    GrownKeepsSigns(s.assets);
  }

  /** The schedule phase from entry `k` of the consolidated schedule on. */
  function RunSchedule(st: SimState, sched: Consolidated, k: nat, baseNeed: real, baseDividend: real,
                       currentYear: int, taxOf: Income -> real): SimState
    requires |sched.k401| >= |sched.years| && |sched.rsu| >= |sched.years|
    decreases |sched.years| - k
  {
    if k >= |sched.years| then st
    else
      RunSchedule(
        ScheduleYear(st.assets, st.gaps, sched.years[k], sched.k401[k], sched.rsu[k], baseNeed, baseDividend, currentYear, taxOf),
        sched, k + 1, baseNeed, baseDividend, currentYear, taxOf)
  }

  /** The schedule phase keeps every recorded year, records only years of
      the schedule, and keeps every amount positive. */
  lemma {:induction false} RunScheduleLedger(st: SimState, sched: Consolidated, k: nat, baseNeed: real, baseDividend: real,
                                             currentYear: int, taxOf: Income -> real)
    requires |sched.k401| >= |sched.years| && |sched.rsu| >= |sched.years|
    ensures var e := RunSchedule(st, sched, k, baseNeed, baseDividend, currentYear, taxOf);
      && Years(st.gaps) <= Years(e.gaps)
      && (AllPositive(st.gaps) ==> AllPositive(e.gaps))
      && (forall y :: y in Years(e.gaps) && y !in Years(st.gaps) ==> y in sched.years[k..])
    decreases |sched.years| - k
  {
    if k < |sched.years| {
      var y := sched.years[k];
      var next := ScheduleYear(st.assets, st.gaps, y, sched.k401[k], sched.rsu[k], baseNeed, baseDividend, currentYear, taxOf);
      ScheduleYearLedger(st.assets, st.gaps, y, sched.k401[k], sched.rsu[k], baseNeed, baseDividend, currentYear, taxOf);
      RunScheduleLedger(next, sched, k + 1, baseNeed, baseDividend, currentYear, taxOf);
      assert sched.years[k..] == [y] + sched.years[k + 1..];
    }
  }

  /** Once a schedule year has been simulated the 401(k) and RSU balances
      are non-negative, and they stay so. */
  lemma {:induction false} RunScheduleBalances(st: SimState, sched: Consolidated, k: nat, baseNeed: real, baseDividend: real,
                                               currentYear: int, taxOf: Income -> real)
    requires |sched.k401| >= |sched.years| && |sched.rsu| >= |sched.years|
    requires k < |sched.years| || (st.assets.k401 >= 0.0 && st.assets.rsu >= 0.0)
    ensures var e := RunSchedule(st, sched, k, baseNeed, baseDividend, currentYear, taxOf);
      e.assets.k401 >= 0.0 && e.assets.rsu >= 0.0
    decreases |sched.years| - k
  {
    if k < |sched.years| {
      var y := sched.years[k];
      var next := ScheduleYear(st.assets, st.gaps, y, sched.k401[k], sched.rsu[k], baseNeed, baseDividend, currentYear, taxOf);
      ScheduleYearBalances(st.assets, st.gaps, y, sched.k401[k], sched.rsu[k], baseNeed, baseDividend, currentYear, taxOf);
      RunScheduleBalances(next, sched, k + 1, baseNeed, baseDividend, currentYear, taxOf);
    }
  }

  /** A schedule year never makes the non-RSU basis negative: drawing
      leaves it alone, a surplus adds to it and growth does not touch it. */
  lemma ScheduleYearBasis(a: Assets, gaps: Gaps, year: int, scheduled401: real, scheduledRsu: real,
                          baseNeed: real, baseDividend: real, currentYear: int, taxOf: Income -> real)
    requires a.nonRsuBasis >= 0.0
    ensures ScheduleYear(a, gaps, year, scheduled401, scheduledRsu, baseNeed, baseDividend, currentYear, taxOf).assets.nonRsuBasis >= 0.0
  {
    var d := CappedDraw(a, scheduled401, scheduledRsu);
    SettleFacts(AfterDraw(a, d), gaps, year, InflatedNeed(baseNeed, year, currentYear),
      ScheduleNet(a, d, baseDividend, taxOf), d.k401);
  }

  lemma {:induction false} RunScheduleBasis(st: SimState, sched: Consolidated, k: nat, baseNeed: real, baseDividend: real,
                                            currentYear: int, taxOf: Income -> real)
    requires |sched.k401| >= |sched.years| && |sched.rsu| >= |sched.years|
    requires st.assets.nonRsuBasis >= 0.0
    ensures RunSchedule(st, sched, k, baseNeed, baseDividend, currentYear, taxOf).assets.nonRsuBasis >= 0.0
    decreases |sched.years| - k
  {
    if k < |sched.years| {
      var y := sched.years[k];
      var next := ScheduleYear(st.assets, st.gaps, y, sched.k401[k], sched.rsu[k], baseNeed, baseDividend, currentYear, taxOf);
      ScheduleYearBasis(st.assets, st.gaps, y, sched.k401[k], sched.rsu[k], baseNeed, baseDividend, currentYear, taxOf);
      RunScheduleBasis(next, sched, k + 1, baseNeed, baseDividend, currentYear, taxOf);
    }
  }

  /** What the schedule phase hands to the after-schedule phase: the last
      year of the schedule and the state after it. */
  datatype ScheduleEnd = ScheduleEnd(simYear: int, state: SimState)

  /** `simulate_withdrawal_schedule`: every year of the consolidated
      schedule from an empty ledger.  An empty schedule has no last year. */
  function SchedulePhase(assets: Assets, sched: Consolidated, baseNeed: real, baseDividend: real,
                         currentYear: int, taxOf: Income -> real): (r: Result<ScheduleEnd, SimError>)
    requires |sched.k401| >= |sched.years| && |sched.rsu| >= |sched.years|
    ensures r.Failure? <==> |sched.years| == 0
  {
    if |sched.years| == 0 then Failure(EmptySchedule)
    else
      Success(ScheduleEnd(sched.years[|sched.years| - 1],
        RunSchedule(SimState(assets, [], baseNeed), sched, 0, baseNeed, baseDividend, currentYear, taxOf)))
  }

  /** After the schedule phase the 401(k) and RSU balances are
      non-negative, every recorded shortfall is positive and belongs to a
      year of the schedule, and the phase ends at the schedule's last year. */
  lemma SchedulePhaseFacts(assets: Assets, sched: Consolidated, baseNeed: real, baseDividend: real,
                           currentYear: int, taxOf: Income -> real)
    requires |sched.k401| >= |sched.years| && |sched.rsu| >= |sched.years|
    requires SchedulePhase(assets, sched, baseNeed, baseDividend, currentYear, taxOf).Success?
    ensures var r := SchedulePhase(assets, sched, baseNeed, baseDividend, currentYear, taxOf).value;
      && r.simYear == sched.years[|sched.years| - 1]
      && r.state.assets.k401 >= 0.0 && r.state.assets.rsu >= 0.0
      && AllPositive(r.state.gaps)
      && (forall y :: y in Years(r.state.gaps) ==> y in sched.years)
      && (assets.nonRsuBasis >= 0.0 ==> r.state.assets.nonRsuBasis >= 0.0)
  {
    var st := SimState(assets, [], baseNeed);
    RunScheduleLedger(st, sched, 0, baseNeed, baseDividend, currentYear, taxOf);
    RunScheduleBalances(st, sched, 0, baseNeed, baseDividend, currentYear, taxOf);
    if assets.nonRsuBasis >= 0.0 {
      RunScheduleBasis(st, sched, 0, baseNeed, baseDividend, currentYear, taxOf);
    }
    assert sched.years[0..] == sched.years;
  }

  /** Non-RSU stock sold towards the need in an after-schedule year: the
      assets after the sale, the amount sold and the tax on its gain. */
  datatype Sale = Sale(assets: Assets, proceeds: real, tax: real)

  /** The sale of an after-schedule year.  Without a positive non-RSU
      balance nothing is sold and no tax is computed. */
  function SellNonRsu(a: Assets, need: real, baseDividend: real, taxOf: Income -> real): (r: Result<Sale, SimError>)
    ensures a.nonRsu <= 0.0 ==> r == Success(Sale(a, 0.0, 0.0))
    ensures r.Failure? ==> r.error.UnsolvableSale?
  {
    if a.nonRsu <= 0.0 then Success(Sale(a, 0.0, 0.0))
    else
      var ratio := a.nonRsuBasis / a.nonRsu;
      var sale := StockSaleForNeed(need, ratio, CapitalGainsRate);
      if sale.None? then Failure(UnsolvableSale(ratio))
      else
        var amount := Min(sale.value, a.nonRsu);
        var income := NoIncome.(longTermGain := Scale(amount, 1.0 - ratio),
                                ordinaryDividend := if baseDividend > 0.0 then baseDividend else 0.0);
        Success(Sale(
          a.(nonRsu := a.nonRsu - amount, nonRsuBasis := a.nonRsuBasis - Scale(amount, ratio)),
          amount,
          taxOf(income)))
  }

  /** The sale never sells more than the balance, so the non-RSU balance
      stays non-negative; it fails only when the gross-up is unsolvable;
      and the other balances are untouched. */
  lemma SellNonRsuFacts(a: Assets, need: real, baseDividend: real, taxOf: Income -> real)
    ensures var r := SellNonRsu(a, need, baseDividend, taxOf);
      && (r.Failure? <==> a.nonRsu > 0.0 && StockSaleForNeed(need, a.nonRsuBasis / a.nonRsu, CapitalGainsRate).None?)
      && (r.Success? && a.nonRsu > 0.0 ==> 0.0 <= r.value.assets.nonRsu < a.nonRsu || r.value.proceeds <= 0.0)
      && (r.Success? && a.nonRsu >= 0.0 ==> r.value.assets.nonRsu >= 0.0 && r.value.proceeds <= a.nonRsu)
      && (r.Success? ==> r.value.assets.k401 == a.k401 && r.value.assets.rsu == a.rsu
                         && r.value.assets.roth == a.roth && r.value.assets.rsuBasis == a.rsuBasis)
  {
  }

  /** With a non-negative basis the gross-up always has a solution (a gain
      taxed at 20% never takes the whole sale), and selling at most the
      balance leaves a non-negative basis. */
  lemma SellNonRsuSolvable(a: Assets, need: real, baseDividend: real, taxOf: Income -> real)
    requires a.nonRsuBasis >= 0.0
    ensures SellNonRsu(a, need, baseDividend, taxOf).Success?
    ensures SellNonRsu(a, need, baseDividend, taxOf).value.assets.nonRsuBasis >= 0.0
  {
    if a.nonRsu > 0.0 {
      var ratio := a.nonRsuBasis / a.nonRsu;
      assert ratio >= 0.0;
      if ratio < 1.0 {
        MulLeftMonotone(CapitalGainsRate, 1.0 - ratio, 1.0);
        assert (1.0 - ratio) * CapitalGainsRate <= CapitalGainsRate;
      }
      var amount := Min(StockSaleForNeed(need, ratio, CapitalGainsRate).value, a.nonRsu);
      ScaleMonotone(ratio, amount, a.nonRsu);
      DivisionUndone(a.nonRsuBasis, a.nonRsu);
      assert Scale(ratio, a.nonRsu) == a.nonRsuBasis;
      assert Scale(amount, ratio) == Scale(ratio, amount);
    }
  }

  /** The Roth covers what the sale left uncovered, while something is
      left and as far as its balance goes; any remainder is recorded. */
  function CoverFromRoth(a: Assets, gaps: Gaps, year: int, need: real, gap: real): SimState
  {
    var draw := if gap > 0.0 then Min(gap, a.roth) else 0.0;
    var left := gap - draw;
    SimState(a.(roth := a.roth - draw), if left > 0.0 then Record(gaps, year, left) else gaps, need)
  }

  /** The Roth is drawn only while a gap is left and by no more than the
      gap, and a non-negative Roth stays non-negative; nothing else moves. */
  lemma CoverFromRothBalances(a: Assets, gaps: Gaps, year: int, need: real, gap: real)
    ensures var s := CoverFromRoth(a, gaps, year, need, gap);
      && s.need == need
      && (gap <= 0.0 ==> s.assets == a)
      && (a.roth >= 0.0 ==> 0.0 <= s.assets.roth <= a.roth && a.roth - s.assets.roth <= Max(gap, 0.0))
      && s.assets.(roth := a.roth) == a
  {
  }

  /** A year is recorded exactly when the gap exceeds what the Roth holds,
      with the excess as its amount, and nothing is removed from the
      ledger. */
  lemma CoverFromRothLedger(a: Assets, gaps: Gaps, year: int, need: real, gap: real)
    ensures var s := CoverFromRoth(a, gaps, year, need, gap);
      && Years(gaps) <= Years(s.gaps) <= Years(gaps) + {year}
      && (gap > Max(a.roth, 0.0) ==> AmountOf(s.gaps, year) == Some(gap - a.roth))
      && (gap <= Max(a.roth, 0.0) ==> s.gaps == gaps)
      && (AllPositive(gaps) ==> AllPositive(s.gaps))
  {
    var draw := if gap > 0.0 then Min(gap, a.roth) else 0.0;
    assert gap > Max(a.roth, 0.0) <==> gap - draw > 0.0;
    if gap - draw > 0.0 {
      assert draw == a.roth;
      RecordSets(gaps, year, gap - a.roth, year + 1);
      if AllPositive(gaps) {
        RecordKeepsPositive(gaps, year, gap - a.roth);
      }
    }
  }

  /** One year of `simulate_withdrawal_after_schedule` before growth: the
      need grows by a year of inflation, non-RSU stock is sold towards it
      and the Roth covers what the sale's after-tax proceeds leave open. */
  function AfterYearDrawn(st: SimState, year: int, baseDividend: real, taxOf: Income -> real): Result<SimState, SimError>
  {
    var need := Scale(st.need, 1.0 + InflationRate);
    var sold :- SellNonRsu(st.assets, need, baseDividend, taxOf);
    Success(CoverFromRoth(sold.assets, st.gaps, year, need, need - (sold.proceeds - sold.tax)))
  }

  /** The after-schedule years from `year` to the horizon. */
  function RunAfter(st: SimState, year: int, horizon: int, baseDividend: real, taxOf: Income -> real): (r: Result<SimState, SimError>)
    ensures r.Failure? ==> r.error.UnsolvableSale?
    decreases horizon - year
  {
    if year > horizon then Success(st)
    else
      var drawn :- AfterYearDrawn(st, year, baseDividend, taxOf);
      RunAfter(drawn.(assets := GrowAssets(drawn.assets, 1)), year + 1, horizon, baseDividend, taxOf)
  }

  /** With a non-negative non-RSU basis the after-schedule years never fail:
      the basis stays non-negative from year to year. */
  lemma {:induction false} RunAfterSolvable(st: SimState, year: int, horizon: int, baseDividend: real, taxOf: Income -> real)
    requires st.assets.nonRsuBasis >= 0.0
    ensures RunAfter(st, year, horizon, baseDividend, taxOf).Success?
    decreases horizon - year
  {
    if year <= horizon {
      var need := Scale(st.need, 1.0 + InflationRate);
      SellNonRsuSolvable(st.assets, need, baseDividend, taxOf);
      var drawn := AfterYearDrawn(st, year, baseDividend, taxOf).value;
      RunAfterSolvable(drawn.(assets := GrowAssets(drawn.assets, 1)), year + 1, horizon, baseDividend, taxOf);
    }
  }

  /** One after-schedule year adds at most its own year to the ledger, with
      a positive amount, and removes none. */
  lemma AfterYearLedger(st: SimState, year: int, baseDividend: real, taxOf: Income -> real)
    requires AfterYearDrawn(st, year, baseDividend, taxOf).Success?
    ensures var e := AfterYearDrawn(st, year, baseDividend, taxOf).value;
      && Years(st.gaps) <= Years(e.gaps) <= Years(st.gaps) + {year}
      && (AllPositive(st.gaps) ==> AllPositive(e.gaps))
  {
    var need := Scale(st.need, 1.0 + InflationRate);
    var sold := SellNonRsu(st.assets, need, baseDividend, taxOf).value;
    CoverFromRothLedger(sold.assets, st.gaps, year, need, need - (sold.proceeds - sold.tax));
  }

  /** One after-schedule year grows the need by a year of inflation and
      keeps the 401(k), RSU and (if non-negative) Roth balances as they
      are in sign. */
  lemma AfterYearBalances(st: SimState, year: int, baseDividend: real, taxOf: Income -> real)
    requires AfterYearDrawn(st, year, baseDividend, taxOf).Success?
    ensures var e := AfterYearDrawn(st, year, baseDividend, taxOf).value;
      && e.need == Scale(st.need, 1.0 + InflationRate)
      && e.assets.k401 == st.assets.k401 && e.assets.rsu == st.assets.rsu
      && (st.assets.roth >= 0.0 ==> e.assets.roth >= 0.0)
      && (st.assets.nonRsu >= 0.0 ==> e.assets.nonRsu >= 0.0)
  {
    var need := Scale(st.need, 1.0 + InflationRate);
    var sold := SellNonRsu(st.assets, need, baseDividend, taxOf).value;
    SellNonRsuFacts(st.assets, need, baseDividend, taxOf);
    CoverFromRothBalances(sold.assets, st.gaps, year, need, need - (sold.proceeds - sold.tax));
  }

  /** Over the after-schedule years no recorded year is lost, every new
      one lies between the first simulated year and the horizon, and every
      amount stays positive. */
  lemma {:induction false} RunAfterLedger(st: SimState, year: int, horizon: int, baseDividend: real, taxOf: Income -> real)
    requires RunAfter(st, year, horizon, baseDividend, taxOf).Success?
    ensures var e := RunAfter(st, year, horizon, baseDividend, taxOf).value;
      && Years(st.gaps) <= Years(e.gaps)
      && (forall y :: y in Years(e.gaps) && y !in Years(st.gaps) ==> year <= y <= horizon)
      && (AllPositive(st.gaps) ==> AllPositive(e.gaps))
    decreases horizon - year
  {
    if year <= horizon {
      var drawn := AfterYearDrawn(st, year, baseDividend, taxOf).value;
      AfterYearLedger(st, year, baseDividend, taxOf);
      RunAfterLedger(drawn.(assets := GrowAssets(drawn.assets, 1)), year + 1, horizon, baseDividend, taxOf);
    }
  }

  /** Over the after-schedule years the need compounds by inflation once a
      year, and the 401(k), RSU, non-RSU and Roth balances, if
      non-negative, stay non-negative. */
  lemma {:induction false} RunAfterBalances(st: SimState, year: int, horizon: int, baseDividend: real, taxOf: Income -> real)
    requires RunAfter(st, year, horizon, baseDividend, taxOf).Success?
    ensures var e := RunAfter(st, year, horizon, baseDividend, taxOf).value;
      && e.need == Compounded(st.need, if horizon >= year then horizon - year + 1 else 0, InflationRate)
      && (st.assets.k401 >= 0.0 ==> e.assets.k401 >= 0.0)
      && (st.assets.rsu >= 0.0 ==> e.assets.rsu >= 0.0)
      && (st.assets.roth >= 0.0 ==> e.assets.roth >= 0.0)
      && (st.assets.nonRsu >= 0.0 ==> e.assets.nonRsu >= 0.0)
    decreases horizon - year
  {
    if year > horizon {
      assert Pow(1.0 + InflationRate, 0) == 1.0;
    } else {
      var drawn := AfterYearDrawn(st, year, baseDividend, taxOf).value;
      AfterYearBalances(st, year, baseDividend, taxOf);
      GrownKeepsSigns(drawn.assets);
      RunAfterBalances(drawn.(assets := GrowAssets(drawn.assets, 1)), year + 1, horizon, baseDividend, taxOf);
      CompoundedStep(st.need, horizon - year, InflationRate);
    }
  }

  /** Growth keeps the 401(k), RSU and Roth balances non-negative. */
  lemma GrownKeepsSigns(a: Assets)
    ensures a.k401 >= 0.0 ==> GrowAssets(a, 1).k401 >= 0.0
    ensures a.rsu >= 0.0 ==> GrowAssets(a, 1).rsu >= 0.0
    ensures a.roth >= 0.0 ==> GrowAssets(a, 1).roth >= 0.0
    ensures a.nonRsu >= 0.0 ==> GrowAssets(a, 1).nonRsu >= 0.0
  {
    assert GrowAssets(a, 1).Get(K401) == GrowAssets(a, 1).k401 && a.Get(K401) == a.k401;
    assert GrowAssets(a, 1).Get(RsuStock) == GrowAssets(a, 1).rsu && a.Get(RsuStock) == a.rsu;
    assert GrowAssets(a, 1).Get(RothIra) == GrowAssets(a, 1).roth && a.Get(RothIra) == a.roth;
    assert GrowAssets(a, 1).Get(NonRsuStock) == GrowAssets(a, 1).nonRsu && a.Get(NonRsuStock) == a.nonRsu;
  }

  /** The outcome of the after-schedule phase. */
  datatype AfterResult = AfterResult(finalAssets: Assets, taxFreeWealth: real, gaps: Gaps,
                                     gapGrowthEffect: real, netWealthImpact: real)

  /** `simulate_withdrawal_after_schedule`: refuses a schedule that left
      more than half the last need in the 401(k) or in RSU stock, runs the
      years after the schedule up to the horizon, and values the heirs'
      wealth net of the recorded gaps grown to the horizon. */
  function AfterPhase(end: ScheduleEnd, horizon: int, baseDividend: real, taxOf: Income -> real): (r: Result<AfterResult, SimError>)
    ensures end.state.assets.k401 > Scale(0.5, end.state.need) ==> r == Failure(K401NotDepleted(end.state.assets.k401))
    ensures end.state.assets.k401 <= Scale(0.5, end.state.need) && end.state.assets.rsu > Scale(0.5, end.state.need)
      ==> r == Failure(RsuNotDepleted(end.state.assets.rsu))
    ensures r.Success? ==> end.state.assets.k401 <= Scale(0.5, end.state.need) && end.state.assets.rsu <= Scale(0.5, end.state.need)
    ensures r.Failure? ==> !r.error.EmptySchedule?
  {
    var a := end.state.assets;
    if a.k401 > Scale(0.5, end.state.need) then Failure(K401NotDepleted(a.k401))
    else if a.rsu > Scale(0.5, end.state.need) then Failure(RsuNotDepleted(a.rsu))
    else
      var fin :- RunAfter(end.state, end.simYear + 1, horizon, baseDividend, taxOf);
      Success(Valuation(fin, horizon))
  }

  /** The final valuation: the heirs' tax-free wealth, and the gaps grown
      to the horizon when there are any. */
  function Valuation(fin: SimState, horizon: int): AfterResult
  {
    var wealth := TaxFreeWealth(fin.assets);
    var growth := if |fin.gaps| > 0 then DepositGrowth(fin.gaps, horizon) else 0.0;
    AfterResult(fin.assets, wealth, fin.gaps, growth, wealth - growth)
  }

  /** The net wealth impact is the heirs' tax-free wealth less every gap
      grown to the horizon (the guard on an empty ledger changes nothing),
      and with positive gaps it never exceeds the tax-free wealth. */
  lemma ValuationNetWealth(fin: SimState, horizon: int)
    ensures var r := Valuation(fin, horizon);
      && r.taxFreeWealth == TaxFreeWealth(fin.assets)
      && r.netWealthImpact == TaxFreeWealth(fin.assets) - DepositGrowth(fin.gaps, horizon)
      && (AllPositive(fin.gaps) ==> r.netWealthImpact <= r.taxFreeWealth)
  {
    if AllPositive(fin.gaps) {
      DepositGrowthNonNegative(fin.gaps, horizon);
    }
  }

  /** The same for the whole after-schedule phase, which also keeps every
      year the schedule phase recorded. */
  lemma AfterPhaseNetWealth(end: ScheduleEnd, horizon: int, baseDividend: real, taxOf: Income -> real)
    requires AfterPhase(end, horizon, baseDividend, taxOf).Success?
    ensures var r := AfterPhase(end, horizon, baseDividend, taxOf).value;
      && r.netWealthImpact == TaxFreeWealth(r.finalAssets) - DepositGrowth(r.gaps, horizon)
      && (AllPositive(end.state.gaps) ==> r.netWealthImpact <= r.taxFreeWealth && AllPositive(r.gaps))
      && Years(end.state.gaps) <= Years(r.gaps)
  {
    var fin := RunAfter(end.state, end.simYear + 1, horizon, baseDividend, taxOf).value;
    RunAfterLedger(end.state, end.simYear + 1, horizon, baseDividend, taxOf);
    ValuationNetWealth(fin, horizon);
  }

  /** With a non-negative non-RSU basis the after-schedule phase fails
      exactly on its two depletion checks. */
  lemma AfterPhaseFailure(end: ScheduleEnd, horizon: int, baseDividend: real, taxOf: Income -> real)
    requires end.state.assets.nonRsuBasis >= 0.0
    ensures AfterPhase(end, horizon, baseDividend, taxOf).Failure?
      <==> end.state.assets.k401 > Scale(0.5, end.state.need) || end.state.assets.rsu > Scale(0.5, end.state.need)
  {
    RunAfterSolvable(end.state, end.simYear + 1, horizon, baseDividend, taxOf);
  }
}

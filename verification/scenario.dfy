/** The tax both simulators are run with, and `simulate_withdrawal_scenario`
    (withdrawal_rsu_401K.py:484-533), which chains the consolidated
    schedule, the schedule phase and the after-schedule phase. */
module Scenario {
  import opened Outcomes
  import opened TaxTypes
  import opened TaxTables
  import opened TaxEngine
  import opened Portfolio
  import opened Schedule
  import opened Consolidation
  import opened Ledger
  import opened WithdrawalSim

  /** `calculate_tax(income, FILING_STATUS)['total_tax']`: the simulators
      file jointly and `calculate_tax` without a configuration uses the
      2024 table. */
  function TaxMarriedJointly2024(inc: Income): real
  {
    match CalculateTax(inc, MarriedJointly, Config2024)
    case Some(t) => t.totalTax
    case None => 0.0
  }

  /** The 2024 table knows both standard deductions for a joint return, so
      the tax is always the report's total, and that total is the federal
      total plus the California tax. */
  lemma TaxMarriedJointly2024IsReported(inc: Income)
    ensures CalculateTax(inc, MarriedJointly, Config2024).Some?
    ensures TaxMarriedJointly2024(inc) == CalculateTax(inc, MarriedJointly, Config2024).value.totalTax
    ensures TaxMarriedJointly2024(inc)
      == CalculateTax(inc, MarriedJointly, Config2024).value.totalFederalTax
         + CalculateTax(inc, MarriedJointly, Config2024).value.californiaTax
  {
    assert AmountFor(Config2024.federalStandardDeduction, MarriedJointly) == 29200.0;
    assert AmountFor(Config2024.californiaStandardDeduction, MarriedJointly) == 11080.0;
  }

  /** The default `horizon_year`. */
  const DefaultHorizon: int := 2040

  /** Why a scenario fails: a window starting before the schedule's current
      year, or a simulator error. */
  datatype ScenarioError = ScheduleFailed(cause: ScheduleError) | SimulationFailed(reason: SimError)

  /** The result dictionary: the two windows, the net wealth impact and the
      final assets. */
  datatype ScenarioResult = ScenarioResult(k401Window: Window, rsuWindow: Window, netWealthImpact: real, finalAssets: Assets)

  /** `simulate_withdrawal_scenario`.  The clock is the parameter `thisYear`:
      the schedule is computed from the next year on, and the schedule phase
      inflates the need from this year. */
  function RunScenario(initial: Assets, need: real, baseDividend: real, k401Window: Window, rsuWindow: Window,
                       horizon: int, thisYear: int, taxOf: Income -> real): (r: Result<ScenarioResult, ScenarioError>)
    ensures r.Success? ==> r.value.k401Window == k401Window && r.value.rsuWindow == rsuWindow
  {
    var c := Consolidate(initial.k401, initial.rsu, k401Window, rsuWindow, thisYear + 1);
    if c.Failure? then Failure(ScheduleFailed(c.error))
    else Simulate(initial, c.value, need, baseDividend, k401Window, rsuWindow, horizon, thisYear, taxOf)
  }

  /** The two simulators run on a consolidated schedule.  Only a schedule
      without years fails with `EmptySchedule`. */
  function Simulate(initial: Assets, sched: Consolidated, need: real, baseDividend: real, k401Window: Window, rsuWindow: Window,
                    horizon: int, thisYear: int, taxOf: Income -> real): (r: Result<ScenarioResult, ScenarioError>)
    requires |sched.k401| >= |sched.years| && |sched.rsu| >= |sched.years|
    ensures r.Success? ==> r.value.k401Window == k401Window && r.value.rsuWindow == rsuWindow
    ensures r.Failure? ==> r.error.SimulationFailed?
    ensures r == Failure(SimulationFailed(EmptySchedule)) <==> |sched.years| == 0
  {
    var e := SchedulePhase(initial, sched, need, baseDividend, thisYear, taxOf);
    if e.Failure? then Failure(SimulationFailed(e.error))
    else
      var a := AfterPhase(e.value, horizon, baseDividend, taxOf);
      if a.Failure? then Failure(SimulationFailed(a.error))
      else Success(ScenarioResult(k401Window, rsuWindow, a.value.netWealthImpact, a.value.finalAssets))
  }

  /** A scenario fails on its schedule exactly when a non-empty window
      starts in `thisYear` or before, and the consolidated schedule is never
      empty, so the schedule phase never fails. */
  lemma RunScenarioFailure(initial: Assets, need: real, baseDividend: real, k401Window: Window, rsuWindow: Window,
                           horizon: int, thisYear: int, taxOf: Income -> real)
    ensures var r := RunScenario(initial, need, baseDividend, k401Window, rsuWindow, horizon, thisYear, taxOf);
      && ((r.Failure? && r.error.ScheduleFailed?)
          <==> ((!k401Window.IsEmpty() && k401Window.start <= thisYear)
                || (!rsuWindow.IsEmpty() && rsuWindow.start <= thisYear)))
      && r != Failure(SimulationFailed(EmptySchedule))
  {
    ConsolidateFailure(initial.k401, initial.rsu, k401Window, rsuWindow, thisYear + 1);
    YearsSpanWindows(k401Window, rsuWindow);
    var c := Consolidate(initial.k401, initial.rsu, k401Window, rsuWindow, thisYear + 1);
    if c.Success? {
      assert |c.value.years| > 0;
    }
  }

  /** With a non-negative non-RSU basis a scenario whose windows start
      after `thisYear` fails only on the after-schedule depletion checks. */
  lemma RunScenarioSimulationFailure(initial: Assets, need: real, baseDividend: real, k401Window: Window, rsuWindow: Window,
                                     horizon: int, thisYear: int, taxOf: Income -> real)
    requires initial.nonRsuBasis >= 0.0
    requires RunScenario(initial, need, baseDividend, k401Window, rsuWindow, horizon, thisYear, taxOf).Failure?
    requires RunScenario(initial, need, baseDividend, k401Window, rsuWindow, horizon, thisYear, taxOf).error.SimulationFailed?
    ensures var e := RunScenario(initial, need, baseDividend, k401Window, rsuWindow, horizon, thisYear, taxOf).error.reason;
      e.K401NotDepleted? || e.RsuNotDepleted?
  {
    var c := Consolidate(initial.k401, initial.rsu, k401Window, rsuWindow, thisYear + 1).value;
    YearsSpanWindows(k401Window, rsuWindow);
    assert |c.years| > 0;
    var e := SchedulePhase(initial, c, need, baseDividend, thisYear, taxOf).value;
    SchedulePhaseFacts(initial, c, need, baseDividend, thisYear, taxOf);
    RunAfterSolvable(e.state, e.simYear + 1, horizon, baseDividend, taxOf);
  }

  /** A successful scenario reports the heirs' tax-free wealth less a ledger
      of positive gaps grown to the horizon, so never more than that
      wealth. */
  lemma RunScenarioNetWealth(initial: Assets, need: real, baseDividend: real, k401Window: Window, rsuWindow: Window,
                             horizon: int, thisYear: int, taxOf: Income -> real)
    requires RunScenario(initial, need, baseDividend, k401Window, rsuWindow, horizon, thisYear, taxOf).Success?
    ensures var r := RunScenario(initial, need, baseDividend, k401Window, rsuWindow, horizon, thisYear, taxOf).value;
      && (exists gaps: Gaps ::
            && AllPositive(gaps)
            && r.netWealthImpact == TaxFreeWealth(r.finalAssets) - DepositGrowth(gaps, horizon))
      && r.netWealthImpact <= TaxFreeWealth(r.finalAssets)
  {
    var c := Consolidate(initial.k401, initial.rsu, k401Window, rsuWindow, thisYear + 1).value;
    assert Simulate(initial, c, need, baseDividend, k401Window, rsuWindow, horizon, thisYear, taxOf).Success?;
    var e := SchedulePhase(initial, c, need, baseDividend, thisYear, taxOf).value;
    SchedulePhaseFacts(initial, c, need, baseDividend, thisYear, taxOf);
    AfterPhaseNetWealth(e, horizon, baseDividend, taxOf);
    var a := AfterPhase(e, horizon, baseDividend, taxOf).value;
    assert AllPositive(a.gaps) && a.netWealthImpact == TaxFreeWealth(a.finalAssets) - DepositGrowth(a.gaps, horizon);
  }
}

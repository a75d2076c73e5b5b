# Retirement withdrawal and tax model

This project models, in Dafny, the arithmetic core of a retirement-planning
tool. The tool does four things:

- It estimates the US federal and California income tax of a household. The
  federal tax includes the Additional Medicare Tax, the Net Investment Income
  Tax and the taxable part of Social Security benefits.
- It serves tax tables for 2023 and 2024, and scales the 2024 table by
  inflation for any later year.
- It plans withdrawals from a 401(k) and from RSU stock. It simulates the
  years of the withdrawal schedule and then the years up to a horizon, and
  values what the heirs would receive free of tax.
- It simulates converting a 401(k) into a Roth IRA over a number of years.

The model states what each routine promises and proves it against the
routine's own definition, with all money as exact `real`.

Each module corresponds to one part of the program:

| module | file | models |
|---|---|---|
| `Numeric` | numeric.dfy | min/max, powers, compounding, sums |
| `Rounding` | rounding.dfy | Python's `int()`, `round()` and `round(x, 2)` |
| `TaxTypes`, `TaxTables` | tax_types.dfy, tax_tables.dfy | the configuration record and the two hand-authored tables |
| `Brackets` | brackets.dfy | the progressive bracket walk and the preferential-rate lookup |
| `TaxConfig` | tax_config.dfy | inflation indexing and the year dispatch of the configuration provider |
| `TaxEngine` | tax_engine.dfy | the federal, California, Medicare, NIIT and Social Security rules, `calculate_tax`, and facts about the 2024 brackets |
| `Portfolio` | portfolio.dfy | the asset record, tax-free wealth and asset growth |
| `Schedule` | schedule.dfy | the single-asset annuity schedule and its depletion identity |
| `Consolidation` | consolidation.dfy | the zero-padded two-asset schedule |
| `Ledger` | ledger.dfy | the ledger of yearly income gaps and their growth to the horizon |
| `WithdrawalSim` | withdrawal_sim.dfy | the stock-sale gross-up, the schedule phase and the after-schedule phase |
| `RothConversion` | roth_conversion.dfy | the Roth-conversion simulator |
| `Scenario` | scenario.dfy | the tax the simulators use and the chained withdrawal scenario |

Modelling choices:

- A bracket's upper bound is `Bound = Finite(value) | Unbounded`; `Unbounded`
  stands for `float('inf')`.
- Per-status tables are maps that may lack a status, so the "status not
  found" paths are reachable.
- Filing statuses are the four the tables know, plus any other spelling.
- The clock is a parameter. The schedule generator uses the year after it and
  the schedule simulator uses the year itself.
- Both simulators take the tax of a year as a function `taxOf` of the income
  record. The program always passes the 2024 married-filing-jointly tax,
  which the model defines as `Scenario.TaxMarriedJointly2024`.

Where the code and its own documentation differ, the model follows the code:

- The Roth-conversion docstring says Social Security offsets the conversion
  for years *after* the start year. The code uses `year >= ss_start_year`.
- The docstring of `stock_sale_for_annual_need` derives the sale from an
  absolute cost basis. The code applies the basis *ratio* to the gain.

The preferential-rate lookup of the federal tax is modelled twice, as
written and corrected. The federal tax uses the corrected lookup (see
"## Findings"), so it departs from the program on fractional incomes that
fall between two brackets ("## Left out" says where).

Other behaviours the model keeps:

- With both withdrawal windows empty, the consolidated schedule still has one
  year, year 0, with nothing scheduled.
- The withdrawal schedule is computed as if the account grew for a year
  before each withdrawal, but the simulator withdraws first and then grows
  the rest. Spent that way the schedule overdraws the account in its last
  year by 6% of the projected balance grown for one year fewer than there
  are withdrawals. The simulator's cap on each draw at the balance absorbs
  the overdraw (withdrawal_rsu_401K.py:307-308).
- The equal-rates branch of the annuity formula (`projected / n`) is
  unreachable with the constants 6% and 3%. The model keeps it and proves
  what it promises.

## Model

| member | source | states |
|---|---|---|
| `Rounding.Truncate` | tax_configs.py:376-377 | `int(x)` truncates toward zero: the result is the integer at or below a non-negative `x` and at or above a negative one, less than one away |
| `Rounding.RoundHalfEven` | tax_configs.py:381 | Python's `round` gives an integer at most 1/2 away, and on an exact half the even one |
| `Rounding.RoundHalfEvenMonotone` | tax_configs.py:381 | rounding never reverses the order of two amounts |
| `Rounding.RoundCents` | tax_estimate.py:82 | `round(x, 2)` is a whole number of cents within half a cent of `x` |
| `Rounding.RoundCentsOfCents` | tax_estimate.py:398-410 | rounding an amount that is already whole cents leaves it unchanged |
| `Brackets.ShareOf` | tax_estimate.py:75 | a bracket takes at most what remains and at most `upper - lower + 1`, and everything that remains when the bracket is unbounded |
| `Brackets.SharesWithinWidths` | tax_estimate.py:69-77 | every share of the walk fits in its bracket's width |
| `Brackets.ShareWithinRemaining` | tax_estimate.py:71-77 | each bracket is entered only while income remains, and takes no more than remains |
| `Brackets.WalkStopsWhenExhausted` | tax_estimate.py:71-72 | a walk that stops before the last bracket has used up the income |
| `Brackets.SharesCoverIncome` | tax_estimate.py:69-77 | with an unbounded top bracket, the shares add up to the positive part of the income |
| `Brackets.BracketTaxIsRateWeightedShares` | tax_estimate.py:76 | the accumulated tax is the sum of each share times its bracket's rate |
| `Brackets.BracketTaxNonNegative` | tax_estimate.py:69-77 | with non-negative widths and rates the walk's tax is non-negative |
| `Brackets.BracketTaxMonotone` | tax_estimate.py:108-117 | with non-negative widths and rates, more income never means less tax |
| `Brackets.PreferentialRateAsWritten` | tax_estimate.py:45-58 | as written, the rate is that of the first bracket with `lower <= x <= upper`, or `lower <= x` for the unbounded one, and 0 when none matches |
| `Brackets.PreferentialRate` | tax_estimate.py:45-58 | the corrected lookup: the rate is that of the first bracket holding the income, a bracket holding every income above `lower - 1` up to `upper`, and 0 when none holds it |
| `Brackets.PreferentialRateAgreesOnWholeDollars` | tax_estimate.py:45-58 | with whole-dollar lower bounds, the corrected lookup and the one as written agree on every whole-dollar income |
| `Brackets.PreferentialRateNonNegative` | tax_estimate.py:45-58 | non-negative bracket rates give a non-negative preferential rate |
| `Brackets.PreferentialRateMonotone` | tax_estimate.py:45-58 | corrected lookup: on a table whose brackets meet, end unbounded and have non-negative ascending rates, more income never finds a lower rate; the lookup as written does not promise this |
| `TaxEngine.PreferentialTaxed` | tax_estimate.py:42-43 | the preferentially taxed amount is the smaller of the preferential income and the taxable income, so the ordinary remainder is never negative, and it is non-negative for non-negative inputs |
| `TaxEngine.FederalTax` | tax_estimate.py:13-83 | the federal tax is whole cents within half a cent of the exact tax; it is 0 for a status in neither table, and 0 on zero taxable income with a non-negative preferential amount |
| `TaxEngine.FederalTaxAllOrdinary` | tax_estimate.py:43-82 | with no preferential income the federal tax is the rounded ordinary bracket walk |
| `TaxEngine.FederalTaxNonNegative` | tax_estimate.py:43-82 | sane tables and non-negative incomes give a non-negative federal tax |
| `TaxEngine.FederalTaxMonotoneOrdinary` | tax_estimate.py:66-82 | without preferential income, the federal tax never falls as taxable income rises |
| `TaxEngine.FederalTaxMonotone` | tax_estimate.py:13-83 | corrected lookup: with sane ordinary tables and orderly preferential tables, the federal tax never falls as taxable income rises, for any fixed preferential income; the program as written does not promise this |
| `TaxEngine.FederalTaxAgreesOnWholeDollars` | tax_estimate.py:13-83 | with whole-dollar lower bounds, the federal tax as written and the corrected one agree on every whole-dollar taxable income |
| `TaxEngine.Preferential2024Orderly` | tax_configs.py:73-94 | every 2024 preferential table has meeting brackets, an unbounded top, ascending non-negative rates and whole-dollar lower bounds |
| `TaxEngine.Ordinary2024Sane` | tax_configs.py:32-71 | no 2024 ordinary bracket has a negative width or rate |
| `TaxEngine.PreferentialGapAsWritten` | tax_estimate.py:45-58 | as written, the 2024 joint preferential rate is 15% at 583,750.00 and 0 at 583,750.50, and with all of that income preferential the federal tax falls as income rises |
| `TaxEngine.FederalTax2024Monotone` | tax_estimate.py:13-83 | corrected, the 2024 joint rate at 583,750.50 is 20%, and under the 2024 table the federal tax never falls as taxable income rises, for every status and preferential amount |
| `TaxEngine.FederalTaxDepartsInGap` | tax_estimate.py:45-58 | at 583,750.50 of 2024 joint taxable income, all preferential, the program's federal tax is 0 while the corrected one exceeds 116,750 |
| `TaxEngine.CaliforniaTax` | tax_estimate.py:86-122 | the state tax is 0 for an unknown status or non-positive income, and otherwise within half a cent of the bracket walk |
| `TaxEngine.CaliforniaTaxMonotone` | tax_estimate.py:108-122 | the state tax is non-negative and non-decreasing in taxable income |
| `TaxEngine.MedicareTax` | tax_estimate.py:125-153 | the Additional Medicare Tax is 0 with a missing or zero threshold or wages at or below it, and otherwise the rate times the excess, to the cent |
| `TaxEngine.MedicareTaxMonotone` | tax_estimate.py:144-153 | the Medicare surtax is non-negative and non-decreasing in wages |
| `TaxEngine.NiitBase` | tax_estimate.py:182-199 | the NIIT base is the smaller of the net investment income and the AGI excess over the threshold |
| `TaxEngine.Niit` | tax_estimate.py:156-202 | the NIIT is 0 with a missing threshold, and otherwise the rate times the base, to the cent |
| `TaxEngine.NiitBounds` | tax_estimate.py:176-202 | the NIIT is non-negative, and 0 when AGI does not exceed the threshold |
| `TaxEngine.SsTaxable` | tax_estimate.py:205-255 | the taxable benefit is 0 for no benefit, an unknown status or combined income at or below the first threshold, and always lies in [0, 85% of the benefit] |
| `TaxEngine.SsTieredMonotone` | tax_estimate.py:240-249 | the tiered formula never falls as combined income rises |
| `TaxEngine.SsTaxableMonotoneInOtherIncome` | tax_estimate.py:221-253 | more other income never makes less of the benefit taxable |
| `TaxEngine.SsTieredMonotoneInBenefit` | tax_estimate.py:240-249 | at a fixed combined income, the tiered formula never falls as the benefit rises |
| `TaxEngine.SsTaxableMonotoneInBenefit` | tax_estimate.py:205-255 | with sane thresholds, at fixed other income a larger benefit never makes less of it taxable |
| `TaxEngine.AssembleIsConsistent` | tax_estimate.py:370-411 | with taxes already in cents, the rounded totals are exactly the sums of the rounded parts |
| `TaxEngine.CalculateTax` | tax_estimate.py:258-411 | there is no result exactly when the federal or the California standard deduction is missing or zero; otherwise total federal = income tax + Medicare + NIIT, total = federal + California, the taxable incomes are non-negative, and the effective rates are 0 without positive income |
| `TaxEngine.CalculateTaxTaxableIncomes` | tax_estimate.py:337-384 | the reported federal taxable income is the AGI less the federal deduction, and the California one the gross income before benefits less the California deduction, each floored at 0, to the cent |
| `TaxEngine.CaliforniaIgnoresSocialSecurity` | tax_estimate.py:383-387 | changing only the benefit leaves the California taxable income and tax unchanged |
| `TaxEngine.QualifiedDividendOnlyMovesFederalIncomeTax` | tax_estimate.py:315-387 | changing only the qualified dividend moves neither the taxable incomes nor the benefits' taxable part, Medicare, NIIT or the California tax |
| `TaxEngine.TaxesNonNegative` | tax_estimate.py:337-391 | with non-negative incomes, sane tables and non-negative rates, every tax in the result is non-negative |
| `TaxConfig.AdjustAmount` | tax_configs.py:366-381 | no years means truncation; otherwise the result is the compounded amount rounded, at most 1/2 away, at the default 3% when no rate is given |
| `TaxConfig.AdjustAmountKeepsWholeAmounts` | tax_configs.py:376-381 | a whole amount is unchanged when there are no years or the rate is 0 |
| `TaxConfig.AdjustAmountCompounds` | tax_configs.py:378-381 | for positive years the adjusted amount is Python's `round` of the amount compounded at the rate |
| `TaxConfig.AdjustAmountMonotoneInRate` | tax_configs.py:378-381 | for a non-negative amount, a higher inflation rate never gives a smaller adjusted amount |
| `TaxConfig.AdjustBrackets` | tax_configs.py:383-402 | the same number of brackets, each keeping its rate; an unbounded bracket stays unbounded and finite bounds are adjusted |
| `TaxConfig.AdjustBracketsMonotoneInRate` | tax_configs.py:393-402 | a higher rate gives a table of the same shape whose every bound is at least as large |
| `TaxConfig.AdjustBracketTable` | tax_configs.py:469-483 | a per-status bracket table keeps its statuses and each status's brackets are adjusted |
| `TaxConfig.AdjustAmounts` | tax_configs.py:404-441 | a deduction table or a flat threshold table keeps its keys and every amount is adjusted |
| `TaxConfig.AdjustSsThresholds` | tax_configs.py:421-441 | the nested Social Security table keeps its statuses, and both thresholds of each are adjusted |
| `TaxConfig.AdjustAmountsAtBaseYear` | tax_configs.py:404-419 | with no years to adjust, a table of whole amounts comes back unchanged |
| `TaxConfig.GenerateFutureTaxConfig` | tax_configs.py:443-494 | a target at or before the base year is delegated without the rate; a later one is the 2024 table with every deduction, bracket bound and threshold scaled by the given or default rate, and the rates copied |
| `TaxConfig.GetTaxConfig` | tax_configs.py:496-519 | 2023 and 2024 give their own tables, later years a scaled 2024 table, and every other year the 2024 table |
| `TaxConfig.AvailableTaxYears` | tax_configs.py:521-528 | a year is listed exactly when the provider serves it its own hand-authored table |
| `TaxConfig.OverrideIgnoredForKnownYears` | tax_configs.py:510-516 | an inflation override for 2023 or 2024 is silently ignored |
| `TaxConfig.OverrideUsedForLaterYears` | tax_configs.py:512-513 | for a year after 2024 the override is the rate used to scale |
| `TaxConfig.SynthesisMonotoneInRate` | tax_configs.py:443-494 | for a later year, a higher override gives every federal and California deduction, every bound of the three bracket tables, every Medicare and NIIT threshold and both Social Security thresholds at least as large, with the same statuses and bracket counts |
| `TaxConfig.Config2024NonNegative` | tax_configs.py:13-187 | every deduction, bracket bound and threshold of the 2024 table is non-negative |
| `Portfolio.TaxFreeWealthClosedForm` | withdrawal_rsu_401K.py:50-65 | the tax-free wealth is 65% of a positive 401(k) plus every positive Roth and stock balance; cost bases never count |
| `Portfolio.TaxFreeWealthNonNegative` | withdrawal_rsu_401K.py:60-65 | the tax-free wealth is never negative |
| `Portfolio.TaxFreeWealthMonotone` | withdrawal_rsu_401K.py:60-65 | larger balances never give less tax-free wealth |
| `Portfolio.GrowAssets` | withdrawal_rsu_401K.py:118-134 | cost bases and non-positive balances are unchanged, and no non-negative balance shrinks |
| `Portfolio.GrowAssetsRates` | withdrawal_rsu_401K.py:29-34 | positive 401(k), Roth and non-RSU balances compound at 6%, a positive RSU balance at 80% of that |
| `Portfolio.GrowAssetsTwice` | withdrawal_rsu_401K.py:129-132 | growing for `m` years and then `n` is growing for `m + n` |
| `Portfolio.GrowAssetsNoYears` | withdrawal_rsu_401K.py:129-132 | growing for zero years changes nothing |
| `Schedule.SingleAssetSchedule` | withdrawal_rsu_401K.py:136-168 | fails exactly when the start is before the current year, or else when the end is before the start; otherwise it has one entry per year of the window |
| `Schedule.SingleAssetScheduleEntry` | withdrawal_rsu_401K.py:165-167 | entry `k` is the first withdrawal grown by `k` years of inflation, and each entry is the previous one times `1 + i` |
| `Schedule.SingleAssetSchedulePositive` | withdrawal_rsu_401K.py:155-167 | a positive amount gives positive withdrawals |
| `Schedule.SingleAssetScheduleDepletes` | withdrawal_rsu_401K.py:139-167 | the account grown to the start year and then drawn by the schedule while growing at 6% ends at exactly 0 |
| `Schedule.WithdrawingFirstIsGrownShortfall` | withdrawal_rsu_401K.py:307-363 | withdrawing first and then growing leaves the balance less the present value grown by a year, grown for one year fewer than there are withdrawals |
| `Schedule.SingleAssetScheduleOverdrawsWithdrawingFirst` | withdrawal_rsu_401K.py:136-167 | spent withdrawal first, as the simulator spends it, the schedule ends `6%` of the projected balance grown for `n - 1` years below zero, which is negative for a positive amount |
| `Schedule.AnnuityPresentValue` | withdrawal_rsu_401K.py:155-165 | for rates `-1 < i < g`, the withdrawals discounted at `g` add up to the projected value |
| `Schedule.AnnuityDepletes` | withdrawal_rsu_401K.py:139-167 | for rates `-1 < i < g`, the projected value drawn down by the schedule ends at exactly 0 |
| `Schedule.FirstWithdrawalSolves` | withdrawal_rsu_401K.py:165 | the first withdrawal times `1 - ((1+i)/(1+g))^n` is the projected value times `g - i`, and the divisor lies in (0, 1] |
| `Schedule.FirstWithdrawalEqualRates` | withdrawal_rsu_401K.py:161-163 | with equal rates, `n` withdrawals of the first amount make up the projected value |
| `Schedule.FirstWithdrawalPositive` | withdrawal_rsu_401K.py:155-165 | a positive projected value gives a positive first withdrawal |
| `Schedule.GeometricEntry` | withdrawal_rsu_401K.py:167 | the k-th entry of the list comprehension is `w * a^k` |
| `Consolidation.WindowSchedule` | withdrawal_rsu_401K.py:184-193 | an empty window gives no withdrawals; otherwise the schedule fails exactly when the window starts before the current year |
| `Consolidation.YearsSpanWindows` | withdrawal_rsu_401K.py:194-195 | the first and last years are the earliest start and latest end of the non-empty windows, and first ≤ last |
| `Consolidation.PaddedEntry` | withdrawal_rsu_401K.py:198-201 | a padded list covers every year, with the schedule inside its window and 0 outside |
| `Consolidation.Consolidate` | withdrawal_rsu_401K.py:170-208 | `years` and `total` have one entry per year from first to last, and neither padded list is shorter |
| `Consolidation.ConsolidateFailure` | withdrawal_rsu_401K.py:184-193 | consolidation fails exactly when a non-empty window starts too early, with the 401(k) window reported first |
| `Consolidation.ConsolidateEntry` | withdrawal_rsu_401K.py:195-208 | with both windows non-empty: all lists have equal length, the years count up from the first, each entry is the stream's schedule inside its window and 0 outside, and each total is the sum of the two |
| `Consolidation.ConsolidateEmptyWindowIsZero` | withdrawal_rsu_401K.py:186-203 | a stream with an empty window contributes 0 in every year |
| `Consolidation.ConsolidateBothEmpty` | withdrawal_rsu_401K.py:194-208 | with both windows empty the schedule is the single year 0 with total 0 |
| `Ledger.Record` | withdrawal_rsu_401K.py:337 | writing a year's gap adds an entry exactly when the year is new |
| `Ledger.RecordSets` | withdrawal_rsu_401K.py:337 | a written year is present with the new amount, and every other year keeps its amount |
| `Ledger.RecordKeepsDistinct` | withdrawal_rsu_401K.py:337 | no year appears twice in the ledger |
| `Ledger.RecordKeepsPositive` | withdrawal_rsu_401K.py:335-337 | writing a positive gap keeps every recorded gap positive |
| `Ledger.RecordAppendsNew` | withdrawal_rsu_401K.py:337 | a new year goes at the end, in insertion order |
| `Ledger.FutureValueBounds` | withdrawal_rsu_401K.py:250-258 | a non-negative gap is worth at least itself at a later horizon and nothing after it |
| `Ledger.DepositGrowthNonNegative` | withdrawal_rsu_401K.py:233-259 | positive gaps have non-negative total growth |
| `Ledger.DepositGrowthRecordNew` | withdrawal_rsu_401K.py:247-259 | a new gap adds exactly its future value, and a gap after the horizon adds nothing |
| `WithdrawalSim.StockSaleForNeed` | withdrawal_rsu_401K.py:211-231 | there is no sale exactly when the basis ratio is below 1 and the gross-up divisor `1 - (1 - ratio) * rate` is zero, where the source divides by zero |
| `WithdrawalSim.StockSaleGrossUp` | withdrawal_rsu_401K.py:227-231 | the sale less the tax on its gain is the need; a basis ratio of 1 or more sells exactly the need; for ratio and rate in [0, 1) the sale is at least the need |
| `WithdrawalSim.CappedDrawFacts` | withdrawal_rsu_401K.py:307-308 | draws are capped by the schedule and the balances, so balances stay non-negative; a draw the balance covers is the scheduled amount; nothing else changes |
| `WithdrawalSim.RsuRatioPreserved` | withdrawal_rsu_401K.py:297-326 | the RSU basis-to-value ratio is the same after the draw |
| `WithdrawalSim.SettleFacts` | withdrawal_rsu_401K.py:329-347 | a shortfall records that year's gap exactly and moves no asset; a surplus leaves the ledger alone, the Roth and the non-RSU stock together receive exactly the surplus, the Roth the smaller of the surplus and the 401(k) draw, and the stock's basis grows with it |
| `WithdrawalSim.ScheduleYearLedger` | withdrawal_rsu_401K.py:291-363 | a schedule year adds at most its own year to the ledger, removes none, and keeps gaps positive |
| `WithdrawalSim.ScheduleYearBalances` | withdrawal_rsu_401K.py:307-363 | after a schedule year the 401(k) and RSU balances are non-negative |
| `WithdrawalSim.ScheduleYearBasis` | withdrawal_rsu_401K.py:324-363 | a schedule year keeps a non-negative non-RSU basis non-negative |
| `WithdrawalSim.RunScheduleLedger` | withdrawal_rsu_401K.py:291-363 | over the schedule no recorded year is lost, new years come from the schedule, and gaps stay positive |
| `WithdrawalSim.RunScheduleBalances` | withdrawal_rsu_401K.py:291-363 | after any schedule year the 401(k) and RSU balances are non-negative |
| `WithdrawalSim.RunScheduleBasis` | withdrawal_rsu_401K.py:291-363 | the schedule keeps a non-negative non-RSU basis non-negative |
| `WithdrawalSim.SchedulePhase` | withdrawal_rsu_401K.py:263-370 | the schedule phase fails exactly on a schedule with no years |
| `WithdrawalSim.SchedulePhaseFacts` | withdrawal_rsu_401K.py:263-370 | it ends in the schedule's last year with non-negative 401(k) and RSU balances, positive gaps, gap years from the schedule, and a non-negative basis kept so |
| `WithdrawalSim.SellNonRsu` | withdrawal_rsu_401K.py:411-431 | without a positive non-RSU balance nothing is sold and no tax is paid; the only failure is an unsolvable gross-up |
| `WithdrawalSim.SellNonRsuFacts` | withdrawal_rsu_401K.py:411-433 | the sale fails exactly on an unsolvable gross-up, never sells more than the balance, and touches no other account |
| `WithdrawalSim.SellNonRsuSolvable` | withdrawal_rsu_401K.py:411-422 | with a non-negative basis the gross-up always has a solution and the basis stays non-negative |
| `WithdrawalSim.CoverFromRothBalances` | withdrawal_rsu_401K.py:436-440 | the Roth is drawn only while a gap remains and by at most the gap, stays non-negative, and nothing else moves |
| `WithdrawalSim.CoverFromRothLedger` | withdrawal_rsu_401K.py:436-445 | a year is recorded exactly when the gap exceeds the Roth, with the excess as its amount |
| `WithdrawalSim.AfterYearLedger` | withdrawal_rsu_401K.py:397-445 | an after-schedule year adds at most its own year to the ledger and keeps gaps positive |
| `WithdrawalSim.AfterYearBalances` | withdrawal_rsu_401K.py:397-462 | the need grows by a year of inflation; the 401(k) and RSU are untouched; Roth and non-RSU stay non-negative |
| `WithdrawalSim.RunAfter` | withdrawal_rsu_401K.py:397-462 | the after-schedule years can fail only on an unsolvable stock sale |
| `WithdrawalSim.RunAfterSolvable` | withdrawal_rsu_401K.py:397-462 | with a non-negative basis the after-schedule years never fail |
| `WithdrawalSim.RunAfterLedger` | withdrawal_rsu_401K.py:397-462 | no recorded year is lost, new years lie between the first simulated year and the horizon, and gaps stay positive |
| `WithdrawalSim.RunAfterBalances` | withdrawal_rsu_401K.py:397-462 | the need compounds by inflation once per year, and non-negative balances stay non-negative |
| `WithdrawalSim.AfterPhase` | withdrawal_rsu_401K.py:372-480 | the phase refuses a 401(k), then an RSU balance, above half the last need, and succeeds only when both are within it |
| `WithdrawalSim.AfterPhaseFailure` | withdrawal_rsu_401K.py:391-394 | with a non-negative basis the phase fails exactly on the two depletion checks |
| `WithdrawalSim.ValuationNetWealth` | withdrawal_rsu_401K.py:465-479 | the net wealth impact is the tax-free wealth less all gaps grown to the horizon, and never more than that wealth with positive gaps |
| `WithdrawalSim.AfterPhaseNetWealth` | withdrawal_rsu_401K.py:372-480 | the same holds for the whole phase, which keeps every year recorded before it |
| `RothConversion.ConversionBounds` | convert_401K_to_Roth.py:63-69 | a year's conversion never exceeds the balance or the plan; it is non-negative for a non-negative plan and balance; a positive benefit is taken off the plan, never below 0 |
| `RothConversion.ConvertYearBenefit` | convert_401K_to_Roth.py:64-84 | before the start year the benefit changes nothing; from it on, a benefit within the plan reduces what reaches the Roth by exactly itself |
| `RothConversion.ConvertYearFacts` | convert_401K_to_Roth.py:69-84 | a year keeps 401(k) + Roth, grown by the real rate; the 401(k) is never negative; the Roth never shrinks under a non-negative plan |
| `RothConversion.RunTotalIsSum` | convert_401K_to_Roth.py:61-78 | the running tax total is the sum of the yearly taxes |
| `RothConversion.RunBalances` | convert_401K_to_Roth.py:61-84 | both accounts together grow as one balance at the real rate, and non-negative accounts stay non-negative |
| `RothConversion.NetWealthClosedForm` | convert_401K_to_Roth.py:91-92 | with neither account negative, the net wealth is Roth + 0.65 × 401(k) − tax |
| `RothConversion.SimulateRothConversion` | convert_401K_to_Roth.py:21-99 | the simulation fails exactly on a zero divisor with years to simulate, and reports the strategy's label |
| `RothConversion.SimulateRothConversionSummary` | convert_401K_to_Roth.py:56-99 | total tax = sum of yearly taxes; final 401(k) + Roth = initial balance compounded; for a non-negative balance and positive divisor, net wealth = Roth + 0.65 × 401(k) − tax |
| `Scenario.TaxMarriedJointly2024IsReported` | withdrawal_rsu_401K.py:319-321 | the 2024 joint-filing tax always has a result, and it is total federal tax plus California tax |
| `Scenario.Simulate` | withdrawal_rsu_401K.py:509-522 | the simulators fail with an empty schedule exactly when the schedule has no years |
| `Scenario.RunScenario` | withdrawal_rsu_401K.py:484-533 | a successful scenario reports the windows it was given |
| `Scenario.RunScenarioFailure` | withdrawal_rsu_401K.py:504-522 | the scenario fails on its schedule exactly when a non-empty window starts in the current year or earlier, and never fails for an empty schedule |
| `Scenario.RunScenarioSimulationFailure` | withdrawal_rsu_401K.py:509-522 | with a non-negative basis, a simulator failure is always one of the two depletion checks |
| `Scenario.RunScenarioNetWealth` | withdrawal_rsu_401K.py:516-531 | the net wealth impact is the final tax-free wealth less a ledger of positive gaps grown to the horizon, so never more than that wealth |

## Left out

- Plotting, the 3-D search view and the console tables are user interface
  and printing, not arithmetic. This covers `exhaustive_search_with_visualization`,
  `plot_net_wealth_curve`, `print_*`, `compare_withdrawal_scenarios` and the
  debug flags.
- `grid_search_roth_conversion` and the `__main__` drivers only orchestrate
  and print.
- The clock (`datetime.now()`) is a parameter, `thisYear` or `currentYear`.
  The `horizon_year` default of 2040 is the constant
  `Scenario.DefaultHorizon`.
- Money is exact `real`. Binary floating-point rounding is not modelled.
  Python's `round` and `int` are modelled exactly on reals.
- The debug fields `inflation_rate_used` and `base_year` of a synthesised
  table are represented by an origin tag, not by separate numbers.
- The summary dictionaries' `label` and the scenario's window years are
  carried through unchanged; nothing is proved about them beyond that.
- The per-year debug totals (`total_assets`, `total_tax_free`) of both
  simulators only feed printing.
- The simulators' tax is the parameter `taxOf`. The proofs about the
  simulators hold for every tax function. The 2024 joint-filing tax is
  connected to them only through `Scenario.TaxMarriedJointly2024`.
- TaxEngine.FederalTax: uses the corrected preferential-rate lookup, not the
  lookup as written (see "## Findings"). For a fractional taxable income
  strictly between two whole-dollar brackets it differs from
  `get_federal_tax`. Example: 2024, married filing jointly, 583,750.50 of
  taxable income, all of it preferential. The program gives 0. The model
  gives about 116,750.10, at 20% (`TaxEngine.FederalTaxDepartsInGap`). On every whole-dollar taxable income the two
  agree (`TaxEngine.FederalTaxAgreesOnWholeDollars`). The program's
  computation is `TaxEngine.FederalTaxAsWritten`.
- TaxEngine.CalculateTax: the federal income tax in the report has the same
  divergence, for a fractional federal taxable income inside a gap, and so do
  the report's federal and overall totals and effective rates.
- Scenario.TaxMarriedJointly2024: the tax both simulators run with inherits
  the same divergence through `TaxEngine.CalculateTax`. The withdrawal
  scenario and the Roth-conversion simulator therefore differ from the
  program only in years whose federal taxable income falls inside a gap.
- The annuity identity (`Schedule.AnnuityPresentValue`,
  `Schedule.AnnuityDepletes`) is proved for `-1 < i < g`, which covers the
  program's 3% and 6%. The case `i > g` is not needed by the program and is
  not proved.

## Findings

| source | as written | input that shows it | evidently intended | confidence | as-written member | corrected member |
|---|---|---|---|---|---|---|
| tax_estimate.py:45-58 | a bracket matches `lower <= x <= upper`; the tables' whole-dollar bounds leave a one-dollar gap between consecutive brackets, and an income in the gap gets rate 0 | 2024, married filing jointly, taxable income 583,750.50, all of it qualified dividends: the rate is 0 and the tax is 0, while at 583,750.00 the tax is 87,562.50 | a bracket holds every income above the previous bracket's upper bound, so the rate never falls as income rises | not executed | `TaxEngine.PreferentialGapAsWritten` (`Brackets.PreferentialRateAsWritten`, `TaxEngine.FederalTaxAsWritten`) | `Brackets.PreferentialRate`, with `Brackets.PreferentialRateMonotone`, `TaxEngine.FederalTaxMonotone` and `TaxEngine.FederalTax2024Monotone` |

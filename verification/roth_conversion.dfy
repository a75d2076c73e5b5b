/** `simulate_roth_conversion_scenario` (convert_401K_to_Roth.py:21-99): a
    401(k) balance moved into a Roth IRA in equal yearly conversions, with
    Social Security offsetting the conversion once it starts, both accounts
    growing at the growth rate less inflation, and the wealth left to heirs
    reported net of every year's tax.

    The tax of a year is the parameter `taxOf`, the total tax of an income
    record; the source uses the 2024 married-filing-jointly tax (see
    Scenario.TaxMarriedJointly2024). */
module RothConversion {
  import opened Numeric
  import opened Outcomes
  import opened TaxEngine
  import opened Portfolio

  /** `growth = GROWTH_RATE - INFLATION_RATE`: both accounts grow in real
      terms. */
  const RealGrowth: real := GrowthRate - InflationRate

  /** `(label, divisor)`: the number of years the conversion is spread over. */
  datatype Strategy = Strategy(name: string, divisor: int)

  /** The one way the simulation fails: a division by a zero divisor, which
      the source only reaches when there is a year to simulate. */
  datatype RothError = ZeroDivisor

  /** The two-key asset dictionary of the simulation. */
  datatype Accounts = Accounts(k401: real, roth: real)

  /** The summary dictionary the simulation returns. */
  datatype RothSummary = RothSummary(name: string, finalRoth: real, final401k: real, totalTaxPaid: real, netWealth: real)

  /** The benefit of a year: the base amount from the start year on. */
  function SocialSecurityIn(year: int, ssStartYear: int, ssBase: real): real
  {
    if year >= ssStartYear then ssBase else 0.0
  }

  /** The conversion of a year: the planned amount, reduced by a positive
      benefit but never below 0, then capped by the 401(k) balance. */
  function Conversion(annual: real, ss: real, balance: real): real
  {
    var planned := if ss > 0.0 then Max(annual - ss, 0.0) else annual;
    Min(planned, balance)
  }

  /** The conversion never exceeds the balance or the planned amount, is
      never negative for a non-negative plan and balance, and a positive
      benefit takes exactly its own size off a plan that exceeds it (unless
      the balance is the smaller). */
  lemma ConversionBounds(annual: real, ss: real, balance: real)
    ensures Conversion(annual, ss, balance) <= balance
    ensures annual >= 0.0 ==> Conversion(annual, ss, balance) <= annual
    ensures annual >= 0.0 && balance >= 0.0 ==> Conversion(annual, ss, balance) >= 0.0
    ensures ss <= 0.0 ==> Conversion(annual, ss, balance) == Min(annual, balance)
    ensures ss > 0.0 && annual >= ss ==> Conversion(annual, ss, balance) == Min(annual - ss, balance)
    ensures ss > 0.0 && annual <= ss && balance >= 0.0 ==> Conversion(annual, ss, balance) == 0.0
  {
  }

  /** The income reported for a year: the conversion as a 401(k)
      distribution, the benefit and the base dividend, nothing else. */
  function YearIncome(conversion: real, ss: real, dividend: real): Income
  {
    NoIncome.(k401Distribution := conversion, socialSecurity := ss, ordinaryDividend := dividend)
  }

  /** The accounts and the tax of one simulated year. */
  datatype YearOutcome = YearOutcome(accounts: Accounts, tax: real)

  /** One pass of the loop: convert, pay the tax on the year's income, then
      grow both accounts. */
  function ConvertYear(acc: Accounts, year: int, annual: real, ssStartYear: int, ssBase: real, dividend: real,
                       taxOf: Income -> real): YearOutcome
  {
    var ss := SocialSecurityIn(year, ssStartYear, ssBase);
    var w := Conversion(annual, ss, acc.k401);
    YearOutcome(
      Accounts(Scale(acc.k401 - w, 1.0 + RealGrowth), Scale(acc.roth + w, 1.0 + RealGrowth)),
      taxOf(YearIncome(w, ss, dividend)))
  }

  /** A conversion moves money between the accounts without creating or
      destroying any, so their sum just grows; the 401(k) never goes
      negative; and a non-negative plan never shrinks a non-negative Roth. */
  lemma ConvertYearFacts(acc: Accounts, year: int, annual: real, ssStartYear: int, ssBase: real, dividend: real,
                         taxOf: Income -> real)
    ensures var o := ConvertYear(acc, year, annual, ssStartYear, ssBase, dividend, taxOf);
      && o.accounts.k401 + o.accounts.roth == Scale(acc.k401 + acc.roth, 1.0 + RealGrowth)
      && o.accounts.k401 >= 0.0
      && (annual >= 0.0 && acc.k401 >= 0.0 && acc.roth >= 0.0 ==> o.accounts.roth >= acc.roth)
  {
    var w := Conversion(annual, SocialSecurityIn(year, ssStartYear, ssBase), acc.k401);
    ConversionBounds(annual, SocialSecurityIn(year, ssStartYear, ssBase), acc.k401);
    ScaleNonNegative(1.0 + RealGrowth, acc.k401 - w);
    if annual >= 0.0 && acc.k401 >= 0.0 && acc.roth >= 0.0 {
      MulAtLeastOne(1.0 + RealGrowth, acc.roth + w);
    }
  }

  /** The benefit matters only from its start year: before it the year is
      exactly what it would be with no benefit at all, converting the plan
      capped by the balance; from it on, a benefit no larger than the plan
      is taken off the amount moved into the Roth. */
  lemma ConvertYearBenefit(acc: Accounts, year: int, annual: real, ssStartYear: int, ssBase: real, dividend: real,
                           taxOf: Income -> real)
    ensures year < ssStartYear ==>
      ConvertYear(acc, year, annual, ssStartYear, ssBase, dividend, taxOf)
      == ConvertYear(acc, year, annual, ssStartYear, 0.0, dividend, taxOf)
    ensures year < ssStartYear ==>
      ConvertYear(acc, year, annual, ssStartYear, ssBase, dividend, taxOf).accounts.roth
      == Scale(acc.roth + Min(annual, acc.k401), 1.0 + RealGrowth)
    ensures year >= ssStartYear && 0.0 < ssBase <= annual ==>
      ConvertYear(acc, year, annual, ssStartYear, ssBase, dividend, taxOf).accounts.roth
      == Scale(acc.roth + Min(annual - ssBase, acc.k401), 1.0 + RealGrowth)
  {
  }

  /** The state after the loop: the accounts and the running tax total. */
  datatype Run = Run(accounts: Accounts, totalTax: real)

  /** The loop over the years, accumulating the tax as it goes. */
  function RunConversion(acc: Accounts, totalTax: real, years: seq<int>, annual: real, ssStartYear: int, ssBase: real,
                         dividend: real, taxOf: Income -> real): Run
    decreases |years|
  {
    if |years| == 0 then Run(acc, totalTax)
    else
      var o := ConvertYear(acc, years[0], annual, ssStartYear, ssBase, dividend, taxOf);
      RunConversion(o.accounts, totalTax + o.tax, years[1..], annual, ssStartYear, ssBase, dividend, taxOf)
  }

  /** The tax of each simulated year, in order. */
  function YearTaxes(acc: Accounts, years: seq<int>, annual: real, ssStartYear: int, ssBase: real,
                     dividend: real, taxOf: Income -> real): (taxes: seq<real>)
    ensures |taxes| == |years|
    decreases |years|
  {
    if |years| == 0 then []
    else
      var o := ConvertYear(acc, years[0], annual, ssStartYear, ssBase, dividend, taxOf);
      [o.tax] + YearTaxes(o.accounts, years[1..], annual, ssStartYear, ssBase, dividend, taxOf)
  }

  /** The running total ends as the starting total plus the sum of the
      yearly taxes. */
  lemma {:induction false} RunTotalIsSum(acc: Accounts, totalTax: real, years: seq<int>, annual: real, ssStartYear: int,
                                         ssBase: real, dividend: real, taxOf: Income -> real)
    ensures RunConversion(acc, totalTax, years, annual, ssStartYear, ssBase, dividend, taxOf).totalTax
      == totalTax + Sum(YearTaxes(acc, years, annual, ssStartYear, ssBase, dividend, taxOf))
    decreases |years|
  {
    if |years| > 0 {
      var o := ConvertYear(acc, years[0], annual, ssStartYear, ssBase, dividend, taxOf);
      var rest := YearTaxes(o.accounts, years[1..], annual, ssStartYear, ssBase, dividend, taxOf);
      RunTotalIsSum(o.accounts, totalTax + o.tax, years[1..], annual, ssStartYear, ssBase, dividend, taxOf);
      SumCons(o.tax, rest);
    }
  }

  /** The two accounts together grow as one balance would over the years,
      whatever is converted; after at least one year the 401(k) is not
      negative; and with a non-negative plan non-negative accounts stay so. */
  lemma {:induction false} RunBalances(acc: Accounts, totalTax: real, years: seq<int>, annual: real, ssStartYear: int,
                                       ssBase: real, dividend: real, taxOf: Income -> real)
    ensures var r := RunConversion(acc, totalTax, years, annual, ssStartYear, ssBase, dividend, taxOf);
      && r.accounts.k401 + r.accounts.roth == Compounded(acc.k401 + acc.roth, |years|, RealGrowth)
      && (|years| > 0 ==> r.accounts.k401 >= 0.0)
      && (annual >= 0.0 && acc.k401 >= 0.0 && acc.roth >= 0.0 ==> r.accounts.k401 >= 0.0 && r.accounts.roth >= 0.0)
    decreases |years|
  {
    if |years| == 0 {
      assert Pow(1.0 + RealGrowth, 0) == 1.0;
    } else {
      var o := ConvertYear(acc, years[0], annual, ssStartYear, ssBase, dividend, taxOf);
      ConvertYearFacts(acc, years[0], annual, ssStartYear, ssBase, dividend, taxOf);
      RunBalances(o.accounts, totalTax + o.tax, years[1..], annual, ssStartYear, ssBase, dividend, taxOf);
      CompoundedStep(acc.k401 + acc.roth, |years| - 1, RealGrowth);
    }
  }

  /** `total_401k / divisor`, once per year; a zero divisor is never used. */
  function AnnualConversion(total401k: real, divisor: int): real
  {
    if divisor == 0 then 0.0 else total401k / divisor as real
  }

  lemma AnnualConversionNonNegative(total401k: real, divisor: int)
    requires total401k >= 0.0 && divisor > 0
    ensures AnnualConversion(total401k, divisor) >= 0.0
  {
  }

  /** `net_wealth`: the tax-free value of the final accounts less the total
      tax. */
  function NetWealth(run: Run): real
  {
    TaxFreeWealth(Assets(run.accounts.k401, run.accounts.roth, 0.0, 0.0, 0.0, 0.0)) - run.totalTax
  }

  /** With neither account negative the net wealth is `Roth + 0.65 * 401k -
      tax`, the figure the source describes. */
  lemma NetWealthClosedForm(run: Run)
    requires run.accounts.k401 >= 0.0 && run.accounts.roth >= 0.0
    ensures NetWealth(run) == run.accounts.roth + Scale(0.65, run.accounts.k401) - run.totalTax
  {
    TaxFreeWealthClosedForm(Assets(run.accounts.k401, run.accounts.roth, 0.0, 0.0, 0.0, 0.0));
  }

  /** `simulate_roth_conversion_scenario`: the 401(k) starts at the total and
      the Roth at 0. */
  function SimulateRothConversion(strategy: Strategy, years: seq<int>, total401k: real, ssStartYear: int, ssBase: real,
                                  dividend: real, taxOf: Income -> real): (r: Result<RothSummary, RothError>)
    ensures r.Failure? <==> |years| > 0 && strategy.divisor == 0
    ensures r.Success? ==> r.value.name == strategy.name
  {
    if |years| > 0 && strategy.divisor == 0 then Failure(ZeroDivisor)
    else
      var run := RunConversion(Accounts(total401k, 0.0), 0.0, years, AnnualConversion(total401k, strategy.divisor),
                               ssStartYear, ssBase, dividend, taxOf);
      Success(RothSummary(strategy.name, run.accounts.roth, run.accounts.k401, run.totalTax, NetWealth(run)))
  }

  /** The summary's promises: the total tax is the sum of the yearly taxes;
      the final accounts together hold the starting balance grown at the
      real rate; and for a non-negative balance spread over a positive number
      of years the net wealth is `Roth + 0.65 * 401k - tax`. */
  lemma SimulateRothConversionSummary(strategy: Strategy, years: seq<int>, total401k: real, ssStartYear: int, ssBase: real,
                                      dividend: real, taxOf: Income -> real)
    requires SimulateRothConversion(strategy, years, total401k, ssStartYear, ssBase, dividend, taxOf).Success?
    ensures var s := SimulateRothConversion(strategy, years, total401k, ssStartYear, ssBase, dividend, taxOf).value;
      && s.totalTaxPaid == Sum(YearTaxes(Accounts(total401k, 0.0), years, AnnualConversion(total401k, strategy.divisor),
                                         ssStartYear, ssBase, dividend, taxOf))
      && s.final401k + s.finalRoth == Compounded(total401k, |years|, RealGrowth)
      && (total401k >= 0.0 && strategy.divisor > 0 ==> s.netWealth == s.finalRoth + Scale(0.65, s.final401k) - s.totalTaxPaid)
  {
    var annual := AnnualConversion(total401k, strategy.divisor);
    var acc := Accounts(total401k, 0.0);
    RunTotalIsSum(acc, 0.0, years, annual, ssStartYear, ssBase, dividend, taxOf);
    RunBalances(acc, 0.0, years, annual, ssStartYear, ssBase, dividend, taxOf);
    var run := RunConversion(acc, 0.0, years, annual, ssStartYear, ssBase, dividend, taxOf);
    assert total401k + 0.0 == total401k;
    if total401k >= 0.0 && strategy.divisor > 0 {
      AnnualConversionNonNegative(total401k, strategy.divisor);
      NetWealthClosedForm(run);
    }
  }
}

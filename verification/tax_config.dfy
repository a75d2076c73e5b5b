/** The configuration provider (tax_configs.py:366-528): inflation indexing of
    amounts, bracket tables and threshold tables, synthesis of a future year
    from the 2024 table, and the year dispatch of `get_tax_config`. */
module TaxConfig {
  import opened Numeric
  import opened Rounding
  import opened Outcomes
  import opened TaxTypes
  import opened TaxTables

  /** `INFLATION_RATE`, used when no rate is supplied. */
  const DefaultInflationRate: real := 0.03

  /** The year the literal tables are indexed from. */
  const BaseYear: int := 2024

  function RateOrDefault(inflationRate: Option<real>): real
  {
    inflationRate.GetOr(DefaultInflationRate)
  }

  /** `adjust_amount_for_inflation`: an amount at or before the base year is
      truncated to a whole number; a later one is compounded at the given (or
      default) rate and rounded to the nearest whole number, ties to even. */
  function AdjustAmount(amount: real, yearsFromBase: int, inflationRate: Option<real>): (r: int)
    ensures yearsFromBase <= 0 && amount >= 0.0 ==> r as real <= amount < r as real + 1.0
    ensures yearsFromBase <= 0 && amount < 0.0 ==> r as real - 1.0 < amount <= r as real
    ensures yearsFromBase > 0 ==>
      -0.5 <= Compounded(amount, yearsFromBase, RateOrDefault(inflationRate)) - r as real <= 0.5
  {
    if yearsFromBase <= 0 then Truncate(amount)
    else RoundHalfEven(Compounded(amount, yearsFromBase, RateOrDefault(inflationRate)))
  }

  /** Whole-dollar amounts survive adjustment unchanged when nothing is
      compounded: at or before the base year, or at a zero rate. */
  lemma AdjustAmountKeepsWholeAmounts(n: int, yearsFromBase: int, inflationRate: Option<real>)
    requires yearsFromBase <= 0 || RateOrDefault(inflationRate) == 0.0
    ensures AdjustAmount(n as real, yearsFromBase, inflationRate) == n
  {
    if yearsFromBase > 0 {
      PowOfOne(yearsFromBase);
      RoundHalfEvenOfInteger(n);
    }
  }

  lemma {:induction false} PowOfOne(n: nat)
    ensures Pow(1.0, n) == 1.0
  {
    if n > 0 {
      PowOfOne(n - 1);
    }
  }

  lemma AdjustAmountCompounds(amount: real, yearsFromBase: int, rate: real)
    requires yearsFromBase > 0
    ensures AdjustAmount(amount, yearsFromBase, Some(rate)) == RoundHalfEven(Compounded(amount, yearsFromBase, rate))
  {
    assert RateOrDefault(Some(rate)) == rate;
  }

  /** For a fixed positive number of years and a non-negative amount, a
      higher inflation rate never yields a smaller adjusted amount. */
  lemma AdjustAmountMonotoneInRate(amount: real, yearsFromBase: int, r1: real, r2: real)
    requires amount >= 0.0 && yearsFromBase > 0
    requires -1.0 <= r1 <= r2
    ensures AdjustAmount(amount, yearsFromBase, Some(r1)) <= AdjustAmount(amount, yearsFromBase, Some(r2))
  {
    PowMonotoneBase(1.0 + r1, 1.0 + r2, yearsFromBase);
    MulLeftMonotone(amount, Pow(1.0 + r1, yearsFromBase), Pow(1.0 + r2, yearsFromBase));
    RoundHalfEvenMonotone(Compounded(amount, yearsFromBase, r1), Compounded(amount, yearsFromBase, r2));
    AdjustAmountCompounds(amount, yearsFromBase, r1);
    AdjustAmountCompounds(amount, yearsFromBase, r2);
  }

  /** One bracket: both bounds adjusted, except that an infinite upper bound
      stays infinite; the rate is kept. */
  function AdjustBracket(b: Bracket, yearsFromBase: int, inflationRate: Option<real>): Bracket
  {
    var lower := AdjustAmount(b.lower, yearsFromBase, inflationRate) as real;
    match b.upper
    case Unbounded => Bracket(lower, Unbounded, b.rate)
    case Finite(u) => Bracket(lower, Finite(AdjustAmount(u, yearsFromBase, inflationRate) as real), b.rate)
  }

  /** `adjust_brackets_for_inflation`: the table keeps its length and every
      rate; only finite bounds are scaled. */
  function AdjustBrackets(brackets: seq<Bracket>, yearsFromBase: int, inflationRate: Option<real>): (r: seq<Bracket>)
    ensures |r| == |brackets|
    ensures forall k :: 0 <= k < |r| ==> r[k].rate == brackets[k].rate
    ensures forall k :: 0 <= k < |r| ==> (r[k].upper.Unbounded? <==> brackets[k].upper.Unbounded?)
    ensures forall k :: 0 <= k < |r| ==> r[k].lower == AdjustAmount(brackets[k].lower, yearsFromBase, inflationRate) as real
    ensures forall k :: 0 <= k < |r| && brackets[k].upper.Finite? ==>
      r[k].upper.value == AdjustAmount(brackets[k].upper.value, yearsFromBase, inflationRate) as real
  {
    if |brackets| == 0 then []
    else
      var rest := AdjustBrackets(brackets[1..], yearsFromBase, inflationRate);
      assert forall k :: 1 <= k < |brackets| ==> brackets[1..][k - 1] == brackets[k];
      [AdjustBracket(brackets[0], yearsFromBase, inflationRate)] + rest
  }

  /** Two bracket tables of the same shape: same length, same rates, and an
      unbounded bracket in exactly the same places. */
  predicate SameShape(a: seq<Bracket>, b: seq<Bracket>)
  {
    |a| == |b|
    && (forall k :: 0 <= k < |a| ==> a[k].rate == b[k].rate)
    && (forall k :: 0 <= k < |a| ==> (a[k].upper.Unbounded? <==> b[k].upper.Unbounded?))
  }

  /** Per-status bracket tables of the same shape. */
  predicate SameTableShape(a: map<FilingStatus, seq<Bracket>>, b: map<FilingStatus, seq<Bracket>>)
  {
    a.Keys == b.Keys && forall s :: s in a ==> SameShape(a[s], b[s])
  }

  /** Every bound of `hi` is at least the matching bound of `lo`. */
  predicate BoundsAtLeast(lo: seq<Bracket>, hi: seq<Bracket>)
    requires SameShape(lo, hi)
  {
    forall k :: 0 <= k < |lo| ==>
      lo[k].lower <= hi[k].lower
      && (lo[k].upper.Finite? ==> lo[k].upper.value <= hi[k].upper.value)
  }

  /** A higher inflation rate never lowers a (non-negative) bracket bound. */
  lemma AdjustBracketsMonotoneInRate(brackets: seq<Bracket>, yearsFromBase: int, r1: real, r2: real)
    requires yearsFromBase > 0 && -1.0 <= r1 <= r2
    requires NonNegativeBounds(brackets)
    ensures SameShape(AdjustBrackets(brackets, yearsFromBase, Some(r1)), AdjustBrackets(brackets, yearsFromBase, Some(r2)))
    ensures BoundsAtLeast(AdjustBrackets(brackets, yearsFromBase, Some(r1)), AdjustBrackets(brackets, yearsFromBase, Some(r2)))
  {
    var lo, hi := AdjustBrackets(brackets, yearsFromBase, Some(r1)), AdjustBrackets(brackets, yearsFromBase, Some(r2));
    forall k | 0 <= k < |lo|
      ensures lo[k].lower <= hi[k].lower
      ensures lo[k].upper.Finite? ==> lo[k].upper.value <= hi[k].upper.value
    {
      AdjustAmountMonotoneInRate(brackets[k].lower, yearsFromBase, r1, r2);
      if brackets[k].upper.Finite? {
        AdjustAmountMonotoneInRate(brackets[k].upper.value, yearsFromBase, r1, r2);
      }
    }
  }

  /** The loop over filing statuses that adjusts each status's table. */
  function AdjustBracketTable(table: map<FilingStatus, seq<Bracket>>, yearsFromBase: int, inflationRate: Option<real>)
    : (r: map<FilingStatus, seq<Bracket>>)
    ensures SameTableShape(r, table)
    ensures BracketsScaledFrom(r, table, yearsFromBase, inflationRate)
  {
    map s | s in table :: AdjustBrackets(table[s], yearsFromBase, inflationRate)
  }

  /** Each amount of `r` is the adjusted amount of `table` under the same key. */
  predicate ScaledFrom(r: map<FilingStatus, real>, table: map<FilingStatus, real>, yearsFromBase: int, inflationRate: Option<real>)
  {
    r.Keys == table.Keys
    && forall s :: s in r ==> r[s] == AdjustAmount(table[s], yearsFromBase, inflationRate) as real
  }

  /** `adjust_deductions_for_inflation`, and equally
      `adjust_thresholds_for_inflation` on a table of plain amounts (the
      Medicare and NIIT thresholds): both adjust every amount under its key. */
  function AdjustAmounts(table: map<FilingStatus, real>, yearsFromBase: int, inflationRate: Option<real>)
    : (r: map<FilingStatus, real>)
    ensures ScaledFrom(r, table, yearsFromBase, inflationRate)
  {
    map s | s in table :: AdjustAmount(table[s], yearsFromBase, inflationRate) as real
  }

  /** `adjust_thresholds_for_inflation` on the nested Social Security table:
      the recursion reaches each status's pair and adjusts both thresholds. */
  function AdjustSsThresholds(table: map<FilingStatus, SsThresholds>, yearsFromBase: int, inflationRate: Option<real>)
    : (r: map<FilingStatus, SsThresholds>)
    ensures r.Keys == table.Keys
    ensures forall s :: s in r ==>
      r[s].first == AdjustAmount(table[s].first, yearsFromBase, inflationRate) as real
      && r[s].second == AdjustAmount(table[s].second, yearsFromBase, inflationRate) as real
  {
    map s | s in table :: SsThresholds(
      AdjustAmount(table[s].first, yearsFromBase, inflationRate) as real,
      AdjustAmount(table[s].second, yearsFromBase, inflationRate) as real)
  }

  /** Each table of `r` is the matching table of `table` with its bounds
      adjusted. */
  predicate BracketsScaledFrom(r: map<FilingStatus, seq<Bracket>>, table: map<FilingStatus, seq<Bracket>>, yearsFromBase: int, inflationRate: Option<real>)
  {
    r.Keys == table.Keys
    && forall s :: s in r ==> r[s] == AdjustBrackets(table[s], yearsFromBase, inflationRate)
  }

  /** Adjusting at or before the base year never changes a table of whole
      amounts: each entry is truncated, and it was whole already. */
  lemma AdjustAmountsAtBaseYear(table: map<FilingStatus, real>, yearsFromBase: int, inflationRate: Option<real>)
    requires yearsFromBase <= 0
    requires forall s :: s in table ==> table[s] == table[s].Floor as real
    ensures AdjustAmounts(table, yearsFromBase, inflationRate) == table
  {
    var r := AdjustAmounts(table, yearsFromBase, inflationRate);
    forall s | s in table
      ensures r[s] == table[s]
    {
      AdjustAmountKeepsWholeAmounts(table[s].Floor, yearsFromBase, inflationRate);
    }
  }

  /** What a configuration synthesised from `base` for `targetYear` looks
      like: the requested year, the rate used and the base year recorded, the
      flat rates copied, and every table of `base` present with the same
      statuses, its amounts and bracket bounds scaled. */
  predicate SynthesizedFrom(c: TaxYearConfig, base: TaxYearConfig, targetYear: int, rate: real, baseYear: int)
  {
    var years := targetYear - baseYear;
    && c.year == targetYear
    && c.origin == Synthesized(rate, baseYear)
    && c.rates == base.rates
    && ScaledFrom(c.federalStandardDeduction, base.federalStandardDeduction, years, Some(rate))
    && ScaledFrom(c.californiaStandardDeduction, base.californiaStandardDeduction, years, Some(rate))
    && BracketsScaledFrom(c.federalOrdinaryBrackets, base.federalOrdinaryBrackets, years, Some(rate))
    && BracketsScaledFrom(c.federalPreferentialBrackets, base.federalPreferentialBrackets, years, Some(rate))
    && BracketsScaledFrom(c.californiaBrackets, base.californiaBrackets, years, Some(rate))
    && ScaledFrom(c.medicareThresholds, base.medicareThresholds, years, Some(rate))
    && ScaledFrom(c.niitThresholds, base.niitThresholds, years, Some(rate))
    && c.socialSecurityThresholds.Keys == base.socialSecurityThresholds.Keys
    && forall s :: s in c.socialSecurityThresholds ==>
      c.socialSecurityThresholds[s].first == AdjustAmount(base.socialSecurityThresholds[s].first, years, Some(rate)) as real
      && c.socialSecurityThresholds[s].second == AdjustAmount(base.socialSecurityThresholds[s].second, years, Some(rate)) as real
  }

  /** The configuration the generator builds from `base`: every table
      adjusted by the years between the two, the flat rates copied. */
  function Synthesize(base: TaxYearConfig, targetYear: int, rate: real, baseYear: int): TaxYearConfig
  {
    TaxYearConfig(
      targetYear,
      Synthesized(rate, baseYear),
      AdjustAmounts(base.federalStandardDeduction, targetYear - baseYear, Some(rate)),
      AdjustAmounts(base.californiaStandardDeduction, targetYear - baseYear, Some(rate)),
      AdjustBracketTable(base.federalOrdinaryBrackets, targetYear - baseYear, Some(rate)),
      AdjustBracketTable(base.federalPreferentialBrackets, targetYear - baseYear, Some(rate)),
      AdjustBracketTable(base.californiaBrackets, targetYear - baseYear, Some(rate)),
      AdjustAmounts(base.medicareThresholds, targetYear - baseYear, Some(rate)),
      AdjustAmounts(base.niitThresholds, targetYear - baseYear, Some(rate)),
      AdjustSsThresholds(base.socialSecurityThresholds, targetYear - baseYear, Some(rate)),
      base.rates)
  }

  /** The generator's configuration is a synthesis in the sense above. */
  lemma SynthesizeMeetsSpec(base: TaxYearConfig, targetYear: int, rate: real, baseYear: int)
    ensures SynthesizedFrom(Synthesize(base, targetYear, rate, baseYear), base, targetYear, rate, baseYear)
  {
  }

  /** Future years are always synthesised from the 2024 table. */
  predicate SynthesizedFrom2024(c: TaxYearConfig, targetYear: int, rate: real, baseYear: int)
  {
    SynthesizedFrom(c, Config2024, targetYear, rate, baseYear)
  }

  /** The literal table for 2023 or 2024. */
  function KnownConfig(year: int): TaxYearConfig
    requires year == 2023 || year == 2024
  {
    if year == 2023 then Config2023 else Config2024
  }

  /** `generate_future_tax_config`: a target at or before the base year is
      delegated to the dispatcher (without the rate); a later target scales
      the 2024 table, whatever base year was given. */
  function GenerateFutureTaxConfig(targetYear: int, inflationRate: Option<real>, baseYear: int): (c: TaxYearConfig)
    ensures targetYear <= baseYear ==> c == GetTaxConfig(targetYear, None)
    ensures targetYear > baseYear ==> SynthesizedFrom2024(c, targetYear, RateOrDefault(inflationRate), baseYear)
    decreases if targetYear <= baseYear then (if targetYear > BaseYear then 3 else 1) else 0
  {
    if targetYear <= baseYear then GetTaxConfig(targetYear, None)
    else
      var rate := RateOrDefault(inflationRate);
      SynthesizeMeetsSpec(Config2024, targetYear, rate, baseYear);
      Synthesize(Config2024, targetYear, rate, baseYear)
  }

  /** `get_tax_config`.  A known year is served verbatim, and so it still is
      when an inflation rate is supplied: the override path asks the
      generator for the year relative to itself, which hands the request
      straight back without the rate.  Later years are synthesised from 2024;
      any other year falls back to the 2024 table. */
  function GetTaxConfig(year: int, inflationRate: Option<real>): (c: TaxYearConfig)
    ensures year == 2023 || year == 2024 ==> c == KnownConfig(year)
    ensures year > BaseYear ==> SynthesizedFrom2024(c, year, RateOrDefault(inflationRate), BaseYear)
    ensures year != 2023 && year <= BaseYear ==> c == Config2024
    decreases if year > BaseYear || inflationRate.Some? then 2 else 0
  {
    var known := year == 2023 || year == 2024;
    if known && inflationRate.None? then KnownConfig(year)
    else if year > BaseYear then GenerateFutureTaxConfig(year, inflationRate, BaseYear)
    else if known && inflationRate.Some? then GenerateFutureTaxConfig(year, inflationRate, year)
    else Config2024
  }

  /** `get_available_tax_years`: exactly the years whose table is served
      verbatim. */
  function AvailableTaxYears(): (years: seq<int>)
    ensures forall y :: y in years <==> GetTaxConfig(y, None).year == y && GetTaxConfig(y, None).origin == HandAuthored
  {
    [2023, 2024]
  }

  /** An inflation override on a hand-authored year has no effect. */
  lemma OverrideIgnoredForKnownYears(year: int, rate: real)
    requires year == 2023 || year == 2024
    ensures GetTaxConfig(year, Some(rate)) == GetTaxConfig(year, None)
  {
  }

  /** An explicit rate for a later year is the rate the synthesis uses. */
  lemma OverrideUsedForLaterYears(year: int, rate: real)
    requires year > BaseYear
    ensures SynthesizedFrom2024(GetTaxConfig(year, Some(rate)), year, rate, BaseYear)
  {
    assert RateOrDefault(Some(rate)) == rate;
  }

  /** Every bound of a bracket table is non-negative. */
  predicate NonNegativeBounds(brackets: seq<Bracket>)
  {
    && (forall k :: 0 <= k < |brackets| ==> brackets[k].lower >= 0.0)
    && (forall k :: 0 <= k < |brackets| && brackets[k].upper.Finite? ==> brackets[k].upper.value >= 0.0)
  }

  predicate NonNegativeAmounts(table: map<FilingStatus, real>)
  {
    forall s :: s in table ==> table[s] >= 0.0
  }

  predicate NonNegativeTables(table: map<FilingStatus, seq<Bracket>>)
  {
    forall s :: s in table ==> NonNegativeBounds(table[s])
  }

  /** Every amount and bound that a synthesis scales is non-negative. */
  predicate NonNegativeConfig(c: TaxYearConfig)
  {
    && NonNegativeAmounts(c.federalStandardDeduction)
    && NonNegativeAmounts(c.californiaStandardDeduction)
    && NonNegativeTables(c.federalOrdinaryBrackets)
    && NonNegativeTables(c.federalPreferentialBrackets)
    && NonNegativeTables(c.californiaBrackets)
    && NonNegativeAmounts(c.medicareThresholds)
    && NonNegativeAmounts(c.niitThresholds)
    && (forall s :: s in c.socialSecurityThresholds ==>
          c.socialSecurityThresholds[s].first >= 0.0 && c.socialSecurityThresholds[s].second >= 0.0)
  }

  /** Two amount tables with the same statuses, `hi` at least `lo` for each. */
  predicate AmountsAtLeast(lo: map<FilingStatus, real>, hi: map<FilingStatus, real>)
  {
    lo.Keys == hi.Keys && forall s :: s in lo ==> lo[s] <= hi[s]
  }

  /** Two per-status bracket tables of the same shape, every bound of `hi` at
      least the matching bound of `lo`. */
  predicate TablesAtLeast(lo: map<FilingStatus, seq<Bracket>>, hi: map<FilingStatus, seq<Bracket>>)
  {
    lo.Keys == hi.Keys && forall s :: s in lo ==> SameShape(lo[s], hi[s]) && BoundsAtLeast(lo[s], hi[s])
  }

  /** Table by table, every deduction, bracket bound and threshold of `hi` is
      at least the matching one of `lo`. */
  predicate ConfigAtLeast(lo: TaxYearConfig, hi: TaxYearConfig)
  {
    AmountTablesAtLeast(lo, hi) && BracketTablesAtLeast(lo, hi)
  }

  /** The deductions and thresholds of `hi` are at least those of `lo`. */
  predicate AmountTablesAtLeast(lo: TaxYearConfig, hi: TaxYearConfig)
  {
    && AmountsAtLeast(lo.federalStandardDeduction, hi.federalStandardDeduction)
    && AmountsAtLeast(lo.californiaStandardDeduction, hi.californiaStandardDeduction)
    && AmountsAtLeast(lo.medicareThresholds, hi.medicareThresholds)
    && AmountsAtLeast(lo.niitThresholds, hi.niitThresholds)
    && lo.socialSecurityThresholds.Keys == hi.socialSecurityThresholds.Keys
    && (forall s :: s in lo.socialSecurityThresholds ==>
          lo.socialSecurityThresholds[s].first <= hi.socialSecurityThresholds[s].first
          && lo.socialSecurityThresholds[s].second <= hi.socialSecurityThresholds[s].second)
  }

  /** The bracket bounds of `hi` are at least those of `lo`. */
  predicate BracketTablesAtLeast(lo: TaxYearConfig, hi: TaxYearConfig)
  {
    && TablesAtLeast(lo.federalOrdinaryBrackets, hi.federalOrdinaryBrackets)
    && TablesAtLeast(lo.federalPreferentialBrackets, hi.federalPreferentialBrackets)
    && TablesAtLeast(lo.californiaBrackets, hi.californiaBrackets)
  }

  /** For a synthesised year, a higher inflation rate never lowers any
      deduction, bracket bound or threshold of any table. */
  lemma SynthesisMonotoneInRate(year: int, r1: real, r2: real)
    requires year > BaseYear && -1.0 <= r1 <= r2
    ensures ConfigAtLeast(GetTaxConfig(year, Some(r1)), GetTaxConfig(year, Some(r2)))
  {
    OverrideUsedForLaterYears(year, r1);
    OverrideUsedForLaterYears(year, r2);
    Config2024NonNegative();
    SynthesizedMonotone(GetTaxConfig(year, Some(r1)), GetTaxConfig(year, Some(r2)), Config2024, year, r1, r2);
  }

  /** Two syntheses from the same non-negative base at two rates. */
  lemma SynthesizedMonotone(c1: TaxYearConfig, c2: TaxYearConfig, base: TaxYearConfig, year: int, r1: real, r2: real)
    requires year > BaseYear && -1.0 <= r1 <= r2
    requires NonNegativeConfig(base)
    requires SynthesizedFrom(c1, base, year, r1, BaseYear) && SynthesizedFrom(c2, base, year, r2, BaseYear)
    ensures ConfigAtLeast(c1, c2)
  {
    SynthesizedAmountsMonotone(c1, c2, base, year, r1, r2);
    SynthesizedTablesMonotone(c1, c2, base, year, r1, r2);
  }

  /** The deductions and thresholds of two syntheses at two rates. */
  lemma SynthesizedAmountsMonotone(c1: TaxYearConfig, c2: TaxYearConfig, base: TaxYearConfig, year: int, r1: real, r2: real)
    requires year > BaseYear && -1.0 <= r1 <= r2
    requires NonNegativeConfig(base)
    requires SynthesizedFrom(c1, base, year, r1, BaseYear) && SynthesizedFrom(c2, base, year, r2, BaseYear)
    ensures AmountTablesAtLeast(c1, c2)
  {
    var years := year - BaseYear;
    ScaledAmountsMonotone(c1.federalStandardDeduction, c2.federalStandardDeduction, base.federalStandardDeduction, years, r1, r2);
    ScaledAmountsMonotone(c1.californiaStandardDeduction, c2.californiaStandardDeduction, base.californiaStandardDeduction, years, r1, r2);
    ScaledAmountsMonotone(c1.medicareThresholds, c2.medicareThresholds, base.medicareThresholds, years, r1, r2);
    ScaledAmountsMonotone(c1.niitThresholds, c2.niitThresholds, base.niitThresholds, years, r1, r2);
    forall s | s in c1.socialSecurityThresholds
      ensures c1.socialSecurityThresholds[s].first <= c2.socialSecurityThresholds[s].first
      ensures c1.socialSecurityThresholds[s].second <= c2.socialSecurityThresholds[s].second
    {
      AdjustAmountMonotoneInRate(base.socialSecurityThresholds[s].first, years, r1, r2);
      AdjustAmountMonotoneInRate(base.socialSecurityThresholds[s].second, years, r1, r2);
    }
  }

  /** The three bracket tables of two syntheses at two rates. */
  lemma SynthesizedTablesMonotone(c1: TaxYearConfig, c2: TaxYearConfig, base: TaxYearConfig, year: int, r1: real, r2: real)
    requires year > BaseYear && -1.0 <= r1 <= r2
    requires NonNegativeTables(base.federalOrdinaryBrackets) && NonNegativeTables(base.federalPreferentialBrackets)
    requires NonNegativeTables(base.californiaBrackets)
    requires BracketsScaledFrom(c1.federalOrdinaryBrackets, base.federalOrdinaryBrackets, year - BaseYear, Some(r1))
    requires BracketsScaledFrom(c2.federalOrdinaryBrackets, base.federalOrdinaryBrackets, year - BaseYear, Some(r2))
    requires BracketsScaledFrom(c1.federalPreferentialBrackets, base.federalPreferentialBrackets, year - BaseYear, Some(r1))
    requires BracketsScaledFrom(c2.federalPreferentialBrackets, base.federalPreferentialBrackets, year - BaseYear, Some(r2))
    requires BracketsScaledFrom(c1.californiaBrackets, base.californiaBrackets, year - BaseYear, Some(r1))
    requires BracketsScaledFrom(c2.californiaBrackets, base.californiaBrackets, year - BaseYear, Some(r2))
    ensures BracketTablesAtLeast(c1, c2)
  {
    var years := year - BaseYear;
    ScaledTablesMonotone(c1.federalOrdinaryBrackets, c2.federalOrdinaryBrackets, base.federalOrdinaryBrackets, years, r1, r2);
    ScaledTablesMonotone(c1.federalPreferentialBrackets, c2.federalPreferentialBrackets, base.federalPreferentialBrackets, years, r1, r2);
    ScaledTablesMonotone(c1.californiaBrackets, c2.californiaBrackets, base.californiaBrackets, years, r1, r2);
  }

  /** An amount table adjusted at two rates. */
  lemma ScaledAmountsMonotone(t1: map<FilingStatus, real>, t2: map<FilingStatus, real>, table: map<FilingStatus, real>,
                              years: int, r1: real, r2: real)
    requires years > 0 && -1.0 <= r1 <= r2
    requires NonNegativeAmounts(table)
    requires ScaledFrom(t1, table, years, Some(r1)) && ScaledFrom(t2, table, years, Some(r2))
    ensures AmountsAtLeast(t1, t2)
  {
    forall s | s in t1
      ensures t1[s] <= t2[s]
    {
      AdjustAmountMonotoneInRate(table[s], years, r1, r2);
    }
  }

  /** A per-status bracket table adjusted at two rates. */
  lemma ScaledTablesMonotone(t1: map<FilingStatus, seq<Bracket>>, t2: map<FilingStatus, seq<Bracket>>,
                             table: map<FilingStatus, seq<Bracket>>, years: int, r1: real, r2: real)
    requires years > 0 && -1.0 <= r1 <= r2
    requires NonNegativeTables(table)
    requires BracketsScaledFrom(t1, table, years, Some(r1)) && BracketsScaledFrom(t2, table, years, Some(r2))
    ensures TablesAtLeast(t1, t2)
  {
    forall s | s in t1
      ensures SameShape(t1[s], t2[s]) && BoundsAtLeast(t1[s], t2[s])
    {
      AdjustBracketsMonotoneInRate(table[s], years, r1, r2);
    }
  }

  /** Every deduction, bracket bound and threshold of the 2024 table is
      non-negative. */
  lemma Config2024NonNegative()
    ensures NonNegativeConfig(Config2024)
  {
    Config2024AmountsNonNegative();
    Config2024OrdinaryNonNegative();
    Config2024PreferentialNonNegative();
    Config2024CaliforniaNonNegative();
  }

  lemma Config2024AmountsNonNegative()
    ensures NonNegativeAmounts(FederalDeduction2024) && NonNegativeAmounts(CaliforniaDeduction2024)
    ensures NonNegativeAmounts(MedicareThresholds2024) && NonNegativeAmounts(NiitThresholds2024)
    ensures forall s :: s in SocialSecurity2024 ==> SocialSecurity2024[s].first >= 0.0 && SocialSecurity2024[s].second >= 0.0
  {
  }

  lemma Config2024OrdinaryNonNegative()
    ensures NonNegativeTables(FederalOrdinary2024)
  {
  }

  lemma Config2024PreferentialNonNegative()
    ensures NonNegativeTables(FederalPreferential2024)
  {
  }

  lemma Config2024CaliforniaNonNegative()
    ensures NonNegativeTables(California2024)
  {
  }
}

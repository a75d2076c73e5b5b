/** The data model of one tax year's parameters (tax_configs.py): filing
    statuses, bracket tables with an unbounded top bracket, and the bundle of
    per-status tables and flat rates that the tax engine reads. */
module TaxTypes {

  /** The four statuses the tables know, plus any other spelling a caller
      might pass: the source keys every table by a string and treats an
      unknown string as a missing entry. */
  datatype FilingStatus =
    | Single
    | MarriedJointly
    | MarriedSeparately
    | HeadOfHousehold
    | Unrecognized(name: string)

  /** An upper bound of a bracket; `Unbounded` stands for `float('inf')`. */
  datatype Bound = Finite(value: real) | Unbounded

  /** One `(lower, upper, rate)` triple of a bracket table. */
  datatype Bracket = Bracket(lower: real, upper: Bound, rate: real)

  /** The two Social Security taxability thresholds of one filing status. */
  datatype SsThresholds = SsThresholds(first: real, second: real)

  /** The flat rates of a configuration; these are never inflation-adjusted. */
  datatype TaxRates = TaxRates(
    medicareAdditional: real,
    niit: real,
    ssFiftyPercent: real,
    ssEightyFivePercent: real)

  /** Whether a configuration is one of the literal tables or was synthesised
      by compounding inflation onto the base table (the synthesised dict
      carries the rate used and the base year as two extra entries). */
  datatype Origin = HandAuthored | Synthesized(inflationRateUsed: real, baseYear: int)

  datatype TaxYearConfig = TaxYearConfig(
    year: int,
    origin: Origin,
    federalStandardDeduction: map<FilingStatus, real>,
    californiaStandardDeduction: map<FilingStatus, real>,
    federalOrdinaryBrackets: map<FilingStatus, seq<Bracket>>,
    federalPreferentialBrackets: map<FilingStatus, seq<Bracket>>,
    californiaBrackets: map<FilingStatus, seq<Bracket>>,
    medicareThresholds: map<FilingStatus, real>,
    niitThresholds: map<FilingStatus, real>,
    socialSecurityThresholds: map<FilingStatus, SsThresholds>,
    rates: TaxRates)

  /** `table.get(status, 0)`. */
  function AmountFor(table: map<FilingStatus, real>, status: FilingStatus): real
  {
    if status in table then table[status] else 0.0
  }
}

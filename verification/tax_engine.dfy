/** The tax engine (tax_estimate.py:13-411): the federal income tax with
    preferential rates for qualified dividends and long-term gains, the
    California tax, the Additional Medicare Tax, the Net Investment Income
    Tax, the taxable portion of Social Security benefits, and the assembly of
    all of them into one result, together with the facts about the 2024
    bracket tables that the federal tax relies on. */
module TaxEngine {
  import opened Numeric
  import opened Rounding
  import opened Outcomes
  import opened TaxTypes
  import opened Brackets
  import opened TaxTables

  /** The income-details dictionary; a key the caller leaves out reads as 0. */
  datatype Income = Income(
    salary: real,
    rentalNetIncome: real,
    ordinaryDividend: real,
    qualifiedDividend: real,
    shortTermGain: real,
    longTermGain: real,
    k401Distribution: real,
    socialSecurity: real,
    ncqdpDistribution: real)

  const NoIncome: Income := Income(0.0, 0.0, 0.0, 0.0, 0.0, 0.0, 0.0, 0.0, 0.0)

  /** Every income field is non-negative. */
  predicate NonNegativeIncome(inc: Income)
  {
    && inc.salary >= 0.0 && inc.rentalNetIncome >= 0.0 && inc.ordinaryDividend >= 0.0
    && inc.qualifiedDividend >= 0.0 && inc.shortTermGain >= 0.0 && inc.longTermGain >= 0.0
    && inc.k401Distribution >= 0.0 && inc.socialSecurity >= 0.0 && inc.ncqdpDistribution >= 0.0
  }

  /** Gross income before the Social Security rules.  Qualified dividends
      are part of the ordinary dividends, so they are not added again. */
  function GrossIncomeBeforeSs(inc: Income): real
  {
    inc.salary + inc.rentalNetIncome + inc.ordinaryDividend + inc.shortTermGain
    + inc.longTermGain + inc.k401Distribution + inc.ncqdpDistribution
  }

  /** Net investment income: dividends, both kinds of gains and rental
      income; retirement distributions and benefits are not investment
      income. */
  function NetInvestmentIncome(inc: Income): real
  {
    inc.ordinaryDividend + inc.shortTermGain + inc.longTermGain + inc.rentalNetIncome
  }

  // ---------------------------------------------------------------------
  // Federal income tax

  /** The preferential rate that applies: looked up with the whole taxable
      income, 0 for a status the preferential table does not know. */
  function PreferentialRateFor(taxable: real, status: FilingStatus, cfg: TaxYearConfig): real
  {
    if status in cfg.federalPreferentialBrackets
    then PreferentialRate(cfg.federalPreferentialBrackets[status], taxable)
    else 0.0
  }

  /** The ordinary-income walk, 0 for a status the ordinary table does not
      know. */
  function OrdinaryTaxFor(ordinary: real, status: FilingStatus, cfg: TaxYearConfig): real
  {
    if status in cfg.federalOrdinaryBrackets
    then BracketTax(cfg.federalOrdinaryBrackets[status], ordinary)
    else 0.0
  }

  /** The part of the preferential income taxed at the preferential rate:
      never more than the taxable income, so the ordinary remainder
      `taxable - p` is never negative. */
  function PreferentialTaxed(taxable: real, preferential: real): (p: real)
    ensures p <= taxable && p <= preferential
    ensures p == taxable || p == preferential
    ensures 0.0 <= taxable && 0.0 <= preferential ==> 0.0 <= p
  {
    Min(preferential, taxable)
  }

  /** The federal income tax before rounding: the preferential amount, capped
      at the taxable income, at one flat rate, plus the ordinary walk of the
      rest. */
  function FederalTaxExact(taxable: real, status: FilingStatus, preferential: real, cfg: TaxYearConfig): real
  {
    OrdinaryTaxFor(taxable - PreferentialTaxed(taxable, preferential), status, cfg)
    + Scale(PreferentialRateFor(taxable, status, cfg), PreferentialTaxed(taxable, preferential))
  }

  /** `get_federal_tax`.  The preferential amount is capped at the taxable
      income and taxed at one flat rate; the rest is walked through the
      ordinary brackets; the sum is rounded to cents. */
  function FederalTax(taxable: real, status: FilingStatus, preferential: real, cfg: TaxYearConfig): (t: real)
    ensures IsCents(t)
    ensures status !in cfg.federalOrdinaryBrackets && status !in cfg.federalPreferentialBrackets ==> t == 0.0
    ensures taxable == 0.0 && preferential >= 0.0 ==> t == 0.0
    ensures -0.005 <= t - FederalTaxExact(taxable, status, preferential, cfg) <= 0.005
  {
    CentsZero();
    RoundCentsOfCents(0.0);
    RoundCents(FederalTaxExact(taxable, status, preferential, cfg))
  }

  /** Without preferential income the federal tax is the ordinary walk of the
      whole taxable income, rounded to cents. */
  lemma FederalTaxAllOrdinary(taxable: real, status: FilingStatus, cfg: TaxYearConfig)
    requires taxable >= 0.0 && status in cfg.federalOrdinaryBrackets
    ensures FederalTax(taxable, status, 0.0, cfg) == RoundCents(BracketTax(cfg.federalOrdinaryBrackets[status], taxable))
  {
  }

  /** Well-formed bracket tables: no bracket of negative width and no
      negative rate. */
  predicate SaneTable(table: map<FilingStatus, seq<Bracket>>)
  {
    forall s :: s in table ==> NonNegativeWidths(table[s]) && NonNegativeRates(table[s])
  }

  /** With sane tables and non-negative preferential income the federal tax
      is never negative. */
  lemma FederalTaxNonNegative(taxable: real, status: FilingStatus, preferential: real, cfg: TaxYearConfig)
    requires taxable >= 0.0 && preferential >= 0.0
    requires SaneTable(cfg.federalOrdinaryBrackets) && SaneTable(cfg.federalPreferentialBrackets)
    ensures FederalTax(taxable, status, preferential, cfg) >= 0.0
  {
    if status in cfg.federalPreferentialBrackets {
      PreferentialRateNonNegative(cfg.federalPreferentialBrackets[status], taxable);
    }
    ScaleNonNegative(PreferentialRateFor(taxable, status, cfg), Min(preferential, taxable));
    if status in cfg.federalOrdinaryBrackets {
      BracketTaxNonNegative(cfg.federalOrdinaryBrackets[status], taxable - Min(preferential, taxable));
    }
    RoundCentsMonotone(0.0, FederalTaxExact(taxable, status, preferential, cfg));
    CentsZero();
    RoundCentsOfCents(0.0);
  }

  /** Without preferential income, more taxable income never lowers the
      federal tax. */
  lemma FederalTaxMonotoneOrdinary(x: real, y: real, status: FilingStatus, cfg: TaxYearConfig)
    requires 0.0 <= x <= y
    requires SaneTable(cfg.federalOrdinaryBrackets)
    ensures FederalTax(x, status, 0.0, cfg) <= FederalTax(y, status, 0.0, cfg)
  {
    var ox, oy := OrdinaryTaxFor(x, status, cfg), OrdinaryTaxFor(y, status, cfg);
    if status in cfg.federalOrdinaryBrackets {
      BracketTaxMonotone(cfg.federalOrdinaryBrackets[status], x, y);
    }
    assert FederalTaxExact(x, status, 0.0, cfg) == ox;
    assert FederalTaxExact(y, status, 0.0, cfg) == oy;
    RoundCentsMonotone(ox, oy);
  }

  /** A preferential table whose lookup never falls as income rises. */
  predicate OrderlyPreferential(table: map<FilingStatus, seq<Bracket>>)
  {
    forall s :: s in table ==> Orderly(table[s])
  }

  /** With the corrected preferential lookup, more taxable income never
      lowers the federal tax, whatever the preferential income. */
  lemma FederalTaxMonotone(x: real, y: real, status: FilingStatus, preferential: real, cfg: TaxYearConfig)
    requires 0.0 <= x <= y && preferential >= 0.0
    requires SaneTable(cfg.federalOrdinaryBrackets) && OrderlyPreferential(cfg.federalPreferentialBrackets)
    ensures FederalTax(x, status, preferential, cfg) <= FederalTax(y, status, preferential, cfg)
  {
    var px, py := PreferentialTaxed(x, preferential), PreferentialTaxed(y, preferential);
    assert px <= py && x - px <= y - py;
    OrdinaryTaxForMonotone(x - px, y - py, status, cfg);
    PreferentialTermMonotone(x, y, px, py, status, cfg);
    RoundCentsMonotone(FederalTaxExact(x, status, preferential, cfg), FederalTaxExact(y, status, preferential, cfg));
  }

  lemma OrdinaryTaxForMonotone(a: real, b: real, status: FilingStatus, cfg: TaxYearConfig)
    requires a <= b && SaneTable(cfg.federalOrdinaryBrackets)
    ensures OrdinaryTaxFor(a, status, cfg) <= OrdinaryTaxFor(b, status, cfg)
  {
    if status in cfg.federalOrdinaryBrackets {
      BracketTaxMonotone(cfg.federalOrdinaryBrackets[status], a, b);
    }
  }

  lemma PreferentialTermMonotone(x: real, y: real, px: real, py: real, status: FilingStatus, cfg: TaxYearConfig)
    requires x <= y && 0.0 <= px <= py && OrderlyPreferential(cfg.federalPreferentialBrackets)
    ensures Scale(PreferentialRateFor(x, status, cfg), px) <= Scale(PreferentialRateFor(y, status, cfg), py)
  {
    var rx, ry := PreferentialRateFor(x, status, cfg), PreferentialRateFor(y, status, cfg);
    if status in cfg.federalPreferentialBrackets {
      PreferentialRateMonotone(cfg.federalPreferentialBrackets[status], x, y);
      PreferentialRateNonNegative(cfg.federalPreferentialBrackets[status], y);
    }
    ScaleRateMonotone(rx, ry, px);
    ScaleMonotone(ry, px, py);
  }

  /** The preferential rate with the lookup as the source writes it. */
  function PreferentialRateForAsWritten(taxable: real, status: FilingStatus, cfg: TaxYearConfig): real
  {
    if status in cfg.federalPreferentialBrackets
    then PreferentialRateAsWritten(cfg.federalPreferentialBrackets[status], taxable)
    else 0.0
  }

  /** `get_federal_tax` as written: the same computation as `FederalTax`
      but with the lookup that leaves a gap between whole-dollar brackets. */
  function FederalTaxAsWritten(taxable: real, status: FilingStatus, preferential: real, cfg: TaxYearConfig): real
  {
    RoundCents(
      OrdinaryTaxFor(taxable - PreferentialTaxed(taxable, preferential), status, cfg)
      + Scale(PreferentialRateForAsWritten(taxable, status, cfg), PreferentialTaxed(taxable, preferential)))
  }

  /** Every status of the table has whole-dollar lower bounds. */
  predicate WholeDollarTable(table: map<FilingStatus, seq<Bracket>>)
  {
    forall s :: s in table ==> WholeDollarLowers(table[s])
  }

  /** On a whole-dollar taxable income the federal tax as written and the
      corrected one agree. */
  lemma FederalTaxAgreesOnWholeDollars(n: int, status: FilingStatus, preferential: real, cfg: TaxYearConfig)
    requires WholeDollarTable(cfg.federalPreferentialBrackets)
    ensures FederalTaxAsWritten(n as real, status, preferential, cfg) == FederalTax(n as real, status, preferential, cfg)
  {
    if status in cfg.federalPreferentialBrackets {
      PreferentialRateAgreesOnWholeDollars(cfg.federalPreferentialBrackets[status], n);
    }
  }

  /** The 2024 preferential tables meet at every boundary, end unbounded,
      rise in rate and have whole-dollar lower bounds. */
  lemma Preferential2024Orderly()
    ensures OrderlyPreferential(FederalPreferential2024)
    ensures WholeDollarTable(FederalPreferential2024)
  {
    forall s | s in FederalPreferential2024
      ensures Orderly(FederalPreferential2024[s]) && WholeDollarLowers(FederalPreferential2024[s])
    {
      ThreeBracketsOrderly(FederalPreferential2024[s]);
    }
  }

  /** No 2024 ordinary bracket has a negative width or rate. */
  lemma Ordinary2024Sane()
    ensures SaneTable(FederalOrdinary2024)
  {
  }

  /** The lookup as written finds no 2024 joint bracket for a taxable income
      of 583,750.50, just above the 15% bracket's upper bound 583,750 and
      below the 20% bracket's lower bound 583,751.  With all of that income
      qualified dividends, the fifty cents more income take the federal tax
      from 87,562.50 down to nothing. */
  lemma PreferentialGapAsWritten()
    ensures PreferentialRateAsWritten(FederalPreferential2024[MarriedJointly], 583750.0) == 0.15
    ensures PreferentialRateAsWritten(FederalPreferential2024[MarriedJointly], 583750.5) == 0.0
    ensures FederalTaxAsWritten(583750.5, MarriedJointly, 583750.5, Config2024)
          < FederalTaxAsWritten(583750.0, MarriedJointly, 583750.5, Config2024)
  {
  }

  /** With the corrected lookup the same income falls in the 20% bracket, and
      under the 2024 table more taxable income never lowers the federal tax
      for any filing status and any preferential income. */
  lemma FederalTax2024Monotone(x: real, y: real, status: FilingStatus, preferential: real)
    requires 0.0 <= x <= y && preferential >= 0.0
    ensures PreferentialRate(FederalPreferential2024[MarriedJointly], 583750.5) == 0.20
    ensures FederalTax(x, status, preferential, Config2024) <= FederalTax(y, status, preferential, Config2024)
  {
    var b := FederalPreferential2024[MarriedJointly];
    assert !InBracket(b[0], 583750.5) && !InBracket(b[1], 583750.5) && InBracket(b[2], 583750.5);
    Preferential2024Orderly();
    Ordinary2024Sane();
    FederalTaxMonotone(x, y, status, preferential, Config2024);
  }

  /** Where the model departs from the program: on a fractional income in
      the 2024 joint gap the program's federal tax is 0, while the corrected
      tax charges the 20% rate. */
  lemma FederalTaxDepartsInGap()
    ensures FederalTaxAsWritten(583750.5, MarriedJointly, 583750.5, Config2024) == 0.0
    ensures FederalTax(583750.5, MarriedJointly, 583750.5, Config2024) > 116750.0
  {
    var b := FederalPreferential2024[MarriedJointly];
    assert !InBracket(b[0], 583750.5) && !InBracket(b[1], 583750.5) && InBracket(b[2], 583750.5);
    CentsZero();
    RoundCentsOfCents(0.0);
  }

  // ---------------------------------------------------------------------
  // California income tax

  /** `get_california_state_tax`: every dollar of California taxable income
      goes through the state brackets; an unknown status owes nothing. */
  function CaliforniaTax(taxable: real, status: FilingStatus, cfg: TaxYearConfig): (t: real)
    ensures IsCents(t)
    ensures status !in cfg.californiaBrackets ==> t == 0.0
    ensures taxable <= 0.0 ==> t == 0.0
    ensures status in cfg.californiaBrackets ==>
      -0.005 <= t - BracketTax(cfg.californiaBrackets[status], taxable) <= 0.005
  {
    CentsZero();
    RoundCentsOfCents(0.0);
    if status in cfg.californiaBrackets then RoundCents(BracketTax(cfg.californiaBrackets[status], taxable))
    else 0.0
  }

  lemma CaliforniaTaxMonotone(x: real, y: real, status: FilingStatus, cfg: TaxYearConfig)
    requires x <= y
    requires SaneTable(cfg.californiaBrackets)
    ensures 0.0 <= CaliforniaTax(x, status, cfg) <= CaliforniaTax(y, status, cfg)
  {
    if status in cfg.californiaBrackets {
      var b := cfg.californiaBrackets[status];
      BracketTaxNonNegative(b, x);
      BracketTaxMonotone(b, x, y);
      RoundCentsMonotone(0.0, BracketTax(b, x));
      RoundCentsMonotone(BracketTax(b, x), BracketTax(b, y));
      CentsZero();
      RoundCentsOfCents(0.0);
    }
  }

  // ---------------------------------------------------------------------
  // Additional Medicare Tax and Net Investment Income Tax

  /** A flat rate on the part of an amount above a threshold, rounded to
      cents; a zero threshold stands for "not defined" and means no tax. */
  function SurtaxAbove(amount: real, threshold: real, rate: real): (t: real)
    ensures IsCents(t)
    ensures threshold == 0.0 || amount <= threshold ==> t == 0.0
    ensures threshold != 0.0 ==> -0.005 <= t - Scale(rate, Max(0.0, amount - threshold)) <= 0.005
  {
    CentsZero();
    RoundCentsOfCents(0.0);
    if threshold == 0.0 then 0.0 else RoundCents(Scale(rate, Max(0.0, amount - threshold)))
  }

  /** With a non-negative rate the surtax is non-negative and never falls as
      the amount rises. */
  lemma SurtaxMonotone(x: real, y: real, threshold: real, rate: real)
    requires x <= y && rate >= 0.0
    ensures 0.0 <= SurtaxAbove(x, threshold, rate) <= SurtaxAbove(y, threshold, rate)
  {
    if threshold != 0.0 {
      ScaleNonNegative(rate, Max(0.0, x - threshold));
      ScaleMonotone(rate, Max(0.0, x - threshold), Max(0.0, y - threshold));
      RoundCentsMonotone(0.0, Scale(rate, Max(0.0, x - threshold)));
      RoundCentsMonotone(Scale(rate, Max(0.0, x - threshold)), Scale(rate, Max(0.0, y - threshold)));
      CentsZero();
      RoundCentsOfCents(0.0);
    }
  }

  /** `calculate_medicare_tax`: the additional rate on wages above the
      status's threshold; no threshold (or a zero one) means no tax. */
  function MedicareTax(wages: real, status: FilingStatus, cfg: TaxYearConfig): (t: real)
    ensures IsCents(t)
    ensures AmountFor(cfg.medicareThresholds, status) == 0.0 ==> t == 0.0
    ensures wages <= AmountFor(cfg.medicareThresholds, status) ==> t == 0.0
    ensures AmountFor(cfg.medicareThresholds, status) != 0.0 ==>
      -0.005 <= t - Scale(cfg.rates.medicareAdditional, Max(0.0, wages - AmountFor(cfg.medicareThresholds, status))) <= 0.005
  {
    SurtaxAbove(wages, AmountFor(cfg.medicareThresholds, status), cfg.rates.medicareAdditional)
  }

  lemma MedicareTaxMonotone(x: real, y: real, status: FilingStatus, cfg: TaxYearConfig)
    requires x <= y && cfg.rates.medicareAdditional >= 0.0
    ensures 0.0 <= MedicareTax(x, status, cfg) <= MedicareTax(y, status, cfg)
  {
    SurtaxMonotone(x, y, AmountFor(cfg.medicareThresholds, status), cfg.rates.medicareAdditional);
  }

  /** The NIIT base: the lesser of net investment income and the income
      above the threshold. */
  function NiitBase(inc: Income, agi: real, threshold: real): (base: real)
    ensures base <= NetInvestmentIncome(inc) && base <= Max(0.0, agi - threshold)
    ensures base == NetInvestmentIncome(inc) || base == Max(0.0, agi - threshold)
  {
    Min(NetInvestmentIncome(inc), Max(0.0, agi - threshold))
  }

  /** `calculate_net_investment_income_tax`. */
  function Niit(inc: Income, status: FilingStatus, agi: real, cfg: TaxYearConfig): (t: real)
    ensures IsCents(t)
    ensures AmountFor(cfg.niitThresholds, status) == 0.0 ==> t == 0.0
    ensures AmountFor(cfg.niitThresholds, status) != 0.0 ==>
      -0.005 <= t - Scale(cfg.rates.niit, NiitBase(inc, agi, AmountFor(cfg.niitThresholds, status))) <= 0.005
  {
    CentsZero();
    RoundCentsOfCents(0.0);
    if AmountFor(cfg.niitThresholds, status) == 0.0 then 0.0
    else RoundCents(Scale(cfg.rates.niit, NiitBase(inc, agi, AmountFor(cfg.niitThresholds, status))))
  }

  /** With non-negative investment income and rate the NIIT is never
      negative, and nothing is owed at or below the threshold. */
  lemma NiitBounds(inc: Income, status: FilingStatus, agi: real, cfg: TaxYearConfig)
    requires NetInvestmentIncome(inc) >= 0.0 && cfg.rates.niit >= 0.0
    ensures Niit(inc, status, agi, cfg) >= 0.0
    ensures agi <= AmountFor(cfg.niitThresholds, status) ==> Niit(inc, status, agi, cfg) == 0.0
  {
    if AmountFor(cfg.niitThresholds, status) != 0.0 {
      ScaleNonNegative(cfg.rates.niit, NiitBase(inc, agi, AmountFor(cfg.niitThresholds, status)));
      RoundCentsMonotone(0.0, Scale(cfg.rates.niit, NiitBase(inc, agi, AmountFor(cfg.niitThresholds, status))));
      CentsZero();
      RoundCentsOfCents(0.0);
      if agi <= AmountFor(cfg.niitThresholds, status) {
        assert NiitBase(inc, agi, AmountFor(cfg.niitThresholds, status)) == 0.0;
      }
    }
  }

  // ---------------------------------------------------------------------
  // Social Security

  /** The two-tier rule before the final clamp, as a function of the
      combined income. */
  function SsTiered(ss: real, combined: real, th: SsThresholds, rates: TaxRates): real
  {
    if combined <= th.first then 0.0
    else if combined <= th.second then
      Min(Scale(rates.ssFiftyPercent, ss), Scale(rates.ssFiftyPercent, combined - th.first))
    else
      Min(Scale(rates.ssEightyFivePercent, ss),
          Scale(rates.ssEightyFivePercent, combined - th.second) + Scale(rates.ssFiftyPercent, th.second - th.first))
  }

  /** The tiered amount for a status, with the combined income being the
      other income plus half the benefits; 0 for an unknown status. */
  function SsTieredFor(ss: real, grossBeforeSs: real, status: FilingStatus, cfg: TaxYearConfig): real
  {
    if status in cfg.socialSecurityThresholds
    then SsTiered(ss, grossBeforeSs + Scale(cfg.rates.ssFiftyPercent, ss), cfg.socialSecurityThresholds[status], cfg.rates)
    else 0.0
  }

  /** `calculate_social_security_taxable_portion`. */
  function SsTaxable(ss: real, grossBeforeSs: real, status: FilingStatus, cfg: TaxYearConfig): (r: real)
    ensures ss <= 0.0 ==> r == 0.0
    ensures 0.0 <= r <= Max(0.0, Scale(cfg.rates.ssEightyFivePercent, ss))
    ensures status !in cfg.socialSecurityThresholds ==> r == 0.0
    ensures (status in cfg.socialSecurityThresholds
      && grossBeforeSs + Scale(cfg.rates.ssFiftyPercent, ss) <= cfg.socialSecurityThresholds[status].first) ==> r == 0.0
  {
    if ss <= 0.0 then 0.0
    else Max(0.0, Min(SsTieredFor(ss, grossBeforeSs, status, cfg), Scale(cfg.rates.ssEightyFivePercent, ss)))
  }

  /** The Social Security thresholds and percentages are sensible. */
  predicate SaneSsRules(th: SsThresholds, rates: TaxRates)
  {
    0.0 <= rates.ssFiftyPercent <= rates.ssEightyFivePercent && th.first <= th.second
  }

  lemma SsTieredNonNegative(ss: real, c: real, th: SsThresholds, rates: TaxRates)
    requires SaneSsRules(th, rates) && ss >= 0.0
    ensures SsTiered(ss, c, th, rates) >= 0.0
  {
    if th.first < c <= th.second {
      ScaleNonNegative(rates.ssFiftyPercent, ss);
      ScaleNonNegative(rates.ssFiftyPercent, c - th.first);
    } else if c > th.second {
      ScaleNonNegative(rates.ssEightyFivePercent, ss);
      ScaleNonNegative(rates.ssEightyFivePercent, c - th.second);
      ScaleNonNegative(rates.ssFiftyPercent, th.second - th.first);
    }
  }

  /** The tiered amount never falls as the combined income rises. */
  lemma SsTieredMonotone(ss: real, c1: real, c2: real, th: SsThresholds, rates: TaxRates)
    requires SaneSsRules(th, rates) && ss >= 0.0 && c1 <= c2
    ensures SsTiered(ss, c1, th, rates) <= SsTiered(ss, c2, th, rates)
  {
    if c1 <= th.first {
      SsTieredNonNegative(ss, c2, th, rates);
    } else if c2 <= th.second {
      ScaleMonotone(rates.ssFiftyPercent, c1 - th.first, c2 - th.first);
    } else if c1 > th.second {
      ScaleMonotone(rates.ssEightyFivePercent, c1 - th.second, c2 - th.second);
    } else {
      // from the middle tier to the top one
      ScaleRateMonotone(rates.ssFiftyPercent, rates.ssEightyFivePercent, ss);
      ScaleNonNegative(rates.ssEightyFivePercent, c2 - th.second);
      ScaleMonotone(rates.ssFiftyPercent, c1 - th.first, th.second - th.first);
    }
  }

  /** More other income never lowers the taxable part of the benefits. */
  lemma SsTaxableMonotoneInOtherIncome(ss: real, g1: real, g2: real, status: FilingStatus, cfg: TaxYearConfig)
    requires g1 <= g2
    requires status in cfg.socialSecurityThresholds ==> SaneSsRules(cfg.socialSecurityThresholds[status], cfg.rates)
    ensures SsTaxable(ss, g1, status, cfg) <= SsTaxable(ss, g2, status, cfg)
  {
    if ss > 0.0 && status in cfg.socialSecurityThresholds {
      SsTieredMonotone(ss, g1 + Scale(cfg.rates.ssFiftyPercent, ss), g2 + Scale(cfg.rates.ssFiftyPercent, ss),
        cfg.socialSecurityThresholds[status], cfg.rates);
      assert SsTieredFor(ss, g1, status, cfg) <= SsTieredFor(ss, g2, status, cfg);
    }
  }

  /** At a fixed combined income, the tiered amount never falls as the
      benefits rise: each tier caps a share of the benefits. */
  lemma SsTieredMonotoneInBenefit(s1: real, s2: real, c: real, th: SsThresholds, rates: TaxRates)
    requires SaneSsRules(th, rates) && s1 <= s2
    ensures SsTiered(s1, c, th, rates) <= SsTiered(s2, c, th, rates)
  {
    ScaleMonotone(rates.ssFiftyPercent, s1, s2);
    ScaleMonotone(rates.ssEightyFivePercent, s1, s2);
  }

  /** More benefits never lower their taxable part: half of them feed the
      combined income, and every tier and the final cap grow with them. */
  lemma SsTaxableMonotoneInBenefit(s1: real, s2: real, g: real, status: FilingStatus, cfg: TaxYearConfig)
    requires s1 <= s2
    requires status in cfg.socialSecurityThresholds ==> SaneSsRules(cfg.socialSecurityThresholds[status], cfg.rates)
    ensures SsTaxable(s1, g, status, cfg) <= SsTaxable(s2, g, status, cfg)
  {
    if s1 > 0.0 && status in cfg.socialSecurityThresholds {
      var th, rates := cfg.socialSecurityThresholds[status], cfg.rates;
      var c1, c2 := g + Scale(rates.ssFiftyPercent, s1), g + Scale(rates.ssFiftyPercent, s2);
      ScaleMonotone(rates.ssFiftyPercent, s1, s2);
      SsTieredMonotone(s1, c1, c2, th, rates);
      SsTieredMonotoneInBenefit(s1, s2, c2, th, rates);
      ScaleMonotone(rates.ssEightyFivePercent, s1, s2);
      assert SsTieredFor(s1, g, status, cfg) <= SsTieredFor(s2, g, status, cfg);
    }
  }

  // ---------------------------------------------------------------------
  // Assembly

  /** The result dictionary of `calculate_tax`, every entry rounded to
      cents. */
  datatype TaxResult = TaxResult(
    federalTaxableIncome: real,
    federalIncomeTax: real,
    californiaTaxableIncome: real,
    californiaTax: real,
    socialSecurityTaxable: real,
    medicareTax: real,
    niit: real,
    totalFederalTax: real,
    totalTax: real,
    effectiveFederalRate: real,
    effectiveCaliforniaRate: real,
    combinedEffectiveRate: real,
    totalIncome: real)

  /** A percentage of the total income, 0 when there is no positive income. */
  function EffectiveRate(tax: real, totalIncome: real): real
  {
    if totalIncome > 0.0 then tax / totalIncome * 100.0 else 0.0
  }

  /** The two standard deductions `calculate_tax` insists on. */
  predicate HasDeductions(status: FilingStatus, cfg: TaxYearConfig)
  {
    AmountFor(cfg.federalStandardDeduction, status) != 0.0
    && AmountFor(cfg.californiaStandardDeduction, status) != 0.0
  }

  /** Federal adjusted gross income: the other income plus the taxable part
      of the benefits. */
  function Agi(inc: Income, status: FilingStatus, cfg: TaxYearConfig): real
  {
    GrossIncomeBeforeSs(inc) + SsTaxable(inc.socialSecurity, GrossIncomeBeforeSs(inc), status, cfg)
  }

  function FederalTaxableIncome(inc: Income, status: FilingStatus, cfg: TaxYearConfig): real
  {
    Max(0.0, Agi(inc, status, cfg) - AmountFor(cfg.federalStandardDeduction, status))
  }

  /** Qualified dividends plus long-term gains, capped at the adjusted gross
      income (not at the taxable income; the federal tax caps it again). */
  function PreferentialIncome(inc: Income, status: FilingStatus, cfg: TaxYearConfig): real
  {
    Min(inc.qualifiedDividend + inc.longTermGain, Agi(inc, status, cfg))
  }

  /** California taxes neither more nor less than the gross income before
      the benefits, less its own deduction. */
  function CaliforniaTaxableIncome(inc: Income, status: FilingStatus, cfg: TaxYearConfig): real
  {
    Max(0.0, GrossIncomeBeforeSs(inc) - AmountFor(cfg.californiaStandardDeduction, status))
  }

  function FederalIncomeTaxOf(inc: Income, status: FilingStatus, cfg: TaxYearConfig): real
  {
    FederalTax(FederalTaxableIncome(inc, status, cfg), status, PreferentialIncome(inc, status, cfg), cfg)
  }

  function MedicareTaxOf(inc: Income, status: FilingStatus, cfg: TaxYearConfig): real
  {
    MedicareTax(inc.salary, status, cfg)
  }

  function NiitOf(inc: Income, status: FilingStatus, cfg: TaxYearConfig): real
  {
    Niit(inc, status, Agi(inc, status, cfg), cfg)
  }

  function CaliforniaTaxOf(inc: Income, status: FilingStatus, cfg: TaxYearConfig): real
  {
    CaliforniaTax(CaliforniaTaxableIncome(inc, status, cfg), status, cfg)
  }

  function TotalFederalOf(inc: Income, status: FilingStatus, cfg: TaxYearConfig): real
  {
    FederalIncomeTaxOf(inc, status, cfg) + MedicareTaxOf(inc, status, cfg) + NiitOf(inc, status, cfg)
  }

  function TotalIncomeOf(inc: Income): real
  {
    GrossIncomeBeforeSs(inc) + inc.socialSecurity
  }

  /** The result dictionary built from the computed figures, each entry
      rounded to cents; the totals and the effective rates are formed from
      the unrounded figures, as the source forms them. */
  function Assemble(federalTaxable: real, federalTax: real, californiaTaxable: real, californiaTax: real,
                    ssTaxable: real, medicare: real, niit: real, totalIncome: real): TaxResult
  {
    TaxResult(
      RoundCents(federalTaxable),
      RoundCents(federalTax),
      RoundCents(californiaTaxable),
      RoundCents(californiaTax),
      RoundCents(ssTaxable),
      RoundCents(medicare),
      RoundCents(niit),
      RoundCents(federalTax + medicare + niit),
      RoundCents(federalTax + medicare + niit + californiaTax),
      RoundCents(EffectiveRate(federalTax + medicare + niit, totalIncome)),
      RoundCents(EffectiveRate(californiaTax, totalIncome)),
      RoundCents(EffectiveRate(federalTax + medicare + niit + californiaTax, totalIncome)),
      RoundCents(totalIncome))
  }

  /** The report's internal consistency: the totals are exactly the sums of
      the reported taxes, the reported incomes are non-negative, and with no
      positive total income every effective rate is 0. */
  predicate Consistent(t: TaxResult, totalIncome: real)
  {
    && t.totalFederalTax == t.federalIncomeTax + t.medicareTax + t.niit
    && t.totalTax == t.totalFederalTax + t.californiaTax
    && t.federalTaxableIncome >= 0.0 && t.californiaTaxableIncome >= 0.0
    && t.socialSecurityTaxable >= 0.0
    && (totalIncome <= 0.0 ==> t.effectiveFederalRate == 0.0 && t.effectiveCaliforniaRate == 0.0 && t.combinedEffectiveRate == 0.0)
  }

  /** Taxes that are already whole cents add up exactly after rounding, and
      non-negative incomes stay non-negative. */
  lemma AssembleIsConsistent(federalTaxable: real, federalTax: real, californiaTaxable: real, californiaTax: real,
                             ssTaxable: real, medicare: real, niit: real, totalIncome: real)
    requires IsCents(federalTax) && IsCents(californiaTax) && IsCents(medicare) && IsCents(niit)
    requires federalTaxable >= 0.0 && californiaTaxable >= 0.0 && ssTaxable >= 0.0
    ensures Consistent(Assemble(federalTaxable, federalTax, californiaTaxable, californiaTax, ssTaxable, medicare, niit, totalIncome), totalIncome)
  {
    CentsSum(federalTax, medicare);
    CentsSum(federalTax + medicare, niit);
    CentsSum(federalTax + medicare + niit, californiaTax);
    RoundCentsOfCents(federalTax);
    RoundCentsOfCents(medicare);
    RoundCentsOfCents(niit);
    RoundCentsOfCents(californiaTax);
    RoundCentsOfCents(federalTax + medicare + niit);
    RoundCentsOfCents(federalTax + medicare + niit + californiaTax);
    CentsZero();
    RoundCentsOfCents(0.0);
    RoundCentsMonotone(0.0, federalTaxable);
    RoundCentsMonotone(0.0, californiaTaxable);
    RoundCentsMonotone(0.0, ssTaxable);
  }

  /** The result dictionary of `calculate_tax` for known deductions. */
  function Report(inc: Income, status: FilingStatus, cfg: TaxYearConfig): (t: TaxResult)
    ensures Consistent(t, TotalIncomeOf(inc))
  {
    AssembleIsConsistent(
      FederalTaxableIncome(inc, status, cfg), FederalIncomeTaxOf(inc, status, cfg),
      CaliforniaTaxableIncome(inc, status, cfg), CaliforniaTaxOf(inc, status, cfg),
      SsTaxable(inc.socialSecurity, GrossIncomeBeforeSs(inc), status, cfg),
      MedicareTaxOf(inc, status, cfg), NiitOf(inc, status, cfg), TotalIncomeOf(inc));
    Assemble(
      FederalTaxableIncome(inc, status, cfg), FederalIncomeTaxOf(inc, status, cfg),
      CaliforniaTaxableIncome(inc, status, cfg), CaliforniaTaxOf(inc, status, cfg),
      SsTaxable(inc.socialSecurity, GrossIncomeBeforeSs(inc), status, cfg),
      MedicareTaxOf(inc, status, cfg), NiitOf(inc, status, cfg), TotalIncomeOf(inc))
  }

  /** `calculate_tax`: no result unless both standard deductions are known
      for the status. */
  function CalculateTax(inc: Income, status: FilingStatus, cfg: TaxYearConfig): (r: Option<TaxResult>)
    ensures r.None? <==> !HasDeductions(status, cfg)
    ensures r.Some? ==> Consistent(r.value, TotalIncomeOf(inc))
  {
    if !HasDeductions(status, cfg) then None
    else Some(Report(inc, status, cfg))
  }

  /** The reported taxable incomes: federal is the adjusted gross income less
      the federal deduction, California the gross income before benefits less
      its own deduction, each floored at 0 and rounded to cents. */
  lemma CalculateTaxTaxableIncomes(inc: Income, status: FilingStatus, cfg: TaxYearConfig)
    requires HasDeductions(status, cfg)
    ensures var r := CalculateTax(inc, status, cfg);
      && r.Some?
      && r.value.federalTaxableIncome
         == RoundCents(Max(0.0, Agi(inc, status, cfg) - AmountFor(cfg.federalStandardDeduction, status)))
      && r.value.californiaTaxableIncome
         == RoundCents(Max(0.0, GrossIncomeBeforeSs(inc) - AmountFor(cfg.californiaStandardDeduction, status)))
  {
  }

  /** California does not tax Social Security benefits: changing only the
      benefit leaves the California figures untouched. */
  lemma CaliforniaIgnoresSocialSecurity(inc: Income, ss: real, status: FilingStatus, cfg: TaxYearConfig)
    requires HasDeductions(status, cfg)
    ensures var a, b := CalculateTax(inc, status, cfg), CalculateTax(inc.(socialSecurity := ss), status, cfg);
      && a.Some? && b.Some?
      && a.value.californiaTaxableIncome == b.value.californiaTaxableIncome
      && a.value.californiaTax == b.value.californiaTax
  {
    var inc2 := inc.(socialSecurity := ss);
    assert GrossIncomeBeforeSs(inc) == GrossIncomeBeforeSs(inc2);
    assert CaliforniaTaxableIncome(inc, status, cfg) == CaliforniaTaxableIncome(inc2, status, cfg);
  }

  /** Qualified dividends are already inside the ordinary dividends, so
      changing only the qualified part moves nothing but the federal income
      tax: not the taxable incomes, the benefits' taxable part, the Medicare
      tax, the NIIT or the California tax. */
  lemma QualifiedDividendOnlyMovesFederalIncomeTax(inc: Income, qd: real, status: FilingStatus, cfg: TaxYearConfig)
    requires HasDeductions(status, cfg)
    ensures var a, b := CalculateTax(inc, status, cfg), CalculateTax(inc.(qualifiedDividend := qd), status, cfg);
      && a.Some? && b.Some?
      && a.value.federalTaxableIncome == b.value.federalTaxableIncome
      && a.value.socialSecurityTaxable == b.value.socialSecurityTaxable
      && a.value.medicareTax == b.value.medicareTax
      && a.value.niit == b.value.niit
      && a.value.californiaTaxableIncome == b.value.californiaTaxableIncome
      && a.value.californiaTax == b.value.californiaTax
  {
    var inc2 := inc.(qualifiedDividend := qd);
    assert GrossIncomeBeforeSs(inc) == GrossIncomeBeforeSs(inc2);
    assert NetInvestmentIncome(inc) == NetInvestmentIncome(inc2);
    assert Agi(inc, status, cfg) == Agi(inc2, status, cfg);
    assert NiitOf(inc, status, cfg) == NiitOf(inc2, status, cfg);
    assert FederalTaxableIncome(inc, status, cfg) == FederalTaxableIncome(inc2, status, cfg);
    assert CaliforniaTaxableIncome(inc, status, cfg) == CaliforniaTaxableIncome(inc2, status, cfg);
    assert CaliforniaTaxOf(inc, status, cfg) == CaliforniaTaxOf(inc2, status, cfg);
    assert MedicareTaxOf(inc, status, cfg) == MedicareTaxOf(inc2, status, cfg);
  }

  /** With non-negative income and sane tables and rates, every tax in the
      result is non-negative. */
  lemma TaxesNonNegative(inc: Income, status: FilingStatus, cfg: TaxYearConfig)
    requires NonNegativeIncome(inc) && HasDeductions(status, cfg)
    requires SaneTable(cfg.federalOrdinaryBrackets) && SaneTable(cfg.federalPreferentialBrackets)
    requires SaneTable(cfg.californiaBrackets)
    requires cfg.rates.medicareAdditional >= 0.0 && cfg.rates.niit >= 0.0
    ensures var r := CalculateTax(inc, status, cfg);
      && r.Some?
      && r.value.federalIncomeTax >= 0.0 && r.value.medicareTax >= 0.0 && r.value.niit >= 0.0
      && r.value.californiaTax >= 0.0 && r.value.totalFederalTax >= 0.0 && r.value.totalTax >= 0.0
  {
    FederalTaxNonNegative(FederalTaxableIncome(inc, status, cfg), status, PreferentialIncome(inc, status, cfg), cfg);
    MedicareTaxMonotone(inc.salary, inc.salary, status, cfg);
    NiitBounds(inc, status, Agi(inc, status, cfg), cfg);
    CaliforniaTaxMonotone(CaliforniaTaxableIncome(inc, status, cfg), CaliforniaTaxableIncome(inc, status, cfg), status, cfg);
    RoundCentsOfCents(FederalIncomeTaxOf(inc, status, cfg));
    RoundCentsOfCents(MedicareTaxOf(inc, status, cfg));
    RoundCentsOfCents(NiitOf(inc, status, cfg));
    RoundCentsOfCents(CaliforniaTaxOf(inc, status, cfg));
  }
}

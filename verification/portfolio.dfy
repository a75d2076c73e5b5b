/** The asset record the withdrawal and Roth-conversion simulators carry, and
    the two things done to it outside the yearly steps
    (withdrawal_rsu_401K.py:14-34, 50-65, 119-134): valuing it as the wealth
    heirs receive free of tax, and growing it. */
module Portfolio {
  import opened Numeric
  import opened Outcomes

  /** `GROWTH_RATE` and `INFLATION_RATE`. */
  const GrowthRate: real := 0.06
  const InflationRate: real := 0.03

  /** The six keys of the asset dictionary. */
  datatype AssetKind = K401 | RothIra | RsuStock | RsuCostBasis | NonRsuStock | NonRsuCostBasis

  /** The asset dictionary.  The scenarios always supply all six keys; the
      Roth-conversion simulator's two-key dictionary is the record with the
      other four at 0. */
  datatype Assets = Assets(
    k401: real,
    roth: real,
    rsu: real,
    rsuBasis: real,
    nonRsu: real,
    nonRsuBasis: real)
  {
    function Get(kind: AssetKind): real
    {
      match kind
      case K401 => k401
      case RothIra => roth
      case RsuStock => rsu
      case RsuCostBasis => rsuBasis
      case NonRsuStock => nonRsu
      case NonRsuCostBasis => nonRsuBasis
    }
  }

  /** `TAX_EFFICIENCY_FACTORS`: the share of each entry that reaches the heirs
      free of tax.  The 401(k) is taxed as ordinary income; stock gets a
      stepped-up basis; a cost basis is bookkeeping, not an asset. */
  function EfficiencyFactor(kind: AssetKind): real
  {
    match kind
    case K401 => 0.65
    case RothIra => 1.0
    case RsuStock => 1.0
    case NonRsuStock => 1.0
    case RsuCostBasis => 0.0
    case NonRsuCostBasis => 0.0
  }

  /** `GROWTH_RATE_ASSETS`: RSU stock grows at 80% of the general rate; a cost
      basis has no entry and never grows. */
  function AssetGrowthRate(kind: AssetKind): Option<real>
  {
    match kind
    case K401 => Some(GrowthRate)
    case RothIra => Some(GrowthRate)
    case RsuStock => Some(GrowthRate * 0.8)
    case NonRsuStock => Some(GrowthRate)
    case RsuCostBasis => None
    case NonRsuCostBasis => None
  }

  /** What one entry adds to the tax-free wealth: only positive values count. */
  function Contribution(a: Assets, kind: AssetKind): real
  {
    if a.Get(kind) > 0.0 then Scale(EfficiencyFactor(kind), a.Get(kind)) else 0.0
  }

  /** `calculate_tax_free_wealth`: the loop over the six entries. */
  function TaxFreeWealth(a: Assets): real
  {
    Contribution(a, K401) + Contribution(a, RothIra) + Contribution(a, RsuStock)
    + Contribution(a, RsuCostBasis) + Contribution(a, NonRsuStock) + Contribution(a, NonRsuCostBasis)
  }

  /** The tax-free wealth in closed form: 65% of a positive 401(k) balance
      plus every positive Roth and stock balance; cost bases never count. */
  lemma TaxFreeWealthClosedForm(a: Assets)
    ensures TaxFreeWealth(a)
      == Scale(0.65, Max(0.0, a.k401)) + Max(0.0, a.roth) + Max(0.0, a.rsu) + Max(0.0, a.nonRsu)
  {
    if a.k401 <= 0.0 {
      assert Scale(0.65, Max(0.0, a.k401)) == 0.0;
    }
  }

  lemma TaxFreeWealthNonNegative(a: Assets)
    ensures TaxFreeWealth(a) >= 0.0
  {
    TaxFreeWealthClosedForm(a);
    ScaleNonNegative(0.65, Max(0.0, a.k401));
  }

  /** More of any asset never means less tax-free wealth, whatever the cost
      bases are. */
  lemma TaxFreeWealthMonotone(a: Assets, b: Assets)
    requires a.k401 <= b.k401 && a.roth <= b.roth && a.rsu <= b.rsu && a.nonRsu <= b.nonRsu
    ensures TaxFreeWealth(a) <= TaxFreeWealth(b)
  {
    TaxFreeWealthClosedForm(a);
    TaxFreeWealthClosedForm(b);
    ScaleMonotone(0.65, Max(0.0, a.k401), Max(0.0, b.k401));
  }

  /** One entry after growth: a positive value with a growth rate compounds;
      anything else is kept. */
  function GrownValue(kind: AssetKind, value: real, years: nat): real
  {
    if AssetGrowthRate(kind).Some? && value > 0.0
    then Compounded(value, years, AssetGrowthRate(kind).value)
    else value
  }

  /** `grow_assets`: every positive balance with a growth rate compounds for
      the given number of years; cost bases and non-positive balances are
      unchanged. */
  function GrowAssets(a: Assets, years: nat): (g: Assets)
    ensures g.rsuBasis == a.rsuBasis && g.nonRsuBasis == a.nonRsuBasis
    ensures forall kind :: a.Get(kind) <= 0.0 ==> g.Get(kind) == a.Get(kind)
    ensures forall kind :: a.Get(kind) >= 0.0 ==> a.Get(kind) <= g.Get(kind)
  {
    GrowthKeepsSign(a, years);
    Assets(
      GrownValue(K401, a.k401, years),
      GrownValue(RothIra, a.roth, years),
      GrownValue(RsuStock, a.rsu, years),
      GrownValue(RsuCostBasis, a.rsuBasis, years),
      GrownValue(NonRsuStock, a.nonRsu, years),
      GrownValue(NonRsuCostBasis, a.nonRsuBasis, years))
  }

  /** Each positive balance compounds at its own rate: the growth rate for
      the 401(k), the Roth and the non-RSU stock, 80% of it for the RSU
      stock. */
  lemma GrowAssetsRates(a: Assets, years: nat)
    ensures var g := GrowAssets(a, years);
      && (a.k401 > 0.0 ==> g.k401 == Compounded(a.k401, years, GrowthRate))
      && (a.roth > 0.0 ==> g.roth == Compounded(a.roth, years, GrowthRate))
      && (a.rsu > 0.0 ==> g.rsu == Compounded(a.rsu, years, GrowthRate * 0.8))
      && (a.nonRsu > 0.0 ==> g.nonRsu == Compounded(a.nonRsu, years, GrowthRate))
  {
  }

  /** Growth never shrinks a non-negative entry. */
  lemma GrowthKeepsSign(a: Assets, years: nat)
    ensures forall kind :: a.Get(kind) >= 0.0 ==> a.Get(kind) <= GrownValue(kind, a.Get(kind), years)
  {
    forall kind | a.Get(kind) >= 0.0
      ensures a.Get(kind) <= GrownValue(kind, a.Get(kind), years)
    {
      if AssetGrowthRate(kind).Some? && a.Get(kind) > 0.0 {
        CompoundedGrows(a.Get(kind), years, AssetGrowthRate(kind).value);
      }
    }
  }

  lemma GrownValueTwice(kind: AssetKind, value: real, m: nat, n: nat)
    ensures GrownValue(kind, GrownValue(kind, value, m), n) == GrownValue(kind, value, m + n)
  {
    if AssetGrowthRate(kind).Some? && value > 0.0 {
      CompoundedPositive(value, m, AssetGrowthRate(kind).value);
      CompoundedTwice(value, m, n, AssetGrowthRate(kind).value);
    }
  }

  /** Growing for `m` years and then `n` more is growing for `m + n` years. */
  lemma GrowAssetsTwice(a: Assets, m: nat, n: nat)
    ensures GrowAssets(GrowAssets(a, m), n) == GrowAssets(a, m + n)
  {
    GrownValueTwice(K401, a.k401, m, n);
    GrownValueTwice(RothIra, a.roth, m, n);
    GrownValueTwice(RsuStock, a.rsu, m, n);
    GrownValueTwice(RsuCostBasis, a.rsuBasis, m, n);
    GrownValueTwice(NonRsuStock, a.nonRsu, m, n);
    GrownValueTwice(NonRsuCostBasis, a.nonRsuBasis, m, n);
  }

  /** Growing for zero years changes nothing. */
  lemma GrowAssetsNoYears(a: Assets)
    ensures GrowAssets(a, 0) == a
  {
  }
}

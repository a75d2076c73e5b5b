/** The income-gap ledger of the withdrawal simulators
    (withdrawal_rsu_401K.py:233-259, 338-340, 441-444): the shortfall of
    each year, kept in insertion order, and its value at a horizon year as
    if each shortfall had been a deposit growing at the growth rate. */
module Ledger {
  import opened Numeric
  import opened Outcomes
  import opened Portfolio

  /** One ledger entry: the year and the shortfall of that year. */
  datatype Gap = Gap(year: int, amount: real)

  /** The ledger in insertion order, as the source's dictionary keeps it. */
  type Gaps = seq<Gap>

  /** No year appears twice, as in a dictionary keyed by year. */
  predicate DistinctYears(l: Gaps)
  {
    forall i, j :: 0 <= i < j < |l| ==> l[i].year != l[j].year
  }

  function Years(l: Gaps): set<int>
  {
    set g | g in l :: g.year
  }

  /** The shortfall recorded for a year, if any. */
  function AmountOf(l: Gaps, year: int): Option<real>
    decreases |l|
  {
    if |l| == 0 then None
    else if l[0].year == year then Some(l[0].amount)
    else AmountOf(l[1..], year)
  }

  /** `income_gaps[str(year)] = gap`: a year already present keeps its place
      and takes the new amount; a new year goes at the end. */
  function Record(l: Gaps, year: int, amount: real): (r: Gaps)
    ensures |r| == if year in Years(l) then |l| else |l| + 1
    decreases |l|
  {
    if |l| == 0 then [Gap(year, amount)]
    else if l[0].year == year then [Gap(year, amount)] + l[1..]
    else
      assert Years(l) == {l[0].year} + Years(l[1..]) by {
        assert forall g :: g in l <==> g == l[0] || g in l[1..];
      }
      [l[0]] + Record(l[1..], year, amount)
  }

  lemma YearsCons(g: Gap, l: Gaps)
    ensures Years([g] + l) == {g.year} + Years(l)
  {
    assert forall x :: x in [g] + l <==> x == g || x in l;
  }

  lemma {:induction false} AmountOfPresent(l: Gaps, year: int)
    ensures AmountOf(l, year).Some? <==> year in Years(l)
    decreases |l|
  {
    if |l| > 0 {
      AmountOfPresent(l[1..], year);
      YearsCons(l[0], l[1..]);
      assert [l[0]] + l[1..] == l;
    }
  }

  /** Recording a year adds that year and no other, keeps every recorded
      year, gives the year the new amount and leaves every other year's
      amount as it was. */
  lemma {:induction false} RecordSets(l: Gaps, year: int, amount: real, other: int)
    requires other != year
    ensures Years(Record(l, year, amount)) == Years(l) + {year}
    ensures AmountOf(Record(l, year, amount), year) == Some(amount)
    ensures AmountOf(Record(l, year, amount), other) == AmountOf(l, other)
    decreases |l|
  {
    if |l| == 0 {
      YearsCons(Gap(year, amount), []);
    } else if l[0].year == year {
      YearsCons(Gap(year, amount), l[1..]);
      YearsCons(l[0], l[1..]);
      assert [l[0]] + l[1..] == l;
      assert ([Gap(year, amount)] + l[1..])[1..] == l[1..];
    } else {
      RecordSets(l[1..], year, amount, other);
      YearsCons(l[0], Record(l[1..], year, amount));
      YearsCons(l[0], l[1..]);
      assert [l[0]] + l[1..] == l;
      assert ([l[0]] + Record(l[1..], year, amount))[1..] == Record(l[1..], year, amount);
    }
  }

  /** Recording keeps the years distinct. */
  lemma {:induction false} RecordKeepsDistinct(l: Gaps, year: int, amount: real)
    requires DistinctYears(l)
    ensures DistinctYears(Record(l, year, amount))
    decreases |l|
  {
    if |l| > 0 {
      assert [l[0]] + l[1..] == l;
      DistinctCons(l[0], l[1..]);
      if l[0].year != year {
        RecordKeepsDistinct(l[1..], year, amount);
        RecordSets(l[1..], year, amount, year + 1);
        DistinctCons(l[0], Record(l[1..], year, amount));
      } else {
        DistinctCons(Gap(year, amount), l[1..]);
      }
    }
  }

  /** A ledger with a first entry has distinct years exactly when the rest
      does and does not hold the first entry's year. */
  lemma DistinctCons(g: Gap, l: Gaps)
    ensures DistinctYears([g] + l) <==> g.year !in Years(l) && DistinctYears(l)
  {
    var r := [g] + l;
    YearsCons(g, l);
    if DistinctYears(r) {
      forall x | x in l
        ensures x.year != g.year
      {
        var j :| 0 <= j < |l| && l[j] == x;
        assert r[0] == g && r[j + 1] == x;
      }
      forall i, j | 0 <= i < j < |l|
        ensures l[i].year != l[j].year
      {
        assert r[i + 1] == l[i] && r[j + 1] == l[j];
      }
    }
    if g.year !in Years(l) && DistinctYears(l) {
      forall i, j | 0 <= i < j < |r|
        ensures r[i].year != r[j].year
      {
        assert r[j] == l[j - 1];
        if i > 0 {
          assert r[i] == l[i - 1];
        } else {
          assert r[j] in l;
          assert r[j].year in Years(l);
        }
      }
    }
  }

  /** Every recorded shortfall is positive. */
  predicate AllPositive(l: Gaps)
  {
    forall k :: 0 <= k < |l| ==> l[k].amount > 0.0
  }

  lemma {:induction false} RecordKeepsPositive(l: Gaps, year: int, amount: real)
    requires AllPositive(l) && amount > 0.0
    ensures AllPositive(Record(l, year, amount))
    decreases |l|
  {
    if |l| > 0 && l[0].year != year {
      RecordKeepsPositive(l[1..], year, amount);
      var r := [l[0]] + Record(l[1..], year, amount);
      assert forall k :: 1 <= k < |r| ==> r[k] == Record(l[1..], year, amount)[k - 1];
    } else if |l| > 0 {
      var r := [Gap(year, amount)] + l[1..];
      assert forall k :: 1 <= k < |r| ==> r[k] == l[k];
    }
  }

  /** The value at the horizon of one shortfall: grown at the growth rate
      for the years up to the horizon, nothing for a year after it. */
  function FutureValue(g: Gap, horizon: int): real
  {
    if g.year > horizon then 0.0 else Compounded(g.amount, horizon - g.year, GrowthRate)
  }

  /** `calc_deposit_growth`: the future values summed in ledger order. */
  function DepositGrowth(l: Gaps, horizon: int): real
    decreases |l|
  {
    if |l| == 0 then 0.0 else DepositGrowth(l[..|l| - 1], horizon) + FutureValue(l[|l| - 1], horizon)
  }

  /** A shortfall is never worth less at the horizon than when it arose, and
      a non-negative ledger has non-negative growth. */
  lemma FutureValueBounds(g: Gap, horizon: int)
    requires g.amount >= 0.0
    ensures 0.0 <= FutureValue(g, horizon)
    ensures g.year <= horizon ==> g.amount <= FutureValue(g, horizon)
  {
    if g.year <= horizon {
      CompoundedGrows(g.amount, horizon - g.year, GrowthRate);
    }
  }

  lemma {:induction false} DepositGrowthNonNegative(l: Gaps, horizon: int)
    requires AllPositive(l)
    ensures DepositGrowth(l, horizon) >= 0.0
    decreases |l|
  {
    if |l| > 0 {
      DepositGrowthNonNegative(l[..|l| - 1], horizon);
      FutureValueBounds(l[|l| - 1], horizon);
    }
  }

  /** Recording a year not yet in the ledger adds that shortfall's future
      value; recording one after the horizon changes nothing. */
  lemma DepositGrowthRecordNew(l: Gaps, year: int, amount: real, horizon: int)
    requires year !in Years(l)
    ensures DepositGrowth(Record(l, year, amount), horizon) == DepositGrowth(l, horizon) + FutureValue(Gap(year, amount), horizon)
    ensures year > horizon ==> DepositGrowth(Record(l, year, amount), horizon) == DepositGrowth(l, horizon)
  {
    RecordAppendsNew(l, year, amount);
    assert (l + [Gap(year, amount)])[..|l|] == l;
  }

  lemma {:induction false} RecordAppendsNew(l: Gaps, year: int, amount: real)
    requires year !in Years(l)
    ensures Record(l, year, amount) == l + [Gap(year, amount)]
    decreases |l|
  {
    if |l| > 0 {
      YearsCons(l[0], l[1..]);
      assert [l[0]] + l[1..] == l;
      RecordAppendsNew(l[1..], year, amount);
    }
  }
}

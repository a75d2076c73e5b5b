/** The consolidated withdrawal schedule (withdrawal_rsu_401K.py:170-208):
    the 401(k) and RSU schedules laid side by side on one run of years,
    each padded with zero withdrawals outside its own window. */
module Consolidation {
  import opened Outcomes
  import opened Schedule

  /** A withdrawal window `(start, end)`, both ends included; a window whose
      end is before its start means "no withdrawals from this asset". */
  datatype Window = Window(start: int, end: int)
  {
    predicate IsEmpty()
    {
      end < start
    }
  }

  /** The consolidated schedule: one entry per year in each list. */
  datatype Consolidated = Consolidated(years: seq<int>, k401: seq<real>, rsu: seq<real>, total: seq<real>)

  /** The schedule for one asset: empty for an empty window, otherwise the
      single-asset annuity schedule. */
  function WindowSchedule(amount: real, w: Window, currentYear: int): (r: Result<seq<real>, ScheduleError>)
    ensures r.Success? && !w.IsEmpty() ==> |r.value| == w.end - w.start + 1
    ensures r.Success? && w.IsEmpty() ==> r.value == []
    ensures r.Failure? <==> !w.IsEmpty() && w.start < currentYear
    ensures r.Failure? ==> r.error == StartBeforeCurrent(w.start, currentYear)
  {
    if w.IsEmpty() then Success([]) else SingleAssetSchedule(amount, w.start, w.end, currentYear)
  }

  /** The earliest start among the non-empty windows, 0 when there is none. */
  function FirstYear(a: Window, b: Window): int
  {
    if a.IsEmpty() && b.IsEmpty() then 0
    else if a.IsEmpty() then b.start
    else if b.IsEmpty() then a.start
    else if a.start <= b.start then a.start
    else b.start
  }

  /** The latest end among the non-empty windows, 0 when there is none. */
  function LastYear(a: Window, b: Window): int
  {
    if a.IsEmpty() && b.IsEmpty() then 0
    else if a.IsEmpty() then b.end
    else if b.IsEmpty() then a.end
    else if a.end >= b.end then a.end
    else b.end
  }

  /** The first and last years bound every non-empty window and each is
      attained by one of them. */
  lemma YearsSpanWindows(a: Window, b: Window)
    ensures !a.IsEmpty() ==> FirstYear(a, b) <= a.start && a.end <= LastYear(a, b)
    ensures !b.IsEmpty() ==> FirstYear(a, b) <= b.start && b.end <= LastYear(a, b)
    ensures !a.IsEmpty() || !b.IsEmpty() ==>
      (FirstYear(a, b) == a.start && !a.IsEmpty()) || (FirstYear(a, b) == b.start && !b.IsEmpty())
    ensures !a.IsEmpty() || !b.IsEmpty() ==>
      (LastYear(a, b) == a.end && !a.IsEmpty()) || (LastYear(a, b) == b.end && !b.IsEmpty())
    ensures FirstYear(a, b) <= LastYear(a, b)
  {
  }

  /** Python's `[0] * n`: empty for `n <= 0`. */
  function Zeros(n: int): (z: seq<real>)
    ensures |z| == if n <= 0 then 0 else n
    ensures forall k :: 0 <= k < |z| ==> z[k] == 0.0
  {
    if n <= 0 then [] else seq(n, _ => 0.0)
  }

  /** `pad_schedule`: zeros from the first year up to the window, the
      schedule, then zeros up to the last year. */
  function Padded(sched: seq<real>, w: Window, first: int, last: int): seq<real>
  {
    Zeros(w.start - first) + sched + Zeros(last - w.end)
  }

  /** The padded schedule of a window is never shorter than the run of
      years, whether or not the window is empty, so reading entry `k` of it
      for every year of the run is always in range. */
  lemma PaddedCoversYears(sched: seq<real>, w: Window, first: int, last: int)
    requires first <= last
    requires !w.IsEmpty() ==> first <= w.start && w.end <= last && |sched| == w.end - w.start + 1
    ensures |Padded(sched, w, first, last)| >= last - first + 1
  {
  }

  /** Entry `k` of a padded non-empty window is the schedule's entry for
      year `first + k` inside the window and 0 outside it. */
  lemma PaddedEntry(sched: seq<real>, w: Window, first: int, last: int, k: nat)
    requires !w.IsEmpty() && first <= w.start && w.end <= last && |sched| == w.end - w.start + 1
    requires k < last - first + 1
    ensures |Padded(sched, w, first, last)| == last - first + 1
    ensures Padded(sched, w, first, last)[k]
      == if w.start <= first + k <= w.end then sched[first + k - w.start] else 0.0
  {
    var pre := Zeros(w.start - first);
    if k < |pre| {
      assert Padded(sched, w, first, last)[k] == pre[k];
    } else if k < |pre| + |sched| {
      assert Padded(sched, w, first, last)[k] == sched[k - |pre|];
    } else {
      assert Padded(sched, w, first, last)[k] == Zeros(last - w.end)[k - |pre| - |sched|];
    }
  }

  /** Every entry of the padded empty schedule is 0. */
  lemma PaddedEmptyIsZero(w: Window, first: int, last: int, k: nat)
    requires w.IsEmpty() && k < |Padded([], w, first, last)|
    ensures Padded([], w, first, last)[k] == 0.0
  {
    var pre := Zeros(w.start - first);
    if k < |pre| {
      assert Padded([], w, first, last)[k] == pre[k];
    } else {
      assert Padded([], w, first, last)[k] == Zeros(last - w.end)[k - |pre|];
    }
  }

  /** `generate_consolidated_withdrawal_schedule` for the two assets it
      knows, the 401(k) schedule computed first. */
  function Consolidate(k401Amount: real, rsuAmount: real, k401Window: Window, rsuWindow: Window, currentYear: int)
    : (r: Result<Consolidated, ScheduleError>)
    ensures r.Success? ==> |r.value.years| == |r.value.total| == LastYear(k401Window, rsuWindow) - FirstYear(k401Window, rsuWindow) + 1
    ensures r.Success? ==> |r.value.k401| >= |r.value.years| && |r.value.rsu| >= |r.value.years|
  {
    var s401 :- WindowSchedule(k401Amount, k401Window, currentYear);
    var sRsu :- WindowSchedule(rsuAmount, rsuWindow, currentYear);
    var first := FirstYear(k401Window, rsuWindow);
    var last := LastYear(k401Window, rsuWindow);
    var n := if last >= first then last - first + 1 else 0;
    var p401 := if n != 0 then Padded(s401, k401Window, first, last) else [];
    var pRsu := if n != 0 then Padded(sRsu, rsuWindow, first, last) else [];
    YearsSpanWindows(k401Window, rsuWindow);
    PaddedCoversYears(s401, k401Window, first, last);
    PaddedCoversYears(sRsu, rsuWindow, first, last);
    Success(Consolidated(
      seq(n, k => first + k),
      p401,
      pRsu,
      seq(n, k requires 0 <= k < n => p401[k] + pRsu[k])))
  }

  /** A successful consolidation holds the two padded window schedules. */
  lemma ConsolidateParts(k401Amount: real, rsuAmount: real, k401Window: Window, rsuWindow: Window, currentYear: int)
    requires Consolidate(k401Amount, rsuAmount, k401Window, rsuWindow, currentYear).Success?
    ensures var c := Consolidate(k401Amount, rsuAmount, k401Window, rsuWindow, currentYear).value;
      var first, last := FirstYear(k401Window, rsuWindow), LastYear(k401Window, rsuWindow);
      && c.k401 == Padded(WindowSchedule(k401Amount, k401Window, currentYear).value, k401Window, first, last)
      && c.rsu == Padded(WindowSchedule(rsuAmount, rsuWindow, currentYear).value, rsuWindow, first, last)
      && (forall k :: 0 <= k < |c.years| ==> c.years[k] == first + k && c.total[k] == c.k401[k] + c.rsu[k])
  {
    YearsSpanWindows(k401Window, rsuWindow);
  }

  /** Consolidation fails exactly when a non-empty window starts before the
      current year, reporting the 401(k) window first; an end before its
      start never fails, it only empties the window. */
  lemma ConsolidateFailure(k401Amount: real, rsuAmount: real, k401Window: Window, rsuWindow: Window, currentYear: int)
    ensures Consolidate(k401Amount, rsuAmount, k401Window, rsuWindow, currentYear).Failure?
      <==> ((!k401Window.IsEmpty() && k401Window.start < currentYear)
            || (!rsuWindow.IsEmpty() && rsuWindow.start < currentYear))
    ensures Consolidate(k401Amount, rsuAmount, k401Window, rsuWindow, currentYear).Failure? ==>
      Consolidate(k401Amount, rsuAmount, k401Window, rsuWindow, currentYear).error
      == if !k401Window.IsEmpty() && k401Window.start < currentYear
         then StartBeforeCurrent(k401Window.start, currentYear)
         else StartBeforeCurrent(rsuWindow.start, currentYear)
  {
  }

  /** With both windows non-empty, the years run from the earliest start to
      the latest end, every list has one entry per year, each stream is its
      own schedule inside its window and 0 outside, and the total is their
      sum. */
  lemma ConsolidateEntry(k401Amount: real, rsuAmount: real, k401Window: Window, rsuWindow: Window, currentYear: int, k: nat)
    requires !k401Window.IsEmpty() && !rsuWindow.IsEmpty()
    requires Consolidate(k401Amount, rsuAmount, k401Window, rsuWindow, currentYear).Success?
    requires k < |Consolidate(k401Amount, rsuAmount, k401Window, rsuWindow, currentYear).value.years|
    ensures var c := Consolidate(k401Amount, rsuAmount, k401Window, rsuWindow, currentYear).value;
      |c.k401| == |c.rsu| == |c.years|
      && c.years[k] == FirstYear(k401Window, rsuWindow) + k
      && c.k401[k] == (if k401Window.start <= c.years[k] <= k401Window.end
                       then SingleAssetSchedule(k401Amount, k401Window.start, k401Window.end, currentYear).value[c.years[k] - k401Window.start]
                       else 0.0)
      && c.rsu[k] == (if rsuWindow.start <= c.years[k] <= rsuWindow.end
                      then SingleAssetSchedule(rsuAmount, rsuWindow.start, rsuWindow.end, currentYear).value[c.years[k] - rsuWindow.start]
                      else 0.0)
      && c.total[k] == c.k401[k] + c.rsu[k]
  {
    var first := FirstYear(k401Window, rsuWindow);
    var last := LastYear(k401Window, rsuWindow);
    YearsSpanWindows(k401Window, rsuWindow);
    ConsolidateParts(k401Amount, rsuAmount, k401Window, rsuWindow, currentYear);
    PaddedEntry(WindowSchedule(k401Amount, k401Window, currentYear).value, k401Window, first, last, k);
    PaddedEntry(WindowSchedule(rsuAmount, rsuWindow, currentYear).value, rsuWindow, first, last, k);
  }

  /** An empty window contributes only zero withdrawals. */
  lemma ConsolidateEmptyWindowIsZero(k401Amount: real, rsuAmount: real, k401Window: Window, rsuWindow: Window, currentYear: int, k: nat)
    requires Consolidate(k401Amount, rsuAmount, k401Window, rsuWindow, currentYear).Success?
    requires k < |Consolidate(k401Amount, rsuAmount, k401Window, rsuWindow, currentYear).value.years|
    ensures k401Window.IsEmpty() ==> Consolidate(k401Amount, rsuAmount, k401Window, rsuWindow, currentYear).value.k401[k] == 0.0
    ensures rsuWindow.IsEmpty() ==> Consolidate(k401Amount, rsuAmount, k401Window, rsuWindow, currentYear).value.rsu[k] == 0.0
  {
    var first := FirstYear(k401Window, rsuWindow);
    var last := LastYear(k401Window, rsuWindow);
    YearsSpanWindows(k401Window, rsuWindow);
    if k401Window.IsEmpty() {
      PaddedEmptyIsZero(k401Window, first, last, k);
    }
    if rsuWindow.IsEmpty() {
      PaddedEmptyIsZero(rsuWindow, first, last, k);
    }
  }

  /** With both windows empty the run of years is the single year 0 with a
      zero total, not an empty schedule. */
  lemma ConsolidateBothEmpty(k401Amount: real, rsuAmount: real, k401Window: Window, rsuWindow: Window, currentYear: int)
    requires k401Window.IsEmpty() && rsuWindow.IsEmpty()
    ensures Consolidate(k401Amount, rsuAmount, k401Window, rsuWindow, currentYear).Success?
    ensures Consolidate(k401Amount, rsuAmount, k401Window, rsuWindow, currentYear).value.years == [0]
    ensures Consolidate(k401Amount, rsuAmount, k401Window, rsuWindow, currentYear).value.total == [0.0]
  {
    var c := Consolidate(k401Amount, rsuAmount, k401Window, rsuWindow, currentYear).value;
    ConsolidateEmptyWindowIsZero(k401Amount, rsuAmount, k401Window, rsuWindow, currentYear, 0);
    assert c.total[0] == c.k401[0] + c.rsu[0];
  }
}

/**
 * The per-pipe compliance rule of `analyze_compliance` (App.py:287-317):
 * a pipe's readings in one farm-week, sorted by date, pass when there are
 * at least two, none is above 200 mm, one is at or below 100 mm, and the
 * last is at least 3 days after the first.
 */
module Compliance {

  const UpperLimitMm: real := 200.0
  const LowerLimitMm: real := 100.0
  const MinGapDays: int := 3

  /** One water-level measurement of a pipe: its day number and depth in mm. */
  datatype Reading = Reading(day: int, level: real)

  predicate SortedByDay(rs: seq<Reading>) {
    forall i, j :: 0 <= i < j < |rs| ==> rs[i].day <= rs[j].day
  }

  /** Puts `r` before the first reading of a later day. */
  function InsertByDay(r: Reading, rs: seq<Reading>): (out: seq<Reading>)
    ensures |out| == |rs| + 1
  {
    if rs == [] || r.day <= rs[0].day then [r] + rs
    else [rs[0]] + InsertByDay(r, rs[1..])
  }

  /** Inserting adds exactly one copy of the reading. */
  lemma {:induction false} InsertByDayPermutes(r: Reading, rs: seq<Reading>)
    ensures multiset(InsertByDay(r, rs)) == multiset(rs) + multiset{r}
  {
    if rs != [] && r.day > rs[0].day {
      InsertByDayPermutes(r, rs[1..]);
      assert rs == [rs[0]] + rs[1..];
    }
  }

  /** Inserting into a day-sorted sequence keeps it sorted. */
  lemma {:induction false} InsertByDaySorted(r: Reading, rs: seq<Reading>)
    requires SortedByDay(rs)
    ensures SortedByDay(InsertByDay(r, rs))
  {
    if rs != [] && r.day > rs[0].day {
      var rest := InsertByDay(r, rs[1..]);
      InsertByDaySorted(r, rs[1..]);
      InsertByDayPermutes(r, rs[1..]);
      forall i | 0 <= i < |rest| ensures rs[0].day <= rest[i].day {
        assert rest[i] in multiset(rest);
        if rest[i] != r {
          assert rest[i] in multiset(rs[1..]);
          var j :| 0 <= j < |rs[1..]| && rs[1..][j] == rest[i];
          assert rs[j + 1] == rest[i];
        }
      }
      assert InsertByDay(r, rs) == [rs[0]] + rest;
    }
  }

  /** `sort_values('Date')`: insertion sort by day (`SortByDaySorted`, `SortByDayPermutes`). */
  function SortByDay(rs: seq<Reading>): (out: seq<Reading>)
    ensures |out| == |rs|
  {
    if rs == [] then []
    else InsertByDay(rs[0], SortByDay(rs[1..]))
  }

  /** The result of sorting is in day order. */
  lemma {:induction false} SortByDaySorted(rs: seq<Reading>)
    ensures SortedByDay(SortByDay(rs))
  {
    if rs != [] {
      SortByDaySorted(rs[1..]);
      InsertByDaySorted(rs[0], SortByDay(rs[1..]));
    }
  }

  /** Sorting only reorders: the result holds the same readings, each as often. */
  lemma {:induction false} SortByDayPermutes(rs: seq<Reading>)
    ensures multiset(SortByDay(rs)) == multiset(rs)
  {
    if rs != [] {
      SortByDayPermutes(rs[1..]);
      InsertByDayPermutes(rs[0], SortByDay(rs[1..]));
      assert rs == [rs[0]] + rs[1..];
    }
  }

  /** `all(m <= limit for m in measurements)` */
  predicate AllAtMost(rs: seq<Reading>, limit: real) {
    forall i | 0 <= i < |rs| :: rs[i].level <= limit
  }

  /** `any(m <= limit for m in measurements)` */
  predicate SomeAtMost(rs: seq<Reading>, limit: real) {
    exists i | 0 <= i < |rs| :: rs[i].level <= limit
  }

  /** `(date_objs[-1] - date_objs[0]).days` when there are two readings or more, else 0. */
  function GapDays(sorted: seq<Reading>): int {
    if |sorted| >= 2 then sorted[|sorted| - 1].day - sorted[0].day else 0
  }

  /** Why a pipe failed: the comment the source records for it. */
  datatype Reason =
    | AboveUpperLimit          // ">200mm reading"
    | NoneAtOrBelowLowerLimit  // "no <100mm reading"
    | InsufficientGap          // "insufficient gap"
    | NoMeasurements           // "no measurements"
    | OnlyOneMeasurement       // "only 1 measurement"

  datatype Verdict = Compliant | NonCompliant(reason: Reason)

  /** The rule applied to a pipe's date-sorted readings, with the first failing check as reason. */
  function Evaluate(sorted: seq<Reading>): Verdict {
    if |sorted| >= 2 then
      var allBelow200 := AllAtMost(sorted, UpperLimitMm);
      var anyBelow100 := SomeAtMost(sorted, LowerLimitMm);
      var sufficientGap := GapDays(sorted) >= MinGapDays;
      if allBelow200 && anyBelow100 && sufficientGap then Compliant
      else if !allBelow200 then NonCompliant(AboveUpperLimit)
      else if !anyBelow100 then NonCompliant(NoneAtOrBelowLowerLimit)
      else NonCompliant(InsufficientGap)
    else if |sorted| == 0 then NonCompliant(NoMeasurements)
    else NonCompliant(OnlyOneMeasurement)
  }

  /** The verdict of a pipe's readings in whatever order they arrive. */
  function EvaluatePipe(rs: seq<Reading>): Verdict {
    Evaluate(SortByDay(rs))
  }

  /** Some two readings lie at least `k` days apart. */
  predicate SpreadAtLeast(rs: seq<Reading>, k: int) {
    exists a, b | a in rs && b in rs :: b.day - a.day >= k
  }

  /** On sorted readings, last minus first is at least `k` exactly when some pair is. */
  lemma SortedGap(sorted: seq<Reading>, k: int)
    requires SortedByDay(sorted) && |sorted| >= 2
    ensures GapDays(sorted) >= k <==> SpreadAtLeast(sorted, k)
  {
    var n := |sorted|;
    if GapDays(sorted) >= k {
      assert sorted[0] in sorted && sorted[n - 1] in sorted;
    }
    if SpreadAtLeast(sorted, k) {
      var a, b :| a in sorted && b in sorted && b.day - a.day >= k;
      var i :| 0 <= i < n && sorted[i] == a;
      var j :| 0 <= j < n && sorted[j] == b;
      assert sorted[0].day <= a.day && b.day <= sorted[n - 1].day;
    }
  }

  /** Sorting keeps the readings, so order-free facts about them carry over. */
  lemma SortKeepsReadings(rs: seq<Reading>)
    ensures forall x :: x in SortByDay(rs) <==> x in rs
  {
    var s := SortByDay(rs);
    SortByDayPermutes(rs);
    assert |multiset(s)| == |multiset(rs)|;
    forall x ensures x in s <==> x in rs {
      assert x in s <==> x in multiset(s);
      assert x in rs <==> x in multiset(rs);
    }
  }

  /**
   * The rule, independent of the order readings arrive in: compliant iff
   * at least two readings, all at most 200 mm, one at most 100 mm, and two
   * of them at least 3 days apart.
   */
  lemma EvaluatePipeCompliant(rs: seq<Reading>)
    ensures EvaluatePipe(rs) == Compliant <==>
      && |rs| >= 2
      && (forall r | r in rs :: r.level <= UpperLimitMm)
      && (exists r | r in rs :: r.level <= LowerLimitMm)
      && SpreadAtLeast(rs, MinGapDays)
  {
    SameFacts(rs);
  }

  lemma SameUpper(rs: seq<Reading>, s: seq<Reading>)
    requires forall x :: x in s <==> x in rs
    ensures AllAtMost(s, UpperLimitMm) <==> forall r | r in rs :: r.level <= UpperLimitMm
  {
    if AllAtMost(s, UpperLimitMm) {
      forall r | r in rs ensures r.level <= UpperLimitMm {
        var i :| 0 <= i < |s| && s[i] == r;
      }
    }
  }

  lemma SameLower(rs: seq<Reading>, s: seq<Reading>)
    requires forall x :: x in s <==> x in rs
    ensures SomeAtMost(s, LowerLimitMm) <==> exists r | r in rs :: r.level <= LowerLimitMm
  {
    if exists r | r in rs :: r.level <= LowerLimitMm {
      var r :| r in rs && r.level <= LowerLimitMm;
      var i :| 0 <= i < |s| && s[i] == r;
    }
  }

  /** The four facts the rule tests, read off the sorted readings and off the raw ones. */
  lemma SameFacts(rs: seq<Reading>)
    ensures var s := SortByDay(rs);
      && |s| == |rs|
      && (AllAtMost(s, UpperLimitMm) <==> forall r | r in rs :: r.level <= UpperLimitMm)
      && (SomeAtMost(s, LowerLimitMm) <==> exists r | r in rs :: r.level <= LowerLimitMm)
      && (|s| >= 2 ==> (GapDays(s) >= MinGapDays <==> SpreadAtLeast(rs, MinGapDays)))
  {
    var s := SortByDay(rs);
    SortKeepsReadings(rs);
    SameUpper(rs, s);
    SameLower(rs, s);
    if |s| >= 2 {
      SortByDaySorted(rs);
      SortedGap(s, MinGapDays);
      assert SpreadAtLeast(s, MinGapDays) <==> SpreadAtLeast(rs, MinGapDays);
    }
  }

  /**
   * On failure the reason is the first check that fails, in the order
   * ">200mm", "no <100mm", "insufficient gap"; fewer than two readings give
   * "only 1 measurement" or, for none, "no measurements".
   */
  lemma EvaluatePipeReason(rs: seq<Reading>)
    ensures EvaluatePipe(rs) == NonCompliant(AboveUpperLimit) <==>
      |rs| >= 2 && exists r | r in rs :: r.level > UpperLimitMm
    ensures EvaluatePipe(rs) == NonCompliant(NoneAtOrBelowLowerLimit) <==>
      && |rs| >= 2 && (forall r | r in rs :: r.level <= UpperLimitMm)
      && (forall r | r in rs :: r.level > LowerLimitMm)
    ensures EvaluatePipe(rs) == NonCompliant(InsufficientGap) <==>
      && |rs| >= 2 && (forall r | r in rs :: r.level <= UpperLimitMm)
      && (exists r | r in rs :: r.level <= LowerLimitMm)
      && !SpreadAtLeast(rs, MinGapDays)
    ensures EvaluatePipe(rs) == NonCompliant(OnlyOneMeasurement) <==> |rs| == 1
    ensures EvaluatePipe(rs) == NonCompliant(NoMeasurements) <==> |rs| == 0
  {
    SameFacts(rs);
  }

  /**
   * The three pipes of the sample data (June 2025, day 20255 being 16 June):
   * 180 then 90 three days apart passes, 250 then 120 fails on the upper
   * limit, 150 then 80 three days apart passes.
   */
  lemma SamplePipes()
    ensures EvaluatePipe([Reading(20256, 180.0), Reading(20259, 90.0)]) == Compliant
    ensures EvaluatePipe([Reading(20256, 250.0), Reading(20258, 120.0)]) == NonCompliant(AboveUpperLimit)
    ensures EvaluatePipe([Reading(20257, 150.0), Reading(20260, 80.0)]) == Compliant
    ensures EvaluatePipe([Reading(20259, 90.0), Reading(20256, 180.0)]) == Compliant
  {
    var navjotA := [Reading(20256, 180.0), Reading(20259, 90.0)];
    var ajit := [Reading(20257, 150.0), Reading(20260, 80.0)];
    assert SortByDay(navjotA) == navjotA && SomeAtMost(navjotA, LowerLimitMm) by {
      assert navjotA[1].level <= LowerLimitMm;
    }
    assert SortByDay(ajit) == ajit && SomeAtMost(ajit, LowerLimitMm) by {
      assert ajit[1].level <= LowerLimitMm;
    }
    assert SortByDay([Reading(20259, 90.0), Reading(20256, 180.0)]) == navjotA;
  }
}

/**
 * The fixed season calendar (`WEEK_PERIODS`, App.py:19-38) and week
 * assignment (`assign_week`, App.py:232-244). Dates are whole days counted
 * from 1970-01-01.
 */
module Weeks {
  import opened Wrappers

  predicate IsLeapYear(year: int) {
    year % 4 == 0 && (year % 100 != 0 || year % 400 == 0)
  }

  /** Days from 1970-01-01 to the first of January of `year` (negative before 1970). */
  function DaysBeforeYear(year: int): int {
    var n := year - 1;
    365 * (year - 1970) + (n / 4 - n / 100 + n / 400) - 477
  }

  /** Days from the first of January to the first of `month`. */
  function DaysBeforeMonth(year: int, month: int): int {
    var leap := if month > 2 && IsLeapYear(year) then 1 else 0;
    leap + (
      if month <= 1 then 0 else if month == 2 then 31 else if month == 3 then 59
      else if month == 4 then 90 else if month == 5 then 120 else if month == 6 then 151
      else if month == 7 then 181 else if month == 8 then 212 else if month == 9 then 243
      else if month == 10 then 273 else if month == 11 then 304 else 334)
  }

  /** Day number of a proleptic Gregorian calendar date, 1970-01-01 being day 0. */
  function CivilDay(year: int, month: int, day: int): int {
    DaysBeforeYear(year) + DaysBeforeMonth(year, month) + day - 1
  }

  /** One row of the table: number, display labels, first and last day. */
  datatype WeekPeriod = WeekPeriod(week: int, startLabel: string, endLabel: string, startDay: int, endDay: int)

  /** `WEEK_PERIODS`; the day numbers are those of the 2025 dates in the labels (`WeekPeriodDates`). */
  const WeekPeriods: seq<WeekPeriod> := [
    WeekPeriod(1, "16 June", "22 June", 20255, 20261),
    WeekPeriod(2, "23 June", "29 June", 20262, 20268),
    WeekPeriod(3, "30 June", "6 July", 20269, 20275),
    WeekPeriod(4, "7 July", "13 July", 20276, 20282),
    WeekPeriod(5, "14 July", "20 July", 20283, 20289),
    WeekPeriod(6, "21 July", "27 July", 20290, 20296),
    WeekPeriod(7, "28 July", "3 August", 20297, 20303),
    WeekPeriod(8, "4 August", "10 August", 20304, 20310),
    WeekPeriod(9, "11 August", "17 August", 20311, 20317),
    WeekPeriod(10, "18 August", "24 August", 20318, 20324),
    WeekPeriod(11, "25 August", "31 August", 20325, 20331),
    WeekPeriod(12, "1 September", "7 September", 20332, 20338),
    WeekPeriod(13, "8 September", "14 September", 20339, 20345),
    WeekPeriod(14, "15 September", "21 September", 20346, 20352),
    WeekPeriod(15, "22 September", "28 September", 20353, 20359),
    WeekPeriod(16, "29 September", "5 October", 20360, 20366),
    WeekPeriod(17, "6 October", "12 October", 20367, 20373),
    WeekPeriod(18, "13 October", "15 October", 20374, 20376)
  ]

  /** The table's shape: numbered 1..n in order, each week non-empty, each starting the day after the previous one ends. */
  ghost predicate Contiguous(periods: seq<WeekPeriod>) {
    && (forall k :: 0 <= k < |periods| ==> periods[k].week == k + 1)
    && (forall k :: 0 <= k < |periods| ==> periods[k].startDay <= periods[k].endDay)
    && (forall k :: 0 <= k < |periods| - 1 ==> periods[k + 1].startDay == periods[k].endDay + 1)
  }

  /** Day 0 is 1970-01-01, and the season starts on day 20255. */
  lemma CivilDayEpoch()
    ensures CivilDay(1970, 1, 1) == 0 && CivilDay(1971, 1, 1) == 365 && CivilDay(1973, 1, 1) == 1096
    ensures CivilDay(2025, 6, 16) == 20255
  {
  }

  /** 2025 starts on day 20089 and is not a leap year. */
  lemma Year2025()
    ensures DaysBeforeYear(2025) == 20089 && !IsLeapYear(2025)
    ensures forall m, d :: CivilDay(2025, m, d) == 20088 + DaysBeforeMonth(2025, m) + d
  {
  }

  /** The day numbers of the table are those of its calendar dates in 2025. */
  lemma WeekPeriodDates()
    ensures |WeekPeriods| == 18
    ensures WeekPeriods[0].startDay == CivilDay(2025, 6, 16) && WeekPeriods[0].endDay == CivilDay(2025, 6, 22)
    ensures WeekPeriods[1].startDay == CivilDay(2025, 6, 23) && WeekPeriods[1].endDay == CivilDay(2025, 6, 29)
    ensures WeekPeriods[2].startDay == CivilDay(2025, 6, 30) && WeekPeriods[2].endDay == CivilDay(2025, 7, 6)
    ensures WeekPeriods[3].startDay == CivilDay(2025, 7, 7) && WeekPeriods[3].endDay == CivilDay(2025, 7, 13)
    ensures WeekPeriods[4].startDay == CivilDay(2025, 7, 14) && WeekPeriods[4].endDay == CivilDay(2025, 7, 20)
    ensures WeekPeriods[5].startDay == CivilDay(2025, 7, 21) && WeekPeriods[5].endDay == CivilDay(2025, 7, 27)
    ensures WeekPeriods[6].startDay == CivilDay(2025, 7, 28) && WeekPeriods[6].endDay == CivilDay(2025, 8, 3)
    ensures WeekPeriods[7].startDay == CivilDay(2025, 8, 4) && WeekPeriods[7].endDay == CivilDay(2025, 8, 10)
    ensures WeekPeriods[8].startDay == CivilDay(2025, 8, 11) && WeekPeriods[8].endDay == CivilDay(2025, 8, 17)
    ensures WeekPeriods[9].startDay == CivilDay(2025, 8, 18) && WeekPeriods[9].endDay == CivilDay(2025, 8, 24)
    ensures WeekPeriods[10].startDay == CivilDay(2025, 8, 25) && WeekPeriods[10].endDay == CivilDay(2025, 8, 31)
    ensures WeekPeriods[11].startDay == CivilDay(2025, 9, 1) && WeekPeriods[11].endDay == CivilDay(2025, 9, 7)
    ensures WeekPeriods[12].startDay == CivilDay(2025, 9, 8) && WeekPeriods[12].endDay == CivilDay(2025, 9, 14)
    ensures WeekPeriods[13].startDay == CivilDay(2025, 9, 15) && WeekPeriods[13].endDay == CivilDay(2025, 9, 21)
    ensures WeekPeriods[14].startDay == CivilDay(2025, 9, 22) && WeekPeriods[14].endDay == CivilDay(2025, 9, 28)
    ensures WeekPeriods[15].startDay == CivilDay(2025, 9, 29) && WeekPeriods[15].endDay == CivilDay(2025, 10, 5)
    ensures WeekPeriods[16].startDay == CivilDay(2025, 10, 6) && WeekPeriods[16].endDay == CivilDay(2025, 10, 12)
    ensures WeekPeriods[17].startDay == CivilDay(2025, 10, 13) && WeekPeriods[17].endDay == CivilDay(2025, 10, 15)
  {
    Year2025();
  }

  /** Every week's first and last day, as day numbers. */
  lemma WeekPeriodDays()
    ensures |WeekPeriods| == 18
    ensures forall k :: 0 <= k < 18 ==> WeekPeriods[k].week == k + 1 && WeekPeriods[k].startDay == 20255 + 7 * k
    ensures forall k :: 0 <= k < 17 ==> WeekPeriods[k].endDay == 20261 + 7 * k
    ensures WeekPeriods[17].endDay == 20376
  {
  }

  /** 18 weeks, 1..18, contiguous; weeks 1..17 are 7 days long and week 18 is 3. */
  lemma WeekPeriodsShape()
    ensures |WeekPeriods| == 18
    ensures Contiguous(WeekPeriods)
    ensures forall k :: 0 <= k < 17 ==> WeekPeriods[k].endDay - WeekPeriods[k].startDay + 1 == 7
    ensures WeekPeriods[17].endDay - WeekPeriods[17].startDay + 1 == 3
    ensures WeekPeriods[0].startDay == CivilDay(2025, 6, 16) && WeekPeriods[17].endDay == CivilDay(2025, 10, 15)
  {
    WeekPeriodDays();
    WeekPeriodDates();
  }

  /** In a contiguous table, later weeks lie wholly after earlier ones. */
  lemma {:induction false} ContiguousOrdered(periods: seq<WeekPeriod>, i: int, j: int)
    requires Contiguous(periods)
    requires 0 <= i < j < |periods|
    ensures periods[i].endDay < periods[j].startDay
  {
    if j > i + 1 {
      ContiguousOrdered(periods, i, j - 1);
    }
  }

  /** The scan of `assign_week`: the first week whose range holds the day. */
  function FindWeek(periods: seq<WeekPeriod>, day: int): (r: Option<int>)
    ensures r.Some? ==> exists k :: 0 <= k < |periods| && periods[k].week == r.value
                                    && periods[k].startDay <= day <= periods[k].endDay
    ensures r.None? ==> forall k :: 0 <= k < |periods| ==> !(periods[k].startDay <= day <= periods[k].endDay)
  {
    if periods == [] then None
    else if periods[0].startDay <= day <= periods[0].endDay then Some(periods[0].week)
    else
      var r := FindWeek(periods[1..], day);
      assert forall k :: 1 <= k < |periods| ==> periods[k] == periods[1..][k - 1];
      r
  }

  /** `assign_week`: a missing date, or one outside every week, has no week. */
  function AssignWeek(date: Option<int>): Option<int> {
    match date
    case None => None
    case Some(day) => FindWeek(WeekPeriods, day)
  }

  /** In a contiguous table, the week found is the one whose range holds the day. */
  lemma FindWeekUnique(periods: seq<WeekPeriod>, day: int, k: int)
    requires Contiguous(periods)
    requires 0 <= k < |periods|
    ensures FindWeek(periods, day) == Some(k + 1) <==> periods[k].startDay <= day <= periods[k].endDay
  {
    var r := FindWeek(periods, day);
    if r.Some? {
      var k' :| 0 <= k' < |periods| && periods[k'].week == r.value
               && periods[k'].startDay <= day <= periods[k'].endDay;
      if k' < k { ContiguousOrdered(periods, k', k); }
      if k < k' { ContiguousOrdered(periods, k, k'); }
    }
  }

  /** In a contiguous table, a day has a week exactly when it lies between the first start and the last end. */
  lemma FindWeekSpan(periods: seq<WeekPeriod>, day: int)
    requires Contiguous(periods) && |periods| > 0
    ensures FindWeek(periods, day).Some? <==> periods[0].startDay <= day <= periods[|periods| - 1].endDay
    ensures FindWeek(periods, day).Some? ==> 1 <= FindWeek(periods, day).value <= |periods|
  {
    var n := |periods|;
    if periods[0].startDay <= day <= periods[n - 1].endDay {
      var k := 0;
      while periods[k].endDay < day
        invariant 0 <= k < n && periods[k].startDay <= day
        decreases n - k
      {
        k := k + 1;
      }
      FindWeekUnique(periods, day, k);
    } else {
      forall k | 0 <= k < n ensures !(periods[k].startDay <= day <= periods[k].endDay) {
        if k > 0 { ContiguousOrdered(periods, 0, k); }
        if k < n - 1 { ContiguousOrdered(periods, k, n - 1); }
      }
    }
  }

  /**
   * Because the weeks do not overlap, the week found is THE week holding the
   * date: week k+1 is returned exactly when its range holds the date.
   */
  lemma AssignWeekUnique(day: int, k: int)
    requires 0 <= k < |WeekPeriods|
    ensures AssignWeek(Some(day)) == Some(k + 1) <==> WeekPeriods[k].startDay <= day <= WeekPeriods[k].endDay
  {
    WeekPeriodsShape();
    FindWeekUnique(WeekPeriods, day, k);
  }

  /** A date has a week, numbered 1..18, exactly when it falls inside the season, 16 June to 15 October 2025. */
  lemma AssignWeekSeason(day: int)
    ensures AssignWeek(Some(day)).Some? <==> CivilDay(2025, 6, 16) <= day <= CivilDay(2025, 10, 15)
    ensures AssignWeek(Some(day)).Some? ==> 1 <= AssignWeek(Some(day)).value <= 18
  {
    WeekPeriodsShape();
    FindWeekSpan(WeekPeriods, day);
  }
}

/** Calendar helpers of the planner. A date is a day number counted from
    1970-01-01 (a Thursday); the empty date string is `None`. */
module Dates {
  import opened Common

  type Date = Option<int>

  /** Day of the week, 0 = Sunday … 6 = Saturday, as `Date.getDay` numbers them. */
  function Weekday(d: int): (w: int)
    ensures 0 <= w < 7
  {
    (d + 4) % 7
  }

  predicate IsWeekend(d: int)
  {
    Weekday(d) == 0 || Weekday(d) == 6
  }

  /** `addDays`: the empty date stays empty, any other moves `n` days. */
  function AddDays(date: Date, n: int): Date
  {
    if date.None? then None else Some(date.value + n)
  }

  /** `addWeeks`. */
  function AddWeeks(date: Date, weeks: int): Date
  {
    AddDays(date, weeks * 7)
  }

  lemma AddDaysEmpty(n: int)
    ensures AddDays(None, n) == None && AddWeeks(None, n) == None
  {
  }

  /** Moving by `a` days and then by `b` days is moving by `a + b` days. */
  lemma AddDaysCompose(date: Date, a: int, b: int)
    ensures AddDays(AddDays(date, a), b) == AddDays(date, a + b)
  {
  }

  /** Whole weeks keep the day of the week. */
  lemma AddWeeksKeepsWeekday(d: int, weeks: int)
    ensures AddWeeks(Some(d), weeks).Some?
    ensures Weekday(AddWeeks(Some(d), weeks).value) == Weekday(d)
  {
    assert d + weeks * 7 + 4 == (d + 4) + 7 * weeks;
  }

  // ---------------------------------------------------------------------
  // Civil calendar (proleptic Gregorian, UTC), for `addMonths`
  // ---------------------------------------------------------------------

  /** Day number of year `y`, month `m` (1-12), day `d`. A day beyond the end of
      the month runs on into the next month, as `Date.setMonth` lets it. */
  function DaysFromCivil(y: int, m: int, d: int): int
    requires 1 <= m <= 12
  {
    var y' := if m <= 2 then y - 1 else y;
    var era := y' / 400;
    var yoe := y' % 400;
    var doy := (153 * (if m > 2 then m - 3 else m + 9) + 2) / 5 + d - 1;
    var doe := yoe * 365 + yoe / 4 - yoe / 100 + doy;
    era * 146097 + doe - 719468
  }

  datatype Civil = Civil(year: int, month: int, day: int)

  /** Year, month and day of a day number. */
  function CivilFromDays(z: int): (c: Civil)
    ensures 1 <= c.month <= 12
  {
    var z' := z + 719468;
    var era := z' / 146097;
    var doe := z' % 146097;
    var yoe := (doe - doe / 1460 + doe / 36524 - doe / 146096) / 365;
    var doy := doe - (365 * yoe + yoe / 4 - yoe / 100);
    var mp := (5 * doy + 2) / 153;
    var d := doy - (153 * mp + 2) / 5 + 1;
    var m := if mp < 10 then mp + 3 else mp - 9;
    Civil(yoe + era * 400 + (if m <= 2 then 1 else 0), if 1 <= m <= 12 then m else 1, d)
  }

  /** `addMonths`: the same day of the month `months` months later, running on
      into the following month when that month is shorter. */
  function AddMonths(date: Date, months: int): (r: Date)
    ensures r.None? <==> date.None?
  {
    if date.None? then None
    else
      var c := CivilFromDays(date.value);
      var index := c.year * 12 + (c.month - 1) + months;
      Some(DaysFromCivil(index / 12, index % 12 + 1, c.day))
  }

  /** Each further day of the month is one day later. */
  lemma DaysFromCivilDayStep(y: int, m: int, d: int)
    requires 1 <= m <= 12
    ensures DaysFromCivil(y, m, d + 1) == DaysFromCivil(y, m, d) + 1
  {
  }

  /** Day 0 is 1970-01-01. */
  lemma CivilEpoch()
    ensures DaysFromCivil(1970, 1, 1) == 0
    ensures CivilFromDays(0) == Civil(1970, 1, 1)
  {
    assert 1969 / 400 == 4 && 1969 % 400 == 369;
    assert (153 * 10 + 2) / 5 == 306;
    assert 369 * 365 + 369 / 4 - 369 / 100 == 134774;
    assert 719468 / 146097 == 4 && 719468 % 146097 == 135080;
    assert (135080 - 135080 / 1460 + 135080 / 36524 - 135080 / 146096) / 365 == 369;
    assert (5 * 306 + 2) / 153 == 10 && (153 * 10 + 2) / 5 == 306;
  }

  /** A leap day converts back and forth. */
  lemma CivilLeapDay()
    ensures DaysFromCivil(2024, 2, 29) == 19782
    ensures CivilFromDays(19782) == Civil(2024, 2, 29)
  {
    assert 2023 / 400 == 5 && 2023 % 400 == 23;
    assert (153 * 11 + 2) / 5 == 337;
    assert 23 * 365 + 23 / 4 - 23 / 100 == 8400;
    assert 739250 / 146097 == 5 && 739250 % 146097 == 8765;
    assert (8765 - 8765 / 1460 + 8765 / 36524 - 8765 / 146096) / 365 == 23;
    assert (5 * 365 + 2) / 153 == 11;
  }

  lemma CivilJanuary31()
    ensures DaysFromCivil(2024, 1, 31) == 19753
    ensures CivilFromDays(19753) == Civil(2024, 1, 31)
  {
    assert 2023 / 400 == 5 && 2023 % 400 == 23;
    assert (153 * 10 + 2) / 5 == 306;
    assert 23 * 365 + 23 / 4 - 23 / 100 == 8400;
    assert 739221 / 146097 == 5 && 739221 % 146097 == 8736;
    assert (8736 - 8736 / 1460 + 8736 / 36524 - 8736 / 146096) / 365 == 23;
    assert (5 * 336 + 2) / 153 == 10;
  }

  lemma CivilMarch2()
    ensures DaysFromCivil(2024, 3, 2) == 19784
    ensures DaysFromCivil(2024, 2, 31) == 19784
  {
    assert 2024 / 400 == 5 && 2024 % 400 == 24;
    assert (153 * 0 + 2) / 5 == 0;
    assert 24 * 365 + 24 / 4 - 24 / 100 == 8766;
    assert 2023 / 400 == 5 && 2023 % 400 == 23;
    assert (153 * 11 + 2) / 5 == 337;
    assert 23 * 365 + 23 / 4 - 23 / 100 == 8400;
  }

  /** January 31st plus one month runs over into March, here March 2nd of a
      leap year. */
  lemma AddMonthsRunsOver()
    ensures AddMonths(Some(DaysFromCivil(2024, 1, 31)), 1) == Some(DaysFromCivil(2024, 3, 2))
  {
    CivilJanuary31();
    CivilMarch2();
    assert (2024 * 12 + 1) / 12 == 2024 && (2024 * 12 + 1) % 12 == 1;
  }

  lemma CivilNovember15()
    ensures DaysFromCivil(2023, 11, 15) == 19676
    ensures CivilFromDays(19676) == Civil(2023, 11, 15)
  {
    assert 2023 / 400 == 5 && 2023 % 400 == 23;
    assert (153 * 8 + 2) / 5 == 245;
    assert 23 * 365 + 23 / 4 - 23 / 100 == 8400;
    assert 739144 / 146097 == 5 && 739144 % 146097 == 8659;
    assert (8659 - 8659 / 1460 + 8659 / 36524 - 8659 / 146096) / 365 == 23;
    assert (5 * 259 + 2) / 153 == 8;
  }

  /** Months carry over into the next year. */
  lemma AddMonthsAcrossYear()
    ensures DaysFromCivil(2024, 2, 15) == 19768
    ensures AddMonths(Some(DaysFromCivil(2023, 11, 15)), 3) == Some(DaysFromCivil(2024, 2, 15))
  {
    CivilNovember15();
    assert (153 * 11 + 2) / 5 == 337;
    assert (2023 * 12 + 10 + 3) / 12 == 2024 && (2023 * 12 + 10 + 3) % 12 == 1;
  }

  // ---------------------------------------------------------------------
  // Workdays
  // ---------------------------------------------------------------------

  /** `getNextWorkday`: a Sunday moves to Monday, a Saturday to Monday, any
      other day stays. */
  function NextWorkday(date: Date): (r: Date)
    ensures r.None? <==> date.None?
    ensures date.Some? ==> date.value <= r.value <= date.value + 2
  {
    if date.None? then None
    else if Weekday(date.value) == 0 then AddDays(date, 1)
    else if Weekday(date.value) == 6 then AddDays(date, 2)
    else date
  }

  /** The result is the first workday on or after the date. */
  lemma NextWorkdayIsFirstWorkday(d: int)
    ensures !IsWeekend(NextWorkday(Some(d)).value)
    ensures forall e | d <= e < NextWorkday(Some(d)).value :: IsWeekend(e)
  {
    var r := NextWorkday(Some(d)).value;
    if Weekday(d) == 6 {
      assert (d + 1 + 4) % 7 == 0 && (d + 2 + 4) % 7 == 1;
    } else if Weekday(d) == 0 {
      assert (d + 1 + 4) % 7 == 1;
    }
  }

  lemma NextWorkdayIdempotent(date: Date)
    ensures NextWorkday(NextWorkday(date)) == NextWorkday(date)
  {
    if date.Some? {
      NextWorkdayIsFirstWorkday(date.value);
    }
  }

  function WorkdayValue(d: int): nat
  {
    if IsWeekend(d) then 0 else 1
  }

  /** The number of Monday-to-Friday days in `[lo, hi]`. */
  function Workdays(lo: int, hi: int): nat
    decreases hi - lo
  {
    if lo > hi then 0 else Workdays(lo, hi - 1) + WorkdayValue(hi)
  }

  /** `getBusinessDays`: the workdays from `start` to `end`, both included;
      0 when either date is empty. */
  method GetBusinessDays(start: Date, end: Date) returns (count: nat)
    ensures start.None? || end.None? ==> count == 0
    ensures start.Some? && end.Some? ==> count == Workdays(start.value, end.value)
  {
    if start.None? || end.None? {
      return 0;
    }
    count := 0;
    var current := start.value;
    while current <= end.value
      invariant current <= end.value + 1 || current == start.value
      invariant count == Workdays(start.value, current - 1)
      decreases end.value - current
    {
      if Weekday(current) != 0 && Weekday(current) != 6 {
        count := count + 1;
      }
      current := current + 1;
    }
  }

  lemma {:induction false} WorkdaysAtMostDays(lo: int, hi: int)
    ensures lo <= hi ==> Workdays(lo, hi) <= hi - lo + 1
    ensures lo > hi ==> Workdays(lo, hi) == 0
    decreases hi - lo
  {
    if lo <= hi {
      WorkdaysAtMostDays(lo, hi - 1);
    }
  }

  /** Counting over two adjacent ranges adds up. */
  lemma {:induction false} WorkdaysSplit(lo: int, mid: int, hi: int)
    requires lo - 1 <= mid <= hi
    ensures Workdays(lo, hi) == Workdays(lo, mid) + Workdays(mid + 1, hi)
    decreases hi - mid
  {
    if mid < hi {
      WorkdaysSplit(lo, mid, hi - 1);
    }
  }

  lemma WeekdayShift(d: int, k: nat)
    ensures Weekday(d + k) == (Weekday(d) + k) % 7
  {
  }

  /** Any seven consecutive days hold exactly five workdays. */
  lemma WorkdaysWeek(lo: int)
    ensures Workdays(lo, lo + 6) == 5
  {
    var w := Weekday(lo);
    WeekdayShift(lo, 1);
    WeekdayShift(lo, 2);
    WeekdayShift(lo, 3);
    WeekdayShift(lo, 4);
    WeekdayShift(lo, 5);
    WeekdayShift(lo, 6);
    assert Workdays(lo, lo) == WorkdayValue(lo);
    assert Workdays(lo, lo + 1) == Workdays(lo, lo) + WorkdayValue(lo + 1);
    assert Workdays(lo, lo + 2) == Workdays(lo, lo + 1) + WorkdayValue(lo + 2);
    assert Workdays(lo, lo + 3) == Workdays(lo, lo + 2) + WorkdayValue(lo + 3);
    assert Workdays(lo, lo + 4) == Workdays(lo, lo + 3) + WorkdayValue(lo + 4);
    assert Workdays(lo, lo + 5) == Workdays(lo, lo + 4) + WorkdayValue(lo + 5);
    assert Workdays(lo, lo + 6) == Workdays(lo, lo + 5) + WorkdayValue(lo + 6);
  }

  /** `k` whole weeks hold `5 * k` workdays. */
  lemma {:induction false} WorkdaysWeeks(lo: int, k: nat)
    ensures Workdays(lo, lo + 7 * k - 1) == 5 * k
  {
    if k > 0 {
      WorkdaysWeeks(lo, k - 1);
      WorkdaysSplit(lo, lo + 7 * (k - 1) - 1, lo + 7 * k - 1);
      WorkdaysWeek(lo + 7 * (k - 1));
    }
  }

  // ---------------------------------------------------------------------
  // Phase dates
  // ---------------------------------------------------------------------

  /** `phases.<name>`: whether the phase is on and how many weeks it lasts; a
      missing phase is one that is off. */
  datatype PhaseConfig = PhaseConfig(enabled: bool, weeks: int)

  datatype Range = Range(start: Date, end: Date)

  /** The `dates` object: a range for each enabled phase only. */
  datatype PhaseDates = PhaseDates(clarity: Option<Range>, implementation: Option<Range>, adoption: Option<Range>)

  /** `calculatePhaseDates`: the phases run one after the other from `start`;
      the last enabled phase after Clarity ends at the deadline. Each phase
      configuration here always carries its number of weeks; what the source
      does with an enabled phase whose `weeks` property is missing is not
      represented. */
  method CalculatePhaseDates(start: Date, deadline: Date, clarity: PhaseConfig, implementation: PhaseConfig,
                             adoption: PhaseConfig) returns (dates: PhaseDates)
    ensures dates.clarity.Some? <==> clarity.enabled
    ensures dates.implementation.Some? <==> implementation.enabled
    ensures dates.adoption.Some? <==> adoption.enabled
    ensures clarity.enabled ==> dates.clarity.value == Range(start, AddWeeks(start, clarity.weeks))
    ensures implementation.enabled ==>
      var before := if clarity.enabled then AddWeeks(start, clarity.weeks) else start;
      dates.implementation.value
        == Range(NextWorkday(before), if adoption.enabled then AddWeeks(before, implementation.weeks) else deadline)
    ensures adoption.enabled ==>
      var before := if implementation.enabled then dates.implementation.value.end
                    else if clarity.enabled then dates.clarity.value.end
                    else start;
      dates.adoption.value == Range(NextWorkday(before), deadline)
  {
    dates := PhaseDates(None, None, None);
    var current := start;
    if clarity.enabled {
      dates := dates.(clarity := Some(Range(current, AddWeeks(current, clarity.weeks))));
      current := dates.clarity.value.end;
    }
    if implementation.enabled {
      dates := dates.(implementation := Some(Range(NextWorkday(current),
                                                   if adoption.enabled then AddWeeks(current, implementation.weeks)
                                                   else deadline)));
      current := dates.implementation.value.end;
    }
    if adoption.enabled {
      dates := dates.(adoption := Some(Range(NextWorkday(current), deadline)));
    }
  }

  /** With all three phases on and non-negative durations, the phases follow
      each other: each starts on a workday no earlier than the previous end. */
  lemma PhasesInSequence(start: int, deadline: Date, clarity: PhaseConfig, implementation: PhaseConfig,
                         adoption: PhaseConfig)
    requires clarity.enabled && implementation.enabled && adoption.enabled
    requires clarity.weeks >= 0 && implementation.weeks >= 0
    ensures var c := AddWeeks(Some(start), clarity.weeks).value;
            var i := NextWorkday(Some(c)).value;
            var e := AddWeeks(Some(c), implementation.weeks).value;
            var a := NextWorkday(Some(e)).value;
            && start <= c <= i && !IsWeekend(i)
            && c <= e <= a && !IsWeekend(a)
  {
    var c := start + clarity.weeks * 7;
    var e := c + implementation.weeks * 7;
    NextWorkdayIsFirstWorkday(c);
    NextWorkdayIsFirstWorkday(e);
  }
}

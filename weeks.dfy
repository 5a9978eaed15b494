// The week calendar of script.js: generateWeeks and generateWeekDays.

module Weeks {
  import opened Calendar

  /** A week record: its first day, its last day and its seven days. */
  datatype Week = Week(start: Day, end: Day, days: seq<Day>)

  /** days is the run of consecutive days s, s+1, ... */
  predicate RunFrom(days: seq<Day>, s: Day) {
    forall j :: 0 <= j < |days| ==> days[j] == s + j
  }

  /** w is the week of the seven consecutive days s, s+1, .., s+6. */
  predicate IsWeekFrom(w: Week, s: Day) {
    && w.start == s
    && w.end == s + 6
    && |w.days| == 7
    && RunFrom(w.days, s)
  }

  /** Week i is the week that begins 7 * i days after startDate. */
  predicate WeeksFrom(weeks: seq<Week>, startDate: Day) {
    forall i :: 0 <= i < |weeks| ==> IsWeekFrom(weeks[i], startDate + 7 * i)
  }

  /**
   * What generateWeeks promises: consecutive weeks from startDate, every
   * week begins on or before endDate and the week after the last one would
   * begin after endDate.
   */
  predicate IsCalendar(weeks: seq<Week>, startDate: Day, endDate: Day) {
    && WeeksFrom(weeks, startDate)
    && (forall i :: 0 <= i < |weeks| ==> weeks[i].start <= endDate)
    && startDate + 7 * |weeks| > endDate
  }

  /** Every day of every week has a key. */
  predicate WeeksInRange(weeks: seq<Week>) {
    forall i :: 0 <= i < |weeks| ==> Keyable(weeks[i].days)
  }

  /** generateWeekDays: the seven days from weekStart on. */
  method GenerateWeekDays(weekStart: Day) returns (days: seq<Day>)
    ensures |days| == 7
    ensures forall j :: 0 <= j < 7 ==> days[j] == weekStart + j
  {
    days := [];
    for i := 0 to 7
      invariant |days| == i
      invariant forall j :: 0 <= j < i ==> days[j] == weekStart + j
    {
      var day := weekStart + i;
      days := days + [day];
    }
  }

  /** generateWeeks: 7-day weeks from startDate until the cursor passes endDate. */
  method GenerateWeeks(startDate: Day, endDate: Day) returns (weeks: seq<Week>)
    ensures IsCalendar(weeks, startDate, endDate)
  {
    weeks := [];
    var currentDate := startDate;
    while currentDate <= endDate
      invariant currentDate == startDate + 7 * |weeks|
      invariant forall i :: 0 <= i < |weeks| ==> IsWeekFrom(weeks[i], startDate + 7 * i)
      invariant forall i :: 0 <= i < |weeks| ==> weeks[i].start <= endDate
      decreases endDate - currentDate
    {
      var weekStart := currentDate;
      var weekEnd := currentDate + 6;
      var days := GenerateWeekDays(weekStart);
      weeks := weeks + [Week(weekStart, weekEnd, days)];
      currentDate := currentDate + 7;
    }
  }

  // ---------------------------------------------------------------------
  // Properties of a generated calendar

  /** The number of weeks is floor((endDate - startDate) / 7) + 1, or none for an empty range. */
  lemma CalendarLength(weeks: seq<Week>, startDate: Day, endDate: Day)
    requires IsCalendar(weeks, startDate, endDate)
    ensures |weeks| == if startDate <= endDate then (endDate - startDate) / 7 + 1 else 0
  {
    assert |weeks| > 0 ==> IsWeekFrom(weeks[0], startDate);
    if startDate <= endDate {
      var n := |weeks|;
      assert weeks[n - 1].start == startDate + 7 * (n - 1) <= endDate;
      assert 7 * (n - 1) <= endDate - startDate < 7 * n;
    }
  }

  /** The range determines the calendar: generateWeeks has exactly one possible result. */
  lemma CalendarUnique(w1: seq<Week>, w2: seq<Week>, startDate: Day, endDate: Day)
    requires IsCalendar(w1, startDate, endDate) && IsCalendar(w2, startDate, endDate)
    ensures w1 == w2
  {
    CalendarLength(w1, startDate, endDate);
    CalendarLength(w2, startDate, endDate);
    forall i | 0 <= i < |w1|
      ensures w1[i] == w2[i]
    {
      assert IsWeekFrom(w1[i], startDate + 7 * i) && IsWeekFrom(w2[i], startDate + 7 * i);
      assert w1[i].days == w2[i].days;
    }
  }

  /** Each week begins the day after the previous one ends: no gap and no overlap. */
  lemma CalendarContiguous(weeks: seq<Week>, startDate: Day, endDate: Day, i: nat)
    requires IsCalendar(weeks, startDate, endDate)
    requires i + 1 < |weeks|
    ensures weeks[i + 1].start == weeks[i].end + 1
    ensures weeks[i + 1].days[0] == weeks[i].days[6] + 1
  {
  }

  /** The last week is the first one to reach endDate. */
  lemma CalendarCoversEnd(weeks: seq<Week>, startDate: Day, endDate: Day)
    requires IsCalendar(weeks, startDate, endDate)
    requires startDate <= endDate
    ensures |weeks| > 0
    ensures weeks[|weeks| - 1].start <= endDate <= weeks[|weeks| - 1].end
  {
  }

  /** Day d of the range lies in week (d - startDate) / 7, at position (d - startDate) % 7. */
  lemma DayInCalendar(weeks: seq<Week>, startDate: Day, endDate: Day, d: Day)
    requires IsCalendar(weeks, startDate, endDate)
    requires startDate <= d < startDate + 7 * |weeks|
    ensures (d - startDate) / 7 < |weeks|
    ensures weeks[(d - startDate) / 7].days[(d - startDate) % 7] == d
  {
  }

  /** A day of week i is in the range and determines i. */
  lemma CalendarDayPosition(weeks: seq<Week>, startDate: Day, endDate: Day, i: nat, j: nat)
    requires IsCalendar(weeks, startDate, endDate)
    requires i < |weeks| && j < |weeks[i].days|
    ensures weeks[i].days[j] == startDate + 7 * i + j && j < 7
  {
  }

  /** When the range ends at least six days before the last keyable day, every day has a key. */
  lemma CalendarInRange(weeks: seq<Week>, startDate: Day, endDate: Day)
    requires IsCalendar(weeks, startDate, endDate)
    requires endDate + 6 < MaxDay
    ensures WeeksInRange(weeks)
  {
  }

  /** Weeks that start on a Monday have their weekend on their last two days. */
  lemma CalendarWeekends(weeks: seq<Week>, startDate: Day, endDate: Day, i: nat, j: nat)
    requires IsCalendar(weeks, startDate, endDate)
    requires Weekday(startDate) == 1
    requires i < |weeks| && j < 7
    ensures IsWeekend(weeks[i].days[j]) <==> j >= 5
  {
  }

  // ---------------------------------------------------------------------
  // The configured range

  /** The tracker's range: Monday 2025-08-25 .. Sunday 2026-01-04. */
  const ConfiguredStart: Day := 20325
  const ConfiguredEnd: Day := 20457

  /**
   * The configured range holds 19 weeks, from Monday 2025-08-25 to
   * Monday 2025-12-29, the last ending Sunday 2026-01-04.
   */
  lemma ConfiguredCalendar(weeks: seq<Week>)
    requires IsCalendar(weeks, ConfiguredStart, ConfiguredEnd)
    ensures |weeks| == 19
    ensures GetDayKey(weeks[0].start) == "2025-08-25"
    ensures GetDayKey(weeks[18].start) == "2025-12-29"
    ensures weeks[18].end == ConfiguredEnd && GetDayKey(weeks[18].end) == "2026-01-04"
    ensures forall i, j :: 0 <= i < 19 && 0 <= j < 7 ==> (IsWeekend(weeks[i].days[j]) <==> j >= 5)
  {
    CalendarLength(weeks, ConfiguredStart, ConfiguredEnd);
    assert IsWeekFrom(weeks[0], ConfiguredStart);
    assert IsWeekFrom(weeks[18], ConfiguredStart + 7 * 18);
    ConfiguredFirstDay(weeks[0].start);
    ConfiguredLastMonday(weeks[18].start);
    ConfiguredLastDay(weeks[18].end);
    forall i, j | 0 <= i < 19 && 0 <= j < 7
      ensures IsWeekend(weeks[i].days[j]) <==> j >= 5
    {
      CalendarWeekends(weeks, ConfiguredStart, ConfiguredEnd, i, j);
    }
  }
}

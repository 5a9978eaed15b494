// The counts behind script.js's statistics: calculateWeekDuties,
// calculateTotalDuties and the group sums of updateStatistics, as
// functions of the duty map, with the properties they keep.

module Statistics {
  import opened Calendar
  import opened Weeks
  import opened Duties

  /** The number of the given days that the duty map marks on. */
  function DaysOn(duties: map<DayKey, bool>, days: seq<Day>): (c: nat)
    requires Keyable(days)
    ensures c <= |days|
  {
    if days == [] then 0
    else DaysOn(duties, days[..|days| - 1]) + (if OnDuty(duties, GetDayKey(days[|days| - 1])) then 1 else 0)
  }

  /** Counting one more day adds one exactly when that day is on. */
  lemma DaysOnStep(duties: map<DayKey, bool>, days: seq<Day>, j: nat)
    requires Keyable(days) && j < |days|
    ensures DaysOn(duties, days[..j + 1]) == DaysOn(duties, days[..j]) + (if OnDuty(duties, GetDayKey(days[j])) then 1 else 0)
  {
    assert days[..j + 1][..j] == days[..j];
  }

  /** The positions of the days that the duty map marks on. */
  function OnPositions(duties: map<DayKey, bool>, days: seq<Day>): set<nat>
    requires Keyable(days)
  {
    set j: nat | j < |days| && OnDuty(duties, GetDayKey(days[j]))
  }

  /**
   * The duties of every week that begins on or before cutoff: what
   * calculateTotalDuties adds up, with cutoff the current week's start.
   */
  function DutiesThrough(duties: map<DayKey, bool>, weeks: seq<Week>, cutoff: Day): nat
    requires WeeksInRange(weeks)
  {
    if weeks == [] then 0
    else
      var last := weeks[|weeks| - 1];
      DutiesThrough(duties, weeks[..|weeks| - 1], cutoff) + (if last.start <= cutoff then DaysOn(duties, last.days) else 0)
  }

  /** The duties of all the given weeks. */
  function Total(duties: map<DayKey, bool>, weeks: seq<Week>): nat
    requires WeeksInRange(weeks)
  {
    if weeks == [] then 0
    else Total(duties, weeks[..|weeks| - 1]) + DaysOn(duties, weeks[|weeks| - 1].days)
  }

  /** d2 reads like d1 except at key, where it reads the opposite. */
  ghost predicate FlippedAt(d1: map<DayKey, bool>, d2: map<DayKey, bool>, key: DayKey) {
    && OnDuty(d2, key) == !OnDuty(d1, key)
    && forall k :: k != key ==> OnDuty(d2, k) == OnDuty(d1, k)
  }

  /** +1 when the entry at key turns on, -1 when it turns off. */
  function FlipDelta(d1: map<DayKey, bool>, key: DayKey): int {
    if OnDuty(d1, key) then -1 else 1
  }

  // ---------------------------------------------------------------------
  // One staff member's weekly count

  /** Adding a day adds its position exactly when it is on. */
  lemma OnPositionsStep(duties: map<DayKey, bool>, days: seq<Day>)
    requires Keyable(days) && days != []
    ensures var n := |days|;
      && n - 1 !in OnPositions(duties, days[..n - 1])
      && OnPositions(duties, days)
         == OnPositions(duties, days[..n - 1]) + (if OnDuty(duties, GetDayKey(days[n - 1])) then {n - 1} else {})
  {
    var n := |days|;
    var prev := days[..n - 1];
    var before, after := OnPositions(duties, prev), OnPositions(duties, days);
    forall j: nat | j < n - 1
      ensures j in before <==> j in after
    {
      assert prev[j] == days[j];
    }
  }

  /** The count is the number of positions whose day is on. */
  lemma {:induction false} DaysOnCountsPositions(duties: map<DayKey, bool>, days: seq<Day>)
    requires Keyable(days)
    ensures DaysOn(duties, days) == |OnPositions(duties, days)|
  {
    if days != [] {
      DaysOnCountsPositions(duties, days[..|days| - 1]);
      OnPositionsStep(duties, days);
    } else {
      assert OnPositions(duties, days) == {};
    }
  }

  /** Counts only depend on the entries of the days counted. */
  lemma {:induction false} DaysOnAgree(d1: map<DayKey, bool>, d2: map<DayKey, bool>, days: seq<Day>)
    requires Keyable(days)
    requires forall j :: 0 <= j < |days| ==> OnDuty(d1, GetDayKey(days[j])) == OnDuty(d2, GetDayKey(days[j]))
    ensures DaysOn(d1, days) == DaysOn(d2, days)
  {
    if days != [] {
      DaysOnAgree(d1, d2, days[..|days| - 1]);
    }
  }

  /** With every entry off, nothing is counted. */
  lemma {:induction false} NoneOnCountsZero(duties: map<DayKey, bool>, keys: set<DayKey>, days: seq<Day>)
    requires AllOff(duties, keys) && Keyable(days)
    ensures DaysOn(duties, days) == 0
  {
    if days != [] {
      NoneOnCountsZero(duties, keys, days[..|days| - 1]);
    }
  }

  /** How many of the days have this key. */
  function Occurrences(key: DayKey, days: seq<Day>): nat
    requires Keyable(days)
  {
    if days == [] then 0
    else Occurrences(key, days[..|days| - 1]) + (if GetDayKey(days[|days| - 1]) == key then 1 else 0)
  }

  /** Flipping one entry changes a count by the number of days with that key, up or down. */
  lemma {:induction false} FlipChangesCount(d1: map<DayKey, bool>, d2: map<DayKey, bool>, key: DayKey, days: seq<Day>)
    requires Keyable(days) && FlippedAt(d1, d2, key)
    ensures if OnDuty(d1, key) then DaysOn(d2, days) + Occurrences(key, days) == DaysOn(d1, days)
            else DaysOn(d2, days) == DaysOn(d1, days) + Occurrences(key, days)
  {
    if days != [] {
      FlipChangesCount(d1, d2, key, days[..|days| - 1]);
    }
  }

  /** In a run of consecutive days the key of day d occurs once if d is in the run, and not at all otherwise. */
  lemma {:induction false} OccurrencesInRun(d: Day, days: seq<Day>, s: Day)
    requires Keyable(days) && RunFrom(days, s) && d < MaxDay
    ensures Occurrences(GetDayKey(d), days) == if s <= d < s + |days| then 1 else 0
  {
    if days != [] {
      var n := |days|;
      OccurrencesInRun(d, days[..n - 1], s);
      DayKeyInjective(days[n - 1], d);
    }
  }

  /**
   * toggleDuty on day d changes the toggled staff member's count of a week
   * by exactly one when d is in that week, and not at all otherwise.
   */
  lemma ToggleChangesWeekCount(data: DutyData, staff: string, week: Week, s: Day, d: Day)
    requires staff in data && IsWeekFrom(week, s) && Keyable(week.days) && d < MaxDay
    ensures var before := data[staff].duties;
      var after := Toggled(data, staff, GetDayKey(d))[staff].duties;
      DaysOn(after, week.days) == DaysOn(before, week.days) + (if s <= d < s + 7 then FlipDelta(before, GetDayKey(d)) else 0)
  {
    var key := GetDayKey(d);
    FlipChangesCount(data[staff].duties, Toggled(data, staff, key)[staff].duties, key, week.days);
    OccurrencesInRun(d, week.days, s);
  }

  // ---------------------------------------------------------------------
  // One staff member's count to date

  /** Counting weeks up to a later date never counts fewer duties. */
  lemma {:induction false} ThroughMonotone(duties: map<DayKey, bool>, weeks: seq<Week>, c1: Day, c2: Day)
    requires WeeksInRange(weeks) && c1 <= c2
    ensures DutiesThrough(duties, weeks, c1) <= DutiesThrough(duties, weeks, c2)
  {
    if weeks != [] {
      ThroughMonotone(duties, weeks[..|weeks| - 1], c1, c2);
    }
  }

  lemma ThroughStep(duties: map<DayKey, bool>, weeks: seq<Week>, cutoff: Day, m: nat)
    requires WeeksInRange(weeks) && 0 < m <= |weeks|
    ensures DutiesThrough(duties, weeks[..m], cutoff)
         == DutiesThrough(duties, weeks[..m - 1], cutoff) + (if weeks[m - 1].start <= cutoff then DaysOn(duties, weeks[m - 1].days) else 0)
  {
    assert weeks[..m][..m - 1] == weeks[..m - 1];
  }

  lemma TotalStep(duties: map<DayKey, bool>, weeks: seq<Week>, m: nat)
    requires WeeksInRange(weeks) && 0 < m <= |weeks|
    ensures Total(duties, weeks[..m]) == Total(duties, weeks[..m - 1]) + DaysOn(duties, weeks[m - 1].days)
  {
    assert weeks[..m][..m - 1] == weeks[..m - 1];
  }

  /** Up to week k every week starts no later than week k, so all of them are counted. */
  lemma {:induction false} ThroughAllCounted(duties: map<DayKey, bool>, weeks: seq<Week>, s: Day, k: nat, m: nat)
    requires WeeksInRange(weeks) && WeeksFrom(weeks, s) && k < |weeks| && m <= k + 1
    ensures DutiesThrough(duties, weeks[..m], weeks[k].start) == Total(duties, weeks[..m])
  {
    if m > 0 {
      ThroughAllCounted(duties, weeks, s, k, m - 1);
      ThroughStep(duties, weeks, weeks[k].start, m);
      TotalStep(duties, weeks, m);
      assert weeks[m - 1].start == s + 7 * (m - 1) && weeks[k].start == s + 7 * k;
    }
  }

  /** The weeks after week k start after it, so none of them is counted. */
  lemma {:induction false} ThroughNoneCounted(duties: map<DayKey, bool>, weeks: seq<Week>, s: Day, k: nat, m: nat)
    requires WeeksInRange(weeks) && WeeksFrom(weeks, s) && k < |weeks| && k + 1 <= m <= |weeks|
    ensures DutiesThrough(duties, weeks[..m], weeks[k].start) == DutiesThrough(duties, weeks[..k + 1], weeks[k].start)
  {
    if m > k + 1 {
      ThroughNoneCounted(duties, weeks, s, k, m - 1);
      ThroughStep(duties, weeks, weeks[k].start, m);
      assert weeks[m - 1].start == s + 7 * (m - 1) && weeks[k].start == s + 7 * k;
    }
  }

  /**
   * calculateTotalDuties with the current week k is the sum of the weekly
   * counts of weeks 0..k.
   */
  lemma CumulativeIsPrefixSum(duties: map<DayKey, bool>, weeks: seq<Week>, s: Day, k: nat)
    requires WeeksInRange(weeks) && WeeksFrom(weeks, s) && k < |weeks|
    ensures DutiesThrough(duties, weeks, weeks[k].start) == Total(duties, weeks[..k + 1])
  {
    ThroughNoneCounted(duties, weeks, s, k, |weeks|);
    ThroughAllCounted(duties, weeks, s, k, k + 1);
    assert weeks[..|weeks|] == weeks;
  }

  /** The current week's count is part of the count to date. */
  lemma ThisWeekWithinToDate(duties: map<DayKey, bool>, weeks: seq<Week>, s: Day, k: nat)
    requires WeeksInRange(weeks) && WeeksFrom(weeks, s) && k < |weeks|
    ensures DaysOn(duties, weeks[k].days) <= DutiesThrough(duties, weeks, weeks[k].start)
  {
    CumulativeIsPrefixSum(duties, weeks, s, k);
    assert weeks[..k + 1][..k] == weeks[..k];
  }

  /** Moving to a later week never lowers the count to date. */
  lemma CumulativeMonotone(duties: map<DayKey, bool>, weeks: seq<Week>, s: Day, k1: nat, k2: nat)
    requires WeeksInRange(weeks) && WeeksFrom(weeks, s) && k1 <= k2 < |weeks|
    ensures DutiesThrough(duties, weeks, weeks[k1].start) <= DutiesThrough(duties, weeks, weeks[k2].start)
  {
    assert IsWeekFrom(weeks[k1], s + 7 * k1) && IsWeekFrom(weeks[k2], s + 7 * k2);
    ThroughMonotone(duties, weeks, weeks[k1].start, weeks[k2].start);
  }

  lemma {:induction false} TotalBound(duties: map<DayKey, bool>, weeks: seq<Week>, s: Day)
    requires WeeksInRange(weeks) && WeeksFrom(weeks, s)
    ensures Total(duties, weeks) <= 7 * |weeks|
  {
    if weeks != [] {
      var n := |weeks|;
      TotalBound(duties, weeks[..n - 1], s);
      assert IsWeekFrom(weeks[n - 1], s + 7 * (n - 1));
    }
  }

  /** Through week k at most seven duties a week can have been counted. */
  lemma CumulativeBound(duties: map<DayKey, bool>, weeks: seq<Week>, s: Day, k: nat)
    requires WeeksInRange(weeks) && WeeksFrom(weeks, s) && k < |weeks|
    ensures DutiesThrough(duties, weeks, weeks[k].start) <= 7 * (k + 1)
  {
    CumulativeIsPrefixSum(duties, weeks, s, k);
    TotalBound(duties, weeks[..k + 1], s);
  }

  /** With every entry off, nothing is counted to date. */
  lemma {:induction false} NoneOnThroughZero(duties: map<DayKey, bool>, keys: set<DayKey>, weeks: seq<Week>, cutoff: Day)
    requires AllOff(duties, keys) && WeeksInRange(weeks)
    ensures DutiesThrough(duties, weeks, cutoff) == 0
  {
    if weeks != [] {
      NoneOnThroughZero(duties, keys, weeks[..|weeks| - 1], cutoff);
      NoneOnCountsZero(duties, keys, weeks[|weeks| - 1].days);
    }
  }

  /** How many days of the weeks counted by cutoff have this key. */
  function OccurrencesThrough(key: DayKey, weeks: seq<Week>, cutoff: Day): nat
    requires WeeksInRange(weeks)
  {
    if weeks == [] then 0
    else
      var last := weeks[|weeks| - 1];
      OccurrencesThrough(key, weeks[..|weeks| - 1], cutoff) + (if last.start <= cutoff then Occurrences(key, last.days) else 0)
  }

  /** Flipping one entry changes a count to date by the number of counted days with that key, up or down. */
  lemma {:induction false} FlipChangesCumulative(d1: map<DayKey, bool>, d2: map<DayKey, bool>, key: DayKey,
                                                  weeks: seq<Week>, cutoff: Day)
    requires WeeksInRange(weeks) && FlippedAt(d1, d2, key)
    ensures if OnDuty(d1, key) then DutiesThrough(d2, weeks, cutoff) + OccurrencesThrough(key, weeks, cutoff) == DutiesThrough(d1, weeks, cutoff)
            else DutiesThrough(d2, weeks, cutoff) == DutiesThrough(d1, weeks, cutoff) + OccurrencesThrough(key, weeks, cutoff)
  {
    if weeks != [] {
      FlipChangesCumulative(d1, d2, key, weeks[..|weeks| - 1], cutoff);
      FlipChangesCount(d1, d2, key, weeks[|weeks| - 1].days);
    }
  }

  /**
   * In consecutive weeks the key of day d occurs once among the counted
   * weeks when d lies in one of them, and not at all otherwise.
   */
  lemma {:induction false} OccurrencesThroughOfDay(d: Day, weeks: seq<Week>, s: Day, cutoff: Day)
    requires WeeksInRange(weeks) && WeeksFrom(weeks, s) && d < MaxDay
    ensures OccurrencesThrough(GetDayKey(d), weeks, cutoff)
         == if s <= d < s + 7 * |weeks| && s + 7 * ((d - s) / 7) <= cutoff then 1 else 0
  {
    if weeks != [] {
      var n := |weeks|;
      OccurrencesThroughOfDay(d, weeks[..n - 1], s, cutoff);
      assert IsWeekFrom(weeks[n - 1], s + 7 * (n - 1));
      OccurrencesInRun(d, weeks[n - 1].days, s + 7 * (n - 1));
      if s + 7 * (n - 1) <= d < s + 7 * n {
        assert (d - s) / 7 == n - 1;
      }
    }
  }

  /**
   * toggleDuty on day d changes the toggled staff member's count to date by
   * exactly one when d lies in a week that has been reached, and not at all
   * otherwise.
   */
  lemma ToggleChangesCumulative(data: DutyData, staff: string, weeks: seq<Week>, s: Day, cutoff: Day, d: Day)
    requires staff in data && WeeksInRange(weeks) && WeeksFrom(weeks, s) && d < MaxDay
    ensures var before := data[staff].duties;
      var after := Toggled(data, staff, GetDayKey(d))[staff].duties;
      DutiesThrough(after, weeks, cutoff)
        == DutiesThrough(before, weeks, cutoff)
           + (if s <= d < s + 7 * |weeks| && weeks[(d - s) / 7].start <= cutoff then FlipDelta(before, GetDayKey(d)) else 0)
  {
    var key := GetDayKey(d);
    FlipChangesCumulative(data[staff].duties, Toggled(data, staff, key)[staff].duties, key, weeks, cutoff);
    OccurrencesThroughOfDay(d, weeks, s, cutoff);
    if s <= d < s + 7 * |weeks| {
      assert IsWeekFrom(weeks[(d - s) / 7], s + 7 * ((d - s) / 7));
    }
  }

  // ---------------------------------------------------------------------
  // Group sums of updateStatistics

  /** Every name of the list has a record. */
  predicate AllKnown(data: DutyData, staff: seq<string>) {
    forall i :: 0 <= i < |staff| ==> staff[i] in data
  }

  /** The weekly counts of a staff list, added up (raThisWeek, arThisWeek). */
  function GroupWeek(data: DutyData, staff: seq<string>, days: seq<Day>): nat
    requires AllKnown(data, staff) && Keyable(days)
  {
    if staff == [] then 0
    else GroupWeek(data, staff[..|staff| - 1], days) + DaysOn(data[staff[|staff| - 1]].duties, days)
  }

  /** The counts to date of a staff list, added up (raToDate, arToDate). */
  function GroupThrough(data: DutyData, staff: seq<string>, weeks: seq<Week>, cutoff: Day): nat
    requires AllKnown(data, staff) && WeeksInRange(weeks)
  {
    if staff == [] then 0
    else GroupThrough(data, staff[..|staff| - 1], weeks, cutoff) + DutiesThrough(data[staff[|staff| - 1]].duties, weeks, cutoff)
  }

  /** A group's weekly total is at most seven per name on the list. */
  lemma {:induction false} GroupWeekBound(data: DutyData, staff: seq<string>, week: Week, s: Day)
    requires AllKnown(data, staff) && IsWeekFrom(week, s) && Keyable(week.days)
    ensures GroupWeek(data, staff, week.days) <= 7 * |staff|
  {
    if staff != [] {
      GroupWeekBound(data, staff[..|staff| - 1], week, s);
    }
  }

  /** A group's total to date through week k is at most 7 * (k + 1) per name on the list. */
  lemma {:induction false} GroupThroughBound(data: DutyData, staff: seq<string>, weeks: seq<Week>, s: Day, k: nat)
    requires AllKnown(data, staff) && WeeksInRange(weeks) && WeeksFrom(weeks, s) && k < |weeks|
    ensures GroupThrough(data, staff, weeks, weeks[k].start) <= |staff| * (7 * (k + 1))
  {
    if staff != [] {
      var n := |staff|;
      GroupThroughBound(data, staff[..n - 1], weeks, s, k);
      CumulativeBound(data[staff[n - 1]].duties, weeks, s, k);
      assert (n - 1) * (7 * (k + 1)) + 7 * (k + 1) == n * (7 * (k + 1));
    }
  }

  /** A group's weekly total is part of its total to date. */
  lemma {:induction false} GroupWeekWithinToDate(data: DutyData, staff: seq<string>, weeks: seq<Week>, s: Day, k: nat)
    requires AllKnown(data, staff) && WeeksInRange(weeks) && WeeksFrom(weeks, s) && k < |weeks|
    ensures GroupWeek(data, staff, weeks[k].days) <= GroupThrough(data, staff, weeks, weeks[k].start)
  {
    if staff != [] {
      var n := |staff|;
      GroupWeekWithinToDate(data, staff[..n - 1], weeks, s, k);
      ThisWeekWithinToDate(data[staff[n - 1]].duties, weeks, s, k);
    }
  }

  /** A group's total to date never drops when moving to a later week. */
  lemma {:induction false} GroupMonotone(data: DutyData, staff: seq<string>, weeks: seq<Week>, s: Day, k1: nat, k2: nat)
    requires AllKnown(data, staff) && WeeksInRange(weeks) && WeeksFrom(weeks, s) && k1 <= k2 < |weeks|
    ensures GroupThrough(data, staff, weeks, weeks[k1].start) <= GroupThrough(data, staff, weeks, weeks[k2].start)
  {
    if staff != [] {
      var n := |staff|;
      GroupMonotone(data, staff[..n - 1], weeks, s, k1, k2);
      CumulativeMonotone(data[staff[n - 1]].duties, weeks, s, k1, k2);
    }
  }

  /** The bounds of one group's two figures for week k, together. */
  lemma GroupFiguresBound(data: DutyData, staff: seq<string>, weeks: seq<Week>, s: Day, k: nat)
    requires AllKnown(data, staff) && WeeksInRange(weeks) && WeeksFrom(weeks, s) && k < |weeks|
    ensures GroupWeek(data, staff, weeks[k].days) <= 7 * |staff|
    ensures GroupWeek(data, staff, weeks[k].days) <= GroupThrough(data, staff, weeks, weeks[k].start)
    ensures GroupThrough(data, staff, weeks, weeks[k].start) <= |staff| * (7 * (k + 1))
  {
    GroupWeekBound(data, staff, weeks[k], s + 7 * k);
    GroupWeekWithinToDate(data, staff, weeks, s, k);
    GroupThroughBound(data, staff, weeks, s, k);
  }

  /** With every record all off, as initializeDutyData leaves them, every statistic is zero. */
  lemma {:induction false} FreshGroupZero(data: DutyData, staff: seq<string>, keys: set<DayKey>, weeks: seq<Week>, cutoff: Day, days: seq<Day>)
    requires AllKnown(data, staff) && WeeksInRange(weeks) && Keyable(days)
    requires forall s :: s in data ==> AllOff(data[s].duties, keys)
    ensures GroupWeek(data, staff, days) == 0 && GroupThrough(data, staff, weeks, cutoff) == 0
  {
    if staff != [] {
      var n := |staff|;
      FreshGroupZero(data, staff[..n - 1], keys, weeks, cutoff, days);
      NoneOnCountsZero(data[staff[n - 1]].duties, keys, days);
      NoneOnThroughZero(data[staff[n - 1]].duties, keys, weeks, cutoff);
    }
  }
}

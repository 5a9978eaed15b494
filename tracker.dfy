// The DutyScheduleTracker class of script.js: its fixed configuration, the
// current-week cursor and the duty map, and the operations that read and
// change them.

module Tracker {
  import opened Calendar
  import opened Weeks
  import opened Duties
  import opened Statistics

  /** The RA list of the constructor. */
  const StaffRa: seq<string> := ["Harry Shaia", "Kevin Rybinski", "Kyle Hill", "PJ Carroll", "Thomas Rybinski"]

  /** The AR list of the constructor. */
  const StaffAr: seq<string> := ["Father Ralph", "Eoghan Fay", "Charlie Mathes"]

  /** What toggleDuty does with a click on a duty cell. */
  datatype ToggleOutcome =
    | Ignored           // the cell names no staff member or no day: return at once
    | UnknownStaff      // no record for the name: reading its duties throws a TypeError
    | Set(on: bool)     // the entry was negated; on is its new value

  class DutyScheduleTracker {
    const staffRa: seq<string>
    const staffAr: seq<string>
    const startDate: Day
    const endDate: Day
    const weeks: seq<Week>
    var currentWeekIndex: nat
    var dutyData: DutyData

    /**
     * The invariant every operation keeps: the weeks are the calendar of the
     * range, and every name of the two lists has a record of its role that
     * holds an entry for every day of the calendar.
     */
    ghost predicate Valid()
      reads this
    {
      && IsCalendar(weeks, startDate, endDate)
      && endDate + 6 < MaxDay
      && WeeksInRange(weeks)
      && 0 < |weeks|
      && currentWeekIndex < |weeks|
      && dutyData.Keys == Members(staffRa) + Members(staffAr)
      && AllKnown(dutyData, staffRa)
      && AllKnown(dutyData, staffAr)
      && (forall s :: s in dutyData ==> dutyData[s].role == (if s in staffAr then AR else RA))
      && (forall s :: s in dutyData ==> CalendarKeys(weeks) <= dutyData[s].duties.Keys)
    }

    /**
     * The fixed staff lists and range, the weeks of the range, the cursor
     * on the first week and every entry of every staff member off.
     */
    constructor()
      ensures Valid()
      ensures staffRa == StaffRa && staffAr == StaffAr
      ensures startDate == ConfiguredStart && endDate == ConfiguredEnd
      ensures |weeks| == 19 && currentWeekIndex == 0
      ensures forall s :: s in dutyData ==> dutyData[s].role == (if s in staffAr then AR else RA)
      ensures forall s :: s in dutyData ==> AllOff(dutyData[s].duties, CalendarKeys(weeks))
    {
      staffRa := StaffRa;
      staffAr := StaffAr;
      startDate := ConfiguredStart;
      endDate := ConfiguredEnd;
      currentWeekIndex := 0;
      var generated := GenerateWeeks(ConfiguredStart, ConfiguredEnd);
      ConfiguredCalendar(generated);
      CalendarInRange(generated, ConfiguredStart, ConfiguredEnd);
      weeks := generated;
      var data := InitializeDutyData(StaffRa, StaffAr, generated);
      dutyData := data;
    }

    /** previousWeek: step back one week unless on the first. */
    method PreviousWeek()
      requires Valid()
      modifies this`currentWeekIndex
      ensures Valid()
      ensures currentWeekIndex == if old(currentWeekIndex) > 0 then old(currentWeekIndex) - 1 else old(currentWeekIndex)
      ensures forall s :: s in dutyData ==>
        DutiesThrough(dutyData[s].duties, weeks, weeks[currentWeekIndex].start)
        <= DutiesThrough(dutyData[s].duties, weeks, weeks[old(currentWeekIndex)].start)
    {
      if currentWeekIndex > 0 {
        currentWeekIndex := currentWeekIndex - 1;
      }
      forall s | s in dutyData
        ensures DutiesThrough(dutyData[s].duties, weeks, weeks[currentWeekIndex].start)
             <= DutiesThrough(dutyData[s].duties, weeks, weeks[old(currentWeekIndex)].start)
      {
        CumulativeMonotone(dutyData[s].duties, weeks, startDate, currentWeekIndex, old(currentWeekIndex));
      }
    }

    /** nextWeek: step on one week unless on the last. */
    method NextWeek()
      requires Valid()
      modifies this`currentWeekIndex
      ensures Valid()
      ensures currentWeekIndex == if old(currentWeekIndex) < |weeks| - 1 then old(currentWeekIndex) + 1 else old(currentWeekIndex)
      ensures forall s :: s in dutyData ==>
        DutiesThrough(dutyData[s].duties, weeks, weeks[old(currentWeekIndex)].start)
        <= DutiesThrough(dutyData[s].duties, weeks, weeks[currentWeekIndex].start)
    {
      if currentWeekIndex < |weeks| - 1 {
        currentWeekIndex := currentWeekIndex + 1;
      }
      forall s | s in dutyData
        ensures DutiesThrough(dutyData[s].duties, weeks, weeks[old(currentWeekIndex)].start)
             <= DutiesThrough(dutyData[s].duties, weeks, weeks[currentWeekIndex].start)
      {
        CumulativeMonotone(dutyData[s].duties, weeks, startDate, old(currentWeekIndex), currentWeekIndex);
      }
    }

    /**
     * toggleDuty, given the cell's staff name and day key (the empty string
     * standing for a missing one): negate that entry.
     */
    method ToggleDuty(staffName: string, dayKey: DayKey) returns (outcome: ToggleOutcome)
      requires Valid()
      modifies this`dutyData
      ensures Valid()
      ensures staffName == [] || dayKey == [] ==> outcome == Ignored && dutyData == old(dutyData)
      ensures staffName != [] && dayKey != [] && staffName !in old(dutyData) ==>
        outcome == UnknownStaff && dutyData == old(dutyData)
      ensures staffName != [] && dayKey != [] && staffName in old(dutyData) ==>
        && dutyData == Toggled(old(dutyData), staffName, dayKey)
        && outcome == Set(!OnDuty(old(dutyData)[staffName].duties, dayKey))
    {
      if staffName == [] || dayKey == [] {
        return Ignored;
      }
      if staffName !in dutyData {
        return UnknownStaff;
      }
      dutyData := Toggled(dutyData, staffName, dayKey);
      outcome := Set(OnDuty(dutyData[staffName].duties, dayKey));
    }

    /** calculateWeekDuties: how many days of the week the staff member is on. */
    method CalculateWeekDuties(staffName: string, week: Week) returns (count: nat)
      requires staffName in dutyData && Keyable(week.days)
      ensures count == DaysOn(dutyData[staffName].duties, week.days)
    {
      count := 0;
      var duties := dutyData[staffName].duties;
      for j := 0 to |week.days|
        invariant count == DaysOn(duties, week.days[..j])
      {
        var dayKey := GetDayKey(week.days[j]);
        if OnDuty(duties, dayKey) {
          count := count + 1;
        }
        DaysOnStep(duties, week.days, j);
      }
      assert week.days[..|week.days|] == week.days;
    }

    /**
     * calculateTotalDuties: how many days the staff member is on in the
     * weeks that start no later than the current one.
     */
    method CalculateTotalDuties(staffName: string) returns (count: nat)
      requires WeeksInRange(weeks) && currentWeekIndex < |weeks| && staffName in dutyData
      ensures count == DutiesThrough(dutyData[staffName].duties, weeks, weeks[currentWeekIndex].start)
    {
      count := 0;
      var duties := dutyData[staffName].duties;
      var currentWeek := weeks[currentWeekIndex];
      for i := 0 to |weeks|
        invariant count == DutiesThrough(duties, weeks[..i], currentWeek.start)
      {
        var week := weeks[i];
        ThroughStep(duties, weeks, currentWeek.start, i + 1);
        if week.start <= currentWeek.start {
          ghost var before := count;
          for j := 0 to |week.days|
            invariant count == before + DaysOn(duties, week.days[..j])
          {
            var dayKey := GetDayKey(week.days[j]);
            if OnDuty(duties, dayKey) {
              count := count + 1;
            }
            DaysOnStep(duties, week.days, j);
          }
          assert week.days[..|week.days|] == week.days;
        }
      }
      assert weeks[..|weeks|] == weeks;
    }

    /** One forEach of updateStatistics: the weekly counts of a staff list, added up. */
    method SumWeekDuties(staff: seq<string>, week: Week) returns (total: nat)
      requires AllKnown(dutyData, staff) && Keyable(week.days)
      ensures total == GroupWeek(dutyData, staff, week.days)
    {
      total := 0;
      for i := 0 to |staff|
        invariant total == GroupWeek(dutyData, staff[..i], week.days)
      {
        var c := CalculateWeekDuties(staff[i], week);
        total := total + c;
        assert staff[..i + 1][..i] == staff[..i];
      }
      assert staff[..|staff|] == staff;
    }

    /** One forEach of updateStatistics: the counts to date of a staff list, added up. */
    method SumTotalDuties(staff: seq<string>) returns (total: nat)
      requires WeeksInRange(weeks) && currentWeekIndex < |weeks| && AllKnown(dutyData, staff)
      ensures total == GroupThrough(dutyData, staff, weeks, weeks[currentWeekIndex].start)
    {
      total := 0;
      for i := 0 to |staff|
        invariant total == GroupThrough(dutyData, staff[..i], weeks, weeks[currentWeekIndex].start)
      {
        var c := CalculateTotalDuties(staff[i]);
        total := total + c;
        assert staff[..i + 1][..i] == staff[..i];
      }
      assert staff[..|staff|] == staff;
    }

    /**
     * updateStatistics: the RA and AR totals of the current week and to
     * date, which the page displays.
     */
    method UpdateStatistics() returns (raThisWeek: nat, arThisWeek: nat, raToDate: nat, arToDate: nat)
      requires WeeksInRange(weeks) && WeeksFrom(weeks, startDate) && currentWeekIndex < |weeks|
      requires AllKnown(dutyData, staffRa) && AllKnown(dutyData, staffAr)
      ensures raThisWeek == GroupWeek(dutyData, staffRa, weeks[currentWeekIndex].days)
      ensures arThisWeek == GroupWeek(dutyData, staffAr, weeks[currentWeekIndex].days)
      ensures raToDate == GroupThrough(dutyData, staffRa, weeks, weeks[currentWeekIndex].start)
      ensures arToDate == GroupThrough(dutyData, staffAr, weeks, weeks[currentWeekIndex].start)
      ensures raThisWeek <= 7 * |staffRa| && arThisWeek <= 7 * |staffAr|
      ensures raThisWeek <= raToDate && arThisWeek <= arToDate
      ensures raToDate <= |staffRa| * (7 * (currentWeekIndex + 1))
      ensures arToDate <= |staffAr| * (7 * (currentWeekIndex + 1))
    {
      var currentWeek := weeks[currentWeekIndex];
      assert Keyable(currentWeek.days);
      raThisWeek := SumWeekDuties(staffRa, currentWeek);
      arThisWeek := SumWeekDuties(staffAr, currentWeek);
      raToDate := SumTotalDuties(staffRa);
      arToDate := SumTotalDuties(staffAr);
      GroupFiguresBound(dutyData, staffRa, weeks, startDate, currentWeekIndex);
      GroupFiguresBound(dutyData, staffAr, weeks, startDate, currentWeekIndex);
    }
  }
}

// The duty map of script.js: initializeDutyData and the data part of
// toggleDuty.  The JavaScript object `dutyData` maps each staff name to
// `{ type, duties }`, where `duties` maps day keys to booleans.

module Duties {
  import opened Calendar
  import opened Weeks

  /** The staff group, the record's `type` field ('ra' or 'ar'). */
  datatype Role = RA | AR

  datatype StaffRecord = StaffRecord(role: Role, duties: map<DayKey, bool>)

  type DutyData = map<string, StaffRecord>

  /**
   * The value JavaScript reads at duties[key] as a condition: a key that
   * was never set reads as undefined, which counts as false.
   */
  predicate OnDuty(duties: map<DayKey, bool>, key: DayKey) {
    key in duties && duties[key]
  }

  /** The keys of a sequence of days. */
  function KeysOfDays(days: seq<Day>): set<DayKey>
    requires Keyable(days)
  {
    if days == [] then {} else KeysOfDays(days[..|days| - 1]) + {GetDayKey(days[|days| - 1])}
  }

  /** The keys of every day of every week. */
  function CalendarKeys(weeks: seq<Week>): set<DayKey>
    requires WeeksInRange(weeks)
  {
    if weeks == [] then {} else CalendarKeys(weeks[..|weeks| - 1]) + KeysOfDays(weeks[|weeks| - 1].days)
  }

  lemma KeysOfDaysStep(days: seq<Day>, j: nat)
    requires Keyable(days) && j < |days|
    ensures KeysOfDays(days[..j + 1]) == KeysOfDays(days[..j]) + {GetDayKey(days[j])}
  {
    assert days[..j + 1][..j] == days[..j];
  }

  lemma CalendarKeysStep(weeks: seq<Week>, i: nat)
    requires WeeksInRange(weeks) && i < |weeks|
    ensures CalendarKeys(weeks[..i + 1]) == CalendarKeys(weeks[..i]) + KeysOfDays(weeks[i].days)
  {
    assert weeks[..i + 1][..i] == weeks[..i];
  }

  /** duties holds an entry for exactly the given keys, each false. */
  predicate AllOff(duties: map<DayKey, bool>, keys: set<DayKey>) {
    duties.Keys == keys && forall k :: k in duties ==> !duties[k]
  }

  /** The set of names in a staff list. */
  function Members(staff: seq<string>): set<string> {
    set s | s in staff
  }

  /** The duty map of one staff member: every day of every week, false. */
  method AllOffDuties(weeks: seq<Week>) returns (duties: map<DayKey, bool>)
    requires WeeksInRange(weeks)
    ensures AllOff(duties, CalendarKeys(weeks))
  {
    duties := map[];
    for i := 0 to |weeks|
      invariant AllOff(duties, CalendarKeys(weeks[..i]))
    {
      var week := weeks[i];
      assert Keyable(week.days);
      for j := 0 to |week.days|
        invariant AllOff(duties, CalendarKeys(weeks[..i]) + KeysOfDays(week.days[..j]))
      {
        var dayKey := GetDayKey(week.days[j]);
        duties := duties[dayKey := false];
        KeysOfDaysStep(week.days, j);
      }
      assert week.days[..|week.days|] == week.days;
      CalendarKeysStep(weeks, i);
    }
    assert weeks[..|weeks|] == weeks;
  }

  /**
   * initializeDutyData: a record for every RA and every AR name, each with
   * every day of the calendar off.  A name on both lists ends up an AR,
   * because the AR records are written second.
   */
  method InitializeDutyData(ra: seq<string>, ar: seq<string>, weeks: seq<Week>) returns (data: DutyData)
    requires WeeksInRange(weeks)
    ensures data.Keys == Members(ra) + Members(ar)
    ensures forall s :: s in data ==> data[s].role == (if s in ar then AR else RA)
    ensures forall s :: s in data ==> AllOff(data[s].duties, CalendarKeys(weeks))
  {
    data := map[];
    for i := 0 to |ra|
      invariant data.Keys == Members(ra[..i])
      invariant forall s :: s in data ==> data[s].role == RA
      invariant forall s :: s in data ==> AllOff(data[s].duties, CalendarKeys(weeks))
    {
      var duties := AllOffDuties(weeks);
      data := data[ra[i] := StaffRecord(RA, duties)];
      assert Members(ra[..i + 1]) == Members(ra[..i]) + {ra[i]} by {
        assert ra[..i + 1] == ra[..i] + [ra[i]];
      }
    }
    assert ra[..|ra|] == ra;
    for i := 0 to |ar|
      invariant data.Keys == Members(ra) + Members(ar[..i])
      invariant forall s :: s in data ==> data[s].role == (if s in ar[..i] then AR else RA)
      invariant forall s :: s in data ==> AllOff(data[s].duties, CalendarKeys(weeks))
    {
      var duties := AllOffDuties(weeks);
      data := data[ar[i] := StaffRecord(AR, duties)];
      assert ar[..i + 1] == ar[..i] + [ar[i]];
      assert Members(ar[..i + 1]) == Members(ar[..i]) + {ar[i]};
    }
    assert ar[..|ar|] == ar;
  }

  /**
   * The data part of toggleDuty: negate the entry of one staff member for
   * one day key.  A key that was never set reads as false, so it is added
   * as true.
   */
  function Toggled(data: DutyData, staff: string, key: DayKey): (r: DutyData)
    requires staff in data
    ensures r.Keys == data.Keys
    ensures forall s :: s in data && s != staff ==> r[s] == data[s]
    ensures r[staff].role == data[staff].role
    ensures r[staff].duties.Keys == data[staff].duties.Keys + {key}
    ensures OnDuty(r[staff].duties, key) == !OnDuty(data[staff].duties, key)
    ensures forall k :: k != key ==> OnDuty(r[staff].duties, k) == OnDuty(data[staff].duties, k)
  {
    var record := data[staff];
    data[staff := record.(duties := record.duties[key := !OnDuty(record.duties, key)])]
  }

  // ---------------------------------------------------------------------
  // Properties of the duty map

  /** Toggling an entry that exists twice gives back the original map. */
  lemma ToggleTwiceRestores(data: DutyData, staff: string, key: DayKey)
    requires staff in data && key in data[staff].duties
    ensures Toggled(Toggled(data, staff, key), staff, key) == data
  {
    var twice := Toggled(Toggled(data, staff, key), staff, key);
    assert twice[staff].duties == data[staff].duties;
    assert twice[staff] == data[staff];
  }

  /**
   * Toggling a missing entry twice leaves it present and false: every entry
   * reads as before, but the key has been added.
   */
  lemma ToggleTwiceOnMissingKey(data: DutyData, staff: string, key: DayKey)
    requires staff in data && key !in data[staff].duties
    ensures var twice := Toggled(Toggled(data, staff, key), staff, key);
      && twice[staff].duties == data[staff].duties[key := false]
      && forall k :: OnDuty(twice[staff].duties, k) == OnDuty(data[staff].duties, k)
  {
    var twice := Toggled(Toggled(data, staff, key), staff, key);
    assert twice[staff].duties == data[staff].duties[key := false];
  }

  /** In a run of consecutive days, the key of day d is one of their keys exactly when d is in the run. */
  lemma {:induction false} KeysOfRun(d: Day, days: seq<Day>, s: Day)
    requires Keyable(days) && RunFrom(days, s) && d < MaxDay
    ensures GetDayKey(d) in KeysOfDays(days) <==> s <= d < s + |days|
  {
    if days != [] {
      var n := |days|;
      KeysOfRun(d, days[..n - 1], s);
      DayKeyInjective(days[n - 1], d);
    }
  }

  /**
   * In consecutive weeks from startDate, the key of day d is one of the
   * calendar's keys exactly when d lies in the weeks' span.
   */
  lemma {:induction false} CalendarKeysOfRange(weeks: seq<Week>, startDate: Day, d: Day)
    requires WeeksFrom(weeks, startDate) && WeeksInRange(weeks) && d < MaxDay
    ensures GetDayKey(d) in CalendarKeys(weeks) <==> startDate <= d < startDate + 7 * |weeks|
  {
    if weeks != [] {
      var n := |weeks|;
      CalendarKeysOfRange(weeks[..n - 1], startDate, d);
      assert IsWeekFrom(weeks[n - 1], startDate + 7 * (n - 1));
      KeysOfRun(d, weeks[n - 1].days, startDate + 7 * (n - 1));
    }
  }
}

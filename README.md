# St. Edward's Hall duty schedule tracker — a verified model

The tracker keeps a roster with two fixed staff lists:

- the RAs: Harry Shaia, Kevin Rybinski, Kyle Hill, PJ Carroll, Thomas Rybinski;
- the ARs: Father Ralph, Eoghan Fay, Charlie Mathes.

It splits a fixed date range, Monday 2025-08-25 to Sunday 2026-01-04, into
seven-day weeks. For every staff member and every day it records an on/off
duty flag, keyed by the day's ISO date `YYYY-MM-DD`. The page shows one week at
a time. A click on a cell toggles that cell's flag. Four statistics are
recomputed after every change:

- the RA total for the week on screen;
- the AR total for the week on screen;
- the RA total to date;
- the AR total to date.

"To date" covers every week whose start is not later than the start of the
week on screen.

This project models the state and the logic of the `DutyScheduleTracker`
class:

- `calendar.dfy` (module `Calendar`) holds the calendar.
  - A date is a day number, counted in days since 1970-01-01.
  - `GetDayKey` writes a day as its proleptic Gregorian date `YYYY-MM-DD`.
    It is proved injective through a parser that reads the key back.
  - `IsWeekend` is the Saturday/Sunday test on `Date.getDay` numbering.
  - The configured dates are pinned to their day numbers and weekdays.
- `weeks.dfy` (module `Weeks`) holds the week generation loops
  `GenerateWeekDays` and `GenerateWeeks`. It specifies their result by
  `IsCalendar` and proves its properties: the length, uniqueness, no gap and
  no overlap, coverage of the end date, where each day sits, and where the
  weekends fall.
- `duties.dfy` (module `Duties`) holds the duty map.
  - It maps each staff name to a record with a role and a map from day key
    to flag.
  - `InitializeDutyData` builds it with nested loops.
  - `Toggled` is the data part of a toggle.
  - The set of keys that the initialisation writes is characterised exactly.
- `statistics.dfy` (module `Statistics`) holds the counting.
  - `DaysOn` is the weekly count and `DutiesThrough` the count to date.
    `GroupWeek` and `GroupThrough` are the group sums.
  - They come with lemmas: a cumulative count is a prefix sum; it is
    monotone in the week on screen; the counts are bounded; and a toggle
    changes each count by exactly one where the toggled day is counted, and
    by zero elsewhere.
- `tracker.dfy` (module `Tracker`) holds the class `DutyScheduleTracker`.
  - Its configuration fields are constants.
  - `currentWeekIndex` and `dutyData` are mutable fields.
  - Its methods are the source's methods, with the same loops, each proved
    against the functions above.
  - The class invariant `Valid` says four things:
    - The weeks are the calendar of the range, with at least one week.
    - The cursor lies within the weeks: `currentWeekIndex < |weeks|`. This
      keeps `PreviousWeek` and `NextWeek` in range.
    - The names with records are exactly the names of the two lists, and
      each record has the role its lists give it.
    - Every record has an entry for every day of the calendar.
  - The constructor establishes `Valid`, and `PreviousWeek`, `NextWeek` and
    `ToggleDuty` require it and keep it.
  - The counting methods do not require `Valid`. `CalculateWeekDuties`,
    `CalculateTotalDuties`, `SumWeekDuties`, `SumTotalDuties` and
    `UpdateStatistics` require only the part of the state they read: that
    the names have records, that the days have keys, and that the cursor
    lies within the weeks. `UpdateStatistics` also requires that the weeks
    are consecutive seven-day weeks from the start date
    (`WeeksFrom(weeks, startDate)`), because its bounds depend on it.

## Model

| member | source | states |
|---|---|---|
| Tracker.DutyScheduleTracker.constructor | script.js:5-31 | The staff lists are the fixed RA and AR lists, and the range is 2025-08-25 .. 2026-01-04. The range yields 19 weeks. The cursor is on week 0. Every name has a record of its role, AR winning for a name on both lists. Every record holds exactly the keys of the calendar's days, all off. The class invariant holds. |
| Weeks.GenerateWeekDays | script.js:75-83 | Returns seven days, and day i is the week's start plus i. |
| Weeks.GenerateWeeks | script.js:53-71 | Returns a calendar (`IsCalendar`): week i starts 7*i days after the start date, ends six days later and holds those seven days. Every week starts on or before the end date, and the week after the last would start after it. |
| Weeks.CalendarLength | script.js:53-71 | The loop produces floor((end - start) / 7) + 1 weeks when start <= end, and none otherwise. |
| Weeks.CalendarUnique | script.js:53-71 | Any two calendars of the same range are equal, so the loop's result is determined by the range. |
| Weeks.CalendarContiguous | script.js:57-68 | Each week starts the day after the previous one ends, with no gap and no overlap. |
| Weeks.CalendarCoversEnd | script.js:57-68 | For a non-empty range, the last week starts on or before the end date and ends on or after it. |
| Weeks.DayInCalendar | script.js:53-83 | Every day in the weeks' span is day (d - start) % 7 of week (d - start) / 7. |
| Weeks.CalendarDayPosition | script.js:75-83 | Day j of week i is the start date plus 7*i + j, with j < 7. |
| Weeks.CalendarInRange | script.js:53-83 | When the end date lies at least six days before year 10000, every generated day has a key. |
| Weeks.CalendarWeekends | script.js:134-137 | In a calendar that starts on a Monday, day j of any week is a weekend day exactly when j >= 5. |
| Weeks.ConfiguredCalendar | script.js:23-28 | The configured range gives 19 weeks. The first starts 2025-08-25 and the last starts 2025-12-29 and ends 2026-01-04, the end date itself. In every week, days 5 and 6 are exactly the weekend days. |
| Calendar.GetDayKey | script.js:115-117 | The key of a day is its proleptic Gregorian date in UTC, defined for day numbers below MaxDay (years 1970 to 9999). It has ten characters: four digits, a dash at position 4, two digits, a dash at position 7 and two digits. |
| Calendar.IsWeekend | script.js:134-137 | A day is a weekend day when its getDay number, (n + 4) % 7, is 0 or 6. That holds exactly when the day number is 2 or 3 modulo 7, since 1970-01-03 was a Saturday. |
| Calendar.ParseDayKeyOfDayKey | script.js:115-117 | The key of a day parses back to that day. |
| Calendar.DayKeyInjective | script.js:115-117 | Two days have the same key exactly when they are the same day. |
| Calendar.DigitsRoundTrip | script.js:115-117 | The zero-padded decimal field has the requested width, consists of digits and denotes the number written. |
| Calendar.ParseFormatDate | script.js:115-117 | A formatted date reads back as its day number. |
| Calendar.CivilFromDaysInverse | script.js:115-117 | Converting a day number to a date and back gives the same day number. |
| Calendar.WeekdayPeriodic | script.js:134-137 | A day's weekday equals that of the day 7*k days later. |
| Calendar.WeekendsOfMondayWeek | script.js:134-137 | In a week starting on a Monday, exactly the sixth and seventh days are weekend days. |
| Calendar.EpochDay | script.js:115-117 | Day 0 has key 1970-01-01 and is a Thursday (getDay 4). |
| Calendar.ConfiguredFirstDay | script.js:23 | Day 20325 has key 2025-08-25 and is a Monday. |
| Calendar.ConfiguredLastMonday | script.js:23-24 | Day 20451 has key 2025-12-29 and is a Monday. |
| Calendar.ConfiguredLastDay | script.js:24 | Day 20457 has key 2026-01-04 and is a Sunday. |
| Duties.AllOffDuties | script.js:92-97 | The duties built for one staff member hold exactly the keys of all calendar days, each false. |
| Duties.InitializeDutyData | script.js:86-112 | The records' names are exactly the RA and AR names. A name on the AR list has role AR, and any other has role RA. Every record's duties hold exactly the calendar's keys, all false. |
| Duties.Toggled | script.js:287 | Only the named record changes, and it keeps its role. Its key set gains the toggled key. The toggled entry reads the opposite of before, every other key reads as before, and a missing key is added as true. |
| Duties.ToggleTwiceRestores | script.js:287 | Toggling a present entry twice gives back the original duty map. |
| Duties.ToggleTwiceOnMissingKey | script.js:287 | Toggling a missing entry twice leaves it stored as false, and every key reads as it did before. |
| Duties.KeysOfRun | script.js:115-117 | In a run of consecutive days, the key of day d is among their keys exactly when d lies in the run. |
| Duties.CalendarKeysOfRange | script.js:86-112 | The key of day d is among the initialised keys exactly when d lies in the weeks' span. |
| Tracker.DutyScheduleTracker.PreviousWeek | script.js:161-167 | The cursor moves back one week unless it is on the first week, where it stays. The invariant is kept. No staff member's to-date count rises. |
| Tracker.DutyScheduleTracker.NextWeek | script.js:170-176 | The cursor moves on one week unless it is on the last week, where it stays. The invariant is kept. No staff member's to-date count falls. |
| Tracker.DutyScheduleTracker.ToggleDuty | script.js:280-287 | An empty staff name or day key leaves the map unchanged (`Ignored`). An unknown name leaves it unchanged (`UnknownStaff`, where the source throws). Otherwise the map becomes `Toggled`, and the outcome reports the negated entry. The invariant is kept, so after any number of toggles every record keeps its role and still covers every calendar day. |
| Statistics.DaysOn | script.js:303-312 | The weekly count of a staff member never exceeds the number of days counted. |
| Statistics.DutiesThrough | script.js:315-331 | The to-date count of one staff member is the sum of `DaysOn` over the weeks whose start is not later than the cutoff. The methods use the current week's start as the cutoff. |
| Statistics.GroupWeek | script.js:344-350 | A group's weekly figure is the sum of `DaysOn` over the names of its list, in list order. |
| Statistics.GroupThrough | script.js:353-359 | A group's to-date figure is the sum of `DutiesThrough` over the names of its list. |
| Statistics.DaysOnCountsPositions | script.js:303-312 | The recursive count equals the size of the set of positions whose day is on. |
| Statistics.DaysOnAgree | script.js:303-312 | Two duty maps that read alike on a week's keys give the same count. |
| Statistics.NoneOnCountsZero | script.js:303-312 | A record with every entry off counts zero for any week. |
| Statistics.FlipChangesCount | script.js:287-312 | Flipping one key changes a week's count by the number of times that key occurs: down when it was on, up when it was off. |
| Statistics.OccurrencesInRun | script.js:75-83 | The key of day d occurs once in a run of consecutive days when d is in the run, and not at all otherwise. |
| Statistics.ToggleChangesWeekCount | script.js:287-312 | Toggling day d changes the count of a week by exactly one when d is in that week, in the direction of the toggle. Otherwise the count is unchanged. |
| Statistics.ThroughMonotone | script.js:315-331 | The to-date count never decreases as the cutoff moves later. |
| Statistics.CumulativeIsPrefixSum | script.js:315-331 | The to-date count for week k equals the sum of the weekly counts of weeks 0 .. k. |
| Statistics.ThisWeekWithinToDate | script.js:303-331 | The count of the week on screen is at most the count to date. |
| Statistics.CumulativeMonotone | script.js:315-331 | The to-date count for an earlier week is at most that for a later week. |
| Statistics.TotalBound | script.js:303-312 | The sum of the weekly counts is at most seven per week. |
| Statistics.CumulativeBound | script.js:315-331 | The to-date count for week k is at most 7*(k+1). |
| Statistics.NoneOnThroughZero | script.js:315-331 | A record with every entry off has a to-date count of zero. |
| Statistics.FlipChangesCumulative | script.js:287-331 | Flipping one key changes the to-date count by the number of counted occurrences of that key, down when it was on and up when it was off. |
| Statistics.OccurrencesThroughOfDay | script.js:315-331 | The key of day d is counted once to date when d is in the span and its week starts no later than the cutoff, and zero times otherwise. |
| Statistics.ToggleChangesCumulative | script.js:287-331 | Toggling day d changes the to-date count by exactly one when d's week is counted, and leaves it unchanged otherwise. |
| Statistics.GroupWeekBound | script.js:344-350 | A group's weekly sum is at most seven per member. |
| Statistics.GroupThroughBound | script.js:353-359 | A group's to-date sum for week k is at most the group size times 7*(k+1). |
| Statistics.GroupWeekWithinToDate | script.js:343-359 | A group's weekly sum is at most its to-date sum. |
| Statistics.GroupMonotone | script.js:353-359 | A group's to-date sum does not decrease from an earlier week to a later one. |
| Statistics.GroupFiguresBound | script.js:343-359 | For week k, a group's weekly figure is at most seven per member and at most its to-date figure. The to-date figure is at most the group size times 7*(k+1). |
| Statistics.FreshGroupZero | script.js:334-359 | With every record all off, as after initialisation, every group sum is zero. |
| Tracker.DutyScheduleTracker.CalculateWeekDuties | script.js:303-312 | The loop returns `DaysOn`: the number of the week's days whose entry reads true, a missing entry reading false. |
| Tracker.DutyScheduleTracker.CalculateTotalDuties | script.js:315-331 | The nested loops return `DutiesThrough`: the on days of every week starting no later than the current week's start. |
| Tracker.DutyScheduleTracker.SumWeekDuties | script.js:344-350 | The loop returns `GroupWeek`, the sum of the members' weekly counts. |
| Tracker.DutyScheduleTracker.SumTotalDuties | script.js:353-359 | The loop returns `GroupThrough`, the sum of the members' to-date counts. |
| Tracker.DutyScheduleTracker.UpdateStatistics | script.js:334-360 | Returns the four figures: the RA and AR group sums of the current week and to date. Each weekly figure is at most seven per member and at most its to-date figure. Each to-date figure is at most the group size times 7*(k+1) for current week k. |

## Left out

- Rendering, all DOM access and event wiring are not modelled, because they are presentation only. This covers the page elements, the week table, the all-weeks view, the navigation button states, and the keyboard and swipe handlers.
- The `textContent` writes of updateStatistics, and the cell restyling in toggleDuty, are not modelled. `UpdateStatistics` returns the four figures instead of writing them.
- The calls of renderCurrentWeek and updateStatistics made at the end of previousWeek, nextWeek and toggleDuty are not modelled, because they only redraw. The figures they would show are what `UpdateStatistics` returns on the new state.
- formatDate and formatWeekDisplay are not modelled, because they are locale-dependent display text.
- Time zones and daylight saving time are not modelled. A date is a whole UTC day, and both getDayKey and getDay are read on it. In the source, `new Date('YYYY-MM-DD')` is UTC midnight while `setDate` and `getDay` use local time, so in zones west of UTC a day can be read as the previous calendar day. Two effects follow, and the model does not describe the source in those zones.
  - West of UTC, for example in US Eastern time, `new Date('2025-08-25')` is Sunday evening local time. isWeekend then marks the Monday and Sunday columns of each week rather than Saturday and Sunday. `Weeks.CalendarWeekends` and `Weeks.ConfiguredCalendar` state the UTC reading only.
  - In a zone east of UTC whose clocks go forward between the two dates, for example Australia/Sydney on 2025-10-05, the local midnights after the change fall on the previous UTC date. toISOString then gives two consecutive days one key. `Calendar.DayKeyInjective`, `Statistics.ToggleChangesWeekCount` and the lemmas built on them describe the UTC reading only.
- Keys are defined only for the years 1970 to 9999. The lower bound comes from counting days as natural numbers: earlier days would need negative day numbers. From the year 10000 on, toISOString writes a six-digit expanded year.
- ToggleDuty: the source reads the name and the day from the clicked cell's data attributes. Here they are parameters, and a missing attribute is the empty string, which is falsy like `undefined`.
- ToggleDuty: where the source throws a TypeError for an unknown name, the model returns `UnknownStaff` and leaves the map unchanged.
- CalculateWeekDuties and CalculateTotalDuties: the model requires the name to have a record. The source throws a TypeError for an unknown name, and it never calls these methods with one.
- The JavaScript objects are modelled as Dafny maps. Prototype property names, such as a staff member named `__proto__`, are not modelled.
- The configured range gives 19 weeks (2025-08-25 .. 2025-12-29). The end date is 132 days after the start, so the loop at script.js:57 runs floor(132/7) + 1 = 19 times. See `Weeks.ConfiguredCalendar`.

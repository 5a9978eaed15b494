// Calendar days, the ISO 8601 day key of script.js's getDayKey and the
// weekday test of isWeekend.
//
// A JavaScript Date is modelled by its day number: the number of whole days
// since 1970-01-01 (the Date epoch), read in UTC, which is what
// toISOString reports.  Keys are produced for the years 1970 to 9999:
// earlier days would need negative day numbers, and from the year 10000 on
// toISOString writes a six-digit expanded year.

module Calendar {

  datatype Option<T> = None | Some(value: T)

  /** A calendar day, counted in days since 1970-01-01. */
  type Day = nat

  /** The "YYYY-MM-DD" identity of a day. */
  type DayKey = string

  /** A proleptic Gregorian calendar date. */
  datatype Date = Date(year: int, month: int, day: int)

  const EpochYear: int := 1970
  const LastYear: int := 9999

  /** The first day number whose year has five digits (10000-01-01). */
  const MaxDay: nat := 2932897

  predicate IsLeapYear(y: int) {
    y % 4 == 0 && (y % 100 != 0 || y % 400 == 0)
  }

  function DaysInYear(y: int): int {
    if IsLeapYear(y) then 366 else 365
  }

  function DaysInMonth(y: int, m: int): int
    requires 1 <= m <= 12
  {
    if m == 2 then (if IsLeapYear(y) then 29 else 28)
    else if m == 4 || m == 6 || m == 9 || m == 11 then 30
    else 31
  }

  /** Days of year y that precede the first of month m. */
  function DaysBeforeMonth(y: int, m: int): int
    requires 1 <= m <= 12
  {
    [0, 31, 59, 90, 120, 151, 181, 212, 243, 273, 304, 334][m - 1]
      + (if m > 2 && IsLeapYear(y) then 1 else 0)
  }

  /** The number of leap years among the years 1 .. x, for x >= 0. */
  function LeapYearsThrough(x: int): int {
    x / 4 - x / 100 + x / 400
  }

  /** Days from 1970-01-01 to the first of January of year y. */
  function DaysBeforeYear(y: int): int {
    365 * (y - EpochYear) + LeapYearsThrough(y - 1) - LeapYearsThrough(EpochYear - 1)
  }

  predicate ValidDate(d: Date) {
    && EpochYear <= d.year <= LastYear
    && 1 <= d.month <= 12
    && 1 <= d.day <= DaysInMonth(d.year, d.month)
  }

  /** The day number of a date. */
  function DaysFromCivil(d: Date): int
    requires ValidDate(d)
  {
    DaysBeforeYear(d.year) + DaysBeforeMonth(d.year, d.month) + d.day - 1
  }

  /** The date lying n days after the first of January of year y. */
  function FindYear(y: int, n: nat): Date
    decreases n
  {
    if n < DaysInYear(y) then FindMonth(y, 1, n)
    else FindYear(y + 1, n - DaysInYear(y))
  }

  /** The date lying n days after the first of month m of year y. */
  function FindMonth(y: int, m: int, n: nat): Date
    requires 1 <= m <= 12
    decreases 12 - m
  {
    if m == 12 || n < DaysInMonth(y, m) then Date(y, m, n + 1)
    else FindMonth(y, m + 1, n - DaysInMonth(y, m))
  }

  /** The calendar date of day number n; DaysFromCivil undoes it. */
  function CivilFromDays(n: Day): (d: Date)
    requires n < MaxDay
    ensures ValidDate(d)
  {
    FindYearCorrect(EpochYear, n);
    FindYear(EpochYear, n)
  }

  // ---------------------------------------------------------------------
  // Arithmetic of the year and month tables

  lemma MultiplesOf4Step(y: int)
    ensures y / 4 - (y - 1) / 4 == if y % 4 == 0 then 1 else 0
  {
  }

  lemma MultiplesOf100Step(y: int)
    ensures y / 100 - (y - 1) / 100 == if y % 100 == 0 then 1 else 0
  {
  }

  lemma MultiplesOf400Step(y: int)
    ensures y / 400 - (y - 1) / 400 == if y % 400 == 0 then 1 else 0
  {
  }

  lemma DivisibilityChain(y: int)
    ensures y % 400 == 0 ==> y % 100 == 0
    ensures y % 100 == 0 ==> y % 4 == 0
  {
  }

  /** Year y is counted by LeapYearsThrough(y) exactly when it is a leap year. */
  lemma LeapYearStep(y: int)
    ensures LeapYearsThrough(y) - LeapYearsThrough(y - 1) == if IsLeapYear(y) then 1 else 0
  {
    MultiplesOf4Step(y);
    MultiplesOf100Step(y);
    MultiplesOf400Step(y);
    DivisibilityChain(y);
  }

  /** A year contributes its length to the days before the next year. */
  lemma YearStep(y: int)
    ensures DaysBeforeYear(y + 1) == DaysBeforeYear(y) + DaysInYear(y)
  {
    LeapYearStep(y);
  }

  lemma MonthStep(y: int, m: int)
    requires 1 <= m < 12
    ensures DaysBeforeMonth(y, m + 1) == DaysBeforeMonth(y, m) + DaysInMonth(y, m)
  {
  }

  lemma MonthFitsInYear(y: int, m: int)
    requires 1 <= m <= 12
    ensures DaysBeforeMonth(y, m) + DaysInMonth(y, m) <= DaysInYear(y)
    ensures m == 12 ==> DaysBeforeMonth(y, m) + DaysInMonth(y, m) == DaysInYear(y)
  {
  }

  lemma LastYearBound()
    ensures DaysBeforeYear(LastYear + 1) == MaxDay
  {
  }

  // ---------------------------------------------------------------------
  // CivilFromDays and DaysFromCivil are inverse to each other

  lemma {:induction false} FindMonthCorrect(y: int, m: int, n: nat)
    requires EpochYear <= y <= LastYear && 1 <= m <= 12
    requires DaysBeforeMonth(y, m) + n < DaysInYear(y)
    ensures ValidDate(FindMonth(y, m, n))
    ensures FindMonth(y, m, n).year == y
    ensures DaysBeforeMonth(y, FindMonth(y, m, n).month) + FindMonth(y, m, n).day - 1
            == DaysBeforeMonth(y, m) + n
    decreases 12 - m
  {
    MonthFitsInYear(y, m);
    if m == 12 || n < DaysInMonth(y, m) {
    } else {
      MonthStep(y, m);
      FindMonthCorrect(y, m + 1, n - DaysInMonth(y, m));
    }
  }

  lemma {:induction false} FindYearCorrect(y: int, n: nat)
    requires EpochYear <= y <= LastYear
    requires DaysBeforeYear(y) + n < MaxDay
    ensures ValidDate(FindYear(y, n))
    ensures DaysFromCivil(FindYear(y, n)) == DaysBeforeYear(y) + n
    decreases n
  {
    if n < DaysInYear(y) {
      FindMonthCorrect(y, 1, n);
    } else {
      YearStep(y);
      LastYearBound();
      FindYearCorrect(y + 1, n - DaysInYear(y));
    }
  }

  lemma {:induction false} FindMonthOfDate(y: int, m0: int, m: int, d: int)
    requires 1 <= m0 <= m <= 12
    requires 1 <= d <= DaysInMonth(y, m)
    requires DaysBeforeMonth(y, m) - DaysBeforeMonth(y, m0) + d - 1 >= 0
    ensures FindMonth(y, m0, DaysBeforeMonth(y, m) - DaysBeforeMonth(y, m0) + d - 1) == Date(y, m, d)
    decreases m - m0
  {
    if m0 < m {
      MonthStep(y, m0);
      var n := DaysBeforeMonth(y, m) - DaysBeforeMonth(y, m0) + d - 1;
      assert n >= DaysInMonth(y, m0) by {
        MonthsAscend(y, m0 + 1, m);
      }
      FindMonthOfDate(y, m0 + 1, m, d);
    }
  }

  lemma {:induction false} MonthsAscend(y: int, m0: int, m: int)
    requires 1 <= m0 <= m <= 12
    ensures DaysBeforeMonth(y, m0) <= DaysBeforeMonth(y, m)
    decreases m - m0
  {
    if m0 < m {
      MonthStep(y, m0);
      MonthsAscend(y, m0 + 1, m);
    }
  }

  lemma {:induction false} FindYearOfDate(y0: int, y: int, r: nat)
    requires y0 <= y
    requires r < DaysInYear(y)
    ensures DaysBeforeYear(y) - DaysBeforeYear(y0) + r >= 0
    ensures FindYear(y0, DaysBeforeYear(y) - DaysBeforeYear(y0) + r) == FindMonth(y, 1, r)
    decreases y - y0
  {
    if y0 < y {
      YearStep(y0);
      FindYearOfDate(y0 + 1, y, r);
    }
  }

  /** Every valid date is the date of its own day number. */
  lemma CivilOfDaysFromCivil(d: Date)
    requires ValidDate(d)
    ensures 0 <= DaysFromCivil(d) < MaxDay
    ensures CivilFromDays(DaysFromCivil(d)) == d
  {
    var r := DaysBeforeMonth(d.year, d.month) + d.day - 1;
    MonthFitsInYear(d.year, d.month);
    MonthsAscend(d.year, 1, d.month);
    FindYearOfDate(EpochYear, d.year, r);
    FindMonthOfDate(d.year, 1, d.month, d.day);
    YearsAscend(d.year + 1, LastYear + 1);
    YearStep(d.year);
    LastYearBound();
  }

  lemma {:induction false} YearsAscend(y0: int, y: int)
    requires y0 <= y
    ensures DaysBeforeYear(y0) <= DaysBeforeYear(y)
    decreases y - y0
  {
    if y0 < y {
      YearStep(y0);
      YearsAscend(y0 + 1, y);
    }
  }

  // ---------------------------------------------------------------------
  // The "YYYY-MM-DD" key

  function DigitChar(v: int): char
    requires 0 <= v <= 9
  {
    (48 + v) as char
  }

  predicate IsDigit(c: char) {
    '0' <= c <= '9'
  }

  function DigitValue(c: char): int {
    c as int - 48
  }

  function Pow10(width: nat): nat {
    if width == 0 then 1 else 10 * Pow10(width - 1)
  }

  /** v written in decimal with exactly `width` digits, zero-padded on the left. */
  function Digits(v: nat, width: nat): string
    requires v < Pow10(width)
  {
    if width == 0 then "" else Digits(v / 10, width - 1) + [DigitChar(v % 10)]
  }

  predicate AllDigits(s: string) {
    forall i :: 0 <= i < |s| ==> IsDigit(s[i])
  }

  /** The number a string of decimal digits denotes. */
  function DigitsValue(s: string): int {
    if s == [] then 0 else 10 * DigitsValue(s[..|s| - 1]) + DigitValue(s[|s| - 1])
  }

  function FormatDate(d: Date): DayKey
    requires ValidDate(d)
  {
    Digits(d.year, 4) + "-" + Digits(d.month, 2) + "-" + Digits(d.day, 2)
  }

  /** Every day of the sequence has a key. */
  predicate Keyable(days: seq<Day>) {
    forall j :: 0 <= j < |days| ==> days[j] < MaxDay
  }

  /**
   * getDayKey: the ISO 8601 calendar date of a day, ten characters
   * "YYYY-MM-DD" with digits around the two dashes.
   */
  function GetDayKey(n: Day): (key: DayKey)
    requires n < MaxDay
    ensures |key| == 10 && key[4] == '-' && key[7] == '-'
    ensures AllDigits(key[..4]) && AllDigits(key[5..7]) && AllDigits(key[8..])
  {
    var d := CivilFromDays(n);
    ParseFormatDate(d);
    FormatDate(d)
  }

  /** Reads a "YYYY-MM-DD" key back into its day number. */
  function ParseDayKey(s: string): Option<Day> {
    if |s| == 10 && s[4] == '-' && s[7] == '-'
       && AllDigits(s[..4]) && AllDigits(s[5..7]) && AllDigits(s[8..])
    then
      var date := Date(DigitsValue(s[..4]), DigitsValue(s[5..7]), DigitsValue(s[8..]));
      if ValidDate(date) then
        CivilOfDaysFromCivil(date);
        Some(DaysFromCivil(date))
      else None
    else None
  }

  /** Digits writes `width` decimal digits that denote v. */
  lemma {:induction false} DigitsRoundTrip(v: nat, width: nat)
    requires v < Pow10(width)
    ensures |Digits(v, width)| == width
    ensures AllDigits(Digits(v, width))
    ensures DigitsValue(Digits(v, width)) == v
  {
    if width > 0 {
      var s := Digits(v, width);
      DigitsRoundTrip(v / 10, width - 1);
      assert s[..|s| - 1] == Digits(v / 10, width - 1);
    } else {
      assert v == 0;
    }
  }

  /** A formatted date reads back as the same date. */
  lemma ParseFormatDate(d: Date)
    requires ValidDate(d)
    ensures ParseDayKey(FormatDate(d)) == Some(DaysFromCivil(d))
  {
    var s := FormatDate(d);
    var y, m, dd := Digits(d.year, 4), Digits(d.month, 2), Digits(d.day, 2);
    DigitsRoundTrip(d.year, 4);
    DigitsRoundTrip(d.month, 2);
    DigitsRoundTrip(d.day, 2);
    assert s == y + "-" + m + "-" + dd;
    assert s[..4] == y;
    assert s[5..7] == m;
    assert s[8..] == dd;
  }

  lemma CivilFromDaysInverse(n: Day)
    requires n < MaxDay
    ensures DaysFromCivil(CivilFromDays(n)) == n
  {
    FindYearCorrect(EpochYear, n);
  }

  /** The key of a day reads back as that day. */
  lemma ParseDayKeyOfDayKey(n: Day)
    requires n < MaxDay
    ensures ParseDayKey(GetDayKey(n)) == Some(n)
  {
    CivilFromDaysInverse(n);
    ParseFormatDate(CivilFromDays(n));
  }

  /** Distinct days have distinct keys. */
  lemma DayKeyInjective(a: Day, b: Day)
    requires a < MaxDay && b < MaxDay
    ensures GetDayKey(a) == GetDayKey(b) <==> a == b
  {
    ParseDayKeyOfDayKey(a);
    ParseDayKeyOfDayKey(b);
  }

  // ---------------------------------------------------------------------
  // Weekdays

  /** Date.getDay's numbering, 0 = Sunday .. 6 = Saturday; 1970-01-01 was a Thursday. */
  function Weekday(n: Day): int {
    (n + 4) % 7
  }

  /**
   * isWeekend: Saturday or Sunday.  1970-01-03 (day 2) was a Saturday, so
   * these are the days whose number is 2 or 3 modulo 7.
   */
  function IsWeekend(n: Day): (weekend: bool)
    ensures weekend <==> n % 7 == 2 || n % 7 == 3
  {
    var w := Weekday(n);
    w == 0 || w == 6
  }

  /** In a week that starts on a Monday exactly the last two days are weekend days. */
  lemma WeekendsOfMondayWeek(s: Day, i: nat)
    requires Weekday(s) == 1 && i < 7
    ensures IsWeekend(s + i) <==> i >= 5
  {
  }

  /** The weekday repeats every seven days. */
  lemma WeekdayPeriodic(n: Day, k: nat)
    ensures Weekday(n + 7 * k) == Weekday(n)
  {
  }

  // ---------------------------------------------------------------------
  // The configured dates

  /** A two-digit field is its tens digit followed by its units digit. */
  lemma TwoDigits(v: nat)
    requires v < 100
    ensures Digits(v, 2) == [DigitChar(v / 10), DigitChar(v % 10)]
  {
    assert Digits(v / 10, 1) == Digits(v / 10 / 10, 0) + [DigitChar(v / 10 % 10)];
  }

  lemma ThreeDigits(v: nat)
    requires v < 1000
    ensures Digits(v, 3) == [DigitChar(v / 100), DigitChar(v / 10 % 10), DigitChar(v % 10)]
  {
    TwoDigits(v / 10);
    assert v / 10 / 10 == v / 100;
  }

  lemma FourDigits(v: nat)
    requires v < 10000
    ensures Digits(v, 4) == [DigitChar(v / 1000), DigitChar(v / 100 % 10), DigitChar(v / 10 % 10), DigitChar(v % 10)]
  {
    ThreeDigits(v / 10);
    assert v / 10 / 100 == v / 1000;
    assert v / 10 / 10 == v / 100;
  }

  /** A key is ten characters: four year digits, '-', two month digits, '-', two day digits. */
  lemma FormatDateChars(d: Date)
    requires ValidDate(d)
    ensures FormatDate(d) == [DigitChar(d.year / 1000), DigitChar(d.year / 100 % 10),
                              DigitChar(d.year / 10 % 10), DigitChar(d.year % 10), '-',
                              DigitChar(d.month / 10), DigitChar(d.month % 10), '-',
                              DigitChar(d.day / 10), DigitChar(d.day % 10)]
  {
    FourDigits(d.year);
    TwoDigits(d.month);
    TwoDigits(d.day);
  }

  /** The key of a date's day number is that date, written out digit by digit. */
  lemma DayKeyOfDate(d: Date, n: int, key: DayKey)
    requires ValidDate(d) && DaysFromCivil(d) == n
    requires key == [DigitChar(d.year / 1000), DigitChar(d.year / 100 % 10),
                     DigitChar(d.year / 10 % 10), DigitChar(d.year % 10), '-',
                     DigitChar(d.month / 10), DigitChar(d.month % 10), '-',
                     DigitChar(d.day / 10), DigitChar(d.day % 10)]
    ensures 0 <= n < MaxDay && GetDayKey(n) == key
  {
    FormatDateChars(d);
    CivilOfDaysFromCivil(d);
  }

  lemma AnchorDayNumbers()
    ensures DaysFromCivil(Date(1970, 1, 1)) == 0
    ensures DaysFromCivil(Date(2025, 8, 25)) == 20325
    ensures DaysFromCivil(Date(2025, 12, 29)) == 20451
    ensures DaysFromCivil(Date(2026, 1, 4)) == 20457
  {
    assert DaysBeforeYear(2025) == 20089;
    assert DaysBeforeYear(2026) == 20454;
  }

  // The lemmas below take the day number as a parameter fixed by `requires`
  // rather than as a literal: with a literal argument the verifier would
  // evaluate GetDayKey of that constant one recursive step at a time.

  /** 1970-01-01, day 0, was a Thursday. */
  lemma EpochDay(n: Day)
    requires n == 0
    ensures GetDayKey(n) == "1970-01-01" && Weekday(n) == 4
  {
    AnchorDayNumbers();
    DayKeyOfDate(Date(1970, 1, 1), n, "1970-01-01");
  }

  /** The tracker's range starts on Monday 2025-08-25. */
  lemma ConfiguredFirstDay(n: Day)
    requires n == 20325
    ensures GetDayKey(n) == "2025-08-25" && Weekday(n) == 1
  {
    AnchorDayNumbers();
    DayKeyOfDate(Date(2025, 8, 25), n, "2025-08-25");
  }

  /** The tracker's last week starts on Monday 2025-12-29. */
  lemma ConfiguredLastMonday(n: Day)
    requires n == 20451
    ensures GetDayKey(n) == "2025-12-29" && Weekday(n) == 1
  {
    AnchorDayNumbers();
    DayKeyOfDate(Date(2025, 12, 29), n, "2025-12-29");
  }

  /** The tracker's range ends on Sunday 2026-01-04. */
  lemma ConfiguredLastDay(n: Day)
    requires n == 20457
    ensures GetDayKey(n) == "2026-01-04" && Weekday(n) == 0
  {
    AnchorDayNumbers();
    DayKeyOfDate(Date(2026, 1, 4), n, "2026-01-04");
  }
}

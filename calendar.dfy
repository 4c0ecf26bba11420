/**
 * The part of JavaScript's `Date` the clock-in path relies on, for a process
 * whose local time zone is UTC: a moment is a proleptic Gregorian calendar
 * date with a time of day, `setHours` moves the moment to a given offset from
 * the start of its day (rolling over into later days), and the date-only
 * constructor reads year, month and day the way V8 does.
 */
module JsDate {
  import opened Wrappers

  datatype DateTime = DateTime(year: nat, month: nat, day: nat, hour: nat, minute: nat, second: nat)

  const SecondsPerDay := 86400

  predicate IsLeapYear(y: nat) {
    y % 4 == 0 && (y % 100 != 0 || y % 400 == 0)
  }

  function YearLength(y: nat): nat {
    if IsLeapYear(y) then 366 else 365
  }

  function DaysInMonth(y: nat, m: nat): (n: nat)
    requires 1 <= m <= 12
    ensures 28 <= n <= 31
  {
    if m == 2 then (if IsLeapYear(y) then 29 else 28)
    else if m == 4 || m == 6 || m == 9 || m == 11 then 30
    else 31
  }

  /** A calendar date with a time of day inside the day. */
  predicate Valid(d: DateTime) {
    && 1 <= d.month <= 12
    && 1 <= d.day <= DaysInMonth(d.year, d.month)
    && d.hour < 24 && d.minute < 60 && d.second < 60
  }

  predicate SameTimeOfDay(a: DateTime, b: DateTime) {
    a.hour == b.hour && a.minute == b.minute && a.second == b.second
  }

  /** a's calendar day comes after b's: a later year, or the same year and a later month, or the same month and a later day. */
  predicate DateAfter(a: DateTime, b: DateTime) {
    a.year > b.year ||
    (a.year == b.year && (a.month > b.month || (a.month == b.month && a.day > b.day)))
  }

  /** Days in the years before y, counted from 1 January of year 0. */
  function DaysBeforeYear(y: nat): nat {
    if y == 0 then 0 else DaysBeforeYear(y - 1) + YearLength(y - 1)
  }

  /** Days in the months of year y before month m (the cumulative month table). */
  function DaysBeforeMonth(y: nat, m: nat): nat
    requires 1 <= m <= 12
  {
    var base :=
      if m == 1 then 0 else if m == 2 then 31 else if m == 3 then 59
      else if m == 4 then 90 else if m == 5 then 120 else if m == 6 then 151
      else if m == 7 then 181 else if m == 8 then 212 else if m == 9 then 243
      else if m == 10 then 273 else if m == 11 then 304 else 334;
    base + if m > 2 && IsLeapYear(y) then 1 else 0
  }

  /**
   * The day count of ECMAScript's MakeDay for (year, month, day), taken from
   * 1 January of year 0; a day past the month's end counts on into the next.
   */
  function DayNumber(d: DateTime): int
    requires 1 <= d.month <= 12
  {
    DaysBeforeYear(d.year) + DaysBeforeMonth(d.year, d.month) + d.day - 1
  }

  /** Seconds from the start of year 0 to the moment d. */
  function Moment(d: DateTime): int
    requires 1 <= d.month <= 12
  {
    DayNumber(d) * SecondsPerDay + d.hour * 3600 + d.minute * 60 + d.second
  }

  function NextDay(d: DateTime): (r: DateTime)
    requires Valid(d)
    ensures Valid(r) && SameTimeOfDay(r, d)
  {
    if d.day < DaysInMonth(d.year, d.month) then d.(day := d.day + 1)
    else if d.month < 12 then d.(month := d.month + 1, day := 1)
    else d.(year := d.year + 1, month := 1, day := 1)
  }

  function AddDays(d: DateTime, k: nat): (r: DateTime)
    requires Valid(d)
    ensures Valid(r) && SameTimeOfDay(r, d)
    decreases k
  {
    if k == 0 then d else AddDays(NextDay(d), k - 1)
  }

  /**
   * `d.setHours(h, m, s)`: the moment h hours, m minutes and s seconds after
   * the start of d's day. Fields beyond 23, 59 and 59 carry into later minutes,
   * hours and days.
   */
  function SetHours(d: DateTime, h: nat, m: nat, s: nat): (r: DateTime)
    requires Valid(d)
    ensures Valid(r)
  {
    var total := h * 3600 + m * 60 + s;
    var shifted := AddDays(d, total / SecondsPerDay);
    var rest := total % SecondsPerDay;
    shifted.(hour := rest / 3600, minute := rest % 3600 / 60, second := rest % 3600 % 60)
  }

  /**
   * `new Date("YYYY-MM-DD")` from its three numeric fields, the date-only
   * form being read as UTC midnight. V8 accepts month 1 to 12 and day 1 to 31
   * and lets a day past the month's end roll into the next month; any other
   * fields give an invalid Date (None).
   */
  function DateFromFields(y: nat, m: nat, d: nat): (r: Option<DateTime>)
    ensures r.Some? <==> 1 <= m <= 12 && 1 <= d <= 31
    ensures r.Some? ==> Valid(r.value) && r.value.hour == r.value.minute == r.value.second == 0
  {
    if 1 <= m <= 12 && 1 <= d <= 31 then Some(AddDays(DateTime(y, m, 1, 0, 0, 0), d - 1)) else None
  }

  lemma MonthTable(y: nat, m: nat)
    requires 1 <= m < 12
    ensures DaysBeforeMonth(y, m + 1) == DaysBeforeMonth(y, m) + DaysInMonth(y, m)
  {
  }

  lemma YearTable(y: nat)
    ensures DaysBeforeMonth(y, 12) + DaysInMonth(y, 12) == YearLength(y)
  {
  }

  /** NextDay is the calendar day whose MakeDay count is one more. */
  lemma NextDayNumber(d: DateTime)
    requires Valid(d)
    ensures DayNumber(NextDay(d)) == DayNumber(d) + 1
  {
    if d.day == DaysInMonth(d.year, d.month) {
      if d.month < 12 {
        MonthTable(d.year, d.month);
      } else {
        YearTable(d.year);
        assert DaysBeforeYear(d.year + 1) == DaysBeforeYear(d.year) + YearLength(d.year);
      }
    }
  }

  lemma {:induction false} AddDaysNumber(d: DateTime, k: nat)
    requires Valid(d)
    ensures DayNumber(AddDays(d, k)) == DayNumber(d) + k
    decreases k
  {
    if k > 0 {
      NextDayNumber(d);
      AddDaysNumber(NextDay(d), k - 1);
    }
  }

  lemma {:induction false} AddDaysInMonth(d: DateTime, k: nat)
    requires Valid(d) && d.day + k <= DaysInMonth(d.year, d.month)
    ensures AddDays(d, k) == d.(day := d.day + k)
    decreases k
  {
    if k > 0 {
      AddDaysInMonth(NextDay(d), k - 1);
    }
  }

  /** setHours lands exactly h:m:s after the start of the day, whatever the fields. */
  lemma SetHoursMoment(d: DateTime, h: nat, m: nat, s: nat)
    requires Valid(d)
    ensures Moment(SetHours(d, h, m, s)) == DayNumber(d) * SecondsPerDay + h * 3600 + m * 60 + s
  {
    var total := h * 3600 + m * 60 + s;
    AddDaysNumber(d, total / SecondsPerDay);
    var rest := total % SecondsPerDay;
    assert rest == rest / 3600 * 3600 + rest % 3600 / 60 * 60 + rest % 3600 % 60;
  }

  /** Fields inside the day only replace the time of day. */
  lemma SetHoursWithinDay(d: DateTime, h: nat, m: nat, s: nat)
    requires Valid(d) && h < 24 && m < 60 && s < 60
    ensures SetHours(d, h, m, s) == d.(hour := h, minute := m, second := s)
  {
    var total := h * 3600 + m * 60 + s;
    assert total < SecondsPerDay;
    assert total / 3600 == h;
    assert total % 3600 / 60 == m;
  }

  /** The date-only constructor counts days exactly as MakeDay does. */
  lemma DateFromFieldsDayNumber(y: nat, m: nat, d: nat)
    requires 1 <= m <= 12 && 1 <= d <= 31
    ensures DayNumber(DateFromFields(y, m, d).value) == DaysBeforeYear(y) + DaysBeforeMonth(y, m) + d - 1
  {
    AddDaysNumber(DateTime(y, m, 1, 0, 0, 0), d - 1);
  }

  /** A day inside its month is read as that very date. */
  lemma DateFromFieldsInMonth(y: nat, m: nat, d: nat)
    requires 1 <= m <= 12 && 1 <= d <= DaysInMonth(y, m)
    ensures DateFromFields(y, m, d) == Some(DateTime(y, m, d, 0, 0, 0))
  {
    AddDaysInMonth(DateTime(y, m, 1, 0, 0, 0), d - 1);
  }
}

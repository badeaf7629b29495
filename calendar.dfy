/**
 * The part of Python's `datetime.date` the backup script relies on: the proleptic
 * Gregorian calendar over years 1..9999, adding one day (which overflows past
 * 9999-12-31), the day of the week, and `utils.is_last_day_of_month`.
 */
module Calendar {
  import opened Wrappers

  const MinYear: int := 1
  const MaxYear: int := 9999

  datatype Date = Date(year: int, month: int, day: int)

  /** A wall-clock reading as the script takes it from `datetime.now()`. */
  datatype DateTime = DateTime(date: Date, hour: int, minute: int, second: int)

  predicate IsLeapYear(y: int) {
    y % 4 == 0 && (y % 100 != 0 || y % 400 == 0)
  }

  function DaysInMonth(y: int, m: int): (n: int)
    requires 1 <= m <= 12
    ensures 28 <= n <= 31
    ensures m == 2 ==> (n == 29 <==> IsLeapYear(y))
  {
    if m == 2 then (if IsLeapYear(y) then 29 else 28)
    else [31, 28, 31, 30, 31, 30, 31, 31, 30, 31, 30, 31][m - 1]
  }

  predicate ValidDate(d: Date) {
    MinYear <= d.year <= MaxYear && 1 <= d.month <= 12 && 1 <= d.day <= DaysInMonth(d.year, d.month)
  }

  predicate ValidDateTime(t: DateTime) {
    ValidDate(t.date) && 0 <= t.hour < 24 && 0 <= t.minute < 60 && 0 <= t.second < 60
  }

  /** The last date `datetime.date` can represent. */
  const LastDate: Date := Date(MaxYear, 12, 31)

  /** `d + timedelta(days=1)`; `None` where Python raises `OverflowError`. */
  function AddOneDay(d: Date): (r: Option<Date>)
    requires ValidDate(d)
    ensures r.None? <==> d == LastDate
    ensures r.Some? ==> ValidDate(r.value)
  {
    if d.day < DaysInMonth(d.year, d.month) then Some(Date(d.year, d.month, d.day + 1))
    else if d.month < 12 then Some(Date(d.year, d.month + 1, 1))
    else if d.year < MaxYear then Some(Date(d.year + 1, 1, 1))
    else None
  }

  /** `is_last_day_of_month(d)`: does the month change when one day is added?
      `None` where adding the day overflows. */
  function IsLastDayOfMonth(d: Date): (r: Option<bool>)
    requires ValidDate(d)
    ensures r.None? <==> d == LastDate
    ensures r.Some? ==> (r.value <==> d.day == DaysInMonth(d.year, d.month))
  {
    match AddOneDay(d)
    case None => None
    case Some(next) => Some(next.month != d.month)
  }

  /** Days in all years before `y` (Python's `_days_before_year`). */
  function DaysBeforeYear(y: int): int
    requires y >= 1
  {
    var p := y - 1;
    p * 365 + p / 4 - p / 100 + p / 400
  }

  /** Days in the months of year `y` before month `m` (Python's `_days_before_month`). */
  function DaysBeforeMonth(y: int, m: int): int
    requires 1 <= m <= 12
  {
    [0, 31, 59, 90, 120, 151, 181, 212, 243, 273, 304, 334][m - 1]
      + (if m > 2 && IsLeapYear(y) then 1 else 0)
  }

  /** `d.toordinal()`: 0001-01-01 is day 1. */
  function Ordinal(d: Date): int
    requires ValidDate(d)
  {
    DaysBeforeYear(d.year) + DaysBeforeMonth(d.year, d.month) + d.day
  }

  lemma YearLength(y: int)
    requires y >= 1
    ensures DaysBeforeYear(y + 1) == DaysBeforeYear(y) + (if IsLeapYear(y) then 366 else 365)
  {
    assert y / 4 == (y - 1) / 4 + (if y % 4 == 0 then 1 else 0);
    assert y / 100 == (y - 1) / 100 + (if y % 100 == 0 then 1 else 0);
    assert y / 400 == (y - 1) / 400 + (if y % 400 == 0 then 1 else 0);
  }

  /** Adding one day moves the ordinal on by exactly one, across month and year ends. */
  lemma OrdinalOfNextDay(d: Date)
    requires ValidDate(d) && d != LastDate
    ensures Ordinal(AddOneDay(d).value) == Ordinal(d) + 1
  {
    if d.day == DaysInMonth(d.year, d.month) && d.month == 12 {
      YearLength(d.year);
    }
  }

  const WeekdayNames: seq<string> :=
    ["Monday", "Tuesday", "Wednesday", "Thursday", "Friday", "Saturday", "Sunday"]

  /** `d.weekday()`: 0 is Monday. */
  function Weekday(d: Date): (w: int)
    requires ValidDate(d)
    ensures 0 <= w < 7
  {
    (Ordinal(d) + 6) % 7
  }

  /** `d.strftime('%A')` in the C locale: the English name of the day of the week, one
      name per day. */
  function WeekdayName(d: Date): (r: string)
    requires ValidDate(d)
    ensures forall j :: 0 <= j < 7 ==> (r == WeekdayNames[j] <==> Weekday(d) == j)
  {
    WeekdayNames[Weekday(d)]
  }

  /** Consecutive dates fall on consecutive days of the week. */
  lemma WeekdayOfNextDay(d: Date)
    requires ValidDate(d) && d != LastDate
    ensures Weekday(AddOneDay(d).value) == (Weekday(d) + 1) % 7
  {
    OrdinalOfNextDay(d);
    NextResidue(Ordinal(d) + 6);
  }

  lemma NextResidue(x: int)
    ensures (x + 1) % 7 == (x % 7 + 1) % 7
  {
    var q, r := x / 7, x % 7;
    assert x == 7 * q + r;
    if r < 6 {
      assert x + 1 == 7 * q + (r + 1);
    } else {
      assert x + 1 == 7 * (q + 1);
    }
  }

  lemma LastDayExamples()
    ensures IsLastDayOfMonth(Date(2023, 2, 28)) == Some(true)
    ensures IsLastDayOfMonth(Date(2024, 2, 28)) == Some(false)
    ensures IsLastDayOfMonth(Date(2024, 2, 29)) == Some(true)
    ensures IsLastDayOfMonth(Date(1900, 2, 28)) == Some(true)
    ensures IsLastDayOfMonth(Date(2000, 2, 29)) == Some(true)
    ensures IsLastDayOfMonth(Date(2024, 12, 31)) == Some(true)
    ensures AddOneDay(Date(2024, 12, 31)) == Some(Date(2025, 1, 1))
    ensures IsLastDayOfMonth(Date(2024, 4, 30)) == Some(true)
    ensures IsLastDayOfMonth(Date(2024, 5, 30)) == Some(false)
    ensures IsLastDayOfMonth(LastDate) == None
  {
  }

  lemma WeekdayExamples()
    ensures WeekdayName(Date(1, 1, 1)) == "Monday"
    ensures WeekdayName(Date(2024, 2, 29)) == "Thursday"
    ensures WeekdayName(Date(2024, 3, 13)) == "Wednesday"
    ensures WeekdayName(Date(2000, 1, 1)) == "Saturday"
  {
  }
}

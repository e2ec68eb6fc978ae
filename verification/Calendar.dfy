/**
 The proleptic Gregorian calendar as Go's time package uses it: leap years, month lengths, the carry of a day
 over month and year ends, and the count of days that orders all dates.
 */
module Calendar {

  datatype Date = Date(year: int, month: int, day: int)

  /** A civil date and time of day in UTC. */
  datatype Civil = Civil(date: Date, hour: int, minute: int, second: int)

  predicate IsLeap(year: int) {
    year % 4 == 0 && (year % 100 != 0 || year % 400 == 0)
  }

  function DaysIn(month: int, year: int): int
    requires 1 <= month <= 12
  {
    if month == 2 then (if IsLeap(year) then 29 else 28)
    else if month == 4 || month == 6 || month == 9 || month == 11 then 30
    else 31
  }

  predicate ValidDate(d: Date) {
    && 1 <= d.month <= 12
    && 1 <= d.day <= DaysIn(d.month, d.year)
  }

  predicate ValidCivil(c: Civil) {
    && ValidDate(c.date)
    && 0 <= c.hour < 24
    && 0 <= c.minute < 60
    && 0 <= c.second < 60
  }

  function NextDay(d: Date): (r: Date)
    requires ValidDate(d)
    ensures ValidDate(r)
  {
    if d.day < DaysIn(d.month, d.year) then d.(day := d.day + 1)
    else if d.month < 12 then Date(d.year, d.month + 1, 1)
    else Date(d.year + 1, 1, 1)
  }

  function PreviousDay(d: Date): (r: Date)
    requires ValidDate(d)
    ensures ValidDate(r)
  {
    if d.day > 1 then d.(day := d.day - 1)
    else if d.month > 1 then Date(d.year, d.month - 1, DaysIn(d.month - 1, d.year))
    else Date(d.year - 1, 12, 31)
  }

  function AddDays(d: Date, days: int): (r: Date)
    requires ValidDate(d)
    ensures ValidDate(r)
    decreases if days < 0 then -days else days
  {
    if days == 0 then d
    else if days > 0 then AddDays(NextDay(d), days - 1)
    else AddDays(PreviousDay(d), days + 1)
  }

  /** Days from 0000-01-01 to the first of January of the year; division rounds down. */
  function DaysBeforeYear(year: int): int {
    365 * year + (year + 3) / 4 - (year + 99) / 100 + (year + 399) / 400
  }

  function DaysBeforeMonth(month: int, year: int): int
    requires 1 <= month <= 12
    decreases month
  {
    if month == 1 then 0 else DaysBeforeMonth(month - 1, year) + DaysIn(month - 1, year)
  }

  /** The number of the day, counted from 0000-01-01. */
  function DayNumber(d: Date): int
    requires ValidDate(d)
  {
    DaysBeforeYear(d.year) + DaysBeforeMonth(d.month, d.year) + d.day - 1
  }

  const SECONDS_PER_DAY := 86400

  /** The number of 1970-01-01. */
  const UNIX_DAY := 719528

  function SecondOfDay(c: Civil): int {
    c.hour * 3600 + c.minute * 60 + c.second
  }

  /** Seconds since the Unix epoch. */
  function Instant(c: Civil): int
    requires ValidCivil(c)
  {
    (DayNumber(c.date) - UNIX_DAY) * SECONDS_PER_DAY + SecondOfDay(c)
  }

  function TimeOfDay(date: Date, second: int): (c: Civil)
    requires ValidDate(date) && 0 <= second < SECONDS_PER_DAY
    ensures ValidCivil(c) && c.date == date && SecondOfDay(c) == second
  {
    Civil(date, second / 3600, second % 3600 / 60, second % 60)
  }

  /** The UTC reading of a local reading `offset` seconds east of UTC: Go's Time.UTC on a parsed time. */
  function ToUtc(local: Civil, offset: int): (utc: Civil)
    requires ValidCivil(local)
    ensures ValidCivil(utc)
  {
    var second := SecondOfDay(local) - offset;
    TimeOfDay(AddDays(local.date, second / SECONDS_PER_DAY), second % SECONDS_PER_DAY)
  }

  // ----- the carry keeps the count of days -----

  lemma YearLength(year: int)
    ensures DaysBeforeYear(year + 1) == DaysBeforeYear(year) + (if IsLeap(year) then 366 else 365)
  {
    assert (year + 4) / 4 == (year + 3) / 4 + (if year % 4 == 0 then 1 else 0);
    assert (year + 100) / 100 == (year + 99) / 100 + (if year % 100 == 0 then 1 else 0);
    assert (year + 400) / 400 == (year + 399) / 400 + (if year % 400 == 0 then 1 else 0);
  }

  lemma DaysBeforeMonthTable(month: int, year: int)
    requires 1 <= month <= 12
    ensures var leap := if IsLeap(year) then 1 else 0;
            DaysBeforeMonth(month, year) ==
            if month == 1 then 0
            else if month == 2 then 31
            else [59, 90, 120, 151, 181, 212, 243, 273, 304, 334][month - 3] + leap
  {
    if month > 1 {
      DaysBeforeMonthTable(month - 1, year);
    }
  }

  lemma NextDayNumber(d: Date)
    requires ValidDate(d)
    ensures DayNumber(NextDay(d)) == DayNumber(d) + 1
  {
    YearLength(d.year);
    DaysBeforeMonthTable(d.month, d.year);
  }

  lemma PreviousDayNumber(d: Date)
    requires ValidDate(d)
    ensures DayNumber(PreviousDay(d)) == DayNumber(d) - 1
  {
    if d.day == 1 && d.month == 1 {
      YearLength(d.year - 1);
      DaysBeforeMonthTable(12, d.year - 1);
    }
  }

  lemma {:induction false} AddDaysNumber(d: Date, days: int)
    requires ValidDate(d)
    ensures DayNumber(AddDays(d, days)) == DayNumber(d) + days
    decreases if days < 0 then -days else days
  {
    if days > 0 {
      NextDayNumber(d);
      AddDaysNumber(NextDay(d), days - 1);
    } else if days < 0 {
      PreviousDayNumber(d);
      AddDaysNumber(PreviousDay(d), days + 1);
    }
  }

  /** Conversion to UTC moves the reading, never the instant. */
  lemma ToUtcInstant(local: Civil, offset: int)
    requires ValidCivil(local)
    ensures Instant(ToUtc(local, offset)) == Instant(local) - offset
  {
    var second := SecondOfDay(local) - offset;
    AddDaysNumber(local.date, second / SECONDS_PER_DAY);
  }

  // ----- the count of days is faithful -----

  lemma YearsGrow(a: int, b: int)
    requires a < b
    ensures DaysBeforeYear(a + 1) <= DaysBeforeYear(b)
    decreases b - a
  {
    if a + 1 < b {
      YearLength(b - 1);
      YearsGrow(a, b - 1);
    }
  }

  lemma MonthsGrow(a: int, b: int, year: int)
    requires 1 <= a < b <= 12
    ensures DaysBeforeMonth(a, year) + DaysIn(a, year) <= DaysBeforeMonth(b, year)
    decreases b - a
  {
    if a + 1 < b {
      MonthsGrow(a, b - 1, year);
    }
  }

  lemma DayNumberInYear(d: Date)
    requires ValidDate(d)
    ensures DaysBeforeYear(d.year) <= DayNumber(d) < DaysBeforeYear(d.year + 1)
  {
    YearLength(d.year);
    DaysBeforeMonthTable(d.month, d.year);
  }

  lemma LaterYear(a: Date, b: Date)
    requires ValidDate(a) && ValidDate(b) && a.year < b.year
    ensures DayNumber(a) < DayNumber(b)
  {
    DayNumberInYear(a);
    YearsGrow(a.year, b.year);
    DayNumberInYear(b);
  }

  lemma LaterMonth(a: Date, b: Date)
    requires ValidDate(a) && ValidDate(b) && a.year == b.year && a.month < b.month
    ensures DayNumber(a) < DayNumber(b)
  {
    MonthsGrow(a.month, b.month, a.year);
  }

  /** Two dates with the same number are the same date. */
  lemma DayNumberInjective(a: Date, b: Date)
    requires ValidDate(a) && ValidDate(b)
    requires DayNumber(a) == DayNumber(b)
    ensures a == b
  {
    if a.year < b.year {
      LaterYear(a, b);
    } else if b.year < a.year {
      LaterYear(b, a);
    } else if a.month < b.month {
      LaterMonth(a, b);
    } else if b.month < a.month {
      LaterMonth(b, a);
    }
  }

  /** UTC readings of one instant are one reading. */
  lemma InstantInjective(a: Civil, b: Civil)
    requires ValidCivil(a) && ValidCivil(b)
    requires Instant(a) == Instant(b)
    ensures a == b
  {
    var x, y := DayNumber(a.date), DayNumber(b.date);
    assert x == y by {
      assert 0 <= SecondOfDay(a) < SECONDS_PER_DAY && 0 <= SecondOfDay(b) < SECONDS_PER_DAY;
    }
    DayNumberInjective(a.date, b.date);
  }
}

/** The proleptic Gregorian calendar in local time, as JavaScript `Date` and
    `date-fns` see it: instants are milliseconds from 1970-01-01 00:00 local
    time, days are numbered from that day, months run from 0 (January) to 11. */
module Calendar {

  const DayMs: int := 86400000

  predicate IsLeap(y: int)
  {
    y % 4 == 0 && (y % 100 != 0 || y % 400 == 0)
  }

  function DaysInMonth(y: int, m: int): (n: int)
    requires 0 <= m < 12
    ensures 28 <= n <= 31
  {
    if m == 1 then (if IsLeap(y) then 29 else 28)
    else if m == 3 || m == 5 || m == 8 || m == 10 then 30
    else 31
  }

  function DaysInYear(y: int): int
  {
    if IsLeap(y) then 366 else 365
  }

  /** Days of the year before the first of month `m`. */
  function DaysBeforeMonth(y: int, m: int): int
    requires 0 <= m <= 12
  {
    var before := [0, 31, 59, 90, 120, 151, 181, 212, 243, 273, 304, 334, 365];
    before[m] + (if m >= 2 && IsLeap(y) then 1 else 0)
  }

  /** The month table agrees with the month lengths, and the year is their sum. */
  lemma MonthsTileYear(y: int, m: int)
    requires 0 <= m < 12
    ensures DaysBeforeMonth(y, m + 1) == DaysBeforeMonth(y, m) + DaysInMonth(y, m)
    ensures DaysBeforeMonth(y, 0) == 0 && DaysBeforeMonth(y, 12) == DaysInYear(y)
  {
  }

  /** Leap years in 1..y (for y >= 0), extended to all integers by floor division. */
  function LeapsThrough(y: int): int
  {
    y / 4 - y / 100 + y / 400
  }

  /** Day number of January 1st of year `y`. */
  function DaysBeforeYear(y: int): int
  {
    365 * (y - 1970) + LeapsThrough(y - 1) - LeapsThrough(1969)
  }

  lemma {:induction false} YearLength(y: int)
    ensures DaysBeforeYear(y + 1) == DaysBeforeYear(y) + DaysInYear(y)
  {
    var q4, r4 := y / 4, y % 4;
    var q100, r100 := y / 100, y % 100;
    var q400, r400 := y / 400, y % 400;
    assert (y - 1) / 4 == if r4 == 0 then q4 - 1 else q4;
    assert (y - 1) / 100 == if r100 == 0 then q100 - 1 else q100;
    assert (y - 1) / 400 == if r400 == 0 then q400 - 1 else q400;
    assert r100 == 0 ==> r4 == 0;
    assert r400 == 0 ==> r100 == 0;
  }

  /** Day number of the first day of month `m` of year `y`. */
  function FirstDay(y: int, m: int): int
    requires 0 <= m < 12
  {
    DaysBeforeYear(y) + DaysBeforeMonth(y, m)
  }

  /** Day of the week, 0 = Sunday as `Date.getDay` counts; 1970-01-01 was a Thursday. */
  function Weekday(d: int): (w: int)
    ensures 0 <= w < 7
  {
    (d + 4) % 7
  }

  /** A month of a year, as `(year, monthIndex)`. */
  datatype Month = Month(year: int, index: int)
  {
    predicate Valid() { 0 <= index < 12 }
  }

  /** `new Date(y, m - 1, 1)`: the month before, rolling over into December of the previous year. */
  function PrevMonth(mo: Month): (r: Month)
    requires mo.Valid()
    ensures r.Valid()
  {
    if mo.index == 0 then Month(mo.year - 1, 11) else Month(mo.year, mo.index - 1)
  }

  /** `new Date(y, m + 1, 1)`: the month after, rolling over into January of the next year. */
  function NextMonth(mo: Month): (r: Month)
    requires mo.Valid()
    ensures r.Valid()
  {
    if mo.index == 11 then Month(mo.year + 1, 0) else Month(mo.year, mo.index + 1)
  }

  lemma PrevNextInverse(mo: Month)
    requires mo.Valid()
    ensures NextMonth(PrevMonth(mo)) == mo
    ensures PrevMonth(NextMonth(mo)) == mo
  {
  }

  function MonthLength(mo: Month): int
    requires mo.Valid()
  {
    DaysInMonth(mo.year, mo.index)
  }

  function MonthStart(mo: Month): int
    requires mo.Valid()
  {
    FirstDay(mo.year, mo.index)
  }

  /** Consecutive months tile the day line: the next month starts the day
      after this one ends, across year boundaries too. */
  lemma {:induction false} MonthsAreConsecutive(mo: Month)
    requires mo.Valid()
    ensures MonthStart(NextMonth(mo)) == MonthStart(mo) + MonthLength(mo)
  {
    MonthsTileYear(mo.year, mo.index);
    if mo.index == 11 {
      YearLength(mo.year);
    }
  }

  /** A wall-clock reading: the date, and milliseconds since local midnight. */
  datatype LocalTime = LocalTime(month: Month, day: int, msOfDay: int)
  {
    predicate Valid()
    {
      month.Valid() && 1 <= day <= MonthLength(month) && 0 <= msOfDay < DayMs
    }
  }

  /** Day number of a reading. */
  function DayOf(t: LocalTime): int
    requires t.Valid()
  {
    MonthStart(t.month) + t.day - 1
  }

  /** Milliseconds of a reading. */
  function Instant(t: LocalTime): int
    requires t.Valid()
  {
    DayOf(t) * DayMs + t.msOfDay
  }

  /** The day an instant falls on (`isSameDay` compares these). */
  function DayNumber(ms: int): int
  {
    ms / DayMs
  }

  lemma InstantOnItsDay(t: LocalTime)
    requires t.Valid()
    ensures DayNumber(Instant(t)) == DayOf(t)
    ensures DayOf(t) * DayMs <= Instant(t) < (DayOf(t) + 1) * DayMs
  {
  }
}

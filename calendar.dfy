/**
 * The proleptic Gregorian calendar that both JavaScript's Date and Python's datetime use,
 * with days counted from 0001-01-01 (day 0).
 */
module Calendar {

  predicate IsLeap(y: int)
  {
    y % 4 == 0 && (y % 100 != 0 || y % 400 == 0)
  }

  function DaysInMonth(y: int, m: int): (n: int)
    requires 1 <= m <= 12
    ensures 28 <= n <= 31
  {
    if m == 2 then (if IsLeap(y) then 29 else 28)
    else if m == 4 || m == 6 || m == 9 || m == 11 then 30
    else 31
  }

  /** Days in the months of year y before month m. */
  function DaysBeforeMonth(y: int, m: int): int
    requires 1 <= m <= 12
  {
    [0, 31, 59, 90, 120, 151, 181, 212, 243, 273, 304, 334][m - 1] + (if m > 2 && IsLeap(y) then 1 else 0)
  }

  /** Days from 0001-01-01 to the first day of year y (negative before year 1). */
  function DaysBeforeYear(y: int): int
  {
    365 * (y - 1) + (y - 1) / 4 - (y - 1) / 100 + (y - 1) / 400
  }

  /** The day number of year y, month m (1-12), day d; d may run past the month's end. */
  function DayNumber(y: int, m: int, d: int): int
    requires 1 <= m <= 12
  {
    DaysBeforeYear(y) + DaysBeforeMonth(y, m) + d - 1
  }

  datatype Date = Date(year: int, month: int, day: int)

  predicate ValidDate(c: Date)
  {
    1 <= c.month <= 12 && 1 <= c.day <= DaysInMonth(c.year, c.month)
  }

  function Days(c: Date): int
    requires 1 <= c.month <= 12
  {
    DayNumber(c.year, c.month, c.day)
  }

  /** The calendar day after c. */
  function NextDay(c: Date): (r: Date)
    requires ValidDate(c)
    ensures ValidDate(r)
  {
    if c.day < DaysInMonth(c.year, c.month) then Date(c.year, c.month, c.day + 1)
    else if c.month < 12 then Date(c.year, c.month + 1, 1)
    else Date(c.year + 1, 1, 1)
  }

  // Floor division by 4, 100 and 400 steps up by one exactly at the multiples.

  lemma Step4(y: int)
    ensures y / 4 == (y - 1) / 4 + (if y % 4 == 0 then 1 else 0)
  {
  }

  lemma Step100(y: int)
    ensures y / 100 == (y - 1) / 100 + (if y % 100 == 0 then 1 else 0)
  {
  }

  lemma Step400(y: int)
    ensures y / 400 == (y - 1) / 400 + (if y % 400 == 0 then 1 else 0)
  {
  }

  lemma YearLength(y: int)
    ensures DaysBeforeYear(y + 1) == DaysBeforeYear(y) + (if IsLeap(y) then 366 else 365)
  {
    Step4(y);
    Step100(y);
    Step400(y);
  }

  lemma MonthLength(y: int, m: int)
    requires 1 <= m < 12
    ensures DaysBeforeMonth(y, m + 1) == DaysBeforeMonth(y, m) + DaysInMonth(y, m)
  {
  }

  /** The next day's number is one more. */
  lemma NextDayNumber(c: Date)
    requires ValidDate(c)
    ensures Days(NextDay(c)) == Days(c) + 1
  {
    if c.day < DaysInMonth(c.year, c.month) {
    } else if c.month < 12 {
      MonthLength(c.year, c.month);
    } else {
      YearLength(c.year);
      assert DaysBeforeMonth(c.year, 12) + 31 == (if IsLeap(c.year) then 366 else 365);
    }
  }

  /** The last day Python's datetime can hold. */
  const MaxDate := Date(9999, 12, 31)

  /** Day numbers grow with the year. */
  lemma DaysBeforeYearMonotone(a: int, b: int)
    requires a <= b
    ensures DaysBeforeYear(a) <= DaysBeforeYear(b)
  {
  }

  /** A date of a year up to 9999 is not after the last one, and only that date has its number. */
  lemma DaysUpToMax(c: Date)
    requires ValidDate(c) && c.year <= 9999
    ensures Days(c) <= Days(MaxDate)
    ensures Days(c) == Days(MaxDate) ==> c == MaxDate
  {
    YearLength(c.year);
    DaysBeforeYearMonotone(c.year + 1, 10000);
    YearLength(9999);
    if c.year == 9999 && c.month < 12 {
      assert DaysBeforeMonth(c.year, c.month) + DaysInMonth(c.year, c.month) <= 334;
    }
  }

  /** The day after a date before 9999-12-31 still has a year of at most 9999. */
  lemma NextDayBeforeMax(c: Date)
    requires ValidDate(c) && c.year <= 9999 && c != MaxDate
    ensures NextDay(c).year <= 9999
  {
  }

  /** A date with a time of day, to the second. */
  datatype DateTime = DateTime(date: Date, hour: int, minute: int, second: int)

  predicate ValidDateTime(t: DateTime)
  {
    ValidDate(t.date) && 0 <= t.hour < 24 && 0 <= t.minute < 60 && 0 <= t.second < 60
  }

  /** Seconds since 0001-01-01 00:00:00. */
  function Seconds(t: DateTime): int
    requires 1 <= t.date.month <= 12
  {
    Days(t.date) * 86400 + t.hour * 3600 + t.minute * 60 + t.second
  }
}

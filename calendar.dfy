/**
 * Calendar dates as the tracker stores them: an ISO-8601 "YYYY-MM-DD" string,
 * modelled after parsing as a record of its three fields, together with the
 * day number (days since 1970-01-01 in the proleptic Gregorian calendar) that
 * stands for `getTime()` when dates are compared or sorted.
 */
module Calendar {

  /** A parsed ISO date. `month` is 1-based, as written in the string. */
  datatype Date = Date(year: int, month: int, day: int)

  /** The Gregorian leap-year rule. */
  predicate IsLeapYear(y: int) {
    y % 4 == 0 && (y % 100 != 0 || y % 400 == 0)
  }

  function DaysInMonth(y: int, m: int): (n: int)
    requires 1 <= m <= 12
    ensures 28 <= n <= 31
    ensures m == 2 ==> (n == 29 <==> IsLeapYear(y))
  {
    if m == 2 then (if IsLeapYear(y) then 29 else 28)
    else if m == 4 || m == 6 || m == 9 || m == 11 then 30
    else 31
  }

  /** A date that names a real calendar day. */
  predicate ValidDate(d: Date) {
    1 <= d.month <= 12 && 1 <= d.day <= DaysInMonth(d.year, d.month)
  }

  /** Days from 1970-01-01 to January 1st of year `y` (negative before 1970). */
  function DaysBeforeYear(y: int): int {
    365 * (y - 1970) + (y - 1) / 4 - (y - 1) / 100 + (y - 1) / 400 - 477
  }

  /**
   * Days in the months of a common year that precede month `m`. Total so that
   * every date has a day number; only months 1..12 are meaningful.
   */
  function CommonDaysBeforeMonth(m: int): int {
    if m <= 1 then 0 else if m == 2 then 31 else if m == 3 then 59
    else if m == 4 then 90 else if m == 5 then 120 else if m == 6 then 151
    else if m == 7 then 181 else if m == 8 then 212 else if m == 9 then 243
    else if m == 10 then 273 else if m == 11 then 304 else 334
  }

  /** Days from 1970-01-01 to the first day of month `m` of year `y`. */
  function DaysBeforeMonth(y: int, m: int): int {
    DaysBeforeYear(y) + CommonDaysBeforeMonth(m) + (if m > 2 && IsLeapYear(y) then 1 else 0)
  }

  /** The day number of a date: what `getTime()` measures, in whole days. */
  function DayNumber(d: Date): int {
    DaysBeforeMonth(d.year, d.month) + d.day - 1
  }

  /** The calendar month a date falls in; `getMonth()` and `getFullYear()` together. */
  datatype MonthKey = MonthKey(year: int, month: int)

  function MonthKeyOf(d: Date): MonthKey {
    MonthKey(d.year, d.month)
  }

  /** Strict chronological order of calendar months. */
  predicate MonthBefore(a: MonthKey, b: MonthKey) {
    a.year < b.year || (a.year == b.year && a.month < b.month)
  }

  lemma YearLength(y: int)
    ensures DaysBeforeYear(y + 1) - DaysBeforeYear(y) == if IsLeapYear(y) then 366 else 365
  {
    assert y / 4 - (y - 1) / 4 == if y % 4 == 0 then 1 else 0;
    assert y / 100 - (y - 1) / 100 == if y % 100 == 0 then 1 else 0;
    assert y / 400 - (y - 1) / 400 == if y % 400 == 0 then 1 else 0;
  }

  /** January 1st comes later in every later year. */
  lemma {:induction false} DaysBeforeYearIncreasing(y1: int, y2: int)
    requires y1 < y2
    ensures DaysBeforeYear(y1) + 365 <= DaysBeforeYear(y2)
    decreases y2 - y1
  {
    YearLength(y1);
    if y1 + 1 < y2 {
      DaysBeforeYearIncreasing(y1 + 1, y2);
    }
  }

  /** Every valid date falls inside its own year. */
  lemma DayNumberWithinYear(d: Date)
    requires ValidDate(d)
    ensures DaysBeforeYear(d.year) <= DayNumber(d) < DaysBeforeYear(d.year + 1)
  {
    YearLength(d.year);
  }

  /**
   * The day number orders calendar months: a valid date in an earlier month
   * has a smaller day number. This is why bucketing a date-sorted list by
   * month emits the months in chronological order.
   */
  lemma MonthBeforeDayNumber(a: Date, b: Date)
    requires ValidDate(a) && ValidDate(b)
    requires MonthBefore(MonthKeyOf(a), MonthKeyOf(b))
    ensures DayNumber(a) < DayNumber(b)
  {
    if a.year < b.year {
      DayNumberWithinYear(a);
      DayNumberWithinYear(b);
      if a.year + 1 < b.year {
        DaysBeforeYearIncreasing(a.year + 1, b.year);
      }
    }
  }

  /** Contrapositive form: a date that is not later is not in a later month. */
  lemma DayNumberMonotone(a: Date, b: Date)
    requires ValidDate(a) && ValidDate(b)
    requires DayNumber(a) <= DayNumber(b)
    ensures !MonthBefore(MonthKeyOf(b), MonthKeyOf(a))
  {
    if MonthBefore(MonthKeyOf(b), MonthKeyOf(a)) {
      MonthBeforeDayNumber(b, a);
    }
  }

  /** Distinct valid dates have distinct day numbers. */
  lemma DayNumberInjective(a: Date, b: Date)
    requires ValidDate(a) && ValidDate(b)
    requires DayNumber(a) == DayNumber(b)
    ensures a == b
  {
    if MonthBefore(MonthKeyOf(a), MonthKeyOf(b)) {
      MonthBeforeDayNumber(a, b);
    } else if MonthBefore(MonthKeyOf(b), MonthKeyOf(a)) {
      MonthBeforeDayNumber(b, a);
    }
  }

  /** The day numbers agree with the epoch `getTime()` counts from. */
  lemma EpochDays()
    ensures DayNumber(Date(1970, 1, 1)) == 0
    ensures DayNumber(Date(1969, 12, 31)) == -1
    ensures DayNumber(Date(2000, 3, 1)) == 11017
    ensures DayNumber(Date(2024, 1, 1)) == 19723
  {
  }

  /** The calendar day after `d`: `setDate(getDate() + 1)`. */
  function NextDay(d: Date): (r: Date)
    requires ValidDate(d)
    ensures ValidDate(r)
    ensures DayNumber(r) == DayNumber(d) + 1
  {
    YearLength(d.year);
    if d.day < DaysInMonth(d.year, d.month) then Date(d.year, d.month, d.day + 1)
    else if d.month < 12 then Date(d.year, d.month + 1, 1)
    else Date(d.year + 1, 1, 1)
  }

  /** The calendar day before `d`: `setDate(getDate() - 1)`. */
  function PrevDay(d: Date): (r: Date)
    requires ValidDate(d)
    ensures ValidDate(r)
    ensures DayNumber(r) == DayNumber(d) - 1
    ensures NextDay(r) == d
  {
    YearLength(d.year - 1);
    if d.day > 1 then Date(d.year, d.month, d.day - 1)
    else if d.month > 1 then Date(d.year, d.month - 1, DaysInMonth(d.year, d.month - 1))
    else Date(d.year - 1, 12, 31)
  }

  /**
   * The calendar date `n` days before `d`, as `setDate(getDate() - n)` lands
   * on it: its day number is `n` less, so "seven days before now" is
   * `DayNumber(now) - 7`.
   */
  function DaysEarlier(d: Date, n: nat): (r: Date)
    requires ValidDate(d)
    ensures ValidDate(r)
    ensures DayNumber(r) == DayNumber(d) - n
  {
    if n == 0 then d else PrevDay(DaysEarlier(d, n - 1))
  }
}

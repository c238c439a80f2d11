/**
 The Gregorian calendar in UTC, as Go's `time` package computes it.

 A day is an integer: day 0 is 1 January of year 1, a Monday. All definitions
 use floor division, so they hold for the days before year 1 as well.
 */
module Calendar {

  /** Number of days in 400 years. */
  const DAYS_PER_ERA := 146097

  datatype Date = Date(year: int, month: int, day: int)

  predicate IsLeap(year: int) {
    year % 4 == 0 && (year % 100 != 0 || year % 400 == 0)
  }

  function DaysInYear(year: int): int {
    if IsLeap(year) then 366 else 365
  }

  function DaysInMonth(year: int, month: int): int
    requires 1 <= month <= 12
  {
    if month == 2 then (if IsLeap(year) then 29 else 28)
    else if month in {4, 6, 9, 11} then 30
    else 31
  }

  predicate ValidDate(d: Date) {
    1 <= d.month <= 12 && 1 <= d.day <= DaysInMonth(d.year, d.month)
  }

  /** Days between 1 January of year 1 and 1 January of the given year. */
  function DaysBeforeYear(year: int): int {
    var p := year - 1;
    365 * p + p / 4 - p / 100 + p / 400
  }

  /** Days of the year before the given month; month 13 stands for the end of the year. */
  function DaysBeforeMonth(year: int, month: int): int
    requires 1 <= month <= 13
  {
    [0, 31, 59, 90, 120, 151, 181, 212, 243, 273, 304, 334, 365][month - 1]
    + if month > 2 && IsLeap(year) then 1 else 0
  }

  function DayNumber(d: Date): int
    requires ValidDate(d)
  {
    DaysBeforeYear(d.year) + DaysBeforeMonth(d.year, d.month) + d.day - 1
  }

  /** Sunday is 0, as in Go's `time.Weekday`. */
  function Weekday(n: int): int {
    (n + 1) % 7
  }

  /** The month that holds the given day of the year. */
  function MonthOfYearDay(year: int, yearDay: int, month: int := 1): (m: int)
    requires 1 <= month <= 12
    requires DaysBeforeMonth(year, month) <= yearDay < DaysInYear(year)
    ensures month <= m <= 12
    ensures DaysBeforeMonth(year, m) <= yearDay < DaysBeforeMonth(year, m + 1)
    decreases 12 - month
  {
    if month == 12 || yearDay < DaysBeforeMonth(year, month + 1) then month
    else MonthOfYearDay(year, yearDay, month + 1)
  }

  /** The year that holds a day, by the cycles of 400, 100, 4 and 1 years. */
  function YearOf(n: int): (year: int)
    ensures DaysBeforeYear(year) <= n < DaysBeforeYear(year) + DaysInYear(year)
  {
    var n400, d400 := n / DAYS_PER_ERA, n % DAYS_PER_ERA;
    var n100 := if d400 / 36524 == 4 then 3 else d400 / 36524;
    var d100 := d400 - 36524 * n100;
    var n4, d4 := d100 / 1461, d100 % 1461;
    var n1 := if d4 / 365 == 4 then 3 else d4 / 365;
    var year := 400 * n400 + 100 * n100 + 4 * n4 + n1 + 1;
    YearCycles(n400, n100, n4, n1);
    year
  }

  /** The date of a day number, computed from its year and its day of the year. */
  method DateOf(n: int) returns (d: Date)
    ensures d == Civil(n)
  {
    var year := YearOf(n);
    var yearDay := n - DaysBeforeYear(year);
    var month := MonthOfYearDay(year, yearDay);
    MonthLength(year, month);
    d := Date(year, month, yearDay - DaysBeforeMonth(year, month) + 1);
    CivilOfDayNumber(d);
  }

  /** The calendar date of a day number: the only date with that number. */
  ghost function Civil(n: int): (d: Date)
    ensures ValidDate(d)
    ensures DayNumber(d) == n
  {
    EveryDayHasADate(n);
    var d :| ValidDate(d) && DayNumber(d) == n;
    d
  }

  lemma EveryDayHasADate(n: int)
    ensures exists d :: ValidDate(d) && DayNumber(d) == n
  {
    var year := YearOf(n);
    var yearDay := n - DaysBeforeYear(year);
    var month := MonthOfYearDay(year, yearDay);
    MonthLength(year, month);
    var d := Date(year, month, yearDay - DaysBeforeMonth(year, month) + 1);
    assert ValidDate(d) && DayNumber(d) == n;
  }

  lemma YearCycles(n400: int, n100: int, n4: int, n1: int)
    requires 0 <= n100 <= 3 && 0 <= n4 <= 24 && 0 <= n1 <= 3
    ensures var year := 400 * n400 + 100 * n100 + 4 * n4 + n1 + 1;
            && DaysBeforeYear(year) == DAYS_PER_ERA * n400 + 36524 * n100 + 1461 * n4 + 365 * n1
            && (IsLeap(year) <==> n1 == 3 && (n4 != 24 || n100 == 3))
  {
    var p := 400 * n400 + 100 * n100 + 4 * n4 + n1;
    assert p / 4 == 100 * n400 + 25 * n100 + n4;
    assert p / 100 == 4 * n400 + n100;
    assert p / 400 == n400;
    assert (p + 1) % 4 == (n1 + 1) % 4;
    assert n1 == 3 ==> (p + 1) % 100 == (4 * n4 + 4) % 100;
    assert n1 == 3 && n4 == 24 ==> (p + 1) % 400 == (100 * n100 + 100) % 400;
  }

  lemma MonthLength(year: int, month: int)
    requires 1 <= month <= 12
    ensures DaysBeforeMonth(year, month + 1) == DaysBeforeMonth(year, month) + DaysInMonth(year, month)
  {
  }

  lemma YearLength(year: int)
    ensures DaysBeforeYear(year + 1) == DaysBeforeYear(year) + DaysInYear(year)
  {
    CarriesAt(year, 4);
    CarriesAt(year, 100);
    CarriesAt(year, 400);
    LeapNesting(year);
  }

  lemma LeapNesting(year: int)
    ensures year % 400 == 0 ==> year % 100 == 0
    ensures year % 100 == 0 ==> year % 4 == 0
  {
  }

  lemma CarriesAt(year: int, k: int)
    requires k in {4, 100, 400}
    ensures year / k == (year - 1) / k + if year % k == 0 then 1 else 0
  {
  }

  lemma {:induction false} YearsAscend(y: int, y': int)
    requires y < y'
    ensures DaysBeforeYear(y) + DaysInYear(y) <= DaysBeforeYear(y')
    decreases y' - y
  {
    YearLength(y);
    if y + 1 < y' {
      YearsAscend(y + 1, y');
    }
  }

  lemma {:induction false} MonthsAscend(year: int, m: int, m': int)
    requires 1 <= m < m' <= 12
    ensures DaysBeforeMonth(year, m) + DaysInMonth(year, m) <= DaysBeforeMonth(year, m')
    decreases m' - m
  {
    MonthLength(year, m);
    if m + 1 < m' {
      MonthsAscend(year, m + 1, m');
    }
  }

  /** Different dates have different day numbers. */
  lemma DayNumberInjective(a: Date, b: Date)
    requires ValidDate(a) && ValidDate(b)
    requires DayNumber(a) == DayNumber(b)
    ensures a == b
  {
    YearDayBounds(a);
    YearDayBounds(b);
    if a.year < b.year {
      YearsAscend(a.year, b.year);
    } else if b.year < a.year {
      YearsAscend(b.year, a.year);
    } else if a.month < b.month {
      MonthsAscend(a.year, a.month, b.month);
    } else if b.month < a.month {
      MonthsAscend(a.year, b.month, a.month);
    }
  }

  lemma YearDayBounds(d: Date)
    requires ValidDate(d)
    ensures 0 <= DayNumber(d) - DaysBeforeYear(d.year) < DaysInYear(d.year)
  {
    if d.month < 12 {
      MonthsAscend(d.year, d.month, 12);
    }
  }

  /** Civil inverts DayNumber on every valid date. */
  lemma CivilOfDayNumber(d: Date)
    requires ValidDate(d)
    ensures Civil(DayNumber(d)) == d
  {
    DayNumberInjective(Civil(DayNumber(d)), d);
  }

  lemma EraLater(year: int)
    ensures IsLeap(year + 400) == IsLeap(year)
    ensures DaysBeforeYear(year + 400) == DaysBeforeYear(year) + DAYS_PER_ERA
  {
    var p := year - 1;
    assert (p + 400) / 4 == p / 4 + 100;
    assert (p + 400) / 100 == p / 100 + 4;
    assert (p + 400) / 400 == p / 400 + 1;
  }

  lemma DateEraLater(d: Date)
    requires ValidDate(d)
    ensures var later := Date(d.year + 400, d.month, d.day);
            ValidDate(later) && DayNumber(later) == DayNumber(d) + DAYS_PER_ERA
  {
    EraLater(d.year);
  }

  lemma WeekdayEraLater(n: int)
    ensures Weekday(n + DAYS_PER_ERA) == Weekday(n)
  {
    assert n + DAYS_PER_ERA + 1 == n + 1 + 7 * 20871;
  }

  /** After 400 years the calendar repeats: same month, same day, same day of the week. */
  lemma CivilPeriodic(n: int)
    ensures Civil(n + DAYS_PER_ERA) == Date(Civil(n).year + 400, Civil(n).month, Civil(n).day)
    ensures Weekday(n + DAYS_PER_ERA) == Weekday(n)
  {
    var d := Civil(n);
    DateEraLater(d);
    CivilOfDayNumber(Date(d.year + 400, d.month, d.day));
    WeekdayEraLater(n);
  }

  /** The day number that Go's `time.Date` gives to any month and day, in range or not. */
  function Normalize(year: int, month: int, day: int): int {
    var y, m := year + (month - 1) / 12, (month - 1) % 12 + 1;
    DaysBeforeYear(y) + DaysBeforeMonth(y, m) + day - 1
  }

  /** Go's `Time.AddDate` on the day of a time. */
  ghost function AddDate(n: int, years: int, months: int, days: int): int {
    var d := Civil(n);
    Normalize(d.year + years, d.month + months, d.day + days)
  }

  lemma AddOneDay(n: int)
    ensures AddDate(n, 0, 0, 1) == n + 1
  {
  }

  lemma NormalizeNextMonth(year: int, month: int)
    requires 1 <= month <= 12
    ensures Normalize(year, month + 1, 1)
            == if month == 12 then DaysBeforeYear(year + 1) else DaysBeforeYear(year) + DaysBeforeMonth(year, month + 1)
  {
    if month == 12 {
      assert (month + 1 - 1) / 12 == 1 && (month + 1 - 1) % 12 == 0;
      assert DaysBeforeMonth(year + 1, 1) == 0;
    } else {
      assert (month + 1 - 1) / 12 == 0 && (month + 1 - 1) % 12 == month;
    }
  }

  lemma NextMonthStart(n: int)
    ensures var d := Civil(n);
            var first := if d.month == 12 then Date(d.year + 1, 1, 1) else Date(d.year, d.month + 1, 1);
            && AddDate(n, 0, 1, 1 - d.day) == DayNumber(first)
            && DayNumber(first) == n + DaysInMonth(d.year, d.month) - d.day + 1
  {
    var d := Civil(n);
    NormalizeNextMonth(d.year, d.month);
    MonthLength(d.year, d.month);
    if d.month == 12 {
      YearLength(d.year);
    }
  }

  lemma SameMonth(n: int, k: int)
    requires var d := Civil(n); n <= k < n + DaysInMonth(d.year, d.month) - d.day + 1
    ensures Civil(k).month == Civil(n).month
  {
    var d := Civil(n);
    CivilOfDayNumber(Date(d.year, d.month, d.day + (k - n)));
  }

  /** Moving to the first of the next month leaves the month and skips no day of another month. */
  lemma FirstOfNextMonth(n: int)
    ensures var next := AddDate(n, 0, 1, 1 - Civil(n).day);
            && n < next
            && Civil(next).day == 1
            && (forall k :: n <= k < next ==> Civil(k).month == Civil(n).month)
  {
    var d := Civil(n);
    NextMonthStart(n);
    CivilOfDayNumber(if d.month == 12 then Date(d.year + 1, 1, 1) else Date(d.year, d.month + 1, 1));
    forall k | n <= k < AddDate(n, 0, 1, 1 - d.day)
      ensures Civil(k).month == d.month
    {
      SameMonth(n, k);
    }
  }

  /******* Which day is which *******/

  /** The first of a month, for every month number from 1 to 13. */
  function FirstOf(year: int, month: int): int
    requires 1 <= month <= 13
  {
    if month == 13 then DayNumber(Date(year + 1, 1, 1)) else DayNumber(Date(year, month, 1))
  }

  /** The months of every year follow each other at the lengths that the Gregorian calendar gives them. */
  lemma MonthsFollow(year: int)
    ensures forall month :: month in {1, 3, 5, 7, 8, 10, 12} ==> FirstOf(year, month + 1) == FirstOf(year, month) + 31
    ensures forall month :: month in {4, 6, 9, 11} ==> FirstOf(year, month + 1) == FirstOf(year, month) + 30
    ensures FirstOf(year, 3) == FirstOf(year, 2)
                                + if year % 4 == 0 && (year % 100 != 0 || year % 400 == 0) then 29 else 28
  {
    YearLength(year);
    assert forall month :: 1 <= month <= 13 ==>
      FirstOf(year, month) == DaysBeforeYear(year) + DaysBeforeMonth(year, month);
  }

  /** The days of a month follow its first. */
  lemma DaysFollow(d: Date)
    requires ValidDate(d)
    ensures DayNumber(d) == FirstOf(d.year, d.month) + d.day - 1
  {
  }

  /** Day 0 is 1 January of year 1, a Monday; the days of the week take turns. */
  lemma WeekdaysFollow(n: int)
    ensures DayNumber(Date(1, 1, 1)) == 0 && Weekday(0) == 1
    ensures Weekday(n + 1) == (Weekday(n) + 1) % 7
  {
  }

  /** The largest day a month can have in some year. */
  function LongestMonth(month: int): int
    requires 1 <= month <= 12
  {
    if month == 2 then 29 else DaysInMonth(1, month)
  }

  /** Some leap year, and some year that is not leap, starts on each day of the week. */
  lemma YearStarting(shift: int) returns (common: int, leap: int)
    requires 0 <= shift <= 6
    ensures !IsLeap(common) && DaysBeforeYear(common) % 7 == shift
    ensures IsLeap(leap) && DaysBeforeYear(leap) % 7 == shift
  {
    if shift == 0 {
      common, leap := 1, 24;
    } else if shift == 1 {
      common, leap := 2, 8;
    } else if shift == 2 {
      common, leap := 3, 20;
    } else if shift == 3 {
      common, leap := 9, 4;
    } else if shift == 4 {
      common, leap := 10, 16;
    } else if shift == 5 {
      common, leap := 5, 28;
    } else {
      common, leap := 6, 12;
    }
  }

  lemma WeekdayFrom(start: int, offset: int, weekday: int)
    requires 0 <= weekday <= 6 && start % 7 == (weekday - offset) % 7
    ensures (start + offset) % 7 == weekday
  {
  }

  /** Every day of every month, 29 February included, falls on every day of the week in some year. */
  lemma SomeYear(month: int, day: int, weekday: int) returns (year: int)
    requires 1 <= month <= 12 && 1 <= day <= LongestMonth(month)
    requires 0 <= weekday <= 6
    ensures ValidDate(Date(year, month, day))
    ensures Weekday(DayNumber(Date(year, month, day))) == weekday
  {
    var offset := DaysBeforeMonth(1, month) + day;
    var common, leap := YearStarting((weekday - offset) % 7);
    if month == 2 && day == 29 {
      year := leap;
    } else {
      year := common;
    }
    assert DaysBeforeMonth(year, month) == DaysBeforeMonth(1, month);
    WeekdayFrom(DaysBeforeYear(year), offset, weekday);
  }
}

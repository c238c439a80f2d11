/**
 The day rule of the search against that of the `crontab` utility (INPUT FILES
 section, POSIX.1-2017).
 */
module CronPosix {
  import opened Text
  import opened Calendar
  import opened CronSearch
  import opened CronLaws

  /** Which of the three fields that choose the days are written as a star. */
  datatype Stars = Stars(month: bool, day: bool, weekday: bool)

  /** The stars of an expression, as it is written. */
  function StarsOf(expr: string): Stars
    requires |Fields(expr)| == 5
  {
    Stars(Fields(expr)[3] == "*", Fields(expr)[2] == "*", Fields(expr)[4] == "*")
  }

  ghost predicate Date(s: Schedule, month: int, day: int) {
    month in s.months && day in s.days
  }

  /** A field written as a star accepts every value. */
  ghost predicate StarsOk(s: Schedule, stars: Stars) {
    && (stars.month ==> forall month :: 1 <= month <= 12 ==> month in s.months)
    && (stars.day ==> forall day :: 1 <= day <= 31 ==> day in s.days)
    && (stars.weekday ==> AllWeekdays(s))
  }

  ghost predicate AllWeekdays(s: Schedule) {
    forall weekday :: 0 <= weekday <= 6 ==> weekday in s.weekdays
  }

  ghost predicate AllDates(s: Schedule) {
    forall month, day :: 1 <= month <= 12 && 1 <= day <= LongestMonth(month) ==> Date(s, month, day)
  }

  /** The days of the utility: a restricted weekday is an alternative to a restricted month or day of month. */
  ghost predicate PosixDay(s: Schedule, stars: Stars, n: int) {
    var date, week := Date(s, Civil(n).month, Civil(n).day), Weekday(n) in s.weekdays;
    if stars.weekday then date else if stars.month && stars.day then week else date || week
  }

  ghost predicate Agree(s: Schedule, stars: Stars) {
    forall n :: PosixDay(s, stars, n) <==> DayMatches(s, n)
  }

  /** Every date that can occur falls on every weekday. */
  lemma OnSomeDay(month: int, day: int, weekday: int) returns (n: int)
    requires 1 <= month <= 12 && 1 <= day <= LongestMonth(month) && 0 <= weekday <= 6
    ensures Civil(n).month == month && Civil(n).day == day && Weekday(n) == weekday
  {
    var year := SomeYear(month, day, weekday);
    var d := Calendar.Date(year, month, day);
    CivilOfDayNumber(d);
    n := DayNumber(d);
  }

  lemma DateIsPossible(n: int)
    ensures 1 <= Civil(n).month <= 12 && 1 <= Civil(n).day <= LongestMonth(Civil(n).month) <= 31
    ensures 0 <= Weekday(n) <= 6
  {
  }

  lemma DateIsWeekday(s: Schedule, stars: Stars, month: int, day: int, weekday: int)
    requires Agree(s, stars) && !stars.weekday && !(stars.month && stars.day)
    requires 1 <= month <= 12 && 1 <= day <= LongestMonth(month) && 0 <= weekday <= 6
    ensures Date(s, month, day) <==> weekday in s.weekdays
  {
    var n := OnSomeDay(month, day, weekday);
    assert PosixDay(s, stars, n) <==> DayMatches(s, n);
  }

  lemma StarsAgree(s: Schedule, stars: Stars)
    requires StarsOk(s, stars)
    requires stars.weekday || (stars.month && stars.day)
    ensures Agree(s, stars)
  {
    forall n
      ensures PosixDay(s, stars, n) <==> DayMatches(s, n)
    {
      DateIsPossible(n);
    }
  }

  /** Every day, or no day at all. */
  ghost predicate AllOrNone(s: Schedule) {
    (AllDates(s) && AllWeekdays(s)) || (!SomeDate(s) && !Accepts(s.weekdays, 0, 6))
  }

  lemma AllOrNoneAgree(s: Schedule, stars: Stars)
    requires StarsOk(s, stars) && AllOrNone(s)
    ensures Agree(s, stars)
  {
    forall n
      ensures PosixDay(s, stars, n) <==> DayMatches(s, n)
    {
      DateIsPossible(n);
      assert Date(s, Civil(n).month, Civil(n).day) ==> SomeDate(s);
      assert Weekday(n) in s.weekdays ==> Accepts(s.weekdays, 0, 6);
    }
  }

  lemma AgreeingIsAllOrNone(s: Schedule, stars: Stars)
    requires Agree(s, stars) && !stars.weekday && !(stars.month && stars.day)
    ensures AllOrNone(s)
  {
    if Accepts(s.weekdays, 0, 6) {
      var weekday :| weekday in s.weekdays && 0 <= weekday <= 6;
      forall month, day | 1 <= month <= 12 && 1 <= day <= LongestMonth(month)
        ensures Date(s, month, day)
      {
        DateIsWeekday(s, stars, month, day, weekday);
      }
      forall other | 0 <= other <= 6
        ensures other in s.weekdays
      {
        DateIsWeekday(s, stars, 1, 1, other);
      }
    } else if SomeDate(s) {
      var month, day :| month in s.months && day in s.days && 1 <= month <= 12 && 1 <= day <= LongestMonth(month);
      DateIsWeekday(s, stars, month, day, 0);
    }
  }

  /** What is written as a star accepts every value. */
  lemma StarsOfAreOk(expr: string)
    requires ScheduleOf(expr).Some?
    ensures |Fields(expr)| == 5 && StarsOk(ScheduleOf(expr).value, StarsOf(expr))
  {
    StarField(2);
    StarField(3);
    StarField(4);
  }

  lemma StarsAgreeIff(s: Schedule, stars: Stars)
    requires StarsOk(s, stars)
    ensures Agree(s, stars) <==> stars.weekday || (stars.month && stars.day) || AllOrNone(s)
  {
    if stars.weekday || (stars.month && stars.day) {
      StarsAgree(s, stars);
    } else if AllOrNone(s) {
      AllOrNoneAgree(s, stars);
    } else if Agree(s, stars) {
      AgreeingIsAllOrNone(s, stars);
    }
  }

  /**
   On every accepted expression, the search and the utility choose the same days if
   and only if the weekday is written as a star, or month and day of month both are, or
   every day or no day is accepted anyway.
   */
  lemma PosixAgreesIff(expr: string)
    requires ScheduleOf(expr).Some?
    ensures |Fields(expr)| == 5
    ensures var s, stars := ScheduleOf(expr).value, StarsOf(expr);
            Agree(s, stars) <==> stars.weekday || (stars.month && stars.day) || AllOrNone(s)
  {
    StarsOfAreOk(expr);
    StarsAgreeIff(ScheduleOf(expr).value, StarsOf(expr));
  }
}

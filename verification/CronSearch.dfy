/**
 `ParseCron` and `CalculateNextRun` (pgk/parser/cron_expression_parser.go).

 A time is a number of nanoseconds since 1 January of year 1, 00:00 UTC. Inside
 the search every time is a whole minute and is held as a number of minutes.
 */
module CronSearch {
  import opened Text
  import opened CronField
  import opened Calendar

  const NS_PER_MINUTE: int := 60_000_000_000
  const NS_PER_HOUR: int := 60 * NS_PER_MINUTE
  const MINUTES_PER_DAY: int := 1440
  const BUDGET: int := 525600

  /******* Expressions *******/

  datatype CronExpr = CronExpr(minute: seq<int>, hour: seq<int>, dayOfMonth: seq<int>, month: seq<int>,
                               dayOfWeek: seq<int>)

  /** What an expression accepts, field by field. */
  datatype Schedule = Schedule(minutes: set<int>, hours: set<int>, days: set<int>, months: set<int>, weekdays: set<int>)

  /** The schedule that a text denotes, or None when it is rejected. */
  function ScheduleOf(expr: string): Option<Schedule> {
    var parts := Fields(expr);
    if |parts| != 5 then None
    else
      var minutes, hours := FieldSet(parts[0], 0, 59), FieldSet(parts[1], 0, 23);
      var days, months, weekdays := FieldSet(parts[2], 1, 31), FieldSet(parts[3], 1, 12), FieldSet(parts[4], 0, 6);
      if minutes.None? || hours.None? || days.None? || months.None? || weekdays.None? then None
      else Some(Schedule(minutes.value, hours.value, days.value, months.value, weekdays.value))
  }

  ghost predicate Represents(e: CronExpr, s: Schedule) {
    && StrictlyAscending(e.minute) && Elements(e.minute) == s.minutes
    && StrictlyAscending(e.hour) && Elements(e.hour) == s.hours
    && StrictlyAscending(e.dayOfMonth) && Elements(e.dayOfMonth) == s.days
    && StrictlyAscending(e.month) && Elements(e.month) == s.months
    && StrictlyAscending(e.dayOfWeek) && Elements(e.dayOfWeek) == s.weekdays
  }

  method ParseCron(expr: string) returns (r: Result<CronExpr>)
    ensures r.Ok? <==> ScheduleOf(expr).Some?
    ensures r.Ok? ==> Represents(r.value, ScheduleOf(expr).value)
  {
    var parts := Fields(expr);
    if |parts| != 5 { return Err; }
    var minute := ParsePart(parts[0], 0, 59);
    if minute.Err? { return Err; }
    var hour := ParsePart(parts[1], 0, 23);
    if hour.Err? { return Err; }
    var dayOfMonth := ParsePart(parts[2], 1, 31);
    if dayOfMonth.Err? { return Err; }
    var month := ParsePart(parts[3], 1, 12);
    if month.Err? { return Err; }
    var dayOfWeek := ParsePart(parts[4], 0, 6);
    if dayOfWeek.Err? { return Err; }
    return Ok(CronExpr(minute.value, hour.value, dayOfMonth.value, month.value, dayOfWeek.value));
  }

  /******* Matching minutes *******/

  function DayOf(t: int): int { t / MINUTES_PER_DAY }
  function HourOf(t: int): int { t % MINUTES_PER_DAY / 60 }
  function MinuteOf(t: int): int { t % 60 }

  /** The day is accepted: month, and day of month, and day of week. */
  ghost predicate DayMatches(s: Schedule, day: int) {
    && Civil(day).month in s.months
    && Civil(day).day in s.days
    && Weekday(day) in s.weekdays
  }

  ghost predicate Matches(s: Schedule, t: int) {
    DayMatches(s, DayOf(t)) && HourOf(t) in s.hours && MinuteOf(t) in s.minutes
  }

  ghost predicate Satisfiable(s: Schedule) {
    exists t :: Matches(s, t)
  }

  /******* The naive search *******/

  const ERA: int := DAYS_PER_ERA * MINUTES_PER_DAY

  lemma DayAndTime(day: int, time: int)
    requires 0 <= time < MINUTES_PER_DAY
    ensures var t := day * MINUTES_PER_DAY + time;
            DayOf(t) == day && t % MINUTES_PER_DAY == time && MinuteOf(t) == time % 60
  {
    assert day * MINUTES_PER_DAY + time == 60 * (24 * day + time / 60) + time % 60;
  }

  lemma OneEra(t: int)
    ensures var later := t + ERA;
            && DayOf(later) == DayOf(t) + DAYS_PER_ERA
            && HourOf(later) == HourOf(t)
            && MinuteOf(later) == MinuteOf(t)
  {
    DayAndTime(DayOf(t), t % MINUTES_PER_DAY);
    DayAndTime(DayOf(t) + DAYS_PER_ERA, t % MINUTES_PER_DAY);
  }

  lemma MatchesNextEra(s: Schedule, t: int)
    ensures Matches(s, t + ERA) == Matches(s, t)
  {
    CivilPeriodic(DayOf(t));
    OneEra(t);
  }

  /** What repeats every era is found in any era. */
  lemma {:induction false} Recurs(p: int -> bool, at: int, start: int) returns (t: int)
    requires forall k :: p(k + ERA) == p(k)
    requires p(at)
    ensures start <= t < start + ERA && p(t)
    decreases if at < start then start - at + ERA else at - start
  {
    if at < start {
      t := Recurs(p, at + ERA, start);
    } else if at >= start + ERA {
      assert p(at - ERA + ERA);
      t := Recurs(p, at - ERA, start);
    } else {
      t := at;
    }
  }

  /** A schedule that ever matches does so within 400 years of any start. */
  lemma MatchWithinEra(s: Schedule, start: int) returns (t: int)
    requires Satisfiable(s)
    ensures start <= t < start + ERA
    ensures Matches(s, t)
  {
    var m :| Matches(s, m);
    forall k
      ensures Matches(s, k + ERA) == Matches(s, k)
    {
      MatchesNextEra(s, k);
    }
    t := Recurs(k => Matches(s, k), m, start);
  }

  ghost predicate LeastFrom(s: Schedule, start: int, t: int) {
    start <= t && Matches(s, t) && forall k :: start <= k < t ==> !Matches(s, k)
  }

  lemma {:induction false} LeastMatch(s: Schedule, start: int, bound: int) returns (t: int)
    requires start <= bound && Matches(s, bound)
    ensures LeastFrom(s, start, t) && t <= bound
    decreases bound - start
  {
    if Matches(s, start) {
      t := start;
    } else {
      t := LeastMatch(s, start + 1, bound);
    }
  }

  /** The first whole minute after a time. */
  function NextMinute(from: int): (t: int)
    ensures (t - 1) * NS_PER_MINUTE <= from < t * NS_PER_MINUTE
  {
    (from + NS_PER_MINUTE) / NS_PER_MINUTE
  }

  /** The minute-by-minute scan from the minute after `from`. */
  ghost function FirstMatch(s: Schedule, from: int): (t: int)
    requires Satisfiable(s)
    ensures LeastFrom(s, NextMinute(from), t)
  {
    assert exists t :: LeastFrom(s, NextMinute(from), t) by {
      var bound := MatchWithinEra(s, NextMinute(from));
      var least := LeastMatch(s, NextMinute(from), bound);
    }
    var t :| LeastFrom(s, NextMinute(from), t);
    t
  }

  /** The next run: the first matching minute, or one hour on when there is none at all. */
  ghost function NextRun(expr: string, from: int): int {
    match ScheduleOf(expr)
    case None => from + NS_PER_HOUR
    case Some(s) => if Satisfiable(s) then FirstMatch(s, from) * NS_PER_MINUTE else from + NS_PER_HOUR
  }

  /******* The skips *******/

  lemma DaySpan(t: int)
    ensures DayOf(t) * MINUTES_PER_DAY <= t < (DayOf(t) + 1) * MINUTES_PER_DAY
  {
  }

  /** A whole stretch of days without a matching day holds no match. */
  lemma SkipDays(s: Schedule, t: int, nextDay: int)
    requires forall day :: DayOf(t) <= day < nextDay ==> !DayMatches(s, day)
    ensures forall k :: t <= k < nextDay * MINUTES_PER_DAY ==> !Matches(s, k)
  {
    forall k | t <= k < nextDay * MINUTES_PER_DAY
      ensures !Matches(s, k)
    {
      assert DayOf(t) <= DayOf(k) < nextDay;
    }
  }

  lemma SkipMonth(s: Schedule, t: int)
    requires Civil(DayOf(t)).month !in s.months
    ensures var next := AddDate(DayOf(t), 0, 1, 1 - Civil(DayOf(t)).day);
            && DayOf(t) < next
            && forall k :: t <= k < next * MINUTES_PER_DAY ==> !Matches(s, k)
  {
    FirstOfNextMonth(DayOf(t));
    SkipDays(s, t, AddDate(DayOf(t), 0, 1, 1 - Civil(DayOf(t)).day));
  }

  lemma SkipHour(s: Schedule, t: int)
    requires HourOf(t) !in s.hours
    ensures forall k :: t <= k < t + 60 - MinuteOf(t) ==> !Matches(s, k)
  {
    forall k | t <= k < t + 60 - MinuteOf(t)
      ensures !Matches(s, k)
    {
      SameHour(t, k);
    }
  }

  lemma SameHour(t: int, k: int)
    requires t <= k < t + 60 - MinuteOf(t)
    ensures HourOf(k) == HourOf(t)
  {
    var h := t / 60;
    assert t == 60 * h + MinuteOf(t);
    assert k / 60 == h;
    HourOfDay(t);
    HourOfDay(k);
  }

  lemma HourOfDay(t: int)
    ensures HourOf(t) == t / 60 % 24
  {
    assert t / 60 == 24 * DayOf(t) + HourOf(t);
  }

  /******* The budget *******/

  /**
   An upper bound on the iterations spent when the search stands at `t`: one for
   every day left behind, and minutes only on the first day and on the day of the match.
   */
  function Spent(start: int, goal: int, t: int): int {
    (DayOf(t) - DayOf(start))
    + (if DayOf(t) == DayOf(start) then t - start else MINUTES_PER_DAY)
    + (if DayOf(t) == DayOf(goal) then t - DayOf(goal) * MINUTES_PER_DAY else 0)
  }

  lemma SpentWithinBudget(start: int, goal: int, t: int)
    requires start <= t <= goal < start + ERA
    ensures Spent(start, goal, t) < BUDGET
  {
    assert DayOf(t) - DayOf(start) <= DAYS_PER_ERA;
    DaySpan(t);
  }

  /** Moving to a later midnight pays for the iteration. */
  lemma DayStepPaid(start: int, goal: int, t: int, nextDay: int)
    requires start <= t && DayOf(t) < nextDay && nextDay * MINUTES_PER_DAY <= goal
    ensures Spent(start, goal, t) + 1 <= Spent(start, goal, nextDay * MINUTES_PER_DAY)
  {
    DaySpan(t);
    DaySpan(start);
    assert DayOf(nextDay * MINUTES_PER_DAY) == nextDay;
  }

  /** On a matching day strictly between the start and the goal there would be an earlier match. */
  lemma NoMatchingDayBetween(s: Schedule, start: int, goal: int, day: int)
    requires LeastFrom(s, start, goal)
    requires DayMatches(s, day)
    requires DayOf(start) < day
    ensures DayOf(goal) <= day
  {
    var minuteOfDay := goal % MINUTES_PER_DAY;
    var t := day * MINUTES_PER_DAY + minuteOfDay;
    assert DayOf(t) == day && t % MINUTES_PER_DAY == minuteOfDay;
    assert HourOf(t) == HourOf(goal);
    MinuteOfDay(t);
    MinuteOfDay(goal);
    assert Matches(s, t);
    DaySpan(start);
  }

  lemma MinuteOfDay(t: int)
    ensures MinuteOf(t) == t % MINUTES_PER_DAY % 60
  {
    var r := t % MINUTES_PER_DAY;
    assert t == 60 * (24 * DayOf(t) + r / 60) + r % 60;
  }

  /** An hour or minute step pays for itself, because it happens only on the first or the last day. */
  lemma TimeStepPaid(s: Schedule, start: int, goal: int, t: int, next: int)
    requires LeastFrom(s, start, goal)
    requires start <= t < next <= goal
    requires DayMatches(s, DayOf(t))
    requires next <= (DayOf(t) + 1) * MINUTES_PER_DAY
    ensures Spent(start, goal, t) + 1 <= Spent(start, goal, next)
  {
    DaySpan(t);
    DaySpan(start);
    if next == (DayOf(t) + 1) * MINUTES_PER_DAY {
      DayStepPaid(start, goal, t, DayOf(t) + 1);
    } else if DayOf(t) > DayOf(start) {
      NoMatchingDayBetween(s, start, goal, DayOf(t));
      assert DayOf(t) <= DayOf(goal);
    }
  }

  lemma HourStepInDay(t: int)
    ensures t < t + 60 - MinuteOf(t) <= (DayOf(t) + 1) * MINUTES_PER_DAY
    ensures t + 1 <= (DayOf(t) + 1) * MINUTES_PER_DAY
  {
    assert t - MinuteOf(t) == 60 * (t / 60);
    assert t / 60 < (DayOf(t) + 1) * 24;
  }

  /******* The search *******/

  lemma MembershipOf(e: CronExpr, s: Schedule, t: int, d: Date)
    requires Represents(e, s) && d == Civil(DayOf(t))
    ensures Contains(e.month, d.month) <==> d.month in s.months
    ensures Contains(e.dayOfMonth, d.day) <==> d.day in s.days
    ensures Contains(e.dayOfWeek, Weekday(DayOf(t))) <==> Weekday(DayOf(t)) in s.weekdays
    ensures Contains(e.hour, HourOf(t)) <==> HourOf(t) in s.hours
    ensures Contains(e.minute, MinuteOf(t)) <==> MinuteOf(t) in s.minutes
  {
    ContainsIsMembership(e.month, d.month);
    ContainsIsMembership(e.dayOfMonth, d.day);
    ContainsIsMembership(e.dayOfWeek, Weekday(DayOf(t)));
    ContainsIsMembership(e.hour, HourOf(t));
    ContainsIsMembership(e.minute, MinuteOf(t));
  }

  /** The search may go on at `next`: no match is passed, and the step is to a midnight or within a matching day. */
  ghost predicate Skips(s: Schedule, t: int, next: int) {
    && t < next && (forall k :: t <= k < next ==> !Matches(s, k))
    && (|| (next % MINUTES_PER_DAY == 0 && DayOf(t) < DayOf(next))
        || (DayMatches(s, DayOf(t)) && next <= (DayOf(t) + 1) * MINUTES_PER_DAY))
  }

  lemma MidnightSkips(s: Schedule, t: int, nextDay: int)
    requires DayOf(t) < nextDay
    requires forall k :: t <= k < nextDay * MINUTES_PER_DAY ==> !Matches(s, k)
    ensures Skips(s, t, nextDay * MINUTES_PER_DAY)
  {
    DaySpan(t);
    DayAndTime(nextDay, 0);
  }

  lemma MonthSkips(s: Schedule, t: int, nextDay: int)
    requires Civil(DayOf(t)).month !in s.months
    requires nextDay == AddDate(DayOf(t), 0, 1, 1 - Civil(DayOf(t)).day)
    ensures Skips(s, t, nextDay * MINUTES_PER_DAY)
  {
    SkipMonth(s, t);
    MidnightSkips(s, t, nextDay);
  }

  lemma DaySkips(s: Schedule, t: int, nextDay: int)
    requires Civil(DayOf(t)).day !in s.days || Weekday(DayOf(t)) !in s.weekdays
    requires nextDay == DayOf(t) + 1
    ensures Skips(s, t, nextDay * MINUTES_PER_DAY)
  {
    SkipDays(s, t, nextDay);
    MidnightSkips(s, t, nextDay);
  }

  lemma TimeSkips(s: Schedule, t: int)
    requires DayMatches(s, DayOf(t))
    ensures HourOf(t) !in s.hours ==> Skips(s, t, t + 60 - MinuteOf(t))
    ensures MinuteOf(t) !in s.minutes ==> Skips(s, t, t + 1)
  {
    HourStepInDay(t);
    if HourOf(t) !in s.hours {
      SkipHour(s, t);
    }
  }

  /** Time `t` moved to another day by `AddDate`, then cut by `Truncate(24 * time.Hour)`. */
  function MidnightOf(day: int, t: int): (midnight: int)
    ensures midnight == day * MINUTES_PER_DAY
  {
    var moved := day * MINUTES_PER_DAY + t % MINUTES_PER_DAY;
    moved - moved % MINUTES_PER_DAY
  }

  /** One pass of the loop body: whether `t` matches and, if not, where the search goes on. */
  method Advance(e: CronExpr, t: int, ghost s: Schedule) returns (found: bool, next: int)
    requires Represents(e, s)
    ensures found ==> next == t && Matches(s, t)
    ensures !found ==> Skips(s, t, next)
  {
    var day := DayOf(t);
    var d := DateOf(day);
    MembershipOf(e, s, t, d);
    if !Contains(e.month, d.month) {
      var nextDay := Normalize(d.year, d.month + 1, d.day + (-d.day + 1));
      MonthSkips(s, t, nextDay);
      return false, MidnightOf(nextDay, t);
    }
    if !Contains(e.dayOfMonth, d.day) || !Contains(e.dayOfWeek, Weekday(day)) {
      var nextDay := Normalize(d.year, d.month, d.day + 1);
      AddOneDay(day);
      DaySkips(s, t, nextDay);
      return false, MidnightOf(nextDay, t);
    }
    TimeSkips(s, t);
    if !Contains(e.hour, HourOf(t)) {
      return false, t + 60 - MinuteOf(t);
    }
    if Contains(e.minute, MinuteOf(t)) {
      return true, t;
    }
    return false, t + 1;
  }

  /** The skipping search is the naive one: its budget always suffices, and no skip passes a match. */
  method CalculateNextRun(expr: string, from: int) returns (next: int)
    ensures next == NextRun(expr, from)
  {
    var parsed := ParseCron(expr);
    if parsed.Err? {
      return from + NS_PER_HOUR;
    }
    ghost var s := ScheduleOf(expr).value;
    var t := NextMinute(from);
    ghost var start, goal := t, t;
    if Satisfiable(s) {
      goal := FirstMatch(s, from);
      GoalWithinEra(s, start, goal);
    }
    var i := 0;
    while i < BUDGET
      invariant 0 <= i <= BUDGET
      invariant Satisfiable(s) ==> OnTrack(s, start, goal, t, i)
    {
      var found, later := Advance(parsed.value, t, s);
      if found {
        assert Satisfiable(s);
        assert t == goal;
        return t * NS_PER_MINUTE;
      }
      if Satisfiable(s) {
        StepPaid(s, start, goal, t, later);
      }
      t, i := later, i + 1;
    }
    if Satisfiable(s) {
      SpentWithinBudget(start, goal, t);
      assert false;
    }
    return from + NS_PER_HOUR;
  }

  /** The search has not passed the goal, and its iterations are paid for. */
  ghost predicate OnTrack(s: Schedule, start: int, goal: int, t: int, i: int) {
    && LeastFrom(s, start, goal) && goal < start + ERA
    && start <= t <= goal && i <= Spent(start, goal, t)
  }

  lemma GoalWithinEra(s: Schedule, start: int, goal: int)
    requires Satisfiable(s) && LeastFrom(s, start, goal)
    ensures goal < start + ERA
    ensures Spent(start, goal, start) >= 0
  {
    var bound := MatchWithinEra(s, start);
    DaySpan(start);
  }

  lemma StepPaid(s: Schedule, start: int, goal: int, t: int, next: int)
    requires LeastFrom(s, start, goal) && start <= t <= goal
    requires Skips(s, t, next)
    ensures next <= goal
    ensures Spent(start, goal, t) + 1 <= Spent(start, goal, next)
  {
    if next % MINUTES_PER_DAY == 0 && DayOf(t) < DayOf(next) {
      DayStepPaid(start, goal, t, DayOf(next));
    } else {
      TimeStepPaid(s, start, goal, t, next);
    }
  }
}

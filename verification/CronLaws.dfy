/** Laws of the cron parser and the search together. */
module CronLaws {
  import opened Text
  import opened CronField
  import opened CronGrammar
  import opened CronSearch
  import opened Calendar

  /******* When a schedule ever matches *******/

  ghost predicate Accepts(values: set<int>, min: int, max: int) {
    exists v :: v in values && min <= v <= max
  }

  /** Some accepted day exists in the calendar, 29 February included. */
  ghost predicate SomeDate(s: Schedule) {
    exists month, day :: month in s.months && day in s.days && 1 <= month <= 12 && 1 <= day <= LongestMonth(month)
  }

  /**
   A schedule has a matching minute exactly when every field accepts a possible
   value and some accepted day exists in some accepted month.
   */
  lemma SatisfiableIff(s: Schedule)
    ensures Satisfiable(s)
            <==> && Accepts(s.minutes, 0, 59) && Accepts(s.hours, 0, 23) && Accepts(s.weekdays, 0, 6)
                 && SomeDate(s)
  {
    if Satisfiable(s) {
      var t :| Matches(s, t);
      assert MinuteOf(t) in s.minutes && HourOf(t) in s.hours && Weekday(DayOf(t)) in s.weekdays;
      var d := Civil(DayOf(t));
      assert d.month in s.months && d.day in s.days && 1 <= d.day <= LongestMonth(d.month);
    }
    if Accepts(s.minutes, 0, 59) && Accepts(s.hours, 0, 23) && Accepts(s.weekdays, 0, 6) && SomeDate(s) {
      var minute :| minute in s.minutes && 0 <= minute <= 59;
      var hour :| hour in s.hours && 0 <= hour <= 23;
      var weekday :| weekday in s.weekdays && 0 <= weekday <= 6;
      var month, day :| month in s.months && day in s.days && 1 <= month <= 12 && 1 <= day <= LongestMonth(month);
      var year := SomeYear(month, day, weekday);
      MatchAt(s, Date(year, month, day), hour, minute);
    }
  }

  lemma MatchAt(s: Schedule, d: Date, hour: int, minute: int)
    requires ValidDate(d) && d.month in s.months && d.day in s.days
    requires Weekday(DayNumber(d)) in s.weekdays
    requires 0 <= hour <= 23 && hour in s.hours
    requires 0 <= minute <= 59 && minute in s.minutes
    ensures Satisfiable(s)
  {
    CivilOfDayNumber(d);
    var t := DayNumber(d) * MINUTES_PER_DAY + hour * 60 + minute;
    assert DayOf(t) == DayNumber(d);
    assert t % MINUTES_PER_DAY == hour * 60 + minute;
    MinuteOfDay(t);
    assert Matches(s, t);
  }

  /** What the fields of a schedule stand for: the minute, hour, day, month and weekday of the moment. */
  lemma MatchesIff(s: Schedule, d: Date, hour: int, minute: int)
    requires ValidDate(d) && 0 <= hour <= 23 && 0 <= minute <= 59
    ensures Matches(s, DayNumber(d) * 1440 + hour * 60 + minute)
            <==> && minute in s.minutes && hour in s.hours && d.day in s.days && d.month in s.months
                 && Weekday(DayNumber(d)) in s.weekdays
  {
    CivilOfDayNumber(d);
    DayAndTime(DayNumber(d), hour * 60 + minute);
  }

  /******* What a run time is *******/

  /** The fallback is one hour, in nanoseconds, and is taken exactly when there is no matching minute to run at. */
  lemma FallbackIff(expr: string, from: int)
    ensures ScheduleOf(expr).None? || !Satisfiable(ScheduleOf(expr).value) ==>
              NextRun(expr, from) == from + 3_600_000_000_000
    ensures ScheduleOf(expr).Some? && Satisfiable(ScheduleOf(expr).value) ==>
              exists t :: Matches(ScheduleOf(expr).value, t) && NextRun(expr, from) == t * 60_000_000_000
  {
    if ScheduleOf(expr).Some? && Satisfiable(ScheduleOf(expr).value) {
      var t := NextRunIsFirst(expr, from);
    }
  }

  /** A matching minute after `from` that no earlier one precedes is the next run. */
  lemma NextRunIs(expr: string, s: Schedule, from: int, target: int)
    requires ScheduleOf(expr) == Some(s) && Matches(s, target) && from < target * 60_000_000_000
    requires forall t :: Matches(s, t) && from < t * 60_000_000_000 ==> target <= t
    ensures NextRun(expr, from) == target * 60_000_000_000
  {
    var first := NextRunIsFirst(expr, from);
    assert target <= first;
  }

  /** The next run is always later than the time it is computed from. */
  lemma NextRunIsLater(expr: string, from: int)
    ensures from < NextRun(expr, from)
  {
    var s := ScheduleOf(expr);
    if s.Some? && Satisfiable(s.value) {
      var t := FirstMatch(s.value, from);
      assert NextMinute(from) <= t;
    }
  }

  /** On a satisfiable expression the next run is a matching minute, and the first one after `from`. */
  lemma NextRunIsFirst(expr: string, from: int) returns (first: int)
    requires ScheduleOf(expr).Some? && Satisfiable(ScheduleOf(expr).value)
    ensures NextRun(expr, from) == first * NS_PER_MINUTE
    ensures from < first * NS_PER_MINUTE && Matches(ScheduleOf(expr).value, first)
    ensures forall t :: Matches(ScheduleOf(expr).value, t) && from < t * NS_PER_MINUTE ==> first <= t
  {
    var s := ScheduleOf(expr).value;
    first := FirstMatch(s, from);
    forall t | Matches(s, t) && from < t * NS_PER_MINUTE
      ensures first <= t
    {
      assert NextMinute(from) <= t;
    }
  }

  /******* Printing a whole expression *******/

  /** A field that a user may write: valid tokens, and a stepped star only alone or not first. */
  predicate FieldOk(ts: seq<Token>, min: int, max: int) {
    ts != [] && TokensOk(ts, min, max) && !(ts[0].StepAll? && |ts| > 1)
  }

  lemma FieldText(ts: seq<Token>, min: int, max: int)
    requires Bounds(min, max) && FieldOk(ts, min, max)
    ensures forall i :: 0 <= i < |ts| ==> Printable(ts[i])
    ensures RenderField(ts) != [] && NoSpace(RenderField(ts))
    ensures FieldSet(RenderField(ts), min, max) == Some(UnionOf(ts, min, max))
  {
    FieldRoundTrip(ts, min, max);
    NoSpaceInField(ts);
  }

  lemma {:induction false} NoSpaceInField(ts: seq<Token>)
    requires ts != [] && forall i :: 0 <= i < |ts| ==> Printable(ts[i])
    ensures RenderField(ts) != [] && NoSpace(RenderField(ts))
  {
    RenderShape(ts[0]);
    if |ts| > 1 {
      assert RenderAll(ts)[1..] == RenderAll(ts[1..]);
      NoSpaceInField(ts[1..]);
      assert !IsSpace(',');
    }
  }

  /** The bounds of the five fields: minute, hour, day of month, month, day of week. */
  function FieldMin(i: int): int { if i == 2 || i == 3 then 1 else 0 }
  function FieldMax(i: int): int {
    if i == 0 then 59 else if i == 1 then 23 else if i == 2 then 31 else if i == 3 then 12 else 6
  }

  /** How a field is written: as a star, or as a list of tokens. */
  datatype Form = Star | List(ts: seq<Token>)

  ghost predicate Prints(part: string, form: Form, i: int, values: set<int>) {
    match form
    case Star => part == "*" && values == Every(i)
    case List(ts) =>
      && FieldOk(ts, FieldMin(i), FieldMax(i)) && values == UnionOf(ts, FieldMin(i), FieldMax(i))
      && (forall k :: 0 <= k < |ts| ==> Printable(ts[k])) && part == RenderField(ts)
  }

  ghost predicate Reads(part: string, i: int, values: set<int>) {
    part != [] && NoSpace(part) && FieldSet(part, FieldMin(i), FieldMax(i)) == Some(values)
  }

  /** All values of field `i`. */
  function Every(i: int): set<int> {
    Interval(FieldMin(i), FieldMax(i))
  }

  lemma StarField(i: int)
    requires 0 <= i < 5
    ensures Reads("*", i, Every(i))
  {
  }

  lemma PrintedField(part: string, form: Form, i: int, values: set<int>)
    requires 0 <= i < 5 && Prints(part, form, i, values)
    ensures Reads(part, i, values)
  {
    match form
    case Star => StarField(i);
    case List(ts) => FieldText(ts, FieldMin(i), FieldMax(i));
  }

  lemma ScheduleOfFields(text: string, parts: seq<string>, sets: seq<set<int>>)
    requires |parts| == |sets| == 5 && Fields(text) == parts
    requires forall i :: 0 <= i < 5 ==> Reads(parts[i], i, sets[i])
    ensures ScheduleOf(text) == Some(Schedule(sets[0], sets[1], sets[2], sets[3], sets[4]))
  {
  }

  /** An expression is accepted exactly when each of its five fields is, within its own bounds. */
  lemma AcceptedIff(text: string, parts: seq<string>)
    requires Fields(text) == parts
    ensures ScheduleOf(text).Some?
            <==> |parts| == 5 && forall i :: 0 <= i < 5 ==> FieldSet(parts[i], FieldMin(i), FieldMax(i)).Some?
  {
  }

  lemma ScheduleOfSpaced(parts: seq<string>, gaps: seq<string>, sets: seq<set<int>>)
    requires |parts| == |sets| == 5 && |gaps| == 6 && GapsOk(gaps)
    requires forall i :: 0 <= i < 5 ==> Reads(parts[i], i, sets[i])
    ensures ScheduleOf(Spaced(parts, gaps)) == Some(Schedule(sets[0], sets[1], sets[2], sets[3], sets[4]))
  {
    FieldsOfSpaced(parts, gaps);
    ScheduleOfFields(Spaced(parts, gaps), parts, sets);
  }

  /** Every printed expression, however spaced, is accepted and denotes its stars and the unions of its tokens. */
  lemma ExpressionRoundTrip(parts: seq<string>, gaps: seq<string>, forms: seq<Form>, sets: seq<set<int>>)
    requires |parts| == |forms| == |sets| == 5 && |gaps| == 6 && GapsOk(gaps)
    requires forall i :: 0 <= i < 5 ==> Prints(parts[i], forms[i], i, sets[i])
    ensures ScheduleOf(Spaced(parts, gaps)) == Some(Schedule(sets[0], sets[1], sets[2], sets[3], sets[4]))
  {
    forall i | 0 <= i < 5
      ensures Reads(parts[i], i, sets[i])
    {
      PrintedField(parts[i], forms[i], i, sets[i]);
    }
    ScheduleOfSpaced(parts, gaps, sets);
  }

  /** 31 February never comes, so the search gives up and waits one hour. */
  lemma NoSuchDay(parts: seq<string>, gaps: seq<string>, sets: seq<set<int>>, from: int)
    requires |parts| == |sets| == 5 && |gaps| == 6 && GapsOk(gaps)
    requires forall i :: 0 <= i < 5 ==> Reads(parts[i], i, sets[i])
    requires sets[2] == {31} && sets[3] == {2}
    ensures NextRun(Spaced(parts, gaps), from) == from + NS_PER_HOUR
  {
    ScheduleOfSpaced(parts, gaps, sets);
    SatisfiableIff(Schedule(sets[0], sets[1], sets[2], sets[3], sets[4]));
  }
}

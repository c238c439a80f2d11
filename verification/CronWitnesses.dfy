/** Inputs on which the parser and the search differ from what one expects. */
module CronWitnesses {
  import opened Text
  import opened Calendar
  import opened CronField
  import opened CronGrammar
  import opened CronSearch
  import opened CronLaws
  import CronPosix

  lemma Decimals()
    ensures Itoa(0) == "0" && Itoa(1) == "1" && Itoa(2) == "2" && Itoa(5) == "5"
    ensures Itoa(10) == "10" && Itoa(13) == "13" && Itoa(31) == "31"
  {
    assert Itoa(3) == "3";
    assert Itoa(10) == Itoa(1) + "0" && Itoa(13) == Itoa(1) + "3" && Itoa(31) == Itoa(3) + "1";
  }

  lemma OneToken(t: Token, min: int, max: int)
    requires Bounds(min, max) && TokenOk(t, min, max)
    ensures Printable(t) && FieldSet(Render(t), min, max) == Some(Meaning(t, min, max))
  {
    FieldRoundTrip([t], min, max);
    assert [t][0] == t;
    assert RenderField([t]) == Render(t);
    assert UnionOf([t], min, max) == Meaning(t, min, max);
  }

  /** A stepped range that does not start at 0 is accepted and means nothing. */
  lemma SteppedRangeIsEmpty(text: string)
    requires text == "1-10/2"
    ensures FieldSet(text, 0, 59) == Some({})
  {
    Decimals();
    OneToken(StepRange(1, 10, 2), 0, 59);
    assert text == Render(StepRange(1, 10, 2));
  }

  /** A stepped star is rejected in front of another token ... */
  lemma StarMayNotStandFirst()
    ensures FieldSet("*/5,1", 0, 59) == None
  {
    var part := "*/5,1";
    assert part[2..] == "5,1" && !IsDigit("5,1"[1]);
    assert Atoi("5,1") == None;
  }

  lemma TwoTokens(a: Token, b: Token)
    requires Printable(a) && Printable(b)
    ensures RenderField([a, b]) == Render(a) + [','] + Render(b)
  {
    var parts := RenderAll([a, b]);
    assert parts == [Render(a), Render(b)];
    assert parts[1..] == [Render(b)];
    assert Join(parts[1..], ',') == Render(b);
    assert Join(parts, ',') == parts[0] + [','] + Join(parts[1..], ',');
  }

  /** ... and accepted behind it. */
  lemma StarMayStandLast(text: string)
    requires text == "1,*/5"
    ensures FieldSet(text, 0, 59).Some?
  {
    Decimals();
    var ts := [Value(1), StepAll(5)];
    TwoTokens(Value(1), StepAll(5));
    assert text == Render(Value(1)) + [','] + Render(StepAll(5));
    FieldRoundTrip(ts, 0, 59);
  }

  /** The largest step wraps around to the smallest integer. */
  lemma StepWrapsAround()
    ensures var text := "1/" + Itoa(MAX_INT64);
            FieldSet(text, 0, 59).Some? && MIN_INT64 in FieldSet(text, 0, 59).value
  {
    Decimals();
    var t := StepFrom(1, MAX_INT64);
    OneToken(t, 0, 59);
    assert Render(t) == "1/" + Itoa(MAX_INT64);
    SteppedMeaning(1, 59, MAX_INT64);
  }

  lemma ValueField(n: nat, i: int)
    requires 0 <= i < 5 && FieldMin(i) <= n <= FieldMax(i)
    ensures Reads(Itoa(n), i, {n})
  {
    OneToken(Value(n), FieldMin(i), FieldMax(i));
    RenderShape(Value(n));
  }

  predicate Word(s: string) {
    s != [] && NoSpace(s)
  }

  lemma NextWord(a: string, rest: string)
    requires Word(a)
    ensures Fields(a + (" " + rest)) == [a] + Fields(rest)
  {
    FieldsWord(a, " " + rest);
    FieldsSkip(" ", rest);
  }

  function Line(a: string, b: string, c: string, d: string, e: string): string {
    a + (" " + (b + (" " + (c + (" " + (d + (" " + e)))))))
  }

  lemma {:induction false} FiveWords(a: string, b: string, c: string, d: string, e: string)
    requires Word(a) && Word(b) && Word(c) && Word(d) && Word(e)
    ensures Fields(Line(a, b, c, d, e)) == [a, b, c, d, e]
  {
    var de := d + (" " + e);
    var cde := c + (" " + de);
    var bcde := b + (" " + cde);
    FieldsWord(e, []);
    assert e + [] == e;
    assert Fields(e) == [e];
    NextWord(d, e);
    assert Fields(de) == [d, e];
    NextWord(c, de);
    assert Fields(cde) == [c, d, e];
    NextWord(b, cde);
    assert Fields(bcde) == [b, c, d, e];
    NextWord(a, bcde);
  }

  /** An expression of plain numbers, with a star at some fields. */
  function PartAt(numbers: seq<nat>, stars: set<int>, i: nat): string
    requires |numbers| == 5 && i < 5
  {
    if i in stars then "*" else Itoa(numbers[i])
  }

  function SetAt(numbers: seq<nat>, stars: set<int>, i: nat): set<int>
    requires |numbers| == 5 && i < 5
  {
    if i in stars then Every(i) else {numbers[i]}
  }

  function Plain(numbers: seq<nat>, stars: set<int>): Schedule
    requires |numbers| == 5
  {
    Schedule(SetAt(numbers, stars, 0), SetAt(numbers, stars, 1), SetAt(numbers, stars, 2), SetAt(numbers, stars, 3),
             SetAt(numbers, stars, 4))
  }

  lemma PlainExpression(text: string, numbers: seq<nat>, stars: set<int>)
    requires |numbers| == 5 && forall i :: 0 <= i < 5 ==> FieldMin(i) <= numbers[i] <= FieldMax(i)
    requires Fields(text) == seq(5, i requires 0 <= i < 5 => PartAt(numbers, stars, i))
    ensures ScheduleOf(text) == Some(Plain(numbers, stars))
  {
    var parts := seq(5, i requires 0 <= i < 5 => PartAt(numbers, stars, i));
    var sets := seq(5, i requires 0 <= i < 5 => SetAt(numbers, stars, i));
    forall i | 0 <= i < 5
      ensures Reads(parts[i], i, sets[i])
    {
      if i in stars {
        StarField(i);
      } else {
        ValueField(numbers[i], i);
      }
    }
    ScheduleOfFields(text, parts, sets);
  }

  lemma ThirteenthDiffers(s: Schedule)
    requires s.days == {13} && s.months == Every(3) && s.weekdays == {5}
    ensures !CronPosix.Agree(s, CronPosix.Stars(true, false, false))
  {
    CronPosix.StarsAgreeIff(s, CronPosix.Stars(true, false, false));
    assert 5 in s.weekdays && 6 !in s.weekdays;
  }

  lemma PlainWords(text: string, numbers: seq<nat>, stars: set<int>)
    requires |numbers| == 5
    requires text == Line(PartAt(numbers, stars, 0), PartAt(numbers, stars, 1), PartAt(numbers, stars, 2),
                          PartAt(numbers, stars, 3), PartAt(numbers, stars, 4))
    ensures Fields(text) == seq(5, i requires 0 <= i < 5 => PartAt(numbers, stars, i))
  {
    forall i: nat | i < 5
      ensures Word(PartAt(numbers, stars, i))
    {
    }
    var parts := seq(5, i requires 0 <= i < 5 => PartAt(numbers, stars, i));
    FiveWords(parts[0], parts[1], parts[2], parts[3], parts[4]);
    assert parts == [parts[0], parts[1], parts[2], parts[3], parts[4]];
  }

  /** `0 0 13 * 5` waits for a Friday the thirteenth, where the utility takes every Friday and every thirteenth. */
  lemma FridayTheThirteenth(text: string, numbers: seq<nat>)
    requires text == "0 0 13 * 5" && numbers == [0, 0, 13, 1, 5]
    ensures ScheduleOf(text) == Some(Plain(numbers, {3})) && |Fields(text)| == 5
    ensures !CronPosix.Agree(Plain(numbers, {3}), CronPosix.StarsOf(text))
  {
    Decimals();
    PlainWords(text, numbers, {3});
    PlainExpression(text, numbers, {3});
    assert Fields(text)[2] == "13" && Fields(text)[3] == "*" && Fields(text)[4] == "5";
    ThirteenthDiffers(Plain(numbers, {3}));
  }

  /** `0 0 31 2 *` is accepted and never matches. */
  lemma LastOfFebruary(text: string, numbers: seq<nat>, from: int)
    requires text == "0 0 31 2 *" && numbers == [0, 0, 31, 2, 0]
    ensures ScheduleOf(text) == Some(Plain(numbers, {4}))
    ensures NextRun(text, from) == from + NS_PER_HOUR
  {
    Decimals();
    PlainWords(text, numbers, {4});
    PlainExpression(text, numbers, {4});
    SatisfiableIff(Plain(numbers, {4}));
  }

  /******* Runs at known dates *******/

  /** The minute of a date and a time of day. */
  function At(d: Date, hour: int, minute: int): int
    requires ValidDate(d)
  {
    DayNumber(d) * 1440 + hour * 60 + minute
  }

  /** 20 June 2025 was a Friday, 23 June a Monday. */
  lemma JuneOf2025()
    ensures DayNumber(Date(2025, 6, 20)) == 739421 && DayNumber(Date(2025, 6, 23)) == 739424
    ensures Weekday(739421) == 5 && Weekday(739422) == 6 && Weekday(739423) == 0 && Weekday(739424) == 1
  {
  }

  lemma MondaysAtNine(s: Schedule, t: int)
    requires s.minutes == {0} && s.hours == {9} && s.weekdays == {1} && Matches(s, t) && t >= 739421 * 1440 + 540
    ensures t >= 739424 * 1440 + 540
  {
    JuneOf2025();
    DaySpan(t);
    assert t == DayOf(t) * 1440 + 540 by {
      MinuteOfDay(t);
    }
    assert DayOf(t) >= 739421 && Weekday(DayOf(t)) == 1;
  }

  lemma PlainText(text: string, numbers: seq<nat>, stars: set<int>)
    requires |numbers| == 5 && forall i :: 0 <= i < 5 ==> FieldMin(i) <= numbers[i] <= FieldMax(i)
    requires text == Line(PartAt(numbers, stars, 0), PartAt(numbers, stars, 1), PartAt(numbers, stars, 2),
                          PartAt(numbers, stars, 3), PartAt(numbers, stars, 4))
    ensures ScheduleOf(text) == Some(Plain(numbers, stars))
  {
    PlainWords(text, numbers, stars);
    PlainExpression(text, numbers, stars);
  }

  lemma MondayText(text: string) returns (s: Schedule)
    requires text == "0 9 * * 1"
    ensures ScheduleOf(text) == Some(s)
    ensures s.minutes == {0} && s.hours == {9} && s.days == Every(2) && s.months == Every(3) && s.weekdays == {1}
  {
    Decimals();
    var numbers, stars := [0, 9, 1, 1, 1], {2, 3};
    PlainText(text, numbers, stars);
    s := Plain(numbers, stars);
  }

  /** From Friday 20 June 2025, 08:59, `0 9 * * 1` runs next on Monday 23 June at 09:00. */
  lemma NextMonday(text: string)
    requires text == "0 9 * * 1"
    ensures NextRun(text, At(Date(2025, 6, 20), 8, 59) * 60_000_000_000) == At(Date(2025, 6, 23), 9, 0) * 60_000_000_000
  {
    var s := MondayText(text);
    JuneOf2025();
    MatchesIff(s, Date(2025, 6, 23), 9, 0);
    var from, target := At(Date(2025, 6, 20), 8, 59) * 60_000_000_000, At(Date(2025, 6, 23), 9, 0);
    forall t | Matches(s, t) && from < t * 60_000_000_000
      ensures target <= t
    {
      MondaysAtNine(s, t);
    }
    NextRunIs(text, s, from, target);
  }

  lemma NewYearText(text: string) returns (s: Schedule)
    requires text == "0 0 1 1 *"
    ensures ScheduleOf(text) == Some(s)
    ensures s.minutes == {0} && s.hours == {0} && s.days == {1} && s.months == {1} && s.weekdays == Every(4)
  {
    Decimals();
    var numbers, stars := [0, 0, 1, 1, 0], {4};
    PlainText(text, numbers, stars);
    s := Plain(numbers, stars);
  }

  lemma YearEnd()
    ensures DayNumber(Date(2025, 12, 31)) == 739615 && DayNumber(Date(2026, 1, 1)) == 739616
  {
  }

  /** One minute before the year ends, `0 0 1 1 *` runs next at midnight. */
  lemma NextNewYear(text: string)
    requires text == "0 0 1 1 *"
    ensures NextRun(text, At(Date(2025, 12, 31), 23, 59) * 60_000_000_000)
            == At(Date(2026, 1, 1), 0, 0) * 60_000_000_000
  {
    var s := NewYearText(text);
    MatchesIff(s, Date(2026, 1, 1), 0, 0);
    YearEnd();
    var before, target := At(Date(2025, 12, 31), 23, 59), At(Date(2026, 1, 1), 0, 0);
    NextRunIs(text, s, before * 60_000_000_000, target);
  }

  /******* What numbers a field takes *******/

  lemma NumberField(n: nat, min: int, max: int)
    requires Bounds(min, max)
    ensures FieldSet(Itoa(n), min, max) == if min <= n <= max then Some({n}) else None
  {
    var text := Itoa(n);
    assert IsDigit(text[0]);
    NotInNumber(n, ',');
    NotInNumber(n, '/');
    NotInNumber(n, '-');
    assert Split(text, ',') == [text];
    assert [text][..0] == [];
    assert Atoi(text) == if n <= MAX_INT64 then Some(n) else None;
    assert TokenSet(text, min, max) == if min <= n <= max then Some({n}) else None;
    assert TokensSet([text][..0], min, max) == Some({});
    if min <= n <= max {
      assert {} + {n} == {n};
    }
    assert TokensSet([text], min, max) == TokenSet(text, min, max);
  }

  lemma NumbersAccepted(text: string, numbers: seq<nat>, parts: seq<string>)
    requires |numbers| == |parts| == 5 && Fields(text) == parts
    requires forall i :: 0 <= i < 5 ==> parts[i] == Itoa(numbers[i])
    ensures ScheduleOf(text).Some? <==> forall i :: 0 <= i < 5 ==> FieldMin(i) <= numbers[i] <= FieldMax(i)
  {
    AcceptedIff(text, parts);
    forall i | 0 <= i < 5
      ensures FieldSet(parts[i], FieldMin(i), FieldMax(i)).Some? <==> FieldMin(i) <= numbers[i] <= FieldMax(i)
    {
      NumberField(numbers[i], FieldMin(i), FieldMax(i));
    }
  }

  lemma FiveBounds(numbers: seq<nat>)
    requires |numbers| == 5
    ensures (forall i :: 0 <= i < 5 ==> FieldMin(i) <= numbers[i] <= FieldMax(i))
            <==> && numbers[0] <= 59 && numbers[1] <= 23 && 1 <= numbers[2] <= 31 && 1 <= numbers[3] <= 12
                 && numbers[4] <= 6
  {
    assert FieldMax(0) == 59 && FieldMax(1) == 23 && FieldMax(2) == 31 && FieldMax(3) == 12 && FieldMax(4) == 6;
    assert FieldMin(0) == 0 && FieldMin(1) == 0 && FieldMin(2) == 1 && FieldMin(3) == 1 && FieldMin(4) == 0;
  }

  /** Five plain numbers are accepted exactly within minute, hour, day, month and weekday bounds. */
  lemma NumbersAcceptedIff(text: string, numbers: seq<nat>)
    requires |numbers| == 5 && |Fields(text)| == 5
    requires forall i :: 0 <= i < 5 ==> Fields(text)[i] == Itoa(numbers[i])
    ensures ScheduleOf(text).Some?
            <==> && numbers[0] <= 59 && numbers[1] <= 23 && 1 <= numbers[2] <= 31 && 1 <= numbers[3] <= 12
                 && numbers[4] <= 6
  {
    NumbersAccepted(text, numbers, Fields(text));
    FiveBounds(numbers);
  }

  /** A second minus makes a range unreadable. */
  lemma TwoDashes(a: string, rest: string)
    requires '-' !in a && '-' in rest
    ensures ParsePair(a + ['-'] + rest) == None
  {
    SplitFirst(a, '-', rest);
    assert |Split(rest, '-')| >= 2;
  }

  lemma LoneTokenRejected(text: string, min: int, max: int)
    requires Bounds(min, max) && text != "*" && ',' !in text && '/' !in text && ParseToken(text) == None
    ensures FieldSet(text, min, max) == None
  {
    assert Split(text, ',') == [text];
    if |text| >= 2 {
      assert text[1] in text;
    }
  }

  /** A range of three numbers is rejected. */
  lemma ThreeNumbersRejected(text: string)
    requires text == "1-2-3"
    ensures FieldSet(text, 0, 5) == None
  {
    assert text == "1" + ['-'] + "2-3" && "2-3"[1] == '-';
    TwoDashes("1", "2-3");
    assert text[1] == '-';
    LoneTokenRejected(text, 0, 5);
  }

  /******* A run more than one year away *******/

  lemma LeapYearsAfter1896(year: int)
    requires IsLeap(year) && year > 1896
    ensures year >= 1904
  {
  }

  /** No 29 February lies between that of 1896 and the year 1904. */
  lemma NoLeapDay(day: int)
    requires Civil(day).month == 2 && Civil(day).day == 29
    requires day >= DayNumber(Date(1896, 3, 1))
    ensures day >= DaysBeforeYear(1904)
  {
    var d := Civil(day);
    YearDayBounds(d);
    if d.year < 1896 {
      YearsAscend(d.year, 1896);
    }
    LeapYearsAfter1896(d.year);
    if d.year > 1904 {
      YearsAscend(1904, d.year);
    }
  }

  /** From 1 March 1896 the leap day is more than seven years of minutes away, beyond the count of the budget. */
  lemma LeapDayIsFar(s: Schedule)
    requires s.days == {29} && s.months == {2}
    requires Accepts(s.minutes, 0, 59) && Accepts(s.hours, 0, 23) && Accepts(s.weekdays, 0, 6)
    ensures var start := DayNumber(Date(1896, 3, 1)) * MINUTES_PER_DAY;
            Satisfiable(s) && forall t :: start <= t < start + 7 * BUDGET ==> !Matches(s, t)
  {
    assert 2 in s.months && 29 in s.days && 29 <= LongestMonth(2);
    SatisfiableIff(s);
    var start := DayNumber(Date(1896, 3, 1)) * MINUTES_PER_DAY;
    forall t | start <= t < start + 7 * BUDGET
      ensures !Matches(s, t)
    {
      DaySpan(t);
      if Matches(s, t) {
        NoLeapDay(DayOf(t));
      }
    }
  }
}

/**
 The texts that a field accepts, by their shape alone: the converse of printing.
 */
module CronShapes {
  import opened Text
  import opened CronField
  import opened CronGrammar

  /******* Tokens *******/

  /** A numeral without a minus, which would be read as the sign of a range. */
  ghost predicate Unsigned(s: string, n: int) {
    Numeral(s, n) && '-' !in s
  }

  ghost predicate Pair(s: string, lo: int, hi: int) {
    exists a, b :: s == a + "-" + b && Unsigned(a, lo) && Unsigned(b, hi)
  }

  /** What stands before the slash of a stepped token. */
  ghost predicate Base(s: string, t: Token) {
    match t
    case StepAll(_) => s == "*"
    case StepFrom(lo, _) => Unsigned(s, lo)
    case StepRange(lo, hi, _) => Pair(s, lo, hi)
    case _ => false
  }

  /** How a token is written: N, N-N, or a star, N or N-N with a slash and a step. */
  ghost predicate Written(token: string, t: Token) {
    match t
    case Value(n) => Unsigned(token, n)
    case Range(lo, hi) => Pair(token, lo, hi)
    case _ => exists base, b :: token == base + "/" + b && Base(base, t) && Numeral(b, t.step)
  }

  /** The characters of numerals, ranges and stars. */
  predicate Plain(s: string) {
    forall i :: 0 <= i < |s| ==> IsDigit(s[i]) || s[i] == '+' || s[i] == '-' || s[i] == '*'
  }

  lemma NumeralIsPlain(s: string, n: int)
    requires Numeral(s, n)
    ensures Plain(s) && s != [] && s != "*"
  {
    var sign, digits :| s == sign + digits && Spells(sign, digits, n);
    assert IsDigit(s[|s| - 1]);
  }

  lemma PlainHoldsNoSeparator(s: string)
    requires Plain(s)
    ensures '/' !in s && ',' !in s
  {
  }

  lemma PairIsPlain(s: string, lo: int, hi: int)
    requires Pair(s, lo, hi)
    ensures Plain(s) && '-' in s
  {
    var a, b :| s == a + "-" + b && Unsigned(a, lo) && Unsigned(b, hi);
    NumeralIsPlain(a, lo);
    NumeralIsPlain(b, hi);
    assert s[|a|] == '-';
  }

  lemma BaseIsPlain(s: string, t: Token)
    requires Base(s, t)
    ensures Plain(s)
  {
    match t
    case StepAll(_) =>
    case StepFrom(lo, _) => NumeralIsPlain(s, lo);
    case StepRange(lo, hi, _) => PairIsPlain(s, lo, hi);
  }

  /** Splitting in two at a character. */
  lemma SplitInTwo(s: string, c: char)
    requires |Split(s, c)| == 2
    ensures var parts := Split(s, c);
            s == parts[0] + [c] + parts[1] && c !in parts[0] && c !in parts[1]
  {
    var parts := Split(s, c);
    JoinOfSplit(s, c);
    assert parts[0] in parts && parts[1] in parts;
    assert parts[1..] == [parts[1]];
    assert Join(parts[1..], c) == parts[1];
  }

  lemma PairIsParsed(a: string, b: string, lo: int, hi: int)
    requires Unsigned(a, lo) && Unsigned(b, hi)
    ensures ParsePair(a + "-" + b) == Some((lo, hi))
  {
    SplitPair(a, '-', b);
    AtoiIff(a, lo);
    AtoiIff(b, hi);
  }

  lemma ParsedIsPair(s: string, lo: int, hi: int)
    requires ParsePair(s) == Some((lo, hi))
    ensures Pair(s, lo, hi)
  {
    var parts := Split(s, '-');
    SplitInTwo(s, '-');
    AtoiIff(parts[0], lo);
    AtoiIff(parts[1], hi);
    assert s == parts[0] + "-" + parts[1];
    assert Unsigned(parts[0], lo) && Unsigned(parts[1], hi);
  }

  lemma ParsePairIff(s: string, lo: int, hi: int)
    ensures ParsePair(s) == Some((lo, hi)) <==> Pair(s, lo, hi)
  {
    if Pair(s, lo, hi) {
      var a, b :| s == a + "-" + b && Unsigned(a, lo) && Unsigned(b, hi);
      PairIsParsed(a, b, lo, hi);
    } else if ParsePair(s) == Some((lo, hi)) {
      ParsedIsPair(s, lo, hi);
    }
  }

  lemma ParseStepIff(base: string, step: int, t: Token)
    ensures ParseStep(base, step) == Some(t)
            <==> Base(base, t) && (t.StepAll? || t.StepFrom? || t.StepRange?) && t.step == step
  {
    match t
    case StepFrom(lo, _) =>
      AtoiIff(base, lo);
      if Base(base, t) {
        NumeralIsPlain(base, lo);
      }
    case StepRange(lo, hi, _) =>
      ParsePairIff(base, lo, hi);
      if Base(base, t) {
        PairIsPlain(base, lo, hi);
      }
    case _ =>
  }

  lemma SteppedIff(token: string, t: Token)
    requires '/' in token
    ensures ParseToken(token) == Some(t) <==> Written(token, t)
  {
    if ParseToken(token) == Some(t) {
      var parts := Split(token, '/');
      SplitInTwo(token, '/');
      ParseStepIff(parts[0], Atoi(parts[1]).value, t);
      AtoiIff(parts[1], t.step);
      assert token == parts[0] + "/" + parts[1];
    }
    if Written(token, t) {
      match t
      case Value(n) =>
        NumeralIsPlain(token, n);
        PlainHoldsNoSeparator(token);
      case Range(lo, hi) =>
        PairIsPlain(token, lo, hi);
        PlainHoldsNoSeparator(token);
      case _ =>
        var base, b :| token == base + "/" + b && Base(base, t) && Numeral(b, t.step);
        BaseIsPlain(base, t);
        PlainHoldsNoSeparator(base);
        NumeralIsPlain(b, t.step);
        PlainHoldsNoSeparator(b);
        SplitPair(base, '/', b);
        AtoiIff(b, t.step);
        ParseStepIff(base, t.step, t);
    }
  }

  lemma UnsteppedIff(token: string, t: Token)
    requires '/' !in token
    ensures ParseToken(token) == Some(t) <==> Written(token, t)
  {
    match t
    case Value(n) =>
      AtoiIff(token, n);
    case Range(lo, hi) =>
      ParsePairIff(token, lo, hi);
      if Pair(token, lo, hi) {
        PairIsPlain(token, lo, hi);
      }
    case _ =>
  }

  /** A token is read exactly when it is written in one of the five shapes, and as that shape says. */
  lemma ParseTokenIff(token: string, t: Token)
    ensures ParseToken(token) == Some(t) <==> Written(token, t)
  {
    if '/' in token {
      SteppedIff(token, t);
    } else {
      UnsteppedIff(token, t);
    }
  }

  /******* Checks *******/

  /** The values a token ranges over, before its step. */
  function Reach(t: Token, min: int, max: int): set<int> {
    match t
    case Value(n) => {n}
    case Range(lo, hi) => Interval(lo, hi)
    case StepAll(_) => Interval(min, max)
    case StepFrom(lo, _) => Interval(lo, max)
    case StepRange(lo, hi, _) => Interval(lo, hi)
  }

  /** A token passes its checks exactly when it reaches a non-empty part of the field in steps of at least one. */
  lemma TokenOkIff(t: Token, min: int, max: int)
    requires Bounds(min, max)
    ensures TokenOk(t, min, max)
            <==> && (exists v :: v in Reach(t, min, max)) && Reach(t, min, max) <= Interval(min, max)
                 && (t.StepAll? || t.StepFrom? || t.StepRange? ==> 1 <= t.step <= MAX_INT64)
  {
    var reach := Reach(t, min, max);
    match t
    case Value(n) => assert n in reach;
    case Range(lo, hi) => IntervalWithin(lo, hi, min, max);
    case StepAll(_) => IntervalWithin(min, max, min, max);
    case StepFrom(lo, _) => IntervalWithin(lo, max, min, max);
    case StepRange(lo, hi, _) => IntervalWithin(lo, hi, min, max);
  }

  lemma IntervalWithin(lo: int, hi: int, min: int, max: int)
    ensures (exists v :: v in Interval(lo, hi)) && Interval(lo, hi) <= Interval(min, max) <==> min <= lo <= hi <= max
  {
    assert lo <= hi ==> lo in Interval(lo, hi) && hi in Interval(lo, hi);
  }

  /******* Fields *******/

  /** Tokens separated by commas. */
  ghost predicate ListWritten(part: string, ts: seq<Token>) {
    exists tokens :: Tokens(part, tokens, ts)
  }

  ghost predicate Tokens(part: string, tokens: seq<string>, ts: seq<Token>) {
    && tokens != [] && |tokens| == |ts| && part == Join(tokens, ',')
    && forall i :: 0 <= i < |ts| ==> Written(tokens[i], ts[i])
  }

  /** How a field is written: a star, a star with a step, or a list that does not begin like one. */
  ghost predicate FieldWritten(part: string, ts: seq<Token>) {
    if part == "*" then ts == [StepAll(1)]
    else if "*/" <= part then exists step :: Numeral(part[2..], step) && ts == [StepAll(step)]
    else ListWritten(part, ts)
  }

  lemma WrittenHasNoComma(token: string, t: Token)
    requires Written(token, t)
    ensures ',' !in token
  {
    match t
    case Value(n) =>
      NumeralIsPlain(token, n);
      PlainHoldsNoSeparator(token);
    case Range(lo, hi) =>
      PairIsPlain(token, lo, hi);
      PlainHoldsNoSeparator(token);
    case _ =>
      var base, b :| token == base + "/" + b && Base(base, t) && Numeral(b, t.step);
      BaseIsPlain(base, t);
      PlainHoldsNoSeparator(base);
      NumeralIsPlain(b, t.step);
      PlainHoldsNoSeparator(b);
  }

  lemma ListIff(part: string, ts: seq<Token>)
    ensures ParseTokens(Split(part, ',')) == Some(ts) <==> ListWritten(part, ts)
  {
    if ParseTokens(Split(part, ',')) == Some(ts) {
      var tokens := Split(part, ',');
      CollectedIff(ParseEach(tokens), ts);
      JoinOfSplit(part, ',');
      forall i | 0 <= i < |ts|
        ensures Written(tokens[i], ts[i])
      {
        ParseTokenIff(tokens[i], ts[i]);
      }
      assert Tokens(part, tokens, ts);
    }
    if ListWritten(part, ts) {
      var tokens :| Tokens(part, tokens, ts);
      TokensAreRead(part, tokens, ts);
    }
  }

  lemma TokensAreRead(part: string, tokens: seq<string>, ts: seq<Token>)
    requires Tokens(part, tokens, ts)
    ensures ParseTokens(Split(part, ',')) == Some(ts)
  {
    forall i | 0 <= i < |ts|
      ensures ',' !in tokens[i] && ParseToken(tokens[i]) == Some(ts[i])
    {
      WrittenHasNoComma(tokens[i], ts[i]);
      ParseTokenIff(tokens[i], ts[i]);
    }
    SplitOfJoin(tokens, ',');
    ParseTokensOf(tokens, ts);
  }

  lemma FieldTokensIff(part: string, ts: seq<Token>)
    ensures FieldTokens(part) == Some(ts) <==> FieldWritten(part, ts)
  {
    if part != "*" && "*/" <= part {
      if Atoi(part[2..]).Some? {
        AtoiIff(part[2..], Atoi(part[2..]).value);
      }
      if FieldWritten(part, ts) {
        var step :| Numeral(part[2..], step) && ts == [StepAll(step)];
        AtoiIff(part[2..], step);
      }
    } else if part != "*" {
      ListIff(part, ts);
    }
  }

  /**
   A field is accepted, with a set of values, exactly when it is written as tokens
   that all pass their checks and the set is the union of their meanings.
   */
  lemma FieldAcceptedIff(part: string, min: int, max: int, values: set<int>)
    requires Bounds(min, max)
    ensures FieldSet(part, min, max) == Some(values)
            <==> exists ts :: FieldWritten(part, ts) && TokensOk(ts, min, max) && values == UnionOf(ts, min, max)
  {
    FieldSetIsUnion(part, min, max);
    forall ts
      ensures FieldTokens(part) == Some(ts) <==> FieldWritten(part, ts)
    {
      FieldTokensIff(part, ts);
    }
  }
}

/**
 The grammar of a field against its parser: what an accepted field means, and
 that every printable list of tokens is read back.
 */
module CronGrammar {
  import opened Text
  import opened CronField

  /******* Meaning of a list of tokens *******/

  predicate TokensOk(ts: seq<Token>, min: int, max: int) {
    forall i :: 0 <= i < |ts| ==> TokenOk(ts[i], min, max)
  }

  /** The union of the tokens' meanings. */
  ghost function UnionOf(ts: seq<Token>, min: int, max: int): (s: set<int>)
    requires Bounds(min, max) && TokensOk(ts, min, max)
    ensures forall v :: v in s <==> exists i :: 0 <= i < |ts| && v in Meaning(ts[i], min, max)
  {
    if ts == [] then {}
    else
      var n := |ts| - 1;
      assert forall i :: 0 <= i < n ==> ts[..n][i] == ts[i];
      UnionOf(ts[..n], min, max) + Meaning(ts[n], min, max)
  }

  /** All results, or None when one is missing. */
  function Collected(os: seq<Option<Token>>): Option<seq<Token>> {
    if os == [] then Some([])
    else
      var rest, last := Collected(os[..|os| - 1]), os[|os| - 1];
      if rest.None? || last.None? then None else Some(rest.value + [last.value])
  }

  lemma {:induction false} CollectedIff(os: seq<Option<Token>>, ts: seq<Token>)
    ensures Collected(os) == Some(ts) <==> |os| == |ts| && forall i :: 0 <= i < |ts| ==> os[i] == Some(ts[i])
    decreases |os|
  {
    if os != [] && ts != [] {
      CollectedIff(os[..|os| - 1], ts[..|ts| - 1]);
      assert ts == ts[..|ts| - 1] + [ts[|ts| - 1]];
    }
  }

  function ParseEach(tokens: seq<string>): (os: seq<Option<Token>>)
    ensures |os| == |tokens| && forall i :: 0 <= i < |tokens| ==> os[i] == ParseToken(tokens[i])
  {
    seq(|tokens|, i requires 0 <= i < |tokens| => ParseToken(tokens[i]))
  }

  function ParseTokens(tokens: seq<string>): Option<seq<Token>> {
    Collected(ParseEach(tokens))
  }

  /** The tokens of a field; a leading star with a slash takes the whole field as its step. */
  function FieldTokens(part: string): Option<seq<Token>> {
    if part == "*" then Some([StepAll(1)])
    else if "*/" <= part then
      match Atoi(part[2..])
      case None => None
      case Some(step) => Some([StepAll(step)])
    else ParseTokens(Split(part, ','))
  }

  lemma {:induction false} TokensSetIsUnion(tokens: seq<string>, min: int, max: int)
    requires Bounds(min, max)
    ensures TokensSet(tokens, min, max)
            == match ParseTokens(tokens)
               case None => None
               case Some(ts) => if TokensOk(ts, min, max) then Some(UnionOf(ts, min, max)) else None
  {
    if tokens != [] {
      var n := |tokens| - 1;
      TokensSetIsUnion(tokens[..n], min, max);
      assert ParseEach(tokens)[..n] == ParseEach(tokens[..n]);
      var ts := ParseTokens(tokens);
      if ts.Some? {
        CollectedIff(ParseEach(tokens), ts.value);
        assert ts.value[..n] == ParseTokens(tokens[..n]).value;
        assert TokensOk(ts.value, min, max)
               <==> TokensOk(ts.value[..n], min, max) && TokenOk(ts.value[n], min, max);
      }
    }
  }

  /**
   Sound and complete: a field is accepted exactly when it splits into tokens that
   all pass their checks, and then it denotes the union of their meanings.
   */
  lemma FieldSetIsUnion(part: string, min: int, max: int)
    requires Bounds(min, max)
    ensures FieldSet(part, min, max)
            == match FieldTokens(part)
               case None => None
               case Some(ts) => if TokensOk(ts, min, max) then Some(UnionOf(ts, min, max)) else None
  {
    if part == "*" || "*/" <= part {
      var ts := FieldTokens(part);
      if ts.Some? && ts.value[0].step > 0 {
        AtoiRange(if part == "*" then "1" else part[2..]);
        assert ts.value == [StepAll(ts.value[0].step)];
        SingleSteps(min, max);
        assert UnionOf(ts.value, min, max) == Meaning(ts.value[0], min, max);
      }
    } else {
      TokensSetIsUnion(Split(part, ','), min, max);
    }
  }

  /** An accepted field stays within its bounds exactly when no step of it overflows. */
  lemma FieldInBoundsIff(ts: seq<Token>, min: int, max: int)
    requires Bounds(min, max) && TokensOk(ts, min, max)
    ensures UnionOf(ts, min, max) <= Interval(min, max)
            <==> forall i :: 0 <= i < |ts| ==> NoOverflow(ts[i], min)
  {
    forall i | 0 <= i < |ts|
      ensures Meaning(ts[i], min, max) <= Interval(min, max) <==> NoOverflow(ts[i], min)
    {
      MeaningInFieldIff(ts[i], min, max);
      OnlyOverflowLeaves(ts[i], min, max);
    }
    if UnionOf(ts, min, max) <= Interval(min, max) {
      forall i | 0 <= i < |ts|
        ensures Meaning(ts[i], min, max) <= Interval(min, max)
      {
        assert forall v :: v in Meaning(ts[i], min, max) ==> v in UnionOf(ts, min, max);
      }
    }
  }

  lemma OnlyOverflowLeaves(t: Token, min: int, max: int)
    requires Bounds(min, max) && TokenOk(t, min, max)
    ensures Meaning(t, min, max) == {} ==> t.StepRange? && t.lo > 0
    ensures t.StepRange? && t.lo > 0 ==> Meaning(t, min, max) == {}
  {
    match t
    case StepAll(step) => SteppedRange(min, max, step);
    case StepFrom(lo, step) => SteppedRange(lo, max, step);
    case Range(lo, hi) => assert lo in Meaning(t, min, max);
    case _ =>
  }

  /** An accepted field is empty exactly when all its tokens are `lo-hi`/step with a positive `lo`. */
  lemma FieldEmptyIff(ts: seq<Token>, min: int, max: int)
    requires Bounds(min, max) && TokensOk(ts, min, max)
    ensures UnionOf(ts, min, max) == {}
            <==> forall i :: 0 <= i < |ts| ==> ts[i].StepRange? && ts[i].lo > 0
  {
    forall i | 0 <= i < |ts|
      ensures Meaning(ts[i], min, max) == {} <==> ts[i].StepRange? && ts[i].lo > 0
    {
      OnlyOverflowLeaves(ts[i], min, max);
    }
    var union := UnionOf(ts, min, max);
    assert forall i, v :: 0 <= i < |ts| && v in Meaning(ts[i], min, max) ==> v in union;
    if union == {} {
      forall i | 0 <= i < |ts|
        ensures Meaning(ts[i], min, max) == {}
      {
        assert Meaning(ts[i], min, max) <= union;
      }
    }
  }

  /******* Printing *******/

  /** A token as a user writes it. */
  function Render(t: Token): string
    requires Printable(t)
  {
    match t
    case Value(n) => Itoa(n)
    case Range(lo, hi) => Itoa(lo) + "-" + Itoa(hi)
    case StepAll(step) => "*" + "/" + Itoa(step)
    case StepFrom(lo, step) => Itoa(lo) + "/" + Itoa(step)
    case StepRange(lo, hi, step) => Itoa(lo) + "-" + Itoa(hi) + "/" + Itoa(step)
  }

  /** All numbers of the token are natural numbers of 64 bits. */
  predicate Printable(t: Token) {
    match t
    case Value(n) => 0 <= n <= MAX_INT64
    case Range(lo, hi) => 0 <= lo <= MAX_INT64 && 0 <= hi <= MAX_INT64
    case StepAll(step) => 0 <= step <= MAX_INT64
    case StepFrom(lo, step) => 0 <= lo <= MAX_INT64 && 0 <= step <= MAX_INT64
    case StepRange(lo, hi, step) =>
      0 <= lo <= MAX_INT64 && 0 <= hi <= MAX_INT64 && 0 <= step <= MAX_INT64
  }

  function RenderAll(ts: seq<Token>): (r: seq<string>)
    requires forall i :: 0 <= i < |ts| ==> Printable(ts[i])
    ensures |r| == |ts| && forall i :: 0 <= i < |ts| ==> r[i] == Render(ts[i])
  {
    seq(|ts|, i requires 0 <= i < |ts| => Render(ts[i]))
  }

  function RenderField(ts: seq<Token>): string
    requires ts != [] && forall i :: 0 <= i < |ts| ==> Printable(ts[i])
  {
    Join(RenderAll(ts), ',')
  }

  lemma NotInNumber(n: nat, c: char)
    requires !IsDigit(c)
    ensures c !in Itoa(n)
  {
  }

  lemma SplitPair(a: string, c: char, b: string)
    requires c !in a && c !in b
    ensures c in a + [c] + b
    ensures Split(a + [c] + b, c) == [a, b]
  {
    assert (a + [c] + b)[|a|] == c;
    SplitFirst(a, c, b);
  }

  lemma PairOfRender(lo: nat, hi: nat)
    requires lo <= MAX_INT64 && hi <= MAX_INT64
    ensures '-' in Itoa(lo) + "-" + Itoa(hi)
    ensures ParsePair(Itoa(lo) + "-" + Itoa(hi)) == Some((lo, hi))
  {
    NotInNumber(lo, '-');
    NotInNumber(hi, '-');
    SplitPair(Itoa(lo), '-', Itoa(hi));
    AtoiOfItoa(lo);
    AtoiOfItoa(hi);
  }

  lemma StepOfRender(base: string, step: nat)
    requires '/' !in base && step <= MAX_INT64
    ensures ParseToken(base + "/" + Itoa(step)) == ParseStep(base, step)
  {
    NotInNumber(step, '/');
    SplitPair(base, '/', Itoa(step));
    AtoiOfItoa(step);
  }

  /** Reading inverts printing on every token. */
  lemma ParseOfRender(t: Token)
    requires Printable(t)
    ensures ParseToken(Render(t)) == Some(t)
  {
    match t
    case Value(n) =>
      NotInNumber(n, '/');
      NotInNumber(n, '-');
      AtoiOfItoa(n);
    case Range(lo, hi) =>
      NotInNumber(lo, '/');
      NotInNumber(hi, '/');
      PairOfRender(lo, hi);
    case StepAll(step) =>
      StepOfRender("*", step);
    case StepFrom(lo, step) =>
      NotInNumber(lo, '/');
      NotInNumber(lo, '-');
      StepOfRender(Itoa(lo), step);
      AtoiOfItoa(lo);
      assert IsDigit(Itoa(lo)[0]);
    case StepRange(lo, hi, step) =>
      NotInNumber(lo, '/');
      NotInNumber(hi, '/');
      PairOfRender(lo, hi);
      StepOfRender(Itoa(lo) + "-" + Itoa(hi), step);
      assert IsDigit((Itoa(lo) + "-" + Itoa(hi))[0]);
  }

  predicate Tame(s: string) {
    forall i :: 0 <= i < |s| ==> IsDigit(s[i]) || s[i] == '*' || s[i] == '/' || s[i] == '-'
  }

  lemma TameHolds(s: string)
    requires Tame(s)
    ensures ',' !in s && NoSpace(s)
  {
  }

  lemma TameNumber(n: nat)
    ensures Tame(Itoa(n)) && Itoa(n)[0] != '*'
  {
    assert IsDigit(Itoa(n)[0]);
  }

  lemma TameConcat(a: string, b: string)
    requires Tame(a) && Tame(b)
    ensures Tame(a + b)
  {
  }

  lemma RenderTame(t: Token)
    requires Printable(t)
    ensures Tame(Render(t))
  {
    match t
    case Value(n) => TameNumber(n);
    case Range(lo, hi) =>
      TameRange(lo, hi);
    case StepAll(step) =>
      TameStep("*", step);
    case StepFrom(lo, step) =>
      TameNumber(lo);
      TameStep(Itoa(lo), step);
    case StepRange(lo, hi, step) =>
      TameRange(lo, hi);
      TameStep(Itoa(lo) + "-" + Itoa(hi), step);
  }

  lemma TameRange(lo: nat, hi: nat)
    ensures Tame(Itoa(lo) + "-" + Itoa(hi))
  {
    TameNumber(lo);
    TameNumber(hi);
    TameConcat(Itoa(lo), "-");
    TameConcat(Itoa(lo) + "-", Itoa(hi));
  }

  lemma TameStep(base: string, step: nat)
    requires Tame(base)
    ensures Tame(base + "/" + Itoa(step))
  {
    TameNumber(step);
    TameConcat(base, "/");
    TameConcat(base + "/", Itoa(step));
  }

  /** What a printed token holds: no comma, no space, and a leading star only for a stepped star. */
  lemma RenderShape(t: Token)
    requires Printable(t)
    ensures Render(t) != [] && ',' !in Render(t) && NoSpace(Render(t))
    ensures Render(t)[0] == '*' <==> t.StepAll?
  {
    RenderTame(t);
    TameHolds(Render(t));
    match t
    case Value(n) => TameNumber(n);
    case Range(lo, hi) => TameNumber(lo);
    case StepAll(step) =>
    case StepFrom(lo, step) => TameNumber(lo);
    case StepRange(lo, hi, step) => TameNumber(lo);
  }

  lemma ParseTokensOf(tokens: seq<string>, ts: seq<Token>)
    requires |tokens| == |ts| && forall i :: 0 <= i < |ts| ==> ParseToken(tokens[i]) == Some(ts[i])
    ensures ParseTokens(tokens) == Some(ts)
  {
    CollectedIff(ParseEach(tokens), ts);
  }

  lemma FieldStart(ts: seq<Token>)
    requires ts != [] && forall i :: 0 <= i < |ts| ==> Printable(ts[i])
    ensures RenderField(ts) != [] && RenderField(ts)[0] == Render(ts[0])[0]
    ensures RenderField(ts) != "*"
    ensures "*/" <= RenderField(ts) <==> ts[0].StepAll?
  {
    RenderShape(ts[0]);
    var s := RenderField(ts);
    assert Render(ts[0]) <= s;
    if ts[0].StepAll? {
      assert s[1] == Render(ts[0])[1] == '/';
    }
  }

  /**
   Every list of valid tokens, joined by commas, is read back to the union of
   their meanings, except that a stepped star may not stand first before others.
   */
  lemma FieldRoundTrip(ts: seq<Token>, min: int, max: int)
    requires Bounds(min, max) && ts != [] && TokensOk(ts, min, max)
    ensures forall i :: 0 <= i < |ts| ==> Printable(ts[i])
    ensures FieldSet(RenderField(ts), min, max)
            == if ts[0].StepAll? && |ts| > 1 then None else Some(UnionOf(ts, min, max))
  {
    var s := RenderField(ts);
    FieldStart(ts);
    if ts[0].StepAll? {
      if |ts| == 1 {
        assert s == Render(ts[0]) && s[2..] == Itoa(ts[0].step);
        AtoiOfItoa(ts[0].step);
        assert ts == [ts[0]];
        FieldSetIsUnion(s, min, max);
      } else {
        CommaInStep(ts);
      }
    } else {
      forall p | p in RenderAll(ts)
        ensures ',' !in p
      {
        var i :| 0 <= i < |ts| && p == Render(ts[i]);
        RenderShape(ts[i]);
      }
      SplitOfJoin(RenderAll(ts), ',');
      forall i | 0 <= i < |ts|
        ensures ParseToken(RenderAll(ts)[i]) == Some(ts[i])
      {
        ParseOfRender(ts[i]);
      }
      ParseTokensOf(RenderAll(ts), ts);
      TokensSetIsUnion(RenderAll(ts), min, max);
    }
  }

  lemma AtoiRejectsComma(digits: string, rest: string)
    requires digits != [] && AllDigits(digits)
    ensures Atoi(digits + [','] + rest) == None
  {
    var s := digits + [','] + rest;
    assert IsDigit(s[0]);
    assert !IsDigit(s[|digits|]);
  }

  lemma CommaInStep(ts: seq<Token>)
    requires |ts| > 1 && forall i :: 0 <= i < |ts| ==> Printable(ts[i])
    requires ts[0].StepAll?
    ensures var s := RenderField(ts); |s| >= 2 && Atoi(s[2..]) == None
  {
    var digits, rest := Itoa(ts[0].step), Join(RenderAll(ts)[1..], ',');
    assert RenderField(ts) == "*" + "/" + digits + [','] + rest;
    assert RenderField(ts)[2..] == digits + [','] + rest;
    AtoiRejectsComma(digits, rest);
  }

  function ValueTokens(values: seq<int>): (ts: seq<Token>)
    ensures |ts| == |values| && forall i :: 0 <= i < |values| ==> ts[i] == Value(values[i])
  {
    seq(|values|, i requires 0 <= i < |values| => Value(values[i]))
  }

  lemma UnionOfValues(values: seq<int>, min: int, max: int)
    requires Bounds(min, max)
    requires forall i :: 0 <= i < |values| ==> min <= values[i] <= max
    ensures UnionOf(ValueTokens(values), min, max) == Elements(values)
  {
    var ts := ValueTokens(values);
    assert forall i :: 0 <= i < |ts| ==> Meaning(ts[i], min, max) == {values[i]};
  }

  /** Every non-empty list of values of the field, printed in decimal, is read back as its set. */
  lemma SubsetRoundTrip(values: seq<int>, min: int, max: int)
    requires Bounds(min, max) && values != []
    requires forall i :: 0 <= i < |values| ==> min <= values[i] <= max
    ensures FieldSet(RenderField(ValueTokens(values)), min, max) == Some(Elements(values))
  {
    var ts := ValueTokens(values);
    assert ts[0] == Value(values[0]);
    assert TokensOk(ts, min, max);
    FieldRoundTrip(ts, min, max);
    UnionOfValues(values, min, max);
  }
}

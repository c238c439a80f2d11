/**
 One field of a cron expression: `parsePart` and `contains`
 (pgk/parser/cron_expression_parser.go).
 */
module CronField {
  import opened Text

  datatype Result<+T> = Ok(value: T) | Err

  /** Every bound of a field is far below the end of the 64-bit integers. */
  const BOUND_LIMIT: int := MAX_INT64 / 4

  predicate Bounds(min: int, max: int) {
    0 <= min <= max <= BOUND_LIMIT
  }

  /******* Stepping with 64-bit wrap-around *******/

  function Wrap(n: int): int {
    if n > MAX_INT64 then n - 0x1_0000_0000_0000_0000 else n
  }

  /** The values that `for i := i; i <= end; i += step` visits, with `+=` on 64 bits. */
  function Stepped(i: int, end: int, step: int): set<int>
    requires MIN_INT64 <= i <= MAX_INT64 && 0 <= end <= BOUND_LIMIT && 1 <= step <= MAX_INT64
    decreases StepRank(i, end, step)
  {
    if i > end then {} else {i} + Stepped(Wrap(i + step), end, step)
  }

  /** Bounds the visits left, also when the sum wraps around: two wraps bring `i` down by at least 2. */
  function StepRank(i: int, end: int, step: int): nat
    requires 0 <= end
  {
    if i > end then 0
    else if step <= MAX_INT64 - end then end - i + 1
    else if i < 0 then
      if i + step > end then 1 else if i + step < 0 then 5 else 2 * (i + step) + 5
    else
      if i + step <= MAX_INT64 then 1 else 2 * i + 4
  }

  ghost predicate IsMultiple(n: int, step: int) {
    exists k: nat :: n == k * step
  }

  ghost predicate OnProgression(start: int, step: int, j: int) {
    IsMultiple(j - start, step)
  }

  /** The arithmetic progression from `start` up to `end`. */
  ghost function Progression(start: int, end: int, step: int): set<int> {
    set j | start <= j <= end && OnProgression(start, step, j)
  }

  predicate Between(lo: int, i: int, hi: int) {
    lo <= i <= hi
  }

  function Interval(lo: int, hi: int): set<int> {
    set i | lo <= i <= hi && Between(lo, i, hi)
  }

  lemma TimesStep(k: nat, step: int)
    requires step >= 1
    ensures k == 0 ==> k * step == 0
    ensures k > 0 ==> k * step == (k - 1) * step + step && (k - 1) * step >= 0
  {
  }

  lemma MultipleStep(n: int, step: int)
    requires step >= 1
    ensures n >= step ==> (IsMultiple(n, step) <==> IsMultiple(n - step, step))
    ensures 0 < n < step ==> !IsMultiple(n, step)
    ensures IsMultiple(0, step)
  {
    TimesStep(0, step);
    if n > 0 && IsMultiple(n, step) {
      var k: nat :| n == k * step;
      TimesStep(k, step);
      assert k > 0;
      var k' := k - 1;
      assert n - step == k' * step;
    }
    if n >= step && IsMultiple(n - step, step) {
      var k: nat :| n - step == k * step;
      TimesStep(k + 1, step);
      var k' := k + 1;
      assert n == k' * step;
    }
  }

  lemma {:induction false} SmallSteps(i: int, end: int, step: int)
    requires 0 <= i <= MAX_INT64 && 0 <= end <= BOUND_LIMIT && 1 <= step <= MAX_INT64 - end
    ensures Stepped(i, end, step) == Progression(i, end, step)
    decreases StepRank(i, end, step)
  {
    if i <= end {
      SmallSteps(i + step, end, step);
      forall j | i <= j <= end
        ensures j in Progression(i, end, step) <==> j == i || j in Progression(i + step, end, step)
      {
        MultipleStep(j - i, step);
      }
    }
  }

  /** Without overflow at the first step the loop visits the progression; with it, a negative value. */
  lemma SteppedMeaning(i: int, end: int, step: int)
    requires 0 <= i <= end <= BOUND_LIMIT && 1 <= step <= MAX_INT64
    ensures i + step <= MAX_INT64 ==> Stepped(i, end, step) == Progression(i, end, step)
    ensures i + step > MAX_INT64 ==> Wrap(i + step) in Stepped(i, end, step) && Wrap(i + step) < 0
  {
    if step <= MAX_INT64 - end {
      SmallSteps(i, end, step);
    } else if i + step <= MAX_INT64 {
      assert Stepped(i, end, step) == {i};
      forall j | i <= j <= end
        ensures j in Progression(i, end, step) <==> j == i
      {
        MultipleStep(j - i, step);
      }
    } else {
      var next := Wrap(i + step);
      assert next in Stepped(next, end, step);
    }
  }

  /** Steps of one visit the whole interval. */
  lemma SingleSteps(min: int, max: int)
    requires Bounds(min, max)
    ensures Stepped(min, max, 1) == Interval(min, max)
  {
    SmallSteps(min, max, 1);
    forall v | min <= v <= max
      ensures OnProgression(min, 1, v)
    {
      var k: nat := v - min;
      assert v - min == k * 1;
    }
    assert Progression(min, max, 1) == Interval(min, max);
  }

  method AddSteps(acc: set<int>, start: int, end: int, step: int) returns (result: set<int>)
    requires 0 <= start <= MAX_INT64 && 0 <= end <= BOUND_LIMIT && 1 <= step <= MAX_INT64
    ensures result == acc + Stepped(start, end, step)
  {
    result := acc;
    var i := start;
    while i <= end
      invariant MIN_INT64 <= i <= MAX_INT64
      invariant result + Stepped(i, end, step) == acc + Stepped(start, end, step)
      decreases StepRank(i, end, step)
    {
      result := result + {i};
      i := Wrap(i + step);
    }
  }

  /******* Tokens *******/

  /** The shapes between commas: `n`, `lo-hi`, `*`/step, `n`/step and `lo-hi`/step. */
  datatype Token =
    | Value(n: int)
    | Range(lo: int, hi: int)
    | StepAll(step: int)
    | StepFrom(lo: int, step: int)
    | StepRange(lo: int, hi: int, step: int)

  function ParsePair(s: string): Option<(int, int)> {
    var parts := Split(s, '-');
    if |parts| != 2 || Atoi(parts[0]).None? || Atoi(parts[1]).None? then None
    else Some((Atoi(parts[0]).value, Atoi(parts[1]).value))
  }

  function ParseStep(base: string, step: int): Option<Token> {
    if base == "*" then Some(StepAll(step))
    else if '-' in base then
      match ParsePair(base)
      case None => None
      case Some((lo, hi)) => Some(StepRange(lo, hi, step))
    else
      match Atoi(base)
      case None => None
      case Some(n) => Some(StepFrom(n, step))
  }

  function ParseToken(token: string): Option<Token> {
    if '/' in token then
      var parts := Split(token, '/');
      if |parts| != 2 || Atoi(parts[1]).None? then None
      else ParseStep(parts[0], Atoi(parts[1]).value)
    else if '-' in token then
      match ParsePair(token)
      case None => None
      case Some((lo, hi)) => Some(Range(lo, hi))
    else
      match Atoi(token)
      case None => None
      case Some(n) => Some(Value(n))
  }

  /** The checks a token must pass. */
  predicate TokenOk(t: Token, min: int, max: int) {
    match t
    case Value(n) => min <= n <= max
    case Range(lo, hi) => min <= lo <= hi <= max
    case StepAll(step) => 0 < step <= MAX_INT64
    case StepFrom(lo, step) => min <= lo <= max && 0 < step <= MAX_INT64
    case StepRange(lo, hi, step) => min <= lo <= hi <= max && 0 < step <= MAX_INT64
  }

  /**
   The values a token adds. In `lo-hi`/step the inner declaration of the end
   hides the outer one, so the loop runs up to 0 instead of `hi`.
   */
  function Meaning(t: Token, min: int, max: int): set<int>
    requires Bounds(min, max) && TokenOk(t, min, max)
  {
    match t
    case Value(n) => {n}
    case Range(lo, hi) => Interval(lo, hi)
    case StepAll(step) => Stepped(min, max, step)
    case StepFrom(lo, step) => Stepped(lo, max, step)
    case StepRange(lo, hi, step) => Stepped(lo, 0, step)
  }

  /** The values the token grammar stands for. */
  ghost function Intended(t: Token, min: int, max: int): set<int> {
    match t
    case Value(n) => {n}
    case Range(lo, hi) => Interval(lo, hi)
    case StepAll(step) => Progression(min, max, step)
    case StepFrom(lo, step) => Progression(lo, max, step)
    case StepRange(lo, hi, step) => Progression(lo, hi, step)
  }

  /** No step overflows 64 bits. */
  predicate NoOverflow(t: Token, min: int) {
    match t
    case StepAll(step) => min + step <= MAX_INT64
    case StepFrom(lo, step) => lo + step <= MAX_INT64
    case _ => true
  }

  /**
   A token means what its grammar says exactly when no step overflows and, for
   `lo-hi`/step, only the value 0 is wanted anyway.
   */
  lemma MeaningIsIntendedIff(t: Token, min: int, max: int)
    requires Bounds(min, max) && TokenOk(t, min, max)
    ensures Meaning(t, min, max) == Intended(t, min, max)
            <==> NoOverflow(t, min) && (t.StepRange? ==> t.lo == 0 && t.hi < t.step)
  {
    match t
    case Value(_) =>
    case Range(_, _) =>
    case StepAll(step) => SteppedMeaning(min, max, step);
    case StepFrom(lo, step) => SteppedMeaning(lo, max, step);
    case StepRange(lo, hi, step) =>
      MultipleStep(0, step);
      assert lo in Progression(lo, hi, step);
      if lo == 0 {
        assert Stepped(lo, 0, step) == {0};
        forall j | 0 <= j <= hi
          ensures OnProgression(0, step, j) ==> j == 0 || step <= j
        {
          MultipleStep(j, step);
        }
        if step <= hi {
          MultipleStep(step, step);
          assert step in Progression(0, hi, step);
        }
      }
  }

  lemma {:induction false} SteppedRange(i: int, end: int, step: int)
    requires 0 <= i <= end <= BOUND_LIMIT && 1 <= step <= MAX_INT64
    ensures i in Stepped(i, end, step)
    ensures (forall j :: j in Stepped(i, end, step) ==> i <= j <= end) <==> i + step <= MAX_INT64
  {
    SteppedMeaning(i, end, step);
  }

  /** A token adds at least one value, and only values of the field, exactly under these conditions. */
  lemma MeaningInFieldIff(t: Token, min: int, max: int)
    requires Bounds(min, max) && TokenOk(t, min, max)
    ensures Meaning(t, min, max) != {} && (forall j :: j in Meaning(t, min, max) ==> min <= j <= max)
            <==> NoOverflow(t, min) && (t.StepRange? ==> t.lo == 0)
  {
    match t
    case Value(n) => assert n in Meaning(t, min, max);
    case Range(lo, hi) => assert lo in Meaning(t, min, max);
    case StepAll(step) =>
      SteppedRange(min, max, step);
    case StepFrom(lo, step) =>
      SteppedRange(lo, max, step);
      SteppedMeaning(lo, max, step);
    case StepRange(lo, hi, step) =>
      if lo == 0 {
        assert Stepped(lo, 0, step) == {0};
      }
  }

  /******* Fields *******/

  /** What a token of the text adds, or None when it is rejected. */
  function TokenSet(token: string, min: int, max: int): Option<set<int>>
    requires Bounds(min, max)
  {
    match ParseToken(token)
    case None => None
    case Some(t) => if TokenOk(t, min, max) then Some(Meaning(t, min, max)) else None
  }

  /** The union over a list of tokens, or None when one is rejected. */
  function TokensSet(tokens: seq<string>, min: int, max: int): Option<set<int>>
    requires Bounds(min, max)
  {
    if tokens == [] then Some({})
    else
      var rest, last := TokensSet(tokens[..|tokens| - 1], min, max), TokenSet(tokens[|tokens| - 1], min, max);
      if rest.None? || last.None? then None else Some(rest.value + last.value)
  }

  /** The set that a field denotes, or None when the field is rejected. */
  function FieldSet(part: string, min: int, max: int): Option<set<int>>
    requires Bounds(min, max)
  {
    if part == "*" then Some(Interval(min, max))
    else if "*/" <= part then
      match Atoi(part[2..])
      case None => None
      case Some(step) => if step <= 0 then None else Some(Stepped(min, max, step))
    else TokensSet(Split(part, ','), min, max)
  }

  ghost predicate StrictlyAscending(s: seq<int>) {
    forall i, j :: 0 <= i < j < |s| ==> s[i] < s[j]
  }

  ghost function Elements(s: seq<int>): set<int> {
    set v | v in s
  }

  lemma AtoiRange(s: string)
    ensures Atoi(s).Some? ==> MIN_INT64 <= Atoi(s).value <= MAX_INT64
  {
  }

  method AddToken(acc: set<int>, token: string, min: int, max: int) returns (r: Result<set<int>>)
    requires Bounds(min, max)
    ensures r == match TokenSet(token, min, max) case None => Err case Some(s) => Ok(acc + s)
  {
    if '/' in token {
      var rangeAndStep := Split(token, '/');
      if |rangeAndStep| != 2 { return Err; }
      var base := rangeAndStep[0];
      var step := Atoi(rangeAndStep[1]);
      if step.None? || step.value <= 0 { return Err; }
      var start, end := 0, 0;
      if base == "*" {
        start, end := min, max;
      } else if '-' in base {
        var parts := Split(base, '-');
        if |parts| != 2 { return Err; }
        var lo, hi := Atoi(parts[0]), Atoi(parts[1]);
        if lo.None? || hi.None? || lo.value > hi.value || lo.value < min || hi.value > max { return Err; }
        start := lo.value;
      } else {
        var num := Atoi(base);
        if num.None? || num.value < min || num.value > max { return Err; }
        start, end := num.value, max;
      }
      var steps := AddSteps(acc, start, end, step.value);
      return Ok(steps);
    } else if '-' in token {
      var parts := Split(token, '-');
      if |parts| != 2 { return Err; }
      var start, end := Atoi(parts[0]), Atoi(parts[1]);
      if start.None? || end.None? || start.value > end.value || start.value < min || end.value > max { return Err; }
      var result, i := acc, start.value;
      while i <= end.value
        invariant start.value <= i <= end.value + 1
        invariant result == acc + Interval(start.value, i - 1)
      {
        result, i := result + {i}, i + 1;
      }
      return Ok(result);
    } else {
      var num := Atoi(token);
      if num.None? || num.value < min || num.value > max { return Err; }
      return Ok(acc + {num.value});
    }
  }

  /** `parsePart`: rejects exactly the fields without a meaning, and sorts the others' sets. */
  method ParsePart(part: string, min: int, max: int) returns (r: Result<seq<int>>)
    requires Bounds(min, max)
    ensures r.Ok? <==> FieldSet(part, min, max).Some?
    ensures r.Ok? ==> StrictlyAscending(r.value) && Elements(r.value) == FieldSet(part, min, max).value
  {
    var acc: set<int> := {};
    if part == "*" || "*/" <= part {
      var step := 1;
      if "*/" <= part {
        var s := Atoi(part[2..]);
        if s.None? || s.value <= 0 { return Err; }
        step := s.value;
      }
      acc := AddSteps(acc, min, max, step);
      SingleSteps(min, max);
    } else {
      var tokens := Split(part, ',');
      for k := 0 to |tokens|
        invariant TokensSet(tokens[..k], min, max) == Some(acc)
      {
        assert tokens[..k + 1][..k] == tokens[..k];
        var added := AddToken(acc, tokens[k], min, max);
        if added.Err? {
          RejectedPrefix(tokens, k + 1, min, max);
          return Err;
        }
        acc := added.value;
      }
      assert tokens[..|tokens|] == tokens;
    }
    var values := Collect(acc);
    var sorted := SortInts(values);
    SortIntsAscends(values);
    StrictWhenDistinct(sorted, acc);
    return Ok(sorted);
  }

  lemma {:induction false} RejectedPrefix(tokens: seq<string>, k: nat, min: int, max: int)
    requires Bounds(min, max) && k <= |tokens|
    requires TokensSet(tokens[..k], min, max).None?
    ensures TokensSet(tokens, min, max).None?
    decreases |tokens|
  {
    if k < |tokens| {
      assert tokens[..|tokens| - 1][..k] == tokens[..k];
      RejectedPrefix(tokens[..|tokens| - 1], k, min, max);
    } else {
      assert tokens[..k] == tokens;
    }
  }

  /** Ranges over a map in an order that the language leaves open. */
  method Collect(values: set<int>) returns (result: seq<int>)
    ensures multiset(result) == multiset(values)
  {
    result := [];
    var rest := values;
    ghost var done: set<int> := {};
    while exists v :: v in rest
      invariant done + rest == values && done !! rest
      invariant multiset(result) == multiset(done)
      decreases |rest|
    {
      var v :| v in rest;
      result, rest, done := result + [v], rest - {v}, done + {v};
    }
    assert done == values;
  }

  ghost predicate Ascending(s: seq<int>) {
    forall i, j :: 0 <= i < j < |s| ==> s[i] <= s[j]
  }

  function Insert(s: seq<int>, v: int): (r: seq<int>)
    ensures multiset(r) == multiset(s) + multiset{v}
  {
    if s == [] || v <= s[0] then [v] + s
    else
      assert s == [s[0]] + s[1..];
      [s[0]] + Insert(s[1..], v)
  }

  /** `sort.Ints`. */
  function SortInts(s: seq<int>): (r: seq<int>)
    ensures multiset(r) == multiset(s)
  {
    if s == [] then []
    else
      assert s == s[..|s| - 1] + [s[|s| - 1]];
      Insert(SortInts(s[..|s| - 1]), s[|s| - 1])
  }

  lemma {:induction false} InsertAscends(s: seq<int>, v: int)
    requires Ascending(s)
    ensures Ascending(Insert(s, v))
  {
    if s != [] && s[0] < v {
      InsertAscends(s[1..], v);
      var rest := Insert(s[1..], v);
      forall i | 0 <= i < |rest|
        ensures s[0] <= rest[i]
      {
        assert rest[i] in multiset(rest);
        assert rest[i] == v || rest[i] in s[1..];
      }
    }
  }

  lemma {:induction false} SortIntsAscends(s: seq<int>)
    ensures Ascending(SortInts(s))
  {
    if s != [] {
      SortIntsAscends(s[..|s| - 1]);
      InsertAscends(SortInts(s[..|s| - 1]), s[|s| - 1]);
    }
  }

  lemma StrictWhenDistinct(s: seq<int>, values: set<int>)
    requires Ascending(s) && multiset(s) == multiset(values)
    ensures StrictlyAscending(s) && Elements(s) == values
  {
    forall i, j | 0 <= i < j < |s|
      ensures s[i] < s[j]
    {
      assert s == s[..i] + [s[i]] + s[i + 1..j] + [s[j]] + s[j + 1..];
      assert multiset(s)[s[i]] <= 1;
    }
    forall v
      ensures v in s <==> v in values
    {
      assert v in s <==> v in multiset(s);
    }
  }

  /******* Searching a field *******/

  /** `sort.SearchInts`: the first position whose value is at least `v`. */
  function SearchInts(vals: seq<int>, v: int, lo: nat, hi: nat): (i: nat)
    requires lo <= hi <= |vals|
    ensures lo <= i <= hi
    decreases hi - lo
  {
    if lo == hi then lo
    else
      var mid := lo + (hi - lo) / 2;
      if vals[mid] < v then SearchInts(vals, v, mid + 1, hi) else SearchInts(vals, v, lo, mid)
  }

  predicate Contains(vals: seq<int>, v: int) {
    var i := SearchInts(vals, v, 0, |vals|);
    i < |vals| && vals[i] == v
  }

  /** All values before position `i` are below `v`, and none from there on. */
  ghost predicate Splits(vals: seq<int>, v: int, lo: int, hi: int) {
    && (forall k :: 0 <= k < lo && k < |vals| ==> vals[k] < v)
    && (forall k :: 0 <= k < |vals| && hi <= k ==> v <= vals[k])
  }

  lemma Narrow(vals: seq<int>, v: int, lo: nat, mid: nat, hi: nat)
    requires StrictlyAscending(vals) && Splits(vals, v, lo, hi) && lo <= mid < hi <= |vals|
    ensures if vals[mid] < v then Splits(vals, v, mid + 1, hi) else Splits(vals, v, lo, mid)
  {
  }

  lemma {:induction false} SearchIntsFinds(vals: seq<int>, v: int, lo: nat, hi: nat)
    requires StrictlyAscending(vals) && lo <= hi <= |vals| && Splits(vals, v, lo, hi)
    ensures var i := SearchInts(vals, v, lo, hi); Splits(vals, v, i, i)
    decreases hi - lo
  {
    if lo < hi {
      var mid := lo + (hi - lo) / 2;
      Narrow(vals, v, lo, mid, hi);
      if vals[mid] < v {
        SearchIntsFinds(vals, v, mid + 1, hi);
      } else {
        SearchIntsFinds(vals, v, lo, mid);
      }
    }
  }

  /** On every parsed field the binary search is membership. */
  lemma ContainsIsMembership(vals: seq<int>, v: int)
    requires StrictlyAscending(vals)
    ensures Contains(vals, v) <==> v in vals
  {
    SearchIntsFinds(vals, v, 0, |vals|);
  }
}

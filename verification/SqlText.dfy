/**
 What the text of a WHERE clause selects, read word by word, and that the builder's
 text selects what is asked for.
 */
module SqlText {
  import opened Text
  import opened Statuses
  import opened EnqueuedTable
  import opened SqlBuilder

  /** The argument that a placeholder is bound to. */
  function Bound(n: nat, args: seq<Value>): Option<Value> {
    if 1 <= n <= |args| then Some(args[n - 1]) else None
  }

  /** Some placeholder up to the end of the list is bound to the status. */
  predicate InList(ps: seq<Piece>, args: seq<Value>, status: Status) {
    ps != [] && ps[0] != Fixed(CloseList) &&
    ((ps[0].Arg? && Bound(ps[0].n, args) == Some(State(status))) || InList(ps[1..], args, status))
  }

  /** What follows the list. */
  function AfterList(ps: seq<Piece>): (rest: seq<Piece>)
    ensures |rest| <= |ps|
  {
    if ps == [] then [] else if ps[0] == Fixed(CloseList) then ps[1..] else AfterList(ps[1..])
  }

  /** The text holds of a row: `1=1`, and each condition that is joined with AND. */
  predicate TextHolds(ps: seq<Piece>, args: seq<Value>, r: Row, now: int)
    decreases |ps|
  {
    if ps == [] then true
    else
      match ps[0]
      case Fixed(WhereTrue) => TextHolds(ps[1..], args, r, now)
      case Fixed(AndScheduledAtMost) =>
        && |ps| >= 2 && ps[1].Arg? && Bound(ps[1].n, args).Some? && Bound(ps[1].n, args).value.Time?
        && r.scheduledAt <= Bound(ps[1].n, args).value.t && TextHolds(ps[2..], args, r, now)
      case Fixed(AndStatusIn) => InList(ps[1..], args, r.status) && TextHolds(AfterList(ps[1..]), args, r, now)
      case Fixed(AndLockExpired) =>
        && (r.status != Processing || (r.lockedAt.Some? && r.lockedAt.value + 3600 < now))
        && TextHolds(ps[1..], args, r, now)
      case _ => false
  }

  /******* Lists *******/

  predicate NoClose(ps: seq<Piece>) {
    forall i :: 0 <= i < |ps| ==> ps[i] != Fixed(CloseList)
  }

  lemma {:induction false} ListText(a: seq<Piece>, rest: seq<Piece>, args: seq<Value>, status: Status)
    requires NoClose(a)
    ensures AfterList(a + ([Fixed(CloseList)] + rest)) == rest
    ensures InList(a + ([Fixed(CloseList)] + rest), args, status)
            <==> exists i :: 0 <= i < |a| && a[i].Arg? && Bound(a[i].n, args) == Some(State(status))
    decreases |a|
  {
    var tail := [Fixed(CloseList)] + rest;
    if a == [] {
      assert a + tail == tail && tail[1..] == rest;
    } else {
      assert (a + tail)[0] == a[0] && (a + tail)[1..] == a[1..] + tail;
      ListText(a[1..], rest, args, status);
      assert forall i :: 1 <= i < |a| ==> a[1..][i - 1] == a[i];
    }
  }

  /** The placeholders of a list are consecutive. */
  lemma {:induction false} ListArgs(first: nat, count: nat, n: nat)
    ensures NoClose(ArgList(first, count))
    ensures Arg(n) in ArgList(first, count) <==> first <= n < first + count
  {
    if count > 1 {
      ListArgs(first, count - 1, n);
      var shorter, more := ArgList(first, count - 1), [Fixed(Separator), Arg(first + count - 1)];
      assert ArgList(first, count) == shorter + more;
      assert Arg(n) in more <==> n == first + count - 1;
    }
  }

  /******* Conditions *******/

  lemma StatusText(first: nat, count: nat, rest: seq<Piece>, args: seq<Value>, r: Row, now: int)
    requires 1 <= first && first + count <= |args| + 1
    ensures TextHolds(ConditionPieces(StatusIn(first, count)) + rest, args, r, now)
            <==> Holds(StatusIn(first, count), args, r, now) && TextHolds(rest, args, r, now)
  {
    var list := ArgList(first, count);
    var ps := ConditionPieces(StatusIn(first, count)) + rest;
    assert ps[0] == Fixed(AndStatusIn) && ps[1..] == list + ([Fixed(CloseList)] + rest);
    ListArgs(first, count, 0);
    ListText(list, rest, args, r.status);
    var sub := args[first - 1..first - 1 + count];
    if State(r.status) in sub {
      var i :| 0 <= i < |sub| && sub[i] == State(r.status);
      ListArgs(first, count, first + i);
      var k :| 0 <= k < |list| && list[k] == Arg(first + i);
      assert Bound(list[k].n, args) == Some(State(r.status));
    }
    if k :| 0 <= k < |list| && list[k].Arg? && Bound(list[k].n, args) == Some(State(r.status)) {
      ListArgs(first, count, list[k].n);
      assert sub[list[k].n - first] == State(r.status);
    }
  }

  /** The placeholders of a condition are bound. */
  predicate Placed(c: Condition, args: seq<Value>) {
    match c
    case ScheduledBefore(n) => 1 <= n <= |args|
    case StatusIn(first, count) => 1 <= first && first + count <= |args| + 1
    case LockExpired => true
  }

  lemma ConditionText(c: Condition, rest: seq<Piece>, args: seq<Value>, r: Row, now: int)
    requires Placed(c, args)
    ensures TextHolds(ConditionPieces(c) + rest, args, r, now)
            <==> Holds(c, args, r, now) && TextHolds(rest, args, r, now)
  {
    var ps := ConditionPieces(c) + rest;
    match c
    case ScheduledBefore(n) => assert ps[0] == Fixed(AndScheduledAtMost) && ps[1] == Arg(n) && ps[2..] == rest;
    case StatusIn(first, count) => StatusText(first, count, rest, args, r, now);
    case LockExpired => assert ps[0] == Fixed(AndLockExpired) && ps[1..] == rest;
  }

  function Texts(cs: seq<Condition>): seq<Piece> {
    if cs == [] then [] else ConditionPieces(cs[0]) + Texts(cs[1..])
  }

  lemma {:induction false} TextsSnoc(cs: seq<Condition>, c: Condition)
    ensures Texts(cs + [c]) == Texts(cs) + ConditionPieces(c)
  {
    if cs == [] {
      assert ([] + [c])[1..] == [];
    } else {
      assert (cs + [c])[0] == cs[0] && (cs + [c])[1..] == cs[1..] + [c];
      TextsSnoc(cs[1..], c);
    }
  }

  lemma {:induction false} ClauseIsTexts(cs: seq<Condition>)
    ensures WherePieces(cs) == [Fixed(WhereTrue)] + Texts(cs)
  {
    if cs != [] {
      var n := |cs| - 1;
      ClauseIsTexts(cs[..n]);
      TextsSnoc(cs[..n], cs[n]);
      assert cs == cs[..n] + [cs[n]];
    }
  }

  lemma {:induction false} TextsHold(cs: seq<Condition>, args: seq<Value>, r: Row, now: int)
    requires forall i :: 0 <= i < |cs| ==> Placed(cs[i], args)
    ensures TextHolds(Texts(cs), args, r, now) <==> forall c :: c in cs ==> Holds(c, args, r, now)
  {
    if cs != [] {
      ConditionText(cs[0], Texts(cs[1..]), args, r, now);
      TextsHold(cs[1..], args, r, now);
      assert cs == [cs[0]] + cs[1..];
    }
  }

  lemma FilterIsPlaced(scheduledBefore: Option<int>, statuses: seq<Status>)
    ensures var cs, args := FilterConditions(scheduledBefore, statuses), FilterArgs(scheduledBefore, statuses);
            forall i :: 0 <= i < |cs| ==> Placed(cs[i], args)
  {
  }

  /** For every input the text of the clause, with its arguments, selects exactly the rows asked for. */
  lemma ClauseSelectsFilter(scheduledBefore: Option<int>, statuses: seq<Status>, r: Row, now: int)
    ensures TextHolds(WherePieces(FilterConditions(scheduledBefore, statuses)), FilterArgs(scheduledBefore, statuses),
                      r, now)
            <==> && (scheduledBefore.Some? ==> r.scheduledAt <= scheduledBefore.value)
                 && (statuses != [] ==> r.status in statuses)
                 && (r.status == Processing ==> r.lockedAt.Some? && r.lockedAt.value + 3600 < now)
  {
    var cs, args := FilterConditions(scheduledBefore, statuses), FilterArgs(scheduledBefore, statuses);
    ClauseIsTexts(cs);
    assert ([Fixed(WhereTrue)] + Texts(cs))[1..] == Texts(cs);
    FilterIsPlaced(scheduledBefore, statuses);
    TextsHold(cs, args, r, now);
    ClauseIsFilter(scheduledBefore, statuses);
    assert Filter(scheduledBefore, statuses, r, now)
           <==> (forall c :: c in cs ==> Holds(c, args, r, now));
  }
}

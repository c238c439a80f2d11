/**
 The query builders of the enqueued-job store
 (internal/store/postgres/postgres_enqueued_job_store.go): how the placeholders of
 a statement line up with its arguments. A statement is the list of its fixed words
 and numbered placeholders, in the order of the text.
 */
module SqlBuilder {
  import opened Text
  import opened Statuses
  import opened EnqueuedTable
  import BatchWorker

  /** An argument of a statement. */
  datatype Value = Str(s: string) | Time(t: int) | Num(n: int) | State(status: Status)

  /** The fixed parts of the statements. */
  datatype Word =
    | InsertValues | OpenRow | NowCloseRow | Separator
    | SelectCount | SelectColumns | WhereTrue
    | AndScheduledAtMost | AndStatusIn | CloseList | AndLockExpired
    | OrderByLimit | Offset

  datatype Piece = Fixed(word: Word) | Arg(n: nat)

  /** The numbers of the placeholders of a statement, from left to right. */
  function Numbers(ps: seq<Piece>): seq<int> {
    if ps == [] then []
    else Numbers(ps[..|ps| - 1]) + (if ps[|ps| - 1].Arg? then [ps[|ps| - 1].n] else [])
  }

  lemma {:induction false} NumbersAppend(a: seq<Piece>, b: seq<Piece>)
    ensures Numbers(a + b) == Numbers(a) + Numbers(b)
    decreases |b|
  {
    if b == [] {
      assert a + b == a;
    } else {
      assert (a + b)[..|a + b| - 1] == a + b[..|b| - 1];
      NumbersAppend(a, b[..|b| - 1]);
    }
  }

  lemma NumbersOfWord(w: Word)
    ensures Numbers([Fixed(w)]) == []
  {
  }

  lemma NumbersWord(ps: seq<Piece>, w: Word)
    ensures Numbers(ps + [Fixed(w)]) == Numbers(ps)
  {
    assert (ps + [Fixed(w)])[..|ps|] == ps;
  }

  /** A fixed word and a placeholder at the end of a statement. */
  lemma NumbersSnoc(ps: seq<Piece>, w: Word, n: nat)
    ensures Numbers(ps + [Fixed(w), Arg(n)]) == Numbers(ps) + [n]
  {
    assert ps + [Fixed(w), Arg(n)] == (ps + [Fixed(w)]) + [Arg(n)];
    NumbersAppend(ps, [Fixed(w)]);
    NumbersAppend(ps + [Fixed(w)], [Arg(n)]);
  }

  /******* BulkInsert *******/

  /** A job of a batch; its payload is None when it cannot be marshalled. */
  datatype BulkJob = BulkJob(name: string, payload: Option<string>, scheduledAt: int)

  function RowPieces(offset: nat): seq<Piece> {
    [Fixed(OpenRow), Arg(offset + 1)] + [Fixed(Separator), Arg(offset + 2)]
    + [Fixed(Separator), Arg(offset + 3)] + [Fixed(Separator), Arg(offset + 4)] + [Fixed(NowCloseRow)]
  }

  lemma NumbersOfRow(ps: seq<Piece>, offset: nat)
    ensures Numbers(ps + RowPieces(offset)) == Numbers(ps) + [offset + 1, offset + 2, offset + 3, offset + 4]
  {
    var a := ps + [Fixed(OpenRow), Arg(offset + 1)];
    var b := a + [Fixed(Separator), Arg(offset + 2)];
    var c := b + [Fixed(Separator), Arg(offset + 3)];
    var d := c + [Fixed(Separator), Arg(offset + 4)];
    NumbersSnoc(ps, OpenRow, offset + 1);
    NumbersSnoc(a, Separator, offset + 2);
    NumbersSnoc(b, Separator, offset + 3);
    NumbersSnoc(c, Separator, offset + 4);
    NumbersAppend(d, [Fixed(NowCloseRow)]);
    assert ps + RowPieces(offset) == d + [Fixed(NowCloseRow)];
  }

  /** The rows of a statement, joined by commas. */
  function RowsPieces(n: nat): seq<Piece> {
    if n == 0 then []
    else if n == 1 then RowPieces(0)
    else RowsPieces(n - 1) + [Fixed(Separator)] + RowPieces(4 * (n - 1))
  }

  lemma {:induction false} NumbersOfRows(n: nat)
    ensures Numbers([Fixed(InsertValues)] + RowsPieces(n)) == Serials(1, 4 * n)
  {
    var head := [Fixed(InsertValues)];
    NumbersOfWord(InsertValues);
    if n == 0 {
      assert head + RowsPieces(0) == head;
    } else if n == 1 {
      NumbersOfRow(head, 0);
    } else {
      NumbersOfRows(n - 1);
      var before := head + RowsPieces(n - 1) + [Fixed(Separator)];
      NumbersAppend(head + RowsPieces(n - 1), [Fixed(Separator)]);
      NumbersOfRow(before, 4 * (n - 1));
      assert head + RowsPieces(n) == before + RowPieces(4 * (n - 1));
    }
  }

  function BulkArgs(j: BulkJob): seq<Value>
    requires j.payload.Some?
  {
    [Str(j.name), Str(j.payload.value), Time(j.scheduledAt), Num(MAX_RETRY_ATTEMPT)]
  }

  /** What a bulk insert does: nothing for an empty batch, an error at a job, or one statement. */
  datatype BulkOutcome = NoStatement | CannotMarshal(index: nat) | Statement(query: seq<Piece>, args: seq<Value>)

  /** The arguments of row i are those of job i, four to a row. */
  ghost predicate ArgsOfBatch(batch: seq<BulkJob>, args: seq<Value>) {
    && |args| == 4 * |batch|
    && forall i :: 0 <= i < |batch| ==> batch[i].payload.Some? && args[4 * i..4 * i + 4] == BulkArgs(batch[i])
  }

  lemma ArgsSnoc(batch: seq<BulkJob>, args: seq<Value>, n: nat)
    requires n < |batch| && ArgsOfBatch(batch[..n], args) && batch[n].payload.Some?
    ensures ArgsOfBatch(batch[..n + 1], args + BulkArgs(batch[n]))
  {
    var longer := args + BulkArgs(batch[n]);
    assert forall k :: 0 <= k < n ==>
      batch[..n + 1][k] == batch[..n][k] && longer[4 * k..4 * k + 4] == args[4 * k..4 * k + 4];
    assert longer[4 * n..4 * n + 4] == BulkArgs(batch[n]);
  }

  /** The placeholders of job `i`, behind those of the jobs before it. */
  method AppendRow(rows: seq<Piece>, i: nat) returns (longer: seq<Piece>)
    requires rows == RowsPieces(i)
    ensures longer == RowsPieces(i + 1)
  {
    var offset := i * 4;
    longer := if i == 0 then RowPieces(offset) else rows + [Fixed(Separator)] + RowPieces(offset);
  }

  /**
   For every batch whose jobs can all be marshalled, the statement uses the
   placeholders 1 to len(args) in order, four to a row, and those of row i are bound
   to job i's values; otherwise the first job that cannot be marshalled is reported.
   */
  method BulkInsertQuery(batch: seq<BulkJob>) returns (r: BulkOutcome)
    ensures r.NoStatement? <==> batch == []
    ensures r.CannotMarshal? ==>
              && r.index < |batch| && batch[r.index].payload.None?
              && forall i :: 0 <= i < r.index ==> batch[i].payload.Some?
    ensures r.Statement? ==>
              && ArgsOfBatch(batch, r.args)
              && r.query == [Fixed(InsertValues)] + RowsPieces(|batch|) && Numbers(r.query) == Serials(1, |r.args|)
  {
    if |batch| == 0 {
      return NoStatement;
    }
    var args: seq<Value>, rows: seq<Piece> := [], [];
    for i := 0 to |batch|
      invariant rows == RowsPieces(i)
      invariant ArgsOfBatch(batch[..i], args)
      invariant forall k :: 0 <= k < i ==> batch[k].payload.Some?
    {
      if batch[i].payload.None? {
        return CannotMarshal(i);
      }
      rows := AppendRow(rows, i);
      ArgsSnoc(batch, args, i);
      args := args + BulkArgs(batch[i]);
    }
    assert batch[..|batch|] == batch;
    NumbersOfRows(|batch|);
    return Statement([Fixed(InsertValues)] + rows, args);
  }

  lemma Slices(a: seq<Piece>, b: seq<Piece>, lo: nat, hi: nat)
    ensures lo <= hi <= |a| ==> (a + b)[lo..hi] == a[lo..hi]
    ensures (a + b)[|a|..|a| + |b|] == b
  {
  }

  /** A row takes nine pieces, and a comma separates it from the next. */
  lemma {:induction false} RowAt(n: nat, i: nat)
    requires i < n
    ensures |RowsPieces(n)| == 10 * n - 1
    ensures RowsPieces(n)[10 * i..10 * i + 9] == RowPieces(4 * i)
    decreases n
  {
    if n == 1 {
      assert RowsPieces(1) == RowPieces(0) && RowsPieces(1)[0..9] == RowPieces(0);
    } else {
      var before, row := RowsPieces(n - 1), RowPieces(4 * (n - 1));
      var mid := before + [Fixed(Separator)];
      assert RowsPieces(n) == mid + row && |row| == 9;
      RowAt(n - 1, if i < n - 1 then i else 0);
      Slices(mid, row, 10 * i, 10 * i + 9);
      Slices(before, [Fixed(Separator)], 10 * i, 10 * i + 9);
    }
  }

  /** The pieces of row i in the text of a statement. */
  function RowText(query: seq<Piece>, i: nat): seq<Piece>
    requires 10 * i + 10 <= |query|
  {
    query[10 * i + 1..10 * i + 10]
  }

  /** The row with four column values; the others have their defaults. */
  function RowWith(name: Value, payload: Value, at: Value, attempts: Value): Option<Row> {
    if name.Str? && payload.Str? && at.Time? && attempts.Num? && attempts.n >= 0 then
      Some(Row(name.s, payload.s, Queued, 0, attempts.n, at.t, None, None))
    else None
  }

  predicate Bound(ns: seq<int>, args: seq<Value>) {
    forall k :: 0 <= k < |ns| ==> 1 <= ns[k] <= |args|
  }

  /** The row that a tuple of the statement adds: its placeholders name the values of the four columns. */
  function Denoted(tuple: seq<Piece>, args: seq<Value>): Option<Row> {
    var ns := Numbers(tuple);
    if |ns| == 4 && Bound(ns, args) then
      RowWith(args[ns[0] - 1], args[ns[1] - 1], args[ns[2] - 1], args[ns[3] - 1])
    else None
  }

  /** The batch is that of the batch worker, with its payloads marshalled. */
  ghost predicate Marshals(batch: seq<BulkJob>, jobs: seq<BatchWorker.Job>) {
    && |batch| == |jobs|
    && forall i :: 0 <= i < |jobs| ==> batch[i] == BulkJob(jobs[i].name, Some(jobs[i].payload), jobs[i].scheduledAt)
  }

  lemma FourArgs(batch: seq<BulkJob>, args: seq<Value>, i: nat)
    requires i < |batch| && ArgsOfBatch(batch, args)
    ensures args[4 * i] == Str(batch[i].name) && args[4 * i + 1] == Str(batch[i].payload.value)
    ensures args[4 * i + 2] == Time(batch[i].scheduledAt) && args[4 * i + 3] == Num(MAX_RETRY_ATTEMPT)
  {
    var four := args[4 * i..4 * i + 4];
    assert four[0] == args[4 * i] && four[1] == args[4 * i + 1];
    assert four[2] == args[4 * i + 2] && four[3] == args[4 * i + 3];
  }

  lemma TupleDenotes(tuple: seq<Piece>, args: seq<Value>, offset: nat)
    requires tuple == RowPieces(offset) && offset + 4 <= |args|
    ensures Denoted(tuple, args) == RowWith(args[offset], args[offset + 1], args[offset + 2], args[offset + 3])
  {
    NumbersOfRow([], offset);
    assert [] + tuple == tuple;
    var ns := Numbers(tuple);
    assert ns == [offset + 1, offset + 2, offset + 3, offset + 4];
    assert Bound(ns, args);
  }

  lemma RowTextAt(query: seq<Piece>, n: nat, i: nat)
    requires query == [Fixed(InsertValues)] + RowsPieces(n) && i < n
    ensures |query| == 10 * n && RowText(query, i) == RowPieces(4 * i)
  {
    RowAt(n, i);
    assert query[10 * i + 1..10 * i + 10] == RowsPieces(n)[10 * i..10 * i + 9];
  }

  /** Row i of the text carries its own placeholders, and they denote the row that the batch worker's table gets. */
  lemma {:induction false} RowBindsJob(batch: seq<BulkJob>, jobs: seq<BatchWorker.Job>, query: seq<Piece>,
                                       args: seq<Value>, i: nat)
    requires i < |batch| && ArgsOfBatch(batch, args) && Marshals(batch, jobs)
    requires query == [Fixed(InsertValues)] + RowsPieces(|batch|)
    ensures |query| == 10 * |batch| && RowText(query, i) == RowPieces(4 * i)
    ensures Denoted(RowText(query, i), args) == Some(BatchWorker.RowsOf(jobs)[i])
    ensures |batch| <= 1000 ==> |args| <= 4000
  {
    RowTextAt(query, |batch|, i);
    TupleDenotes(RowText(query, i), args, 4 * i);
    FourArgs(batch, args, i);
  }

  /******* FetchDueJobs *******/

  /** The conditions of the WHERE clause, by their placeholders. */
  datatype Condition =
    | ScheduledBefore(n: nat)
    | StatusIn(first: nat, count: nat)
    | LockExpired

  const LOCK_TTL: int := 3600

  /** What a condition says of a row, given the arguments. */
  predicate Holds(c: Condition, args: seq<Value>, r: Row, now: int) {
    match c
    case ScheduledBefore(n) => 1 <= n <= |args| && args[n - 1].Time? && r.scheduledAt <= args[n - 1].t
    case StatusIn(first, count) =>
      1 <= first && first + count <= |args| + 1 && State(r.status) in args[first - 1..first - 1 + count]
    case LockExpired => r.status != Processing || (r.lockedAt.Some? && r.lockedAt.value < now - LOCK_TTL)
  }

  function ArgList(first: nat, count: nat): seq<Piece> {
    if count == 0 then []
    else if count == 1 then [Arg(first)]
    else ArgList(first, count - 1) + [Fixed(Separator), Arg(first + count - 1)]
  }

  function ConditionPieces(c: Condition): seq<Piece> {
    match c
    case ScheduledBefore(n) => [Fixed(AndScheduledAtMost), Arg(n)]
    case StatusIn(first, count) => [Fixed(AndStatusIn)] + ArgList(first, count) + [Fixed(CloseList)]
    case LockExpired => [Fixed(AndLockExpired)]
  }

  function WherePieces(cs: seq<Condition>): seq<Piece> {
    if cs == [] then [Fixed(WhereTrue)] else WherePieces(cs[..|cs| - 1]) + ConditionPieces(cs[|cs| - 1])
  }

  lemma {:induction false} NumbersOfArgList(first: nat, count: nat)
    ensures Numbers(ArgList(first, count)) == Serials(first, count)
  {
    if count == 1 {
      assert [Arg(first)][..0] == [];
    } else if count > 1 {
      NumbersOfArgList(first, count - 1);
      NumbersSnoc(ArgList(first, count - 1), Separator, first + count - 1);
    }
  }

  lemma NumbersInBrackets(ps: seq<Piece>, w: Word, list: seq<Piece>, w': Word)
    ensures Numbers(ps + ([Fixed(w)] + list + [Fixed(w')])) == Numbers(ps) + Numbers(list)
  {
    NumbersOfWord(w);
    NumbersAppend([Fixed(w)], list);
    NumbersWord([Fixed(w)] + list, w');
    NumbersAppend(ps, [Fixed(w)] + list + [Fixed(w')]);
  }

  lemma SerialsAppend(n: nat, count: nat)
    ensures Serials(1, n) + Serials(n + 1, count) == Serials(1, n + count)
  {
  }

  lemma SerialsSnoc(n: nat)
    ensures Serials(1, n) + [n + 1] == Serials(1, n + 1)
  {
  }

  /** A clause that uses the placeholders 1 to n goes on with the next ones. */
  lemma NumbersOfStatusIn(ps: seq<Piece>, n: nat, count: nat)
    requires Numbers(ps) == Serials(1, n)
    ensures Numbers(ps + ConditionPieces(StatusIn(n + 1, count))) == Serials(1, n + count)
  {
    NumbersInBrackets(ps, AndStatusIn, ArgList(n + 1, count), CloseList);
    NumbersOfArgList(n + 1, count);
    SerialsAppend(n, count);
  }

  /** The filter that a caller of FetchDueJobs asks for. */
  predicate Filter(scheduledBefore: Option<int>, statuses: seq<Status>, r: Row, now: int) {
    && (scheduledBefore.Some? ==> r.scheduledAt <= scheduledBefore.value)
    && (statuses != [] ==> r.status in statuses)
    && (r.status == Processing ==> r.lockedAt.Some? && r.lockedAt.value < now - LOCK_TTL)
  }

  function StateArgs(statuses: seq<Status>): (args: seq<Value>)
    ensures |args| == |statuses| && forall i :: 0 <= i < |statuses| ==> args[i] == State(statuses[i])
  {
    seq(|statuses|, i requires 0 <= i < |statuses| => State(statuses[i]))
  }

  function CountQuery(cs: seq<Condition>): seq<Piece> {
    [Fixed(SelectCount)] + WherePieces(cs)
  }

  function SelectQuery(cs: seq<Condition>, n: nat): seq<Piece> {
    [Fixed(SelectColumns)] + WherePieces(cs) + [Fixed(OrderByLimit), Arg(n + 1)] + [Fixed(Offset), Arg(n + 2)]
  }

  lemma CountNumbers(cs: seq<Condition>, n: nat)
    requires Numbers(WherePieces(cs)) == Serials(1, n)
    ensures Numbers(CountQuery(cs)) == Serials(1, n)
  {
    NumbersAfterWord(SelectCount, WherePieces(cs));
  }

  lemma NumbersAfterWord(w: Word, ps: seq<Piece>)
    ensures Numbers([Fixed(w)] + ps) == Numbers(ps)
  {
    NumbersOfWord(w);
    NumbersAppend([Fixed(w)], ps);
  }

  lemma SelectNumbers(cs: seq<Condition>, n: nat)
    requires Numbers(WherePieces(cs)) == Serials(1, n)
    ensures Numbers(SelectQuery(cs, n)) == Serials(1, n + 2)
  {
    NumbersAfterWord(SelectColumns, WherePieces(cs));
    NumbersOfTail([Fixed(SelectColumns)] + WherePieces(cs), n);
  }

  lemma NumbersOfTail(ps: seq<Piece>, n: nat)
    requires Numbers(ps) == Serials(1, n)
    ensures Numbers(ps + [Fixed(OrderByLimit), Arg(n + 1)] + [Fixed(Offset), Arg(n + 2)]) == Serials(1, n + 2)
  {
    NumbersSnoc(ps, OrderByLimit, n + 1);
    NumbersSnoc(ps + [Fixed(OrderByLimit), Arg(n + 1)], Offset, n + 2);
    SerialsSnoc(n);
    SerialsSnoc(n + 1);
  }

  lemma WhereSnoc(cs: seq<Condition>, c: Condition)
    ensures WherePieces(cs + [c]) == WherePieces(cs) + ConditionPieces(c)
  {
    assert (cs + [c])[..|cs + [c]| - 1] == cs;
  }

  /** The loop over the statuses. */
  method StatusList(first: nat, statuses: seq<Status>) returns (placeholders: seq<Piece>, args: seq<Value>)
    ensures placeholders == ArgList(first, |statuses|) && args == StateArgs(statuses)
  {
    placeholders, args := [], [];
    var argIndex := first;
    for k := 0 to |statuses|
      invariant argIndex == first + k
      invariant placeholders == ArgList(first, k)
      invariant args == StateArgs(statuses[..k])
    {
      placeholders := if k == 0 then [Arg(argIndex)] else placeholders + [Fixed(Separator), Arg(argIndex)];
      args := args + [State(statuses[k])];
      argIndex := argIndex + 1;
    }
    assert statuses[..|statuses|] == statuses;
  }

  function TimeArgs(scheduledBefore: Option<int>): seq<Value> {
    if scheduledBefore.Some? then [Time(scheduledBefore.value)] else []
  }

  function FilterArgs(scheduledBefore: Option<int>, statuses: seq<Status>): seq<Value> {
    TimeArgs(scheduledBefore) + StateArgs(statuses)
  }

  ghost function TimeConditions(scheduledBefore: Option<int>): seq<Condition> {
    if scheduledBefore.Some? then [ScheduledBefore(1)] else []
  }

  ghost function FilterConditions(scheduledBefore: Option<int>, statuses: seq<Status>): seq<Condition> {
    StatusConditions(TimeConditions(scheduledBefore), if scheduledBefore.Some? then 1 else 0, statuses) + [LockExpired]
  }

  /** The clause built so far: its placeholders are 1 to len(args), in the order of the arguments. */
  ghost predicate ClauseOk(clause: seq<Piece>, cs: seq<Condition>, n: nat) {
    clause == WherePieces(cs) && Numbers(clause) == Serials(1, n)
  }

  lemma AddScheduledBefore(clause: seq<Piece>, cs: seq<Condition>, n: nat)
    requires ClauseOk(clause, cs, n)
    ensures ClauseOk(clause + [Fixed(AndScheduledAtMost), Arg(n + 1)], cs + [ScheduledBefore(n + 1)], n + 1)
  {
    NumbersSnoc(clause, AndScheduledAtMost, n + 1);
    WhereSnoc(cs, ScheduledBefore(n + 1));
    SerialsSnoc(n);
  }

  lemma AddStatusIn(clause: seq<Piece>, cs: seq<Condition>, n: nat, count: nat)
    requires ClauseOk(clause, cs, n)
    ensures ClauseOk(clause + ConditionPieces(StatusIn(n + 1, count)), cs + [StatusIn(n + 1, count)], n + count)
  {
    NumbersOfStatusIn(clause, n, count);
    WhereSnoc(cs, StatusIn(n + 1, count));
  }

  lemma AddLockExpired(clause: seq<Piece>, cs: seq<Condition>, n: nat)
    requires ClauseOk(clause, cs, n)
    ensures ClauseOk(clause + [Fixed(AndLockExpired)], cs + [LockExpired], n)
  {
    NumbersWord(clause, AndLockExpired);
    WhereSnoc(cs, LockExpired);
  }

  /** The clause with the time condition, if there is one. */
  method TimeClause(scheduledBefore: Option<int>) returns (clause: seq<Piece>, args: seq<Value>, argIndex: nat)
    ensures ClauseOk(clause, TimeConditions(scheduledBefore), |args|)
    ensures args == TimeArgs(scheduledBefore) && argIndex == |args| + 1
  {
    clause, args, argIndex := [Fixed(WhereTrue)], [], 1;
    NumbersOfWord(WhereTrue);
    if scheduledBefore.Some? {
      AddScheduledBefore(clause, [], 0);
      clause := clause + [Fixed(AndScheduledAtMost), Arg(argIndex)];
      args := args + [Time(scheduledBefore.value)];
      argIndex := argIndex + 1;
    }
  }

  ghost function StatusConditions(cs: seq<Condition>, n: nat, statuses: seq<Status>): seq<Condition> {
    if statuses != [] then cs + [StatusIn(n + 1, |statuses|)] else cs
  }

  /** The clause with the status condition added, if statuses are asked for. */
  method StatusClause(before: seq<Piece>, ghost cs: seq<Condition>, argIndex: nat, statuses: seq<Status>)
      returns (clause: seq<Piece>, args: seq<Value>)
    requires argIndex >= 1 && ClauseOk(before, cs, argIndex - 1)
    ensures args == StateArgs(statuses)
    ensures ClauseOk(clause, StatusConditions(cs, argIndex - 1, statuses), argIndex - 1 + |args|)
  {
    clause, args := before, [];
    if |statuses| > 0 {
      var placeholders;
      placeholders, args := StatusList(argIndex, statuses);
      clause := before + ([Fixed(AndStatusIn)] + placeholders + [Fixed(CloseList)]);
      AddStatusIn(before, cs, argIndex - 1, |statuses|);
    }
  }

  /** The shared clause of both queries. */
  method WhereClause(statuses: seq<Status>, scheduledBefore: Option<int>)
      returns (clause: seq<Piece>, args: seq<Value>, argIndex: nat)
    ensures ClauseOk(clause, FilterConditions(scheduledBefore, statuses), |args|)
    ensures args == FilterArgs(scheduledBefore, statuses) && argIndex == |args| + 1
  {
    var more;
    clause, args, argIndex := TimeClause(scheduledBefore);
    ghost var times, n := TimeConditions(scheduledBefore), |args|;
    clause, more := StatusClause(clause, times, argIndex, statuses);
    args := args + more;
    argIndex := argIndex + |more|;
    AddLockExpired(clause, StatusConditions(times, n, statuses), |args|);
    clause := clause + [Fixed(AndLockExpired)];
  }

  /**
   For every input the count query uses the placeholders 1 to len(args) - 2 and the
   select query 1 to len(args), the last two for the limit and the offset; both carry
   the same clause, and on its arguments the clause is the filter asked for.
   */
  method FetchDueQueries(page: int, pageSize: int, statuses: seq<Status>, scheduledBefore: Option<int>)
      returns (countQuery: seq<Piece>, selectQuery: seq<Piece>, args: seq<Value>)
    ensures |args| >= 2
    ensures Numbers(countQuery) == Serials(1, |args| - 2) && Numbers(selectQuery) == Serials(1, |args|)
    ensures |selectQuery| >= 4 && selectQuery[|selectQuery| - 4..]
                                  == [Fixed(OrderByLimit), Arg(|args| - 1), Fixed(Offset), Arg(|args|)]
    ensures args[|args| - 2..] == [Num(pageSize), Num(((if page < 1 then 1 else page) - 1) * pageSize)]
    ensures var conditions := FilterConditions(scheduledBefore, statuses);
            && countQuery == CountQuery(conditions) && selectQuery == SelectQuery(conditions, |args| - 2)
            && forall r, now :: (forall c :: c in conditions ==> Holds(c, args[..|args| - 2], r, now))
                                <==> Filter(scheduledBefore, statuses, r, now)
  {
    var offset := ((if page < 1 then 1 else page) - 1) * pageSize;
    var clause, filterArgs, argIndex := WhereClause(statuses, scheduledBefore);
    CountNumbers(FilterConditions(scheduledBefore, statuses), |filterArgs|);
    SelectNumbers(FilterConditions(scheduledBefore, statuses), |filterArgs|);
    ClauseIsFilter(scheduledBefore, statuses);
    countQuery := [Fixed(SelectCount)] + clause;
    selectQuery :=
      [Fixed(SelectColumns)] + clause + [Fixed(OrderByLimit), Arg(argIndex)] + [Fixed(Offset), Arg(argIndex + 1)];
    args := filterArgs + [Num(pageSize), Num(offset)];
    assert args[..|args| - 2] == filterArgs;
  }

  lemma StatusAmongArgs(statuses: seq<Status>, status: Status)
    ensures State(status) in StateArgs(statuses) <==> status in statuses
  {
    if status in statuses {
      var i :| 0 <= i < |statuses| && statuses[i] == status;
      assert StateArgs(statuses)[i] == State(status);
    }
  }

  lemma ClauseIsFilter(scheduledBefore: Option<int>, statuses: seq<Status>)
    ensures forall r, now ::
      (forall c :: c in FilterConditions(scheduledBefore, statuses) ==>
         Holds(c, FilterArgs(scheduledBefore, statuses), r, now))
      <==> Filter(scheduledBefore, statuses, r, now)
  {
    var args, conditions := FilterArgs(scheduledBefore, statuses), FilterConditions(scheduledBefore, statuses);
    var first := if scheduledBefore.Some? then 2 else 1;
    assert args[first - 1..first - 1 + |statuses|] == StateArgs(statuses);
    forall r: Row, now
      ensures (forall c :: c in conditions ==> Holds(c, args, r, now)) <==> Filter(scheduledBefore, statuses, r, now)
    {
      StatusAmongArgs(statuses, r.status);
      assert LockExpired in conditions;
      assert scheduledBefore.Some? ==> ScheduledBefore(1) in conditions;
      assert statuses != [] ==> StatusIn(first, |statuses|) in conditions;
    }
  }

  /** With no status asked for, a locked row is shown again 3600 seconds after its lock. */
  lemma ShownAfterAnHour(r: Row, now: int)
    ensures Filter(None, [], r, now)
            <==> r.status != Processing || (r.lockedAt.Some? && r.lockedAt.value + 3600 < now)
  {
  }

  /** What a worker asks for is exactly the due jobs. */
  lemma WorkerFilterIsDue(t: Table, id: int, now: int)
    requires id in t
    ensures Filter(Some(now), [Queued, Retrying], t[id], now) <==> Due(t, id, now)
  {
  }
}

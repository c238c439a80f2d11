/**
 What a run of the cron managers leaves in the table, by its events alone: when each
 next run was computed and from which expression, and what each handler returned.
 */
module CronHistory {
  import opened Statuses
  import opened Text
  import opened CronSearch
  import opened CronTable
  import opened CronProtocol

  /**
   A job by its events: the expression it was last scheduled with, and the expression
   and the time that its next run was last computed from.
   */
  datatype Job = Job(expr: string, active: bool, planned: string, at: int, last: Option<int>, status: Status,
                     lockedAt: Option<int>)

  /** The job and the expression that an execution was fetched with. */
  datatype Source = Source(job: string, expr: string)

  /**
   `seen` has the expressions at the last fetch of each worker, `sources` what each
   execution was fetched with, `began` the clock when it began, `ended` what it returned.
   */
  datatype History = History(jobs: map<string, Job>, seen: map<int, map<string, string>>, sources: map<int, Source>,
                             began: map<int, int>, ended: map<int, bool>)

  /** The last tick, or the start of the run. */
  function Clock(now: int, es: seq<Event>): int {
    if es == [] then now
    else if es[|es| - 1].Tick? then es[|es| - 1].to
    else Clock(now, es[..|es| - 1])
  }

  lemma {:induction false} ClockIsLastTick(now: int, es: seq<Event>)
    requires ValidRun(now, es)
    ensures After(now, es).now == Clock(now, es)
  {
    if es != [] {
      ClockIsLastTick(now, es[..|es| - 1]);
    }
  }

  function Scheduled(jobs: map<string, Job>, name: string, expr: string, clock: int): map<string, Job> {
    jobs[name := if name in jobs then jobs[name].(expr := expr, planned := expr, at := clock)
                 else Job(expr, true, expr, clock, None, Queued, None)]
  }

  function Expressions(jobs: map<string, Job>): map<string, string> {
    map name | name in jobs :: jobs[name].expr
  }

  function LockedAt(h: History, s: State, w: int, clock: int): History
    requires w in s.batches && s.batches[w] != []
  {
    var name := s.batches[w][0].job;
    if name in h.jobs && w in h.seen && name in h.seen[w] then
      h.(jobs := h.jobs[name := h.jobs[name].(status := Processing, lockedAt := Some(clock))],
         sources := h.sources[s.nextExec := Source(name, h.seen[w][name])])
    else h
  }

  function Marked(h: History, x: int): History {
    if x in h.sources && x in h.ended && h.sources[x].job in h.jobs then
      var name := h.sources[x].job;
      h.(jobs := h.jobs[name := if h.ended[x] then h.jobs[name].(status := Succeeded, lockedAt := None)
                                else h.jobs[name].(status := Failed)])
    else h
  }

  function TimesWritten(h: History, x: int): History {
    if x in h.sources && x in h.began && h.sources[x].job in h.jobs then
      var name := h.sources[x].job;
      var job := h.jobs[name].(last := Some(h.began[x]), planned := h.sources[x].expr, at := h.began[x]);
      h.(jobs := h.jobs[name := job])
    else h
  }

  function Extended(h: History, s: State, e: Event, clock: int): History
    requires Enabled(s, e)
  {
    match e
    case Schedule(name, expr) => h.(jobs := Scheduled(h.jobs, name, expr, clock))
    case Activate(name, active) =>
      if name in h.jobs then h.(jobs := h.jobs[name := h.jobs[name].(active := active)]) else h
    case Fetch(w, _) => h.(seen := h.seen[w := Expressions(h.jobs)])
    case Lock(w, outcome) => if Locks(s, w, outcome) then LockedAt(h, s, w, clock) else h
    case Begin(x) => h.(began := h.began[x := clock])
    case Finish(x, ok) => h.(ended := h.ended[x := ok])
    case Mark(x, committed) => if committed then Marked(h, x) else h
    case WriteTimes(x, committed) => if committed then TimesWritten(h, x) else h
    case _ => h
  }

  ghost function HistoryOf(now: int, es: seq<Event>): History
    requires ValidRun(now, es)
  {
    if es == [] then History(map[], map[], map[], map[], map[])
    else
      var before := es[..|es| - 1];
      Extended(HistoryOf(now, before), After(now, before), es[|es| - 1], Clock(now, before))
  }

  /** The row of a job, by its events. */
  ghost predicate IsRow(r: CronRow, j: Job) {
    && r.status == j.status && r.lockedAt == j.lockedAt && r.lastRun == j.last
    && r.active == j.active && r.expr == j.expr
    && r.nextRun == NextRun(j.planned, j.at)
  }

  ghost predicate RowsTold(t: CronTable, jobs: map<string, Job>) {
    && (forall name :: name in t <==> name in jobs)
    && (forall name :: name in t ==> IsRow(t[name], jobs[name]))
  }

  ghost predicate SnapshotTold(snapshot: Snapshot, w: int, h: History) {
    && w in h.seen && snapshot.job in h.seen[w] && snapshot.job in h.jobs
    && h.seen[w][snapshot.job] == snapshot.expr
  }

  ghost predicate BatchTold(batch: seq<Snapshot>, w: int, h: History) {
    forall i :: 0 <= i < |batch| ==> SnapshotTold(batch[i], w, h)
  }

  ghost predicate BatchesTold(s: State, h: History) {
    forall w :: w in s.batches ==> BatchTold(s.batches[w], w, h)
  }

  /** What an execution carries is what its events were. */
  ghost predicate IsExecution(x: Execution, k: int, h: History) {
    && k in h.sources && h.sources[k] == Source(x.job, x.expr) && x.job in h.jobs
    && match x.phase
       case Running(ranAt, next) => k in h.began && ranAt == h.began[k] && next == NextRun(x.expr, ranAt)
       case Posted(ok, ranAt, next) =>
         k in h.began && ranAt == h.began[k] && next == NextRun(x.expr, ranAt) && k in h.ended && ok == h.ended[k]
       case Marked(ranAt, next) => k in h.began && ranAt == h.began[k] && next == NextRun(x.expr, ranAt)
       case _ => true
  }

  ghost predicate ExecsTold(s: State, h: History) {
    forall x :: x in s.execs ==> IsExecution(s.execs[x], x, h)
  }

  ghost predicate Told(s: State, h: History) {
    RowsTold(s.table, h.jobs) && BatchesTold(s, h) && ExecsTold(s, h)
  }

  /** Jobs and what executions were fetched with are never forgotten. */
  lemma NothingForgotten(s: State, e: Event, h: History)
    requires Enabled(s, e)
    ensures var h' := Extended(h, s, e, s.now);
            && (forall name :: name in h.jobs ==> name in h'.jobs)
            && (forall x :: x in h.sources && x != s.nextExec ==> x in h'.sources && h'.sources[x] == h.sources[x])
            && (e.Fetch? || h'.seen == h.seen)
  {
  }

  lemma WriteKeepsRows(t: CronTable, jobs: map<string, Job>, name: string, r: CronRow, j: Job)
    requires RowsTold(t, jobs) && IsRow(r, j)
    ensures RowsTold(t[name := r], jobs[name := j])
  {
  }

  lemma LockKeepsRows(s: State, w: int, outcome: LockOutcome, h: History)
    requires Told(s, h) && Enabled(s, Lock(w, outcome)) && Locks(s, w, outcome)
    ensures RowsTold(ApplyLock(s, w, outcome).table, LockedAt(h, s, w, s.now).jobs)
  {
    var name := s.batches[w][0].job;
    assert BatchTold(s.batches[w], w, h) && SnapshotTold(s.batches[w][0], w, h);
    WriteKeepsRows(s.table, h.jobs, name, s.table[name].(status := Processing, lockedAt := Some(s.now)),
                   h.jobs[name].(status := Processing, lockedAt := Some(s.now)));
  }

  lemma MarkKeepsRows(s: State, x: int, h: History)
    requires Told(s, h) && Enabled(s, Mark(x, true))
    ensures RowsTold(ApplyMark(s, x, true).table, Marked(h, x).jobs)
  {
    assert IsExecution(s.execs[x], x, h);
    var name := s.execs[x].job;
    WriteKeepsRows(s.table, h.jobs, name, ApplyMark(s, x, true).table[name], Marked(h, x).jobs[name]);
  }

  lemma TimesKeepRows(s: State, x: int, h: History)
    requires Told(s, h) && Enabled(s, WriteTimes(x, true))
    ensures RowsTold(ApplyWriteTimes(s, x, true).table, TimesWritten(h, x).jobs)
  {
    assert IsExecution(s.execs[x], x, h);
    var name := s.execs[x].job;
    WriteKeepsRows(s.table, h.jobs, name, ApplyWriteTimes(s, x, true).table[name], TimesWritten(h, x).jobs[name]);
  }

  lemma ScheduleKeepsRows(s: State, name: string, expr: string, h: History)
    requires RowsTold(s.table, h.jobs)
    ensures RowsTold(AddOrUpdate(s.table, name, NextRun(expr, s.now), expr), Scheduled(h.jobs, name, expr, s.now))
  {
    var t, jobs := AddOrUpdate(s.table, name, NextRun(expr, s.now), expr), Scheduled(h.jobs, name, expr, s.now);
    WriteKeepsRows(s.table, h.jobs, name, t[name], jobs[name]);
  }

  lemma ActivateKeepsRows(s: State, name: string, active: bool, h: History)
    requires RowsTold(s.table, h.jobs) && name in h.jobs
    ensures RowsTold(SetActive(s.table, name, active), h.jobs[name := h.jobs[name].(active := active)])
  {
    WriteKeepsRows(s.table, h.jobs, name, s.table[name].(active := active), h.jobs[name].(active := active));
  }

  lemma StepKeepsRows(s: State, e: Event, h: History)
    requires Told(s, h) && Enabled(s, e)
    ensures RowsTold(Apply(s, e).table, Extended(h, s, e, s.now).jobs)
  {
    match e
    case Schedule(name, expr) => ScheduleKeepsRows(s, name, expr, h);
    case Activate(name, active) =>
      if name in h.jobs {
        ActivateKeepsRows(s, name, active, h);
      }
    case Lock(w, outcome) =>
      if Locks(s, w, outcome) {
        LockKeepsRows(s, w, outcome, h);
      }
    case Mark(x, committed) =>
      if committed {
        MarkKeepsRows(s, x, h);
      }
    case WriteTimes(x, committed) =>
      if committed {
        TimesKeepRows(s, x, h);
      }
    case _ =>
  }

  lemma FetchedIsTold(s: State, w: int, names: seq<string>, h: History)
    requires RowsTold(s.table, h.jobs) && Enabled(s, Fetch(w, names))
    ensures BatchTold(ApplyFetch(s, w, names).batches[w], w, h.(seen := h.seen[w := Expressions(h.jobs)]))
  {
    forall i | 0 <= i < |names|
      ensures names[i] in h.jobs && h.jobs[names[i]].expr == s.table[names[i]].expr
    {
      assert IsRow(s.table[names[i]], h.jobs[names[i]]);
    }
  }

  lemma FetchKeepsBatches(s: State, w: int, names: seq<string>, h: History)
    requires Told(s, h) && Enabled(s, Fetch(w, names))
    ensures BatchesTold(ApplyFetch(s, w, names), h.(seen := h.seen[w := Expressions(h.jobs)]))
  {
    var s', h' := ApplyFetch(s, w, names), h.(seen := h.seen[w := Expressions(h.jobs)]);
    FetchedIsTold(s, w, names, h);
    forall v | v in s'.batches
      ensures BatchTold(s'.batches[v], v, h')
    {
      if v != w {
        assert BatchTold(s.batches[v], v, h) && s'.batches[v] == s.batches[v];
        RestIsTold(s.batches[v], s'.batches[v], v, h, h');
      }
    }
  }

  /** What is left of a batch is told as long as nothing is forgotten. */
  lemma RestIsTold(batch: seq<Snapshot>, rest: seq<Snapshot>, w: int, h: History, h': History)
    requires BatchTold(batch, w, h) && (rest == batch || rest == [] || (batch != [] && rest == batch[1..]))
    requires w in h.seen ==> w in h'.seen && h'.seen[w] == h.seen[w]
    requires forall name :: name in h.jobs ==> name in h'.jobs
    ensures BatchTold(rest, w, h')
  {
    forall i | 0 <= i < |rest|
      ensures SnapshotTold(rest[i], w, h')
    {
      var k := if rest == batch then i else i + 1;
      assert rest[i] == batch[k] && SnapshotTold(batch[k], w, h);
    }
  }

  /** A batch stays, loses its head, or is dropped. */
  ghost predicate BatchesShrink(s: State, s': State) {
    forall w :: w in s'.batches ==>
      || s'.batches[w] == []
      || (&& w in s.batches
          && (s'.batches[w] == s.batches[w] || (s.batches[w] != [] && s'.batches[w] == s.batches[w][1..])))
  }

  lemma OnlyFetchFills(s: State, e: Event)
    requires Enabled(s, e) && !e.Fetch?
    ensures BatchesShrink(s, Apply(s, e))
  {
  }

  lemma BatchesStayTold(s: State, s': State, h: History, h': History)
    requires BatchesTold(s, h) && h'.seen == h.seen && forall name :: name in h.jobs ==> name in h'.jobs
    requires BatchesShrink(s, s')
    ensures BatchesTold(s', h')
  {
    forall w | w in s'.batches
      ensures BatchTold(s'.batches[w], w, h')
    {
      if w in s.batches {
        assert BatchTold(s.batches[w], w, h);
        RestIsTold(s.batches[w], s'.batches[w], w, h, h');
      }
    }
  }

  lemma StepKeepsBatches(s: State, e: Event, h: History)
    requires Told(s, h) && Enabled(s, e)
    ensures BatchesTold(Apply(s, e), Extended(h, s, e, s.now))
  {
    match e
    case Fetch(w, names) => FetchKeepsBatches(s, w, names, h);
    case _ =>
      NothingForgotten(s, e, h);
      OnlyFetchFills(s, e);
      BatchesStayTold(s, Apply(s, e), h, Extended(h, s, e, s.now));
  }

  /** Executions that go on, or are lost, are told as long as nothing is forgotten. */
  lemma ExecsStayTold(s: State, s': State, h: History, h': History)
    requires ExecsTold(s, h) && h'.began == h.began && h'.ended == h.ended
    requires forall name :: name in h.jobs ==> name in h'.jobs
    requires forall x :: x in s'.execs ==>
               && x in s.execs && s'.execs[x].job == s.execs[x].job && s'.execs[x].expr == s.execs[x].expr
               && (s'.execs[x].phase == s.execs[x].phase || s'.execs[x].phase == Lost)
               && x in h'.sources && (x in h.sources ==> h'.sources[x] == h.sources[x])
    ensures ExecsTold(s', h')
  {
    forall x | x in s'.execs
      ensures IsExecution(s'.execs[x], x, h')
    {
      assert IsExecution(s.execs[x], x, h);
    }
  }

  /** One execution moves on. */
  lemma OneMoves(s: State, x: int, phase: Phase, h: History, h': History)
    requires ExecsTold(s, h) && x in s.execs
    requires forall name :: name in h.jobs ==> name in h'.jobs
    requires h'.sources == h.sources
    requires forall y :: y in h.began && y != x ==> y in h'.began && h'.began[y] == h.began[y]
    requires forall y :: y in h.ended && y != x ==> y in h'.ended && h'.ended[y] == h.ended[y]
    requires IsExecution(s.execs[x].(phase := phase), x, h')
    ensures ExecsTold(SetPhase(s, x, phase), h')
  {
    forall y | y in s.execs && y != x
      ensures IsExecution(s.execs[y], y, h')
    {
      assert IsExecution(s.execs[y], y, h);
    }
  }

  lemma LockKeepsExecs(s: State, w: int, outcome: LockOutcome, h: History)
    requires ExecsNumbered(s) && Told(s, h) && Enabled(s, Lock(w, outcome)) && Locks(s, w, outcome)
    ensures ExecsTold(ApplyLock(s, w, outcome), LockedAt(h, s, w, s.now))
  {
    var s', h', head := ApplyLock(s, w, outcome), LockedAt(h, s, w, s.now), s.batches[w][0];
    assert BatchTold(s.batches[w], w, h) && SnapshotTold(head, w, h);
    forall x | x in s'.execs
      ensures IsExecution(s'.execs[x], x, h')
    {
      if x != s.nextExec {
        assert IsExecution(s.execs[x], x, h);
      }
    }
  }

  lemma BeginKeepsExecs(s: State, x: int, h: History)
    requires Told(s, h) && Enabled(s, Begin(x))
    ensures ExecsTold(Apply(s, Begin(x)), h.(began := h.began[x := s.now]))
  {
    assert IsExecution(s.execs[x], x, h);
    OneMoves(s, x, Running(s.now, NextRun(s.execs[x].expr, s.now)), h, h.(began := h.began[x := s.now]));
  }

  lemma FinishKeepsExecs(s: State, x: int, ok: bool, h: History)
    requires Told(s, h) && Enabled(s, Finish(x, ok))
    ensures ExecsTold(Apply(s, Finish(x, ok)), h.(ended := h.ended[x := ok]))
  {
    assert IsExecution(s.execs[x], x, h);
    var phase := s.execs[x].phase;
    OneMoves(s, x, Posted(ok, phase.ranAt, phase.next), h, h.(ended := h.ended[x := ok]));
  }

  lemma MarkKeepsExecs(s: State, x: int, h: History, h': History)
    requires Told(s, h) && x in s.execs && s.execs[x].phase.Posted?
    requires h'.sources == h.sources && h'.began == h.began && h'.ended == h.ended
    requires forall name :: name in h.jobs ==> name in h'.jobs
    ensures ExecsTold(SetPhase(s, x, Phase.Marked(s.execs[x].phase.ranAt, s.execs[x].phase.next)), h')
  {
    assert IsExecution(s.execs[x], x, h);
    OneMoves(s, x, Phase.Marked(s.execs[x].phase.ranAt, s.execs[x].phase.next), h, h');
  }

  lemma StopKeepsExecs(s: State, w: int, h: History)
    requires ExecsTold(s, h) && w in s.batches
    ensures ExecsTold(Apply(s, Stop(w)), h)
  {
    assert forall x :: x in s.execs ==> IsExecution(s.execs[x], x, h);
    ExecsStayTold(s, Apply(s, Stop(w)), h, h);
  }

  lemma TimesKeepExecs(s: State, x: int, committed: bool, h: History)
    requires Told(s, h) && Enabled(s, WriteTimes(x, committed))
    ensures ExecsTold(ApplyWriteTimes(s, x, committed), if committed then TimesWritten(h, x) else h)
  {
    var h' := if committed then TimesWritten(h, x) else h;
    assert IsExecution(s.execs[x], x, h);
    OneMoves(s, x, Lost, h, h');
  }

  lemma StepKeepsExecs(s: State, e: Event, h: History)
    requires ExecsNumbered(s) && Told(s, h) && Enabled(s, e)
    ensures ExecsTold(Apply(s, e), Extended(h, s, e, s.now))
  {
    match e
    case Lock(w, outcome) =>
      if Locks(s, w, outcome) {
        LockKeepsExecs(s, w, outcome, h);
      }
    case Begin(x) => BeginKeepsExecs(s, x, h);
    case Finish(x, ok) => FinishKeepsExecs(s, x, ok, h);
    case Mark(x, _) =>
      NothingForgotten(s, e, h);
      MarkKeepsExecs(s, x, h, Extended(h, s, e, s.now));
    case Stop(w) => StopKeepsExecs(s, w, h);
    case WriteTimes(x, committed) => TimesKeepExecs(s, x, committed, h);
    case _ => SameExecsTold(s, h, Apply(s, e), Extended(h, s, e, s.now));
  }

  lemma SameExecsTold(s: State, h: History, s': State, h': History)
    requires ExecsTold(s, h) && s'.execs == s.execs
    requires h'.sources == h.sources && h'.began == h.began && h'.ended == h.ended
    requires forall name :: name in h.jobs ==> name in h'.jobs
    ensures ExecsTold(s', h')
  {
    assert forall x :: x in s.execs ==> IsExecution(s.execs[x], x, h);
  }

  /**
   In every run each row is what the events say: its next run was computed by the last
   schedule or the last recorded execution, from the clock and the expression of that
   moment, and its status is that of the last lock or of the last recorded result.
   */
  lemma {:induction false} TableIsHistory(now: int, es: seq<Event>)
    requires ValidRun(now, es)
    ensures Told(After(now, es), HistoryOf(now, es))
  {
    if es != [] {
      var before, e := es[..|es| - 1], es[|es| - 1];
      var s, h := After(now, before), HistoryOf(now, before);
      TableIsHistory(now, before);
      ClockIsLastTick(now, before);
      var holder := MutualExclusion(now, before, "");
      StepKeepsRows(s, e, h);
      StepKeepsBatches(s, e, h);
      StepKeepsExecs(s, e, h);
    }
  }

  /**
   When the run times of an execution are written, the row gets the clock of its
   beginning and the next run after that of the expression it was fetched with; no
   other row and no other column changes.
   */
  lemma RunTimesWritten(now: int, es: seq<Event>, x: int)
    requires ValidRun(now, es) && Enabled(After(now, es), WriteTimes(x, true))
    ensures var s, s', h := After(now, es), Apply(After(now, es), WriteTimes(x, true)), HistoryOf(now, es);
            && x in h.began && x in h.sources
            && var name := h.sources[x].job;
               && name in s.table
               && s'.table == s.table[name := s.table[name].(lastRun := Some(h.began[x]),
                                                             nextRun := NextRun(h.sources[x].expr, h.began[x]))]
  {
    TableIsHistory(now, es);
    var s := After(now, es);
    assert IsExecution(s.execs[x], x, HistoryOf(now, es));
  }

  /** A result is recorded as the handler returned it. */
  lemma ResultRecorded(now: int, es: seq<Event>, x: int)
    requires ValidRun(now, es) && Enabled(After(now, es), Mark(x, true))
    ensures var s, s', h := After(now, es), Apply(After(now, es), Mark(x, true)), HistoryOf(now, es);
            && x in h.ended && x in h.sources
            && var name := h.sources[x].job;
               && name in s.table
               && s'.table == s.table[name := if h.ended[x] then s.table[name].(status := Succeeded, lockedAt := None)
                                              else s.table[name].(status := Failed)]
  {
    TableIsHistory(now, es);
    var s := After(now, es);
    assert IsExecution(s.execs[x], x, HistoryOf(now, es));
  }

  /******* What an execution has done *******/

  predicate IsOwn(e: Event, x: int) {
    (e.Begin? || e.Finish? || e.Mark? || e.WriteTimes?) && e.x == x
  }

  /** The last event of an execution itself. */
  function LastOwn(es: seq<Event>, x: int): Option<Event> {
    if es == [] then None
    else if IsOwn(es[|es| - 1], x) then Some(es[|es| - 1])
    else LastOwn(es[..|es| - 1], x)
  }

  /** Where an execution is after its last own event, unless it is lost: it begins, finishes, and is written twice. */
  predicate Follows(phase: Phase, last: Option<Event>) {
    match last
    case None => phase == Spawned
    case Some(Begin(_)) => phase.Running?
    case Some(Finish(_, ok)) => phase.Posted? && phase.ok == ok
    case Some(Mark(_, _)) => phase.Marked?
    case Some(_) => false
  }

  /** What can lose an execution: its end, its worker's end, or a lock without a start. */
  predicate Loses(e: Event, x: int, owner: int) {
    || (e.WriteTimes? && e.x == x) || (e.Stop? && e.worker == owner)
    || (e.Lock? && e.worker == owner && e.outcome != Starts)
  }

  ghost predicate PhaseTold(e: Execution, x: int, es: seq<Event>) {
    if e.phase == Lost then exists i :: 0 <= i < |es| && Loses(es[i], x, e.owner)
    else Follows(e.phase, LastOwn(es, x))
  }

  ghost predicate PhasesTold(s: State, es: seq<Event>) {
    && (forall x :: x in s.execs ==> PhaseTold(s.execs[x], x, es))
    && (forall x :: x >= s.nextExec ==> LastOwn(es, x) == None)
  }

  lemma LastOwnNext(es: seq<Event>, e: Event, x: int)
    ensures LastOwn(es + [e], x) == if IsOwn(e, x) then Some(e) else LastOwn(es, x)
  {
    assert (es + [e])[..|es + [e]| - 1] == es;
  }

  lemma StepKeepsPhase(s: State, es: seq<Event>, e: Event, x: int)
    requires ExecsNumbered(s) && PhasesTold(s, es) && Enabled(s, e) && x in Apply(s, e).execs
    ensures PhaseTold(Apply(s, e).execs[x], x, es + [e])
  {
    var es', s' := es + [e], Apply(s, e);
    LastOwnNext(es, e, x);
    assert forall i :: 0 <= i < |es| ==> es'[i] == es[i];
    if x in s.execs {
      assert PhaseTold(s.execs[x], x, es) && s'.execs[x].owner == s.execs[x].owner;
      if s.execs[x].phase == Lost {
        var i :| 0 <= i < |es| && Loses(es[i], x, s.execs[x].owner);
        assert Loses(es'[i], x, s.execs[x].owner);
      } else if s'.execs[x].phase == Lost {
        assert Loses(es'[|es|], x, s.execs[x].owner);
      }
    } else {
      assert e.Lock? && x == s.nextExec;
      assert e.outcome != Starts ==> Loses(es'[|es|], x, e.worker);
    }
  }

  /** In every run an execution is where its own events have brought it; its times are written once. */
  lemma {:induction false} EveryPhaseIsTold(now: int, es: seq<Event>)
    requires ValidRun(now, es)
    ensures PhasesTold(After(now, es), es)
  {
    if es != [] {
      var before, e := es[..|es| - 1], es[|es| - 1];
      EveryPhaseIsTold(now, before);
      var holder := MutualExclusion(now, before, "");
      assert es == before + [e];
      forall x | x in After(now, es).execs
        ensures PhaseTold(After(now, es).execs[x], x, es)
      {
        StepKeepsPhase(After(now, before), before, e, x);
      }
    }
  }

  /******* Batches *******/

  /** Nothing takes the batch of worker `w` away. */
  predicate KeepsBatch(e: Event, w: int) {
    (e.Stop? ==> e.worker != w) && (e.Fetch? ==> e.worker != w)
  }

  function Turns(es: seq<Event>, w: int): nat {
    if es == [] then 0
    else Turns(es[..|es| - 1], w) + if es[|es| - 1].Lock? && es[|es| - 1].worker == w then 1 else 0
  }

  ghost predicate HoldsFrom(s: State, w: int, names: seq<string>, n: nat) {
    && w in s.batches && n + |s.batches[w]| == |names|
    && forall i :: 0 <= i < |s.batches[w]| ==> s.batches[w][i].job == names[n + i]
  }

  lemma StepKeepsBatch(s: State, e: Event, w: int, names: seq<string>, n: nat)
    requires Enabled(s, e) && KeepsBatch(e, w) && HoldsFrom(s, w, names, n)
    ensures HoldsFrom(Apply(s, e), w, names, n + if e.Lock? && e.worker == w then 1 else 0)
  {
  }

  /** A worker goes through the jobs it fetched one by one, in order, also past those it gets no permit for. */
  lemma {:induction false} BatchInOrder(now: int, es: seq<Event>, w: int, names: seq<string>, more: seq<Event>)
    requires ValidRun(now, es + [Fetch(w, names)] + more)
    requires forall i :: 0 <= i < |more| ==> KeepsBatch(more[i], w)
    ensures HoldsFrom(After(now, es + [Fetch(w, names)] + more), w, names, Turns(more, w))
    decreases |more|
  {
    var run := es + [Fetch(w, names)] + more;
    if more == [] {
      assert run[..|run| - 1] == es;
    } else {
      var init, e := more[..|more| - 1], more[|more| - 1];
      assert run[..|run| - 1] == es + [Fetch(w, names)] + init;
      BatchInOrder(now, es, w, names, init);
      StepKeepsBatch(After(now, es + [Fetch(w, names)] + init), e, w, names, Turns(init, w));
    }
  }

  /** A worker is up from its start to its stop. */
  predicate Up(es: seq<Event>, w: int) {
    es != [] &&
    (var last := es[|es| - 1];
     (last.Start? && last.worker == w) || (!(last.Stop? && last.worker == w) && Up(es[..|es| - 1], w)))
  }

  lemma {:induction false} UpIff(now: int, es: seq<Event>, w: int)
    requires ValidRun(now, es)
    ensures w in After(now, es).batches <==> Up(es, w)
  {
    if es != [] {
      UpIff(now, es[..|es| - 1], w);
    }
  }

  /** A lock takes a job exactly when its statement is committed and the row is free; otherwise nothing changes. */
  lemma LockTakesIff(s: State, w: int, outcome: LockOutcome)
    requires Enabled(s, Lock(w, outcome))
    ensures var s', job := Apply(s, Lock(w, outcome)), s.batches[w][0].job;
            var taken := && outcome != LockFails && job in s.table
                         && s.table[job].status != Processing && s.table[job].status != Dead;
            && (taken ==> job in s'.table && s'.table[job].status == Processing && s'.nextExec == s.nextExec + 1)
            && (!taken ==> s'.table == s.table && s'.execs == s.execs)
  {
  }
}

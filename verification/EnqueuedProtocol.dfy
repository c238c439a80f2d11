/**
 The life of enqueued jobs as a protocol between any number of worker processes
 and one table (client/enqueue_job_manager.go over
 internal/store/postgres/postgres_enqueued_job_store.go).

 A run is a list of events. Every event that is enabled has one effect, so a run
 determines the state it reaches, and a claim about all reachable states is a
 claim about all runs.
 */
module EnqueuedProtocol {
  import opened Statuses
  import opened EnqueuedTable
  import opened Text

  /******* States *******/

  /** What a worker remembers of a fetched job until it locks it. */
  datatype Snapshot = Snapshot(job: int, attempts: nat)

  /** A job between its lock and the recording of its result. */
  datatype Phase =
    | Spawned           // the goroutine is started, the handler is not called yet
    | Running           // the handler is called
    | Posted(ok: bool)  // the result is in the channel
    | Lost              // no result will ever be recorded

  datatype Execution = Execution(job: int, owner: int, attempts: nat, phase: Phase)

  /** `batches` has one entry for each worker process that is up. */
  datatype State = State(now: int, table: Table, nextId: int,
                         batches: map<int, seq<Snapshot>>, execs: map<int, Execution>, nextExec: int)

  function Init(now: int): State {
    State(now, map[], 1, map[], map[], 0)
  }

  /******* Events *******/

  /** What happens around LockJob on a job that can be locked. */
  datatype LockOutcome =
    | Starts     // the handler goroutine is started
    | NoPermit   // the context is cancelled while waiting for a permit: the batch is left
    | ReplyLost  // the update is committed, but an error comes back
    | LockFails  // the update is not committed

  datatype Event =
    | Tick(to: int)
    | Insert(name: string, payload: string, at: int)
    | Delete(id: int)
    | Start(worker: int)
    | Stop(worker: int)
    | Fetch(worker: int, ids: seq<int>)
    | Lock(worker: int, outcome: LockOutcome)
    | Call(x: int)
    | Reject(x: int)
    | Return(x: int, ok: bool)
    | Panic(x: int)
    | Record(x: int, committed: bool)
    | Sweep

  predicate InPhase(s: State, x: int, phase: Phase) {
    x in s.execs && s.execs[x].phase == phase
  }

  predicate Enabled(s: State, e: Event) {
    match e
    case Tick(to) => s.now <= to
    case Insert(_, _, _) => true
    case Delete(_) => true
    case Start(w) => w !in s.batches
    case Stop(w) => w in s.batches
    case Fetch(w, ids) =>
      && w in s.batches && s.batches[w] == []
      && (forall i :: 0 <= i < |ids| ==> Due(s.table, ids[i], s.now))
      && (forall i, j :: 0 <= i < j < |ids| ==> ids[i] != ids[j])
    case Lock(w, _) => w in s.batches && s.batches[w] != []
    case Call(x) => InPhase(s, x, Spawned)
    case Reject(x) => InPhase(s, x, Spawned)
    case Return(x, _) => InPhase(s, x, Running)
    case Panic(x) => InPhase(s, x, Running)
    case Record(x, _) => x in s.execs && s.execs[x].phase.Posted?
    case Sweep => true
  }

  predicate Live(x: Execution) {
    !x.phase.Lost?
  }

  function SetPhase(s: State, x: int, phase: Phase): State
    requires x in s.execs
  {
    s.(execs := s.execs[x := s.execs[x].(phase := phase)])
  }

  function Without(execs: map<int, Execution>, x: int): map<int, Execution> {
    map y | y in execs && y != x :: execs[y]
  }

  /** A worker that goes down takes its executions with it. */
  function Abandon(execs: map<int, Execution>, worker: int): map<int, Execution> {
    map x | x in execs :: if execs[x].owner == worker then execs[x].(phase := Lost) else execs[x]
  }

  /** Requeueing a row ends the lost execution that held it. */
  function Release(s: State): map<int, Execution> {
    map x | x in s.execs
            && !(&& s.execs[x].phase.Lost? && s.execs[x].job in s.table
                 && Stale(s.table[s.execs[x].job], s.now)) :: s.execs[x]
  }

  /** The table is updated by this Lock event. */
  predicate Locks(s: State, w: int, outcome: LockOutcome)
    requires Enabled(s, Lock(w, outcome))
  {
    Lockable(s.table, s.batches[w][0].job) && !outcome.LockFails?
  }

  function ApplyFetch(s: State, w: int, ids: seq<int>): State
    requires Enabled(s, Fetch(w, ids))
  {
    s.(batches := s.batches[w := seq(|ids|, i requires 0 <= i < |ids| => Snapshot(ids[i], s.table[ids[i]].attempts))])
  }

  function ApplyLock(s: State, w: int, outcome: LockOutcome): State
    requires Enabled(s, Lock(w, outcome))
  {
    var head, rest := s.batches[w][0], s.batches[w][1..];
    if Locks(s, w, outcome) then
      s.(table := LockJob(s.table, head.job, w, s.now),
         batches := s.batches[w := if outcome.NoPermit? then [] else rest],
         execs := s.execs[s.nextExec := Execution(head.job, w, head.attempts,
                                                  if outcome.Starts? then Spawned else Lost)],
         nextExec := s.nextExec + 1)
    else
      s.(batches := s.batches[w := rest])
  }

  /** The result processor: the attempts that decide `dead` are those of the snapshot plus one. */
  function ApplyRecord(s: State, x: int, committed: bool): State
    requires Enabled(s, Record(x, committed))
  {
    var e := s.execs[x];
    if !committed then SetPhase(s, x, Lost)
    else
      s.(table := if e.phase.ok then MarkSuccess(s.table, e.job) else MarkFailure(s.table, e.job, e.attempts + 1),
         execs := Without(s.execs, x))
  }

  function Apply(s: State, e: Event): State
    requires Enabled(s, e)
  {
    match e
    case Tick(to) => s.(now := to)
    case Insert(name, payload, at) =>
      s.(table := s.table[s.nextId := NewRow(name, payload, at)], nextId := s.nextId + 1)
    case Delete(id) => s.(table := RemoveByID(s.table, id))
    case Start(w) => s.(table := UnlockStaleJobs(s.table, s.now), batches := s.batches[w := []], execs := Release(s))
    case Stop(w) => s.(batches := s.batches - {w}, execs := Abandon(s.execs, w))
    case Fetch(w, ids) => ApplyFetch(s, w, ids)
    case Lock(w, outcome) => ApplyLock(s, w, outcome)
    case Call(x) => SetPhase(s, x, Running)
    case Reject(x) => SetPhase(s, x, Posted(false))
    case Return(x, ok) => SetPhase(s, x, Posted(ok))
    case Panic(x) => SetPhase(s, x, Lost)
    case Record(x, committed) => ApplyRecord(s, x, committed)
    case Sweep => s.(table := MarkRetryFailedJobs(s.table, s.now))
  }

  /******* Runs *******/

  predicate ValidRun(now: int, es: seq<Event>)
    decreases |es|, 0
  {
    es == [] ||
    (ValidRun(now, es[..|es| - 1]) && Enabled(After(now, es[..|es| - 1]), es[|es| - 1]))
  }

  function After(now: int, es: seq<Event>): State
    requires ValidRun(now, es)
    decreases |es|, 1
  {
    if es == [] then Init(now) else Apply(After(now, es[..|es| - 1]), es[|es| - 1])
  }

  /** Nothing of job `j` is in flight: its executions are lost, or its row is gone. */
  ghost predicate QuietJob(s: State, j: int) {
    forall x :: x in s.execs && s.execs[x].job == j && j in s.table ==> !Live(s.execs[x])
  }

  /** Workers start, and so recover stale jobs, only when nothing of job `j` is in flight. */
  ghost predicate QuietStarts(now: int, es: seq<Event>, j: int)
    requires ValidRun(now, es)
  {
    es == [] ||
    (&& QuietStarts(now, es[..|es| - 1], j)
     && (es[|es| - 1].Start? ==> QuietJob(After(now, es[..|es| - 1]), j)))
  }

  /******* The invariant of every run with quiet starts *******/

  predicate RowOk(r: Row, now: int) {
    && r.maxAttempts == MAX_RETRY_ATTEMPT
    && r.attempts <= 3
    && (r.status == Queued || r.status == Retrying || r.status == Processing || r.status == Succeeded ==>
          r.attempts < 3)
    && (r.status == Failed ==> 1 <= r.attempts)
    && (r.status == Dead ==> r.attempts == 3)
    && (r.status == Processing ==> r.lockedAt.Some? && r.lockedAt.value <= now)
  }

  /** `holder` is the only execution of job `j`, if it has one. */
  ghost predicate IsHolder(s: State, j: int, holder: Option<int>) {
    && (holder.Some? ==> holder.value in s.execs && s.execs[holder.value].job == j)
    && (forall x :: x in s.execs && s.execs[x].job == j ==> holder == Some(x))
  }

  ghost predicate SnapshotsBehind(s: State, j: int) {
    forall w, i :: w in s.batches && 0 <= i < |s.batches[w]| && s.batches[w][i].job == j ==>
      j < s.nextId && (j in s.table ==> s.batches[w][i].attempts <= s.table[j].attempts)
  }

  /** What every step keeps about one job. */
  ghost predicate JobInv(s: State, j: int, holder: Option<int>) {
    && IsHolder(s, j, holder)
    && SnapshotsBehind(s, j)
    && (j >= s.nextId ==> j !in s.table && holder.None?)
    && (j in s.table ==> RowOk(s.table[j], s.now) && (s.table[j].status == Processing <==> holder.Some?))
    && (holder.Some? && j in s.table ==> s.execs[holder.value].attempts <= s.table[j].attempts)
  }

  /** Execution numbers are fresh, and a live execution belongs to a worker that is up. */
  ghost predicate ExecsOk(s: State) {
    forall x :: x in s.execs ==> x < s.nextExec && (Live(s.execs[x]) ==> s.execs[x].owner in s.batches)
  }

  lemma StepKeepsExecsOk(s: State, e: Event)
    requires ExecsOk(s) && Enabled(s, e)
    ensures ExecsOk(Apply(s, e))
  {
  }

  /** The execution that holds job `j` after an event. */
  ghost function NextHolder(s: State, e: Event, j: int, holder: Option<int>): Option<int>
    requires Enabled(s, e)
  {
    match e
    case Lock(w, outcome) => if Locks(s, w, outcome) && s.batches[w][0].job == j then Some(s.nextExec) else holder
    case Record(x, committed) => if committed && s.execs[x].job == j then None else holder
    case Start(_) => if j in s.table then None else holder
    case _ => holder
  }

  lemma LockKeepsJob(s: State, w: int, outcome: LockOutcome, j: int, holder: Option<int>)
    requires ExecsOk(s) && JobInv(s, j, holder) && Enabled(s, Lock(w, outcome))
    ensures JobInv(ApplyLock(s, w, outcome), j, NextHolder(s, Lock(w, outcome), j, holder))
  {
  }

  lemma RecordKeepsJob(s: State, x: int, committed: bool, j: int, holder: Option<int>)
    requires ExecsOk(s) && JobInv(s, j, holder) && Enabled(s, Record(x, committed))
    ensures JobInv(ApplyRecord(s, x, committed), j, NextHolder(s, Record(x, committed), j, holder))
  {
  }

  lemma StartKeepsJob(s: State, w: int, j: int, holder: Option<int>)
    requires ExecsOk(s) && JobInv(s, j, holder) && w !in s.batches && QuietJob(s, j)
    ensures JobInv(Apply(s, Start(w)), j, NextHolder(s, Start(w), j, holder))
  {
  }

  lemma FetchKeepsJob(s: State, w: int, ids: seq<int>, j: int, holder: Option<int>)
    requires JobInv(s, j, holder) && Enabled(s, Fetch(w, ids))
    ensures JobInv(ApplyFetch(s, w, ids), j, holder)
  {
  }

  /** One step keeps the invariant of a job, whoever takes it. */
  lemma StepKeepsJob(s: State, e: Event, j: int, holder: Option<int>)
    requires ExecsOk(s) && JobInv(s, j, holder) && Enabled(s, e)
    requires e.Start? ==> QuietJob(s, j)
    ensures JobInv(Apply(s, e), j, NextHolder(s, e, j, holder))
  {
    match e
    case Start(w) => StartKeepsJob(s, w, j, holder);
    case Fetch(w, ids) => FetchKeepsJob(s, w, ids, j, holder);
    case Lock(w, outcome) => LockKeepsJob(s, w, outcome, j, holder);
    case Record(x, committed) => RecordKeepsJob(s, x, committed, j, holder);
    case _ =>
  }

  lemma {:induction false} EveryRunExecsOk(now: int, es: seq<Event>)
    requires ValidRun(now, es)
    ensures ExecsOk(After(now, es))
  {
    if es != [] {
      EveryRunExecsOk(now, es[..|es| - 1]);
      StepKeepsExecsOk(After(now, es[..|es| - 1]), es[|es| - 1]);
    }
  }

  /** Any number of workers: in every run that starts quietly for a job the invariant holds of it. */
  lemma {:induction false} EveryRunKeepsJob(now: int, es: seq<Event>, j: int) returns (holder: Option<int>)
    requires ValidRun(now, es) && QuietStarts(now, es, j)
    ensures JobInv(After(now, es), j, holder)
  {
    if es == [] {
      holder := None;
    } else {
      var s, e := After(now, es[..|es| - 1]), es[|es| - 1];
      var before := EveryRunKeepsJob(now, es[..|es| - 1], j);
      EveryRunExecsOk(now, es[..|es| - 1]);
      StepKeepsJob(s, e, j, before);
      holder := NextHolder(s, e, j, before);
    }
  }

  /**
   The assumption is exact: a start keeps the invariant of a job if and only if
   nothing of the job is in flight when the stale jobs are recovered.
   */
  lemma StartKeepsJobIff(s: State, w: int, j: int, holder: Option<int>)
    requires ExecsOk(s) && JobInv(s, j, holder) && w !in s.batches
    ensures (exists h :: JobInv(Apply(s, Start(w)), j, h)) <==> QuietJob(s, j)
  {
    if QuietJob(s, j) {
      StartKeepsJob(s, w, j, holder);
    } else {
      var s' := Apply(s, Start(w));
      assert holder.value in s'.execs && s'.table[j].status == Queued;
      forall h
        ensures !JobInv(s', j, h)
      {
        assert IsHolder(s', j, h) ==> h == holder;
      }
    }
  }

  /** The invariant of job `j` holds in every state that the run passes. */
  ghost predicate KeptThroughout(now: int, es: seq<Event>, j: int)
    requires ValidRun(now, es)
  {
    && (exists holder :: JobInv(After(now, es), j, holder))
    && (es == [] || KeptThroughout(now, es[..|es| - 1], j))
  }

  /** A run keeps the invariant of a job throughout if and only if it starts quietly for the job. */
  lemma {:induction false} KeptThroughoutIff(now: int, es: seq<Event>, j: int)
    requires ValidRun(now, es)
    ensures KeptThroughout(now, es, j) <==> QuietStarts(now, es, j)
  {
    if QuietStarts(now, es, j) {
      var holder := EveryRunKeepsJob(now, es, j);
    }
    if es != [] {
      var before := es[..|es| - 1];
      KeptThroughoutIff(now, before, j);
      if KeptThroughout(now, es, j) && es[|es| - 1].Start? {
        var holder :| JobInv(After(now, before), j, holder);
        EveryRunExecsOk(now, before);
        StartKeepsJobIff(After(now, before), es[|es| - 1].worker, j, holder);
      }
    }
  }

  /******* Runs that share a job *******/

  lemma Extend(es: seq<Event>, e: Event) returns (longer: seq<Event>)
    requires ValidRun(0, es) && Enabled(After(0, es), e)
    ensures ValidRun(0, longer) && After(0, longer) == Apply(After(0, es), e)
    ensures QuietStarts(0, es, 1) && (e.Start? ==> QuietJob(After(0, es), 1)) ==> QuietStarts(0, longer, 1)
  {
    longer := es + [e];
    assert longer[..|longer| - 1] == es;
  }

  /** One queued job, and nothing locked. */
  ghost function OneJob(batches: map<int, seq<Snapshot>>): State {
    State(0, map[1 := NewRow("job", "[]", 0)], 2, batches, map[], 0)
  }

  lemma JobInserted() returns (es: seq<Event>)
    ensures ValidRun(0, es) && QuietStarts(0, es, 1) && After(0, es) == OneJob(map[])
  {
    es := Extend([], Insert("job", "[]", 0));
  }

  /** Another worker starts and fetches the job. */
  lemma FetchedBy(es: seq<Event>, batches: map<int, seq<Snapshot>>, w: int) returns (longer: seq<Event>)
    requires ValidRun(0, es) && QuietStarts(0, es, 1) && After(0, es) == OneJob(batches) && w !in batches
    ensures ValidRun(0, longer) && QuietStarts(0, longer, 1)
    ensures After(0, longer) == OneJob(batches[w := [Snapshot(1, 0)]])
  {
    longer := Extend(es, Start(w));
    assert After(0, longer) == OneJob(batches[w := []]);
    longer := Extend(longer, Fetch(w, [1]));
    assert After(0, longer).batches[w] == [Snapshot(1, 0)];
  }

  /** The job locked by worker 1, and then requeued by the start of worker 2. */
  lemma LockedThenRequeued() returns (es: seq<Event>)
    ensures ValidRun(0, es)
    ensures After(0, es) == State(0, map[1 := NewRow("job", "[]", 0)], 2, map[1 := [], 2 := []],
                                  map[0 := Execution(1, 1, 0, Spawned)], 1)
  {
    es := JobInserted();
    es := FetchedBy(es, map[], 1);
    es := Extend(es, Lock(1, Starts));
    var locked := NewRow("job", "[]", 0).(status := Processing, lockedAt := Some(0), lockedBy := Some(1));
    assert After(0, es) == State(0, map[1 := locked], 2, map[1 := []], map[0 := Execution(1, 1, 0, Spawned)], 1);
    es := Extend(es, Start(2));
  }

  /** Without the assumption two workers run the same job at once. */
  lemma NoisyStartSharesJob() returns (es: seq<Event>)
    ensures ValidRun(0, es)
    ensures var execs := After(0, es).execs;
            0 in execs && 1 in execs && execs[0].job == execs[1].job && Live(execs[0]) && Live(execs[1])
  {
    es := LockedThenRequeued();
    es := Extend(es, Fetch(2, [1]));
    es := Extend(es, Lock(2, Starts));
  }

  /** The state of a run extended by one event. */
  lemma Then(now: int, es: seq<Event>, e: Event)
    requires ValidRun(now, es) && Enabled(After(now, es), e)
    ensures ValidRun(now, es + [e]) && After(now, es + [e]) == Apply(After(now, es), e)
  {
    assert (es + [e])[..|es + [e]| - 1] == es;
  }

  ghost predicate TwoLive(s: State, j: int, x: int, y: int) {
    && x != y && x in s.execs && y in s.execs
    && s.execs[x].job == j && s.execs[y].job == j && Live(s.execs[x]) && Live(s.execs[y])
  }

  /** A live execution outlives a start, and its job is queued again. */
  lemma RequeuedWhileLive(s: State, w: int, j: int, holder: Option<int>) returns (x: int)
    requires ExecsOk(s) && JobInv(s, j, holder) && w !in s.batches && !QuietJob(s, j)
    ensures var s' := Apply(s, Start(w));
            && x in s'.execs && s'.execs[x].job == j && Live(s'.execs[x]) && x < s'.nextExec
            && j in s'.table && s'.table[j].status == Queued && w in s'.batches && s'.batches[w] == []
  {
    x :| x in s.execs && s.execs[x].job == j && j in s.table && Live(s.execs[x]);
  }

  /**
   Every start that finds a job in flight, in a run that was quiet so far, leads on
   to a second live execution: the starter waits for the job's time, fetches and locks it.
   */
  lemma NoisyStartShares(now: int, es: seq<Event>, w: int, j: int) returns (more: seq<Event>, x: int, y: int)
    requires ValidRun(now, es) && QuietStarts(now, es, j)
    requires Enabled(After(now, es), Start(w)) && !QuietJob(After(now, es), j)
    ensures ValidRun(now, es + [Start(w)] + more) && TwoLive(After(now, es + [Start(w)] + more), j, x, y)
  {
    var holder := EveryRunKeepsJob(now, es, j);
    EveryRunExecsOk(now, es);
    x := RequeuedWhileLive(After(now, es), w, j, holder);
    var run := es + [Start(w)];
    Then(now, es, Start(w));
    var s := After(now, run);
    var to := if s.table[j].scheduledAt > s.now then s.table[j].scheduledAt else s.now;
    Then(now, run, Tick(to));
    y := LocksAgain(now, run + [Tick(to)], w, j, x);
    more := [Tick(to), Fetch(w, [j]), Lock(w, Starts)];
    assert run + more == run + [Tick(to)] + [Fetch(w, [j])] + [Lock(w, Starts)];
  }

  /** A worker with nothing in hand takes a due job. */
  lemma LocksAgain(now: int, run: seq<Event>, w: int, j: int, x: int) returns (y: int)
    requires ValidRun(now, run)
    requires var s := After(now, run);
             && x in s.execs && s.execs[x].job == j && Live(s.execs[x]) && x < s.nextExec
             && Due(s.table, j, s.now) && w in s.batches && s.batches[w] == []
    ensures var longer := run + [Fetch(w, [j])] + [Lock(w, Starts)];
            ValidRun(now, longer) && TwoLive(After(now, longer), j, x, y)
  {
    var s := After(now, run);
    y := s.nextExec;
    Then(now, run, Fetch(w, [j]));
    var fetched := run + [Fetch(w, [j])];
    assert After(now, fetched).batches[w] == [Snapshot(j, s.table[j].attempts)];
    Then(now, fetched, Lock(w, Starts));
  }
}

/** Enqueued jobs with one worker process: snapshots stay fresh, and nothing runs early. */
module EnqueuedSingle {
  import opened Statuses
  import opened EnqueuedTable
  import opened EnqueuedProtocol
  import opened EnqueuedLedger
  import opened Text

  predicate ByWorker(e: Event, w: int) {
    match e
    case Start(v) => v == w
    case Stop(v) => v == w
    case Fetch(v, _) => v == w
    case Lock(v, _) => v == w
    case _ => true
  }

  /** All workers' events are those of worker `w`; it may stop and start again. */
  predicate OnlyWorker(es: seq<Event>, w: int) {
    forall i :: 0 <= i < |es| ==> ByWorker(es[i], w)
  }

  /** The snapshots of job `j` agree with its row, which waits unchanged until it is locked. */
  ghost predicate Fresh(s: State, w: int, j: int, holder: Option<int>)
    requires IsHolder(s, j, holder)
  {
    && (forall v :: v in s.batches ==> v == w)
    && (j in s.table ==> (s.table[j].status == Dead <==> s.table[j].attempts == 3))
    && (holder.Some? && j in s.table ==> s.execs[holder.value].attempts == s.table[j].attempts)
    && (w in s.batches ==>
          && (forall i :: 0 <= i < |s.batches[w]| && s.batches[w][i].job == j && j in s.table ==>
                Due(s.table, j, s.now) && s.batches[w][i].attempts == s.table[j].attempts)
          && (forall i, k :: 0 <= i < k < |s.batches[w]| ==> s.batches[w][i].job != s.batches[w][k].job))
  }

  /** With one worker a start finds nothing in flight. */
  lemma StartIsQuiet(s: State, w: int, j: int, holder: Option<int>)
    requires ExecsOk(s) && IsHolder(s, j, holder) && Fresh(s, w, j, holder) && w !in s.batches
    ensures QuietJob(s, j)
  {
  }

  lemma LockKeepsFresh(s: State, w: int, outcome: LockOutcome, j: int, holder: Option<int>)
    requires ExecsOk(s) && JobInv(s, j, holder) && Fresh(s, w, j, holder) && Enabled(s, Lock(w, outcome))
    ensures JobInv(ApplyLock(s, w, outcome), j, NextHolder(s, Lock(w, outcome), j, holder))
    ensures Fresh(ApplyLock(s, w, outcome), w, j, NextHolder(s, Lock(w, outcome), j, holder))
  {
    LockKeepsJob(s, w, outcome, j, holder);
    var s' := ApplyLock(s, w, outcome);
    assert !(Locks(s, w, outcome) && outcome.NoPermit?) ==> s'.batches[w] == s.batches[w][1..];
  }

  lemma StepKeepsFresh(s: State, e: Event, w: int, j: int, holder: Option<int>)
    requires ExecsOk(s) && JobInv(s, j, holder) && Fresh(s, w, j, holder)
    requires Enabled(s, e) && ByWorker(e, w)
    ensures JobInv(Apply(s, e), j, NextHolder(s, e, j, holder))
    ensures Fresh(Apply(s, e), w, j, NextHolder(s, e, j, holder))
  {
    if e.Start? {
      StartIsQuiet(s, w, j, holder);
    }
    StepKeepsJob(s, e, j, holder);
    match e
    case Lock(_, outcome) => LockKeepsFresh(s, w, outcome, j, holder);
    case Record(x, committed) => RecordKeepsFresh(s, x, committed, w, j, holder);
    case Fetch(_, ids) => FetchKeepsFresh(s, w, ids, j, holder);
    case _ =>
  }

  lemma RecordKeepsFresh(s: State, x: int, committed: bool, w: int, j: int, holder: Option<int>)
    requires ExecsOk(s) && JobInv(s, j, holder) && Fresh(s, w, j, holder) && Enabled(s, Record(x, committed))
    ensures JobInv(ApplyRecord(s, x, committed), j, NextHolder(s, Record(x, committed), j, holder))
    ensures Fresh(ApplyRecord(s, x, committed), w, j, NextHolder(s, Record(x, committed), j, holder))
  {
    RecordKeepsJob(s, x, committed, j, holder);
  }

  lemma FetchKeepsFresh(s: State, w: int, ids: seq<int>, j: int, holder: Option<int>)
    requires JobInv(s, j, holder) && Fresh(s, w, j, holder) && Enabled(s, Fetch(w, ids))
    ensures JobInv(ApplyFetch(s, w, ids), j, holder)
    ensures Fresh(ApplyFetch(s, w, ids), w, j, holder)
  {
    FetchKeepsJob(s, w, ids, j, holder);
  }

  /**
   In every run of one worker process, restarts included and with no assumption on
   recovery, the invariant holds, snapshots are fresh, and so a row is `dead` exactly
   when it has three attempts, and a `failed` row can be retried.
   */
  lemma {:induction false} SingleWorkerRun(now: int, es: seq<Event>, w: int, j: int) returns (holder: Option<int>)
    requires ValidRun(now, es) && OnlyWorker(es, w)
    ensures JobInv(After(now, es), j, holder) && Fresh(After(now, es), w, j, holder)
    ensures var table := After(now, es).table;
            j in table ==> && (table[j].status == Dead <==> table[j].attempts == 3)
                           && (table[j].status == Failed <==> Retryable(table[j]))
  {
    if es == [] {
      holder := None;
    } else {
      var s, e := After(now, es[..|es| - 1]), es[|es| - 1];
      var before := SingleWorkerRun(now, es[..|es| - 1], w, j);
      EveryRunExecsOk(now, es[..|es| - 1]);
      StepKeepsFresh(s, e, w, j, before);
      holder := NextHolder(s, e, j, before);
    }
  }

  lemma {:induction false} OneBatch(now: int, es: seq<Event>, w: int)
    requires ValidRun(now, es) && OnlyWorker(es, w)
    ensures forall v :: v in After(now, es).batches ==> v == w
  {
    if es != [] {
      OneBatch(now, es[..|es| - 1], w);
    }
  }

  /** One worker alone meets the assumption on recovery, so conservation holds of its runs as well. */
  lemma {:induction false} SingleWorkerIsQuiet(now: int, es: seq<Event>, w: int, j: int)
    requires ValidRun(now, es) && OnlyWorker(es, w)
    ensures QuietStarts(now, es, j)
  {
    if es != [] {
      SingleWorkerIsQuiet(now, es[..|es| - 1], w, j);
      OneBatch(now, es[..|es| - 1], w);
      EveryRunExecsOk(now, es[..|es| - 1]);
    }
  }

  /** A worker alone never locks a job before its time, although LockJob does not look at the time. */
  lemma LockedWhenDue(now: int, es: seq<Event>, w: int, outcome: LockOutcome)
    requires ValidRun(now, es) && OnlyWorker(es, w)
    requires Enabled(After(now, es), Lock(w, outcome)) && Locks(After(now, es), w, outcome)
    ensures var s := After(now, es);
            Due(s.table, s.batches[w][0].job, s.now)
  {
    var holder := SingleWorkerRun(now, es, w, After(now, es).batches[w][0].job);
  }

  /** Since a sweep at time `swept` the job waits for its retry, or a minute has passed. */
  ghost predicate Waiting(s: State, j: int, swept: int) {
    || s.now >= swept + RETRY_DELAY
    || (j in s.table ==> s.table[j].status == Retrying && s.table[j].scheduledAt == swept + RETRY_DELAY)
  }

  lemma {:induction false} WaitsAfterSweep(now: int, es: seq<Event>, more: seq<Event>, w: int, j: int)
    requires ValidRun(now, es + [Sweep] + more) && OnlyWorker(es + [Sweep] + more, w) && ValidRun(now, es)
    requires j in After(now, es).table && Retryable(After(now, es).table[j])
    ensures Waiting(After(now, es + [Sweep] + more), j, After(now, es).now)
    ensures j < After(now, es + [Sweep] + more).nextId
    decreases |more|
  {
    var run := es + [Sweep] + more;
    if more == [] {
      assert run == es + [Sweep] && run[..|run| - 1] == es;
      RowsNumbered(now, es);
    } else {
      var init, e := more[..|more| - 1], more[|more| - 1];
      assert run[..|run| - 1] == es + [Sweep] + init;
      WaitsAfterSweep(now, es, init, w, j);
      var s := After(now, es + [Sweep] + init);
      var holder := SingleWorkerRun(now, es + [Sweep] + init, w, j);
      EveryRunExecsOk(now, es + [Sweep] + init);
      RowEffect(s, e, j, holder);
      if e.Lock? && Locks(s, w, e.outcome) {
        LockedWhenDue(now, es + [Sweep] + init, w, e.outcome);
      }
    }
  }

  /** Every retry starts at least one minute after the sweep that asked for it. */
  lemma RetryWaitsAMinute(now: int, es: seq<Event>, more: seq<Event>, w: int, outcome: LockOutcome, j: int)
    requires ValidRun(now, es) && ValidRun(now, es + [Sweep] + more)
    requires OnlyWorker(es + [Sweep] + more, w)
    requires j in After(now, es).table && Retryable(After(now, es).table[j])
    requires var s := After(now, es + [Sweep] + more);
             Enabled(s, Lock(w, outcome)) && Locks(s, w, outcome) && s.batches[w][0].job == j
    ensures After(now, es + [Sweep] + more).now >= After(now, es).now + 60
  {
    WaitsAfterSweep(now, es, more, w, j);
    LockedWhenDue(now, es + [Sweep] + more, w, outcome);
  }

  /******* Several workers: what is lost *******/

  ghost function HeldBy(w: nat, n: nat): seq<Snapshot> {
    if w <= n then [] else [Snapshot(1, 0)]
  }

  /** Three workers, of which those after the first `n` still hold a snapshot of the only job. */
  ghost function Held(n: nat): map<int, seq<Snapshot>> {
    map[1 := HeldBy(1, n), 2 := HeldBy(2, n), 3 := HeldBy(3, n)]
  }

  /** The only job after `n` failures, each decided on a snapshot with no attempts. */
  ghost predicate Stalled(s: State, n: nat) {
    && s.now == 0 && s.nextId == 2 && s.execs == map[] && s.batches == Held(n)
    && s.table.Keys == {1} && s.table[1].attempts == n && s.table[1].maxAttempts == 3
    && s.table[1].status == (if n == 0 then Queued else Failed)
  }

  lemma ThreeSnapshots() returns (es: seq<Event>)
    ensures ValidRun(0, es) && QuietStarts(0, es, 1) && Stalled(After(0, es), 0)
  {
    var one := [Snapshot(1, 0)];
    es := JobInserted();
    es := FetchedBy(es, map[], 1);
    es := FetchedBy(es, map[1 := one], 2);
    es := FetchedBy(es, map[1 := one, 2 := one], 3);
    assert map[1 := one, 2 := one, 3 := one] == Held(0);
  }

  /** Worker `w` locks the only job and its handler fails. */
  lemma LockAndFail(es: seq<Event>, w: int) returns (longer: seq<Event>)
    requires ValidRun(0, es) && QuietStarts(0, es, 1)
    requires var s := After(0, es);
             w in s.batches && s.batches[w] == [Snapshot(1, 0)] && s.execs == map[] && Lockable(s.table, 1)
    ensures ValidRun(0, longer) && QuietStarts(0, longer, 1)
    ensures var s, s' := After(0, es), After(0, longer);
            && s'.now == s.now && s'.nextId == s.nextId && s'.execs == map[] && s'.batches == s.batches[w := []]
            && s'.table == MarkFailure(LockJob(s.table, 1, w, s.now), 1, 1)
  {
    var s := After(0, es);
    var x := s.nextExec;
    var locked := s.(table := LockJob(s.table, 1, w, s.now), batches := s.batches[w := []], nextExec := x + 1);
    longer := Extend(es, Lock(w, Starts));
    assert s.batches[w][1..] == [];
    assert After(0, longer) == locked.(execs := map[x := Execution(1, w, 0, Spawned)]);
    longer := Extend(longer, Reject(x));
    assert After(0, longer) == locked.(execs := map[x := Execution(1, w, 0, Posted(false))]);
    longer := Extend(longer, Record(x, true));
    assert After(0, longer).execs == map[];
  }

  /** One more failure, decided on the old snapshot, and locked although the row is scheduled later. */
  lemma FailOnStaleSnapshot(es: seq<Event>, n: nat) returns (longer: seq<Event>)
    requires n < 3 && ValidRun(0, es) && QuietStarts(0, es, 1) && Stalled(After(0, es), n)
    ensures ValidRun(0, longer) && QuietStarts(0, longer, 1) && Stalled(After(0, longer), n + 1)
  {
    longer := Extend(es, Sweep);
    longer := LockAndFail(longer, n + 1);
    assert Held(n)[n + 1 := []] == Held(n + 1);
  }

  /**
   With several workers a job can end `failed` at three attempts, neither dead nor
   ever retried: all three failures were judged on a snapshot with no attempts.
   */
  lemma StaleSnapshotsStrandAJob() returns (es: seq<Event>)
    ensures ValidRun(0, es) && QuietStarts(0, es, 1)
    ensures var table := After(0, es).table;
            1 in table && table[1].status == Failed && table[1].attempts == 3 && !Retryable(table[1])
  {
    es := ThreeSnapshots();
    es := FailOnStaleSnapshot(es, 0);
    es := FailOnStaleSnapshot(es, 1);
    es := FailOnStaleSnapshot(es, 2);
  }

  /** With several workers a stale snapshot lets a job be locked before its time. */
  lemma StaleSnapshotLocksEarly() returns (es: seq<Event>)
    ensures ValidRun(0, es) && QuietStarts(0, es, 1)
    ensures var s := After(0, es);
            && Enabled(s, Lock(2, Starts)) && Locks(s, 2, Starts)
            && s.now < s.table[s.batches[2][0].job].scheduledAt
  {
    es := ThreeSnapshots();
    es := FailOnStaleSnapshot(es, 0);
    es := Extend(es, Sweep);
  }
}

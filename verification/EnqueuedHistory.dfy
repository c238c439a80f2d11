/**
 Several workers: exactly when a stale snapshot matters. A history keeps, for one
 job, the positions in the run of the events that decide it.
 */
module EnqueuedHistory {
  import opened Statuses
  import opened EnqueuedTable
  import opened EnqueuedProtocol
  import opened EnqueuedLedger
  import opened Text

  /** A sweep that marked the job for a retry: its position in the run, and the clock at that moment. */
  datatype Mark = Mark(index: nat, time: int)

  /**
   `fetches` has the last fetch of each worker, `sources` the fetch that each
   execution has its snapshot from, `failures` the recorded failures of the job,
   `judged` the fetch that each of them was judged on, and `mark` its last mark.
   */
  datatype History = History(fetches: map<int, nat>, sources: map<int, nat>, failures: seq<nat>, judged: seq<nat>,
                             mark: Option<Mark>)

  function At(positions: map<int, nat>, key: int): nat {
    if key in positions then positions[key] else 0
  }

  /** The history after event `e`, which stands at position `n`. */
  function Extended(h: History, s: State, e: Event, j: int, n: nat): History
    requires Enabled(s, e)
  {
    match e
    case Fetch(w, _) => h.(fetches := h.fetches[w := n])
    case Lock(w, outcome) =>
      if Locks(s, w, outcome) then h.(sources := h.sources[s.nextExec := At(h.fetches, w)]) else h
    case Record(x, _) =>
      if WriteOf(s, e, j) == Some(Fails) then
        h.(failures := h.failures + [n], judged := h.judged + [At(h.sources, x)])
      else h
    case Sweep => if WriteOf(s, e, j) == Some(Retries) then h.(mark := Some(Mark(n, s.now))) else h
    case _ => h
  }

  function HistoryOf(now: int, es: seq<Event>, j: int): History
    requires ValidRun(now, es)
  {
    if es == [] then History(map[], map[], [], [], None)
    else
      var before := es[..|es| - 1];
      Extended(HistoryOf(now, before, j), After(now, before), es[|es| - 1], j, |es| - 1)
  }

  /******* The positions are those of the events they stand for *******/

  predicate IsFetch(es: seq<Event>, f: nat, j: int) {
    f < |es| && es[f].Fetch? && j in es[f].ids
  }

  /** The snapshots and executions of a job come from fetches of it. */
  ghost predicate Sourced(s: State, h: History, es: seq<Event>, j: int) {
    && (forall w, i :: w in s.batches && 0 <= i < |s.batches[w]| && s.batches[w][i].job == j ==>
          w in h.fetches && IsFetch(es, h.fetches[w], j) && es[h.fetches[w]].worker == w)
    && (forall x :: x in s.execs && s.execs[x].job == j ==>
          x in h.sources && IsFetch(es, h.sources[x], j) && es[h.sources[x]].worker == s.execs[x].owner)
  }

  /** Each failure is a recorded result, judged on an earlier fetch of the job; a mark is a sweep. */
  ghost predicate Placed(h: History, es: seq<Event>, j: int) {
    && |h.failures| == |h.judged|
    && (forall i :: 0 <= i < |h.failures| ==>
          h.judged[i] < h.failures[i] < |es| && es[h.failures[i]].Record? && IsFetch(es, h.judged[i], j))
    && (h.mark.Some? ==> h.mark.value.index < |es| && es[h.mark.value.index] == Sweep)
  }

  lemma StepKeepsSourced(s: State, h: History, es: seq<Event>, e: Event, j: int)
    requires ExecsOk(s) && Sourced(s, h, es, j) && Enabled(s, e)
    ensures Sourced(Apply(s, e), Extended(h, s, e, j, |es|), es + [e], j)
  {
    var es' := es + [e];
    assert forall f: nat :: IsFetch(es, f, j) ==> IsFetch(es', f, j) && es'[f] == es[f];
    match e
    case Fetch(w, ids) => FetchKeepsSourced(s, h, es, w, ids, j);
    case Lock(w, outcome) => LockKeepsSourced(s, h, es, w, outcome, j);
    case _ =>
  }

  lemma FetchKeepsSourced(s: State, h: History, es: seq<Event>, w: int, ids: seq<int>, j: int)
    requires Sourced(s, h, es, j) && Enabled(s, Fetch(w, ids))
    ensures Sourced(ApplyFetch(s, w, ids), h.(fetches := h.fetches[w := |es|]), es + [Fetch(w, ids)], j)
  {
    var es' := es + [Fetch(w, ids)];
    assert forall f: nat :: IsFetch(es, f, j) ==> IsFetch(es', f, j) && es'[f] == es[f];
    assert es'[|es|] == Fetch(w, ids);
  }

  lemma LockKeepsSourced(s: State, h: History, es: seq<Event>, w: int, outcome: LockOutcome, j: int)
    requires ExecsOk(s) && Sourced(s, h, es, j) && Enabled(s, Lock(w, outcome))
    ensures Sourced(ApplyLock(s, w, outcome), Extended(h, s, Lock(w, outcome), j, |es|), es + [Lock(w, outcome)], j)
  {
    var es' := es + [Lock(w, outcome)];
    assert forall f: nat :: IsFetch(es, f, j) ==> IsFetch(es', f, j) && es'[f] == es[f];
    var s' := ApplyLock(s, w, outcome);
    assert s'.batches[w] == [] || s'.batches[w] == s.batches[w][1..];
    assert forall v :: v != w && v in s.batches ==> s'.batches[v] == s.batches[v];
  }

  lemma StepKeepsPlaced(s: State, h: History, es: seq<Event>, e: Event, j: int)
    requires Sourced(s, h, es, j) && Placed(h, es, j) && Enabled(s, e)
    ensures Placed(Extended(h, s, e, j, |es|), es + [e], j)
  {
    var es' := es + [e];
    assert forall f: nat :: IsFetch(es, f, j) ==> IsFetch(es', f, j);
    assert forall f: nat :: f < |es| ==> es'[f] == es[f];
    assert es'[|es|] == e;
  }

  /** In every run, whatever its starts, the history of a job names the events it should. */
  lemma {:induction false} HistoryIsPlaced(now: int, es: seq<Event>, j: int)
    requires ValidRun(now, es)
    ensures Sourced(After(now, es), HistoryOf(now, es, j), es, j) && Placed(HistoryOf(now, es, j), es, j)
  {
    if es != [] {
      var before, e := es[..|es| - 1], es[|es| - 1];
      HistoryIsPlaced(now, before, j);
      EveryRunExecsOk(now, before);
      StepKeepsSourced(After(now, before), HistoryOf(now, before, j), before, e, j);
      StepKeepsPlaced(After(now, before), HistoryOf(now, before, j), before, e, j);
      assert es == before + [e];
    }
  }

  /******* What the positions say about the row *******/

  /** `count` failures were recorded before position `f`. */
  ghost predicate AsOf(failures: seq<nat>, f: nat, count: nat) {
    count <= |failures| && forall i :: 0 <= i < |failures| ==> (failures[i] < f <==> i < count)
  }

  ghost predicate FailuresCounted(s: State, j: int, h: History, n: nat) {
    && |h.failures| == |h.judged| && (forall i :: 0 <= i < |h.failures| ==> h.failures[i] < n)
    && (j in s.table ==> s.table[j].attempts == |h.failures|)
    && (j >= s.nextId ==> h.failures == [])
  }

  /** The attempts of a snapshot are the failures recorded before it was fetched. */
  ghost predicate SnapshotsDated(s: State, j: int, h: History, n: nat) {
    && (forall w, i :: w in s.batches && 0 <= i < |s.batches[w]| && s.batches[w][i].job == j && j in s.table ==>
          w in h.fetches && h.fetches[w] < n && AsOf(h.failures, h.fetches[w], s.batches[w][i].attempts))
    && (forall x :: x in s.execs && s.execs[x].job == j && j in s.table ==>
          x in h.sources && h.sources[x] < n && AsOf(h.failures, h.sources[x], s.execs[x].attempts))
  }

  /** A row with three attempts is dead if the third was judged on a fetch after the second. */
  ghost predicate VerdictDated(s: State, j: int, h: History)
    requires |h.failures| == |h.judged|
  {
    j in s.table && s.table[j].attempts == 3 && |h.failures| == 3 ==>
      (s.table[j].status == Dead <==> h.failures[1] < h.judged[2])
  }

  /** A marked row waits for its mark. */
  ghost predicate MarkDated(s: State, j: int, h: History, n: nat) {
    && (j >= s.nextId ==> h.mark.None?)
    && (h.mark.Some? ==>
          && h.mark.value.index < n
          && (j in s.table ==> s.table[j].scheduledAt == h.mark.value.time + RETRY_DELAY))
  }

  /** A row fetched since its last mark was due. */
  ghost predicate DueSinceMark(s: State, j: int, h: History, n: nat) {
    forall w, i :: w in s.batches && 0 <= i < |s.batches[w]| && s.batches[w][i].job == j && j in s.table ==>
      && w in h.fetches && h.fetches[w] < n
      && (h.mark.None? || h.mark.value.index < h.fetches[w] ==> s.table[j].scheduledAt <= s.now)
  }

  lemma StepKeepsFailures(s: State, e: Event, j: int, holder: Option<int>, h: History, n: nat)
    requires ExecsOk(s) && JobInv(s, j, holder) && Enabled(s, e) && FailuresCounted(s, j, h, n)
    ensures FailuresCounted(Apply(s, e), j, Extended(h, s, e, j, n), n + 1)
  {
    RowEffect(s, e, j, holder);
  }

  lemma StepKeepsVerdict(s: State, e: Event, j: int, holder: Option<int>, h: History, n: nat)
    requires ExecsOk(s) && JobInv(s, j, holder) && Enabled(s, e)
    requires FailuresCounted(s, j, h, n) && SnapshotsDated(s, j, h, n) && VerdictDated(s, j, h)
    ensures VerdictDated(Apply(s, e), j, Extended(h, s, e, j, n))
  {
    RowEffect(s, e, j, holder);
    if WriteOf(s, e, j) == Some(Fails) {
      assert AsOf(h.failures, h.sources[e.x], s.execs[e.x].attempts);
    }
  }

  lemma AsOfLater(failures: seq<nat>, f: nat, count: nat, n: nat)
    requires AsOf(failures, f, count) && f < n
    ensures AsOf(failures + [n], f, count)
  {
  }

  lemma LockKeepsDated(s: State, w: int, outcome: LockOutcome, j: int, h: History, n: nat)
    requires ExecsOk(s) && Enabled(s, Lock(w, outcome)) && SnapshotsDated(s, j, h, n)
    ensures SnapshotsDated(ApplyLock(s, w, outcome), j, Extended(h, s, Lock(w, outcome), j, n), n + 1)
  {
    var s' := ApplyLock(s, w, outcome);
    assert s'.batches[w] == [] || s'.batches[w] == s.batches[w][1..];
    assert forall v :: v != w && v in s.batches ==> s'.batches[v] == s.batches[v];
  }

  lemma FetchKeepsDated(s: State, w: int, ids: seq<int>, j: int, h: History, n: nat)
    requires Enabled(s, Fetch(w, ids)) && FailuresCounted(s, j, h, n) && SnapshotsDated(s, j, h, n)
    ensures SnapshotsDated(ApplyFetch(s, w, ids), j, h.(fetches := h.fetches[w := n]), n + 1)
  {
  }

  lemma RecordKeepsDated(s: State, x: int, committed: bool, j: int, h: History, n: nat)
    requires ExecsOk(s) && Enabled(s, Record(x, committed)) && SnapshotsDated(s, j, h, n)
    ensures SnapshotsDated(ApplyRecord(s, x, committed), j, Extended(h, s, Record(x, committed), j, n), n + 1)
  {
    forall f: nat, count: nat | f < n && AsOf(h.failures, f, count)
      ensures AsOf(h.failures + [n], f, count)
    {
      AsOfLater(h.failures, f, count, n);
    }
  }

  lemma StepKeepsDated(s: State, e: Event, j: int, holder: Option<int>, h: History, n: nat)
    requires ExecsOk(s) && JobInv(s, j, holder) && Enabled(s, e)
    requires FailuresCounted(s, j, h, n) && SnapshotsDated(s, j, h, n)
    ensures SnapshotsDated(Apply(s, e), j, Extended(h, s, e, j, n), n + 1)
  {
    match e
    case Lock(w, outcome) => LockKeepsDated(s, w, outcome, j, h, n);
    case Record(x, committed) => RecordKeepsDated(s, x, committed, j, h, n);
    case Fetch(w, ids) => FetchKeepsDated(s, w, ids, j, h, n);
    case _ =>
  }

  lemma StepKeepsMark(s: State, e: Event, j: int, holder: Option<int>, h: History, n: nat)
    requires ExecsOk(s) && JobInv(s, j, holder) && Enabled(s, e) && MarkDated(s, j, h, n)
    ensures MarkDated(Apply(s, e), j, Extended(h, s, e, j, n), n + 1)
  {
    RowEffect(s, e, j, holder);
  }

  lemma LockKeepsDue(s: State, w: int, outcome: LockOutcome, j: int, h: History, n: nat)
    requires Enabled(s, Lock(w, outcome)) && DueSinceMark(s, j, h, n)
    ensures DueSinceMark(ApplyLock(s, w, outcome), j, Extended(h, s, Lock(w, outcome), j, n), n + 1)
  {
    var s' := ApplyLock(s, w, outcome);
    assert s'.batches[w] == [] || s'.batches[w] == s.batches[w][1..];
    assert forall v :: v != w && v in s.batches ==> s'.batches[v] == s.batches[v];
  }

  lemma SweepKeepsDue(s: State, j: int, h: History, n: nat)
    requires DueSinceMark(s, j, h, n)
    ensures DueSinceMark(Apply(s, Sweep), j, Extended(h, s, Sweep, j, n), n + 1)
  {
  }

  lemma StepKeepsDue(s: State, e: Event, j: int, holder: Option<int>, h: History, n: nat)
    requires JobInv(s, j, holder) && Enabled(s, e) && MarkDated(s, j, h, n) && DueSinceMark(s, j, h, n)
    ensures DueSinceMark(Apply(s, e), j, Extended(h, s, e, j, n), n + 1)
  {
    match e
    case Lock(w, outcome) => LockKeepsDue(s, w, outcome, j, h, n);
    case Sweep => SweepKeepsDue(s, j, h, n);
    case _ =>
  }

  lemma {:induction false} HistoryIsDated(now: int, es: seq<Event>, j: int)
    requires ValidRun(now, es) && QuietStarts(now, es, j)
    ensures var s, h := After(now, es), HistoryOf(now, es, j);
            && FailuresCounted(s, j, h, |es|) && SnapshotsDated(s, j, h, |es|)
            && VerdictDated(s, j, h) && MarkDated(s, j, h, |es|) && DueSinceMark(s, j, h, |es|)
  {
    if es != [] {
      var before, e := es[..|es| - 1], es[|es| - 1];
      var s, h := After(now, before), HistoryOf(now, before, j);
      HistoryIsDated(now, before, j);
      EveryRunExecsOk(now, before);
      var holder := EveryRunKeepsJob(now, before, j);
      StepKeepsFailures(s, e, j, holder, h, |before|);
      StepKeepsDated(s, e, j, holder, h, |before|);
      StepKeepsVerdict(s, e, j, holder, h, |before|);
      StepKeepsMark(s, e, j, holder, h, |before|);
      StepKeepsDue(s, e, j, holder, h, |before|);
    }
  }

  /******* Exactly when a stale snapshot matters *******/

  /**
   Any number of workers: recording a failure leaves the row `dead` exactly at three
   attempts if and only if the third failure is not recorded on an older snapshot.
   */
  lemma FailureVerdictIff(now: int, es: seq<Event>, x: int, j: int)
    requires ValidRun(now, es) && QuietStarts(now, es, j)
    requires var s := After(now, es);
             && Enabled(s, Record(x, true)) && s.execs[x].job == j && s.execs[x].phase == Posted(false)
             && j in s.table
    ensures var s := After(now, es);
            var r := Apply(s, Record(x, true)).table[j];
            (r.status == Dead <==> r.attempts == 3) <==> (s.table[j].attempts == 2 ==> s.execs[x].attempts == 2)
  {
    var holder := EveryRunKeepsJob(now, es, j);
  }

  /**
   Over whole runs of any number of workers: a job with three attempts is `dead` if
   the third failure was judged on a snapshot fetched after the second was recorded,
   and otherwise it is stranded, `failed` for good.
   */
  lemma StrandedIff(now: int, es: seq<Event>, j: int)
    requires ValidRun(now, es) && QuietStarts(now, es, j) && j in After(now, es).table
    ensures var r, h := After(now, es).table[j], HistoryOf(now, es, j);
            && Placed(h, es, j) && |h.failures| == r.attempts
            && (r.status == Dead <==> r.attempts == 3 && h.failures[1] < h.judged[2])
            && (r.status == Failed && !Retryable(r) <==> r.attempts == 3 && h.judged[2] < h.failures[1])
  {
    var holder := EveryRunKeepsJob(now, es, j);
    HistoryIsDated(now, es, j);
    HistoryIsPlaced(now, es, j);
    var r, h := After(now, es).table[j], HistoryOf(now, es, j);
    assert r.attempts == 3 ==> es[h.failures[1]].Record? && IsFetch(es, h.judged[2], j);
  }

  /**
   Over whole runs of any number of workers: a lock is early exactly when a sweep has
   marked the job since the worker fetched it, less than a minute ago.
   */
  lemma LockedEarlyIff(now: int, es: seq<Event>, w: int, outcome: LockOutcome, j: int)
    requires ValidRun(now, es) && QuietStarts(now, es, j)
    requires var s := After(now, es);
             Enabled(s, Lock(w, outcome)) && Locks(s, w, outcome) && s.batches[w][0].job == j
    ensures var s, h := After(now, es), HistoryOf(now, es, j);
            && Placed(h, es, j) && w in h.fetches && IsFetch(es, h.fetches[w], j) && es[h.fetches[w]].worker == w
            && (s.now < s.table[j].scheduledAt
                <==> h.mark.Some? && h.fetches[w] < h.mark.value.index && s.now < h.mark.value.time + 60)
  {
    HistoryIsDated(now, es, j);
    HistoryIsPlaced(now, es, j);
    var s, h := After(now, es), HistoryOf(now, es, j);
    assert s.batches[w][0].job == j;
    if h.mark.Some? {
      assert es[h.mark.value.index] == Sweep && es[h.fetches[w]].Fetch?;
    }
  }
}

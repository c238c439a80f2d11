/**
 The protocol of enqueued jobs, executed: worker processes with their fetched
 batches and running goroutines, over one store that is changed in place.
 */
module EnqueuedCluster {
  import opened EnqueuedTable
  import opened EnqueuedProtocol

  class Cluster {
    const store: EnqueuedJobStore
    var now: int
    var batches: map<int, seq<Snapshot>>
    var execs: map<int, Execution>
    var nextExec: int

    function View(): State
      reads this, store
    {
      State(now, store.rows, store.nextId, batches, execs, nextExec)
    }

    ghost predicate Valid()
      reads this, store
    {
      store.Valid()
    }

    constructor (now: int)
      ensures Valid() && View() == Init(now) && fresh(store)
    {
      store := new EnqueuedJobStore();
      this.now, batches, execs, nextExec := now, map[], map[], 0;
    }

    /** Reads the attempts of the fetched rows, one after the other. */
    method TakeSnapshots(ids: seq<int>) returns (snapshots: seq<Snapshot>)
      requires forall i :: 0 <= i < |ids| ==> ids[i] in store.rows
      ensures |snapshots| == |ids|
      ensures forall i :: 0 <= i < |ids| ==> snapshots[i] == Snapshot(ids[i], store.rows[ids[i]].attempts)
    {
      snapshots := [];
      for i := 0 to |ids|
        invariant |snapshots| == i
        invariant forall k :: 0 <= k < i ==> snapshots[k] == Snapshot(ids[k], store.rows[ids[k]].attempts)
      {
        snapshots := snapshots + [Snapshot(ids[i], store.rows[ids[i]].attempts)];
      }
    }

    method FetchNext(w: int, ids: seq<int>)
      requires Valid() && Enabled(View(), Fetch(w, ids))
      modifies this
      ensures Valid() && View() == ApplyFetch(old(View()), w, ids)
    {
      var snapshots := TakeSnapshots(ids);
      assert ApplyFetch(View(), w, ids).batches[w] == snapshots;
      batches := batches[w := snapshots];
    }

    /** One turn of the loop over a fetched batch. */
    method LockNext(w: int, outcome: LockOutcome)
      requires Valid() && Enabled(View(), Lock(w, outcome))
      modifies this, store
      ensures Valid() && View() == ApplyLock(old(View()), w, outcome)
    {
      var head, rest := batches[w][0], batches[w][1..];
      var ok := false;
      if !outcome.LockFails? {
        ok := store.Lock(head.job, w, now);
      }
      batches := batches[w := if ok && outcome.NoPermit? then [] else rest];
      if ok {
        var phase := if outcome.Starts? then Spawned else Lost;
        execs, nextExec := execs[nextExec := Execution(head.job, w, head.attempts, phase)], nextExec + 1;
      }
    }

    /** The result processor takes one result. */
    method RecordNext(x: int, committed: bool)
      requires Valid() && Enabled(View(), Record(x, committed))
      modifies this, store
      ensures Valid() && View() == ApplyRecord(old(View()), x, committed)
    {
      var e := execs[x];
      if !committed {
        execs := execs[x := e.(phase := Lost)];
        return;
      }
      if e.phase.ok {
        store.RecordSuccess(e.job);
      } else {
        store.RecordFailure(e.job, e.attempts + 1);
      }
      execs := Without(execs, x);
    }

    method StartWorker(w: int)
      requires Valid() && Enabled(View(), Start(w))
      modifies this, store
      ensures Valid() && View() == Apply(old(View()), Start(w))
    {
      execs := Release(View());
      store.Recover(now);
      batches := batches[w := []];
    }

    method SetExecPhase(x: int, phase: Phase)
      requires x in execs
      modifies this
      ensures View() == SetPhase(old(View()), x, phase)
    {
      execs := execs[x := execs[x].(phase := phase)];
    }

    /** Every event changes the store and the workers as the protocol says. */
    method Step(e: Event)
      requires Valid() && Enabled(View(), e)
      modifies this, store
      ensures Valid() && View() == Apply(old(View()), e)
    {
      match e
      case Tick(to) => now := to;
      case Insert(name, payload, at) => var id := store.Insert(name, payload, at);
      case Delete(id) => var found := store.Remove(id);
      case Start(w) => StartWorker(w);
      case Stop(w) => batches, execs := batches - {w}, Abandon(execs, w);
      case Fetch(w, ids) => FetchNext(w, ids);
      case Lock(w, outcome) => LockNext(w, outcome);
      case Call(x) => SetExecPhase(x, Running);
      case Reject(x) => SetExecPhase(x, Posted(false));
      case Return(x, ok) => SetExecPhase(x, Posted(ok));
      case Panic(x) => SetExecPhase(x, Lost);
      case Record(x, committed) => RecordNext(x, committed);
      case Sweep => store.Sweep(now);
    }
  }

  /** Every run of the protocol is executed by the store's own statements, to the state that the run reaches. */
  method Run(now: int, es: seq<Event>) returns (cluster: Cluster)
    requires ValidRun(now, es)
    ensures fresh(cluster) && fresh(cluster.store)
    ensures cluster.Valid() && cluster.View() == After(now, es)
  {
    cluster := new Cluster(now);
    for n := 0 to |es|
      invariant fresh(cluster) && fresh(cluster.store) && cluster.Valid()
      invariant ValidRun(now, es[..n]) && cluster.View() == After(now, es[..n])
    {
      PrefixIsValid(now, es, n + 1);
      assert es[..n + 1][..n] == es[..n];
      cluster.Step(es[n]);
    }
    assert es[..|es|] == es;
  }

  lemma {:induction false} PrefixIsValid(now: int, es: seq<Event>, n: nat)
    requires ValidRun(now, es) && n <= |es|
    ensures ValidRun(now, es[..n])
    decreases |es|
  {
    if n < |es| {
      var before := es[..|es| - 1];
      PrefixIsValid(now, before, n);
      assert before[..n] == es[..n];
    } else {
      assert es[..n] == es;
    }
  }
}

/**
 The protocol of cron jobs, executed: worker processes over one store that is
 changed in place, with the next runs computed by the search itself.
 */
module CronCluster {
  import opened CronSearch
  import opened CronTable
  import opened CronProtocol

  class Cluster {
    const store: CronJobStore
    var now: int
    var batches: map<int, seq<Snapshot>>
    var execs: map<int, Execution>
    var nextExec: int

    function View(): State
      reads this, store
    {
      State(now, store.rows, batches, execs, nextExec)
    }

    constructor (now: int)
      ensures View() == Init(now) && fresh(store)
    {
      store := new CronJobStore();
      this.now, batches, execs, nextExec := now, map[], map[], 0;
    }

    /** Reads the expressions of the fetched rows, one after the other. */
    method TakeSnapshots(names: seq<string>) returns (snapshots: seq<Snapshot>)
      requires forall i :: 0 <= i < |names| ==> names[i] in store.rows
      ensures |snapshots| == |names|
      ensures forall i :: 0 <= i < |names| ==> snapshots[i] == Snapshot(names[i], store.rows[names[i]].expr)
    {
      snapshots := [];
      for i := 0 to |names|
        invariant |snapshots| == i
        invariant forall k :: 0 <= k < i ==> snapshots[k] == Snapshot(names[k], store.rows[names[k]].expr)
      {
        snapshots := snapshots + [Snapshot(names[i], store.rows[names[i]].expr)];
      }
    }

    method FetchNext(w: int, names: seq<string>)
      requires Enabled(View(), Fetch(w, names))
      modifies this
      ensures View() == ApplyFetch(old(View()), w, names)
    {
      var snapshots := TakeSnapshots(names);
      assert ApplyFetch(View(), w, names).batches[w] == snapshots;
      batches := batches[w := snapshots];
    }

    /** One turn of the loop over a fetched page. */
    method LockNext(w: int, outcome: LockOutcome)
      requires Enabled(View(), Lock(w, outcome))
      modifies this, store
      ensures View() == ApplyLock(old(View()), w, outcome)
    {
      var head, rest := batches[w][0], batches[w][1..];
      var ok := false;
      if !outcome.LockFails? {
        ok := store.Lock(head.job, now);
      }
      batches := batches[w := rest];
      if ok {
        var phase := if outcome.Starts? then Spawned else Lost;
        execs, nextExec := execs[nextExec := Execution(head.job, w, head.expr, phase)], nextExec + 1;
      }
    }

    method SetExecPhase(x: int, phase: Phase)
      requires x in execs
      modifies this
      ensures View() == SetPhase(old(View()), x, phase)
    {
      execs := execs[x := execs[x].(phase := phase)];
    }

    /** The result processor writes the status of one result. */
    method MarkNext(x: int, committed: bool)
      requires Enabled(View(), Mark(x, committed))
      modifies this, store
      ensures View() == ApplyMark(old(View()), x, committed)
    {
      var e := execs[x];
      if committed {
        store.RecordResult(e.job, e.phase.ok);
      }
      SetExecPhase(x, Marked(e.phase.ranAt, e.phase.next));
    }

    method WriteTimesNext(x: int, committed: bool)
      requires Enabled(View(), WriteTimes(x, committed))
      modifies this, store
      ensures View() == ApplyWriteTimes(old(View()), x, committed)
    {
      var e := execs[x];
      if committed {
        store.RecordRunTimes(e.job, e.phase.ranAt, e.phase.next);
      }
      SetExecPhase(x, Lost);
    }

    /** Every event changes the store and the workers as the protocol says. */
    method Step(e: Event)
      requires Enabled(View(), e)
      modifies this, store
      ensures View() == Apply(old(View()), e)
    {
      match e
      case Tick(to) => now := to;
      case Schedule(name, expr) =>
        var next := CalculateNextRun(expr, now);
        store.Upsert(name, next, expr);
      case Activate(name, active) => store.SetActivity(name, active);
      case Start(w) => batches := batches[w := []];
      case Stop(w) => batches, execs := batches - {w}, Abandon(execs, w);
      case Fetch(w, names) => FetchNext(w, names);
      case Lock(w, outcome) => LockNext(w, outcome);
      case Begin(x) =>
        var next := CalculateNextRun(execs[x].expr, now);
        SetExecPhase(x, Running(now, next));
      case Finish(x, ok) => SetExecPhase(x, Posted(ok, execs[x].phase.ranAt, execs[x].phase.next));
      case Mark(x, committed) => MarkNext(x, committed);
      case WriteTimes(x, committed) => WriteTimesNext(x, committed);
    }
  }

  /** Every run of the protocol is executed by the store's own statements, to the state that the run reaches. */
  method Run(now: int, es: seq<Event>) returns (cluster: Cluster)
    requires ValidRun(now, es)
    ensures fresh(cluster) && fresh(cluster.store) && cluster.View() == After(now, es)
  {
    cluster := new Cluster(now);
    for n := 0 to |es|
      invariant fresh(cluster) && fresh(cluster.store)
      invariant ValidRun(now, es[..n]) && cluster.View() == After(now, es[..n])
    {
      PrefixIsValid(now, es, n + 1);
      assert es[..n + 1][..n] == es[..n];
      cluster.Step(es[n]);
    }
    assert es[..|es|] == es;
  }

  lemma {:induction false} PrefixIsValid(now: int, es: seq<Event>, n: nat)
    requires ValidRun(now, es) && n <= |es|
    ensures ValidRun(now, es[..n])
    decreases |es|
  {
    if n < |es| {
      var before := es[..|es| - 1];
      PrefixIsValid(now, before, n);
      assert before[..n] == es[..n];
    } else {
      assert es[..n] == es;
    }
  }
}

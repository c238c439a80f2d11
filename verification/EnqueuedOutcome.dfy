/**
 What a run leaves in the table, by its events alone: who decided a status, where a
 row comes from, and what the clock and the batches are.
 */
module EnqueuedOutcome {
  import opened Statuses
  import opened Text
  import opened EnqueuedTable
  import opened EnqueuedProtocol
  import opened EnqueuedLedger
  import opened EnqueuedHistory

  /******* Results are those of the handlers *******/

  /** What the handler of execution `x` came to: what it returned, or false when it could not be called. */
  function Decision(es: seq<Event>, x: int): Option<bool> {
    if es == [] then None
    else
      var last := es[|es| - 1];
      if last.Return? && last.x == x then Some(last.ok)
      else if last.Reject? && last.x == x then Some(false)
      else Decision(es[..|es| - 1], x)
  }

  /** A result in the channel is the decision of its execution. */
  ghost predicate PostsDecided(s: State, es: seq<Event>) {
    forall x :: x in s.execs && s.execs[x].phase.Posted? ==> Decision(es, x) == Some(s.execs[x].phase.ok)
  }

  lemma StepKeepsPosts(s: State, es: seq<Event>, e: Event)
    requires PostsDecided(s, es) && Enabled(s, e)
    ensures PostsDecided(Apply(s, e), es + [e])
  {
    var s' := Apply(s, e);
    assert (es + [e])[..|es|] == es;
    forall x | x in s'.execs && s'.execs[x].phase.Posted?
      ensures Decision(es + [e], x) == Some(s'.execs[x].phase.ok)
    {
      if x in s.execs && s.execs[x].phase.Posted? {
        assert s'.execs[x].phase == s.execs[x].phase;
      }
    }
  }

  lemma {:induction false} EveryPostIsDecided(now: int, es: seq<Event>)
    requires ValidRun(now, es)
    ensures PostsDecided(After(now, es), es)
  {
    if es != [] {
      var before, e := es[..|es| - 1], es[|es| - 1];
      EveryPostIsDecided(now, before);
      StepKeepsPosts(After(now, before), before, e);
      assert es == before + [e];
    }
  }

  /**
   In every run a recorded result is the one that the handler returned: the row is
   `succeeded` if it returned no error, and otherwise one more attempt has failed.
   */
  lemma RecordedAsReturned(now: int, es: seq<Event>, x: int)
    requires ValidRun(now, es) && Enabled(After(now, es), Record(x, true))
    ensures var s, s' := After(now, es), Apply(After(now, es), Record(x, true));
            var j := s.execs[x].job;
            && Decision(es, x).Some?
            && (j in s.table && Decision(es, x) == Some(true) ==>
                  j in s'.table && s'.table[j] == s.table[j].(status := Succeeded))
            && (j in s.table && Decision(es, x) == Some(false) ==>
                  && j in s'.table && s'.table[j].attempts == s.table[j].attempts + 1
                  && (s'.table[j].status == Failed || s'.table[j].status == Dead))
            && (forall k :: k != j ==>
                  (k in s'.table <==> k in s.table) && (k in s.table ==> s'.table[k] == s.table[k]))
  {
    EveryPostIsDecided(now, es);
  }

  /******* What an execution has done *******/

  predicate IsOwn(e: Event, x: int) {
    (e.Call? || e.Reject? || e.Return? || e.Panic? || e.Record?) && e.x == x
  }

  /** The last event of an execution itself. */
  function LastOwn(es: seq<Event>, x: int): Option<Event> {
    if es == [] then None
    else if IsOwn(es[|es| - 1], x) then Some(es[|es| - 1])
    else LastOwn(es[..|es| - 1], x)
  }

  /** Where an execution is after its last own event, unless it is lost. */
  predicate Follows(phase: Phase, last: Option<Event>) {
    match last
    case None => phase == Spawned
    case Some(Call(_)) => phase == Running
    case Some(Reject(_)) => phase == Posted(false)
    case Some(Return(_, ok)) => phase == Posted(ok)
    case Some(_) => false
  }

  /** What can lose an execution: a panic, a result that is not written, its worker's end, or a lock without a start. */
  predicate Loses(e: Event, x: int, owner: int) {
    || (e.Panic? && e.x == x) || (e.Record? && e.x == x && !e.committed)
    || (e.Stop? && e.worker == owner) || (e.Lock? && e.worker == owner && e.outcome != Starts)
  }

  ghost predicate PhaseTold(e: Execution, x: int, es: seq<Event>) {
    if e.phase == Lost then exists i :: 0 <= i < |es| && Loses(es[i], x, e.owner)
    else Follows(e.phase, LastOwn(es, x))
  }

  ghost predicate PhasesTold(s: State, es: seq<Event>) {
    && (forall x :: x in s.execs ==> PhaseTold(s.execs[x], x, es))
    && (forall x :: x >= s.nextExec ==> LastOwn(es, x) == None)
  }

  lemma LastOwnNext(es: seq<Event>, e: Event, x: int)
    ensures LastOwn(es + [e], x) == if IsOwn(e, x) then Some(e) else LastOwn(es, x)
  {
    assert (es + [e])[..|es + [e]| - 1] == es;
  }

  lemma StepKeepsPhase(s: State, es: seq<Event>, e: Event, x: int)
    requires ExecsOk(s) && PhasesTold(s, es) && Enabled(s, e) && x in Apply(s, e).execs
    ensures PhaseTold(Apply(s, e).execs[x], x, es + [e])
  {
    var es', s' := es + [e], Apply(s, e);
    LastOwnNext(es, e, x);
    assert forall i :: 0 <= i < |es| ==> es'[i] == es[i];
    if x in s.execs {
      assert PhaseTold(s.execs[x], x, es) && s'.execs[x].owner == s.execs[x].owner;
      if s.execs[x].phase == Lost {
        var i :| 0 <= i < |es| && Loses(es[i], x, s.execs[x].owner);
        assert Loses(es'[i], x, s.execs[x].owner);
      } else if s'.execs[x].phase == Lost {
        assert Loses(es'[|es|], x, s.execs[x].owner);
      }
    } else {
      assert e.Lock? && x == s.nextExec;
      assert e.outcome != Starts ==> Loses(es'[|es|], x, e.worker);
    }
  }

  /**
   In every run an execution is where its own events have brought it, and it is lost
   only by a panic, a result that is not written, its worker's end or a lock without a start.
   */
  lemma {:induction false} EveryPhaseIsTold(now: int, es: seq<Event>)
    requires ValidRun(now, es)
    ensures PhasesTold(After(now, es), es)
  {
    if es != [] {
      var before, e := es[..|es| - 1], es[|es| - 1];
      EveryPhaseIsTold(now, before);
      EveryRunExecsOk(now, before);
      assert es == before + [e];
      forall x | x in After(now, es).execs
        ensures PhaseTold(After(now, es).execs[x], x, es)
      {
        StepKeepsPhase(After(now, before), before, e, x);
      }
    }
  }

  /** Execution `x` has ended: its handler panicked, or its result was taken from the channel. */
  predicate Ended(es: seq<Event>, x: int) {
    es != [] &&
    (var last := es[|es| - 1];
     || (last.Panic? && last.x == x) || (last.Record? && last.x == x)
     || Ended(es[..|es| - 1], x))
  }

  ghost predicate Over(s: State, x: int) {
    x < s.nextExec && (x in s.execs ==> s.execs[x].phase == Lost)
  }

  lemma StepKeepsOver(s: State, e: Event, x: int)
    requires ExecsOk(s) && Enabled(s, e)
    requires Over(s, x) || (e.Panic? && e.x == x) || (e.Record? && e.x == x)
    ensures Over(Apply(s, e), x)
  {
  }

  lemma {:induction false} EndedIsOver(now: int, es: seq<Event>, x: int)
    requires ValidRun(now, es) && Ended(es, x)
    ensures Over(After(now, es), x)
  {
    var before, e := es[..|es| - 1], es[|es| - 1];
    EveryRunExecsOk(now, before);
    if Ended(before, x) {
      EndedIsOver(now, before, x);
    }
    StepKeepsOver(After(now, before), e, x);
  }

  /** After a panic, and after its result was taken, nothing is recorded for an execution any more. */
  lemma NothingAfterTheEnd(now: int, es: seq<Event>, x: int, committed: bool, ok: bool)
    requires ValidRun(now, es) && Ended(es, x)
    ensures var s := After(now, es);
            !Enabled(s, Call(x)) && !Enabled(s, Return(x, ok)) && !Enabled(s, Record(x, committed))
  {
    EndedIsOver(now, es, x);
  }

  /** The event at position `m` records the result of an execution of job `j` that its handler decided as `ok`. */
  ghost predicate Records(now: int, es: seq<Event>, m: nat, x: int, j: int, ok: bool) {
    && m < |es| && es[m] == Record(x, true) && ValidRun(now, es[..m])
    && x in After(now, es[..m]).execs && After(now, es[..m]).execs[x].job == j
    && Decision(es[..m], x) == Some(ok)
  }

  lemma RecordsLater(now: int, es: seq<Event>, e: Event, m: nat, x: int, j: int, ok: bool)
    requires Records(now, es, m, x, j, ok)
    ensures Records(now, es + [e], m, x, j, ok)
  {
    assert (es + [e])[..m] == es[..m];
  }

  /** Whatever the starts, a job is `succeeded` only because a handler of it returned no error and that was recorded. */
  lemma {:induction false} SucceededByHandler(now: int, es: seq<Event>, j: int) returns (m: nat, x: int)
    requires ValidRun(now, es) && j in After(now, es).table && After(now, es).table[j].status == Succeeded
    ensures Records(now, es, m, x, j, true)
  {
    var before, e := es[..|es| - 1], es[|es| - 1];
    var s := After(now, before);
    assert es == before + [e];
    if j in s.table && s.table[j].status == Succeeded {
      m, x := SucceededByHandler(now, before, j);
      RecordsLater(now, before, e, m, x, j, true);
    } else {
      assert e.Record? && s.execs[e.x].job == j && s.execs[e.x].phase == Posted(true);
      EveryPostIsDecided(now, before);
      m, x := |before|, e.x;
      assert es[..m] == before;
    }
  }

  /** Each failure in the history of a job is the recorded failure of one of its handlers. */
  lemma {:induction false} FailedByHandler(now: int, es: seq<Event>, j: int, i: nat) returns (x: int)
    requires ValidRun(now, es) && i < |HistoryOf(now, es, j).failures|
    ensures Records(now, es, HistoryOf(now, es, j).failures[i], x, j, false)
  {
    var before, e := es[..|es| - 1], es[|es| - 1];
    assert es == before + [e];
    if i < |HistoryOf(now, before, j).failures| {
      x := FailedByHandler(now, before, j, i);
      RecordsLater(now, before, e, HistoryOf(now, before, j).failures[i], x, j, false);
    } else {
      EveryPostIsDecided(now, before);
      x := e.x;
      assert es[..|before|] == before;
    }
  }

  /******* Where a row comes from *******/

  lemma {:induction false} NoMarkBeforeInsert(now: int, es: seq<Event>, j: int)
    requires ValidRun(now, es) && j >= After(now, es).nextId
    ensures HistoryOf(now, es, j).mark.None?
  {
    if es != [] {
      NoMarkBeforeInsert(now, es[..|es| - 1], j);
      RowsNumbered(now, es[..|es| - 1]);
    }
  }

  /** The row as its Insert wrote it, but for the schedule of its last mark. */
  ghost predicate FromInsert(r: Row, e: Event, mark: Option<Mark>) {
    && e.Insert? && r.name == e.name && r.payload == e.payload && r.maxAttempts == 3
    && r.scheduledAt == if mark.None? then e.at else mark.value.time + 60
  }

  lemma StepKeepsOrigin(s: State, e: Event, j: int, h: History, n: nat, insert: Event)
    requires Enabled(s, e) && j in s.table && FromInsert(s.table[j], insert, h.mark) && j < s.nextId
    ensures j in Apply(s, e).table ==> FromInsert(Apply(s, e).table[j], insert, Extended(h, s, e, j, n).mark)
  {
  }

  /** In every run the columns of a row are those of the one Insert that got its number. */
  lemma {:induction false} RowOrigin(now: int, es: seq<Event>, j: int) returns (k: nat)
    requires ValidRun(now, es) && j in After(now, es).table
    ensures k < |es| && ValidRun(now, es[..k]) && After(now, es[..k]).nextId == j
    ensures FromInsert(After(now, es).table[j], es[k], HistoryOf(now, es, j).mark)
  {
    var before, e := es[..|es| - 1], es[|es| - 1];
    var s := After(now, before);
    RowsNumbered(now, before);
    if j in s.table {
      k := RowOrigin(now, before, j);
      assert es[..k] == before[..k];
      StepKeepsOrigin(s, e, j, HistoryOf(now, before, j), |before|, before[k]);
    } else {
      k := |before|;
      assert es[..k] == before;
      NoMarkBeforeInsert(now, before, j);
    }
  }

  /** A deleted row is gone in every continuation, and the delete touches no other. */
  lemma {:induction false} DeletedForGood(now: int, es: seq<Event>, more: seq<Event>, id: int)
    requires ValidRun(now, es) && id in After(now, es).table && ValidRun(now, es + [Delete(id)] + more)
    ensures id !in After(now, es + [Delete(id)] + more).table
    ensures id < After(now, es + [Delete(id)] + more).nextId
    ensures more == [] ==> forall k :: k in After(now, es).table && k != id ==>
              && k in After(now, es + [Delete(id)]).table
              && After(now, es + [Delete(id)]).table[k] == After(now, es).table[k]
    decreases |more|
  {
    var run := es + [Delete(id)] + more;
    if more == [] {
      assert run == es + [Delete(id)] && run[..|run| - 1] == es;
      RowsNumbered(now, es);
    } else {
      var init := more[..|more| - 1];
      assert run[..|run| - 1] == es + [Delete(id)] + init;
      DeletedForGood(now, es, init, id);
    }
  }

  /******* The clock and the batches *******/

  /** The last tick, or the start of the run. */
  function Clock(now: int, es: seq<Event>): int {
    if es == [] then now
    else if es[|es| - 1].Tick? then es[|es| - 1].to
    else Clock(now, es[..|es| - 1])
  }

  lemma {:induction false} ClockIsLastTick(now: int, es: seq<Event>)
    requires ValidRun(now, es)
    ensures After(now, es).now == Clock(now, es)
  {
    if es != [] {
      ClockIsLastTick(now, es[..|es| - 1]);
    }
  }

  /** Nothing takes the batch of worker `w` away. */
  predicate KeepsBatch(e: Event, w: int) {
    && (e.Stop? ==> e.worker != w) && (e.Fetch? ==> e.worker != w)
    && (e.Lock? && e.worker == w ==> e.outcome != NoPermit)
  }

  function Turns(es: seq<Event>, w: int): nat {
    if es == [] then 0
    else Turns(es[..|es| - 1], w) + if es[|es| - 1].Lock? && es[|es| - 1].worker == w then 1 else 0
  }

  ghost predicate HoldsFrom(s: State, w: int, ids: seq<int>, n: nat) {
    && w in s.batches && n + |s.batches[w]| == |ids|
    && forall i :: 0 <= i < |s.batches[w]| ==> s.batches[w][i].job == ids[n + i]
  }

  lemma StepKeepsBatch(s: State, e: Event, w: int, ids: seq<int>, n: nat)
    requires Enabled(s, e) && KeepsBatch(e, w) && HoldsFrom(s, w, ids, n)
    ensures HoldsFrom(Apply(s, e), w, ids, n + if e.Lock? && e.worker == w then 1 else 0)
  {
  }

  /** A worker goes through the jobs it fetched one by one, in order, whatever comes between. */
  lemma {:induction false} BatchInOrder(now: int, es: seq<Event>, w: int, ids: seq<int>, more: seq<Event>)
    requires ValidRun(now, es + [Fetch(w, ids)] + more)
    requires forall i :: 0 <= i < |more| ==> KeepsBatch(more[i], w)
    ensures HoldsFrom(After(now, es + [Fetch(w, ids)] + more), w, ids, Turns(more, w))
    decreases |more|
  {
    var run := es + [Fetch(w, ids)] + more;
    if more == [] {
      assert run[..|run| - 1] == es;
    } else {
      var init, e := more[..|more| - 1], more[|more| - 1];
      assert run[..|run| - 1] == es + [Fetch(w, ids)] + init;
      BatchInOrder(now, es, w, ids, init);
      StepKeepsBatch(After(now, es + [Fetch(w, ids)] + init), e, w, ids, Turns(init, w));
    }
  }

  /** A worker is up from its start to its stop. */
  predicate Up(es: seq<Event>, w: int) {
    es != [] &&
    (var last := es[|es| - 1];
     (last.Start? && last.worker == w) || (!(last.Stop? && last.worker == w) && Up(es[..|es| - 1], w)))
  }

  lemma {:induction false} UpIff(now: int, es: seq<Event>, w: int)
    requires ValidRun(now, es)
    ensures w in After(now, es).batches <==> Up(es, w)
  {
    if es != [] {
      UpIff(now, es[..|es| - 1], w);
    }
  }

  /** A lock takes a job exactly when its statement is committed and the row waits; otherwise nothing changes. */
  lemma LockTakesIff(s: State, w: int, outcome: LockOutcome)
    requires Enabled(s, Lock(w, outcome))
    ensures var s', job := Apply(s, Lock(w, outcome)), s.batches[w][0].job;
            var taken := && outcome != LockFails && job in s.table
                         && (s.table[job].status == Queued || s.table[job].status == Retrying);
            && (taken ==> job in s'.table && s'.table[job].status == Processing && s'.nextExec == s.nextExec + 1)
            && (!taken ==> s'.table == s.table && s'.execs == s.execs)
  {
  }

  /** A worker that gets no permit leaves its batch: until it fetches again it has nothing to lock. */
  lemma {:induction false} LeftWithoutPermit(now: int, es: seq<Event>, w: int, more: seq<Event>)
    requires ValidRun(now, es) && ValidRun(now, es + [Lock(w, NoPermit)] + more)
    requires Enabled(After(now, es), Lock(w, NoPermit)) && Locks(After(now, es), w, NoPermit)
    requires forall i :: 0 <= i < |more| ==> !(more[i].Fetch? && more[i].worker == w)
    ensures var s := After(now, es + [Lock(w, NoPermit)] + more); w in s.batches ==> s.batches[w] == []
    decreases |more|
  {
    var run := es + [Lock(w, NoPermit)] + more;
    if more == [] {
      assert run[..|run| - 1] == es;
    } else {
      var init := more[..|more| - 1];
      assert run[..|run| - 1] == es + [Lock(w, NoPermit)] + init;
      LeftWithoutPermit(now, es, w, init);
    }
  }
}

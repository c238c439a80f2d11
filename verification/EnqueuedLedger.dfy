/** Counting what happens to a job over a run: conservation, bounds, and status transitions. */
module EnqueuedLedger {
  import opened Statuses
  import opened EnqueuedTable
  import opened EnqueuedProtocol
  import opened Text

  /** The ways a statement writes the status of a row. */
  datatype Write = Locked | Succeeds | Fails | Retries | Requeues

  /** How an event writes the status of job `j`, if it does. */
  function WriteOf(s: State, e: Event, j: int): Option<Write>
    requires Enabled(s, e)
  {
    match e
    case Lock(w, outcome) => if s.batches[w][0].job == j && Locks(s, w, outcome) then Some(Locked) else None
    case Record(x, committed) =>
      if committed && s.execs[x].job == j && j in s.table then
        Some(if s.execs[x].phase.ok then Succeeds else Fails)
      else None
    case Sweep => if j in s.table && Retryable(s.table[j]) then Some(Retries) else None
    case Start(_) => if j in s.table && Stale(s.table[j], s.now) then Some(Requeues) else None
    case _ => None
  }

  /** The effect of every event on the row of a job, by the kind of write. */
  lemma RowEffect(s: State, e: Event, j: int, holder: Option<int>)
    requires ExecsOk(s) && JobInv(s, j, holder) && Enabled(s, e)
    ensures var s' := Apply(s, e);
            match WriteOf(s, e, j)
            case None =>
              && (j in s'.table && j in s.table ==> s'.table[j] == s.table[j])
              && (j in s'.table && j !in s.table ==>
                    j == s.nextId && s'.table[j].status == Queued && s'.table[j].attempts == 0)
            case Some(write) =>
              && j in s.table && j in s'.table
              && var (r, r') := (s.table[j], s'.table[j]);
                 match write
                 case Locked =>
                   && (r.status == Queued || r.status == Retrying)
                   && e.Lock? && r' == r.(status := Processing, lockedAt := Some(s.now), lockedBy := Some(e.worker))
                 case Succeeds => r.status == Processing && r' == r.(status := Succeeded)
                 case Fails =>
                   && r.status == Processing && r' == r.(status := r'.status, attempts := r.attempts + 1)
                   && (r'.status == Failed || (r'.status == Dead && r'.attempts == 3))
                 case Retries =>
                   && r.status == Failed && r.attempts < 3
                   && r' == r.(status := Retrying, scheduledAt := s.now + RETRY_DELAY)
                 case Requeues =>
                   r.status == Processing && r' == r.(status := Queued, lockedAt := None, lockedBy := None)
  {
  }

  /******* Conservation *******/

  datatype Tally = Tally(locks: nat, successes: nat, failures: nat, retries: nat, requeues: nat, calls: nat) {
    function Writes(): nat {
      locks + successes + failures + retries + requeues
    }
  }

  function Add(t: Tally, s: State, e: Event, j: int): Tally
    requires Enabled(s, e)
  {
    match WriteOf(s, e, j)
    case Some(Locked) => t.(locks := t.locks + 1)
    case Some(Succeeds) => t.(successes := t.successes + 1)
    case Some(Fails) => t.(failures := t.failures + 1)
    case Some(Retries) => t.(retries := t.retries + 1)
    case Some(Requeues) => t.(requeues := t.requeues + 1)
    case None => if e.Call? && s.execs[e.x].job == j then t.(calls := t.calls + 1) else t
  }

  /** How often each kind of write, and the handler call, happened to job `j` in a run. */
  function TallyOf(now: int, es: seq<Event>, j: int): Tally
    requires ValidRun(now, es)
  {
    if es == [] then Tally(0, 0, 0, 0, 0, 0)
    else Add(TallyOf(now, es[..|es| - 1], j), After(now, es[..|es| - 1]), es[|es| - 1], j)
  }

  /** The row of a job against its tally: every count is determined by the row and the requeues. */
  predicate Ledger(r: Row, open: bool, t: Tally) {
    && t.failures == r.attempts
    && t.successes == (if r.status == Succeeded then 1 else 0)
    && t.retries == r.attempts - (if r.status == Failed || r.status == Dead then 1 else 0)
    && t.locks == t.failures + t.successes + t.requeues + (if open then 1 else 0)
  }

  predicate Bounded(t: Tally) {
    t.locks <= 3 + t.requeues && t.Writes() <= 8 + 2 * t.requeues
  }

  lemma LedgerIsBounded(r: Row, now: int, open: bool, t: Tally)
    requires RowOk(r, now) && (r.status == Processing <==> open) && Ledger(r, open, t)
    ensures Bounded(t)
  {
  }

  /** A call was preceded by its own lock. */
  ghost predicate CallsCovered(s: State, j: int, holder: Option<int>, t: Tally)
    requires IsHolder(s, j, holder)
  {
    t.calls + (if holder.Some? && s.execs[holder.value].phase.Spawned? then 1 else 0) <= t.locks
  }

  ghost predicate Balanced(s: State, j: int, holder: Option<int>, t: Tally)
    requires IsHolder(s, j, holder)
  {
    && (j in s.table ==> Ledger(s.table[j], holder.Some?, t))
    && (j >= s.nextId ==> t == Tally(0, 0, 0, 0, 0, 0))
    && Bounded(t)
    && CallsCovered(s, j, holder, t)
  }

  lemma StepKeepsCalls(s: State, e: Event, j: int, holder: Option<int>, t: Tally)
    requires ExecsOk(s) && JobInv(s, j, holder) && Enabled(s, e)
    requires JobInv(Apply(s, e), j, NextHolder(s, e, j, holder))
    requires CallsCovered(s, j, holder, t)
    ensures CallsCovered(Apply(s, e), j, NextHolder(s, e, j, holder), Add(t, s, e, j))
  {
  }

  lemma StepKeepsLedger(s: State, e: Event, j: int, holder: Option<int>, t: Tally)
    requires ExecsOk(s) && JobInv(s, j, holder) && Enabled(s, e)
    requires JobInv(Apply(s, e), j, NextHolder(s, e, j, holder))
    requires j in s.table ==> Ledger(s.table[j], holder.Some?, t)
    requires j >= s.nextId ==> t == Tally(0, 0, 0, 0, 0, 0)
    ensures j in Apply(s, e).table ==>
              Ledger(Apply(s, e).table[j], NextHolder(s, e, j, holder).Some?, Add(t, s, e, j))
  {
    RowEffect(s, e, j, holder);
  }

  /** A job that does not exist yet has an empty tally. */
  lemma StepKeepsZero(s: State, e: Event, j: int, holder: Option<int>, t: Tally)
    requires ExecsOk(s) && JobInv(s, j, holder) && Enabled(s, e)
    requires j >= s.nextId ==> t == Tally(0, 0, 0, 0, 0, 0)
    ensures j >= Apply(s, e).nextId ==> Add(t, s, e, j) == Tally(0, 0, 0, 0, 0, 0)
  {
  }

  lemma StepKeepsBounds(s: State, e: Event, j: int, holder: Option<int>, t: Tally)
    requires ExecsOk(s) && JobInv(s, j, holder) && Enabled(s, e) && Bounded(t)
    ensures j !in Apply(s, e).table ==> Bounded(Add(t, s, e, j))
  {
    RowEffect(s, e, j, holder);
  }

  lemma StepKeepsBalance(s: State, e: Event, j: int, holder: Option<int>, t: Tally)
    requires ExecsOk(s) && JobInv(s, j, holder) && Enabled(s, e)
    requires JobInv(Apply(s, e), j, NextHolder(s, e, j, holder))
    requires Balanced(s, j, holder, t)
    ensures Balanced(Apply(s, e), j, NextHolder(s, e, j, holder), Add(t, s, e, j))
  {
    StepKeepsCalls(s, e, j, holder, t);
    StepKeepsLedger(s, e, j, holder, t);
    StepKeepsZero(s, e, j, holder, t);
    StepKeepsBounds(s, e, j, holder, t);
    BalanceOf(Apply(s, e), j, NextHolder(s, e, j, holder), Add(t, s, e, j));
  }

  lemma BalanceOf(s: State, j: int, holder: Option<int>, t: Tally)
    requires JobInv(s, j, holder) && CallsCovered(s, j, holder, t)
    requires j in s.table ==> Ledger(s.table[j], holder.Some?, t)
    requires j >= s.nextId ==> t == Tally(0, 0, 0, 0, 0, 0)
    requires j !in s.table ==> Bounded(t)
    ensures Balanced(s, j, holder, t)
  {
    if j in s.table {
      LedgerIsBounded(s.table[j], s.now, holder.Some?, t);
    }
  }

  /**
   Over every run that starts quietly for a job, its successful locks equal recorded failures,
   recorded successes, requeued executions and the one that is open; so a job that
   was requeued c times is locked, and its handler called, at most 3 + c times, and
   its status is written at most 8 + 2c times.
   */
  lemma {:induction false} Conservation(now: int, es: seq<Event>, j: int) returns (holder: Option<int>)
    requires ValidRun(now, es) && QuietStarts(now, es, j)
    ensures JobInv(After(now, es), j, holder)
    ensures Balanced(After(now, es), j, holder, TallyOf(now, es, j))
    ensures var t := TallyOf(now, es, j); t.calls <= t.locks <= 3 + t.requeues && t.Writes() <= 8 + 2 * t.requeues
  {
    if es == [] {
      holder := None;
    } else {
      var s, e := After(now, es[..|es| - 1]), es[|es| - 1];
      var before := Conservation(now, es[..|es| - 1], j);
      EveryRunExecsOk(now, es[..|es| - 1]);
      StepKeepsJob(s, e, j, before);
      StepKeepsBalance(s, e, j, before, TallyOf(now, es[..|es| - 1], j));
      holder := NextHolder(s, e, j, before);
    }
  }

  /******* Status transitions *******/

  /** One edge of the table, or `processing` to `dead` through `failed`, or the requeueing of a start. */
  predicate LegalWrite(from: Status, to: Status, e: Event) {
    || IsValidTransition(from, to)
    || (&& from == Processing && to == Dead && e.Record?
        && IsValidTransition(from, Failed) && IsValidTransition(Failed, to))
    || (from == Processing && to == Queued && e.Start?)
  }

  /** Every status write of a run follows the transition table, and nothing else changes a status. */
  lemma WritesAreTransitions(now: int, es: seq<Event>, e: Event, j: int)
    requires ValidRun(now, es) && QuietStarts(now, es, j) && Enabled(After(now, es), e)
    ensures var (s, s') := (After(now, es), Apply(After(now, es), e));
            j in s.table && j in s'.table ==>
              if WriteOf(s, e, j).Some? then LegalWrite(s.table[j].status, s'.table[j].status, e)
              else s'.table[j].status == s.table[j].status
    ensures forall status :: !LegalWrite(status, status, e)
  {
    var holder := EveryRunKeepsJob(now, es, j);
    EveryRunExecsOk(now, es);
    RowEffect(After(now, es), e, j, holder);
  }

  /** Rows that no step of a single-owner run changes any more. */
  predicate Settled(r: Row) {
    r.status == Succeeded || r.status == Dead || (r.status == Failed && r.attempts == 3)
  }

  /** `succeeded`, `dead`, and `failed` at three attempts are final: the row stays as it is until deleted. */
  lemma {:induction false} SettledIsFinal(now: int, es: seq<Event>, more: seq<Event>, j: int)
    requires ValidRun(now, es) && ValidRun(now, es + more) && QuietStarts(now, es + more, j)
    requires j in After(now, es).table && Settled(After(now, es).table[j])
    ensures j in After(now, es + more).table ==> After(now, es + more).table[j] == After(now, es).table[j]
    decreases |more|
  {
    if more == [] {
      assert es + more == es;
    } else {
      var init, e := more[..|more| - 1], more[|more| - 1];
      assert (es + more)[..|es + more| - 1] == es + init;
      SettledIsFinal(now, es, init, j);
      var holder := EveryRunKeepsJob(now, es + init, j);
      EveryRunExecsOk(now, es + init);
      RowEffect(After(now, es + init), e, j, holder);
      NeverReborn(now, es, init, j);
    }
  }

  lemma {:induction false} RowsNumbered(now: int, es: seq<Event>)
    requires ValidRun(now, es)
    ensures forall id :: id in After(now, es).table ==> id < After(now, es).nextId
  {
    if es != [] {
      RowsNumbered(now, es[..|es| - 1]);
    }
  }

  /** Numbers of deleted rows are not used again. */
  lemma {:induction false} NeverReborn(now: int, es: seq<Event>, more: seq<Event>, j: int)
    requires ValidRun(now, es) && ValidRun(now, es + more)
    requires j in After(now, es).table
    ensures j < After(now, es + more).nextId
    decreases |more|
  {
    if more == [] {
      assert es + more == es;
      RowsNumbered(now, es);
    } else {
      var init := more[..|more| - 1];
      assert (es + more)[..|es + more| - 1] == es + init;
      NeverReborn(now, es, init, j);
    }
  }
}

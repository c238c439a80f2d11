/**
 The life of cron jobs with any number of worker processes
 (client/cron_job_manager.go over internal/store/postgres/postgres_cron_job_store.go).

 Names are unique and rows are never deleted, so a job's name stands for its row.
 Times are nanoseconds, as in the search.
 */
module CronProtocol {
  import opened Statuses
  import opened Text
  import opened CronSearch
  import opened CronLaws
  import opened CronTable

  /******* States and events *******/

  datatype Snapshot = Snapshot(job: string, expr: string)

  datatype Phase =
    | Spawned                                   // the goroutine is started
    | Running(ranAt: int, next: int)            // the clock is read and the next run computed
    | Posted(ok: bool, ranAt: int, next: int)   // the result is in the channel
    | Marked(ranAt: int, next: int)             // the status is written, the run times are not
    | Lost                                      // nothing more will be written

  datatype Execution = Execution(job: string, owner: int, expr: string, phase: Phase)

  /** An execution is live from its lock until its status is written. */
  predicate Live(x: Execution) {
    x.phase.Spawned? || x.phase.Running? || x.phase.Posted?
  }

  datatype State = State(now: int, table: CronTable, batches: map<int, seq<Snapshot>>, execs: map<int, Execution>,
                         nextExec: int)

  function Init(now: int): State {
    State(now, map[], map[], map[], 0)
  }

  datatype LockOutcome = Starts | NoPermit | ReplyLost | LockFails

  datatype Event =
    | Tick(to: int)
    | Schedule(name: string, expr: string)
    | Activate(name: string, active: bool)
    | Start(worker: int)
    | Stop(worker: int)
    | Fetch(worker: int, names: seq<string>)
    | Lock(worker: int, outcome: LockOutcome)
    | Begin(x: int)
    | Finish(x: int, ok: bool)
    | Mark(x: int, committed: bool)
    | WriteTimes(x: int, committed: bool)

  predicate Enabled(s: State, e: Event) {
    match e
    case Tick(to) => s.now <= to
    case Schedule(_, _) => true
    case Activate(_, _) => true
    case Start(w) => w !in s.batches
    case Stop(w) => w in s.batches
    case Fetch(w, names) =>
      && w in s.batches && s.batches[w] == []
      && forall i :: 0 <= i < |names| ==> names[i] in s.table && Fetched(s.table[names[i]], s.now)
    case Lock(w, _) => w in s.batches && s.batches[w] != []
    case Begin(x) => x in s.execs && s.execs[x].phase.Spawned?
    case Finish(x, _) => x in s.execs && s.execs[x].phase.Running?
    case Mark(x, _) => x in s.execs && s.execs[x].phase.Posted?
    case WriteTimes(x, _) => x in s.execs && s.execs[x].phase.Marked?
  }

  predicate Locks(s: State, w: int, outcome: LockOutcome)
    requires Enabled(s, Lock(w, outcome))
  {
    Lockable(s.table, s.batches[w][0].job) && !outcome.LockFails?
  }

  function SetPhase(s: State, x: int, phase: Phase): State
    requires x in s.execs
  {
    s.(execs := s.execs[x := s.execs[x].(phase := phase)])
  }

  /** A worker that goes down takes its executions with it. */
  function Abandon(execs: map<int, Execution>, worker: int): map<int, Execution> {
    map x | x in execs :: if execs[x].owner == worker then execs[x].(phase := Lost) else execs[x]
  }

  function ApplyFetch(s: State, w: int, names: seq<string>): State
    requires Enabled(s, Fetch(w, names))
  {
    var fetched := seq(|names|, i requires 0 <= i < |names| => Snapshot(names[i], s.table[names[i]].expr));
    s.(batches := s.batches[w := fetched])
  }

  /** A semaphore error skips the job but not the rest of the batch. */
  function ApplyLock(s: State, w: int, outcome: LockOutcome): State
    requires Enabled(s, Lock(w, outcome))
  {
    var head, rest := s.batches[w][0], s.batches[w][1..];
    if Locks(s, w, outcome) then
      s.(table := LockJob(s.table, head.job, s.now),
         batches := s.batches[w := rest],
         execs := s.execs[s.nextExec := Execution(head.job, w, head.expr, if outcome.Starts? then Spawned else Lost)],
         nextExec := s.nextExec + 1)
    else
      s.(batches := s.batches[w := rest])
  }

  /** The result processor writes the status; an error is logged and it goes on to the run times. */
  function ApplyMark(s: State, x: int, committed: bool): State
    requires Enabled(s, Mark(x, committed))
  {
    var e := s.execs[x];
    var marked := SetPhase(s, x, Marked(e.phase.ranAt, e.phase.next));
    if !committed then marked
    else marked.(table := if e.phase.ok then MarkSuccess(s.table, e.job) else MarkFailure(s.table, e.job))
  }

  function ApplyWriteTimes(s: State, x: int, committed: bool): State
    requires Enabled(s, WriteTimes(x, committed))
  {
    var e := s.execs[x];
    var done := SetPhase(s, x, Lost);
    if !committed then done
    else done.(table := UpdateJobRunTimes(s.table, e.job, e.phase.ranAt, e.phase.next))
  }

  ghost function Apply(s: State, e: Event): State
    requires Enabled(s, e)
  {
    match e
    case Tick(to) => s.(now := to)
    case Schedule(name, expr) => s.(table := AddOrUpdate(s.table, name, NextRun(expr, s.now), expr))
    case Activate(name, active) => s.(table := SetActive(s.table, name, active))
    case Start(w) => s.(batches := s.batches[w := []])
    case Stop(w) => s.(batches := s.batches - {w}, execs := Abandon(s.execs, w))
    case Fetch(w, names) => ApplyFetch(s, w, names)
    case Lock(w, outcome) => ApplyLock(s, w, outcome)
    case Begin(x) => SetPhase(s, x, Running(s.now, NextRun(s.execs[x].expr, s.now)))
    case Finish(x, ok) => SetPhase(s, x, Posted(ok, s.execs[x].phase.ranAt, s.execs[x].phase.next))
    case Mark(x, committed) => ApplyMark(s, x, committed)
    case WriteTimes(x, committed) => ApplyWriteTimes(s, x, committed)
  }

  ghost predicate ValidRun(now: int, es: seq<Event>)
    decreases |es|, 0
  {
    es == [] ||
    (ValidRun(now, es[..|es| - 1]) && Enabled(After(now, es[..|es| - 1]), es[|es| - 1]))
  }

  ghost function After(now: int, es: seq<Event>): State
    requires ValidRun(now, es)
    decreases |es|, 1
  {
    if es == [] then Init(now) else Apply(After(now, es[..|es| - 1]), es[|es| - 1])
  }

  /******* Mutual exclusion *******/

  ghost predicate ExecsNumbered(s: State) {
    forall x :: x in s.execs ==> x < s.nextExec
  }

  /** `holder` is the only live execution of the job, and while there is one the row is `processing`. */
  ghost predicate JobInv(s: State, name: string, holder: Option<int>) {
    && (forall x :: x in s.execs && s.execs[x].job == name && Live(s.execs[x]) ==> holder == Some(x))
    && (holder.Some? ==>
          && holder.value in s.execs && s.execs[holder.value].job == name && Live(s.execs[holder.value])
          && name in s.table && s.table[name].status == Processing)
  }

  ghost function NextHolder(s: State, e: Event, name: string, holder: Option<int>): Option<int>
    requires Enabled(s, e)
  {
    match e
    case Lock(w, outcome) =>
      if Locks(s, w, outcome) && s.batches[w][0].job == name && outcome.Starts? then Some(s.nextExec) else holder
    case Mark(x, _) => if holder == Some(x) then None else holder
    case Stop(w) => if holder.Some? && holder.value in s.execs && s.execs[holder.value].owner == w then None else holder
    case _ => holder
  }

  lemma LockKeepsJob(s: State, w: int, outcome: LockOutcome, name: string, holder: Option<int>)
    requires ExecsNumbered(s) && JobInv(s, name, holder) && Enabled(s, Lock(w, outcome))
    ensures JobInv(ApplyLock(s, w, outcome), name, NextHolder(s, Lock(w, outcome), name, holder))
  {
  }

  lemma MarkKeepsJob(s: State, x: int, committed: bool, name: string, holder: Option<int>)
    requires JobInv(s, name, holder) && Enabled(s, Mark(x, committed))
    ensures JobInv(ApplyMark(s, x, committed), name, NextHolder(s, Mark(x, committed), name, holder))
  {
  }

  lemma StepKeepsJob(s: State, e: Event, name: string, holder: Option<int>)
    requires ExecsNumbered(s) && JobInv(s, name, holder) && Enabled(s, e)
    ensures JobInv(Apply(s, e), name, NextHolder(s, e, name, holder))
  {
    match e
    case Lock(w, outcome) => LockKeepsJob(s, w, outcome, name, holder);
    case Mark(x, committed) => MarkKeepsJob(s, x, committed, name, holder);
    case _ =>
  }

  lemma StepKeepsNumbers(s: State, e: Event)
    requires ExecsNumbered(s) && Enabled(s, e)
    ensures ExecsNumbered(Apply(s, e))
  {
  }

  /**
   Mutual exclusion in every run, with any number of workers, crashes, expired
   locks, reschedules and lost replies: a job has at most one live execution.
   */
  lemma {:induction false} MutualExclusion(now: int, es: seq<Event>, name: string) returns (holder: Option<int>)
    requires ValidRun(now, es)
    ensures ExecsNumbered(After(now, es))
    ensures JobInv(After(now, es), name, holder)
  {
    if es == [] {
      holder := None;
    } else {
      var s, e := After(now, es[..|es| - 1]), es[|es| - 1];
      var before := MutualExclusion(now, es[..|es| - 1], name);
      StepKeepsNumbers(s, e);
      StepKeepsJob(s, e, name, before);
      holder := NextHolder(s, e, name, before);
    }
  }

  /******* A job whose execution is gone *******/

  /** The row is `processing`, and nothing will ever write its status. */
  ghost predicate Orphaned(s: State, name: string) {
    && name in s.table && s.table[name].status == Processing
    && forall x :: x in s.execs && s.execs[x].job == name ==> !Live(s.execs[x])
  }

  lemma StepKeepsOrphan(s: State, e: Event, name: string)
    requires ExecsNumbered(s) && Orphaned(s, name) && Enabled(s, e)
    ensures Orphaned(Apply(s, e), name)
  {
  }

  /** An orphaned job is never locked again, in any continuation, whatever the lock's age. */
  lemma {:induction false} OrphanForever(now: int, es: seq<Event>, more: seq<Event>, name: string)
    requires ValidRun(now, es) && ValidRun(now, es + more) && Orphaned(After(now, es), name)
    ensures Orphaned(After(now, es + more), name) && !Lockable(After(now, es + more).table, name)
    decreases |more|
  {
    if more == [] {
      assert es + more == es;
    } else {
      var init := more[..|more| - 1];
      assert (es + more)[..|es + more| - 1] == es + init;
      OrphanForever(now, es, init, name);
      var holder := MutualExclusion(now, es + init, name);
      var s, e := After(now, es + init), more[|more| - 1];
      StepKeepsOrphan(s, e, name);
      assert After(now, es + more) == Apply(s, e);
    }
  }

  lemma Extend(es: seq<Event>, e: Event) returns (longer: seq<Event>)
    requires ValidRun(0, es) && Enabled(After(0, es), e)
    ensures ValidRun(0, longer) && After(0, longer) == Apply(After(0, es), e)
  {
    longer := es + [e];
    assert longer[..|longer| - 1] == es;
  }

  lemma Scheduled(name: string, expr: string) returns (es: seq<Event>, row: CronRow)
    ensures ValidRun(0, es) && After(0, es) == State(0, map[name := row], map[], map[], 0)
    ensures row.status == Queued && row.expr == expr
  {
    es := Extend([], Event.Schedule(name, expr));
    row := After(0, es).table[name];
  }

  lemma LockedByFirst(name: string, expr: string) returns (es: seq<Event>)
    ensures ValidRun(0, es)
    ensures var s := After(0, es);
            && name in s.table && s.table[name].status == Processing && 1 in s.batches
            && s.execs == map[0 := Execution(name, 1, expr, Spawned)]
  {
    var row;
    es, row := Scheduled(name, expr);
    es := Extend(es, Start(1));
    assert After(0, es) == State(0, map[name := row], map[1 := []], map[], 0);
    es := Extend(es, Fetch(1, [name]));
    assert After(0, es).batches[1] == [Snapshot(name, expr)];
    es := Extend(es, Lock(1, Starts));
  }

  /** Any job is orphaned by the crash of the worker that runs it. */
  lemma CrashOrphans(name: string, expr: string) returns (es: seq<Event>)
    ensures ValidRun(0, es) && Orphaned(After(0, es), name)
  {
    es := LockedByFirst(name, expr);
    es := Extend(es, Stop(1));
  }

  /** A job is orphaned by an event exactly when its live execution ends without its status being written. */
  lemma OrphanedByIff(s: State, e: Event, name: string, holder: Option<int>)
    requires ExecsNumbered(s) && JobInv(s, name, holder) && Enabled(s, e) && !Orphaned(s, name)
    ensures Orphaned(Apply(s, e), name)
            <==> match e
                 case Stop(w) => holder.Some? && s.execs[holder.value].owner == w
                 case Mark(x, committed) => holder == Some(x) && !committed
                 case Lock(w, outcome) => s.batches[w][0].job == name && Locks(s, w, outcome) && !outcome.Starts?
                 case _ => false
  {
    StepKeepsJob(s, e, name, holder);
    var s' := Apply(s, e);
    var h := NextHolder(s, e, name, holder);
    assert h.Some? ==> !Orphaned(s', name);
  }

  /******* Run times *******/

  /** What an execution carries was read in the past and points after it. */
  ghost predicate CarriesOrder(x: Execution, now: int) {
    match x.phase
    case Running(ranAt, next) => ranAt <= now && ranAt < next
    case Posted(_, ranAt, next) => ranAt <= now && ranAt < next
    case Marked(ranAt, next) => ranAt <= now && ranAt < next
    case _ => true
  }

  ghost predicate TimesOrdered(s: State) {
    && (forall x :: x in s.execs ==> CarriesOrder(s.execs[x], s.now))
    && (forall name :: name in s.table && s.table[name].lastRun.Some? ==>
          s.table[name].lastRun.value <= s.now && s.table[name].lastRun.value < s.table[name].nextRun)
  }

  lemma StepKeepsOrder(s: State, e: Event)
    requires TimesOrdered(s) && Enabled(s, e)
    ensures TimesOrdered(Apply(s, e))
  {
    if e.Begin? {
      NextRunIsLater(s.execs[e.x].expr, s.now);
    } else if e.Schedule? {
      NextRunIsLater(e.expr, s.now);
    }
  }

  /** In every run the last run of a row is before its next run, however late results are written. */
  lemma {:induction false} LastRunBeforeNextRun(now: int, es: seq<Event>)
    requires ValidRun(now, es)
    ensures TimesOrdered(After(now, es))
  {
    if es != [] {
      LastRunBeforeNextRun(now, es[..|es| - 1]);
      StepKeepsOrder(After(now, es[..|es| - 1]), es[|es| - 1]);
    }
  }
}

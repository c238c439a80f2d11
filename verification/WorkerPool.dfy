/**
 Permits, waiting and results of a manager: the semaphore and the wait group of
 `Start`, the goroutines of the handlers and the channel they post to
 (client/enqueue_job_manager.go, client/cron_job_manager.go).
 */
module WorkerPool {
  import opened Text

  datatype Manager = EnqueuedManager | CronManager

  /******* Deferred calls *******/

  datatype Call = RecoverPanic | ReleasePermit | LeaveGroup

  /** The defer statements of a handler goroutine, in program order, each with the calls it makes. */
  function DeferStatements(m: Manager): seq<seq<Call>> {
    match m
    case EnqueuedManager => [[RecoverPanic, ReleasePermit, LeaveGroup]]
    case CronManager => [[ReleasePermit], [LeaveGroup]]
  }

  /** Deferred functions run in the reverse order of their statements. */
  function Unwound(defers: seq<seq<Call>>): seq<Call> {
    if defers == [] then [] else defers[|defers| - 1] + Unwound(defers[..|defers| - 1])
  }

  function Deferred(m: Manager): seq<Call> {
    Unwound(DeferStatements(m))
  }

  lemma DeferredOrder(m: Manager)
    ensures m.EnqueuedManager? ==> Deferred(m) == [RecoverPanic, ReleasePermit, LeaveGroup]
    ensures m.CronManager? ==> Deferred(m) == [LeaveGroup, ReleasePermit]
  {
    var defers := DeferStatements(m);
    if m.CronManager? {
      assert defers[..1] == [[ReleasePermit]] && defers[..1][..0] == [];
      assert Unwound(defers[..1]) == [ReleasePermit];
    } else {
      assert defers[..0] == [];
    }
  }

  /** The permit is released before the goroutine leaves the wait group. */
  predicate ReleasesFirst(m: Manager) {
    exists i, k :: 0 <= i < k < |Deferred(m)| && Deferred(m)[i] == ReleasePermit && Deferred(m)[k] == LeaveGroup
  }

  lemma WhoReleasesFirst(m: Manager)
    ensures ReleasesFirst(m) <==> m.EnqueuedManager?
  {
    DeferredOrder(m);
    if m.EnqueuedManager? {
      assert Deferred(m)[1] == ReleasePermit && Deferred(m)[2] == LeaveGroup;
    }
  }

  /******* States and events *******/

  /** Where the loop of Start is; `Crashed` is the end of the process by a panic that nobody recovers. */
  datatype Loop = Polling | Draining | Returned | Crashed

  /** A handler goroutine. A panic skips the sending and goes straight to the deferred calls. */
  datatype Phase =
    | Checking    // looks for the handler
    | Decoding    // reads the payload
    | Executing   // is in the handler
    | Sending     // has a result to post
    | Unwinding(todo: seq<Call>, panicking: bool)

  /** `channel` is the number of posted results, `processor` whether the result processor still takes them. */
  datatype Pool = Pool(free: int, waiting: int, threads: map<int, Phase>, channel: int, processor: bool,
                       cancelled: bool, loop: Loop)

  const CAPACITY: int := 1000

  datatype Event =
    | Spawn(h: int)                 // a permit is acquired and the goroutine started
    | AcquireFails                  // the context is cancelled while waiting for a permit
    | Check(h: int, found: bool)
    | Decode(h: int, ok: bool)
    | Execute(h: int, panics: bool)
    | Send(h: int)
    | Unwind(h: int)                // runs the next deferred call
    | Receive                       // the processor takes a result
    | ProcessorStops
    | Cancel
    | SeesCancel                    // the loop finds the context done and waits for the group
    | Return

  function Init(size: nat): Pool {
    Pool(size, 0, map[], 0, true, false, Polling)
  }

  predicate InPhase(p: Pool, h: int, phase: Phase) {
    h in p.threads && p.threads[h] == phase
  }

  /** A send blocks while the channel is full; only the enqueued manager's processor ends with the context. */
  predicate Enabled(m: Manager, p: Pool, e: Event) {
    && !p.loop.Crashed?
    && match e
       case Spawn(h) => p.loop == Polling && p.free > 0 && h !in p.threads
       case AcquireFails => p.loop == Polling && p.cancelled
       case Check(h, _) => InPhase(p, h, Checking)
       case Decode(h, _) => InPhase(p, h, Decoding)
       case Execute(h, _) => InPhase(p, h, Executing)
       case Send(h) => InPhase(p, h, Sending) && p.channel < CAPACITY
       case Unwind(h) => h in p.threads && p.threads[h].Unwinding? && p.threads[h].todo != []
       case Receive => p.processor && p.channel > 0
       case ProcessorStops => m.EnqueuedManager? && p.cancelled && p.processor
       case Cancel => true
       case SeesCancel => p.loop == Polling && p.cancelled
       case Return => p.loop == Draining && p.waiting == 0
  }

  function SetPhase(p: Pool, h: int, phase: Phase): Pool {
    p.(threads := p.threads[h := phase])
  }

  /** A goroutine after its next deferred call. */
  function Popped(phase: Phase): Phase
    requires phase.Unwinding? && phase.todo != []
  {
    Unwinding(phase.todo[1..], phase.panicking && phase.todo[0] != RecoverPanic)
  }

  /** After its last call a goroutine is gone, and with it the process if it still panics. */
  function ApplyUnwind(p: Pool, h: int): Pool
    requires h in p.threads && p.threads[h].Unwinding? && p.threads[h].todo != []
  {
    var call, phase := p.threads[h].todo[0], Popped(p.threads[h]);
    var p' := p.(free := if call == ReleasePermit then p.free + 1 else p.free,
                 waiting := if call == LeaveGroup then p.waiting - 1 else p.waiting);
    if phase.todo != [] then SetPhase(p', h, phase)
    else p'.(threads := p.threads - {h}, loop := if phase.panicking then Crashed else p.loop)
  }

  function Apply(m: Manager, p: Pool, e: Event): Pool
    requires Enabled(m, p, e)
  {
    match e
    case Spawn(h) => SetPhase(p, h, Checking).(free := p.free - 1, waiting := p.waiting + 1)
    case AcquireFails => p
    case Check(h, found) => SetPhase(p, h, if found then Decoding else Sending)
    case Decode(h, ok) => SetPhase(p, h, if ok then Executing else Sending)
    case Execute(h, panics) => SetPhase(p, h, if panics then Unwinding(Deferred(m), true) else Sending)
    case Send(h) => SetPhase(p, h, Unwinding(Deferred(m), false)).(channel := p.channel + 1)
    case Unwind(h) => ApplyUnwind(p, h)
    case Receive => p.(channel := p.channel - 1)
    case ProcessorStops => p.(processor := false)
    case Cancel => p.(cancelled := true)
    case SeesCancel => p.(loop := Draining)
    case Return => p.(loop := Returned)
  }

  /******* Runs from any state *******/

  predicate ValidRun(m: Manager, p: Pool, es: seq<Event>)
    decreases |es|
  {
    es == [] || (Enabled(m, p, es[0]) && ValidRun(m, Apply(m, p, es[0]), es[1..]))
  }

  function After(m: Manager, p: Pool, es: seq<Event>): Pool
    requires ValidRun(m, p, es)
    decreases |es|
  {
    if es == [] then p else After(m, Apply(m, p, es[0]), es[1..])
  }

  lemma {:induction false} RunOn(m: Manager, p: Pool, a: seq<Event>, b: seq<Event>)
    requires ValidRun(m, p, a) && ValidRun(m, After(m, p, a), b)
    ensures ValidRun(m, p, a + b) && After(m, p, a + b) == After(m, After(m, p, a), b)
    decreases |a|
  {
    if a == [] {
      assert a + b == b;
    } else {
      assert (a + b)[0] == a[0] && (a + b)[1..] == a[1..] + b;
      RunOn(m, Apply(m, p, a[0]), a[1..], b);
    }
  }

  /******* What every step keeps *******/

  /** Not yet at the deferred calls. */
  predicate Handling(phase: Phase) {
    !phase.Unwinding?
  }

  /** The deferred call is still to come. */
  predicate Owes(phase: Phase, call: Call) {
    phase.Unwinding? ==> call in phase.todo
  }

  function InHandler(p: Pool): (hs: set<int>)
    ensures forall h :: h in hs <==> h in p.threads && Handling(p.threads[h])
  {
    set h | h in p.threads && Handling(p.threads[h])
  }

  function Owing(p: Pool, call: Call): (hs: set<int>)
    ensures forall h :: h in hs <==> h in p.threads && Owes(p.threads[h], call)
  {
    set h | h in p.threads && Owes(p.threads[h], call)
  }

  /** What can be left of the deferred calls. */
  predicate CallsLeft(m: Manager, todo: seq<Call>) {
    match m
    case EnqueuedManager =>
      todo == [RecoverPanic, ReleasePermit, LeaveGroup] || todo == [ReleasePermit, LeaveGroup] || todo == [LeaveGroup]
    case CronManager =>
      todo == [LeaveGroup, ReleasePermit] || todo == [ReleasePermit]
  }

  /** The enqueued manager recovers a panic before anything else. */
  predicate PhaseOk(m: Manager, phase: Phase) {
    phase.Unwinding? ==>
      CallsLeft(m, phase.todo) && (m.EnqueuedManager? && phase.panicking ==> RecoverPanic in phase.todo)
  }

  ghost predicate Conserved(m: Manager, p: Pool, size: nat) {
    && p.free + |Owing(p, ReleasePermit)| == size
    && p.waiting == |Owing(p, LeaveGroup)|
    && (forall h :: h in p.threads ==> PhaseOk(m, p.threads[h]))
    && 0 <= p.channel <= CAPACITY
    && (p.loop == Draining || p.loop == Returned ==> p.cancelled)
    && (p.loop == Returned ==> Owing(p, LeaveGroup) == {})
    && (p.loop == Crashed ==> m.CronManager?)
    && (m.CronManager? ==> p.processor)
  }

  lemma Grown(s: set<int>, h: int)
    requires h !in s
    ensures |s + {h}| == |s| + 1
  {
  }

  lemma Shrunk(s: set<int>, h: int)
    requires h in s
    ensures |s - {h}| == |s| - 1
  {
  }

  lemma {:induction false} Fewer(a: set<int>, b: set<int>)
    requires a <= b
    ensures |a| <= |b|
  {
    assert b == a + (b - a);
  }

  /** Only goroutine `h` differs. */
  predicate OthersSame(p: Pool, p': Pool, h: int) {
    && h in p.threads && (forall k :: k in p'.threads ==> k in p.threads)
    && (forall k :: k in p.threads && k != h ==> k in p'.threads && p'.threads[k] == p.threads[k])
  }

  /** A goroutine that moves on owes the same call as before, or no longer. */
  lemma OwingAfter(p: Pool, p': Pool, h: int, call: Call)
    requires OthersSame(p, p', h)
    requires h in p'.threads && Owes(p'.threads[h], call) ==> Owes(p.threads[h], call)
    ensures Owing(p', call) <= Owing(p, call)
    ensures var owes := h in p'.threads && Owes(p'.threads[h], call);
            |Owing(p', call)| == |Owing(p, call)| - (if Owes(p.threads[h], call) && !owes then 1 else 0)
  {
    forall k
      ensures k in Owing(p', call) <==> k in Owing(p, call) && (k == h ==> k in p'.threads && Owes(p'.threads[k], call))
    {
      assert k != h && k in p.threads ==> p'.threads[k] == p.threads[k];
    }
    if Owes(p.threads[h], call) && !(h in p'.threads && Owes(p'.threads[h], call)) {
      assert Owing(p', call) == Owing(p, call) - {h};
      Shrunk(Owing(p, call), h);
    } else {
      assert Owing(p', call) == Owing(p, call);
    }
  }

  lemma SpawnConserves(m: Manager, p: Pool, h: int, size: nat)
    requires Conserved(m, p, size) && Enabled(m, p, Spawn(h))
    ensures Conserved(m, Apply(m, p, Spawn(h)), size)
  {
    var p' := Apply(m, p, Spawn(h));
    assert Owing(p', ReleasePermit) == Owing(p, ReleasePermit) + {h};
    assert Owing(p', LeaveGroup) == Owing(p, LeaveGroup) + {h};
    Grown(Owing(p, ReleasePermit), h);
    Grown(Owing(p, LeaveGroup), h);
  }

  /** The steps of a goroutine up to its deferred calls change neither counter. */
  lemma BodyConserves(m: Manager, p: Pool, h: int, phase: Phase, size: nat)
    requires Conserved(m, p, size) && h in p.threads && Handling(p.threads[h])
    requires PhaseOk(m, phase) && (phase.Unwinding? ==> phase.todo == Deferred(m))
    ensures Conserved(m, SetPhase(p, h, phase), size)
  {
    DeferredOrder(m);
    var p' := SetPhase(p, h, phase);
    assert Deferred(m)[1] == ReleasePermit;
    assert Deferred(m)[|Deferred(m)| - 1] == LeaveGroup || Deferred(m)[0] == LeaveGroup;
    OwingAfter(p, p', h, ReleasePermit);
    OwingAfter(p, p', h, LeaveGroup);
  }

  /** A deferred call that has run is owed no more, and the others still are. */
  lemma PopOwes(m: Manager, phase: Phase, call: Call)
    requires PhaseOk(m, phase) && phase.Unwinding?
    ensures Owes(Popped(phase), call) <==> Owes(phase, call) && call != phase.todo[0]
  {
  }

  lemma PopOk(m: Manager, phase: Phase)
    requires PhaseOk(m, phase) && phase.Unwinding?
    ensures Popped(phase).todo != [] ==> PhaseOk(m, Popped(phase))
    ensures m.EnqueuedManager? ==> !Popped(phase).panicking
  {
  }

  lemma UnwindConserves(m: Manager, p: Pool, h: int, size: nat)
    requires Conserved(m, p, size) && Enabled(m, p, Unwind(h))
    ensures Conserved(m, ApplyUnwind(p, h), size)
  {
    PopOk(m, p.threads[h]);
    UnwindPays(m, p, h, ReleasePermit);
    UnwindPays(m, p, h, LeaveGroup);
  }

  /** A deferred call that runs is paid by its goroutine. */
  lemma UnwindPays(m: Manager, p: Pool, h: int, call: Call)
    requires h in p.threads && p.threads[h].Unwinding? && PhaseOk(m, p.threads[h])
    ensures var p' := ApplyUnwind(p, h);
            && Owing(p', call) <= Owing(p, call)
            && |Owing(p', call)| == |Owing(p, call)| - (if p.threads[h].todo[0] == call then 1 else 0)
  {
    var phase, p' := p.threads[h], ApplyUnwind(p, h);
    assert h in p'.threads ==> p'.threads[h] == Popped(phase);
    PopOwes(m, phase, call);
    OwingAfter(p, p', h, call);
  }

  lemma StepConserves(m: Manager, p: Pool, e: Event, size: nat)
    requires Conserved(m, p, size) && Enabled(m, p, e)
    ensures Conserved(m, Apply(m, p, e), size)
  {
    DeferredOrder(m);
    match e
    case Spawn(h) => SpawnConserves(m, p, h, size);
    case Check(h, found) => BodyConserves(m, p, h, if found then Decoding else Sending, size);
    case Decode(h, ok) => BodyConserves(m, p, h, if ok then Executing else Sending, size);
    case Execute(h, panics) => BodyConserves(m, p, h, if panics then Unwinding(Deferred(m), true) else Sending, size);
    case Send(h) => BodyConserves(m, p, h, Unwinding(Deferred(m), false), size);
    case Unwind(h) => UnwindConserves(m, p, h, size);
    case _ =>
  }

  lemma {:induction false} RunConserves(m: Manager, p: Pool, es: seq<Event>, size: nat)
    requires Conserved(m, p, size) && ValidRun(m, p, es)
    ensures Conserved(m, After(m, p, es), size)
    decreases |es|
  {
    if es != [] {
      StepConserves(m, p, es[0], size);
      RunConserves(m, Apply(m, p, es[0]), es[1..], size);
    }
  }

  lemma InitConserved(m: Manager, size: nat)
    ensures Conserved(m, Init(size), size)
  {
    assert Owing(Init(size), ReleasePermit) == {} && Owing(Init(size), LeaveGroup) == {};
  }

  /**
   In every run of either manager, through every way out of a handler, free permits
   and those still to be released make up the worker count, every goroutine in a
   handler holds one, and none is in a handler once Start has returned.
   */
  lemma PermitsConserved(m: Manager, size: nat, es: seq<Event>)
    requires ValidRun(m, Init(size), es)
    ensures var p := After(m, Init(size), es);
            && Conserved(m, p, size)
            && InHandler(p) <= Owing(p, ReleasePermit) && |InHandler(p)| <= size - p.free
            && 0 <= p.free
            && (p.loop == Returned ==> InHandler(p) == {})
  {
    InitConserved(m, size);
    RunConserves(m, Init(size), es, size);
    var p := After(m, Init(size), es);
    Fewer(InHandler(p), Owing(p, ReleasePermit));
    EnoughPermits(m, es, Init(size));
    assert InHandler(p) <= Owing(p, LeaveGroup);
  }

  lemma {:induction false} EnoughPermits(m: Manager, es: seq<Event>, p: Pool)
    requires ValidRun(m, p, es) && p.free >= 0
    ensures After(m, p, es).free >= 0
    decreases |es|
  {
    if es != [] {
      EnoughPermits(m, es[1..], Apply(m, p, es[0]));
    }
  }

  /******* What a goroutine has done *******/

  /** The last event of a goroutine. */
  function LastStep(es: seq<Event>, h: int): Option<Event> {
    if es == [] then None
    else
      var last := es[|es| - 1];
      if (Thread(last) || last.Spawn?) && last.h == h then Some(last) else LastStep(es[..|es| - 1], h)
  }

  /**
   Where a goroutine is after an event of its own: it looks for the handler, reads the
   payload, runs the handler and posts; only a panic skips the posting.
   */
  ghost predicate Follows(m: Manager, phase: Phase, last: Option<Event>) {
    && last.Some?
    && match last.value
       case Spawn(_) => phase == Checking
       case Check(_, found) => phase == if found then Decoding else Sending
       case Decode(_, ok) => phase == if ok then Executing else Sending
       case Execute(_, panics) => phase == if panics then Unwinding(Deferred(m), true) else Sending
       case Send(_) => phase == Unwinding(Deferred(m), false)
       case Unwind(_) => phase.Unwinding?
       case _ => false
  }

  /** The results posted and not taken yet. */
  function Posted(es: seq<Event>): int {
    if es == [] then 0
    else Posted(es[..|es| - 1]) + (if es[|es| - 1].Send? then 1 else if es[|es| - 1].Receive? then -1 else 0)
  }

  ghost predicate Followed(m: Manager, p: Pool, past: seq<Event>) {
    p.channel == Posted(past) && forall h :: h in p.threads ==> Follows(m, p.threads[h], LastStep(past, h))
  }

  lemma StepFollows(m: Manager, p: Pool, past: seq<Event>, e: Event)
    requires Followed(m, p, past) && Enabled(m, p, e)
    ensures Followed(m, Apply(m, p, e), past + [e])
  {
    assert (past + [e])[..|past|] == past;
    var p' := Apply(m, p, e);
    forall h | h in p'.threads
      ensures Follows(m, p'.threads[h], LastStep(past + [e], h))
    {
      if !((Thread(e) || e.Spawn?) && e.h == h) {
        assert h in p.threads && p'.threads[h] == p.threads[h];
      }
    }
  }

  lemma {:induction false} RunFollows(m: Manager, p: Pool, past: seq<Event>, es: seq<Event>)
    requires Followed(m, p, past) && ValidRun(m, p, es)
    ensures Followed(m, After(m, p, es), past + es)
    decreases |es|
  {
    if es == [] {
      assert past + es == past;
    } else {
      StepFollows(m, p, past, es[0]);
      RunFollows(m, Apply(m, p, es[0]), past + [es[0]], es[1..]);
      assert past + [es[0]] + es[1..] == past + es;
    }
  }

  /**
   In every run a goroutine is in the handler only after it was found and its payload
   read, and it posts exactly one result unless the handler panics; the channel holds
   what was posted and not taken.
   */
  lemma EveryStepFollows(m: Manager, size: nat, es: seq<Event>)
    requires ValidRun(m, Init(size), es)
    ensures Followed(m, After(m, Init(size), es), es)
  {
    RunFollows(m, Init(size), [], es);
    assert [] + es == es;
  }

  /******* Permits when Start returns *******/

  /** A goroutine that has left the group of the enqueued manager has released its permit. */
  lemma ReturnsFull(m: Manager, size: nat, es: seq<Event>)
    requires ReleasesFirst(m) && ValidRun(m, Init(size), es) && After(m, Init(size), es).loop == Returned
    ensures After(m, Init(size), es).free == size
  {
    PermitsConserved(m, size, es);
    var p := After(m, Init(size), es);
    ReleasedWhenLeft(m, p, size);
    assert Owing(p, ReleasePermit) == {};
  }

  lemma ReleasedWhenLeft(m: Manager, p: Pool, size: nat)
    requires ReleasesFirst(m) && Conserved(m, p, size)
    ensures Owing(p, ReleasePermit) <= Owing(p, LeaveGroup)
  {
    WhoReleasesFirst(m);
    forall h | h in p.threads
      ensures Owes(p.threads[h], LeaveGroup)
    {
      assert PhaseOk(m, p.threads[h]);
    }
  }

  lemma Extend(m: Manager, p: Pool, es: seq<Event>, e: Event) returns (longer: seq<Event>)
    requires ValidRun(m, p, es) && Enabled(m, After(m, p, es), e)
    ensures longer == es + [e]
    ensures ValidRun(m, p, longer) && After(m, p, longer) == Apply(m, After(m, p, es), e)
  {
    longer := es + [e];
    assert [e][1..] == [];
    RunOn(m, p, es, [e]);
  }

  /** The cron manager may return from Start while a permit is still held by a deferred call. */
  lemma CronReturnsEarly(size: nat) returns (es: seq<Event>)
    requires size >= 1
    ensures ValidRun(CronManager, Init(size), es)
    ensures After(CronManager, Init(size), es).loop == Returned && After(CronManager, Init(size), es).free == size - 1
  {
    var m, p := CronManager, Init(size);
    DeferredOrder(m);
    es := Extend(m, p, [], Spawn(7));
    es := Extend(m, p, es, Check(7, false));
    es := Extend(m, p, es, Send(7));
    es := Extend(m, p, es, Unwind(7));
    es := Extend(m, p, es, Cancel);
    es := Extend(m, p, es, SeesCancel);
    es := Extend(m, p, es, Return);
  }

  /** With at least one worker, all permits are free at every return exactly when the permit is released first. */
  lemma FullAtReturnIff(m: Manager, size: nat)
    requires size >= 1
    ensures (forall es :: ValidRun(m, Init(size), es) && After(m, Init(size), es).loop == Returned ==>
               After(m, Init(size), es).free == size)
            <==> ReleasesFirst(m)
  {
    WhoReleasesFirst(m);
    if ReleasesFirst(m) {
      forall es | ValidRun(m, Init(size), es) && After(m, Init(size), es).loop == Returned
        ensures After(m, Init(size), es).free == size
      {
        ReturnsFull(m, size, es);
      }
    } else {
      var es := CronReturnsEarly(size);
    }
  }

  /******* When Start can return *******/

  /** Results posted or still to be posted. */
  function Results(p: Pool): int {
    p.channel + |InHandler(p)|
  }

  function Panics(es: seq<Event>): nat {
    if es == [] then 0 else (if es[0].Execute? && es[0].panics then 1 else 0) + Panics(es[1..])
  }

  lemma InHandlerAfter(p: Pool, p': Pool, h: int)
    requires OthersSame(p, p', h)
    requires h in p'.threads && Handling(p'.threads[h]) ==> Handling(p.threads[h])
    ensures var stays := h in p'.threads && Handling(p'.threads[h]);
            |InHandler(p')| == |InHandler(p)| - (if Handling(p.threads[h]) && !stays then 1 else 0)
  {
    forall k
      ensures k in InHandler(p') <==> k in InHandler(p) && (k == h ==> k in p'.threads && Handling(p'.threads[k]))
    {
      assert k != h && k in p.threads ==> p'.threads[k] == p.threads[k];
    }
    if Handling(p.threads[h]) && !(h in p'.threads && Handling(p'.threads[h])) {
      assert InHandler(p') == InHandler(p) - {h};
      Shrunk(InHandler(p), h);
    } else {
      assert InHandler(p') == InHandler(p);
    }
  }

  predicate Thread(e: Event) {
    e.Check? || e.Decode? || e.Execute? || e.Send? || e.Unwind?
  }

  /** Once nothing is spawned or taken from the channel, only a panic makes a result less. */
  lemma StepKeepsResults(m: Manager, p: Pool, e: Event)
    requires Enabled(m, p, e) && p.loop != Polling && !e.Receive?
    ensures Results(Apply(m, p, e)) == Results(p) - Panics([e])
  {
    assert [e][1..] == [];
    if Thread(e) {
      InHandlerAfter(p, Apply(m, p, e), e.h);
    } else {
      assert InHandler(Apply(m, p, e)) == InHandler(p);
    }
  }

  lemma {:induction false} RunKeepsResults(m: Manager, p: Pool, es: seq<Event>)
    requires ValidRun(m, p, es) && p.loop != Polling && !p.processor
    ensures Results(After(m, p, es)) == Results(p) - Panics(es)
    decreases |es|
  {
    if es != [] {
      StepKeepsResults(m, p, es[0]);
      assert [es[0]][1..] == [];
      RunKeepsResults(m, Apply(m, p, es[0]), es[1..]);
    }
  }

  /** The processor is there, or the channel has room for all results. */
  predicate HasRoom(p: Pool) {
    p.processor || Results(p) <= CAPACITY
  }

  /** Without the processor Start returns only if what is posted and not lost by a panic fits in the channel. */
  lemma ReturnNeedsRoom(m: Manager, p: Pool, es: seq<Event>, size: nat)
    requires Conserved(m, p, size) && p.loop == Draining && !p.processor
    requires ValidRun(m, p, es) && After(m, p, es).loop == Returned
    ensures Results(p) <= CAPACITY + Panics(es)
  {
    RunConserves(m, p, es, size);
    RunKeepsResults(m, p, es);
    var p' := After(m, p, es);
    assert InHandler(p') <= Owing(p', LeaveGroup);
    assert InHandler(p') == {};
  }

  /** The steps a goroutine has before it. */
  function Rank(phase: Phase): nat {
    match phase
    case Checking => 14
    case Decoding => 13
    case Executing => 12
    case Sending => 11
    case Unwinding(todo, _) => |todo|
  }

  /** The next step of a goroutine whose handler is found, readable and does not panic. */
  function NextOf(p: Pool, h: int): Event
    requires h in p.threads
  {
    match p.threads[h]
    case Checking => Check(h, true)
    case Decoding => Decode(h, true)
    case Executing => Execute(h, false)
    case Sending => Send(h)
    case Unwinding(_, _) => Unwind(h)
  }

  ghost predicate CanDrain(m: Manager, p: Pool, size: nat) {
    Conserved(m, p, size) && p.loop == Draining && HasRoom(p)
  }

  /** A goroutine that the group still counts. */
  predicate Counted(p: Pool, h: int) {
    h in p.threads && Owes(p.threads[h], LeaveGroup)
  }

  lemma RankBound(m: Manager, phase: Phase)
    requires PhaseOk(m, phase)
    ensures Rank(phase) < 15 && (phase.Unwinding? ==> Rank(phase) <= 3)
  {
    DeferredOrder(m);
  }

  lemma NextRank(m: Manager, p: Pool, h: int)
    requires Counted(p, h) && Enabled(m, p, NextOf(p, h)) && PhaseOk(m, p.threads[h])
    ensures var p' := Apply(m, p, NextOf(p, h));
            OthersSame(p, p', h) && (Counted(p', h) ==> Rank(p'.threads[h]) < Rank(p.threads[h]))
  {
    DeferredOrder(m);
  }

  /** A goroutine that the group still counts does not end the process with its next step. */
  lemma NextKeepsLoop(m: Manager, p: Pool, h: int)
    requires Counted(p, h) && Enabled(m, p, NextOf(p, h)) && PhaseOk(m, p.threads[h])
    ensures Apply(m, p, NextOf(p, h)).loop == p.loop
  {
    if p.threads[h].Unwinding? {
      PopOk(m, p.threads[h]);
    }
  }

  lemma NextKeepsDraining(m: Manager, p: Pool, h: int, size: nat)
    requires CanDrain(m, p, size) && Counted(p, h) && Enabled(m, p, NextOf(p, h))
    ensures CanDrain(m, Apply(m, p, NextOf(p, h)), size)
  {
    StepConserves(m, p, NextOf(p, h), size);
    StepKeepsResults(m, p, NextOf(p, h));
    NextKeepsLoop(m, p, h);
  }

  lemma ReceiveKeepsDraining(m: Manager, p: Pool, size: nat)
    requires CanDrain(m, p, size) && p.processor && p.channel > 0
    ensures CanDrain(m, Apply(m, p, Receive), size)
  {
    StepConserves(m, p, Receive, size);
  }

  lemma SendNeedsRoom(m: Manager, p: Pool, h: int, size: nat)
    requires CanDrain(m, p, size) && InPhase(p, h, Sending) && !p.processor
    ensures p.channel < CAPACITY
  {
    Fewer({h}, InHandler(p));
  }

  lemma Prefixed(m: Manager, p: Pool, e: Event, rest: seq<Event>) returns (es: seq<Event>)
    requires Enabled(m, p, e) && (e.Execute? ==> !e.panics)
    requires ValidRun(m, Apply(m, p, e), rest) && Panics(rest) == 0
    ensures ValidRun(m, p, es) && Panics(es) == 0 && After(m, p, es) == After(m, Apply(m, p, e), rest)
  {
    es := [e] + rest;
    assert es[0] == e && es[1..] == rest;
  }

  /** One goroutine, and then the others, run until they leave the group; then Start returns. */
  lemma {:induction false} DrainFrom(m: Manager, p: Pool, h: int, size: nat) returns (es: seq<Event>)
    requires CanDrain(m, p, size) && Counted(p, h)
    ensures ValidRun(m, p, es) && Panics(es) == 0 && After(m, p, es).loop == Returned
    decreases p.waiting, Rank(p.threads[h]), if p.channel == CAPACITY then 1 else 0
  {
    if p.threads[h].Sending? && p.channel == CAPACITY {
      if !p.processor {
        SendNeedsRoom(m, p, h, size);
      }
      ReceiveKeepsDraining(m, p, size);
      var rest := DrainFrom(m, Apply(m, p, Receive), h, size);
      es := Prefixed(m, p, Receive, rest);
    } else {
      var e := NextOf(p, h);
      NextKeepsDraining(m, p, h, size);
      NextRank(m, p, h);
      var p' := Apply(m, p, e);
      OwingAfter(p, p', h, LeaveGroup);
      var rest;
      if Counted(p', h) {
        rest := DrainFrom(m, p', h, size);
      } else {
        rest := Drain(m, p', size);
      }
      es := Prefixed(m, p, e, rest);
    }
  }

  lemma {:induction false} Drain(m: Manager, p: Pool, size: nat) returns (es: seq<Event>)
    requires CanDrain(m, p, size)
    ensures ValidRun(m, p, es) && Panics(es) == 0 && After(m, p, es).loop == Returned
    decreases p.waiting, 15, 0
  {
    if exists h :: h in Owing(p, LeaveGroup) {
      var h :| h in Owing(p, LeaveGroup);
      RankBound(m, p.threads[h]);
      es := DrainFrom(m, p, h, size);
    } else {
      assert Owing(p, LeaveGroup) == {};
      es := [Return];
      assert es[1..] == [];
    }
  }

  /** There is a way on without a panic in which Start returns. */
  ghost predicate CanReturn(m: Manager, p: Pool) {
    exists es :: ValidRun(m, p, es) && Panics(es) == 0 && After(m, p, es).loop == Returned
  }

  /**
   A waiting Start can return if and only if the result processor is still there, or
   all results, posted and still to be posted, fit in the channel.
   */
  lemma CanReturnIff(m: Manager, p: Pool, size: nat)
    requires Conserved(m, p, size) && p.loop == Draining
    ensures CanReturn(m, p) <==> HasRoom(p)
  {
    if HasRoom(p) {
      var es := Drain(m, p, size);
    } else {
      forall es | ValidRun(m, p, es) && Panics(es) == 0
        ensures After(m, p, es).loop != Returned
      {
        if After(m, p, es).loop == Returned {
          ReturnNeedsRoom(m, p, es, size);
        }
      }
    }
  }

  /** While Start waits, the results only get fewer. */
  lemma {:induction false} ResultsShrink(m: Manager, p: Pool, es: seq<Event>)
    requires ValidRun(m, p, es) && p.loop != Polling
    ensures Results(After(m, p, es)) <= Results(p)
    decreases |es|
  {
    if es != [] {
      if es[0].Receive? {
        assert InHandler(Apply(m, p, es[0])) == InHandler(p);
      } else {
        StepKeepsResults(m, p, es[0]);
      }
      ResultsShrink(m, Apply(m, p, es[0]), es[1..]);
    }
  }

  /** Whatever happens while Start waits, it can still return. */
  ghost predicate NeverStuck(m: Manager, p: Pool) {
    forall es :: ValidRun(m, p, es) && After(m, p, es).loop == Draining ==> CanReturn(m, After(m, p, es))
  }

  /**
   A waiting Start is safe from waiting for ever if and only if it is the cron
   manager's, whose processor never stops, or all results fit in the channel already:
   otherwise the processor may end with the context before it has made room.
   */
  lemma NeverStuckIff(m: Manager, p: Pool, size: nat)
    requires Conserved(m, p, size) && p.loop == Draining
    ensures NeverStuck(m, p) <==> m.CronManager? || Results(p) <= 1000
  {
    if m.CronManager? || Results(p) <= CAPACITY {
      forall es | ValidRun(m, p, es) && After(m, p, es).loop == Draining
        ensures CanReturn(m, After(m, p, es))
      {
        RunConserves(m, p, es, size);
        ResultsShrink(m, p, es);
        CanReturnIff(m, After(m, p, es), size);
      }
    } else {
      var es := StopProcessor(m, p);
      RunConserves(m, p, es, size);
      CanReturnIff(m, After(m, p, es), size);
    }
  }

  /** The processor of the enqueued manager is gone, or may go now. */
  lemma StopProcessor(m: Manager, p: Pool) returns (es: seq<Event>)
    requires m.EnqueuedManager? && p.loop == Draining && p.cancelled
    ensures ValidRun(m, p, es)
    ensures var p' := After(m, p, es); p'.loop == Draining && !p'.processor && Results(p') == Results(p)
  {
    if p.processor {
      es := [ProcessorStops];
      assert es[1..] == [];
      assert InHandler(p.(processor := false)) == InHandler(p);
    } else {
      es := [];
    }
  }

  /** One job whose handler is missing, from its start to its end, while nobody takes results. */
  lemma PostOne(size: nat, n: nat) returns (es: seq<Event>)
    requires size >= 1 && n < CAPACITY
    ensures ValidRun(EnqueuedManager, Init(size).(channel := n), es)
    ensures After(EnqueuedManager, Init(size).(channel := n), es) == Init(size).(channel := n + 1)
  {
    var m, p := EnqueuedManager, Init(size).(channel := n);
    DeferredOrder(m);
    es := Extend(m, p, [], Spawn(0));
    es := Extend(m, p, es, Check(0, false));
    es := Extend(m, p, es, Send(0));
    es := Extend(m, p, es, Unwind(0));
    es := Extend(m, p, es, Unwind(0));
    assert After(m, p, es).threads == map[0 := Unwinding([LeaveGroup], false)];
    es := Extend(m, p, es, Unwind(0));
    assert After(m, p, es).threads == map[];
  }

  lemma {:induction false} Fill(size: nat, n: nat) returns (es: seq<Event>)
    requires size >= 1 && n <= CAPACITY
    ensures ValidRun(EnqueuedManager, Init(size), es)
    ensures After(EnqueuedManager, Init(size), es) == Init(size).(channel := n)
  {
    if n == 0 {
      es := [];
    } else {
      var before := Fill(size, n - 1);
      var one := PostOne(size, n - 1);
      RunOn(EnqueuedManager, Init(size), before, one);
      es := before + one;
    }
  }

  /** A full channel that nobody empties, and a goroutine that has to post. */
  predicate Stuck(p: Pool) {
    p.threads == map[0 := Sending] && p.channel == CAPACITY && !p.processor && p.loop == Draining && p.waiting == 1
  }

  lemma {:induction false} StuckForever(p: Pool, es: seq<Event>)
    requires Stuck(p) && ValidRun(EnqueuedManager, p, es)
    ensures Stuck(After(EnqueuedManager, p, es))
    decreases |es|
  {
    if es != [] {
      StuckForever(Apply(EnqueuedManager, p, es[0]), es[1..]);
    }
  }

  /** With any number of workers, a run of the enqueued manager comes to a Start that never returns. */
  lemma StartBlocks(size: nat) returns (es: seq<Event>)
    requires size >= 1
    ensures ValidRun(EnqueuedManager, Init(size), es)
    ensures var p := After(EnqueuedManager, Init(size), es);
            && p.loop == Draining
            && forall more :: ValidRun(EnqueuedManager, p, more) ==> After(EnqueuedManager, p, more).loop == Draining
  {
    var m, p := EnqueuedManager, Init(size);
    es := Fill(size, CAPACITY);
    es := Extend(m, p, es, Spawn(0));
    es := Extend(m, p, es, Check(0, false));
    es := Extend(m, p, es, Cancel);
    es := Extend(m, p, es, ProcessorStops);
    es := Extend(m, p, es, SeesCancel);
    var p' := After(m, p, es);
    assert p'.threads == map[0 := Sending];
    forall more | ValidRun(m, p', more)
      ensures After(m, p', more).loop == Draining
    {
      StuckForever(p', more);
    }
  }
}

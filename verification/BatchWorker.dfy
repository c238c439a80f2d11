/**
 Queue mode: jobs published to the broker and written to the table in batches
 (client/enqueue_job_manager.go, StartQueueAndStorageSyncWorker; client/job_manager.go, Enqueue).
 */
module BatchWorker {
  import opened Text
  import opened EnqueuedTable

  const BATCH_SIZE: nat := 1000

  datatype Job = Job(name: string, payload: string, scheduledAt: int)

  function RowOf(j: Job): Row {
    NewRow(j.name, j.payload, j.scheduledAt)
  }

  function RowsOf(jobs: seq<Job>): (rows: seq<Row>)
    ensures |rows| == |jobs| && forall i :: 0 <= i < |jobs| ==> rows[i] == RowOf(jobs[i])
  {
    seq(|jobs|, i requires 0 <= i < |jobs| => RowOf(jobs[i]))
  }

  /** What the select statement of the worker delivers. */
  datatype Input = Message(body: string) | Tick | Cancelled | Closed

  predicate IsStop(input: Input) {
    input.Cancelled? || input.Closed?
  }

  /** What became of a received message. */
  datatype Fate = Inserted | Dropped | Malformed | Pending

  /** The jobs of the messages with a given fate, in the order of arrival. */
  ghost function Pick(decode: string -> Option<Job>, received: seq<string>, fates: seq<Fate>, f: Fate): seq<Job>
    requires |received| == |fates|
  {
    if received == [] then []
    else
      var n := |received| - 1;
      var earlier := Pick(decode, received[..n], fates[..n], f);
      if fates[n] == f && decode(received[n]).Some? then earlier + [decode(received[n]).value] else earlier
  }

  /** A flush settles all pending messages at once. */
  ghost function Settle(fates: seq<Fate>, f: Fate): (r: seq<Fate>)
    ensures |r| == |fates| && forall i :: 0 <= i < |fates| ==> r[i] == if fates[i] == Pending then f else fates[i]
  {
    seq(|fates|, i requires 0 <= i < |fates| => if fates[i] == Pending then f else fates[i])
  }

  /** Nothing is settled after position `i`. */
  ghost predicate OpenAfter(fates: seq<Fate>, i: int) {
    forall k :: 0 <= i < k < |fates| ==> fates[k] == Pending || fates[k] == Malformed
  }

  /** Nothing is settled after a message that is still pending. */
  ghost predicate PendingLast(fates: seq<Fate>) {
    forall i {:trigger OpenAfter(fates, i)} :: 0 <= i < |fates| && fates[i] == Pending ==> OpenAfter(fates, i)
  }

  lemma PrefixPendingLast(fates: seq<Fate>, n: nat)
    requires PendingLast(fates) && n <= |fates|
    ensures PendingLast(fates[..n])
  {
    forall i | 0 <= i < n && fates[..n][i] == Pending
      ensures OpenAfter(fates[..n], i)
    {
      assert OpenAfter(fates, i);
    }
  }

  /** After a flush the batch stands, in order, behind what had the same fate before. */
  lemma {:induction false} PickSettled(decode: string -> Option<Job>, received: seq<string>, fates: seq<Fate>, f: Fate)
    requires |received| == |fates| && PendingLast(fates) && (f == Inserted || f == Dropped)
    ensures Pick(decode, received, Settle(fates, f), f)
            == Pick(decode, received, fates, f) + Pick(decode, received, fates, Pending)
    decreases |received|
  {
    if received != [] {
      var n := |received| - 1;
      PrefixPendingLast(fates, n);
      PickSettled(decode, received[..n], fates[..n], f);
      assert Settle(fates, f)[..n] == Settle(fates[..n], f);
      if fates[n] != Pending && fates[n] != Malformed {
        forall i | 0 <= i < n
          ensures fates[..n][i] != Pending
        {
          assert OpenAfter(fates, i) || fates[i] != Pending;
        }
        NonePending(decode, received[..n], fates[..n]);
      }
    }
  }

  lemma {:induction false} PickOther(decode: string -> Option<Job>, received: seq<string>, fates: seq<Fate>,
                                     f: Fate, g: Fate)
    requires |received| == |fates| && g != Pending && g != f
    ensures Pick(decode, received, Settle(fates, f), g) == Pick(decode, received, fates, g)
    decreases |received|
  {
    if received != [] {
      var n := |received| - 1;
      PickOther(decode, received[..n], fates[..n], f, g);
      assert Settle(fates, f)[..n] == Settle(fates[..n], f);
    }
  }

  lemma {:induction false} NonePending(decode: string -> Option<Job>, received: seq<string>, fates: seq<Fate>)
    requires |received| == |fates| && forall i :: 0 <= i < |fates| ==> fates[i] != Pending
    ensures Pick(decode, received, fates, Pending) == []
    decreases |received|
  {
    if received != [] {
      NonePending(decode, received[..|received| - 1], fates[..|received| - 1]);
    }
  }

  lemma PickSnoc(decode: string -> Option<Job>, received: seq<string>, fates: seq<Fate>, body: string, f: Fate, g: Fate)
    requires |received| == |fates|
    ensures Pick(decode, received + [body], fates + [f], g)
            == if f == g && decode(body).Some? then Pick(decode, received, fates, g) + [decode(body).value]
               else Pick(decode, received, fates, g)
  {
    assert (received + [body])[..|received|] == received;
    assert (fates + [f])[..|received|] == fates;
  }

  /** The fate of a message when it arrives. */
  ghost function FirstFate(decode: string -> Option<Job>, body: string): Fate {
    if decode(body).None? then Malformed else Pending
  }

  ghost predicate FatesOk(decode: string -> Option<Job>, received: seq<string>, fates: seq<Fate>) {
    && |fates| == |received| && PendingLast(fates)
    && (forall i :: 0 <= i < |fates| ==> (fates[i] == Malformed <==> decode(received[i]).None?))
  }

  lemma ArrivalKeepsFates(decode: string -> Option<Job>, received: seq<string>, fates: seq<Fate>, body: string)
    requires FatesOk(decode, received, fates)
    ensures FatesOk(decode, received + [body], fates + [FirstFate(decode, body)])
  {
    var longer := fates + [FirstFate(decode, body)];
    forall i | 0 <= i < |longer| && longer[i] == Pending
      ensures OpenAfter(longer, i)
    {
      assert i < |fates| ==> OpenAfter(fates, i);
    }
  }

  lemma SettleKeepsFates(decode: string -> Option<Job>, received: seq<string>, fates: seq<Fate>, f: Fate)
    requires FatesOk(decode, received, fates) && (f == Inserted || f == Dropped)
    ensures FatesOk(decode, received, Settle(fates, f))
  {
  }

  /** A batch inserted behind the earlier rows is one insert of all of them. */
  lemma AppendRows(rows: Table, ids: seq<int>, earlier: seq<Job>, nextId: int, batch: seq<Job>)
    requires |ids| == |earlier|
    ensures InsertAll(InsertAt(rows, ids, RowsOf(earlier)), nextId, RowsOf(batch))
            == InsertAt(rows, ids + Serials(nextId, |batch|), RowsOf(earlier + batch))
  {
    InsertAtAppend(rows, ids, RowsOf(earlier), Serials(nextId, |batch|), RowsOf(batch));
    assert RowsOf(earlier) + RowsOf(batch) == RowsOf(earlier + batch);
  }

  /** The numbers of the inserted rows ascend; without a failed insert there is no gap between them. */
  ghost predicate Numbered(ids: seq<int>, first: int, next: int, failed: bool) {
    && first <= next
    && (forall i :: 0 <= i < |ids| ==> first <= ids[i] < next)
    && (forall i, k :: 0 <= i < k < |ids| ==> ids[i] < ids[k])
    && (!failed ==> ids == Serials(first, |ids|) && next == first + |ids|)
  }

  lemma NumberedAppend(ids: seq<int>, first: int, next: int, failed: bool, count: nat)
    requires Numbered(ids, first, next, failed)
    ensures Numbered(ids + Serials(next, count), first, next + count, failed)
  {
  }

  /** A flush leaves no batch; what was in it stands behind the rows inserted earlier, or is dropped. */
  lemma Flushed(decode: string -> Option<Job>, received: seq<string>, fates: seq<Fate>, f: Fate)
    requires FatesOk(decode, received, fates) && (f == Inserted || f == Dropped)
    ensures FatesOk(decode, received, Settle(fates, f)) && Pick(decode, received, Settle(fates, f), Pending) == []
    ensures var earlier, batch := Pick(decode, received, fates, Inserted), Pick(decode, received, fates, Pending);
            Pick(decode, received, Settle(fates, f), Inserted) == if f == Inserted then earlier + batch else earlier
  {
    SettleKeepsFates(decode, received, fates, f);
    NonePending(decode, received, Settle(fates, f));
    if f == Inserted {
      PickSettled(decode, received, fates, f);
    } else {
      PickOther(decode, received, fates, f, Inserted);
    }
  }

  /** What a committed flush leaves in the table, told by the settled messages. */
  lemma CommittedRows(decode: string -> Option<Job>, received: seq<string>, fates: seq<Fate>, rows: Table,
                      ids: seq<int>, nextId: int)
    requires FatesOk(decode, received, fates) && |ids| == |Pick(decode, received, fates, Inserted)|
    ensures var earlier, batch := Pick(decode, received, fates, Inserted), Pick(decode, received, fates, Pending);
            var after := Pick(decode, received, Settle(fates, Inserted), Inserted);
            var ids' := ids + Serials(nextId, |batch|);
            && |ids'| == |after|
            && InsertAll(InsertAt(rows, ids, RowsOf(earlier)), nextId, RowsOf(batch))
               == InsertAt(rows, ids', RowsOf(after))
  {
    var earlier, batch := Pick(decode, received, fates, Inserted), Pick(decode, received, fates, Pending);
    Flushed(decode, received, fates, Inserted);
    AppendRows(rows, ids, earlier, nextId, batch);
  }

  /** A batch that is not empty leaves dropped messages exactly when there were some, or it is dropped itself. */
  lemma SettleDrops(decode: string -> Option<Job>, received: seq<string>, fates: seq<Fate>, f: Fate)
    requires FatesOk(decode, received, fates) && (f == Inserted || f == Dropped)
    requires Pick(decode, received, fates, Pending) != []
    ensures Dropped in Settle(fates, f) <==> f == Dropped || Dropped in fates
  {
    if forall i :: 0 <= i < |fates| ==> fates[i] != Pending {
      NonePending(decode, received, fates);
    }
    var i :| 0 <= i < |fates| && fates[i] == Pending;
    assert Settle(fates, f)[i] == f;
    if Dropped in fates {
      var k :| 0 <= k < |fates| && fates[k] == Dropped;
      assert Settle(fates, f)[k] == Dropped;
    }
  }

  /** With an empty batch no message is pending, and settling changes nothing. */
  lemma NothingPending(decode: string -> Option<Job>, received: seq<string>, fates: seq<Fate>, f: Fate)
    requires FatesOk(decode, received, fates) && Pick(decode, received, fates, Pending) == []
    ensures (forall i :: 0 <= i < |fates| ==> fates[i] != Pending) && Settle(fates, f) == fates
  {
    forall i | 0 <= i < |fates|
      ensures fates[i] != Pending
    {
      if fates[i] == Pending {
        PendingIsPicked(decode, received, fates, i);
      }
    }
  }

  /** None of the first `n` messages is pending. */
  ghost predicate SettledUpTo(fates: seq<Fate>, n: nat) {
    forall i :: 0 <= i < |fates| && i < n ==> fates[i] != Pending
  }

  /** What was settled stays as it is. */
  ghost predicate SettledStay(before: seq<Fate>, after: seq<Fate>) {
    |before| <= |after| && forall i :: 0 <= i < |before| && before[i] != Pending ==> after[i] == before[i]
  }

  /** The bodies of the messages among some inputs. */
  function Bodies(inputs: seq<Input>): seq<string> {
    if inputs == [] then []
    else Bodies(inputs[..|inputs| - 1]) + (if inputs[|inputs| - 1].Message? then [inputs[|inputs| - 1].body] else [])
  }

  lemma BodiesNext(before: seq<string>, inputs: seq<Input>, n: nat)
    requires n < |inputs|
    ensures before + Bodies(inputs[..n]) + (if inputs[n].Message? then [inputs[n].body] else [])
            == before + Bodies(inputs[..n + 1])
  {
    assert inputs[..n + 1][..n] == inputs[..n];
  }

  lemma {:induction false} BodiesGrow(inputs: seq<Input>, k: nat, n: nat)
    requires k <= n <= |inputs|
    ensures |Bodies(inputs[..k])| <= |Bodies(inputs[..n])|
    decreases n
  {
    if k < n {
      BodiesGrow(inputs, k, n - 1);
      assert inputs[..n][..n - 1] == inputs[..n - 1];
    }
  }

  /** If input `k` is a tick or a stop, no message that came before it is pending. */
  ghost predicate InTime(inputs: seq<Input>, k: int, start: nat, fates: seq<Fate>) {
    0 <= k < |inputs| && !inputs[k].Message? ==> SettledUpTo(fates, start + |Bodies(inputs[..k])|)
  }

  /** No message that came before a tick or stop among the first `n` inputs is pending. */
  ghost predicate NoneOverdue(inputs: seq<Input>, n: nat, start: nat, fates: seq<Fate>) {
    forall k {:trigger InTime(inputs, k, start, fates)} :: 0 <= k < n ==> InTime(inputs, k, start, fates)
  }

  lemma TurnKeepsTime(inputs: seq<Input>, n: nat, start: nat, before: seq<Fate>, after: seq<Fate>)
    requires n < |inputs| && NoneOverdue(inputs, n, start, before) && SettledStay(before, after)
    requires |before| == start + |Bodies(inputs[..n])|
    requires !inputs[n].Message? ==> forall i :: 0 <= i < |after| ==> after[i] != Pending
    ensures NoneOverdue(inputs, n + 1, start, after)
  {
    forall k | 0 <= k < n + 1
      ensures InTime(inputs, k, start, after)
    {
      if k < n {
        BodiesGrow(inputs, k, n);
        assert InTime(inputs, k, start, before);
      }
    }
  }

  /** The goroutine that moves messages to the store; it is the only writer of the store. */
  class SyncWorker {
    const store: EnqueuedJobStore
    const decode: string -> Option<Job>
    var jobsBatch: seq<Job>
    ghost var received: seq<string>
    ghost var fates: seq<Fate>
    ghost var ids: seq<int>
    ghost const rows0: Table
    ghost const nextId0: int

    /** Where the messages of one fate are: in the batch, or in the table. */
    ghost predicate Kept(f: Fate)
      requires |received| == |fates|
      reads this, store
    {
      var jobs := Pick(decode, received, fates, f);
      match f
      case Pending => jobsBatch == jobs
      case Inserted => |ids| == |jobs| && store.rows == InsertAt(rows0, ids, RowsOf(jobs))
      case Dropped => true
      case Malformed => true
    }

    /** The messages partition, in order, into rows of the table, dropped ones, malformed ones and the batch. */
    ghost predicate Accounted()
      reads this, store
    {
      && FatesOk(decode, received, fates) && (forall f :: Kept(f))
      && store.Valid() && Numbered(ids, nextId0, store.nextId, Dropped in fates)
    }

    constructor (store: EnqueuedJobStore, decode: string -> Option<Job>)
      requires store.Valid()
      ensures Accounted() && jobsBatch == [] && received == [] && fates == []
      ensures this.store == store && this.decode == decode && rows0 == store.rows && nextId0 == store.nextId
    {
      this.store, this.decode, jobsBatch := store, decode, [];
      received, fates, ids, rows0, nextId0 := [], [], [], store.rows, store.nextId;
    }

    /** A flush empties the batch: its jobs become rows, or are dropped when the insert fails. */
    method Flush(result: BulkResult)
      requires Accounted()
      modifies this, store
      ensures Accounted() && jobsBatch == [] && received == old(received)
      ensures fates == Settle(old(fates), if result.Committed? then Inserted else Dropped)
      ensures result.Committed? && Dropped !in old(fates) ==> Dropped !in fates
    {
      ghost var f := if result.Committed? then Inserted else Dropped;
      assert Kept(Pending) && Kept(Inserted);
      if |jobsBatch| == 0 {
        NothingPending(decode, received, fates, f);
        return;
      }
      ghost var nextId := store.nextId;
      store.BulkInsert(RowsOf(jobsBatch), result);
      Flushed(decode, received, fates, f);
      SettleDrops(decode, received, fates, f);
      if result.Committed? {
        CommittedRows(decode, received, fates, rows0, ids, nextId);
        NumberedAppend(ids, nextId0, nextId, Dropped in fates, |jobsBatch|);
        ids := ids + Serials(nextId, |jobsBatch|);
        assert store.rows == InsertAt(rows0, ids, RowsOf(Pick(decode, received, Settle(fates, f), Inserted)));
      }
      fates, jobsBatch := Settle(fates, f), [];
      forall g
        ensures Kept(g)
      {
        assert g == Pending ==> Pick(decode, received, fates, g) == [];
      }
    }

    /** Takes one message: it joins the batch, and the thousandth flushes it at once. */
    method Receive(body: string, result: BulkResult)
      requires Accounted() && |jobsBatch| < 1000
      modifies this, store
      ensures Accounted() && received == old(received) + [body]
      ensures jobsBatch == if decode(body).None? then old(jobsBatch)
                           else if |old(jobsBatch)| < 999 then old(jobsBatch) + [decode(body).value]
                           else []
      ensures SettledStay(old(fates), fates)
      ensures result.Committed? && Dropped !in old(fates) ==> Dropped !in fates
    {
      var job := decode(body);
      ghost var f := FirstFate(decode, body);
      assert Kept(Pending) && Kept(Inserted);
      ArrivalKeepsFates(decode, received, fates, body);
      PickSnoc(decode, received, fates, body, f, Pending);
      PickSnoc(decode, received, fates, body, f, Inserted);
      assert Dropped !in fates ==> Dropped !in fates + [f];
      received, fates := received + [body], fates + [f];
      if job.None? {
        return;
      }
      jobsBatch := jobsBatch + [job.value];
      assert Accounted();
      if |jobsBatch| >= BATCH_SIZE {
        Flush(result);
      }
    }

    /** One turn of the select statement: a tick and a stop flush the batch. */
    method Step(input: Input, result: BulkResult) returns (stop: bool)
      requires Accounted() && |jobsBatch| < 1000
      modifies this, store
      ensures Accounted() && |jobsBatch| < 1000
      ensures received == old(received) + (if input.Message? then [input.body] else [])
      ensures stop <==> IsStop(input)
      ensures !input.Message? ==> jobsBatch == []
      ensures !input.Message? ==> fates == Settle(old(fates), if result.Committed? then Inserted else Dropped)
      ensures SettledStay(old(fates), fates)
      ensures result.Committed? && Dropped !in old(fates) ==> Dropped !in fates
    {
      match input
      case Message(body) => Receive(body, result); return false;
      case Tick => Flush(result); return false;
      case Cancelled => Flush(result); return true;
      case Closed => Flush(result); return true;
    }

    /**
     The loop: every interleaving of messages, ticks and a stop keeps the account, no
     message waits beyond the next tick, and a stop leaves no batch.
     */
    method Run(inputs: seq<Input>, results: nat -> BulkResult) returns (consumed: nat, stopped: bool)
      requires Accounted() && |jobsBatch| < 1000
      modifies this, store
      ensures consumed <= |inputs|
      ensures Accounted() && |jobsBatch| < 1000
      ensures received == old(received) + Bodies(inputs[..consumed])
      ensures NoneOverdue(inputs, consumed, |old(received)|, fates)
      ensures stopped ==> jobsBatch == [] && consumed > 0 && IsStop(inputs[consumed - 1])
      ensures !stopped ==> consumed == |inputs| && forall i :: 0 <= i < |inputs| ==> !IsStop(inputs[i])
      ensures (forall k :: results(k).Committed?) && Dropped !in old(fates) ==> Dropped !in fates
    {
      consumed, stopped := 0, false;
      while consumed < |inputs| && !stopped
        invariant consumed <= |inputs|
        invariant Accounted() && |jobsBatch| < 1000
        invariant received == old(received) + Bodies(inputs[..consumed])
        invariant NoneOverdue(inputs, consumed, |old(received)|, fates)
        invariant stopped ==> jobsBatch == [] && consumed > 0 && IsStop(inputs[consumed - 1])
        invariant !stopped ==> forall i :: 0 <= i < consumed ==> !IsStop(inputs[i])
        invariant (forall k :: results(k).Committed?) && Dropped !in old(fates) ==> Dropped !in fates
        decreases |inputs| - consumed
      {
        BodiesNext(old(received), inputs, consumed);
        ghost var before := fates;
        stopped := Step(inputs[consumed], results(consumed));
        TurnKeepsTime(inputs, consumed, |old(received)|, before, fates);
        consumed := consumed + 1;
      }
    }
  }

  /******* Queue mode refines direct mode *******/

  /** Direct mode: one INSERT for each job. */
  method EnqueueDirect(store: EnqueuedJobStore, jobs: seq<Job>)
    requires store.Valid()
    modifies store
    ensures store.rows == InsertAll(old(store.rows), old(store.nextId), RowsOf(jobs))
  {
    for i := 0 to |jobs|
      invariant store.Valid() && store.nextId == old(store.nextId) + i
      invariant store.rows == InsertAll(old(store.rows), old(store.nextId), RowsOf(jobs[..i]))
    {
      assert RowsOf(jobs[..i + 1])[..i] == RowsOf(jobs[..i]);
      assert Serials(old(store.nextId), i + 1)[..i] == Serials(old(store.nextId), i);
      var id := store.Insert(jobs[i].name, jobs[i].payload, jobs[i].scheduledAt);
    }
    assert jobs[..|jobs|] == jobs;
  }

  function Published(encode: Job -> string, jobs: seq<Job>): (bodies: seq<string>)
    ensures |bodies| == |jobs| && forall i :: 0 <= i < |jobs| ==> bodies[i] == encode(jobs[i])
  {
    seq(|jobs|, i requires 0 <= i < |jobs| => encode(jobs[i]))
  }

  lemma {:induction false} AllInserted(encode: Job -> string, decode: string -> Option<Job>, jobs: seq<Job>,
                                       fates: seq<Fate>)
    requires |jobs| == |fates|
    requires forall j :: decode(encode(j)) == Some(j)
    requires forall i :: 0 <= i < |fates| ==> fates[i] == Inserted
    ensures Pick(decode, Published(encode, jobs), fates, Inserted) == jobs
  {
    if jobs != [] {
      var n := |jobs| - 1;
      assert Published(encode, jobs)[..n] == Published(encode, jobs[..n]);
      AllInserted(encode, decode, jobs[..n], fates[..n]);
      assert jobs == jobs[..n] + [jobs[n]];
    }
  }

  lemma {:induction false} PendingIsPicked(decode: string -> Option<Job>, received: seq<string>, fates: seq<Fate>,
                                           i: nat)
    requires |received| == |fates| && i < |fates|
    requires fates[i] == Pending && decode(received[i]).Some?
    ensures Pick(decode, received, fates, Pending) != []
    decreases |received|
  {
    if i < |received| - 1 {
      PendingIsPicked(decode, received[..|received| - 1], fates[..|received| - 1], i);
    }
  }

  /** With no malformed or dropped message and an empty batch, every message is a row. */
  lemma EverythingInserted(encode: Job -> string, decode: string -> Option<Job>, jobs: seq<Job>, fates: seq<Fate>)
    requires |jobs| == |fates| && Dropped !in fates
    requires forall j :: decode(encode(j)) == Some(j)
    requires forall i :: 0 <= i < |fates| ==> (fates[i] == Malformed <==> decode(Published(encode, jobs)[i]).None?)
    requires Pick(decode, Published(encode, jobs), fates, Pending) == []
    ensures Pick(decode, Published(encode, jobs), fates, Inserted) == jobs
  {
    forall i | 0 <= i < |fates|
      ensures fates[i] == Inserted
    {
      assert decode(encode(jobs[i])) == Some(jobs[i]);
      if fates[i] == Pending {
        PendingIsPicked(decode, Published(encode, jobs), fates, i);
      }
    }
    AllInserted(encode, decode, jobs, fates);
  }

  /**
   Queue mode: whatever the ticks and the batches, once the worker has stopped, and
   if no insert failed and the codec round-trips, the table is the one direct mode makes.
   */
  method EnqueueThroughQueue(store: EnqueuedJobStore, encode: Job -> string, decode: string -> Option<Job>,
                             jobs: seq<Job>, inputs: seq<Input>, results: nat -> BulkResult)
    requires store.Valid()
    requires forall j :: decode(encode(j)) == Some(j)
    requires inputs != [] && IsStop(inputs[|inputs| - 1]) && forall i :: 0 <= i < |inputs| - 1 ==> !IsStop(inputs[i])
    requires Bodies(inputs) == Published(encode, jobs)
    requires forall k :: results(k).Committed?
    modifies store
    ensures store.rows == InsertAll(old(store.rows), old(store.nextId), RowsOf(jobs))
  {
    var worker := new SyncWorker(store, decode);
    var consumed, stopped := worker.Run(inputs, results);
    assert stopped && consumed == |inputs|;
    assert worker.received == Published(encode, jobs) by {
      assert inputs[..|inputs|] == inputs;
    }
    ghost var fates := worker.fates;
    assert worker.Kept(Pending) && worker.Kept(Inserted);
    assert Pick(decode, Published(encode, jobs), fates, Pending) == [];
    EverythingInserted(encode, decode, jobs, fates);
  }
}

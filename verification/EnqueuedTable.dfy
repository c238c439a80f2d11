/**
 The table `enqueued_jobs` and the statements that change it
 (internal/store/postgres/postgres_enqueued_job_store.go). Each statement is one
 function from table to table, and the store is a class that runs them.
 */
module EnqueuedTable {
  import opened Statuses
  import opened Text

  const MAX_RETRY_ATTEMPT: nat := 3

  /** Seconds between a sweep and the retry it asks for. */
  const RETRY_DELAY: int := 60

  datatype Row = Row(name: string, payload: string, status: Status, attempts: nat, maxAttempts: nat,
                     scheduledAt: int, lockedAt: Option<int>, lockedBy: Option<int>)

  type Table = map<int, Row>

  /** A row as an INSERT leaves it, with the column defaults. */
  function NewRow(name: string, payload: string, scheduledAt: int): Row {
    Row(name, payload, Queued, 0, MAX_RETRY_ATTEMPT, scheduledAt, None, None)
  }

  /** The rows that FetchDueJobs offers to a worker. */
  predicate Due(t: Table, id: int, now: int) {
    id in t && (t[id].status == Queued || t[id].status == Retrying) && t[id].scheduledAt <= now
  }

  predicate Lockable(t: Table, id: int) {
    id in t && (t[id].status == Queued || t[id].status == Retrying)
  }

  function LockJob(t: Table, id: int, worker: int, now: int): Table {
    if Lockable(t, id) then
      t[id := t[id].(status := Processing, lockedAt := Some(now), lockedBy := Some(worker))]
    else t
  }

  function MarkSuccess(t: Table, id: int): Table {
    if id in t then t[id := t[id].(status := Succeeded)] else t
  }

  /** `dead` is chosen from the attempts of the result, the increment is on the row. */
  function MarkFailure(t: Table, id: int, attempts: int): Table {
    if id in t then
      t[id := t[id].(status := if attempts >= MAX_RETRY_ATTEMPT then Dead else Failed, attempts := t[id].attempts + 1)]
    else t
  }

  predicate Retryable(r: Row) {
    r.status == Failed && r.attempts < r.maxAttempts
  }

  function MarkRetryFailedJobs(t: Table, now: int): Table {
    map id | id in t :: if Retryable(t[id]) then t[id].(status := Retrying, scheduledAt := now + RETRY_DELAY) else t[id]
  }

  predicate Stale(r: Row, now: int) {
    r.status == Processing && r.lockedAt.Some? && r.lockedAt.value <= now
  }

  /** The timeout that the caller passes is not used. */
  function UnlockStaleJobs(t: Table, now: int): Table {
    map id | id in t ::
      if Stale(t[id], now) then t[id].(status := Queued, lockedAt := None, lockedBy := None) else t[id]
  }

  function RemoveByID(t: Table, id: int): Table {
    map k | k in t && k != id :: t[k]
  }

  /** Rows inserted one after the other under the given numbers. */
  function InsertAt(t: Table, ids: seq<int>, rows: seq<Row>): Table
    requires |ids| == |rows|
    decreases |ids|
  {
    if ids == [] then t
    else
      var n := |ids| - 1;
      InsertAt(t, ids[..n], rows[..n])[ids[n] := rows[n]]
  }

  /** Consecutive values of a serial column. */
  function Serials(first: int, count: nat): (ids: seq<int>)
    ensures |ids| == count && forall i :: 0 <= i < count ==> ids[i] == first + i
  {
    seq(count, i => first + i)
  }

  /** Rows inserted one after the other, with consecutive numbers from `nextId` on. */
  function InsertAll(t: Table, nextId: int, rows: seq<Row>): Table {
    InsertAt(t, Serials(nextId, |rows|), rows)
  }

  /** Two inserts in a row are one insert of both lists. */
  lemma {:induction false} InsertAtAppend(t: Table, ids: seq<int>, a: seq<Row>, more: seq<int>, b: seq<Row>)
    requires |ids| == |a| && |more| == |b|
    ensures InsertAt(InsertAt(t, ids, a), more, b) == InsertAt(t, ids + more, a + b)
    decreases |b|
  {
    if b == [] {
      assert a + b == a && ids + more == ids;
    } else {
      var n := |b| - 1;
      assert (a + b)[..|a| + n] == a + b[..n];
      assert (ids + more)[..|a| + n] == ids + more[..n];
      InsertAtAppend(t, ids, a, more[..n], b[..n]);
    }
  }

  lemma {:induction false} InsertAtKeys(t: Table, ids: seq<int>, rows: seq<Row>)
    requires |ids| == |rows|
    ensures forall id :: id in InsertAt(t, ids, rows) <==> id in t || id in ids
    decreases |ids|
  {
    if ids != [] {
      var n := |ids| - 1;
      InsertAtKeys(t, ids[..n], rows[..n]);
      assert ids == ids[..n] + [ids[n]];
    }
  }

  /** What a bulk insert comes to; a failed one may use up values of the serial column. */
  datatype BulkResult = Committed | Rejected(burned: nat)

  /** The store: one mutable table, and the next value of its serial column. */
  class EnqueuedJobStore {
    var rows: Table
    var nextId: int

    ghost predicate Valid()
      reads this
    {
      forall id :: id in rows ==> id < nextId
    }

    constructor ()
      ensures Valid() && rows == map[] && nextId == 1
    {
      rows, nextId := map[], 1;
    }

    method Insert(name: string, payload: string, enqueueAt: int) returns (id: int)
      requires Valid()
      modifies this
      ensures Valid() && id == old(nextId) && id !in old(rows) && nextId == id + 1
      ensures rows == old(rows)[id := NewRow(name, payload, enqueueAt)]
    {
      id := nextId;
      rows, nextId := rows[id := NewRow(name, payload, enqueueAt)], nextId + 1;
    }

    /** One statement: all rows are added, or none; a number that is used up is not given out again. */
    method BulkInsert(batch: seq<Row>, result: BulkResult)
      requires Valid()
      modifies this
      ensures Valid()
      ensures rows == if result.Committed? then InsertAll(old(rows), old(nextId), batch) else old(rows)
      ensures nextId == old(nextId) + if result.Committed? then |batch| else result.burned
    {
      match result
      case Committed =>
        InsertAtKeys(rows, Serials(nextId, |batch|), batch);
        rows, nextId := InsertAll(rows, nextId, batch), nextId + |batch|;
      case Rejected(burned) => nextId := nextId + burned;
    }

    /** At most one of two calls on the same job succeeds until the job leaves `processing`. */
    method Lock(id: int, worker: int, now: int) returns (ok: bool)
      requires Valid()
      modifies this`rows
      ensures Valid() && rows == LockJob(old(rows), id, worker, now)
      ensures ok <==> Lockable(old(rows), id)
      ensures ok ==> rows[id].status == Processing && !Lockable(rows, id)
    {
      ok := id in rows && (rows[id].status == Queued || rows[id].status == Retrying);
      if ok {
        rows := rows[id := rows[id].(status := Processing, lockedAt := Some(now), lockedBy := Some(worker))];
      }
    }

    method RecordSuccess(id: int)
      requires Valid()
      modifies this`rows
      ensures Valid() && rows == MarkSuccess(old(rows), id)
    {
      if id in rows {
        rows := rows[id := rows[id].(status := Succeeded)];
      }
    }

    method RecordFailure(id: int, attempts: int)
      requires Valid()
      modifies this`rows
      ensures Valid() && rows == MarkFailure(old(rows), id, attempts)
    {
      var status := Failed;
      if attempts >= MAX_RETRY_ATTEMPT {
        status := Dead;
      }
      if id in rows {
        rows := rows[id := rows[id].(status := status, attempts := rows[id].attempts + 1)];
      }
    }

    /** Afterwards no row waits for a sweep. */
    method Sweep(now: int)
      requires Valid()
      modifies this`rows
      ensures Valid() && rows == MarkRetryFailedJobs(old(rows), now)
      ensures forall id :: id in rows ==> !Retryable(rows[id])
    {
      rows := MarkRetryFailedJobs(rows, now);
    }

    /** Afterwards no row is locked in the past. */
    method Recover(now: int)
      requires Valid()
      modifies this`rows
      ensures Valid() && rows == UnlockStaleJobs(old(rows), now)
      ensures forall id :: id in rows ==> !Stale(rows[id], now)
    {
      rows := UnlockStaleJobs(rows, now);
    }

    method Remove(id: int) returns (ok: bool)
      requires Valid()
      modifies this`rows
      ensures Valid() && rows == RemoveByID(old(rows), id)
      ensures ok <==> id in old(rows)
    {
      ok := id in rows;
      rows := RemoveByID(rows, id);
    }
  }
}

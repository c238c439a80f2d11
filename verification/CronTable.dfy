/**
 The table `cron_jobs` and the statements that change it
 (internal/store/postgres/postgres_cron_job_store.go). Names are unique and rows
 are never deleted, so a name stands for its row.
 */
module CronTable {
  import opened Statuses
  import opened Text
  import opened CronSearch

  const LOCK_TTL: int := 60 * NS_PER_MINUTE

  datatype CronRow = CronRow(status: Status, lockedAt: Option<int>, lastRun: Option<int>, nextRun: int, active: bool,
                             expr: string)

  type CronTable = map<string, CronRow>

  /** The WHERE clause of FetchDueCronJobs, with AND binding tighter than OR. */
  predicate Fetched(r: CronRow, now: int) {
    || (r.active && r.nextRun <= now)
    || r.status == Queued || r.status == Retrying
    || (r.status == Processing && r.lockedAt.Some? && r.lockedAt.value < now - LOCK_TTL)
  }

  function AddOrUpdate(t: CronTable, name: string, next: int, expr: string): CronTable {
    if name in t then t[name := t[name].(nextRun := next, expr := expr)]
    else t[name := CronRow(Queued, None, None, next, true, expr)]
  }

  /** LockJob takes a job in any status but `processing` and `dead`. */
  predicate Lockable(t: CronTable, name: string) {
    && name in t
    && (|| t[name].status == Queued || t[name].status == Retrying
        || t[name].status == Succeeded || t[name].status == Failed)
  }

  function LockJob(t: CronTable, name: string, now: int): CronTable {
    if Lockable(t, name) then t[name := t[name].(status := Processing, lockedAt := Some(now))] else t
  }

  function MarkSuccess(t: CronTable, name: string): CronTable {
    if name in t then t[name := t[name].(status := Succeeded, lockedAt := None)] else t
  }

  /** Unlike success, failure leaves the lock columns as they are. */
  function MarkFailure(t: CronTable, name: string): CronTable {
    if name in t then t[name := t[name].(status := Failed)] else t
  }

  function UpdateJobRunTimes(t: CronTable, name: string, last: int, next: int): CronTable {
    if name in t then t[name := t[name].(lastRun := Some(last), nextRun := next)] else t
  }

  function SetActive(t: CronTable, name: string, active: bool): CronTable {
    if name in t then t[name := t[name].(active := active)] else t
  }

  /** A settled row is listed when active and due, a waiting one always, a locked one also an hour after its lock. */
  lemma FetchedIff(r: CronRow, now: int)
    ensures var due := r.active && r.nextRun <= now;
            && (r.status == Succeeded || r.status == Failed || r.status == Dead ==> (Fetched(r, now) <==> due))
            && (r.status == Queued || r.status == Retrying ==> Fetched(r, now))
            && (r.status == Processing ==>
                  (Fetched(r, now) <==> due || (r.lockedAt.Some? && r.lockedAt.value + 3_600_000_000_000 < now)))
  {
  }

  lemma LockableIff(t: CronTable, name: string)
    ensures Lockable(t, name) <==> name in t && t[name].status != Processing && t[name].status != Dead
  {
  }

  /** The store: one mutable table. */
  class CronJobStore {
    var rows: CronTable

    constructor ()
      ensures rows == map[]
    {
      rows := map[];
    }

    /** A job that exists keeps its status, its lock and its last run. */
    method Upsert(name: string, scheduledAt: int, expr: string)
      modifies this
      ensures rows == AddOrUpdate(old(rows), name, scheduledAt, expr)
      ensures name in old(rows) ==>
                rows[name].status == old(rows)[name].status && rows[name].lastRun == old(rows)[name].lastRun
    {
      if name in rows {
        rows := rows[name := rows[name].(nextRun := scheduledAt, expr := expr)];
      } else {
        rows := rows[name := CronRow(Queued, None, None, scheduledAt, true, expr)];
      }
    }

    method Lock(name: string, now: int) returns (ok: bool)
      modifies this
      ensures rows == LockJob(old(rows), name, now)
      ensures ok <==> Lockable(old(rows), name)
      ensures ok ==> !Lockable(rows, name)
    {
      ok := Lockable(rows, name);
      if ok {
        rows := rows[name := rows[name].(status := Processing, lockedAt := Some(now))];
      }
    }

    /** Either result makes the job lockable again. */
    method RecordResult(name: string, ok: bool)
      modifies this
      ensures rows == if ok then MarkSuccess(old(rows), name) else MarkFailure(old(rows), name)
      ensures name in old(rows) ==> Lockable(rows, name) && rows[name].status == if ok then Succeeded else Failed
    {
      if name in rows {
        if ok {
          rows := rows[name := rows[name].(status := Succeeded, lockedAt := None)];
        } else {
          rows := rows[name := rows[name].(status := Failed)];
        }
      }
    }

    method SetActivity(name: string, active: bool)
      modifies this
      ensures rows == SetActive(old(rows), name, active)
    {
      if name in rows {
        rows := rows[name := rows[name].(active := active)];
      }
    }

    method RecordRunTimes(name: string, lastRunAt: int, nextRunAt: int)
      modifies this
      ensures rows == UpdateJobRunTimes(old(rows), name, lastRunAt, nextRunAt)
    {
      if name in rows {
        rows := rows[name := rows[name].(lastRun := Some(lastRunAt), nextRun := nextRunAt)];
      }
    }
  }
}

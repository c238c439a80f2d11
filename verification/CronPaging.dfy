/**
 The paging loop of the cron manager with its own locks
 (client/cron_job_manager.go, processCronJobs): a row that it locks can leave the
 clause of the next fetch.
 */
module CronPaging {
  import opened Text
  import opened Statuses
  import opened CronTable
  import opened Paging

  function IsListed(t: CronTable, now: int): string -> bool {
    name => name in t && Fetched(t[name], now)
  }

  /** The names that a fetch lists, out of all names in the order of their next runs. */
  function Listed(order: seq<string>, t: CronTable, now: int): seq<string> {
    Filter(order, IsListed(t, now))
  }

  /** A lock takes the job out of the clause: it was listed for its status alone, and is inactive or not due. */
  predicate LeavesWhenLocked(t: CronTable, name: string, now: int) {
    Lockable(t, name) && !(t[name].active && t[name].nextRun <= now)
  }

  /** The rows that leave once they are visited; `commits` says which locks are committed. */
  ghost function Leaver(t: CronTable, commits: string -> bool, now: int): (int, string) -> bool {
    (page, name) => commits(name) && LeavesWhenLocked(t, name, now)
  }

  /** The table after some jobs were visited. */
  ghost function AfterVisits(t: CronTable, visited: seq<string>, commits: string -> bool, now: int): CronTable {
    map name | name in t ::
      if name in visited && commits(name) && Lockable(t, name) then
        t[name].(status := Processing, lockedAt := Some(now))
      else t[name]
  }

  lemma VisitOne(t: CronTable, visited: seq<string>, name: string, commits: string -> bool, now: int)
    ensures AfterVisits(t, visited + [name], commits, now)
            == if commits(name) then LockJob(AfterVisits(t, visited, commits, now), name, now)
               else AfterVisits(t, visited, commits, now)
  {
    assert forall other :: other in visited + [name] <==> other in visited || other == name;
  }

  lemma {:induction false} FilterTwice(rows: seq<string>, p: string -> bool, q: string -> bool, both: string -> bool)
    requires forall name :: both(name) <==> p(name) && q(name)
    ensures Filter(Filter(rows, p), q) == Filter(rows, both)
  {
    if rows != [] {
      var n := |rows| - 1;
      FilterTwice(rows[..n], p, q, both);
      var kept := Filter(rows[..n], p);
      assert p(rows[n]) ==> (kept + [rows[n]])[..|kept|] == kept;
    }
  }

  /** What the next fetch lists: the rows listed at first, without the visited ones that have left. */
  lemma ListedAfter(order: seq<string>, t: CronTable, page: int, visited: seq<string>, commits: string -> bool,
                    now: int)
    ensures Listed(order, AfterVisits(t, visited, commits, now), now)
            == Seen(Listed(order, t, now), Leaver(t, commits, now), page, visited)
  {
    var left, t' := Leaver(t, commits, now), AfterVisits(t, visited, commits, now);
    var p, q, both := IsListed(t, now), IsSeen(left, page, visited), IsListed(t', now);
    forall name
      ensures both(name) <==> p(name) && q(name)
    {
    }
    FilterTwice(order, p, q, both);
  }

  /**
   The loop with its own locks: it ends, and visits every job listed at the start, in
   order, if and only if no job on a page before the last leaves when it is locked;
   otherwise it visits fewer.
   */
  method ProcessCronJobs(store: CronJobStore, order: seq<string>, batchSize: nat, now: int, commits: string -> bool)
      returns (visited: seq<string>)
    requires batchSize >= 1
    modifies store
    ensures store.rows == AfterVisits(old(store.rows), visited, commits, now)
    ensures var list, left := Listed(order, old(store.rows), now), Leaver(old(store.rows), commits, now);
            && visited == Walk(list, left, 1, [], batchSize)
            && (visited == list <==> NoneLeft(list, left, batchSize))
            && (visited != list ==> |visited| < |list|)
  {
    ghost var t, list := store.rows, Listed(order, store.rows, now);
    ghost var left := Leaver(t, commits, now);
    visited := [];
    var page := 1;
    while true
      invariant page >= 1
      invariant store.rows == AfterVisits(t, visited, commits, now)
      invariant Walk(list, left, page, visited, batchSize) == Walk(list, left, 1, [], batchSize)
      decreases |order| - (page - 1) * batchSize
    {
      ListedAfter(order, t, page, visited, commits, now);
      var fetched := Listed(order, store.rows, now);
      var result := FetchPage(fetched, page, batchSize);
      WalkStep(list, left, page, visited, batchSize);
      StillPages(fetched, page, batchSize, |order|);
      visited := LockPage(store, result.items, now, commits, t, visited);
      if !result.hasNextPage {
        break;
      }
      page := page + 1;
    }
    WalkVisitsAllIff(list, left, batchSize);
  }

  /** One pass of the loop. */
  lemma WalkStep(list: seq<string>, left: (int, string) -> bool, page: int, visited: seq<string>, size: nat)
    requires size >= 1 && page >= 1
    ensures var result := FetchPage(Seen(list, left, page, visited), page, size);
            Walk(list, left, page, visited, size)
            == if result.hasNextPage then Walk(list, left, page + 1, visited + result.items, size)
               else visited + result.items
  {
  }

  /** A next page is paid for by the rows left behind. */
  lemma StillPages(fetched: seq<string>, page: int, size: nat, total: nat)
    requires size >= 1 && page >= 1 && |fetched| <= total
    ensures FetchPage(fetched, page, size).hasNextPage ==>
              0 <= total - page * size < total - (page - 1) * size
  {
    HasNextPageIff(fetched, page, size);
    assert page * size == (page - 1) * size + size;
  }

  /** Locks the jobs of one page, one after the other. */
  method LockPage(store: CronJobStore, items: seq<string>, now: int, commits: string -> bool, ghost t: CronTable,
                  before: seq<string>)
      returns (visited: seq<string>)
    requires store.rows == AfterVisits(t, before, commits, now)
    modifies store
    ensures visited == before + items && store.rows == AfterVisits(t, visited, commits, now)
  {
    visited := before;
    for i := 0 to |items|
      invariant visited == before + items[..i]
      invariant store.rows == AfterVisits(t, visited, commits, now)
    {
      VisitOne(t, visited, items[i], commits, now);
      if commits(items[i]) {
        var ok := store.Lock(items[i], now);
      }
      visited := visited + [items[i]];
    }
  }

  lemma FilterThree(a: string, b: string, c: string, keep: string -> bool)
    ensures Filter([a, b, c], keep)
            == (if keep(a) then [a] else []) + (if keep(b) then [b] else []) + (if keep(c) then [c] else [])
  {
    assert [a, b, c][..2] == [a, b] && [a, b][..1] == [a] && [a][..0] == [];
    assert Filter([a], keep) == if keep(a) then [a] else [];
    assert Filter([a, b], keep) == (if keep(a) then [a] else []) + (if keep(b) then [b] else []);
  }

  /** Three queued jobs that are not due yet, one to a page: the second is skipped. */
  lemma SecondJobIsSkipped(a: string, b: string, c: string, next: int, now: int, expr: string)
    requires a != b && b != c && a != c && now < next
    ensures var row := CronRow(Queued, None, None, next, true, expr);
            var t := map[a := row, b := row, c := row];
            && Listed([a, b, c], t, now) == [a, b, c]
            && Walk([a, b, c], Leaver(t, name => true, now), 1, [], 1) == [a, c]
  {
    var row := CronRow(Queued, None, None, next, true, expr);
    var t := map[a := row, b := row, c := row];
    FilterThree(a, b, c, IsListed(t, now));
    assert t[a] == row && LeavesWhenLocked(t, a, now);
    var all: string -> bool := name => true;
    assert all(a) && Leaver(t, all, now)(2, a);
    OneToAPage(a, b, c, Leaver(t, all, now));
  }

  lemma OneToAPage(a: string, b: string, c: string, left: (int, string) -> bool)
    requires a != b && b != c && a != c && left(2, a)
    ensures Walk([a, b, c], left, 1, [], 1) == [a, c]
  {
    FilterThree(a, b, c, IsSeen(left, 1, []));
    FilterThree(a, b, c, IsSeen(left, 2, [a]));
    assert Seen([a, b, c], left, 1, []) == [a, b, c] && Seen([a, b, c], left, 2, [a]) == [b, c];
    HasNextPageIff([a, b, c], 1, 1);
    HasNextPageIff([b, c], 2, 1);
    assert [] + FetchPage([a, b, c], 1, 1).items == [a];
    assert FetchPage([b, c], 2, 1).items == [c];
    assert Walk([a, b, c], left, 2, [a], 1) == [a] + [c];
  }
}

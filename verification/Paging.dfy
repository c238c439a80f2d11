/** Pagination of the stores, and the paging loop of the cron manager. */
module Paging {

  datatype PaginationResult<T> = PaginationResult(items: seq<T>, totalItems: nat, page: int, pageSize: nat,
                                                  totalPages: int, hasNextPage: bool, hasPreviousPage: bool)

  function Ceil(x: real): int {
    -(-x).Floor
  }

  /** `LIMIT pageSize OFFSET offset` over a frozen, ordered list. */
  function Slice<T>(rows: seq<T>, offset: nat, pageSize: nat): seq<T> {
    if offset >= |rows| then []
    else if offset + pageSize >= |rows| then rows[offset..]
    else rows[offset..offset + pageSize]
  }

  function FetchPage<T>(rows: seq<T>, page: int, pageSize: nat): PaginationResult<T>
    requires pageSize >= 1
  {
    var page := if page < 1 then 1 else page;
    var offset := (page - 1) * pageSize;
    var totalPages := Ceil(|rows| as real / pageSize as real);
    PaginationResult(Slice(rows, offset, pageSize), |rows|, page, pageSize, totalPages, page < totalPages, page > 1)
  }

  /** A page below 1 is page 1; the page before the first does not exist; the total counts all rows. */
  lemma PageNumbers<T>(rows: seq<T>, page: int, pageSize: nat)
    requires pageSize >= 1
    ensures page < 1 ==> FetchPage(rows, page, pageSize) == FetchPage(rows, 1, pageSize)
    ensures var r := FetchPage(rows, page, pageSize);
            && r.page >= 1 && (page >= 1 ==> r.page == page) && r.pageSize == pageSize && r.totalItems == |rows|
            && (r.hasPreviousPage <==> r.page >= 2)
  {
  }

  lemma RealProduct(a: int, b: nat)
    ensures (a * b) as real == a as real * b as real
  {
    if b > 0 {
      RealProduct(a, b - 1);
      assert a * b == a * (b - 1) + a;
    }
  }

  lemma Quotient(x: real, c: real)
    requires c > 0.0
    ensures x / c * c == x
    ensures x >= 0.0 ==> x / c >= 0.0
  {
  }

  lemma CeilBounds(x: real)
    ensures (Ceil(x) - 1) as real < x <= Ceil(x) as real
    ensures x >= 0.0 ==> Ceil(x) >= 0
  {
  }

  lemma Scaled(low: real, q: real, high: real, c: real)
    requires low < q <= high && c > 0.0
    ensures low * c < q * c <= high * c
  {
  }

  /** Rounding a quotient up gives the least number of parts that cover the whole. */
  lemma CeilTimes(x: real, c: real)
    requires c > 0.0
    ensures (Ceil(x / c) - 1) as real * c < x <= Ceil(x / c) as real * c
  {
    Quotient(x, c);
    CeilBounds(x / c);
    Scaled((Ceil(x / c) - 1) as real, x / c, Ceil(x / c) as real, c);
  }

  lemma IntegerOrder(total: nat, pages: int, pageSize: nat)
    ensures total as real <= pages as real * pageSize as real ==> total <= pages * pageSize
    ensures pages as real * pageSize as real < total as real ==> pages * pageSize < total
  {
    RealProduct(pages, pageSize);
  }

  /** The exact number of pages is the least one whose pages hold all rows. */
  lemma ExactPagesIsLeast(total: nat, pageSize: nat)
    requires pageSize >= 1
    ensures var pages := Ceil(total as real / pageSize as real);
            && 0 <= pages && total <= pages * pageSize
            && (pages - 1) * pageSize < total
  {
    var pages := Ceil(total as real / pageSize as real);
    Quotient(total as real, pageSize as real);
    CeilBounds(total as real / pageSize as real);
    CeilTimes(total as real, pageSize as real);
    IntegerOrder(total, pages, pageSize);
    IntegerOrder(total, pages - 1, pageSize);
  }

  /******* The quotient in float64 *******/

  const FLOAT_INTEGERS: int := 0x20_0000_0000_0000

  /** `r` is `q` rounded to float64: off by at most half a unit in the last place, and past no integer. */
  predicate Rounded(q: real, r: real) {
    && (q - r) * FLOAT_INTEGERS as real <= q && (r - q) * FLOAT_INTEGERS as real <= q
    && q.Floor as real <= r <= Ceil(q) as real
  }

  lemma TimesBoth(x: real, y: real, c: real)
    requires x <= y && c > 0.0
    ensures x * c <= y * c
  {
  }

  /** The rounded quotient misses less than one row. */
  lemma MissesNoRow(total: real, n: real, q: real, r: real)
    requires n > 0.0 && q * n == total && total < FLOAT_INTEGERS as real && Rounded(q, r)
    ensures total - 1.0 < r * n
  {
    var m := FLOAT_INTEGERS as real;
    TimesBoth((q - r) * m, q, n);
    assert (q - r) * m * n == (q * n - r * n) * m;
    assert (q * n - r * n) * m < 1.0 * m;
  }

  lemma AboveByRows(k: int, total: nat, r: real, pageSize: nat)
    requires pageSize >= 1 && k * pageSize < total && total as real - 1.0 < r * pageSize as real
    ensures k as real < r
  {
    RealProduct(k, pageSize);
    assert (k * pageSize) as real <= total as real - 1.0;
    if r <= k as real {
      TimesBoth(r, k as real, pageSize as real);
    }
  }

  lemma CeilIs(r: real, c: int)
    requires (c - 1) as real < r <= c as real
    ensures Ceil(r) == c
  {
  }

  lemma RoundedCeil(total: nat, pageSize: nat, q: real, r: real)
    requires pageSize >= 1 && total < FLOAT_INTEGERS && q * pageSize as real == total as real && Rounded(q, r)
    requires (Ceil(q) - 1) * pageSize < total
    ensures Ceil(r) == Ceil(q)
  {
    MissesNoRow(total as real, pageSize as real, q, r);
    AboveByRows(Ceil(q) - 1, total, r, pageSize);
    CeilIs(r, Ceil(q));
  }

  /** The number of pages computed in float64 is the exact one, for every table of fewer than 2^53 rows. */
  lemma RoundedPagesExact(total: nat, pageSize: nat, r: real)
    requires pageSize >= 1 && total < FLOAT_INTEGERS && Rounded(total as real / pageSize as real, r)
    ensures Ceil(r) == Ceil(total as real / pageSize as real)
  {
    Quotient(total as real, pageSize as real);
    ExactPagesIsLeast(total, pageSize);
    RoundedCeil(total, pageSize, total as real / pageSize as real, r);
  }

  /** The number of pages that the code computes is the least one whose pages hold all rows. */
  lemma TotalPagesIsLeast(total: nat, pageSize: nat, r: real)
    requires pageSize >= 1 && total < FLOAT_INTEGERS && Rounded(total as real / pageSize as real, r)
    ensures 0 <= Ceil(r) && total <= Ceil(r) * pageSize && (Ceil(r) - 1) * pageSize < total
  {
    RoundedPagesExact(total, pageSize, r);
    ExactPagesIsLeast(total, pageSize);
  }

  /** There is a next page exactly when rows remain after this one. */
  lemma HasNextPageIff<T>(rows: seq<T>, page: int, pageSize: nat)
    requires pageSize >= 1 && page >= 1
    ensures FetchPage(rows, page, pageSize).hasNextPage <==> page * pageSize < |rows|
  {
    var pages := FetchPage(rows, page, pageSize).totalPages;
    ExactPagesIsLeast(|rows|, pageSize);
    PageBefore(|rows|, pages, page, pageSize);
  }

  lemma PageBefore(total: nat, pages: int, page: int, pageSize: nat)
    requires total <= pages * pageSize && (pages - 1) * pageSize < total
    ensures page < pages <==> page * pageSize < total
  {
    if page < pages {
      Ordered(page, pages - 1, pageSize);
    } else {
      Ordered(pages, page, pageSize);
    }
  }

  lemma Ordered(a: int, b: int, c: nat)
    requires a <= b
    ensures a * c <= b * c
  {
  }

  /** Pages 1 to `pages`, one after the other. */
  function Pages<T>(rows: seq<T>, pages: nat, pageSize: nat): seq<T>
    requires pageSize >= 1
  {
    if pages == 0 then [] else Pages(rows, pages - 1, pageSize) + FetchPage(rows, pages, pageSize).items
  }

  lemma {:induction false} PagesArePrefix<T>(rows: seq<T>, pages: nat, pageSize: nat)
    requires pageSize >= 1
    ensures Pages(rows, pages, pageSize) == if pages * pageSize < |rows| then rows[..pages * pageSize] else rows
  {
    if pages > 0 {
      PagesArePrefix(rows, pages - 1, pageSize);
      assert pages * pageSize == (pages - 1) * pageSize + pageSize;
    } else {
      assert pages * pageSize == 0;
    }
  }

  /** All pages together are the list, without a gap or a duplicate. */
  lemma PagesCoverRows<T>(rows: seq<T>, pageSize: nat)
    requires pageSize >= 1
    ensures var pages := FetchPage(rows, 1, pageSize).totalPages;
            pages >= 0 && Pages(rows, pages, pageSize) == rows
  {
    ExactPagesIsLeast(|rows|, pageSize);
    PagesArePrefix(rows, FetchPage(rows, 1, pageSize).totalPages, pageSize);
  }

  /** The loop of processCronJobs over a frozen table: it ends, and visits each row once, in order. */
  method VisitAll<T>(rows: seq<T>, batchSize: nat) returns (visited: seq<T>)
    requires batchSize >= 1
    ensures visited == rows
  {
    visited := [];
    var page := 1;
    while true
      invariant page >= 1
      invariant visited == Pages(rows, page - 1, batchSize)
      invariant page == 1 || (page - 1) * batchSize < |rows|
      decreases |rows| - (page - 1) * batchSize
    {
      var result := FetchPage(rows, page, batchSize);
      HasNextPageIff(rows, page, batchSize);
      visited := visited + result.items;
      assert page * batchSize == (page - 1) * batchSize + batchSize;
      if !result.hasNextPage {
        PagesArePrefix(rows, page, batchSize);
        break;
      }
      page := page + 1;
    }
  }

  /******* Paging while visited rows leave *******/

  function Filter<T>(rows: seq<T>, keep: T -> bool): (r: seq<T>)
    ensures |r| <= |rows|
  {
    if rows == [] then []
    else
      var n := |rows| - 1;
      if keep(rows[n]) then Filter(rows[..n], keep) + [rows[n]] else Filter(rows[..n], keep)
  }

  lemma {:induction false} FilterKeepsAll<T>(rows: seq<T>, keep: T -> bool)
    requires forall i :: 0 <= i < |rows| ==> keep(rows[i])
    ensures Filter(rows, keep) == rows
  {
    if rows != [] {
      FilterKeepsAll(rows[..|rows| - 1], keep);
      assert rows == rows[..|rows| - 1] + [rows[|rows| - 1]];
    }
  }

  lemma {:induction false} FilterDrops<T>(rows: seq<T>, keep: T -> bool, i: nat)
    requires i < |rows| && !keep(rows[i])
    ensures |Filter(rows, keep)| < |rows|
  {
    if i < |rows| - 1 {
      FilterDrops(rows[..|rows| - 1], keep, i);
    }
  }

  /** A visited row `x` is missing from a fetch once `left(page, x)`. */
  ghost function IsSeen<T>(left: (int, T) -> bool, page: int, visited: seq<T>): T -> bool {
    x => !(x in visited && left(page, x))
  }

  /** What the fetch of a page sees. */
  ghost function Seen<T>(rows: seq<T>, left: (int, T) -> bool, page: int, visited: seq<T>): seq<T> {
    Filter(rows, IsSeen(left, page, visited))
  }

  /** The paging loop from a page on, over rows that may leave once they are visited. */
  ghost function Walk<T>(rows: seq<T>, left: (int, T) -> bool, page: int, visited: seq<T>, size: nat): seq<T>
    requires size >= 1 && page >= 1
    decreases |rows| - (page - 1) * size
  {
    var seen := Seen(rows, left, page, visited);
    var result := FetchPage(seen, page, size);
    if result.hasNextPage then
      HasNextPageIff(seen, page, size);
      assert page * size == (page - 1) * size + size;
      Walk(rows, left, page + 1, visited + result.items, size)
    else visited + result.items
  }

  /** A row that has left does not come back. */
  ghost predicate LeavesForGood<T(!new)>(left: (int, T) -> bool) {
    forall page, later, x :: page <= later && left(page, x) ==> left(later, x)
  }

  ghost function LastPage<T>(rows: seq<T>, size: nat): int
    requires size >= 1
  {
    FetchPage(rows, 1, size).totalPages
  }

  /** At the fetch of the page none of the first `n` rows has left. */
  ghost predicate NoneLeftOf<T>(rows: seq<T>, left: (int, T) -> bool, page: int, n: int) {
    forall i :: 0 <= i < n && i < |rows| ==> !left(page, rows[i])
  }

  /** At the fetch of the last page no row of the pages before it has left. */
  ghost predicate NoneLeft<T>(rows: seq<T>, left: (int, T) -> bool, size: nat)
    requires size >= 1
  {
    NoneLeftOf(rows, left, LastPage(rows, size), (LastPage(rows, size) - 1) * size)
  }

  /** The next page of an undisturbed list. */
  lemma NextItems<T>(rows: seq<T>, page: int, size: nat)
    requires size >= 1 && page >= 1 && (page - 1) * size <= |rows|
    ensures var r := FetchPage(rows, page, size);
            rows[..(page - 1) * size] + r.items == if page * size < |rows| then rows[..page * size] else rows
  {
    assert page * size == (page - 1) * size + size;
  }

  lemma {:induction false} WalkVisitsAll<T(!new)>(rows: seq<T>, left: (int, T) -> bool, page: int, size: nat)
    requires size >= 1 && page >= 1 && LeavesForGood(left) && NoneLeft(rows, left, size)
    requires page <= LastPage(rows, size) || rows == []
    requires 0 <= (page - 1) * size <= |rows|
    ensures Walk(rows, left, page, rows[..(page - 1) * size], size) == rows
    decreases |rows| - (page - 1) * size
  {
    var visited, last := rows[..(page - 1) * size], LastPage(rows, size);
    if rows != [] {
      Ordered(page - 1, last - 1, size);
    }
    assert forall i :: 0 <= i < |visited| ==> !left(page, visited[i]);
    FilterKeepsAll(rows, IsSeen(left, page, visited));
    HasNextPageIff(rows, page, size);
    NextItems(rows, page, size);
    ExactPagesIsLeast(|rows|, size);
    if page * size < |rows| {
      PageBefore(|rows|, last, page, size);
      assert page * size == (page - 1) * size + size;
      WalkVisitsAll(rows, left, page + 1, size);
    }
  }

  /** Some visited row has left by the fetch of the page. */
  ghost predicate SomeLeft<T(!new)>(rows: seq<T>, left: (int, T) -> bool, page: int, visited: seq<T>) {
    exists i :: 0 <= i < |rows| && rows[i] in visited && left(page, rows[i])
  }

  lemma FewerSeen<T(!new)>(rows: seq<T>, left: (int, T) -> bool, page: int, visited: seq<T>)
    ensures |Seen(rows, left, page, visited)| <= |rows|
    ensures SomeLeft(rows, left, page, visited) ==> |Seen(rows, left, page, visited)| < |rows|
    ensures !SomeLeft(rows, left, page, visited) ==> Seen(rows, left, page, visited) == rows
  {
    var keep := IsSeen(left, page, visited);
    if SomeLeft(rows, left, page, visited) {
      var i :| 0 <= i < |rows| && rows[i] in visited && left(page, rows[i]);
      FilterDrops(rows, keep, i);
    } else {
      FilterKeepsAll(rows, keep);
    }
  }

  /** A page holds at most `size` rows, and no more than remain. */
  lemma PageLength<T>(rows: seq<T>, page: int, size: nat)
    requires size >= 1 && page >= 1
    ensures var n := |FetchPage(rows, page, size).items|;
            n <= size && ((page - 1) * size <= |rows| ==> n <= |rows| - (page - 1) * size)
            && ((page - 1) * size >= |rows| ==> n == 0)
  {
  }

  /** A loop that has lost sight of a row ends with fewer rows visited than there are. */
  lemma {:induction false} WalkFallsShort<T(!new)>(rows: seq<T>, left: (int, T) -> bool, page: int, visited: seq<T>,
                                                   size: nat)
    requires size >= 1 && page >= 1 && LeavesForGood(left) && !NoneLeft(rows, left, size)
    requires page <= LastPage(rows, size) && |visited| <= (page - 1) * size
    requires SomeLeft(rows, left, page, visited)
             || ((page - 1) * size <= |rows| && visited == rows[..(page - 1) * size])
    ensures |Walk(rows, left, page, visited, size)| < |rows|
    decreases |rows| - (page - 1) * size
  {
    var last, seen := LastPage(rows, size), Seen(rows, left, page, visited);
    var items := FetchPage(seen, page, size).items;
    ExactPagesIsLeast(|rows|, size);
    FewerSeen(rows, left, page, visited);
    HasNextPageIff(seen, page, size);
    PageLength(seen, page, size);
    assert page * size == (page - 1) * size + size;
    if page * size < |seen| {
      PageBefore(|rows|, last, page, size);
      if SomeLeft(rows, left, page, visited) {
        var i :| 0 <= i < |rows| && rows[i] in visited && left(page, rows[i]);
        assert rows[i] in visited + items && left(page + 1, rows[i]);
      } else {
        NextItems(rows, page, size);
      }
      WalkFallsShort(rows, left, page + 1, visited + items, size);
    } else if page < last {
      Ordered(page, last - 1, size);
    }
  }

  /**
   The loop visits every row, in order, if and only if at the fetch of the last page
   no row of the pages before it has left; otherwise it visits fewer rows than there are.
   */
  lemma WalkVisitsAllIff<T(!new)>(rows: seq<T>, left: (int, T) -> bool, size: nat)
    requires size >= 1 && LeavesForGood(left)
    ensures Walk(rows, left, 1, [], size) == rows <==> NoneLeft(rows, left, size)
    ensures !NoneLeft(rows, left, size) ==> |Walk(rows, left, 1, [], size)| < |rows|
  {
    ExactPagesIsLeast(|rows|, size);
    if NoneLeft(rows, left, size) {
      assert rows[..0] == [];
      WalkVisitsAll(rows, left, 1, size);
    } else {
      WalkFallsShort(rows, left, 1, [], size);
    }
  }
}

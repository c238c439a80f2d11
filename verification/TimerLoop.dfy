/** The timer loop of the job manager (client/job_manager.go, runWithTimerInternal). */
module TimerLoop {
  import opened CronSearch
  import opened CronLaws

  /**
   One pass: the clock when the next run is computed, when the wait is computed, when
   the callback starts and when it ends; and whether the context ends during the wait.
   */
  datatype Lap = Lap(now: int, until: int, fired: int, done: int, cancelled: bool)

  /** The clock never goes back, and a timer set for the time up to the next run never fires before it. */
  ghost predicate Honest(expr: string, laps: seq<Lap>) {
    && (forall i :: 0 <= i < |laps| ==>
          && laps[i].now <= laps[i].until <= laps[i].fired <= laps[i].done
          && NextRun(expr, laps[i].now) <= laps[i].fired)
    && (forall i :: 0 < i < |laps| ==> laps[i - 1].done <= laps[i].now)
  }

  /** The pass has to wait, and the context ends meanwhile. */
  ghost predicate Interrupted(expr: string, lap: Lap) {
    lap.until < NextRun(expr, lap.now) && lap.cancelled
  }

  /** The first runs, up to an interrupted pass: each has its own next run, and its callback. */
  ghost predicate Ran(expr: string, laps: seq<Lap>, targets: seq<int>) {
    && |targets| <= |laps|
    && (forall i :: 0 <= i < |targets| ==> targets[i] == NextRun(expr, laps[i].now) && !Interrupted(expr, laps[i]))
  }

  /** The run times for which the callback is called, in order, until the first interrupted pass. */
  method RunWithTimer(expr: string, laps: seq<Lap>) returns (targets: seq<int>, stopped: bool)
    requires Honest(expr, laps)
    ensures Ran(expr, laps, targets)
    ensures if stopped then |targets| < |laps| && Interrupted(expr, laps[|targets|]) else |targets| == |laps|
    ensures forall i :: 0 <= i < |targets| ==> laps[i].now < targets[i] <= laps[i].fired
    ensures forall i, k :: 0 <= i < k < |targets| ==> targets[i] < targets[k]
  {
    targets, stopped := [], false;
    for i := 0 to |laps|
      invariant |targets| == i && Ran(expr, laps, targets)
      invariant forall k :: 0 <= k < i ==> laps[k].now < targets[k] <= laps[k].fired
      invariant forall k, m :: 0 <= k < m < i ==> targets[k] < targets[m]
    {
      var next := CalculateNextRun(expr, laps[i].now);
      NextRunIsLater(expr, laps[i].now);
      assert i > 0 ==> targets[i - 1] <= laps[i - 1].fired <= laps[i].now < next;
      var duration := next - laps[i].until;
      if duration > 0 && laps[i].cancelled {
        return targets, true;
      }
      targets := targets + [next];
    }
  }

  ghost predicate Repeats(expr: string) {
    ScheduleOf(expr).Some? && Satisfiable(ScheduleOf(expr).value)
  }

  /** From a time between two consecutive matching minutes the search finds the later one. */
  lemma NextRunBetween(expr: string, target: int, now: int)
    requires Repeats(expr) && target <= now < NextRun(expr, target)
    ensures NextRun(expr, now) == NextRun(expr, target)
  {
    var a := NextRunIsFirst(expr, target);
    var b := NextRunIsFirst(expr, now);
    assert a <= b && b <= a;
  }

  /** A pass follows on the one before exactly when the callback returned before the next matching minute. */
  lemma NoRunSkippedIff(expr: string, laps: seq<Lap>, targets: seq<int>, i: nat)
    requires Repeats(expr) && Honest(expr, laps) && Ran(expr, laps, targets) && i + 1 < |targets|
    ensures targets[i + 1] == NextRun(expr, targets[i]) <==> laps[i + 1].now < NextRun(expr, targets[i])
  {
    var later := laps[i + 1].now;
    assert later == laps[i + 1].now && laps[(i + 1) - 1].done <= later;
    assert targets[i] <= later;
    NextRunIsLater(expr, later);
    if later < NextRun(expr, targets[i]) {
      NextRunBetween(expr, targets[i], later);
    }
  }

  /** No matching minute lies strictly between a time and its next run. */
  lemma NoMatchBetween(expr: string, target: int, t: int)
    requires Repeats(expr) && Matches(ScheduleOf(expr).value, t)
    requires t * NS_PER_MINUTE < NextRun(expr, target)
    ensures t * NS_PER_MINUTE <= target
  {
    var first := NextRunIsFirst(expr, target);
  }

  /** If every callback returns in time, every matching minute from the first run to run `n` is run. */
  lemma {:induction false} EveryMinuteRuns(expr: string, laps: seq<Lap>, targets: seq<int>, n: nat, t: int)
    requires Repeats(expr) && Honest(expr, laps) && Ran(expr, laps, targets) && n < |targets|
    requires forall k :: 0 < k < |targets| ==> laps[k].now < NextRun(expr, targets[k - 1])
    requires Matches(ScheduleOf(expr).value, t) && targets[0] <= t * NS_PER_MINUTE <= targets[n]
    ensures exists k :: 0 <= k <= n && targets[k] == t * NS_PER_MINUTE
    decreases n
  {
    if t * NS_PER_MINUTE != targets[n] {
      NoRunSkippedIff(expr, laps, targets, n - 1);
      NoMatchBetween(expr, targets[n - 1], t);
      EveryMinuteRuns(expr, laps, targets, n - 1, t);
    }
  }
}

/** The statistics panel (`TaskStatsComponent`): counts over the task list
    it is given, and the completion percentage. */
module TaskStats {
  import opened Domain
  import opened Sequences

  /** `totalTasks`: every task is counted once, as completed or as pending. */
  function TotalTasks(tasks: seq<Task>): (n: nat)
    ensures n == |Filter(tasks, IsCompleted)| + |Filter(tasks, IsPending)|
  {
    FilterSplit(tasks, IsCompleted, IsPending);
    |tasks|
  }

  /** `completedTasks`: how many tasks are completed. */
  function CompletedTasks(tasks: seq<Task>): (n: nat)
    ensures n <= TotalTasks(tasks)
  {
    |Filter(tasks, IsCompleted)|
  }

  /** `pendingTasks`: how many tasks are not completed. */
  function PendingTasks(tasks: seq<Task>): (n: nat)
    ensures n <= TotalTasks(tasks)
  {
    |Filter(tasks, IsPending)|
  }

  /** Every task is counted once, as completed or as pending. */
  lemma TotalIsCompletedPlusPending(tasks: seq<Task>)
    ensures TotalTasks(tasks) == CompletedTasks(tasks) + PendingTasks(tasks)
  {
    FilterSplit(tasks, IsCompleted, IsPending);
  }

  /** `completionPercentage`: 0 for an empty list, otherwise
      `Math.round(completed / total * 100)`, i.e. the nearest integer with
      halves rounded up, in integer arithmetic. */
  function CompletionPercentage(tasks: seq<Task>): (pct: nat)
    ensures pct <= 100
    ensures |tasks| == 0 ==> pct == 0
    ensures |tasks| > 0 ==>
      |tasks| * (2 * pct - 1) <= 200 * CompletedTasks(tasks) < |tasks| * (2 * pct + 1)
  {
    var total := TotalTasks(tasks);
    if total == 0 then 0 else RoundedPercent(CompletedTasks(tasks), total)
  }

  /** `Math.round(part / whole * 100)` for `0 <= part <= whole`, `whole > 0`. */
  function RoundedPercent(part: nat, whole: nat): (pct: nat)
    requires 0 < whole && part <= whole
    ensures pct <= 100
    ensures whole * (2 * pct - 1) <= 200 * part < whole * (2 * pct + 1)
  {
    var pct := (200 * part + whole) / (2 * whole);
    DivBounds(200 * part + whole, 2 * whole);
    QuotientBelow(200 * part + whole, 2 * whole, 101);
    pct
  }

  /** Integer division brackets its dividend. */
  lemma DivBounds(a: nat, b: nat)
    requires b > 0
    ensures b * (a / b) <= a < b * (a / b) + b
  {
  }

  /** A dividend below `b * c` has a quotient below `c`. */
  lemma QuotientBelow(a: nat, b: nat, c: nat)
    requires b > 0 && a < b * c
    ensures a / b < c
  {
  }

  /** A quotient is pinned down by the multiples that bracket the dividend. */
  lemma QuotientIs(a: nat, b: nat, q: nat)
    requires b > 0 && b * q <= a < b * q + b
    ensures a / b == q
  {
    var d := a / b;
    DivBounds(a, b);
    assert b * (q - d) < b && b * (d - q) < b by {
      assert b * (q - d) == b * q - b * d;
      assert b * (d - q) == b * d - b * q;
    }
    BelowFactor(b, q - d);
    BelowFactor(b, d - q);
  }

  /** A multiple of `b` below `b` has a factor below one. */
  lemma BelowFactor(b: nat, k: int)
    requires b > 0 && b * k < b
    ensures k < 1
  {
  }

  /** All tasks completed: 100 percent. */
  lemma AllCompletedIsHundred(tasks: seq<Task>)
    requires |tasks| > 0
    requires forall t :: t in tasks ==> t.completed
    ensures CompletionPercentage(tasks) == 100
  {
    FilterKeepsAll(tasks, IsCompleted);
    var n := |tasks|;
    QuotientIs(200 * n + n, 2 * n, 100);
  }

  /** No task completed: 0 percent. */
  lemma NoneCompletedIsZero(tasks: seq<Task>)
    requires forall t :: t in tasks ==> !t.completed
    ensures CompletionPercentage(tasks) == 0
  {
    FilterDropsAll(tasks, IsCompleted);
    var n := |tasks|;
    if n > 0 {
      QuotientIs(n, 2 * n, 0);
    }
  }
}

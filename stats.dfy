/**
 * The counts `get_stats` reports: the counting comprehensions
 * `sum(1 for t in self.tasks if ...)` and the totals derived from them.
 */
module Stats {
  import opened Tasks

  /** The conditions the source counts tasks by. */
  datatype Criterion = IsCompleted | IsPending | HasPriority(p: Priority)

  predicate Holds(t: Task, c: Criterion)
  {
    match c
    case IsCompleted => t.completed
    case IsPending => !t.completed
    case HasPriority(p) => t.priority == p
  }

  /** `sum(1 for t in ts if <c>)`, taken from the end of the list. */
  function Count(ts: seq<Task>, c: Criterion): (n: nat)
    ensures n <= |ts|
  {
    if ts == [] then 0
    else Count(ts[..|ts| - 1], c) + (if Holds(ts[|ts| - 1], c) then 1 else 0)
  }

  /** The positions whose task meets `c`: an independent description of what `Count` counts. */
  function Positions(ts: seq<Task>, c: Criterion): set<int>
  {
    set i | 0 <= i < |ts| && Holds(ts[i], c)
  }

  lemma {:induction false} CountIsPositions(ts: seq<Task>, c: Criterion)
    ensures Count(ts, c) == |Positions(ts, c)|
  {
    if ts != [] {
      var n := |ts| - 1;
      CountIsPositions(ts[..n], c);
      PositionsOfLast(ts, c);
    }
  }

  /** The positions of a non-empty list are those of all but its last element, plus possibly the last. */
  lemma PositionsOfLast(ts: seq<Task>, c: Criterion)
    requires ts != []
    ensures Holds(ts[|ts| - 1], c) ==> Positions(ts, c) == Positions(ts[..|ts| - 1], c) + {|ts| - 1}
    ensures !Holds(ts[|ts| - 1], c) ==> Positions(ts, c) == Positions(ts[..|ts| - 1], c)
    ensures |ts| - 1 !in Positions(ts[..|ts| - 1], c)
  {
    var n := |ts| - 1;
    assert forall i :: 0 <= i < n ==> ts[..n][i] == ts[i];
  }

  /** Every task is either completed or pending. */
  lemma {:induction false} CompletedPlusPending(ts: seq<Task>)
    ensures Count(ts, IsCompleted) + Count(ts, IsPending) == |ts|
  {
    if ts != [] {
      CompletedPlusPending(ts[..|ts| - 1]);
    }
  }

  /** Every task has exactly one of the three priorities. */
  lemma {:induction false} PrioritiesSum(ts: seq<Task>)
    ensures Count(ts, HasPriority(High)) + Count(ts, HasPriority(Medium)) + Count(ts, HasPriority(Low)) == |ts|
  {
    if ts != [] {
      PrioritiesSum(ts[..|ts| - 1]);
    }
  }

  /** The dictionary `get_stats` returns. */
  datatype TaskStats = TaskStats(total: nat, completed: nat, pending: int, high: nat, medium: nat, low: nat)

  function StatsOf(ts: seq<Task>): (s: TaskStats)
    ensures s.total == |ts| && s.pending == s.total - s.completed
    ensures s.completed == |Positions(ts, IsCompleted)|
    ensures s.pending == |Positions(ts, IsPending)| && s.pending >= 0
    ensures s.high == |Positions(ts, HasPriority(High))|
    ensures s.medium == |Positions(ts, HasPriority(Medium))|
    ensures s.low == |Positions(ts, HasPriority(Low))|
    ensures s.high + s.medium + s.low == s.total
  {
    CountIsPositions(ts, IsCompleted);
    CountIsPositions(ts, IsPending);
    CountIsPositions(ts, HasPriority(High));
    CountIsPositions(ts, HasPriority(Medium));
    CountIsPositions(ts, HasPriority(Low));
    CompletedPlusPending(ts);
    PrioritiesSum(ts);
    var total := |ts|;
    var completed := Count(ts, IsCompleted);
    TaskStats(total, completed, total - completed,
              Count(ts, HasPriority(High)), Count(ts, HasPriority(Medium)), Count(ts, HasPriority(Low)))
  }
}

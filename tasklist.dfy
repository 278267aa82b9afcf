/**
 * Facts about the ordered task list that `TaskManager.tasks` holds: the first
 * task with a given id (the scans of `get_task` and `delete_task`), removal of
 * one position (`del self.tasks[i]`) and the id invariants of the store.
 */
module TaskList {
  import opened Tasks

  predicate HasId(ts: seq<Task>, id: int)
  {
    exists k :: 0 <= k < |ts| && ts[k].id == id
  }

  /** The position of the first task whose id is `id`, or `|ts|` when there is none. */
  function FirstIndex(ts: seq<Task>, id: int): (i: nat)
    ensures i <= |ts|
    ensures i < |ts| ==> ts[i].id == id
    ensures forall j :: 0 <= j < i ==> ts[j].id != id
    ensures i == |ts| <==> !HasId(ts, id)
  {
    if ts == [] then 0
    else if ts[0].id == id then 0
    else 1 + FirstIndex(ts[1..], id)
  }

  /** The list without its element at position `i`; the others keep their order. */
  function RemoveAt(ts: seq<Task>, i: nat): (r: seq<Task>)
    requires i < |ts|
    ensures |r| == |ts| - 1
    ensures forall j :: 0 <= j < i ==> r[j] == ts[j]
    ensures forall j :: i <= j < |r| ==> r[j] == ts[j + 1]
    ensures multiset(r) + multiset{ts[i]} == multiset(ts)
  {
    assert ts == ts[..i] + [ts[i]] + ts[i + 1..];
    ts[..i] + ts[i + 1..]
  }

  /** Every id is below `bound` (the store's `next_id`). */
  predicate IdsBelow(ts: seq<Task>, bound: int)
  {
    forall k :: 0 <= k < |ts| ==> ts[k].id < bound
  }

  predicate UniqueIds(ts: seq<Task>)
  {
    forall j, k :: 0 <= j < k < |ts| ==> ts[j].id != ts[k].id
  }

  /** Ids grow along the list, as `add_task` hands them out. */
  predicate IdsIncreasing(ts: seq<Task>)
  {
    forall j, k :: 0 <= j < k < |ts| ==> ts[j].id < ts[k].id
  }

  predicate AllWellFormed(ts: seq<Task>)
  {
    forall k :: 0 <= k < |ts| ==> WellFormed(ts[k])
  }

  lemma IncreasingIsUnique(ts: seq<Task>)
    requires IdsIncreasing(ts)
    ensures UniqueIds(ts)
  {
  }

  /** Appending a task whose id is the current bound keeps every id invariant, with the bound one higher. */
  lemma AppendKeepsInvariants(ts: seq<Task>, t: Task, bound: int)
    requires IdsBelow(ts, bound) && t.id == bound
    ensures IdsBelow(ts + [t], bound + 1)
    ensures UniqueIds(ts) ==> UniqueIds(ts + [t])
    ensures IdsIncreasing(ts) ==> IdsIncreasing(ts + [t])
    ensures AllWellFormed(ts) && WellFormed(t) ==> AllWellFormed(ts + [t])
  {
  }

  /** Removing one task keeps every id invariant with the same bound. */
  lemma RemoveAtKeepsInvariants(ts: seq<Task>, i: nat, bound: int)
    requires i < |ts|
    ensures IdsBelow(ts, bound) ==> IdsBelow(RemoveAt(ts, i), bound)
    ensures UniqueIds(ts) ==> UniqueIds(RemoveAt(ts, i))
    ensures IdsIncreasing(ts) ==> IdsIncreasing(RemoveAt(ts, i))
    ensures AllWellFormed(ts) ==> AllWellFormed(RemoveAt(ts, i))
  {
  }

  /** Completing the task at position `i` keeps the id bound, unique ids, increasing ids and well-formedness. */
  lemma CompleteAtKeepsInvariants(ts: seq<Task>, i: nat, now: string, bound: int)
    requires i < |ts|
    ensures IdsBelow(ts, bound) ==> IdsBelow(ts[i := MarkCompleted(ts[i], now)], bound)
    ensures UniqueIds(ts) ==> UniqueIds(ts[i := MarkCompleted(ts[i], now)])
    ensures IdsIncreasing(ts) ==> IdsIncreasing(ts[i := MarkCompleted(ts[i], now)])
    ensures AllWellFormed(ts) ==> AllWellFormed(ts[i := MarkCompleted(ts[i], now)])
  {
  }
}

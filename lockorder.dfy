/**
 * The order in which `delete_task` takes the store's lock and calls
 * `save_tasks` (task_manager.py:152-159). `threading.Lock` is not reentrant:
 * a thread that asks for it while holding it waits forever. As written,
 * `delete_task` calls `save_tasks` from inside its own `with self.lock:`
 * block, and `save_tasks` begins with `with self.lock:`. This module models
 * that call sequence on one thread, and the corrected order that the rest
 * of the model follows (`add_task` and `complete_task` already release the
 * lock before saving).
 */
module LockOrder {
  import opened Wrappers
  import opened Tasks
  import opened TaskList
  import opened Persistence

  /** How a call made by one thread ends. */
  datatype Run<T> = Returns(value: T) | Blocks

  /** `save_tasks` entered while the caller holds the lock (`held`) or not. */
  function SaveTasksRun(held: bool, ts: seq<Task>, stamp: string, queue: seq<Json>): (r: Run<seq<Json>>)
    ensures r.Blocks? <==> held
    ensures r.Returns? ==> |r.value| == |queue| + 1 && r.value[..|queue|] == queue
    ensures r.Returns? ==> LoadFile(Parsed(r.value[|queue|])) == Success(ts)
  {
    if held then Blocks
    else Returns(queue + [Document(ts, LastSave, stamp)])
  }

  /** What `delete_task` leaves behind: its answer, the task list and the save queue. */
  datatype DeleteEnd = DeleteEnd(found: bool, tasks: seq<Task>, queue: seq<Json>)

  /** `delete_task` as written: scan, `del` and `save_tasks` all inside one `with self.lock:`. */
  function DeleteTaskAsWritten(ts: seq<Task>, id: int, stamp: string, queue: seq<Json>): Run<DeleteEnd>
  {
    var i := FirstIndex(ts, id);
    if i == |ts| then Returns(DeleteEnd(false, ts, queue))
    else
      match SaveTasksRun(true, RemoveAt(ts, i), stamp, queue)
      case Blocks => Blocks
      case Returns(q) => Returns(DeleteEnd(true, RemoveAt(ts, i), q))
  }

  /** As written, deleting a task that exists never returns; only the "not found" answer comes back. */
  lemma DeleteAsWrittenBlocks(ts: seq<Task>, id: int, stamp: string, queue: seq<Json>)
    ensures DeleteTaskAsWritten(ts, id, stamp, queue).Blocks? <==> HasId(ts, id)
    ensures !HasId(ts, id) ==> DeleteTaskAsWritten(ts, id, stamp, queue) == Returns(DeleteEnd(false, ts, queue))
  {
  }

  /** A concrete input: a one-task store asked to delete that task. */
  lemma DeleteAsWrittenExample()
    ensures DeleteTaskAsWritten([NewTask(1, "Smazat", "01.01.2025 10:00")], 1, "01.01.2025 10:00:01", []) == Blocks
  {
  }

  /** `delete_task` with `save_tasks` called after the `with` block, as the other mutators do. */
  function DeleteTaskReleased(ts: seq<Task>, id: int, stamp: string, queue: seq<Json>): (r: Run<DeleteEnd>)
    ensures r.Returns?
    ensures r.value.found <==> HasId(ts, id)
    ensures r.value.found ==>
              r.value.tasks == RemoveAt(ts, FirstIndex(ts, id)) &&
              |r.value.queue| == |queue| + 1 && r.value.queue[..|queue|] == queue &&
              LoadFile(Parsed(r.value.queue[|queue|])) == Success(r.value.tasks)
    ensures !r.value.found ==> r.value.tasks == ts && r.value.queue == queue
  {
    var i := FirstIndex(ts, id);
    if i == |ts| then Returns(DeleteEnd(false, ts, queue))
    else
      var rest := RemoveAt(ts, i);
      match SaveTasksRun(false, rest, stamp, queue)
      case Returns(q) => Returns(DeleteEnd(true, rest, q))
  }
}

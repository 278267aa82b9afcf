# Task tracker store, modelled in Dafny

This project models the task store of a single-user task tracker (`task_manager.py`):

- a **task** has an id, a name, a creation time, a completion flag and time, a priority and a time-spent counter;
- the **priority** is one of three values, stored as the strings `nízká`, `střední` and `vysoká`;
- the **flat record** is what a task is saved as (`to_dict` / `from_dict`);
- the **`TaskManager`** keeps the ordered task list and the `next_id` counter;
- the **save queue** carries snapshots from each mutation to the auto-save worker, which overwrites the data file;
- **`stop`** drains the queue, then queues one final snapshot.

The model has no threads. The lock is absent and every operation runs atomically. The save queue is a FIFO sequence of saved documents. One round of the auto-save worker's loop is the method `WriteNext`. The data file is a field holding the last document written. Timestamps are parameters supplied by the caller, so creation and completion are deterministic.

Modules:

- `Wrappers`: `Option` and `Result`.
- `Tasks`: `Priority`, `Task`, the `Json` values a record holds, `ToDict` / `FromDict` and their round trip.
- `TaskList`: the first task with a given id, removal of one position, and the id invariants (ids below `next_id`, unique ids, increasing ids, well-formed completion fields).
- `Persistence`: the saved/exported document, the data file as `load_tasks` finds it, decoding, the whole-collection round trip, and `max` over the ids.
- `Stats`: the counts of `get_stats`, with an independent definition by positions and the count identities.
- `LockOrder`: the lock order of `delete_task` as written (it blocks forever) and the corrected order.
- `Manager`: the class `TaskManager`, whose invariant `Valid()` says:
  - every id is below `nextId`;
  - the documents written, followed by those still queued, are exactly the documents ever queued, in order;
  - the file holds the last document written.

  `Valid()` does not require unique ids or well-formed completion fields. `load_tasks` accepts a file with repeated ids, or with a completion time that disagrees with the flag (task_manager.py:81-83). So each mutator promises only to keep these properties when they already held.
- `Scenarios`: the unit tests of `test_task_manager.py`, replayed against the model.

Three behaviours of the code that a reader might expect to be otherwise:

- **Loading a bad document.** The data file is treated as empty when it is missing, when it is not JSON, or when its `tasks` value is empty, because then the loop does not run. The source catches only these two errors (`FileNotFoundError`, `json.JSONDecodeError`). Any other bad document makes `load_tasks` raise out of the constructor, so `Manager.TaskManager.Open` returns `Failure`. Such documents include one without a `tasks` key, a record missing a key, and an unknown priority string. After an empty load `next_id` stays 1.
- **No name check.** `add_task` does not check the name. Only the menu rejects empty names (cli_interface.py:27-31), so the model has no name precondition.
- **Delete deadlock.** `delete_task` deadlocks in the source; see "## Findings". `Manager.TaskManager.DeleteTask` removes the task, releases the lock, then queues the snapshot.

## Model

| member | source | states |
|---|---|---|
| `Tasks.ParsePriority` | task_manager.py:8-11 | `Priority(s)` succeeds exactly for the three wire strings, and the priority it yields has `s` as its value |
| `Tasks.ParsePriorityValue` | task_manager.py:8-11 | `Priority(p.value) == p` for each of the three priorities |
| `Tasks.NewTask` | task_manager.py:14-21 | a new task carries the given id, name and creation time; it is not completed, has no completion time, priority MEDIUM and time spent 0; it is well formed (completion time present iff completed) |
| `Tasks.MarkCompleted` | task_manager.py:23-25 | completing sets the flag and records the given time; the result is well formed; id, name, creation time, priority and time spent are unchanged |
| `Tasks.MarkCompletedTwice` | task_manager.py:23-25 | completing twice equals completing once at the later time; with different times it differs from the first completion, so the operation is not idempotent |
| `Tasks.ToDict` | task_manager.py:27-36 | a record has exactly the seven keys; the priority is stored as its wire string; the completion time is stored as null when absent |
| `Tasks.FromDict` | task_manager.py:38-46 | a record that decodes has all seven keys and agrees with the decoded task's record on each; an unusable priority value makes decoding fail |
| `Tasks.FromDictToDict` | task_manager.py:27-46 | `from_dict(to_dict(t))` gives back `t`, field for field |
| `Tasks.ToDictFromDict` | task_manager.py:27-46 | a record that decodes equals, on the seven keys, the record of the task it decodes to |
| `TaskList.FirstIndex` | task_manager.py:136-141 | the scan stops at the first task with the id, and no earlier task has it; it reaches the end exactly when no task has the id |
| `TaskList.RemoveAt` | task_manager.py:156 | `del tasks[i]` leaves one task fewer; the tasks before `i` stay in place; those after shift down one; the removed task is the only one missing (multiset) |
| `TaskList.AppendKeepsInvariants` | task_manager.py:128-131 | appending a task whose id is `next_id`, then incrementing, keeps every id below the new counter; it keeps ids unique, ids increasing and completion fields well formed |
| `TaskList.RemoveAtKeepsInvariants` | task_manager.py:154-156 | removing a task keeps ids below the counter, unique and increasing, and keeps completion fields well formed |
| `TaskList.CompleteAtKeepsInvariants` | task_manager.py:144-147 | completing one task keeps every id invariant and well-formedness |
| `TaskList.IncreasingIsUnique` | task_manager.py:126-131 | ids handed out in increasing order are unique |
| `Persistence.Document` | task_manager.py:88-93 | a saved or exported snapshot loads back as exactly the tasks it was made from, whichever timestamp it carries; it has exactly the `tasks` field and the one timestamp field (`last_save`, or `export_date` for an export) |
| `Persistence.DecodeTasks` | task_manager.py:81 | decoding succeeds exactly when every element is a record that decodes; the result then has one task per element, in order, each decoded from its element |
| `Persistence.LoadFile` | task_manager.py:76-86 | a missing or unparsable file loads as no tasks; a `tasks` value the loop runs zero times over (an empty array, object or string) loads as no tasks; a `tasks` array loads as its decoded records; a successful load has one of these two shapes; a document that is not an object, or lacks `tasks`, fails |
| `Persistence.DecodeEncodeTasks` | task_manager.py:81-91 | decoding the records of a task list gives back that list |
| `Persistence.MaxId` | task_manager.py:83 | the maximum id is at least every task's id and is the id of some task |
| `Persistence.NextIdAfterLoad` | task_manager.py:82-83 | after a load every loaded id is below `next_id`; a non-empty load puts it one past some loaded id (the largest); an empty load leaves it as it was |
| `Stats.CountIsPositions` | task_manager.py:167-175 | each counting comprehension equals the number of positions whose task meets the condition |
| `Stats.CompletedPlusPending` | task_manager.py:168-169 | completed and pending tasks together number all tasks |
| `Stats.PrioritiesSum` | task_manager.py:171-175 | the three priority counts sum to the number of tasks |
| `Stats.StatsOf` | task_manager.py:165-182 | `total` is the list length and `pending = total - completed`; `completed` and `pending` are the numbers of completed and uncompleted tasks, so `pending` is never negative; each priority count is the number of tasks with that priority; the three counts sum to `total` |
| `LockOrder.SaveTasksRun` | task_manager.py:88-95 | `save_tasks` blocks exactly when the caller already holds the lock; otherwise it appends one document that loads back as the tasks |
| `LockOrder.DeleteAsWrittenBlocks` | task_manager.py:152-159 | as written, `delete_task` blocks exactly when some task has the id; otherwise it returns false and changes nothing |
| `LockOrder.DeleteAsWrittenExample` | task_manager.py:152-159 | deleting the only task of a one-task store blocks |
| `LockOrder.DeleteTaskReleased` | task_manager.py:152-159 | with the save after the lock is released, delete always returns. It answers true iff some task has the id. It removes the first such task and queues one document that loads back as the remaining tasks; when no task matches, nothing changes |
| `Manager.TaskManager.constructor` | task_manager.py:50-57 | a new manager has no tasks, `next_id` 1 and an empty queue |
| `Manager.TaskManager.Open` | task_manager.py:50-59 | construction fails exactly when loading the file fails. Otherwise the manager holds the loaded tasks, with `next_id` one past the largest id (1 when there are none), and satisfies the store invariant |
| `Manager.TaskManager.LoadTasks` | task_manager.py:76-86 | on success the tasks are the loaded list; `next_id` is one past the largest loaded id, or unchanged when the list is empty; on failure nothing changes; the invariant holds |
| `Manager.TaskManager.SaveTasks` | task_manager.py:88-95 | one document, a snapshot of the current tasks, is appended at the back of the queue |
| `Manager.TaskManager.WriteNext` | task_manager.py:97-111 | the worker writes only if something is queued; it then overwrites the file with the oldest document and drops it from the queue; the write order stays the queue order |
| `Manager.TaskManager.AddTask` | task_manager.py:126-134 | succeeds iff the priority string is valid. It appends exactly one task at the end, with id = old `next_id`, the given name, creation time and priority; it increments `next_id` and queues a snapshot. An invalid priority changes nothing. Unique ids, increasing ids and well-formedness are preserved |
| `Manager.TaskManager.Find` | task_manager.py:136-141 | the loop returns the position of the first task with the id, or the length when there is none |
| `Manager.TaskManager.GetTask` | task_manager.py:136-141 | returns a task iff one has the id, and then the first such task |
| `Manager.TaskManager.CompleteTask` | task_manager.py:143-150 | returns true iff some task has the id. Then only the first such task changes: it is completed at the given time, and a snapshot is queued. Otherwise nothing changes. `next_id` never changes, and the id invariants are preserved |
| `Manager.TaskManager.DeleteTask` | task_manager.py:152-159 | returns true iff some task has the id. Then the first such task is removed, one task fewer remains and the others keep their order; a snapshot is queued. Otherwise nothing changes. `next_id` is never decreased; the id invariants are preserved |
| `Manager.TaskManager.GetAllTasks` | task_manager.py:161-163 | the snapshot is the current task list, in order |
| `Manager.TaskManager.GetStats` | task_manager.py:165-182 | the stats are those of the current tasks: total is the length, pending is total minus completed, and the priority counts sum to the total |
| `Manager.TaskManager.ExportToJson` | task_manager.py:184-197 | the export payload is the current snapshot stamped under `export_date`, and it loads back as the current tasks |
| `Manager.TaskManager.JoinQueue` | task_manager.py:211 | waiting for the queue writes every queued document, oldest first, and leaves the queue empty; the file then holds the newest of them, or is untouched if nothing was queued |
| `Manager.TaskManager.Stop` | task_manager.py:207-213 | every queued document is written, oldest first, so the file holds the newest of them; then exactly one final snapshot of the current tasks is queued |
| `Manager.StopAndWriteFinal` | task_manager.py:207-214 | after `stop` and the worker's take of the final snapshot, nothing is queued and the data file loads back as the in-memory tasks |
| `Scenarios.TaskScenario` | test_task_manager.py:9-21 | a new task has id 1, is not completed, has no completion time and priority MEDIUM; after completion it has a completion time |
| `Scenarios.AddScenario` | test_task_manager.py:50-57 | adding to an empty store gives id 1 and priority HIGH; the store then holds one task and `next_id` is 2 |
| `Scenarios.CompleteScenario` | test_task_manager.py:59-76 | task 1 is found and completed; id 99 is neither found nor completable |
| `Scenarios.DeleteScenario` | test_task_manager.py:78-86 | deleting task 1 empties the store; deleting id 99 returns false |
| `Scenarios.StatsScenario` | test_task_manager.py:88-101 | three tasks of the three priorities, one completed: total 3, completed 1, pending 2, one per priority |
| `Scenarios.StatsOfThree` | test_task_manager.py:94-101 | the counts of such a three-task list |

## Left out

- Threads, `threading.Lock`, `threading.Event` and the waits (`timeout=5`, `sleep(30)`, `sleep(1)`) are not modelled. Their point is concurrency, which this sequential model does not have; operations run atomically.
- File I/O and JSON text are not modelled: `open`, `json.load`/`json.dump`, `indent` and `ensure_ascii`. The file is a value (missing, not JSON, or a parsed JSON value), not bytes. A file that cannot be decoded as UTF-8 raises in the source and is not represented.
- Timestamp formatting with `datetime.now().strftime(...)` is not modelled; timestamps are opaque strings passed in by the caller.
- `_stats_worker` is not modelled. It only prints a ratio computed in floating point; the counts it reads are those of `Stats.StatsOf`.
- `_export_worker` and the export thread are not modelled: they only write a file. `ExportToJson` models the payload handed to the thread.
- The console output is not modelled. This covers the `print` calls at task_manager.py:73-74, 98, 107, 114, 124, 200, 205 and 208.
- The bare `except: pass` of the auto-save loop is not modelled; a failed write is not represented.
- Aliasing is not modelled. `get_task` and `get_all_tasks` return references to the same task objects (`tasks.copy()` is shallow), so a later `complete_task` shows through an earlier snapshot. In the model, tasks are values and a snapshot never changes.
- `cli_interface.py` is not part of this model. It holds the menu and dialogs, the menu-choice-to-priority mapping, the `.json` suffix and the empty-name guard. `main.py` is not part of this model either; it is process start-up.
- Tasks.FromDict: it demands the JSON types of each field: int id, string name and creation time, boolean flag, string-or-null completion time, int time spent. Python copies whatever value is there. A wrongly typed field is a `WrongType` error in the model, where the source would keep the value and perhaps fail later. A fractional `time_spent` is not represented.
- Persistence.LoadFile: the failures are reported as one error kind each: a parsed document that is not an object, and a `tasks` value other than an array or an empty object or string. In the source these are various `TypeError`s raised out of the constructor. Iterating a non-empty object or string yields keys or characters, and indexing those by `'id'` raises.
- Manager.TaskManager.JoinQueue: it assumes the worker keeps draining until the queue is empty. In the source, the worker exits at the top of its loop once the stop event is set. So `save_queue.join()` could wait forever if documents were still queued. Also, the final snapshot is written only when the worker is still blocked in `get` when it arrives. `Manager.TaskManager.Stop` relies on this drain, and `Manager.StopAndWriteFinal` gives the worker the last round explicitly.

## Findings

| source | as written | input that shows it | evidently intended | confidence | as-written member | corrected member |
|---|---|---|---|---|---|---|
| task_manager.py:152-159 | `delete_task` calls `save_tasks` inside its own `with self.lock:` block, and `save_tasks` starts with `with self.lock:` on the same non-reentrant `threading.Lock`, so the thread waits for itself forever | a store holding task 1; `delete_task(1)` | remove the task, release the lock, queue a snapshot and return `True`, as `add_task` and `complete_task` do and as test_task_manager.py:78-83 expects | high; not executed | `LockOrder.DeleteTaskAsWritten` (shown by `LockOrder.DeleteAsWrittenBlocks`, `LockOrder.DeleteAsWrittenExample`) | `LockOrder.DeleteTaskReleased`, which `Manager.TaskManager.DeleteTask` is proved to follow |

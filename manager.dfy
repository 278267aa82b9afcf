/**
 * `TaskManager` of task_manager.py as a sequential object. The lock is absent
 * (every operation runs atomically), the save queue is a FIFO sequence of
 * saved documents, and the auto-save worker is the method `WriteNext`, one
 * round of its loop, which overwrites `dataFile`.
 */
module Manager {
  import opened Wrappers
  import opened Tasks
  import opened TaskList
  import opened Persistence
  import opened Stats
  import LockOrder

  class TaskManager {
    /** `self.tasks`: the tasks in insertion order. */
    var tasks: seq<Task>
    /** `self.next_id`: the id the next added task gets. */
    var nextId: int
    /** `self.save_queue`: documents waiting for the auto-save worker, oldest first. */
    var saveQueue: seq<Json>
    /** The primary data file (`tasks.json`). */
    var dataFile: StoredFile
    /** Every document ever put on the queue, and every one the worker has written, in order. */
    ghost var enqueued: seq<Json>
    ghost var written: seq<Json>

    /**
     * The store's invariant: every id is below `next_id`; the worker writes
     * documents in the order they were queued; the file holds the last one written.
     */
    ghost predicate Valid()
      reads this
    {
      IdsBelow(tasks, nextId) &&
      written + saveQueue == enqueued &&
      (written != [] ==> dataFile == Parsed(written[|written| - 1]))
    }

    /** The field defaults of `__init__`, before `load_tasks` runs. */
    constructor (file: StoredFile)
      ensures Valid()
      ensures tasks == [] && nextId == 1 && saveQueue == [] && dataFile == file
      ensures enqueued == [] && written == []
    {
      tasks := [];
      nextId := 1;
      saveQueue := [];
      dataFile := file;
      enqueued := [];
      written := [];
    }

    /**
     * `__init__`: the defaults, then `load_tasks`. An exception that
     * `load_tasks` lets through leaves the constructor, so no manager exists.
     */
    static method Open(file: StoredFile) returns (r: Result<TaskManager, DecodeError>)
      ensures r.Failure? <==> LoadFile(file).Failure?
      ensures r.Failure? ==> r.error == LoadFile(file).error
      ensures r.Success? ==>
                fresh(r.value) && r.value.Valid() &&
                r.value.tasks == LoadFile(file).value &&
                r.value.nextId == NextIdAfterLoad(r.value.tasks, 1) &&
                r.value.saveQueue == [] && r.value.dataFile == file
    {
      var m := new TaskManager(file);
      var err := m.LoadTasks();
      if err.Some? {
        r := Failure(err.value);
      } else {
        r := Success(m);
      }
    }

    /**
     * `load_tasks`: replace the tasks with those of the data file and move
     * `next_id` past the largest loaded id; an empty result leaves `next_id`
     * alone. A document that does not decode is an error and changes nothing.
     */
    method LoadTasks() returns (err: Option<DecodeError>)
      requires Valid()
      modifies this`tasks, this`nextId
      ensures Valid()
      ensures err.None? <==> LoadFile(dataFile).Success?
      ensures err.None? ==>
                tasks == LoadFile(dataFile).value &&
                nextId == NextIdAfterLoad(tasks, old(nextId))
      ensures err.Some? ==> err.value == LoadFile(dataFile).error && tasks == old(tasks) && nextId == old(nextId)
    {
      var loaded := LoadFile(dataFile);
      if loaded.Failure? {
        return Some(loaded.error);
      }
      tasks := loaded.value;
      nextId := NextIdAfterLoad(tasks, nextId);
      err := None;
    }

    /** `save_tasks`: queue a snapshot of the current tasks, stamped `saveStamp`. */
    method SaveTasks(saveStamp: string)
      requires Valid()
      modifies this`saveQueue, this`enqueued
      ensures Valid()
      ensures saveQueue == old(saveQueue) + [Document(tasks, LastSave, saveStamp)]
      ensures enqueued == old(enqueued) + [Document(tasks, LastSave, saveStamp)]
    {
      var doc := Document(tasks, LastSave, saveStamp);
      saveQueue := saveQueue + [doc];
      enqueued := enqueued + [doc];
    }

    /**
     * One round of `_auto_save_worker`: take the oldest queued document and
     * overwrite the data file with it. With nothing queued the `get` times
     * out, the bare `except` swallows it, and nothing changes.
     */
    method WriteNext() returns (wrote: bool)
      requires Valid()
      modifies this`saveQueue, this`dataFile, this`written
      ensures Valid()
      ensures wrote <==> old(saveQueue) != []
      ensures wrote ==>
                dataFile == Parsed(old(saveQueue)[0]) &&
                saveQueue == old(saveQueue)[1..] &&
                written == old(written) + [old(saveQueue)[0]]
      ensures !wrote ==> saveQueue == old(saveQueue) && dataFile == old(dataFile) && written == old(written)
    {
      if saveQueue == [] {
        return false;
      }
      var doc := saveQueue[0];
      dataFile := Parsed(doc);
      saveQueue := saveQueue[1..];
      written := written + [doc];
      assert written + saveQueue == old(written) + old(saveQueue);
      wrote := true;
    }

    /**
     * `add_task`: a new task with id `next_id`, creation time `stamp` and the
     * priority named by `priority`, appended at the end; then a snapshot is
     * queued. An unknown priority string raises before anything changes.
     * The name is not checked here (the menu rejects empty names).
     */
    method AddTask(name: string, stamp: string, saveStamp: string, priority: string := "střední")
      returns (r: Result<Task, DecodeError>)
      requires Valid()
      modifies this`tasks, this`nextId, this`saveQueue, this`enqueued
      ensures Valid()
      ensures r.Success? <==> ParsePriority(priority).Some?
      ensures r.Success? ==>
                r.value == NewTask(old(nextId), name, stamp).(priority := ParsePriority(priority).value) &&
                tasks == old(tasks) + [r.value] &&
                nextId == old(nextId) + 1 &&
                saveQueue == old(saveQueue) + [Document(tasks, LastSave, saveStamp)]
      ensures r.Failure? ==>
                r.error == InvalidPriority(JStr(priority)) &&
                tasks == old(tasks) && nextId == old(nextId) && saveQueue == old(saveQueue)
      ensures old(UniqueIds(tasks)) ==> UniqueIds(tasks)
      ensures old(IdsIncreasing(tasks)) ==> IdsIncreasing(tasks)
      ensures old(AllWellFormed(tasks)) ==> AllWellFormed(tasks)
    {
      var p := ParsePriority(priority);
      if p.None? {
        return Failure(InvalidPriority(JStr(priority)));
      }
      var task := NewTask(nextId, name, stamp).(priority := p.value);
      AppendKeepsInvariants(tasks, task, nextId);
      tasks := tasks + [task];
      nextId := nextId + 1;
      SaveTasks(saveStamp);
      r := Success(task);
    }

    /** The linear scan of `get_task` and `delete_task`: the position of the first task with id `id`, or `|tasks|`. */
    method Find(id: int) returns (i: nat)
      ensures i == FirstIndex(tasks, id)
    {
      i := 0;
      while i < |tasks| && tasks[i].id != id
        invariant i <= |tasks|
        invariant forall j :: 0 <= j < i ==> tasks[j].id != id
      {
        i := i + 1;
      }
    }

    /** `get_task`: the first task with id `id`, or `None`. */
    method GetTask(id: int) returns (r: Option<Task>)
      ensures r.Some? <==> HasId(tasks, id)
      ensures r.Some? ==> r.value.id == id && r.value == tasks[FirstIndex(tasks, id)]
    {
      var i := Find(id);
      if i < |tasks| {
        r := Some(tasks[i]);
      } else {
        r := None;
      }
    }

    /**
     * `complete_task`: mark the first task with id `id` completed at `stamp`
     * and queue a snapshot; `false`, and no change, when there is none.
     * Completing a completed task again overwrites its completion time.
     */
    method CompleteTask(id: int, stamp: string, saveStamp: string) returns (ok: bool)
      requires Valid()
      modifies this`tasks, this`saveQueue, this`enqueued
      ensures Valid()
      ensures ok <==> old(HasId(tasks, id))
      ensures ok ==>
                var i := FirstIndex(old(tasks), id);
                tasks == old(tasks)[i := MarkCompleted(old(tasks)[i], stamp)] &&
                saveQueue == old(saveQueue) + [Document(tasks, LastSave, saveStamp)]
      ensures !ok ==> tasks == old(tasks) && saveQueue == old(saveQueue)
      ensures nextId == old(nextId)
      ensures old(UniqueIds(tasks)) ==> UniqueIds(tasks)
      ensures old(IdsIncreasing(tasks)) ==> IdsIncreasing(tasks)
      ensures old(AllWellFormed(tasks)) ==> AllWellFormed(tasks)
    {
      var i := Find(id);
      if i == |tasks| {
        return false;
      }
      CompleteAtKeepsInvariants(tasks, i, stamp, nextId);
      tasks := tasks[i := MarkCompleted(tasks[i], stamp)];
      SaveTasks(saveStamp);
      ok := true;
    }

    /**
     * `delete_task`: remove the first task with id `id` and queue a snapshot;
     * `false`, and no change, when there is none. `next_id` never moves back,
     * so an id is not handed out twice. The source calls `save_tasks` while
     * still holding its non-reentrant lock, which blocks forever
     * (`LockOrder.DeleteTaskAsWritten`); this method saves after the lock is
     * released, as `LockOrder.DeleteTaskReleased` does.
     */
    method DeleteTask(id: int, saveStamp: string) returns (ok: bool)
      requires Valid()
      modifies this`tasks, this`saveQueue, this`enqueued
      ensures Valid()
      ensures LockOrder.DeleteTaskReleased(old(tasks), id, saveStamp, old(saveQueue))
              == LockOrder.Returns(LockOrder.DeleteEnd(ok, tasks, saveQueue))
      ensures ok <==> old(HasId(tasks, id))
      ensures ok ==> |tasks| == |old(tasks)| - 1 && multiset(tasks) + multiset{old(tasks)[FirstIndex(old(tasks), id)]} == multiset(old(tasks))
      ensures !ok ==> tasks == old(tasks)
      ensures nextId == old(nextId)
      ensures old(UniqueIds(tasks)) ==> UniqueIds(tasks)
      ensures old(IdsIncreasing(tasks)) ==> IdsIncreasing(tasks)
      ensures old(AllWellFormed(tasks)) ==> AllWellFormed(tasks)
    {
      var i := Find(id);
      if i == |tasks| {
        return false;
      }
      ghost var queued := saveQueue;
      RemoveAtKeepsInvariants(tasks, i, nextId);
      tasks := RemoveAt(tasks, i);
      SaveTasks(saveStamp);
      assert LockOrder.SaveTasksRun(false, tasks, saveStamp, queued) == LockOrder.Returns(saveQueue);
      ok := true;
    }

    /** `get_all_tasks`: the current tasks, in order. */
    method GetAllTasks() returns (s: seq<Task>)
      ensures s == tasks
    {
      s := tasks;
    }

    /** `get_stats`: the counts over the current tasks. */
    method GetStats() returns (s: TaskStats)
      ensures s == StatsOf(tasks)
      ensures s.total == |tasks| && s.pending == s.total - s.completed
      ensures s.high + s.medium + s.low == s.total
    {
      s := StatsOf(tasks);
    }

    /**
     * The payload `export_to_json` hands to its export thread: the current
     * tasks, stamped under `export_date`. It loads back as those tasks.
     */
    method ExportToJson(stamp: string) returns (doc: Json)
      ensures doc == Document(tasks, ExportDate, stamp)
      ensures LoadFile(Parsed(doc)) == Success(tasks)
    {
      doc := Document(tasks, ExportDate, stamp);
    }

    /**
     * `save_queue.join()`: wait until the worker has written every queued
     * document, oldest first.
     */
    method JoinQueue()
      requires Valid()
      modifies this`saveQueue, this`dataFile, this`written
      ensures Valid()
      ensures saveQueue == []
      ensures written == old(written) + old(saveQueue)
      ensures old(saveQueue) != [] ==> dataFile == Parsed(old(saveQueue)[|old(saveQueue)| - 1])
      ensures old(saveQueue) == [] ==> dataFile == old(dataFile)
    {
      ghost var pending := saveQueue;
      ghost var done := 0;
      while saveQueue != []
        invariant Valid()
        invariant done <= |pending| && saveQueue == pending[done..]
        invariant written == old(written) + pending[..done]
        invariant done == 0 ==> dataFile == old(dataFile)
        invariant done > 0 ==> dataFile == Parsed(pending[done - 1])
        decreases |saveQueue|
      {
        var _ := WriteNext();
        assert pending[..done + 1] == pending[..done] + [pending[done]];
        done := done + 1;
      }
      assert pending[..done] == pending;
    }

    /**
     * `stop`: drain the queue (`save_queue.join()`), then queue one final
     * snapshot of the current tasks.
     */
    method Stop(saveStamp: string)
      requires Valid()
      modifies this`saveQueue, this`dataFile, this`written, this`enqueued
      ensures Valid()
      ensures written == old(written) + old(saveQueue)
      ensures old(saveQueue) != [] ==> dataFile == Parsed(old(saveQueue)[|old(saveQueue)| - 1])
      ensures old(saveQueue) == [] ==> dataFile == old(dataFile)
      ensures saveQueue == [Document(tasks, LastSave, saveStamp)]
    {
      JoinQueue();
      SaveTasks(saveStamp);
    }
  }

  /**
   * `stop` followed by the worker's take of the final snapshot: afterwards
   * nothing is queued and the data file loads back as the in-memory tasks.
   */
  method StopAndWriteFinal(m: TaskManager, saveStamp: string)
    requires m.Valid()
    modifies m
    ensures m.Valid()
    ensures m.tasks == old(m.tasks) && m.nextId == old(m.nextId)
    ensures m.saveQueue == []
    ensures m.dataFile == Parsed(Document(m.tasks, LastSave, saveStamp))
    ensures LoadFile(m.dataFile) == Success(m.tasks)
  {
    m.Stop(saveStamp);
    var wrote := m.WriteNext();
  }
}

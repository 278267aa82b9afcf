/**
 * The unit tests of test_task_manager.py, replayed against the model on a
 * store that starts empty with `next_id` 1. Each method's postcondition is
 * what the test asserts.
 */
module Scenarios {
  import opened Wrappers
  import opened Tasks
  import opened TaskList
  import opened Persistence
  import opened Stats
  import opened Manager

  /** `test_task_creation` and `test_mark_completed`. */
  method TaskScenario() returns (created: Task, done: Task)
    ensures created.id == 1 && created.name == "Testovací úkol"
    ensures !created.completed && created.completedAt.None? && created.priority == Medium
    ensures done.completed && done.completedAt.Some?
  {
    created := NewTask(1, "Testovací úkol", "01.01.2025 10:00");
    done := MarkCompleted(NewTask(1, "Dokončit testy", "01.01.2025 10:00"), "01.01.2025 11:00");
  }

  /** `test_add_task`. */
  method AddScenario() returns (t: Task, count: nat, next: int)
    ensures t.name == "Nový úkol" && t.id == 1 && t.priority == High
    ensures count == 1 && next == 2
  {
    var m := new TaskManager(NoFile);
    var r := m.AddTask("Nový úkol", "01.01.2025 10:00", "01.01.2025 10:00:00", "vysoká");
    t := r.value;
    count := |m.tasks|;
    next := m.nextId;
  }

  /** The store `setUp` and one `add_task` leave behind. */
  method OneTaskStore(name: string) returns (m: TaskManager, t: Task)
    ensures fresh(m) && m.Valid() && m.tasks == [t] && m.nextId == 2
    ensures t.id == 1 && !t.completed
  {
    m := new TaskManager(NoFile);
    var r := m.AddTask(name, "01.01.2025 10:00", "01.01.2025 10:00:00");
    t := r.value;
  }

  /** `test_get_task` and `test_complete_task`. */
  method CompleteScenario() returns (found: Option<Task>, missing: Option<Task>, completed: bool, completedMissing: bool)
    ensures found.Some? && found.value.id == 1 && found.value.completed
    ensures missing.None?
    ensures completed && !completedMissing
  {
    var m, t := OneTaskStore("Dokončit tento úkol");
    assert FirstIndex(m.tasks, 1) == 0;
    completed := m.CompleteTask(1, "01.01.2025 11:00", "01.01.2025 11:00:00");
    assert m.tasks == [MarkCompleted(t, "01.01.2025 11:00")] && FirstIndex(m.tasks, 1) == 0;
    found := m.GetTask(1);
    missing := m.GetTask(99);
    completedMissing := m.CompleteTask(99, "01.01.2025 11:00", "01.01.2025 11:00:01");
  }

  /** `test_delete_task`. */
  method DeleteScenario() returns (before: nat, deleted: bool, after: nat, deletedMissing: bool)
    ensures before == 1 && deleted && after == 0 && !deletedMissing
  {
    var m, t := OneTaskStore("Smazat tento úkol");
    before := |m.tasks|;
    deleted := m.DeleteTask(1, "01.01.2025 12:00:00");
    after := |m.tasks|;
    deletedMissing := m.DeleteTask(99, "01.01.2025 12:00:01");
  }

  /** The store `test_get_stats` builds before completing task 1. */
  method ThreeTaskStore() returns (m: TaskManager, t1: Task, t2: Task, t3: Task)
    ensures fresh(m) && m.Valid() && m.tasks == [t1, t2, t3]
    ensures t1.id == 1 && !t1.completed && !t2.completed && !t3.completed
    ensures t1.priority == High && t2.priority == Medium && t3.priority == Low
  {
    m := new TaskManager(NoFile);
    var r1 := m.AddTask("Úkol 1", "01.01.2025 10:00", "01.01.2025 10:00:00", "vysoká");
    var r2 := m.AddTask("Úkol 2", "01.01.2025 10:01", "01.01.2025 10:01:00", "střední");
    assert m.tasks == [r1.value, r2.value];
    var r3 := m.AddTask("Úkol 3", "01.01.2025 10:02", "01.01.2025 10:02:00", "nízká");
    t1, t2, t3 := r1.value, r2.value, r3.value;
  }

  /** `test_get_stats`. */
  method StatsScenario() returns (s: TaskStats)
    ensures s.total == 3 && s.completed == 1 && s.pending == 2
    ensures s.high == 1 && s.medium == 1 && s.low == 1
  {
    var m, t1, t2, t3 := ThreeTaskStore();
    assert FirstIndex(m.tasks, 1) == 0;
    var _ := m.CompleteTask(1, "01.01.2025 11:00", "01.01.2025 11:00:00");
    assert m.tasks == [MarkCompleted(t1, "01.01.2025 11:00"), t2, t3];
    StatsOfThree(m.tasks);
    s := m.GetStats();
  }

  /** The counts over a list of three tasks like the one `test_get_stats` builds. */
  lemma StatsOfThree(ts: seq<Task>)
    requires |ts| == 3
    requires ts[0].completed && !ts[1].completed && !ts[2].completed
    requires ts[0].priority == High && ts[1].priority == Medium && ts[2].priority == Low
    ensures StatsOf(ts) == TaskStats(3, 1, 2, 1, 1, 1)
  {
    assert Positions(ts, IsCompleted) == {0};
    assert Positions(ts, IsPending) == {1, 2};
    assert Positions(ts, HasPriority(High)) == {0};
    assert Positions(ts, HasPriority(Medium)) == {1};
    assert Positions(ts, HasPriority(Low)) == {2};
  }
}

/**
 * The task entity, its priority and the flat record it is stored as
 * (`Priority`, `Task`, `Task.to_dict` and `Task.from_dict` of task_manager.py).
 */
module Tasks {
  import opened Wrappers

  /** The three priorities; each has a fixed wire string. */
  datatype Priority = Low | Medium | High

  /** `Priority.value`: the string a priority is stored as. */
  function PriorityValue(p: Priority): string
  {
    match p
    case Low => "nízká"
    case Medium => "střední"
    case High => "vysoká"
  }

  /** `Priority(s)`: the priority whose wire string is `s`; any other string is a ValueError. */
  function ParsePriority(s: string): (r: Option<Priority>)
    ensures r.Some? <==> s == "nízká" || s == "střední" || s == "vysoká"
    ensures r.Some? ==> PriorityValue(r.value) == s
  {
    if s == "nízká" then Some(Low)
    else if s == "střední" then Some(Medium)
    else if s == "vysoká" then Some(High)
    else None
  }

  lemma ParsePriorityValue(p: Priority)
    ensures ParsePriority(PriorityValue(p)) == Some(p)
  {
  }

  /**
   * A task. Timestamps are opaque strings supplied by the caller (the source
   * formats the wall clock). `completedAt` is `None` for Python's `None`.
   */
  datatype Task = Task(
    id: int,
    name: string,
    created: string,
    completed: bool,
    completedAt: Option<string>,
    priority: Priority,
    timeSpent: int)

  /** A completion time is recorded exactly when the task is completed. */
  predicate WellFormed(t: Task)
  {
    t.completed <==> t.completedAt.Some?
  }

  /** `Task(id, name)` with `now` standing for the creation time. */
  function NewTask(id: int, name: string, now: string): (t: Task)
    ensures t.id == id && t.name == name && t.created == now
    ensures !t.completed && t.completedAt == None
    ensures t.priority == Medium && t.timeSpent == 0
    ensures WellFormed(t)
  {
    Task(id, name, now, false, None, Medium, 0)
  }

  /** `mark_completed`, with `now` standing for the completion time. */
  function MarkCompleted(t: Task, now: string): (r: Task)
    ensures r.completed && r.completedAt == Some(now)
    ensures WellFormed(r)
    ensures r.id == t.id && r.name == t.name && r.created == t.created
    ensures r.priority == t.priority && r.timeSpent == t.timeSpent
  {
    t.(completed := true, completedAt := Some(now))
  }

  /** Completing twice is not idempotent: the second call overwrites the completion time. */
  lemma MarkCompletedTwice(t: Task, first: string, second: string)
    ensures MarkCompleted(MarkCompleted(t, first), second) == MarkCompleted(t, second)
    ensures first != second ==> MarkCompleted(MarkCompleted(t, first), second) != MarkCompleted(t, first)
  {
  }

  /** The JSON values a record holds. */
  datatype Json =
    | JNull
    | JBool(b: bool)
    | JInt(i: int)
    | JStr(s: string)
    | JArray(items: seq<Json>)
    | JObject(fields: map<string, Json>)

  /** Why a stored document could not be turned back into tasks (KeyError, TypeError, ValueError). */
  datatype DecodeError =
    | MissingKey(key: string)
    | WrongType(key: string)
    | InvalidPriority(value: Json)
    | NotAnObject

  /** The seven keys of a task record. */
  const RecordKeys: set<string> :=
    {"id", "name", "created", "completed", "completed_at", "priority", "time_spent"}

  /** `to_dict`: the flat record of a task. */
  function ToDict(t: Task): (d: map<string, Json>)
    ensures d.Keys == RecordKeys
    ensures d["priority"] == JStr(PriorityValue(t.priority))
    ensures d["completed_at"] == (if t.completedAt.Some? then JStr(t.completedAt.value) else JNull)
  {
    map[
      "id" := JInt(t.id),
      "name" := JStr(t.name),
      "created" := JStr(t.created),
      "completed" := JBool(t.completed),
      "completed_at" := (match t.completedAt case Some(s) => JStr(s) case None => JNull),
      "priority" := JStr(PriorityValue(t.priority)),
      "time_spent" := JInt(t.timeSpent)
    ]
  }

  function GetInt(d: map<string, Json>, key: string): Result<int, DecodeError>
  {
    if key !in d then Failure(MissingKey(key))
    else if d[key].JInt? then Success(d[key].i)
    else Failure(WrongType(key))
  }

  function GetStr(d: map<string, Json>, key: string): Result<string, DecodeError>
  {
    if key !in d then Failure(MissingKey(key))
    else if d[key].JStr? then Success(d[key].s)
    else Failure(WrongType(key))
  }

  function GetBool(d: map<string, Json>, key: string): Result<bool, DecodeError>
  {
    if key !in d then Failure(MissingKey(key))
    else if d[key].JBool? then Success(d[key].b)
    else Failure(WrongType(key))
  }

  function GetOptStr(d: map<string, Json>, key: string): Result<Option<string>, DecodeError>
  {
    if key !in d then Failure(MissingKey(key))
    else if d[key].JStr? then Success(Some(d[key].s))
    else if d[key].JNull? then Success(None)
    else Failure(WrongType(key))
  }

  function GetPriority(d: map<string, Json>, key: string): Result<Priority, DecodeError>
  {
    if key !in d then Failure(MissingKey(key))
    else if d[key].JStr? && ParsePriority(d[key].s).Some? then Success(ParsePriority(d[key].s).value)
    else Failure(InvalidPriority(d[key]))
  }

  /**
   * `from_dict`: the fields are read in the source's order (id, name, created,
   * completed, completed_at, priority, time_spent) and the first missing or
   * unusable one is the error.
   */
  function FromDict(d: map<string, Json>): (r: Result<Task, DecodeError>)
    ensures r.Success? ==> RecordKeys <= d.Keys
    ensures r.Success? ==> forall k :: k in RecordKeys ==> d[k] == ToDict(r.value)[k]
    ensures "priority" in d && !(d["priority"].JStr? && ParsePriority(d["priority"].s).Some?)
            ==> r.Failure?
  {
    match GetInt(d, "id")
    case Failure(e) => Failure(e)
    case Success(id) =>
      match GetStr(d, "name")
      case Failure(e) => Failure(e)
      case Success(name) =>
        match GetStr(d, "created")
        case Failure(e) => Failure(e)
        case Success(created) =>
          match GetBool(d, "completed")
          case Failure(e) => Failure(e)
          case Success(completed) =>
            match GetOptStr(d, "completed_at")
            case Failure(e) => Failure(e)
            case Success(completedAt) =>
              match GetPriority(d, "priority")
              case Failure(e) => Failure(e)
              case Success(priority) =>
                match GetInt(d, "time_spent")
                case Failure(e) => Failure(e)
                case Success(timeSpent) =>
                  Success(Task(id, name, created, completed, completedAt, priority, timeSpent))
  }

  /** `Task.from_dict(t.to_dict())` gives back `t`, field for field. */
  lemma FromDictToDict(t: Task)
    ensures FromDict(ToDict(t)) == Success(t)
  {
  }

  /** A record `from_dict` accepts is `to_dict` of the task it yields, up to keys outside the seven. */
  lemma ToDictFromDict(d: map<string, Json>)
    requires FromDict(d).Success?
    ensures ToDict(FromDict(d).value) == map k | k in RecordKeys :: d[k]
  {
    var t := FromDict(d).value;
    assert (map k | k in RecordKeys :: d[k]).Keys == RecordKeys;
  }
}

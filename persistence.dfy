/**
 * The stored document and its decoding: the dictionary `save_tasks` and
 * `export_to_json` build, the "file" the auto-save worker overwrites, and
 * what `load_tasks` makes of it.
 */
module Persistence {
  import opened Wrappers
  import opened Tasks

  /** The name of the document's "when written" field: `last_save` for the data file, `export_date` for an export. */
  datatype StampLabel = LastSave | ExportDate

  function LabelKey(kind: StampLabel): string
  {
    match kind
    case LastSave => "last_save"
    case ExportDate => "export_date"
  }

  /** `[t.to_dict() for t in tasks]`. */
  function EncodeTasks(ts: seq<Task>): (items: seq<Json>)
    ensures |items| == |ts|
    ensures forall i :: 0 <= i < |ts| ==> items[i] == JObject(ToDict(ts[i]))
  {
    seq(|ts|, i requires 0 <= i < |ts| => JObject(ToDict(ts[i])))
  }

  /**
   * The document a snapshot of `ts` is saved or exported as, stamped with
   * `stamp`: whichever stamp it carries, it loads back as exactly `ts`.
   */
  function Document(ts: seq<Task>, kind: StampLabel, stamp: string): (doc: Json)
    ensures LoadFile(Parsed(doc)) == Success(ts)
    ensures doc.JObject? && doc.fields.Keys == {"tasks", LabelKey(kind)}
    ensures doc.fields[LabelKey(kind)] == JStr(stamp)
  {
    DecodeEncodeTasks(ts);
    JObject(map["tasks" := JArray(EncodeTasks(ts)), LabelKey(kind) := JStr(stamp)])
  }

  /** One element of the `tasks` array decodes to `t`. */
  predicate DecodesTo(item: Json, t: Task)
  {
    item.JObject? && FromDict(item.fields) == Success(t)
  }

  /** `[Task.from_dict(t) for t in items]`: every element must be a record that decodes; the first that does not is the error. */
  function DecodeTasks(items: seq<Json>): (r: Result<seq<Task>, DecodeError>)
    ensures r.Success? ==> |r.value| == |items|
    ensures r.Success? ==> forall i :: 0 <= i < |items| ==> DecodesTo(items[i], r.value[i])
    ensures r.Failure? ==> exists i :: 0 <= i < |items| && (!items[i].JObject? || FromDict(items[i].fields).Failure?)
  {
    if items == [] then Success([])
    else if !items[0].JObject? then Failure(NotAnObject)
    else
      var first := FromDict(items[0].fields);
      if first.Failure? then Failure(first.error)
      else
        var rest := DecodeTasks(items[1..]);
        if rest.Failure? then
          Failure(rest.error)
        else
          DecodeTasksCons(items, first.value, rest.value);
          Success([first.value] + rest.value)
  }

  lemma {:induction false} DecodeTasksCons(items: seq<Json>, t: Task, rest: seq<Task>)
    requires |items| > 0 && DecodesTo(items[0], t)
    requires |rest| == |items| - 1
    requires forall i :: 0 <= i < |rest| ==> DecodesTo(items[1..][i], rest[i])
    ensures forall i :: 0 <= i < |items| ==> DecodesTo(items[i], ([t] + rest)[i])
  {
    ConsIndices(items, t, rest);
  }

  /** Position `i` of `[y] + ys` pairs with position `i` of `xs` exactly when `i - 1` of `ys` pairs with `i - 1` of `xs[1..]`. */
  lemma ConsIndices<A, B>(xs: seq<A>, y: B, ys: seq<B>)
    requires |xs| > 0 && |ys| == |xs| - 1
    ensures forall i :: 1 <= i < |xs| ==> xs[i] == xs[1..][i - 1] && ([y] + ys)[i] == ys[i - 1]
    ensures ([y] + ys)[0] == y
  {
  }

  /** The primary data file, as `load_tasks` finds it. */
  datatype StoredFile =
    | NoFile          // FileNotFoundError
    | NotJson         // json.JSONDecodeError
    | Parsed(doc: Json)

  /**
   * `for t in data['tasks']` runs zero times on an empty array, an empty
   * object or an empty string; on any other value that is not an array it
   * raises (a non-iterable value, or keys and characters that are not records).
   */
  predicate EmptyIterable(j: Json)
  {
    j == JArray([]) || j == JObject(map[]) || j == JStr("")
  }

  /**
   * What `load_tasks` reads: a missing or unparsable file is an empty list; a
   * parsed document must be an object whose `tasks` is an empty iterable or an
   * array of records, and anything else is an exception that `load_tasks`
   * does not catch.
   */
  function LoadFile(f: StoredFile): (r: Result<seq<Task>, DecodeError>)
    ensures f.NoFile? || f.NotJson? ==> r == Success([])
    ensures f.Parsed? && r.Success? ==>
            f.doc.JObject? && "tasks" in f.doc.fields &&
            (EmptyIterable(f.doc.fields["tasks"]) || f.doc.fields["tasks"].JArray?)
    ensures f.Parsed? && f.doc.JObject? && "tasks" in f.doc.fields && EmptyIterable(f.doc.fields["tasks"]) ==>
            r == Success([])
    ensures f.Parsed? && f.doc.JObject? && "tasks" in f.doc.fields && f.doc.fields["tasks"].JArray? ==>
            r == DecodeTasks(f.doc.fields["tasks"].items)
    ensures f.Parsed? && !f.doc.JObject? ==> r == Failure(NotAnObject)
    ensures f.Parsed? && f.doc.JObject? && "tasks" !in f.doc.fields ==> r == Failure(MissingKey("tasks"))
  {
    match f
    case NoFile => Success([])
    case NotJson => Success([])
    case Parsed(doc) =>
      if !doc.JObject? then Failure(NotAnObject)
      else if "tasks" !in doc.fields then Failure(MissingKey("tasks"))
      else if EmptyIterable(doc.fields["tasks"]) then Success([])
      else if !doc.fields["tasks"].JArray? then Failure(WrongType("tasks"))
      else DecodeTasks(doc.fields["tasks"].items)
  }

  /** Decoding the encoded records gives back the same tasks, in the same order. */
  lemma DecodeEncodeTasks(ts: seq<Task>)
    ensures DecodeTasks(EncodeTasks(ts)) == Success(ts)
  {
    var items := EncodeTasks(ts);
    forall i | 0 <= i < |ts| ensures DecodesTo(items[i], ts[i]) {
      FromDictToDict(ts[i]);
    }
    var r := DecodeTasks(items);
    assert r.Success?;
    assert forall i :: 0 <= i < |ts| ==> r.value[i] == ts[i];
    assert r.value == ts;
  }

  /** `max(t.id for t in tasks)`. */
  function MaxId(ts: seq<Task>): (m: int)
    requires |ts| > 0
    ensures forall k :: 0 <= k < |ts| ==> ts[k].id <= m
    ensures exists k :: 0 <= k < |ts| && ts[k].id == m
  {
    if |ts| == 1 then ts[0].id
    else
      var rest := MaxId(ts[1..]);
      assert forall k :: 1 <= k < |ts| ==> ts[k] == ts[1..][k - 1];
      if ts[0].id >= rest then ts[0].id else rest
  }

  /**
   * `next_id` after loading `ts`: one past the largest id, or `current`
   * when nothing was loaded. Either way every loaded id is below it.
   */
  function NextIdAfterLoad(ts: seq<Task>, current: int): (n: int)
    ensures forall k :: 0 <= k < |ts| ==> ts[k].id < n
    ensures ts != [] ==> exists k :: 0 <= k < |ts| && ts[k].id == n - 1
    ensures ts == [] ==> n == current
  {
    if ts == [] then current else MaxId(ts) + 1
  }
}

/**
 * The Taskmaster webhook bridge (src/taskmaster_bridge.py): it validates the
 * task-update payload, acknowledges it and queues its processing, fans a
 * processed update out into task-update, completion and file-activity
 * records, and forwards a full sync to the client.
 */
module TaskmasterBridge {
  import opened Wrappers
  import opened Json
  import opened MemoryStore
  import opened Mem0Client

  /** The `TaskUpdate` payload once validated; an optional field set to null is `None`. */
  datatype TaskUpdate = TaskUpdate(
    id: string,
    name: string,
    status: string,
    progress: int,
    description: Option<string>,
    agent: Option<string>,
    affectedFiles: Option<seq<Value>>,
    metadata: Option<map<string, Value>>)

  /** Why a payload is refused (FastAPI answers it with status 422). */
  datatype ValidationError = NotAnObject | MissingField(field: string) | WrongType(field: string)

  /** The fields of the payload model, in declaration order. */
  const RequiredFields: set<string> := {"id", "name", "status", "progress"}
  const Fields: set<string> := RequiredFields + {"description", "agent", "affected_files", "metadata"}

  function RequiredStr(m: map<string, Value>, key: string): Result<string, ValidationError>
  {
    if key !in m then Err(MissingField(key))
    else if m[key].Str? then Ok(m[key].s)
    else Err(WrongType(key))
  }

  function RequiredInt(m: map<string, Value>, key: string): Result<int, ValidationError>
  {
    if key !in m then Err(MissingField(key))
    else if m[key].Int? then Ok(m[key].i)
    else Err(WrongType(key))
  }

  /** `Optional[str] = default`: absent gives the default, null gives None. */
  function OptionalStr(m: map<string, Value>, key: string, default: string): Result<Option<string>, ValidationError>
  {
    if key !in m then Ok(Some(default))
    else match m[key]
      case Null => Ok(None)
      case Str(s) => Ok(Some(s))
      case _ => Err(WrongType(key))
  }

  /** `Optional[list] = []`. */
  function OptionalList(m: map<string, Value>, key: string): Result<Option<seq<Value>>, ValidationError>
  {
    if key !in m then Ok(Some([]))
    else match m[key]
      case Null => Ok(None)
      case List(items) => Ok(Some(items))
      case _ => Err(WrongType(key))
  }

  /** `Optional[Dict[str, Any]] = {}`. */
  function OptionalObj(m: map<string, Value>, key: string): Result<Option<map<string, Value>>, ValidationError>
  {
    if key !in m then Ok(Some(map[]))
    else match m[key]
      case Null => Ok(None)
      case Obj(fields) => Ok(Some(fields))
      case _ => Err(WrongType(key))
  }

  /**
   * Validation of a request body against `TaskUpdate`: the four required
   * fields must be present with their types, the optional ones take their
   * defaults when absent, and keys outside the model are ignored. The
   * progress is any integer: no range is checked.
   */
  function ParseTaskUpdate(body: Value): (r: Result<TaskUpdate, ValidationError>)
    ensures !body.Obj? ==> r == Err(NotAnObject)
    ensures body.Obj? && "id" !in body.fields ==> r == Err(MissingField("id"))
    ensures r.Ok? ==> body.Obj? && RequiredFields <= body.fields.Keys
    ensures r.Ok? ==> forall k :: k in Fields && k in body.fields ==> ToDict(r.value)[k] == body.fields[k]
  {
    if !body.Obj? then Err(NotAnObject)
    else
      var m := body.fields;
      match (RequiredStr(m, "id"), RequiredStr(m, "name"), RequiredStr(m, "status"), RequiredInt(m, "progress"))
      case (Err(e), _, _, _) => Err(e)
      case (_, Err(e), _, _) => Err(e)
      case (_, _, Err(e), _) => Err(e)
      case (_, _, _, Err(e)) => Err(e)
      case (Ok(id), Ok(name), Ok(status), Ok(progress)) =>
        match (OptionalStr(m, "description", ""), OptionalStr(m, "agent", "unassigned"),
               OptionalList(m, "affected_files"), OptionalObj(m, "metadata"))
        case (Err(e), _, _, _) => Err(e)
        case (_, Err(e), _, _) => Err(e)
        case (_, _, Err(e), _) => Err(e)
        case (_, _, _, Err(e)) => Err(e)
        case (Ok(description), Ok(agent), Ok(files), Ok(metadata)) =>
          Ok(TaskUpdate(id, name, status, progress, description, agent, files, metadata))
  }

  function OptStr(o: Option<string>): Value
  {
    match o
    case None => Null
    case Some(s) => Str(s)
  }

  /** `task.affected_files` as the dict holds it. */
  function FilesValue(t: TaskUpdate): Value
  {
    match t.affectedFiles
    case None => Null
    case Some(items) => List(items)
  }

  /** `task.dict()`: every field of the model, null for None. */
  function ToDict(t: TaskUpdate): (d: map<string, Value>)
    ensures d.Keys == Fields
  {
    map["id" := Str(t.id), "name" := Str(t.name), "status" := Str(t.status), "progress" := Int(t.progress),
        "description" := OptStr(t.description), "agent" := OptStr(t.agent),
        "affected_files" := FilesValue(t),
        "metadata" := match t.metadata case None => Null case Some(md) => Obj(md)]
  }

  /** Validating the dict of an update gives that update back, whatever its progress. */
  lemma ParseToDict(t: TaskUpdate)
    ensures ParseTaskUpdate(Obj(ToDict(t))) == Ok(t)
  {
    var m := ToDict(t);
    assert RequiredStr(m, "id") == Ok(t.id);
    assert RequiredInt(m, "progress") == Ok(t.progress);
    assert OptionalStr(m, "description", "") == Ok(t.description);
    assert OptionalStr(m, "agent", "unassigned") == Ok(t.agent);
    assert OptionalList(m, "affected_files") == Ok(t.affectedFiles);
  }

  /** A payload holding only the required fields takes every default. */
  lemma ParseDefaults(id: string, name: string, status: string, progress: int)
    ensures ParseTaskUpdate(Obj(map["id" := Str(id), "name" := Str(name), "status" := Str(status), "progress" := Int(progress)]))
            == Ok(TaskUpdate(id, name, status, progress, Some(""), Some("unassigned"), Some([]), Some(map[])))
  {
    var m := map["id" := Str(id), "name" := Str(name), "status" := Str(status), "progress" := Int(progress)];
    assert "description" !in m && "agent" !in m && "affected_files" !in m && "metadata" !in m;
  }

  /** `add_task_update(task.dict())`, with the dict's lookups resolved against the update's own fields. */
  function UpdateStep(t: TaskUpdate, now: string): (s: Step)
    ensures s.Raise? <==> !Joinable(FilesValue(t))
    ensures s.Write? ==> Kind(s.record) == Str("task_update") && s.record.userId == UserScope
  {
    if !Joinable(FilesValue(t)) then Raise(TypeError)
    else
      Write(Record(TaskNote(Str(t.name), Str(t.status), Int(t.progress), OptStr(t.description), OptStr(t.agent), FilesValue(t), now),
                   UserScope,
                   map["type" := Str("task_update"), "task_id" := Str(t.id), "project" := Str("utlyze"),
                       "timestamp" := Str(now), "agent" := OptStr(t.agent), "status" := Str(t.status)]))
  }

  /** The update's step is the task-update step of its dict. */
  lemma UpdateStepOfDict(t: TaskUpdate, now: string)
    ensures UpdateStep(t, now) == TaskUpdateStep(ToDict(t), now)
  {
    var d := ToDict(t);
    assert Get(d, "affected_files", List([])) == FilesValue(t);
    assert Get(d, "name", Str("Unknown")) == Str(t.name) && Get(d, "status", Str("Unknown")) == Str(t.status);
    assert Get(d, "progress", Int(0)) == Int(t.progress) && Get(d, "id", Null) == Str(t.id);
    assert Get(d, "description", Str("")) == OptStr(t.description);
    assert Get(d, "agent", Str("Unassigned")) == OptStr(t.agent) && Get(d, "agent", Null) == OptStr(t.agent);
    assert Get(d, "status", Null) == Str(t.status);
  }

  /**
   * `handle_task_completion`'s record. `task_data.get('metadata', {})` is
   * None when the payload set it to null, and `.get` on it raises; the join
   * of the affected files raises as in `add_task_update`.
   */
  function CompletionStep(t: TaskUpdate, now: string): (s: Step)
    ensures s.Write? ==> Kind(s.record) == Str("task_completion") && Get(s.record.metadata, "task_id", Null) == Str(t.id)
    ensures s.Write? ==> s.record.userId == UserScope
  {
    match t.metadata
    case None => Raise(AttributeError)
    case Some(md) =>
      if !Joinable(FilesValue(t)) then Raise(TypeError)
      else
        Write(Record(CompletionNote(Str(t.name), Get(md, "duration", Str("Unknown")), FilesValue(t), now), UserScope,
                     map["type" := Str("task_completion"), "task_id" := Str(t.id), "timestamp" := Str(now)]))
  }

  /** The record `add_file_context` writes for one affected file. */
  function FileStep(t: TaskUpdate, path: Value, now: string): (s: Step)
    ensures s.Write? && Kind(s.record) == Str("file_activity") && s.record.userId == UserScope
    ensures Get(s.record.metadata, "file_path", Null) == path && Get(s.record.metadata, "task_id", Null) == Str(t.id)
  {
    Write(Record(FileNote(path, Str(t.name), Str(t.status), now), UserScope,
                 map["type" := Str("file_activity"), "file_path" := path, "task_id" := Str(t.id), "timestamp" := Str(now)]))
  }

  /** `add_file_context`: one write per affected file in list order; iterating a null list raises. */
  function FileContextPlan(t: TaskUpdate, now: string): seq<Step>
  {
    match t.affectedFiles
    case None => [Raise(TypeError)]
    case Some(fs) => seq(|fs|, k requires 0 <= k < |fs| => FileStep(t, fs[k], now))
  }

  /**
   * `process_task_update`: the task-update record, then the completion record
   * if the status is "completed", then the file records if the affected files
   * are truthy, all inside one `try`.
   */
  function ProcessPlan(t: TaskUpdate, now: string): seq<Step>
  {
    [UpdateStep(t, now)]
      + (if t.status == "completed" then [CompletionStep(t, now)] else [])
      + (if Truthy(FilesValue(t)) then FileContextPlan(t, now) else [])
  }

  /** The number of affected files, as far as the plan writes one record for each. */
  function FileCount(t: TaskUpdate): nat
  {
    if t.affectedFiles.Some? then |t.affectedFiles.value| else 0
  }

  /** The `type` tags of the records `process_task_update` means to write, in order. */
  function PlannedKinds(t: TaskUpdate): (ks: seq<Value>)
    ensures |ks| == 1 + (if t.status == "completed" then 1 else 0) + FileCount(t)
  {
    [Str("task_update")]
      + (if t.status == "completed" then [Str("task_completion")] else [])
      + seq(FileCount(t), _ => Str("file_activity"))
  }

  /** The plan's steps, position by position. */
  lemma PlanShape(t: TaskUpdate, now: string)
    ensures var plan := ProcessPlan(t, now);
            var c := if t.status == "completed" then 1 else 0;
            && |plan| == |PlannedKinds(t)|
            && plan[0] == UpdateStep(t, now)
            && (c == 1 ==> plan[1] == CompletionStep(t, now))
            && (forall i :: 1 + c <= i < |plan| ==>
                  t.affectedFiles.Some? && plan[i] == FileStep(t, t.affectedFiles.value[i - 1 - c], now))
  {
    var plan := ProcessPlan(t, now);
    var c := if t.status == "completed" then 1 else 0;
    var head := [UpdateStep(t, now)] + (if c == 1 then [CompletionStep(t, now)] else []);
    var files := if Truthy(FilesValue(t)) then FileContextPlan(t, now) else [];
    assert plan == head + files;
    assert |files| == FileCount(t);
    forall i | 1 + c <= i < |plan|
      ensures t.affectedFiles.Some? && plan[i] == FileStep(t, t.affectedFiles.value[i - 1 - c], now)
    {
      assert plan[i] == files[i - 1 - c];
    }
  }

  /** Every writing step of the plan writes a record of the planned kind for its position. */
  lemma PlanKinds(t: TaskUpdate, now: string)
    ensures |ProcessPlan(t, now)| == |PlannedKinds(t)|
    ensures forall i :: 0 <= i < |ProcessPlan(t, now)| && ProcessPlan(t, now)[i].Write? ==>
              Kind(ProcessPlan(t, now)[i].record) == PlannedKinds(t)[i]
  {
    var plan := ProcessPlan(t, now);
    var c := if t.status == "completed" then 1 else 0;
    PlanShape(t, now);
    forall i | 0 <= i < |plan| && plan[i].Write?
      ensures Kind(plan[i].record) == PlannedKinds(t)[i]
    {
      var ks := PlannedKinds(t);
      if i == 0 {
        assert ks[0] == Str("task_update");
      } else if i < 1 + c {
        assert plan[i] == CompletionStep(t, now);
        assert ks[1] == Str("task_completion");
      } else {
        assert plan[i] == FileStep(t, t.affectedFiles.value[i - 1 - c], now);
        assert ks[i] == Str("file_activity");
      }
    }
  }

  /**
   * `process_task_update` attempts its records in plan order: the update,
   * then the completion when the status is "completed", then one file record
   * per affected file. When every step succeeds that is exactly
   * 1 + [completed] + |affected_files| writes.
   */
  lemma ProcessOrder(t: TaskUpdate, now: string, at: nat, down: set<nat>)
    ensures var r := Execute(ProcessPlan(t, now), at, down);
            && |r.attempted| <= |PlannedKinds(t)|
            && (forall i :: 0 <= i < |r.attempted| ==> Kind(r.attempted[i]) == PlannedKinds(t)[i])
            && (r.outcome == Pass ==> |r.attempted| == 1 + (if t.status == "completed" then 1 else 0) + FileCount(t))
  {
    var plan := ProcessPlan(t, now);
    var r := Execute(plan, at, down);
    PlanKinds(t, now);
    ExecuteFollowsPlan(plan, at, down);
    forall i | 0 <= i < |r.attempted|
      ensures Kind(r.attempted[i]) == PlannedKinds(t)[i]
    {
      assert plan[i] == Write(r.attempted[i]);
    }
    ExecutePasses(plan, at, down);
    if r.outcome == Pass {
      WritesOfClean(plan, at, down);
    }
  }

  /**
   * Every file record attempted names its file, in list order, and the task
   * id; the completion record, when attempted, names the task id.
   */
  lemma ProcessRecordsName(t: TaskUpdate, now: string, at: nat, down: set<nat>)
    ensures var r := Execute(ProcessPlan(t, now), at, down);
            var c := if t.status == "completed" then 1 else 0;
            && (forall i :: 1 + c <= i < |r.attempted| ==>
                  && t.affectedFiles.Some?
                  && Get(r.attempted[i].metadata, "file_path", Null) == t.affectedFiles.value[i - 1 - c]
                  && Get(r.attempted[i].metadata, "task_id", Null) == Str(t.id))
            && (c == 1 && |r.attempted| > 1 ==> Get(r.attempted[1].metadata, "task_id", Null) == Str(t.id))
  {
    var plan := ProcessPlan(t, now);
    var r := Execute(plan, at, down);
    var c := if t.status == "completed" then 1 else 0;
    forall i | 1 + c <= i < |r.attempted|
      ensures && t.affectedFiles.Some?
              && Get(r.attempted[i].metadata, "file_path", Null) == t.affectedFiles.value[i - 1 - c]
              && Get(r.attempted[i].metadata, "task_id", Null) == Str(t.id)
    {
      AttemptedStep(plan, at, down, i);
      PlanStepAt(t, now, i);
      var step := FileStep(t, t.affectedFiles.value[i - 1 - c], now);
      assert r.attempted[i] == step.record;
    }
    if c == 1 && |r.attempted| > 1 {
      AttemptedStep(plan, at, down, 1);
      PlanStepAt(t, now, 1);
      var step := CompletionStep(t, now);
      assert r.attempted[1] == step.record;
    }
  }

  /** Every record the fan-out attempts is written in the user scope "utlyze". */
  lemma ProcessRecordsScoped(t: TaskUpdate, now: string, at: nat, down: set<nat>)
    ensures var r := Execute(ProcessPlan(t, now), at, down);
            forall i :: 0 <= i < |r.attempted| ==> r.attempted[i].userId == UserScope
  {
    var plan := ProcessPlan(t, now);
    var r := Execute(plan, at, down);
    forall i | 0 <= i < |r.attempted| ensures r.attempted[i].userId == UserScope {
      AttemptedStep(plan, at, down, i);
      PlanStepAt(t, now, i);
    }
  }

  /** The `i`-th record a run attempted is the `i`-th step's. */
  lemma AttemptedStep(plan: seq<Step>, at: nat, down: set<nat>, i: nat)
    requires i < |Execute(plan, at, down).attempted|
    ensures i < |plan| && plan[i] == Write(Execute(plan, at, down).attempted[i])
  {
    ExecuteFollowsPlan(plan, at, down);
  }

  /** The step at position `i` of the plan: the update, the completion, or a file record. */
  lemma PlanStepAt(t: TaskUpdate, now: string, i: nat)
    requires i < |ProcessPlan(t, now)|
    ensures var c := if t.status == "completed" then 1 else 0;
            && (i == 0 ==> ProcessPlan(t, now)[i] == UpdateStep(t, now))
            && (c == 1 && i == 1 ==> ProcessPlan(t, now)[i] == CompletionStep(t, now))
            && (1 + c <= i ==> t.affectedFiles.Some? && ProcessPlan(t, now)[i] == FileStep(t, t.affectedFiles.value[i - 1 - c], now))
  {
    PlanShape(t, now);
  }

  /** An empty, missing or null list of affected files yields no file record. */
  lemma NoFilesNoFileWrites(t: TaskUpdate, now: string, at: nat, down: set<nat>)
    requires t.affectedFiles.None? || t.affectedFiles.value == []
    ensures var r := Execute(ProcessPlan(t, now), at, down);
            forall i :: 0 <= i < |r.attempted| ==> Kind(r.attempted[i]) != Str("file_activity")
  {
    ProcessOrder(t, now, at, down);
  }

  /**
   * The fan-out succeeds exactly when the update's files can be joined, a
   * completed task carries metadata, and the store accepts every one of the
   * planned writes.
   */
  lemma ProcessPasses(t: TaskUpdate, now: string, at: nat, down: set<nat>)
    ensures Execute(ProcessPlan(t, now), at, down).outcome == Pass <==>
            && Joinable(FilesValue(t))
            && (t.status == "completed" ==> t.metadata.Some?)
            && (forall k :: at <= k < at + |PlannedKinds(t)| ==> k !in down)
  {
    var plan := ProcessPlan(t, now);
    var c := if t.status == "completed" then 1 else 0;
    PlanShape(t, now);
    ExecutePasses(plan, at, down);
    if Clean(plan, at, down) {
      forall k | at <= k < at + |PlannedKinds(t)|
        ensures k !in down
      {
        assert plan[k - at].Write?;
      }
    }
    if Joinable(FilesValue(t)) && (c == 1 ==> t.metadata.Some?) && (forall k :: at <= k < at + |PlannedKinds(t)| ==> k !in down) {
      forall i | 0 <= i < |plan|
        ensures plan[i].Write? && at + i !in down
      {
      }
    }
  }

  /** What a webhook answers. */
  datatype Response =
    | TaskAccepted(taskId: string, timestamp: string)
    | TasksSynced(syncedTasks: nat, errors: seq<SyncError>, timestamp: string)
    | Unprocessable(error: ValidationError)
    | ServerError(fault: Fault)

  /** Validation of the full-sync body: `tasks` a list, `timestamp` an optional string. */
  function ParseSync(body: Value): (r: Result<seq<Value>, ValidationError>)
    ensures r.Ok? ==> body.Obj? && "tasks" in body.fields && body.fields["tasks"] == List(r.value)
  {
    if !body.Obj? then Err(NotAnObject)
    else if "tasks" !in body.fields then Err(MissingField("tasks"))
    else if !body.fields["tasks"].List? then Err(WrongType("tasks"))
    else if "timestamp" in body.fields && !(body.fields["timestamp"].Null? || body.fields["timestamp"].Str?) then
      Err(WrongType("timestamp"))
    else Ok(body.fields["tasks"].items)
  }

  /** `handle_full_sync`'s answer: the sync result's fields copied unchanged, or a 500 carrying the fault. */
  function SyncResponse(r: Result<SyncResult, Fault>, now: string): (resp: Response)
    ensures r.Ok? ==> resp == TasksSynced(r.value.syncedTasks, r.value.errors, now)
    ensures r.Err? ==> resp == ServerError(r.error)
  {
    match r
    case Ok(res) => TasksSynced(res.syncedTasks, res.errors, now)
    case Err(f) => ServerError(f)
  }

  class Bridge {
    const client: UtlyzeClient
    /** The background tasks queued by `handle_task_update` and not yet run. */
    var queue: seq<TaskUpdate>

    constructor (client: UtlyzeClient)
      ensures this.client == client && queue == []
    {
      this.client := client;
      queue := [];
    }

    /** `handle_task_completion`: one completion write, unless building it raises. */
    method HandleTaskCompletion(t: TaskUpdate, now: string) returns (out: Outcome)
      requires client.store.Valid()
      modifies client.store
      ensures client.store.Valid()
      ensures var r := Execute([CompletionStep(t, now)], |old(client.store.calls)|, client.store.down);
              client.store.calls == old(client.store.calls) + AddCalls(r.attempted) && out == r.outcome
    {
      match CompletionStep(t, now) {
        case Raise(f) =>
          out := Fail(f);
        case Write(rec) =>
          out := client.store.Add(rec);
      }
    }

    /** `add_file_context`: one write per affected file, in list order, stopping at the first that raises. */
    method AddFileContext(t: TaskUpdate, now: string) returns (out: Outcome)
      requires client.store.Valid()
      modifies client.store
      ensures client.store.Valid()
      ensures var r := Execute(FileContextPlan(t, now), |old(client.store.calls)|, client.store.down);
              client.store.calls == old(client.store.calls) + AddCalls(r.attempted) && out == r.outcome
    {
      var store := client.store;
      if t.affectedFiles.None? {
        return Fail(TypeError);
      }
      var files := t.affectedFiles.value;
      ghost var at0 := |store.calls|;
      ghost var plan := FileContextPlan(t, now);
      assert plan[..0] == [];
      for i := 0 to |files|
        invariant store.Valid()
        invariant var r := Execute(plan[..i], at0, store.down);
                  store.calls == old(store.calls) + AddCalls(r.attempted) && r.outcome == Pass
      {
        ghost var before := store.calls;
        var rec := FileStep(t, files[i], now).record;
        out := store.Add(rec);
        PrefixStep(plan, i, rec, old(store.calls), before, store.calls, store.down);
        if out.Fail? {
          FileContextStops(plan, i, at0, store.down);
          return;
        }
      }
      assert plan[..|files|] == plan;
      out := Pass;
    }

    /**
     * `process_task_update`: the fan-out inside one `try`. The first step that
     * fails ends it; the error is logged and swallowed, so the method always
     * returns normally.
     */
    method ProcessTaskUpdate(t: TaskUpdate, now: string) returns (out: Outcome)
      requires client.store.Valid()
      modifies client.store
      ensures client.store.Valid()
      ensures var r := Execute(ProcessPlan(t, now), |old(client.store.calls)|, client.store.down);
              client.store.calls == old(client.store.calls) + AddCalls(r.attempted) && out == r.outcome
    {
      var store := client.store;
      ghost var start := store.calls;
      ghost var first := [UpdateStep(t, now)];
      ghost var second := if t.status == "completed" then [CompletionStep(t, now)] else [];
      ghost var third := if Truthy(FilesValue(t)) then FileContextPlan(t, now) else [];
      assert ProcessPlan(t, now) == first + second + third;
      out := client.AddTaskUpdate(ToDict(t), now);
      UpdateStepOfDict(t, now);
      if out.Fail? {
        ExecuteAppend(first, second, |start|, store.down);
        ExecuteAppend(first + second, third, |start|, store.down);
        return;
      }
      ghost var afterFirst := store.calls;
      if t.status == "completed" {
        out := HandleTaskCompletion(t, now);
      }
      ghost var afterSecond := store.calls;
      assert afterSecond == afterFirst + AddCalls(Execute(second, |afterFirst|, store.down).attempted) by {
        if t.status != "completed" {
          assert Execute(second, |afterFirst|, store.down).attempted == [];
        }
      }
      RunThen(start, afterFirst, afterSecond, first, second, store.down);
      if out.Fail? {
        ExecuteAppend(first + second, third, |start|, store.down);
        return;
      }
      if Truthy(FilesValue(t)) {
        out := AddFileContext(t, now);
      }
      assert store.calls == afterSecond + AddCalls(Execute(third, |afterSecond|, store.down).attempted) by {
        if !Truthy(FilesValue(t)) {
          assert Execute(third, |afterSecond|, store.down).attempted == [];
        }
      }
      RunThen(start, afterSecond, store.calls, first + second, third, store.down);
    }

    /** `handle_task_update`: acknowledges with the task's id and only queues the processing; the store is untouched. */
    method HandleTaskUpdate(t: TaskUpdate, now: string) returns (resp: Response)
      modifies this
      ensures resp == TaskAccepted(t.id, now)
      ensures queue == old(queue) + [t]
    {
      queue := queue + [t];
      resp := TaskAccepted(t.id, now);
    }

    /** The endpoint as a client reaches it: a body that fails validation is answered 422 and queues nothing. */
    method ReceiveTaskUpdate(body: Value, now: string) returns (resp: Response)
      modifies this
      ensures ParseTaskUpdate(body).Err? ==> resp == Unprocessable(ParseTaskUpdate(body).error) && queue == old(queue)
      ensures ParseTaskUpdate(body).Ok? ==>
                resp == TaskAccepted(ParseTaskUpdate(body).value.id, now) && queue == old(queue) + [ParseTaskUpdate(body).value]
    {
      match ParseTaskUpdate(body) {
        case Err(e) =>
          resp := Unprocessable(e);
        case Ok(t) =>
          resp := HandleTaskUpdate(t, now);
      }
    }

    /** The framework running the oldest queued background task after its response was sent. */
    method RunNext(now: string) returns (ran: bool)
      requires client.store.Valid()
      modifies this, client.store
      ensures client.store.Valid()
      ensures ran <==> old(queue) != []
      ensures !ran ==> queue == old(queue) && client.store.calls == old(client.store.calls)
      ensures ran ==>
                && queue == old(queue)[1..]
                && var r := Execute(ProcessPlan(old(queue)[0], now), |old(client.store.calls)|, client.store.down);
                   client.store.calls == old(client.store.calls) + AddCalls(r.attempted)
    {
      if queue == [] {
        return false;
      }
      var t := queue[0];
      queue := queue[1..];
      var _ := ProcessTaskUpdate(t, now);
      ran := true;
    }

    /** `handle_full_sync`: validation, then the client's sync, its result copied into the answer. */
    method HandleFullSync(body: Value, now: string) returns (resp: Response)
      requires client.store.Valid()
      modifies client.store
      ensures client.store.Valid()
      ensures ParseSync(body).Err? ==>
                resp == Unprocessable(ParseSync(body).error) && client.store.calls == old(client.store.calls)
      ensures ParseSync(body).Ok? ==>
                resp == SyncResponse(SyncReply(ParseSync(body).value, |old(client.store.calls)|, client.store.down, now), now)
      ensures ParseSync(body).Ok? ==>
                var tasks := ParseSync(body).value;
                var os := SyncOutcomes(tasks, |old(client.store.calls)|, client.store.down, now);
                var looped := old(client.store.calls) + AddCalls(SentBy(os));
                client.store.calls == if Aborted(os) then looped else looped + [AddCall(SummaryRecord(tasks, now))]
    {
      match ParseSync(body) {
        case Err(e) =>
          resp := Unprocessable(e);
        case Ok(tasks) =>
          var r := client.SyncWithTaskmaster(tasks, now);
          resp := SyncResponse(r, now);
      }
    }
  }

  /** One more write of a plan, made after its first `i` steps passed, extends the run to the first `i + 1` steps. */
  lemma PrefixStep(plan: seq<Step>, i: nat, rec: Record, start: seq<Call>, before: seq<Call>, after: seq<Call>, down: set<nat>)
    requires i < |plan| && plan[i] == Write(rec)
    requires var r := Execute(plan[..i], |start|, down); before == start + AddCalls(r.attempted) && r.outcome == Pass
    requires after == before + [AddCall(rec)]
    ensures var r := Execute(plan[..i + 1], |start|, down);
            after == start + AddCalls(r.attempted) && r.outcome == if |before| in down then Fail(StoreUnavailable) else Pass
  {
    assert plan[..i + 1] == plan[..i] + [Write(rec)];
    ExecuteOne(rec, |before|, down);
    RunThen(start, before, after, plan[..i], [Write(rec)], down);
  }

  /** A file write the store rejects ends `add_file_context` with the records up to and including it attempted. */
  lemma FileContextStops(plan: seq<Step>, i: nat, at0: nat, down: set<nat>)
    requires i < |plan|
    requires Execute(plan[..i], at0, down).outcome == Pass
    requires Execute(plan[..i + 1], at0, down).outcome.Fail?
    ensures Execute(plan, at0, down) == Execute(plan[..i + 1], at0, down)
  {
    assert plan == plan[..i + 1] + plan[i + 1..];
    ExecuteAppend(plan[..i + 1], plan[i + 1..], at0, down);
  }
}

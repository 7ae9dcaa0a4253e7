/**
 * The client wrapper around the remote store (src/mem0_client.py): it owns
 * the API key and the user scope, builds task-update records, reshapes
 * search hits and runs the full task-list sync.
 */
module Mem0Client {
  import opened Wrappers
  import opened Json
  import opened MemoryStore

  /** The ValueError raised when no API key is available. */
  datatype ConfigError = MissingApiKey

  /**
   * `api_key or os.getenv("MEM0_API_KEY")`: the key passed in unless it is
   * absent or empty, else the environment's; an absent or empty result is an error.
   */
  function ResolveApiKey(given: Option<string>, env: Option<string>): (r: Result<string, ConfigError>)
    ensures r.Ok? <==> (given.Some? && given.value != "") || (env.Some? && env.value != "")
    ensures r.Ok? ==> r.value != ""
    ensures given.Some? && given.value != "" ==> r == Ok(given.value)
    ensures (given.None? || given.value == "") && r.Ok? ==> r == Ok(env.value)
  {
    var key := if given.Some? && given.value != "" then given else env;
    if key.Some? && key.value != "" then Ok(key.value) else Err(MissingApiKey)
  }

  /**
   * `add_task_update`'s record for a task dict. Building it raises TypeError
   * when `', '.join(task.get('affected_files', []))` does; otherwise the
   * metadata carries the fixed tags and the task's id, agent and status
   * (None, here Null, when the key is missing).
   */
  function TaskUpdateStep(task: map<string, Value>, now: string): (s: Step)
    ensures s.Raise? <==> !Joinable(Get(task, "affected_files", List([])))
    ensures s.Write? ==> Kind(s.record) == Str("task_update")
  {
    var files := Get(task, "affected_files", List([]));
    if !Joinable(files) then Raise(TypeError)
    else
      var note := TaskNote(Get(task, "name", Str("Unknown")), Get(task, "status", Str("Unknown")),
                           Get(task, "progress", Int(0)), Get(task, "description", Str("")),
                           Get(task, "agent", Str("Unassigned")), files, now);
      Write(Record(note, UserScope,
        map["type" := Str("task_update"), "task_id" := Get(task, "id", Null), "project" := Str("utlyze"),
            "timestamp" := Str(now), "agent" := Get(task, "agent", Null), "status" := Get(task, "status", Null)]))
  }

  /**
   * A task-update record carries the fixed tags and the task's id, agent and
   * status; building it fails only with TypeError.
   */
  lemma TaskUpdateMetadata(task: map<string, Value>, now: string)
    ensures var s := TaskUpdateStep(task, now);
      && (s.Raise? ==> s.fault == TypeError)
      && (s.Write? ==>
        && s.record.userId == UserScope
        && s.record.metadata.Keys == {"type", "task_id", "project", "timestamp", "agent", "status"}
        && Kind(s.record) == Str("task_update")
        && s.record.metadata["project"] == Str("utlyze")
        && s.record.metadata["task_id"] == Get(task, "id", Null)
        && s.record.metadata["agent"] == Get(task, "agent", Null)
        && s.record.metadata["status"] == Get(task, "status", Null))
  {
  }

  /** `add_terminal_activity`'s record: it never raises while being built. */
  function TerminalActivityStep(activity: map<string, Value>, now: string): (s: Step)
    ensures s.Write? && s.record.userId == UserScope
    ensures Kind(s.record) == Str("terminal_activity")
    ensures s.record.metadata.Keys == {"type", "cwd", "timestamp"}
    ensures s.record.metadata["cwd"] == Get(activity, "cwd", Null)
  {
    var note := TerminalNote(Get(activity, "cwd", Str("Unknown")), Get(activity, "git_branch", Str("No git")),
                             Get(activity, "last_command", Str("")), now);
    Write(Record(note, UserScope,
      map["type" := Str("terminal_activity"), "cwd" := Get(activity, "cwd", Null), "timestamp" := Str(now)]))
  }

  /** The fixed phrase `get_current_context` searches for. */
  const ContextQuery: string := "utlyze project"

  /** `f"task_id: {task_id}"`: the task id can be read back from the query. */
  function TaskQuery(taskId: string): (q: string)
    ensures |q| == 9 + |taskId|
    ensures q[..9] == "task_id: " && q[9..] == taskId
  {
    "task_id: " + taskId
  }

  /** One entry of the current context. */
  datatype ContextEntry = ContextEntry(content: Value, metadata: Value, createdAt: Value)

  /** `context` is `hits` reshaped, entry by entry, with the defaults of `get_current_context`. */
  ghost predicate Reshaped(hits: seq<Hit>, context: seq<ContextEntry>)
  {
    && |context| == |hits|
    && forall i :: 0 <= i < |hits| ==>
         && context[i].content == Get(hits[i], "memory", Str(""))
         && context[i].metadata == Get(hits[i], "metadata", Obj(map[]))
         && context[i].createdAt == Get(hits[i], "created_at", Str(""))
  }

  /** The loop of `get_current_context`: one entry per hit, in hit order, defaults filled in. */
  method ShapeContext(hits: seq<Hit>) returns (context: seq<ContextEntry>)
    ensures Reshaped(hits, context)
  {
    context := [];
    for i := 0 to |hits|
      invariant Reshaped(hits[..i], context)
    {
      var memory := hits[i];
      context := context + [ContextEntry(Get(memory, "memory", Str("")), Get(memory, "metadata", Obj(map[])),
                                         Get(memory, "created_at", Str("")))];
    }
    assert hits[..|hits|] == hits;
  }

  /** The text of one sync error, `f"Error syncing task {task.get('id')}: {e}"`. */
  datatype SyncError = SyncError(taskId: Value, fault: Fault)

  datatype SyncResult = SyncResult(syncedTasks: nat, errors: seq<SyncError>)

  /** What happened to one task of a full sync. */
  datatype TaskOutcome =
    | Synced(record: Record)                  // the store accepted its task-update record
    | Rejected(record: Record, taskId: Value) // the store raised on that write
    | Unbuildable(taskId: Value, fault: Fault) // building the record raised; nothing was sent
    | Malformed                               // not a dict: the handler's own `task.get` raises

  /** The outcome of syncing one task whose write, if any, is the store's call number `at`. */
  function OutcomeOf(task: Value, at: nat, down: set<nat>, now: string): TaskOutcome
  {
    match task
    case Obj(m) =>
      (match TaskUpdateStep(m, now)
       case Raise(f) => Unbuildable(Get(m, "id", Null), f)
       case Write(r) => if at in down then Rejected(r, Get(m, "id", Null)) else Synced(r))
    case _ => Malformed
  }

  /** The records a sequence of outcomes sent to the store, in order. */
  function SentBy(os: seq<TaskOutcome>): seq<Record>
  {
    if os == [] then []
    else
      var o := os[|os| - 1];
      SentBy(os[..|os| - 1]) + if o.Synced? || o.Rejected? then [o.record] else []
  }

  function SyncedCount(os: seq<TaskOutcome>): nat
  {
    if os == [] then 0 else SyncedCount(os[..|os| - 1]) + if os[|os| - 1].Synced? then 1 else 0
  }

  /** The errors of a sequence of outcomes, in order: one per rejected or unbuildable task. */
  function Errors(os: seq<TaskOutcome>): seq<SyncError>
  {
    if os == [] then []
    else
      var o := os[|os| - 1];
      Errors(os[..|os| - 1]) +
        match o
        case Rejected(_, id) => [SyncError(id, StoreUnavailable)]
        case Unbuildable(id, f) => [SyncError(id, f)]
        case _ => []
  }

  /**
   * The outcomes of the sync loop over `tasks`, the first write being call
   * number `at`. A failing task does not stop the loop; only a task that is
   * not a dict does, as the last outcome.
   */
  function SyncOutcomes(tasks: seq<Value>, at: nat, down: set<nat>, now: string): (os: seq<TaskOutcome>)
    ensures |os| <= |tasks|
    decreases |tasks|
  {
    if tasks == [] then []
    else
      var o := OutcomeOf(tasks[0], at, down, now);
      if o.Malformed? then [o]
      else [o] + SyncOutcomes(tasks[1..], at + |SentBy([o])|, down, now)
  }

  /** The loop was cut short by a task that is not a dict. */
  predicate Aborted(os: seq<TaskOutcome>)
  {
    os != [] && os[|os| - 1].Malformed?
  }

  /** `len([t for t in tasks if t.get('status') != 'completed'])`, over dict tasks. */
  function ActiveCount(tasks: seq<Value>): nat
  {
    if tasks == [] then 0
    else
      var t := tasks[|tasks| - 1];
      ActiveCount(tasks[..|tasks| - 1]) +
        if t.Obj? && Get(t.fields, "status", Null) != Str("completed") then 1 else 0
  }

  /** The number of dict tasks whose status is "completed". */
  function CompletedCount(tasks: seq<Value>): nat
  {
    if tasks == [] then 0
    else
      var t := tasks[|tasks| - 1];
      CompletedCount(tasks[..|tasks| - 1]) +
        if t.Obj? && Get(t.fields, "status", Null) == Str("completed") then 1 else 0
  }

  /** Over dict tasks, the active ones are exactly those not completed: the two counts split the list. */
  lemma {:induction false} ActiveCountComplement(tasks: seq<Value>)
    requires forall i :: 0 <= i < |tasks| ==> tasks[i].Obj?
    ensures ActiveCount(tasks) + CompletedCount(tasks) == |tasks|
    decreases |tasks|
  {
    if tasks != [] {
      var n := |tasks| - 1;
      assert tasks[n].Obj?;
      ActiveCountComplement(tasks[..n]);
    }
  }

  /** The summary record written after the sync loop. */
  function SummaryRecord(tasks: seq<Value>, now: string): (r: Record)
    ensures r.userId == UserScope && Kind(r) == Str("sync_summary")
    ensures r.note == SyncNote(|tasks|, ActiveCount(tasks), now)
  {
    Record(SyncNote(|tasks|, ActiveCount(tasks), now), UserScope,
           map["type" := Str("sync_summary"), "timestamp" := Str(now)])
  }

  /**
   * What `sync_with_taskmaster` returns when it starts at call number `at`:
   * the tally, unless a task is not a dict (AttributeError) or the summary
   * write, which is outside the loop's `try`, raises.
   */
  function SyncReply(tasks: seq<Value>, at: nat, down: set<nat>, now: string): Result<SyncResult, Fault>
  {
    var os := SyncOutcomes(tasks, at, down, now);
    if Aborted(os) then Err(AttributeError)
    else if at + |SentBy(os)| in down then Err(StoreUnavailable)
    else Ok(SyncResult(SyncedCount(os), Errors(os)))
  }

  /** `o` is what syncing `task` can give: Malformed exactly for a task that is not a dict, and an error names the task's id. */
  predicate OutcomeFor(o: TaskOutcome, task: Value)
  {
    && (o.Malformed? <==> !task.Obj?)
    && ((o.Rejected? || o.Unbuildable?) ==> task.Obj? && o.taskId == Get(task.fields, "id", Null))
  }

  lemma OutcomeOfFor(task: Value, at: nat, down: set<nat>, now: string)
    ensures OutcomeFor(OutcomeOf(task, at, down, now), task)
  {
    if task.Obj? {
      match TaskUpdateStep(task.fields, now)
      case Raise(f) =>
      case Write(r) =>
    }
  }

  /**
   * The outcomes `os` line up with the tasks, in task order; they end early,
   * on a Malformed outcome, exactly when some task is not a dict, and
   * otherwise cover every task.
   */
  predicate Aligned(os: seq<TaskOutcome>, tasks: seq<Value>)
  {
    && |os| <= |tasks|
    && (forall i :: 0 <= i < |os| ==> OutcomeFor(os[i], tasks[i]))
    && (Aborted(os) <==> exists i :: 0 <= i < |tasks| && !tasks[i].Obj?)
    && (!Aborted(os) ==> |os| == |tasks|)
  }

  /** Alignment extends by one dict task at the front. */
  lemma AlignedCons(o: TaskOutcome, rest: seq<TaskOutcome>, tasks: seq<Value>)
    requires tasks != [] && tasks[0].Obj? && OutcomeFor(o, tasks[0])
    requires Aligned(rest, tasks[1..])
    ensures Aligned([o] + rest, tasks)
  {
    var os := [o] + rest;
    forall i | 0 < i < |os|
      ensures OutcomeFor(os[i], tasks[i])
    {
      assert os[i] == rest[i - 1] && tasks[i] == tasks[1..][i - 1];
    }
    if exists i :: 0 <= i < |tasks| && !tasks[i].Obj? {
      var i :| 0 <= i < |tasks| && !tasks[i].Obj?;
      assert tasks[1..][i - 1] == tasks[i];
    }
    if exists j :: 0 <= j < |tasks| - 1 && !tasks[1..][j].Obj? {
      var j :| 0 <= j < |tasks| - 1 && !tasks[1..][j].Obj?;
      assert tasks[j + 1] == tasks[1..][j];
    }
  }

  /** The sync loop's outcomes are aligned with its tasks. */
  lemma {:induction false} SyncOutcomesAligned(tasks: seq<Value>, at: nat, down: set<nat>, now: string)
    ensures Aligned(SyncOutcomes(tasks, at, down, now), tasks)
    decreases |tasks|
  {
    if tasks != [] {
      var o := OutcomeOf(tasks[0], at, down, now);
      OutcomeOfFor(tasks[0], at, down, now);
      if tasks[0].Obj? {
        var at' := at + |SentBy([o])|;
        assert SyncOutcomes(tasks, at, down, now) == [o] + SyncOutcomes(tasks[1..], at', down, now);
        SyncOutcomesAligned(tasks[1..], at', down, now);
        AlignedCons(o, SyncOutcomes(tasks[1..], at', down, now), tasks);
      } else {
        assert SyncOutcomes(tasks, at, down, now) == [o];
      }
    }
  }

  /** The fault an error outcome reports: the one raised while building the record, or the store's. */
  function FaultOf(o: TaskOutcome): Fault
  {
    if o.Unbuildable? then o.fault else StoreUnavailable
  }

  /** The positions of the outcomes that are not successes, in increasing order. */
  function FailedAt(os: seq<TaskOutcome>): (ix: seq<nat>)
    ensures forall k :: 0 <= k < |ix| ==> ix[k] < |os| && !os[ix[k]].Synced?
    ensures forall k, l :: 0 <= k < l < |ix| ==> ix[k] < ix[l]
    ensures forall i :: 0 <= i < |os| && !os[i].Synced? ==> i in ix
    decreases |os|
  {
    if os == [] then []
    else
      var n := |os| - 1;
      assert forall i :: 0 <= i < n ==> os[..n][i] == os[i];
      FailedAt(os[..n]) + (if !os[n].Synced? then [n] else [])
  }

  /**
   * Over outcomes without a Malformed one, lined up with their tasks: the
   * successes are the outcomes not failing, and error k is the one of the
   * k-th failing task, naming its id and its fault.
   */
  lemma {:induction false} ErrorsInOrder(os: seq<TaskOutcome>, tasks: seq<Value>)
    requires |os| <= |tasks|
    requires forall i :: 0 <= i < |os| ==> !os[i].Malformed? && OutcomeFor(os[i], tasks[i])
    ensures |Errors(os)| == |FailedAt(os)|
    ensures SyncedCount(os) == |os| - |FailedAt(os)|
    ensures forall k :: 0 <= k < |Errors(os)| ==>
              && tasks[FailedAt(os)[k]].Obj?
              && Errors(os)[k] == SyncError(Get(tasks[FailedAt(os)[k]].fields, "id", Null), FaultOf(os[FailedAt(os)[k]]))
    decreases |os|
  {
    if os != [] {
      var n := |os| - 1;
      assert forall i :: 0 <= i < n ==> os[..n][i] == os[i];
      ErrorsInOrder(os[..n], tasks);
      var prev := FailedAt(os[..n]);
      var errs := Errors(os[..n]);
      assert OutcomeFor(os[n], tasks[n]);
      forall k | 0 <= k < |Errors(os)|
        ensures && tasks[FailedAt(os)[k]].Obj?
                && Errors(os)[k] == SyncError(Get(tasks[FailedAt(os)[k]].fields, "id", Null), FaultOf(os[FailedAt(os)[k]]))
      {
        if k < |prev| {
          assert Errors(os)[k] == errs[k] && FailedAt(os)[k] == prev[k];
          assert os[prev[k]] == os[..n][prev[k]];
        } else {
          assert FailedAt(os)[k] == n;
        }
      }
    }
  }

  lemma {:induction false} SentByAppend(a: seq<TaskOutcome>, b: seq<TaskOutcome>)
    ensures SentBy(a + b) == SentBy(a) + SentBy(b)
    decreases |b|
  {
    if b == [] {
      assert a + b == a;
    } else {
      var n := |b| - 1;
      assert (a + b)[..|a| + n] == a + b[..n];
      assert (a + b)[|a| + n] == b[n];
      SentByAppend(a, b[..n]);
    }
  }

  /** The `i`-th outcome is task `i`'s, its write being the call numbered after every record sent before it. */
  lemma {:induction false} SyncOutcomeAt(tasks: seq<Value>, at: nat, down: set<nat>, now: string, i: nat)
    requires i < |SyncOutcomes(tasks, at, down, now)|
    ensures var os := SyncOutcomes(tasks, at, down, now);
            os[i] == OutcomeOf(tasks[i], at + |SentBy(os[..i])|, down, now)
    decreases i
  {
    var os := SyncOutcomes(tasks, at, down, now);
    var o := OutcomeOf(tasks[0], at, down, now);
    if i == 0 {
      assert os[..0] == [];
    } else {
      var at' := at + |SentBy([o])|;
      var rest := SyncOutcomes(tasks[1..], at', down, now);
      assert os == [o] + rest;
      SyncOutcomeAt(tasks[1..], at', down, now, i - 1);
      assert os[..i] == [o] + rest[..i - 1];
      SentByAppend([o], rest[..i - 1]);
      assert tasks[1..][i - 1] == tasks[i];
    }
  }

  /**
   * A dict task is synced exactly when its record builds and the store
   * accepts its call; otherwise its fault is TypeError when the record did
   * not build, and the store's when the write was rejected.
   */
  lemma SyncOutcomeMeaning(tasks: seq<Value>, at: nat, down: set<nat>, now: string, i: nat)
    requires i < |SyncOutcomes(tasks, at, down, now)| && tasks[i].Obj?
    ensures var os := SyncOutcomes(tasks, at, down, now);
            var step := TaskUpdateStep(tasks[i].fields, now);
            && (os[i].Synced? <==> step.Write? && at + |SentBy(os[..i])| !in down)
            && (!os[i].Synced? ==> FaultOf(os[i]) == if step.Raise? then TypeError else StoreUnavailable)
  {
    SyncOutcomeAt(tasks, at, down, now, i);
    TaskUpdateMetadata(tasks[i].fields, now);
  }

  /**
   * The sync's tally: it fails with AttributeError exactly when some task is
   * not a dict. When it answers, it covered every task; the synced count is
   * the number of tasks not failing, and the errors are one per failing
   * task, in task order, each naming that task's id and fault.
   */
  lemma SyncTally(tasks: seq<Value>, at: nat, down: set<nat>, now: string)
    ensures var r := SyncReply(tasks, at, down, now);
            var os := SyncOutcomes(tasks, at, down, now);
            && (r == Err(AttributeError) <==> exists i :: 0 <= i < |tasks| && !tasks[i].Obj?)
            && (r.Ok? ==>
                  && |os| == |tasks|
                  && (forall i :: 0 <= i < |tasks| ==> tasks[i].Obj?)
                  && r.value.syncedTasks == |tasks| - |FailedAt(os)|
                  && |r.value.errors| == |FailedAt(os)|
                  && forall k :: 0 <= k < |r.value.errors| ==>
                       r.value.errors[k] == SyncError(Get(tasks[FailedAt(os)[k]].fields, "id", Null), FaultOf(os[FailedAt(os)[k]])))
  {
    var os := SyncOutcomes(tasks, at, down, now);
    SyncOutcomesAligned(tasks, at, down, now);
    if !Aborted(os) {
      assert forall i :: 0 <= i < |os| ==> !os[i].Malformed? && OutcomeFor(os[i], tasks[i]) by {
        forall i | 0 <= i < |os| ensures !os[i].Malformed? && OutcomeFor(os[i], tasks[i]) {
          assert OutcomeFor(os[i], tasks[i]);
          assert tasks[i].Obj?;
        }
      }
      ErrorsInOrder(os, tasks);
    }
  }

  /** A dict task whose record builds is synced, or rejected when its call is scheduled to fail. */
  lemma OutcomeOfBuilt(task: map<string, Value>, at: nat, down: set<nat>, now: string)
    requires TaskUpdateStep(task, now).Write?
    ensures var rec := TaskUpdateStep(task, now).record;
            OutcomeOf(Obj(task), at, down, now) == if at in down then Rejected(rec, Get(task, "id", Null)) else Synced(rec)
  {
  }

  /** The tallies of a synced, a rejected and a synced outcome. */
  lemma TallyOfThree(x: Record, y: Record, z: Record, id: Value)
    ensures var os := [Synced(x), Rejected(y, id), Synced(z)];
            && |SentBy(os)| == 3 && SyncedCount(os) == 2 && Errors(os) == [SyncError(id, StoreUnavailable)]
            && !Aborted(os)
  {
    var o1, o2 := [Synced(x)], [Synced(x), Rejected(y, id)];
    var os := o2 + [Synced(z)];
    assert os[..2] == o2 && o2[..1] == o1 && o1[..0] == [];
    assert SentBy(o1) == [x] && SyncedCount(o1) == 1 && Errors(o1) == [];
    assert SentBy(o2) == [x, y] && SyncedCount(o2) == 1 && Errors(o2) == [SyncError(id, StoreUnavailable)];
    assert SentBy(os) == [x, y, z] && SyncedCount(os) == 2;
    assert os == [Synced(x), Rejected(y, id), Synced(z)];
  }

  /**
   * Three buildable tasks whose second write the store rejects: two are
   * synced and the one error names the second task.
   */
  lemma SecondOfThreeRejected(a: map<string, Value>, b: map<string, Value>, c: map<string, Value>,
                              at: nat, down: set<nat>, now: string)
    requires TaskUpdateStep(a, now).Write? && TaskUpdateStep(b, now).Write? && TaskUpdateStep(c, now).Write?
    requires at !in down && at + 1 in down && at + 2 !in down && at + 3 !in down
    ensures SyncReply([Obj(a), Obj(b), Obj(c)], at, down, now) ==
            Ok(SyncResult(2, [SyncError(Get(b, "id", Null), StoreUnavailable)]))
  {
    var tasks := [Obj(a), Obj(b), Obj(c)];
    var x, y, z := TaskUpdateStep(a, now).record, TaskUpdateStep(b, now).record, TaskUpdateStep(c, now).record;
    OutcomeOfBuilt(a, at, down, now);
    OutcomeOfBuilt(b, at + 1, down, now);
    OutcomeOfBuilt(c, at + 2, down, now);
    var os := [Synced(x), Rejected(y, Get(b, "id", Null)), Synced(z)];
    assert SentBy([Synced(x)]) == [x] && SentBy([Rejected(y, Get(b, "id", Null))]) == [y] && SentBy([Synced(z)]) == [z];
    assert tasks[1..] == [Obj(b), Obj(c)] && tasks[1..][1..] == [Obj(c)] && tasks[1..][1..][1..] == [];
    assert SyncOutcomes([Obj(c)], at + 2, down, now) == [Synced(z)];
    assert SyncOutcomes([Obj(b), Obj(c)], at + 1, down, now) == [Rejected(y, Get(b, "id", Null))] + [Synced(z)];
    assert SyncOutcomes(tasks, at, down, now) == os;
    TallyOfThree(x, y, z, Get(b, "id", Null));
  }

  /** Over a dict task the loop moves on to the next task, its write having been one call or none. */
  lemma SyncOutcomesStep(tasks: seq<Value>, i: nat, at: nat, down: set<nat>, now: string)
    requires i < |tasks| && tasks[i].Obj?
    ensures var o := OutcomeOf(tasks[i], at, down, now);
            SyncOutcomes(tasks[i..], at, down, now) == [o] + SyncOutcomes(tasks[i + 1..], at + |SentBy([o])|, down, now)
  {
    assert tasks[i..][0] == tasks[i] && tasks[i..][1..] == tasks[i + 1..];
  }

  /**
   * The outcome of a dict task is what running its task-update step does:
   * the record it sends, success exactly when the store accepts, and the
   * error entry naming the task's id and the fault otherwise.
   */
  lemma TaskOutcomeIsRun(task: map<string, Value>, at: nat, down: set<nat>, now: string)
    ensures var o := OutcomeOf(Obj(task), at, down, now);
            var r := Execute([TaskUpdateStep(task, now)], at, down);
            && SentBy([o]) == r.attempted
            && (o.Synced? <==> r.outcome == Pass)
            && (r.outcome.Fail? ==> Errors([o]) == [SyncError(Get(task, "id", Null), r.outcome.fault)])
  {
    var o := OutcomeOf(Obj(task), at, down, now);
    assert SentBy([o]) == SentBy([]) + (if o.Synced? || o.Rejected? then [o.record] else []);
  }

  /** The tallies of outcomes extend outcome by outcome. */
  lemma TallyAppend(outs: seq<TaskOutcome>, o: TaskOutcome)
    ensures SentBy(outs + [o]) == SentBy(outs) + SentBy([o])
    ensures SyncedCount(outs + [o]) == SyncedCount(outs) + (if o.Synced? then 1 else 0)
    ensures Errors(outs + [o]) == Errors(outs) + Errors([o])
  {
    assert (outs + [o])[..|outs|] == outs;
    assert [o][..0] == [];
  }

  /** One pass of the sync loop over a dict task: the store saw exactly the records of its outcome. */
  lemma SyncAdvanceCalls(task: map<string, Value>, outs: seq<TaskOutcome>, start: seq<Call>,
                         calls: seq<Call>, calls': seq<Call>, down: set<nat>, now: string)
    requires calls == start + AddCalls(SentBy(outs))
    requires calls' == calls + AddCalls(Execute([TaskUpdateStep(task, now)], |calls|, down).attempted)
    ensures calls' == start + AddCalls(SentBy(outs + [OutcomeOf(Obj(task), |calls|, down, now)]))
  {
    var o := OutcomeOf(Obj(task), |calls|, down, now);
    TaskOutcomeIsRun(task, |calls|, down, now);
    TallyAppend(outs, o);
    CallsCompose(start, calls, calls', SentBy(outs), SentBy([o]));
  }

  /** One pass of the sync loop over a dict task: the outcomes still to come are those of the remaining tasks. */
  lemma SyncAdvanceOutcomes(tasks: seq<Value>, i: nat, outs: seq<TaskOutcome>, at0: nat, at: nat, at': nat,
                            down: set<nat>, now: string)
    requires i < |tasks| && tasks[i].Obj?
    requires SyncOutcomes(tasks, at0, down, now) == outs + SyncOutcomes(tasks[i..], at, down, now)
    requires at' == at + |Execute([TaskUpdateStep(tasks[i].fields, now)], at, down).attempted|
    ensures SyncOutcomes(tasks, at0, down, now) ==
            (outs + [OutcomeOf(tasks[i], at, down, now)]) + SyncOutcomes(tasks[i + 1..], at', down, now)
  {
    SyncOutcomesStep(tasks, i, at, down, now);
    TaskOutcomeIsRun(tasks[i].fields, at, down, now);
  }

  /** One pass of the sync loop over a dict task: the tallies grow by its outcome. */
  lemma SyncAdvanceTally(task: map<string, Value>, outs: seq<TaskOutcome>, at: nat, down: set<nat>, now: string, out: Outcome)
    requires out == Execute([TaskUpdateStep(task, now)], at, down).outcome
    ensures SyncedCount(outs + [OutcomeOf(Obj(task), at, down, now)]) == SyncedCount(outs) + (if out.Pass? then 1 else 0)
    ensures Errors(outs + [OutcomeOf(Obj(task), at, down, now)]) ==
            Errors(outs) + (if out.Pass? then [] else [SyncError(Get(task, "id", Null), out.fault)])
    ensures !Aborted(outs + [OutcomeOf(Obj(task), at, down, now)])
  {
    var o := OutcomeOf(Obj(task), at, down, now);
    TaskOutcomeIsRun(task, at, down, now);
    TallyAppend(outs, o);
  }

  /**
   * Where the sync loop stands before task `i`: the outcomes so far are the
   * first `i` of the whole loop's, the store saw exactly their records, and
   * the tallies are theirs.
   */
  ghost predicate SyncProgress(tasks: seq<Value>, i: nat, outs: seq<TaskOutcome>, start: seq<Call>, calls: seq<Call>,
                               synced: int, errors: seq<SyncError>, down: set<nat>, now: string)
  {
    && i <= |tasks| && |outs| == i && !Aborted(outs)
    && calls == start + AddCalls(SentBy(outs))
    && SyncOutcomes(tasks, |start|, down, now) == outs + SyncOutcomes(tasks[i..], |calls|, down, now)
    && synced == SyncedCount(outs) && errors == Errors(outs)
  }

  /** One pass of the sync loop over a dict task keeps the loop's progress. */
  lemma SyncProgressStep(tasks: seq<Value>, i: nat, outs: seq<TaskOutcome>, start: seq<Call>, calls: seq<Call>, calls': seq<Call>,
                         synced: int, errors: seq<SyncError>, out: Outcome, down: set<nat>, now: string)
    requires SyncProgress(tasks, i, outs, start, calls, synced, errors, down, now)
    requires i < |tasks| && tasks[i].Obj?
    requires var r := Execute([TaskUpdateStep(tasks[i].fields, now)], |calls|, down);
             calls' == calls + AddCalls(r.attempted) && out == r.outcome
    ensures SyncProgress(tasks, i + 1, outs + [OutcomeOf(tasks[i], |calls|, down, now)], start, calls',
                         synced + (if out.Pass? then 1 else 0),
                         errors + (if out.Pass? then [] else [SyncError(Get(tasks[i].fields, "id", Null), out.fault)]),
                         down, now)
  {
    var task := tasks[i].fields;
    SyncAdvanceCalls(task, outs, start, calls, calls', down, now);
    SyncAdvanceOutcomes(tasks, i, outs, |start|, |calls|, |calls'|, down, now);
    SyncAdvanceTally(task, outs, |calls|, down, now, out);
  }

  /** A task that is not a dict ends the loop: the reply is AttributeError and nothing more is sent. */
  lemma SyncAbortsAt(tasks: seq<Value>, i: nat, outs: seq<TaskOutcome>, at0: nat, at: nat, down: set<nat>, now: string)
    requires i < |tasks| && !tasks[i].Obj?
    requires SyncOutcomes(tasks, at0, down, now) == outs + SyncOutcomes(tasks[i..], at, down, now)
    ensures SyncOutcomes(tasks, at0, down, now) == outs + [Malformed]
    ensures Aborted(SyncOutcomes(tasks, at0, down, now))
    ensures SyncReply(tasks, at0, down, now) == Err(AttributeError)
    ensures SentBy(SyncOutcomes(tasks, at0, down, now)) == SentBy(outs)
  {
    assert tasks[i..][0] == tasks[i];
    TallyAppend(outs, Malformed);
    assert SentBy([Malformed]) == SentBy([]) == [];
  }

  /** When the loop has run over every task, its tallies are the reply's and the summary write comes next. */
  lemma SyncFinishes(tasks: seq<Value>, outs: seq<TaskOutcome>, start: seq<Call>, calls: seq<Call>,
                     synced: int, errors: seq<SyncError>, down: set<nat>, now: string)
    requires SyncProgress(tasks, |tasks|, outs, start, calls, synced, errors, down, now)
    ensures var os := SyncOutcomes(tasks, |start|, down, now);
            && !Aborted(os) && calls == start + AddCalls(SentBy(os))
            && SyncReply(tasks, |start|, down, now) ==
                 if |calls| in down then Err(StoreUnavailable) else Ok(SyncResult(synced, errors))
  {
    assert tasks[|tasks|..] == [];
    assert SyncOutcomes(tasks[|tasks|..], |calls|, down, now) == [];
    assert outs + [] == outs;
    assert SyncOutcomes(tasks, |start|, down, now) == outs;
    assert |calls| == |start| + |SentBy(outs)|;
  }

  class UtlyzeClient {
    const apiKey: string
    const userId: string := UserScope
    const store: RemoteStore

    constructor (apiKey: string, store: RemoteStore)
      requires apiKey != ""
      ensures this.apiKey == apiKey && this.userId == UserScope && this.store == store
    {
      this.apiKey := apiKey;
      this.store := store;
    }

    /** `add_task_update`: one write, unless building the record raises first. */
    method AddTaskUpdate(task: map<string, Value>, now: string) returns (out: Outcome)
      requires store.Valid()
      modifies store
      ensures store.Valid()
      ensures var r := Execute([TaskUpdateStep(task, now)], |old(store.calls)|, store.down);
              store.calls == old(store.calls) + AddCalls(r.attempted) && out == r.outcome
    {
      match TaskUpdateStep(task, now) {
        case Raise(f) =>
          out := Fail(f);
        case Write(rec) =>
          out := store.Add(rec);
      }
    }

    /** `add_terminal_activity`: one write. */
    method AddTerminalActivity(activity: map<string, Value>, now: string) returns (out: Outcome)
      requires store.Valid()
      modifies store
      ensures store.Valid()
      ensures var r := Execute([TerminalActivityStep(activity, now)], |old(store.calls)|, store.down);
              store.calls == old(store.calls) + AddCalls(r.attempted) && out == r.outcome
    {
      out := store.Add(TerminalActivityStep(activity, now).record);
    }

    /** `get_current_context(limit)`: one search for the fixed phrase, its hits reshaped in order. */
    method GetCurrentContext(limit: int) returns (r: Result<seq<ContextEntry>, Fault>)
      requires store.Valid()
      modifies store
      ensures store.Valid()
      ensures store.calls == old(store.calls) + [SearchCall(ContextQuery, UserScope, Some(limit))]
      ensures r.Err? <==> |old(store.calls)| in store.down
      ensures r.Ok? ==> Reshaped(store.answer(ContextQuery, UserScope, Some(limit)), r.value)
    {
      var found := store.Search(ContextQuery, userId, Some(limit));
      match found {
        case Err(e) =>
          r := Err(e);
        case Ok(hits) =>
          var context := ShapeContext(hits);
          r := Ok(context);
      }
    }

    /** `get_task_context(task_id)`: one search for "task_id: <id>", hits returned as they come. */
    method GetTaskContext(taskId: string) returns (r: Result<seq<Hit>, Fault>)
      requires store.Valid()
      modifies store
      ensures store.Valid()
      ensures store.calls == old(store.calls) + [SearchCall(TaskQuery(taskId), UserScope, None)]
      ensures r == if |old(store.calls)| in store.down then Err(StoreUnavailable)
                   else Ok(store.answer(TaskQuery(taskId), UserScope, None))
    {
      r := store.Search(TaskQuery(taskId), userId, None);
    }

    /**
     * `sync_with_taskmaster`: one task-update write per dict task, failures
     * tallied and skipped, then exactly one summary write.
     */
    method SyncWithTaskmaster(tasks: seq<Value>, now: string) returns (r: Result<SyncResult, Fault>)
      requires store.Valid()
      modifies store
      ensures store.Valid()
      ensures r == SyncReply(tasks, |old(store.calls)|, store.down, now)
      ensures var os := SyncOutcomes(tasks, |old(store.calls)|, store.down, now);
              var looped := old(store.calls) + AddCalls(SentBy(os));
              store.calls == if Aborted(os) then looped else looped + [AddCall(SummaryRecord(tasks, now))]
    {
      ghost var at0 := |store.calls|;
      ghost var outs: seq<TaskOutcome> := [];
      var synced := 0;
      var errors: seq<SyncError> := [];
      var i := 0;
      while i < |tasks|
        invariant store.Valid()
        invariant SyncProgress(tasks, i, outs, old(store.calls), store.calls, synced, errors, store.down, now)
        decreases |tasks| - i
      {
        if !tasks[i].Obj? {
          SyncAbortsAt(tasks, i, outs, at0, |store.calls|, store.down, now);
          return Err(AttributeError);
        }
        ghost var before := store.calls;
        var task := tasks[i].fields;
        var out := AddTaskUpdate(task, now);
        SyncProgressStep(tasks, i, outs, old(store.calls), before, store.calls, synced, errors, out, store.down, now);
        if out.Pass? {
          synced := synced + 1;
        } else {
          errors := errors + [SyncError(Get(task, "id", Null), out.fault)];
        }
        outs := outs + [OutcomeOf(tasks[i], |before|, store.down, now)];
        i := i + 1;
      }
      SyncFinishes(tasks, outs, old(store.calls), store.calls, synced, errors, store.down, now);
      var out := store.Add(SummaryRecord(tasks, now));
      if out.Fail? {
        return Err(out.fault);
      }
      r := Ok(SyncResult(synced, errors));
    }
  }

  /** The constructor together with its ValueError: no client exists without a key. */
  method Connect(given: Option<string>, env: Option<string>, store: RemoteStore) returns (r: Result<UtlyzeClient, ConfigError>)
    ensures ResolveApiKey(given, env).Err? <==> r.Err?
    ensures r.Ok? ==> r.value.apiKey == ResolveApiKey(given, env).value && r.value.userId == UserScope && r.value.store == store
  {
    match ResolveApiKey(given, env) {
      case Err(e) =>
        r := Err(e);
      case Ok(key) =>
        var client := new UtlyzeClient(key, store);
        r := Ok(client);
    }
  }
}

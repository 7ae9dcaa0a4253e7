# Utlyze Taskmaster–Mem0 ingestion core, modelled in Dafny

This project models how the Utlyze Taskmaster–Mem0 integration ingests
development activity and task updates into the Mem0 memory store.

- **The remote store** (`memory_store.dfy`, module `MemoryStore`). Mem0's
  `MemoryClient` as the core sees it: a class `RemoteStore` holding every
  call made so far (`calls`) and the records it kept (`log`). A fixed
  failure schedule (`down`) says which call numbers raise. Sequences of
  writes made inside one `try` are described by a plan of `Step`s, and
  `Execute` states what such a plan sends and how it ends.
- **The client** (`mem0_client.dfy`, module `Mem0Client`, from
  `src/mem0_client.py`). It resolves the API key. It builds the
  task-update and terminal-activity records and reshapes search hits into
  context entries. It also runs the full task-list sync, which counts
  successes, collects one error per failing task and then writes one
  summary.
- **The webhook bridge** (`taskmaster_bridge.dfy`, module
  `TaskmasterBridge`, from `src/taskmaster_bridge.py`). It validates the
  `TaskUpdate` payload, acknowledges it and queues its processing. The
  processing fans out into one task-update record, a completion record
  for completed tasks and one file-activity record per affected file. The
  bridge also forwards a full sync to the client.
- **The activity monitor** (`activity_monitor.dfy`, module
  `ActivityMonitor`, from `src/activity_monitor.py`). It samples the
  terminal context: the working directory, the git state from the outputs
  of the three git commands, and the recently modified visible files of
  the working tree. It decides whether the sample changed materially since
  the last stored context. On a change it writes one development-activity
  record, and it remembers the context only after the store accepted it.
- **Helpers.** `json.dfy` models Python dict and list values (`.get`,
  truthiness, what `', '.join` accepts). `py_text.dfy` models
  `str.strip`, `str.splitlines` and `os.path.basename`. `wrappers.dfy`
  holds `Option` and `Result`.

Every method that touches the store is proved against a pure function of
the store's state before the call. The method's `ensures` says that the
store's calls grew by exactly the records that function attempted, and
that its outcome is that function's. The store keeps its invariant
`Valid()`: the log is exactly the accepted adds. The lemmas then prove
the promised properties of those functions: write order, counts, which
metadata each record carries, and when a sequence stops.

Four behaviours of the code are easy to misread, and the model keeps them:

- The fan-out steps of `process_task_update` share one `try`, so the
  first failure skips every later step.
- `progress` is any integer; no 0–100 range is checked.
- The recent files are the first ten in walk order, not the ten most
  recently modified.
- A task of a full sync that is not a dict makes the error handler
  itself raise (`task.get`). The whole sync then fails with
  AttributeError and no summary is written.

## Model

| member | source | states |
|---|---|---|
| Json.Get | src/mem0_client.py:32-47 | `d.get(key, default)`: the key's value when present, else the default; used by every record builder |
| Json.Truthy | src/taskmaster_bridge.py:150 | Python truthiness: None, False, 0, "", [] and {} are false; it decides the file fan-out (NoFilesNoFileWrites) and the key fallback (ResolveApiKey) |
| Json.Joinable | src/mem0_client.py:37 | what `', '.join` accepts: a string, a dict or a list of strings; it decides whether the task-update record builds (TaskUpdateStep) |
| PyText.Strip | src/activity_monitor.py:50 | `str.strip()`: the result is the slice of the input between a run of leading and a run of trailing whitespace; it neither starts nor ends with whitespace, and it is empty exactly when the input is all whitespace |
| PyText.SplitLines | src/activity_monitor.py:70 | `str.splitlines()`: no line holds a line boundary, and there are no lines exactly when the text is empty |
| PyText.SplitLinesCount | src/activity_monitor.py:70 | `splitlines()` gives one line per boundary (`\r\n` counting once), plus one for text after the last boundary |
| PyText.Basename | src/activity_monitor.py:110 | `os.path.basename`: the part of the path after its last `/`, holding no `/` itself |
| MemoryStore.RemoteStore.Add | src/mem0_client.py:50 | `client.add`: one more call; it raises exactly when that call is scheduled to fail, and the log keeps only accepted records |
| MemoryStore.RemoteStore.Search | src/mem0_client.py:76-80 | `client.search`: one more call; it raises when scheduled to, otherwise returns the store's hits for the query, user scope and limit; the log is unchanged |
| MemoryStore.Execute | src/taskmaster_bridge.py:140-154 | writes made inside one `try`: never more attempts than steps; its properties are stated by ExecuteFollowsPlan, ExecutePasses, ExecuteStops and ExecuteAppend |
| MemoryStore.ExecuteFollowsPlan | src/taskmaster_bridge.py:141-151 | writes inside one `try` are attempted in plan order: the i-th record sent is the i-th step's |
| MemoryStore.ExecutePasses | src/taskmaster_bridge.py:140-154 | a sequence of writes succeeds exactly when every step builds its record and the store accepts every write; it then sent every planned record |
| MemoryStore.ExecuteStops | src/taskmaster_bridge.py:140-154 | a failing sequence stopped at the first step that raised or at the first rejected write, and every earlier write was accepted |
| MemoryStore.ExecuteAppend | src/taskmaster_bridge.py:143-151 | running two stretches in one `try` is running their concatenation: the second runs only when the first passed |
| MemoryStore.AcceptedAfterRun | src/mem0_client.py:50 | after a sequence of writes, the store's log grew by exactly the records it accepted |
| Mem0Client.ResolveApiKey | src/mem0_client.py:20-23 | `api_key or os.getenv("MEM0_API_KEY")`: the given key unless it is absent or empty, else the environment's; an error exactly when both are absent or empty |
| Mem0Client.Connect | src/mem0_client.py:20-27 | the constructor raises ValueError exactly when no key resolves; otherwise the client holds that key and the user scope "utlyze" |
| Mem0Client.TaskUpdateStep | src/mem0_client.py:29-48 | building the task-update record raises exactly when `affected_files` cannot be joined; otherwise the record's type is "task_update" |
| Mem0Client.TaskUpdateMetadata | src/mem0_client.py:41-50 | the task-update metadata has exactly the keys type, task_id, project, timestamp, agent and status: type "task_update", project "utlyze", and task_id, agent and status copied from the task; user scope "utlyze" |
| Mem0Client.UtlyzeClient.AddTaskUpdate | src/mem0_client.py:29-52 | one store write of the task-update record, or none when building it raises; the outcome is the write's |
| Mem0Client.TerminalActivityStep | src/mem0_client.py:54-68 | the terminal-activity record always builds, with type "terminal_activity", the activity's cwd and user scope "utlyze" |
| Mem0Client.UtlyzeClient.AddTerminalActivity | src/mem0_client.py:54-71 | exactly one store write, of the terminal-activity record |
| Mem0Client.TaskQuery | src/mem0_client.py:95-96 | the query is "task_id: " followed by the task id, which can be read back from it |
| Mem0Client.ShapeContext | src/mem0_client.py:83-91 | one context entry per hit, in hit order, with `memory`, `metadata` and `created_at` defaulting to "", {} and "" |
| Mem0Client.UtlyzeClient.GetCurrentContext | src/mem0_client.py:73-91 | one search for "utlyze project" with the given limit and user scope "utlyze"; the hits are reshaped in order; an error exactly when the search raises |
| Mem0Client.UtlyzeClient.GetTaskContext | src/mem0_client.py:93-99 | one search for "task_id: <id>" in user scope "utlyze", with no limit; the hits are returned as they come |
| Mem0Client.SummaryRecord | src/mem0_client.py:116-128 | the summary record has type "sync_summary" and user scope "utlyze", and its note counts all tasks and the active ones |
| Mem0Client.ActiveCountComplement | src/mem0_client.py:120 | over dict tasks, the active count and the count of completed tasks add up to the number of tasks |
| Mem0Client.TaskOutcomeIsRun | src/mem0_client.py:110-114 | one task's outcome is its write: success exactly when the store accepts it, otherwise one error holding the task's id and the fault |
| Mem0Client.SyncOutcomesAligned | src/mem0_client.py:109-114 | the per-task outcomes follow the task order; a failing task does not stop the loop; the loop ends early exactly when some task is not a dict, and otherwise covers every task |
| Mem0Client.SyncOutcomes | src/mem0_client.py:109-114 | the loop over the tasks, one outcome per task visited; its properties are stated by SyncOutcomeAt, SyncOutcomeMeaning, SyncOutcomesAligned and SyncTally |
| Mem0Client.SyncOutcomeAt | src/mem0_client.py:109-114 | the i-th outcome is task i's, its write being the call numbered after every record written before it |
| Mem0Client.SyncOutcomeMeaning | src/mem0_client.py:110-114 | a dict task is synced exactly when its record builds and the store accepts its call; otherwise its fault is TypeError for a record that did not build and the store's error for a rejected write |
| Mem0Client.FailedAt | src/mem0_client.py:110-114 | the positions of the tasks that did not sync, strictly increasing, and every such position |
| Mem0Client.ErrorsInOrder | src/mem0_client.py:110-114 | the synced count is the number of outcomes not failing, and error k names the id and the fault of the k-th failing task |
| Mem0Client.SyncReply | src/mem0_client.py:101-130 | the sync's reply: AttributeError when a task is not a dict, the summary write's fault when it is rejected, else the tally; its properties are stated by SyncTally and SecondOfThreeRejected |
| Mem0Client.SyncTally | src/mem0_client.py:103-130 | the sync fails with AttributeError exactly when a task is not a dict; a successful reply covered every task, `synced_tasks` is the number of tasks not failing, and the errors are one per failing task, in task order, each naming that task's id and fault |
| Mem0Client.TallyOfThree | src/mem0_client.py:110-114 | synced, rejected, synced: three records sent, two synced, one error naming the rejected task |
| Mem0Client.SecondOfThreeRejected | src/mem0_client.py:103-130 | three buildable tasks whose second write is rejected give `synced_tasks` 2 and one error naming the second task |
| Mem0Client.SyncAbortsAt | src/mem0_client.py:109-114 | a task that is not a dict ends the sync with AttributeError, and nothing more is written |
| Mem0Client.UtlyzeClient.SyncWithTaskmaster | src/mem0_client.py:101-130 | one write attempt per dict task, then exactly one summary write unless the loop aborted; the reply is the loop's tally, or the summary write's fault, which propagates |
| TaskmasterBridge.ParseTaskUpdate | src/taskmaster_bridge.py:35-44 | validation: a non-object or a missing `id` is refused; an accepted payload had the four required fields; every model field present in the payload is carried into the update unchanged |
| TaskmasterBridge.ToDict | src/taskmaster_bridge.py:73 | `task.dict()` has exactly the eight model fields |
| TaskmasterBridge.ParseToDict | src/taskmaster_bridge.py:35-44 | validating the dict of any update gives that update back, whatever its progress (no range check) |
| TaskmasterBridge.ParseDefaults | src/taskmaster_bridge.py:41-44 | with only the required fields given, description is "", agent is "unassigned", affected_files is [] and metadata is {} |
| TaskmasterBridge.UpdateStep | src/taskmaster_bridge.py:143 | the update's task-update record is refused exactly when its affected files cannot be joined; otherwise its type is "task_update" and its user scope "utlyze" |
| TaskmasterBridge.UpdateStepOfDict | src/taskmaster_bridge.py:143 | the update's record is `add_task_update` applied to `task.dict()` |
| TaskmasterBridge.CompletionStep | src/taskmaster_bridge.py:157-176 | the completion record has type "task_completion", the task's id and user scope "utlyze" |
| TaskmasterBridge.FileStep | src/taskmaster_bridge.py:181-198 | a file record always builds, with type "file_activity", the file's path, the task's id and user scope "utlyze" |
| TaskmasterBridge.FileContextPlan | src/taskmaster_bridge.py:179-198 | `add_file_context`'s writes: one file step per affected file, in list order, or a TypeError for a null list; its properties are stated by ProcessRecordsName and Bridge.AddFileContext |
| TaskmasterBridge.ProcessPlan | src/taskmaster_bridge.py:139-154 | the fan-out's steps; its properties are stated by PlanShape, PlanKinds, PlannedKinds, ProcessOrder, NoFilesNoFileWrites and ProcessPasses |
| TaskmasterBridge.PlannedKinds | src/taskmaster_bridge.py:143-151 | 1 + [completed] + \|affected_files\| records are planned |
| TaskmasterBridge.PlanShape | src/taskmaster_bridge.py:139-151 | the fan-out's steps by position: the update first, then the completion when the status is "completed", then one file step per affected file in list order |
| TaskmasterBridge.PlanKinds | src/taskmaster_bridge.py:139-151 | each step of the fan-out writes a record of the type planned for its position |
| TaskmasterBridge.ProcessOrder | src/taskmaster_bridge.py:143-151 | records are attempted as task_update, then task_completion for a completed task, then file_activity; a full success writes 1 + [completed] + \|affected_files\| records |
| TaskmasterBridge.ProcessRecordsName | src/taskmaster_bridge.py:168-198 | each attempted file record names its own file, in list order, and the task id; the completion record names the task id |
| TaskmasterBridge.ProcessRecordsScoped | src/taskmaster_bridge.py:139-198 | every record the fan-out attempts is written in user scope "utlyze" |
| TaskmasterBridge.NoFilesNoFileWrites | src/taskmaster_bridge.py:150-151 | an empty, missing or null list of affected files gives no file_activity write |
| TaskmasterBridge.ProcessPasses | src/taskmaster_bridge.py:140-154 | the fan-out succeeds exactly when the files can be joined, a completed task has metadata, and the store accepts every planned write |
| TaskmasterBridge.ParseSync | src/taskmaster_bridge.py:47-50 | a valid sync body is an object whose `tasks` is a list; that list is the result |
| TaskmasterBridge.SyncResponse | src/taskmaster_bridge.py:94-105 | "synced" with `synced_tasks` and `errors` copied unchanged from the sync result, or a server error carrying the fault |
| TaskmasterBridge.Bridge.HandleTaskCompletion | src/taskmaster_bridge.py:157-176 | one completion write, or none when building the record raises |
| TaskmasterBridge.Bridge.AddFileContext | src/taskmaster_bridge.py:179-198 | one write per affected file, in list order, stopping at the first that raises; a null list raises before any write |
| TaskmasterBridge.Bridge.ProcessTaskUpdate | src/taskmaster_bridge.py:139-154 | the store sees exactly the fan-out's attempted records, ending at the first failure; the method always returns normally |
| TaskmasterBridge.Bridge.HandleTaskUpdate | src/taskmaster_bridge.py:63-80 | the answer is "accepted" with the input's id; the update is only queued, and the store is untouched |
| TaskmasterBridge.Bridge.ReceiveTaskUpdate | src/taskmaster_bridge.py:63-80 | a body that fails validation is refused and queues nothing; a valid one is acknowledged with its id and queued |
| TaskmasterBridge.Bridge.RunNext | src/taskmaster_bridge.py:71-74 | the queued background task runs after the response, oldest first, and performs the fan-out |
| TaskmasterBridge.Bridge.HandleFullSync | src/taskmaster_bridge.py:87-105 | a valid body runs the client's sync and copies its result: the store sees one write attempt per dict task, then the summary write unless the loop aborted; an invalid body writes nothing |
| ActivityMonitor.GitInfoFrom | src/activity_monitor.py:42-73 | any failed git command gives no git info; otherwise the branch and commit are the stripped outputs, the tree is dirty exactly when the stripped status is non-empty, and the modified-file count is the number of lines of the stripped status: its line boundaries plus one, or zero when the tree is clean |
| ActivityMonitor.Walk | src/activity_monitor.py:82-97 | the recent files in `os.walk` order; its properties are stated by WalkSound, WalkComplete and CollectRecent |
| ActivityMonitor.WalkSound | src/activity_monitor.py:82-97 | every path the walk reports is visible at each component and names a file of the tree, below readable directories, modified less than 3600 s ago |
| ActivityMonitor.WalkComplete | src/activity_monitor.py:82-97 | every visible path to a file below readable directories modified less than 3600 s ago is reported by the walk |
| ActivityMonitor.RecentFiles | src/activity_monitor.py:75-102 | the first ten files of the walk, or none outside a directory; its properties are stated by RecentFilesSound and RecentFilesComplete |
| ActivityMonitor.RecentFilesComplete | src/activity_monitor.py:84-99 | when the walk finds at most ten files, every visible recent file of the tree is among the open files |
| ActivityMonitor.CollectRecent | src/activity_monitor.py:82-97 | the nested walk loops collect exactly the walk's recent files, in top-down order, skipping hidden names and hidden directories |
| ActivityMonitor.GetOpenFiles | src/activity_monitor.py:75-102 | the open files are the first ten recent files of the walk |
| ActivityMonitor.RecentFilesSound | src/activity_monitor.py:84-99 | at most 10 paths, a prefix of the walk of length min(walk, 10), each visible and modified less than an hour ago |
| ActivityMonitor.ContextOf | src/activity_monitor.py:104-134 | the `git` key is absent exactly when a git probe failed; `virtual_env` is present exactly when VIRTUAL_ENV is set and non-empty; cwd and recent files come from the sample |
| ActivityMonitor.GetTerminalContext | src/activity_monitor.py:104-134 | the context is the sample of the environment |
| ActivityMonitor.HasActivityChanged | src/activity_monitor.py:136-160 | a change when nothing is stored, or when cwd, branch, the set of recent files or the dirty flag differs; its properties are stated by ChangedWhenNothingStored, UnchangedWhenReordered, ImmaterialFieldsIgnored and GitAppearingIsChange |
| ActivityMonitor.ChangedWhenNothingStored | src/activity_monitor.py:138-139 | with nothing stored, every snapshot is a change |
| ActivityMonitor.UnchangedWhenReordered | src/activity_monitor.py:141-160 | a snapshot is no change against itself, nor against a reordering of its recent files |
| ActivityMonitor.ImmaterialFieldsIgnored | src/activity_monitor.py:141-160 | snapshots that differ only in timestamp, last commit, modified-file count, user, shell, virtual env or project flags are no change |
| ActivityMonitor.GitAppearingIsChange | src/activity_monitor.py:146-147 | a missing `git` against a present one is a change |
| ActivityMonitor.ActivityRecord | src/activity_monitor.py:183-194 | the activity record has type "development_activity", user scope "utlyze", the project, and the branch or null |
| ActivityMonitor.SyncTick | src/activity_monitor.py:162-200 | one `sync_activity` as a function of the stored context, the sample and the store's schedule; its properties are stated by SyncTickWrites |
| ActivityMonitor.SyncTickWrites | src/activity_monitor.py:162-200 | at most one write per call, none without a change; the stored context is replaced only after an accepted write, and then by the new context |
| ActivityMonitor.SyncTicks | src/activity_monitor.py:206-214 | n wake-ups write at most n records |
| ActivityMonitor.SteadyContextWritesOnce | src/activity_monitor.py:136-200 | samples that agree with the first on cwd, branch, set of recent files and dirty flag (timestamps and other fields may differ) write once if the first differs from what was stored, and never otherwise, when the store accepts the calls; the stored context is then the first sample, or what was stored |
| ActivityMonitor.Monitor.constructor | src/activity_monitor.py:29-40 | the monitor starts with nothing stored, not running and no thread |
| ActivityMonitor.Monitor.SyncActivity | src/activity_monitor.py:162-200 | sample, compare and write at most once; the store's calls and the stored context are those of one tick; store errors are swallowed |
| ActivityMonitor.Monitor.SyncContext | src/activity_monitor.py:167-197 | the part after sampling: no write without a change, otherwise one write, and the context is remembered only when accepted |
| ActivityMonitor.Monitor.RunOnce | src/activity_monitor.py:236-238 | one `sync_activity` |
| ActivityMonitor.Monitor.MonitorLoop | src/activity_monitor.py:202-216 | while running, one `sync_activity` per wake-up: the store's calls and the stored context are the fold of the ticks over the samples; nothing happens when not running |
| ActivityMonitor.Monitor.Start | src/activity_monitor.py:218-227 | running afterwards; a start while running starts no new thread |
| ActivityMonitor.Monitor.Stop | src/activity_monitor.py:229-234 | not running afterwards |

## Left out

- Threads, `time.sleep` and `thread.join(timeout=5)` are left out. `MonitorLoop` runs over the environments seen at successive wake-ups, and a concurrent `stop` during the loop is not modelled.
- The git subprocesses, `os.walk`, `os.path.getmtime`, `os.getcwd`, the environment variables and the marker-file checks are inputs (`Environment`). Symbolic links and `followlinks` are not modelled, and neither is a failing `os.getcwd`.
- `time.time()` and `datetime.now()` are one integer clock and one timestamp per operation. The mtime comparison is on integers, not floats. `time.time()` is read once per walk, not once per file.
- The free text of every record is a `Note` holding the values it interpolates, not the formatted string.
- Mem0's `MemoryClient` internals and search ranking are an opaque function `answer`. Failures are a fixed schedule of call numbers that raise.
- FastAPI, CORS, uvicorn and request routing are left out. FastAPI's validation is modelled as `ParseTaskUpdate` and `ParseSync`. Pydantic's type coercion (e.g. `"5"` to `5`) is not modelled, and only the first error is reported.
- `handle_task_update`'s HTTP 500 branch is not modelled: logging and queueing cannot raise in the model.
- The GET endpoints `/`, `/context` and `/task/{task_id}/history` are left out; they only wrap the client calls modelled here.
- `cleanup_old_memories` is a stub that returns 0, and is left out.
- `src/mcp_server.py`, the test scripts and `main` (argparse, fork) are not part of this model.
- UtlyzeClient.SyncWithTaskmaster: takes the task list itself rather than the state dict. A missing `tasks` key would give an empty list.
- UtlyzeClient.GetCurrentContext: the default `limit=10` of `get_current_context` is not modelled; the limit is always passed. The bridge's `/context` endpoint passes one; the script entry at the end of `src/mem0_client.py`, which relies on the default, is outside this model and corresponds to passing 10.
- JSON numbers with a fraction have no `Value` case. Such a number only reaches a record's note or a `join` argument, where it fails to join exactly as an integer does, so no behaviour of the core depends on it.
- The search hits are dicts. A hit that is not a dict, on which `memory.get` would raise, is not modelled.
- ActivityMonitor.GitInfoFrom: a `decode()` failure of git's output is folded into the failed-command case.

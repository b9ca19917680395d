# Run lifecycle of the multi-tenant agent platform: model and proofs

The server accepts requests to run an agent, admits them through one global and one per-tenant
semaphore, and executes each admitted run in a spawned task: an agent loop that asks a mock model,
checks and executes tool calls, and records every step in a numbered trace. Handlers and tasks share a
relational store and nothing else. Two of the status updates have no guard on the current status, trace
numbers are computed as `MAX(seq) + 1`, tools can be deleted while runs use them, and clients can
disconnect at any await. The project proves that the protocol is sound nevertheless.

## How the model is laid out

* `Domain`, `TraceTable`, `Store`: the rows, the trace table with `MAX(seq)` and `ORDER BY seq`, each SQL
  statement as a query or an update with its `WHERE` clause, and the constraints of the migration.
* `Decisions`, `Protocol`: the state machine. A process is one request: the handler first, the task
  after the spawn. Its program counter stops at every SQL statement and every semaphore operation;
  `append_event` is two steps, the read of the maximum and the insert. The surroundings may fail any
  statement, whose effect may still commit later (`Abort`, then `Settle`), drop a handler, restart the
  server (`Crash`), create and delete tools and create agents, all at any moment.
* `TraceLanguage`: the possible traces, as an automaton and as an explicit list of words, with the proof that they agree.
* `RunInvariant`, `RunSteps`, `StatementSteps`, `Permits`, `Invariant`: one inductive invariant over all processes.
* `Safety`, `Scheduling`, `Refusals`, `Deletion`, `Completion`, `ForcedRuns`, `Quiescence`, `Projection`: what
  follows over whole executions. `Sightings`: what the events of a trace say of tools and bindings is true.
  `Surroundings`: administration and faults are possible exactly when they should be.
* `DatabaseLayer`, `Runtime`, `Application`: the imperative code as classes and methods: the tables
  updated in place, `execute_run` with its loop and early returns, the semaphores, the tenant map,
  `schedule_run` and `start_run`.
* `Solo`, `Embedding`, `Handler`: the sequential code refines the state machine. What `ExecuteRun`,
  `ScheduleRun` and `StartRun` do is an execution of the machine in which one process moves.
* `Interleaving`, `GoodCalls`, `ClosedForm`, `SilentExits`: what a task computes that meets no fault of its
  own, and exactly when it leaves its run unfinished, whatever other requests, their faults, new tools and
  agents, and deletions there are around it. `Sequential` has the same for `ExecuteRun`.
* `Reaching`, `Witnesses`: every live process can come to its end, and reachable worlds that show what the
  code does not guarantee.
* `ApiKeys`: the key format, the table of issued keys, and whom a presented key stands for.

Three things one might expect of the code are false of it. Each has a reachable world that shows it and
the exact condition:

* Not every run ends (`Witnesses.NotEveryRunEnds`). A task is silent if the run is not forced and there is no
  tool to call, or the first call gets through to a handler without a static response. From any reachable world,
  every execution that brings a task no fault of its own completes its run, if and only if the task is not silent
  when it starts (`Reaching.CompletionIsSure`). In a given execution a silent task completes its run if and only
  if it found its tool deleted when it read the tool's row (`SilentExits.CompletesUnlessSilent`).
* A refusal by the global semaphore does not mean that so many tasks are executing
  (`Witnesses.RefusedWithOneTask`). It does exactly if no handler holds a permit at that moment
  (`Safety.GlobalRefusalMeansTasks`).
* A deleted tool may still be executed (`Witnesses.DeletedToolIsExecuted`). It is possible exactly for a run
  whose process has read the tool's row, passes the other checks and has not recorded the execution, and then
  at most once (`Deletion.DeletedToolsStillExecute`, `Deletion.DeletedToolsFadeOut`).

## Model

| member | source | states |
|---|---|---|
| `Invariant.StepKeeps` | server/src/runtime.rs:10-230 | every action of the machine, faults included, keeps the invariant: schema constraints, rows in agreement with traces, each process at a point that fits its run, one process a run, permits adding up |
| `Invariant.ReachableOk` | server/src/runtime.rs:10-230 | hence the invariant holds in every reachable world |
| `RunInvariant.ReadyStable` | server/src/runtime.rs:105-128 | what a process relies on survives every change that others make to tools and agents |
| `RunSteps.ReadStep` | server/src/runtime.rs:105-189 | a read, whatever it returns, leads to a point from which only traces of the language can follow |
| `RunSteps.WriteStep` | server/src/db.rs:358-403 | a write of a process, the unguarded updates included, changes one run only, by a legal transition, and keeps row and trace in agreement |
| `RunSteps.InsertLog` | server/src/trace.rs:6-32 | the insert with `MAX(seq) + 1` meets no other row and extends the dense trace by its event |
| `StatementSteps.NewAgentStep` | server/src/db.rs:182-256 | a new agent keeps all constraints and touches no existing run, agent or binding |
| `StatementSteps.RemoveToolStep` | server/src/db.rs:160-180 | a soft deletion keeps all constraints and touches no run |
| `StatementSteps.InsertRunKeepsConstraints` | server/migrations/0001_init.sql:84-111 | a run inserted where no row has the key keeps the idempotency index and the foreign keys |
| `TraceTable.SelectFrame` | server/src/db.rs:423-447 | an ordered selection depends on the selected rows only |
| `TraceTable.TraceFrame` | server/src/db.rs:423-447 | a run's trace and maximum depend on that run's rows only |
| `TraceTable.AppendNext` | server/src/trace.rs:16-22 | inserting after the maximum appends to the ordered trace |
| `TraceTable.DenseMax` | server/src/trace.rs:16-22 | in a trace numbered without gaps the maximum is the number of rows |
| `TraceTable.TraceInOrder` | server/src/db.rs:423-447 | the ordered selection has each row of the run once, in strictly increasing order, and no other |
| `Domain.ForcedExactly` | server/src/runtime.rs:321-323 | a run is forced iff some user message has the sentinel anywhere in its text |
| `Store.AgentNameFreeExactly` | server/migrations/0001_init.sql:62-64 | an agent's name is refused exactly when storing the row would violate the unique index; several agents of a tenant may have distinct names, or none |
| `Store.ToolNameFreeExactly` | server/migrations/0001_init.sql:41-43 | a tool's name is refused exactly when storing the row would violate the partial unique index, so the name of a deleted tool can be taken again |
| `TraceLanguage.Language` | server/src/runtime.rs:56-230 | the automaton accepts exactly the beginnings of the explicitly listed complete traces |
| `TraceLanguage.EndedExactly` | server/src/runtime.rs:56-230 | it has ended exactly on the complete traces |
| `TraceLanguage.WordBounded` | server/src/runtime.rs:118-210 | a complete trace has three to nine events, and a forced one no execution |
| `Safety.StepEvolves` | server/src/db.rs:358-403 | any action leaves a run as it is or moves it along a legal transition, and never shortens or rewrites its trace |
| `Safety.OneWriter` | server/src/runtime.rs:10-54 | no two processes, aborted ones with a statement in flight included, work on the same run |
| `Safety.UnguardedWritesAreSafe` | server/src/db.rs:358-380 | `mark_run_failed` only ever meets a pending row that has not started, `finalize_run` only a running one, `begin_run_execution` only a pending one, even when the statement commits after its sender is gone |
| `Safety.TerminalIsFinal` | demo/src/main.rs:269-290 | over any continuation a terminal row never changes, so a poll that ends on a terminal status returns the final row |
| `Safety.RunsOnlyAdvance` | server/src/db.rs:358-403 | over any execution a run keeps its request, its status only advances and its trace only grows |
| `Safety.TracesAreDense` | server/migrations/0001_init.sql:122-147 | in every reachable world each trace carries exactly the numbers 1 to n |
| `Safety.NoSequenceCollision` | server/src/trace.rs:16-22 | between the read of the maximum and the insert nobody takes the number, so the unique index is never violated |
| `Safety.TracesAreWords` | server/src/runtime.rs:88-229 | in every reachable world each trace begins a complete trace of its run's language and has at most nine events |
| `Safety.RowAndTraceAgree` | server/src/runtime.rs:142-188 | a `run_end` event is last, and its status, reason and answer are the row's |
| `Safety.RowShapes` | server/src/db.rs:517-544 | `success` iff an answer is set, `failed` iff a reason is set, finished iff terminal, started exactly when execution began |
| `Safety.SchemaHolds` | server/migrations/0001_init.sql:31-147 | in every reachable world the CHECKs, the foreign keys and the unique indexes of names hold |
| `Safety.ForcedRunsExecuteNothing` | server/src/runtime.rs:258-276 | a run whose messages carry the sentinel never records a tool execution, under any interleaving |
| `Safety.ExecutedToolsAreBound` | server/src/runtime.rs:297-319 | every executed tool belongs to the run's tenant and is bound to its agent |
| `Safety.RepliesNameOneRun` | server/src/http.rs:197-231 | all Ok replies for one idempotency key of an agent name one run, and different scopes never share a run |
| `Safety.OneRunPerKey` | server/migrations/0001_init.sql:109-111 | one row for each tenant, agent and key |
| `Safety.ExecutedAtMostOnce` | server/src/db.rs:382-403 | over any execution the update from pending to running succeeds at most once for a run, and not at all once the run has left `pending` |
| `Safety.WithinLimits` | server/src/app.rs:9-25 | live tasks of a tenant and holders of global permits never exceed the limits |
| `Safety.PermitsConserved` | server/src/runtime.rs:15-51 | free permits and holders add up to the limit, globally and for each tenant; with no process left all permits are back |
| `Safety.RunningMeansPermits` | server/src/runtime.rs:76-82 | a live process whose run has started holds both permits |
| `Refusals.MarkedRunsWereRefused` | server/src/runtime.rs:15-74 | over every execution, faults included: a row marked `tenant_concurrency_limit_exceeded` was refused at a moment at which exactly the limit of its tenant's tasks were live, one marked `scheduler_capacity_exceeded` at a moment at which exactly all global permits were held |
| `Refusals.RejectedTracesWereRefused` | server/src/runtime.rs:56-74 | the same for a trace that says rejected |
| `Safety.TenantRefusalIsExact` | server/src/runtime.rs:31-32 | one `try_acquire_owned` on the tenant's semaphore fails iff exactly the limit of that tenant's tasks are live |
| `Safety.GlobalRefusalIsExact` | server/src/runtime.rs:15-17 | one `try_acquire_owned` on the global semaphore fails iff exactly all global permits are held |
| `Safety.GlobalRefusalMeansTasks` | server/src/runtime.rs:15-43 | at a global refusal tasks and permit-holding handlers add up to the limit, and the tasks alone do iff no handler holds a permit |
| `Witnesses.RefusedWithOneTask` | server/src/runtime.rs:15-43 | a reachable world with two global permits and one task in which the scheduler refuses |
| `Safety.RefusedNeverStarts` | server/src/runtime.rs:56-74 | a run refused for capacity has not started and never will |
| `Permits.MoveKeepsSems` | server/src/runtime.rs:232-238 | every move, the creation of a tenant's semaphore included, keeps the tenant accounts balanced |
| `Permits.AbortKeepsPermits` | server/src/runtime.rs:76-82 | a process that is dropped gives back exactly what it held |
| `Scheduling.ScheduledAtMostOnce` | server/src/http.rs:206-217 | over any execution `schedule_run` is entered at most once for a run, never again for a run past that point |
| `Deletion.StepBudget` | server/src/runtime.rs:297-319 | once a tool is deleted, no action increases a run's recorded executions of it plus the one its process is about to record |
| `Deletion.DeletedToolsFadeOut` | server/src/db.rs:160-180 | after a deletion a run adds at most one execution of the tool, and none unless its process was about to execute it |
| `Deletion.DeletedToolsStillExecute` | server/src/runtime.rs:157-207 | some continuation records one more execution of a deleted tool, and some records more at all, iff a process of the run has read its row, passes the remaining checks and has not yet recorded it, a sent INSERT included |
| `Witnesses.DeletedToolIsExecuted` | server/src/runtime.rs:157-207 | a reachable world with a deleted tool and a continuation that executes it |
| `Sightings.ExecutedToolsWereSeenActive` | server/src/runtime.rs:157-207 | for every recorded execution there was a moment at which the trace ended with the model's call of that tool and the tool was active |
| `Sightings.ForcedCallsAreLookups` | server/src/db.rs:487-515 | for every forced call in a reachable trace there was a moment at which the trace had got just so far and the called tool was an undeleted, unbound tool of the tenant, or, if the call names the nil id, every undeleted tool of the tenant was bound |
| `Sightings.NotAllowedWasActive` | server/src/runtime.rs:303-316 | a call refused with `tool_not_allowed_for_agent` names the nil id, or a tool that was not deleted at a moment after the call was recorded |
| `Sightings.TracesTellTheTruth` | server/src/runtime.rs:258-333 | in every reachable world, faults included: unforced calls name bound tools and forced ones unbound ones; a recorded execution has the tool's name, accepted arguments and its static response; `tool_deleted` means the called tool is deleted, `invalid input schema` that its schema does not compile, `invalid_tool_arguments` that it compiles and does not accept the arguments of that call |
| `Completion.EquippedRunsComplete` | server/src/runtime.rs:118-229 | whatever else happens, a run whose agent's tools have static responses is at work or complete with a terminal row, as long as its own process is not dropped or restarted; queries of the authorization that fail end it as `internal_error`, with a complete trace |
| `Completion.EquippedTasksEnd` | server/src/runtime.rs:118-229 | hence such a process, handler or task, that is gone has left a terminal row and a complete trace |
| `Completion.CompletedStays` | server/src/runtime.rs:212-229 | a complete run stays complete under every action |
| `ForcedRuns.ForcedRunsEndRefused` | server/src/runtime.rs:258-276 | under every interleaving that brings the task no fault of its own, a forced run becomes terminal only by failing with `tool_not_allowed_for_agent` or `tool_deleted` after its one, forced, model call; and when the task is gone it has, with a trace of exactly five events |
| `Quiescence.StepDecreases` | server/src/runtime.rs:118-229 | every action of a process decreases a measure summed over all processes |
| `Quiescence.ExecutionsAreFinite` | server/src/runtime.rs:118-229 | with no new requests the number of process actions is bounded by the measure |
| `Quiescence.NothingIsStuck` | server/src/runtime.rs:232-238 | every process always has an action of its own, so nothing waits for another process |
| `Quiescence.AtRest` | server/src/runtime.rs:44-53 | when the measure is zero no process is left and all permits are back |
| `Projection.ReadsAgree` | server/src/db.rs:405-515 | a tenant's reads are unchanged when all rows of other tenants are erased |
| `Projection.ForeignStep` | server/src/db.rs:143-180 | an action of another tenant leaves a tenant's view as it is |
| `Projection.OwnStep` | server/src/db.rs:258-302 | an action of the tenant is possible on its view alone and has the same effect there |
| `Projection.NonInterference` | server/src/runtime.rs:10-54 | erasing all actions of other tenants from any execution leaves an execution of the tenant alone with the same final view |
| `Projection.TenantsDoNotInterfere` | server/src/http.rs:233-279 | hence run, trace, agent and tool list read back are those of the erased execution, for the real system |
| `DatabaseLayer.Database.CreateTool` | server/src/db.rs:113-141 | inserts the row as given iff no active tool of the tenant has the name, otherwise changes nothing |
| `DatabaseLayer.Database.ListTools` | server/src/db.rs:143-158 | exactly the tenant's tools that are not deleted |
| `DatabaseLayer.Database.DeleteTool` | server/src/db.rs:160-180 | succeeds exactly on an undeleted tool of the tenant, marks it and nothing else |
| `DatabaseLayer.Database.CreateAgent` | server/src/db.rs:182-256 | all or nothing: Ok iff the name is free, the limit is in range, every listed tool is active and no id repeats; then the row is as given and the bindings are the list as a set; otherwise the tables are unchanged and the error is the one of the first failing check; the name is refused iff another agent of the tenant has it, that is iff the unique index would be violated |
| `DatabaseLayer.Database.CreateOrGetRun` | server/src/db.rs:304-356 | a new pending row as given iff no row of the tenant and agent has the key; otherwise a row that has it and no change, or an error and no change if the database refuses the SELECT in the transaction whose INSERT failed; keys stay unique |
| `DatabaseLayer.Database.MarkRunFailed` | server/src/db.rs:358-380 | the tenant's row becomes failed and finished with the reason, whatever its status was; all other rows are unchanged, and all rows if none matches |
| `DatabaseLayer.Database.BeginRunExecution` | server/src/db.rs:382-403 | true iff the tenant's row was pending; then exactly that row is running and started, and a second call fails |
| `DatabaseLayer.Database.FinalizeRun` | server/src/db.rs:517-544 | the tenant's row gets status, answer and reason and is finished, whatever its status was; all other rows are unchanged, and all rows if none matches |
| `DatabaseLayer.Database.MaxNumber` | server/src/trace.rs:16-22 | computes the greatest number of the run's rows, zero without rows |
| `DatabaseLayer.Database.SelectTrace` | server/src/db.rs:423-447 | the loop yields exactly the run's rows, in the order of their numbers |
| `DatabaseLayer.Database.AppendEvent` | server/src/trace.rs:6-32 | the trace read back is the old one with the next number and the event appended, other traces are unchanged |
| `DatabaseLayer.Database.FindUnboundActiveTool` | server/src/db.rs:487-515 | finds a tool of the tenant that is not deleted and has no binding to the agent; finds none only if every undeleted tool of the tenant has one |
| `DatabaseLayer.Database.FirstAgentTool` | server/src/db.rs:466-485 | the bound tool of the tenant that the database puts first, deleted or not; none only if no tool is bound |
| `Runtime.Authorize` | server/src/runtime.rs:297-333 | in terms of the rows: a missing tool is not allowed, a deleted one is `tool_deleted`, an unbound one not allowed, one whose schema does not compile `invalid input schema`, one that does not accept the arguments `invalid_tool_arguments`, and any other call is let through |
| `Runtime.LoadContext` | server/src/runtime.rs:105-128 | the loop starts with the run's agent, its limit, the first bound tool, and forced iff a user message has the sentinel anywhere in its text; a missing run or agent is an error |
| `Runtime.RunLoop` | server/src/runtime.rs:118-230 | from the loop's entry to its end, the method's effect on the tables is an execution of the machine; the result is Ok iff the trace ends with the answer or with `max_iterations_exceeded`, and a refused call with the reason the trace ends with |
| `Runtime.ExecuteRun` | server/src/runtime.rs:76-230 | the whole task refines the machine: from any tables it performs a fault-free execution of the process to its end; if the run was not pending it changes nothing; the result says what the trace ends with, or which error left it without an end |
| `Application.Semaphore.TryAcquire` | server/src/runtime.rs:15-16 | takes a permit iff there is one |
| `Application.AppState.GetTenantSemaphore` | server/src/runtime.rs:232-238 | the tenant's semaphore, created with all permits at first use and never replaced |
| `Application.AppState.FailRunBeforeStart` | server/src/runtime.rs:56-74 | row failed, decision and end of the trace recorded, in this order |
| `Application.AppState.ScheduleRun` | server/src/runtime.rs:10-54 | either takes one permit of each kind and spawns, or records the refusal with its exact reason and keeps no permit |
| `Application.AppState.StartRun` | server/src/http.rs:172-231 | the error cases, the replay of a key or the database's refusal of it, both without any change, or a new run that is traced and scheduled |
| `Application.AppState.RunTask` | server/src/runtime.rs:44-53 | the task's execution, after which both permits are back whatever it returned |
| `Embedding.SoloGoes` | server/src/runtime.rs:44-53 | what a sequential process does is an execution of the whole machine in which the others stand still, and its permits are returned when it ends |
| `Handler.ScheduleGoes` | server/src/runtime.rs:10-54 | the contract of `ScheduleRun` is reached by the machine's own steps |
| `Handler.StartGoes` | server/src/http.rs:172-231 | the contract of `StartRun` is reached by the machine's own steps, with its reply and the spawned task |
| `Handler.RetryReturnsTheRun` | server/src/db.rs:304-356 | sending a keyed request again, even after a capacity refusal, changes nothing; if it is replied to, that is if the database allows the SELECT in the failed transaction, the reply names the same run |
| `Application.TaskGoes` | server/src/runtime.rs:44-53 | the contract of `RunTask` is reached by the machine's own steps |
| `Sequential.TasksStartSpawnable` | server/src/runtime.rs:44-53 | in every reachable world a task about to start has its run pending with a trace of just `run_created` |
| `Surroundings.CreateToolGoes` | server/src/db.rs:113-141 | the machine can create a tool exactly when no active tool of the tenant has the name, and it is stored as given |
| `Surroundings.DeleteToolGoes` | server/src/db.rs:160-180 | the machine can delete exactly the undeleted tools, at any moment |
| `Surroundings.CreateAgentGoes` | server/src/db.rs:182-256 | the machine can create an agent exactly when the limit is in range, the name is free and the tools are the tenant's |
| `Surroundings.DroppedStatementsMayCommit` | server/src/http.rs:172-231 | any process can be dropped at any point, and the statement it had sent may then have its full effect or none |
| `Surroundings.RestartsMayHappen` | server/src/app.rs:9-25 | the server can restart at any point, with all statements in flight and all permits back |
| `GoodCalls.OnlyWord` | server/src/runtime.rs:118-229 | the only complete trace of an unforced run that calls one tool, tells the truth about it and meets no failing statement is the closed form |
| `ClosedForm.LoopClosedForm` | server/src/runtime.rs:112-229 | under every interleaving with other requests, their faults, new tools and agents, and deletions of other tools: an unforced task that meets no fault of its own leaves exactly the trace and the row of the closed form, for any schema and handler of its first, bound and active tool |
| `ClosedForm.CallsFailExactly` | server/src/runtime.rs:167-229 | hence the reason is `invalid input schema` iff the schema does not compile, `invalid_tool_arguments` iff it compiles and does not accept the first arguments, or the second ones when the task gets there; a tool that accepts and responds is executed min(max_iterations, 2) times, and the run succeeds iff max_iterations is at least 3, otherwise failing with `max_iterations_exceeded`; it is left running iff the handler has no static response to the first call |
| `Sequential.SequentialClosedForm` | server/src/runtime.rs:112-229 | hence the same for what `ExecuteRun` leaves behind |
| `SilentExits.CompletesUnlessSilent` | server/src/runtime.rs:278-281 | under every interleaving that brings the task no fault of its own, for any tools, schemas, handlers and deletions: the run is completed iff the task was not silent at its start or found its tool deleted when it read the tool's row; otherwise it is left running by everybody, without a `run_end`; nothing that happens after the task is gone changes this |
| `Reaching.CompletionIsSure` | server/src/runtime.rs:278-281 | from every reachable world, all executions that bring a starting task no fault of its own complete its run iff the task is not silent |
| `Sequential.SequentialCompletes` | server/src/runtime.rs:346-356 | hence the same for `ExecuteRun` |
| `Interleaving.OrphansNeverChange` | server/src/runtime.rs:44-53 | over any execution a run that no process works on keeps its row and its trace for good |
| `Reaching.TaskEnds` | server/src/runtime.rs:76-230 | in every reachable world a live process can come to its end by faultless moves of its own |
| `Witnesses.NotEveryRunEnds` | server/src/runtime.rs:278-281 | a reachable world without any process in which a run is running, has no `run_end`, and stays so in every continuation |
| `ApiKeys.BeforeUnderscoreExactly` | server/src/auth.rs:70-75 | splitting at the first underscore yields a prefix iff it has none and is followed by one |
| `ApiKeys.ExtractExactly` | server/src/auth.rs:70-75 | a prefix is extracted from a key iff it has no underscore and the key is formatted with it |
| `ApiKeys.PrefixRoundTrip` | server/src/auth.rs:38-59 | extracting from a formatted key returns the prefix iff it has no underscore |
| `ApiKeys.SampledPrefix` | server/src/auth.rs:38-46 | an issued prefix is what was drawn with its letters in lower case: twelve digits and lower-case letters |
| `ApiKeys.KeyTable.CreateApiKey` | server/src/http.rs:43-56 | issues the key, formatted from prefix and secret, and stores its hash iff no row has the prefix; prefixes stay unique; the rows are those of the history with one more call |
| `ApiKeys.IssuedNext` | server/src/http.rs:43-49 | its effect is one more call in the history of issued keys |
| `ApiKeys.KeyTable.Authenticate` | server/src/auth.rs:16-36 | the one row with the key's prefix decides: an internal error iff its hash does not parse, its tenant iff the key verifies, and otherwise, as without a row, the key is invalid |
| `ApiKeys.IssuedUnique` | server/migrations/0001_init.sql:18-19 | after any history prefixes are unique |
| `ApiKeys.IssuedRows` | server/src/http.rs:43-49 | the rows are exactly those of the calls that were not refused |
| `ApiKeys.IssuedKeysAuthenticate` | server/src/auth.rs:16-59 | after any history of calls every issued key resolves to the tenant it was issued for |
| `ApiKeys.OnlyIssuedKeysAuthenticate` | server/src/auth.rs:16-36 | a header resolves to a tenant iff its key verifies against a key issued to that tenant with its prefix |
| `ApiKeys.OtherKeysAreInvalid` | server/src/auth.rs:61-68 | after any history authentication never ends in an internal error, and a header is refused as invalid iff its key verifies against no issued key with its prefix |

## Left out

- HTTP routing, JSON, status codes, request trimming and field checks, metrics, logs, configuration, the demo programs: input and output only.
- Retry and backoff: the columns exist, no code uses them.
- PostgreSQL: each statement or transaction is atomic. Whether it refuses the SELECT of `create_or_get_run` in the transaction whose INSERT has just failed is left open: the model has both outcomes.
- `create_agent` in the machine is one step that allows any tools of the tenant, also deleted ones, which covers a deletion between the check and the commit. The transaction with its checks is `DatabaseLayer.Database.CreateAgent`, where an error before the commit leaves the tables as they were.
- The two halves of `append_event` when its caller is dropped: the source sends one statement, which may still commit. In the model the maximum is then read before the abort, and the aborted INSERT may commit; an append aborted before its read is one that was not sent. Nobody else writes the run's trace in between, so the row is the same.
- The order of bound tools: rows of one transaction share their `created_at`, so the first one is any of them, fixed for the execution. The same holds for the tool that `find_unbound_active_tool` returns.
- The JSON Schema engine: a schema is what it does, whether it compiles and which of the generated arguments it accepts. Mock handlers are static with a response, static without one, or unsupported.
- Argon2: hashing and verification are parameters; only the theorem about issued keys assumes that a key verifies against its own hash.
- Timestamps: `started_at` and `finished_at` are set or not set.
- The `tenants` table and the foreign keys into it; `agents.deleted_at` and `api_keys.revoked_at`, which no statement sets.
- Authentication before a request: a process of the machine starts as an authenticated request of its tenant.
- The messages that the loop pushes after a tool call: nothing reads them.
- Runtime.ExecuteRun: a failing statement is not part of the sequential method; faults, interleavings and restarts are those of the machine, which it refines.
- Application.AppState.RunTask: runs the task to its end without other requests in between, for the same reason. The mutex around the tenant map is the atomicity of `GetTenantSemaphore`.

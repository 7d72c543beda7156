# Verified model of the agent runtime

A single-host agent runtime accepts messages, turns some of them into durable local tasks, runs each
task in an in-process worker around an agent loop, and streams its events to web clients. This project
models that protocol in Dafny and proves what it promises, for all inputs, all runs, all interleavings
of the modelled steps and a crash at any point.

| file | module | models |
|---|---|---|
| `Lifecycle.dfy` | `Lifecycle` | statuses, the local transition table and its validator |
| `Ledger.dfy` | `Ledger` | the side-effect ledger of one task and every operation on it |
| `Process.dfy`, `ProcessAnswers.dfy` | `Processes`, `ProcessAnswers` | all rows of one task and every transaction that changes them: what each keeps, and what each answers |
| `Runtime.dfy`, `RuntimeInvariant.dfy`, `RuntimeProperties.dfy`, `OnceOnly.dfy`, `Wakeups.dfy` | same | the whole runtime as a transition system, its invariant, its theorems, once-only and approved execution, and the way of queued tasks to a worker |
| `MainAgentStore.dfy`, `MainAgentCore.dfy` | `MainAgentStores`, `MainAgentCores` | the store and the core as classes over tables, proved to realize the process functions |
| `Ingress.dfy` | `Ingress` | message admission, single ownership and replay |
| `AgentLoop.dfy`, `AgentLoopRouting.dfy` | same | the graph of the agent loop with its budgets, permissions, pauses and resumes, and where each node leads |
| `Transactions.dfy` | `Transactions` | nested transactions and after-commit callbacks |
| `Notifications.dfy`, `Resubscription.dfy` | same | wake-ups of event subscribers, and replay from a cursor |
| `Sse.dfy` | `Sse` | server-sent event printing and incremental reading |
| `ClientProjection.dfy` | `ClientProjection` | the web client's merge of events, snapshots and reads |
| `ThreadEntries.dfy` | `ThreadEntries` | ref-counted thread locks, runner closing, cancellation signals |

How the parts fit. A `Process` gathers the rows of one task. `Processes` gives each transaction as a
function on it and proves that every one keeps `ProcessOk`: the control rows say what the status says,
the event log is a legal history, the ledger is in order, and a failed or canceled task has no call
left open. `Runtime` interleaves those transactions with worker frames, post-commit wakes, crashes and
startup recovery. `MainAgentStores` and `MainAgentCores` write the same transactions the way the
program does, table by table and with rollback, and prove that each one realizes its function
(`Realizes`) and leaves all other tasks alone.

## What does not hold

Seven expected properties are false of the code; each has a lemma with the failing input and the exact
condition under which the code meets it.

- **One effect runs once.** `prepare` refuses a repeated effect only when its latest record is running,
  succeeded or uncertain. A turn that asks for the same effect under two call ids creates two prepared
  records and both can run (`Ledger.TwinsCanBothRun`). It holds exactly while no record is created next
  to a prepared one of the same effect (`Ledger.EffectRunsAtMostOnce`).
- **One grant per call.** `begin_execution` answers "execute" again for a record that is already
  running (`Ledger.ConcurrentBeginIsGranted`). Along every run a key is granted at most once if and only
  if no begin reaches it while it runs (`Ledger.GrantedAtMostOnceIff`), which distinct calls in flight
  ensure (`OnceOnly.CallGrantedAtMostOnce`).
- **Only permitted calls reach the tools node.** Without a permission gate a call whose replay the
  ledger refuses is marked denied while the turn stays allowed (`AgentLoop.UngatedReplayReachesTools`).
  It holds if and only if no call of the turn is such a replay (`AgentLoop.ToolsNodeIsPermitted`).
- **Only permitted calls are executed.** The tool wrapper refuses such a replay when it finds the
  replay's own reference. When two calls of a turn match, for instance under one id, the second gets the
  reference of the first and is executed although its own decision is denied
  (`AgentLoop.SharedReferenceExecutesDenied`). It holds if and only if no blocked replay borrows an
  unblocked reference (`AgentLoop.OnlyPermittedExecuteIff`), so always with a gate or with distinct calls
  (`AgentLoop.ExecutedCallsWerePermitted`).
- **A wake-up reaches a worker.** A continuation accepted after the outcome of the last slice was
  recorded and before its frame was forgotten is not woken
  (`RuntimeProperties.StrandedIsReachable`) and stays queued until it is canceled or the process
  restarts (`RuntimeProperties.StrandedUntilRestart`). No other step loses a queued task
  (`Wakeups.OnlyForgetStrands`), and recovery picks up every one (`Wakeups.RestartLosesNothing`). A wake reaches a worker if and only if no frame
  of the task is left (`RuntimeProperties.WakeReachesAWorkerIff`).
- **A post-commit effect follows its commit.** That is so for every outermost lifecycle transaction
  (`Transactions.LifecycleEffectFollowsCommit`) and for none under an open one: there the effect of every
  completed workflow runs first, and the facts may still be rolled back
  (`Transactions.NestedLifecycleActsEarly`).
- **A delivered final answer is shown.** An artifact event that a newer snapshot overtook is stale for
  the client, and its answer is dropped with it. A client without an answer shows the one that comes with
  an event if and only if the event is not older than what the client shows
  (`ClientProjection.AnswerIsShownIff`).

Two more facts the proofs rest on: the `max_loops` node is never reached, because the loop-step limit
stops the run first (`AgentLoop.MaxLoopsIsUnreachable`); and the permission is reset at each loop step,
without which a canceled turn could be routed by the verdict of the turn before.

## Model

| member | source | states |
|---|---|---|
| `Lifecycle.ValidateTransition` | vermay/main_agent/lifecycle.py:119-129 | a real change never leaves a terminal status, and only a differing target can raise |
| `ProcessAnswers.TableShape` | vermay/main_agent/lifecycle.py:12-58 | terminal statuses are left by nothing, a requested cancellation leads only to an end, only running tasks complete or wait, only created and waiting tasks are queued |
| `Ledger.IndexOf` | vermay/main_agent/store.py:1030-1044 | finds the first record of a key, or none |
| `Ledger.LatestForEffect` | vermay/main_agent/store.py:1071-1093 | finds the newest record of the same tool and arguments, or proves there is none |
| `Ledger.ApplyKeepsRecords` | vermay/main_agent/store.py:1112-1409 | every ledger operation keeps the record invariant (approval before execution, one record per identity) and moves records only forward |
| `Ledger.ApplyTouchesOneRecord` | vermay/main_agent/store.py:1112-1361 | begin, approve, succeed, uncertain and cancel change no record but the one they name |
| `Ledger.PrepareAnswers` | vermay/main_agent/invocation_ledger.py:82-121 | prepare creates a record exactly for an unknown key with a free identity and an effect that is not blocked, carrying the approval requirement and side effect asked for; it raises exactly on a taken identity and otherwise changes nothing |
| `Ledger.RecordAnswers` | vermay/main_agent/store.py:1112-1361 | begin grants a running record or a prepared one that needs no approval or has it; success, uncertainty and cancellation move the record exactly as far as the store does |
| `Ledger.ResolveAnswers` | vermay/main_agent/store.py:1143-1205 | a decision is taken iff it names the tool and arguments of a pending prepared record, or repeats the decision; the record is decided as answered and a rejected one is canceled |
| `Ledger.UnknownKeyRaises` | vermay/main_agent/store.py:1112-1361 | every operation on an unknown invocation raises |
| `Ledger.RunKeepsRecords` | vermay/main_agent/store.py:1112-1409 | over every run of operations records only advance and the ledger only grows |
| `Ledger.FinalIsNeverGranted` | vermay/main_agent/invocation_ledger.py:123-137 | along every run nothing finished, uncertain or canceled is granted execution again |
| `Ledger.StartedIsNotGrantedAgain` | vermay/main_agent/invocation_ledger.py:123-137 | a record that left prepared gets no further grant while no begin reaches it running |
| `Ledger.GrantedAtMostOnce` | vermay/main_agent/invocation_ledger.py:123-137 | each key is granted at most once along every run without a begin on the running record |
| `Ledger.ConcurrentBeginIsGranted` | vermay/main_agent/invocation_ledger.py:124-126 | along every run with a begin on the running record, that begin is a grant on top of the one that made it run |
| `Ledger.GrantedAtMostOnceIff` | vermay/main_agent/invocation_ledger.py:123-137 | along every run from a key that is not running, it is granted at most once if and only if no begin of it reaches the running record |
| `Ledger.UnapprovedIsNeverGranted` | vermay/main_agent/store.py:1112-1141 | along every run without an operator's yes to it, a call that needs approval is never granted |
| `Ledger.PreparedNeedsApproval` | vermay/main_agent/store.py:916-1028 | so a call prepared with an approval requirement runs only after the yes to it |
| `Ledger.ApplyKeepsNoLiveTwin` | vermay/main_agent/invocation_ledger.py:82-121 | all but the newest record of an effect stay final and unstarted unless an operation creates a twin of a prepared one |
| `Ledger.PreparedMeansNeverStarted` | vermay/main_agent/invocation_ledger.py:82-121 | a blocked reference names an effect that is running, succeeded or uncertain; an unblocked prepared one names an effect no record ever started |
| `Ledger.EffectRunsAtMostOnce` | vermay/main_agent/invocation_ledger.py:82-121 | if no twin of a prepared record is ever created, at most one record of each effect is ever started |
| `Ledger.TwinsCanBothRun` | vermay/main_agent/invocation_ledger.py:82-121 | as soon as one is created, a continuation exists in which both run |
| `Processes.TransitionKeepsLog` | vermay/main_agent/store.py:1423-1468 | a transition extends the log to a legal history that ends at the target |
| `ProcessAnswers.TransitionAnswers` | vermay/main_agent/store.py:1423-1468 | a transition is refused exactly off the table and otherwise moves status, revision and log by one and nothing else |
| `ProcessAnswers.StoringRaisesRevision` | vermay/main_agent/store.py:1800-1844 | a changed artifact or output is stored under the next revision, an unchanged one changes nothing |
| `ProcessAnswers.EnqueueAnswers` | vermay/main_agent/store.py:1660-1722 | on a consistent task a command is accepted only as a repetition of the one it has |
| `Processes.ClosingClosesLedger` | vermay/main_agent/task_outcomes.py:483-500 | marking running calls uncertain and canceling prepared ones leaves no call open, keeps the record invariant and moves records only forward; canceling alone does so when none is running |
| `Processes.AcceptOk` | vermay/main_agent/store.py:728-791 | acceptance yields a consistent task with its first command, or none when it is not queued |
| `Processes.ClaimOk` | vermay/main_agent/store.py:1737-1761 | a claim succeeds exactly on queued tasks, consumes the command and starts the task, and never raises on a consistent task |
| `Processes.ContinuationOk` | vermay/main_agent/core.py:872-911 | an accepted continuation turns a waiting task into a queued one with exactly that command |
| `Processes.ContinuationDecidesOnlyItsBinding` | vermay/main_agent/core.py:889-896 | an operator's decision changes only the pending record it is bound to, to the decision given |
| `ProcessAnswers.ContinuationAnswers` | vermay/main_agent/core.py:913-935 | a continuation is accepted iff the task waits for this kind of answer and, for an approval, the decision fits the invocation the request is bound to |
| `ProcessAnswers.DecisionLands` | vermay/main_agent/store.py:1143-1205 | the bound invocation ends approved, or rejected and canceled, as the operator answered |
| `ProcessAnswers.ContinuationLogs` | vermay/main_agent/core.py:889-911 | the log gains the submission, the resumption and the new status |
| `Processes.CancellationOk` | vermay/main_agent/task_outcomes.py:156-181 | recording a cancellation ends the task with a closed ledger |
| `Processes.FailureOk` | vermay/main_agent/task_outcomes.py:78-120 | recording a failure always succeeds, ends the task closed with the given retryability, and cancels one whose cancellation was requested |
| `Processes.RecoveryOk` | vermay/main_agent/task_outcomes.py:122-154 | recovery always succeeds, fails every task that was not terminal, as retryable, and leaves a terminal one as it is |
| `Processes.CompletedOk` | vermay/main_agent/task_outcomes.py:238-294 | completing a running task always succeeds and keeps all invariants |
| `Processes.CompletionDelivers` | vermay/main_agent/task_outcomes.py:238-294 | a completed task holds the result's answer, output and observations, keeps its other artifacts and has nothing pending |
| `Processes.InterruptedOk` | vermay/main_agent/task_outcomes.py:296-347 | an interrupt leaves the waiting status that belongs to its pending request |
| `Processes.InterruptionAsks` | vermay/main_agent/task_outcomes.py:296-347 | a waiting task holds the request it waits on and the observations so far |
| `Processes.ResultOk` | vermay/main_agent/task_outcomes.py:40-76 | whatever result is recorded, the invariants hold and a requested cancellation wins |
| `ProcessAnswers.ResultAnswers` | vermay/main_agent/task_outcomes.py:40-76 | which outcome each result of a running task gets: completed with its answer and output, waiting with its request, failed with its retryability, or nothing while it is still running |
| `ProcessAnswers.LateResultAnswers` | vermay/main_agent/task_outcomes.py:47-51 | a result of a task that ended is dropped, one of a task being canceled cancels it |
| `Processes.OutcomeOk` | vermay/main_agent/core.py:1312-1334 | every worker outcome can be recorded, if need be as a failure, and a requested cancellation wins |
| `ProcessAnswers.OutcomeAnswers` | vermay/main_agent/core.py:1312-1334 | a slice's result is recorded as such and a crash as a failure with its own retryability |
| `ProcessAnswers.CompletionLogs` | vermay/main_agent/task_outcomes.py:238-294 | the log gains the evidence, the answer and the new status, in this order |
| `Processes.CommitCancellationOk` | vermay/main_agent/core.py:1009-1048 | cancellation waits for an active worker and otherwise closes the task at once |
| `ProcessAnswers.CancellationAnswers` | vermay/main_agent/core.py:1009-1048 | a cancellation is accepted iff the task has not ended; it stays requested iff a worker holds the running task, and otherwise cancels at once with prepared calls and both control rows gone |
| `Processes.LedgerStepOk` | vermay/main_agent/store.py:1112-1361 | a tool call of a live worker keeps the task consistent |
| `Processes.ToolSucceedOk` | vermay/main_agent/store.py:1233-1287 | a finished call's artifact, event and status keep the task consistent |
| `Processes.SuccessStoresResult` | vermay/main_agent/store.py:1233-1287 | the first success of a running call stores its result, a repeated one changes nothing |
| `Processes.HistoryMeans` | vermay/main_agent/store.py:1423-1468 | a history's statuses are a legal path from created to the current status, its revisions never fall or exceed the record's, and each status has a revision greater than every earlier event's |
| `RuntimeInvariant.StepKeepsInv` | vermay/main_agent/local_execution.py:97-162 | every step of requests, workers, recovery and crashes keeps the whole invariant, and every task only evolves |
| `RuntimeInvariant.RunKeepsInv` | vermay/main_agent/local_execution.py:97-162 | so does every run |
| `RuntimeInvariant.CancelKeepsInv` | vermay/main_agent/core.py:1000-1060 | a cancellation racing with any phase of a worker keeps the ledger closed for dead tasks |
| `RuntimeInvariant.RecordKeepsInv` | vermay/main_agent/local_execution.py:148-162 | an outcome recorded after the active window, whatever happened meanwhile, keeps the invariant |
| `RuntimeInvariant.CrashKeepsInv` | vermay/main_agent/core.py:616-625 | losing all process-local state at any point leaves a state that recovery can start from |
| `RuntimeInvariant.RequeueKeepsInv` | vermay/main_agent/core.py:649-695 | requeueing or failing one queued task keeps the invariant while woken workers already run |
| `RuntimeInvariant.RetryKeepsInv` | vermay/main_agent/core.py:748-854 | accepting a retry keeps the lineage a chain |
| `RuntimeInvariant.EndedCallLeavesFlight` | vermay/langgraph_runtime/nodes.py:94-117 | after a granted call was finished or lost, no running record of its key is left |
| `RuntimeProperties.RowsAgreeWithStatus` | vermay/main_agent/core.py:887-911 | in every reachable state a task is queued iff it has its own queued command, input-required iff a user-input request is pending, auth-required iff an approval is pending, and otherwise has neither row |
| `RuntimeProperties.EventsWalkTheTable` | vermay/main_agent/store.py:1423-1468 | in every reachable state the status events walk the table from created to the current status with strictly rising revisions |
| `RuntimeProperties.GrantedCallsWereApproved` | vermay/main_agent/store.py:1112-1141 | no call that needs approval was ever started without it |
| `RuntimeProperties.OneFramePerTask` | vermay/main_agent/local_execution.py:97-162 | at most one live frame per task, and the scheduled and active sets are exactly what the frames say |
| `RuntimeProperties.CallsRunUnderTheirWorker` | vermay/main_agent/local_execution.py:148-162 | a call is running only while a worker dispatches its task |
| `RuntimeProperties.DispatchedAtMostOnce` | vermay/main_agent/core.py:1288-1310 | no command is handed to the runner twice, across any number of crashes, and a queued one has not been |
| `RuntimeProperties.DispatchConsumesItsCommand` | vermay/main_agent/store.py:1737-1761 | a worker starts dispatching only by consuming its task's queued command |
| `RuntimeProperties.CommandsDrawFreshSerials` | vermay/main_agent/store.py:1660-1722 | every queued command is a new one, so dispatch history tells them apart |
| `RuntimeProperties.DeadTasksStayClosed` | vermay/main_agent/task_outcomes.py:483-500 | a failed or canceled task has no prepared or running call, and no later step of any run changes its status or ledger |
| `RuntimeProperties.OthersKeepTheirRows` | vermay/main_agent/store.py:1423-1468 | an operation changes the rows of its own task only |
| `RuntimeProperties.CancelStepEndsCanceled` | vermay/main_agent/task_outcomes.py:47-51 | from a requested cancellation every step but recovery of that task leads to canceled or stays |
| `RuntimeProperties.CancellationIsFinal` | vermay/main_agent/core.py:1000-1060 | after a cancellation committed the task never completes or waits again; it is failed only if its restart recovery ran |
| `RuntimeProperties.WakeReachesAWorkerIff` | vermay/main_agent/local_execution.py:97-115 | a post-commit wake gives a queued task a new worker iff no frame of it is left |
| `RuntimeProperties.WakeBeforeForgetStrands` | vermay/main_agent/local_execution.py:142-146 | continuing, waking and then forgetting the old frame strands the task |
| `RuntimeProperties.StrandedIsReachable` | vermay/main_agent/local_execution.py:101-102 | that state is reachable from the empty store |
| `RuntimeProperties.StrandedUntilRestart` | vermay/main_agent/local_execution.py:97-146 | a stranded task stays queued, or is canceled, along every run without a restart |
| `RuntimeProperties.LineageIsAChain` | vermay/storage.py:185-187 | at most one direct retry per task, attempts rising by one, every source failed, retryable and free of side effects, one task per attempt |
| `RuntimeProperties.EarlierAttemptsAreRetryable` | vermay/main_agent/core.py:856-870 | every task of a lineage but the last is failed, retryable and without side-effecting calls |
| `RuntimeProperties.OneTaskPerAttempt` | vermay/main_agent/core.py:748-854 | two tasks of one lineage with the same attempt are the same task |
| `RuntimeProperties.OneSideEffectingAttempt` | vermay/main_agent/store.py:896-914 | over the whole run at most one task of a lineage ever has side-effecting work |
| `OnceOnly.FinalCallIsNeverGranted` | vermay/main_agent/invocation_ledger.py:123-137 | over every run of the whole runtime, nothing finished, uncertain or canceled is granted execution again |
| `OnceOnly.DistinctIsNotConcurrent` | vermay/langgraph_runtime/nodes.py:94-117 | a begin of a call the worker does not have in flight never meets a record that left prepared with a grant |
| `OnceOnly.CallGrantedAtMostOnce` | vermay/main_agent/invocation_ledger.py:123-137 | while no worker begins a call it has in flight, each call of each task is granted at most once, crashes and restarts included |
| `OnceOnly.OnlyPrepareAddsCalls` | vermay/main_agent/store.py:916-1028 | no step but prepare adds an invocation to a task |
| `OnceOnly.EffectStartsAtMostOnce` | vermay/main_agent/invocation_ledger.py:82-121 | if no worker prepares an effect next to a prepared record of it, each task starts at most one record of each effect, over every run of the runtime |
| `OnceOnly.PrepareRecordsTheCall` | vermay/main_agent/invocation_ledger.py:82-121 | a worker's new call is recorded with the approval requirement and side effect it was prepared with |
| `OnceOnly.UnapprovedCallIsNeverGranted` | vermay/main_agent/store.py:1112-1141 | over every run of the runtime a call that needs approval is not granted before the operator's yes to the request bound to it |
| `OnceOnly.PreparedCallNeedsApproval` | vermay/main_agent/store.py:916-1028 | so what a worker prepares with an approval requirement runs only after that yes, crashes and restarts included |
| `Wakeups.RunKeepsQueue` | vermay/main_agent/core.py:647-695 | over every run, while queued tasks are recovered each is still to come or has its frame |
| `Wakeups.RestartLosesNothing` | vermay/main_agent/core.py:647-695 | in every reachable recovery state no queued task is lost |
| `Wakeups.OnlyForgetStrands` | vermay/main_agent/local_execution.py:142-146 | the only step that takes a queued task out of hand is forgetting its leaving frame |
| `Wakeups.QueuedByRequestIsWoken` | vermay/main_agent/core.py:1260-1272 | whatever a request queues has its wake under way |
| `Wakeups.CancelTakesEffect` | vermay/main_agent/core.py:1000-1060 | a cancellation is requested iff a worker holds the running task, and otherwise done at once and closed |
| `Wakeups.RecordTakesEffect` | vermay/main_agent/local_execution.py:148-162 | the outcome of a slice becomes the row of its task |
| `Wakeups.ClaimTakesEffect` | vermay/main_agent/core.py:1288-1310 | an entered frame runs a queued task and is refused by any other |
| `Wakeups.RecoveryTakesEffect` | vermay/main_agent/core.py:636-645 | an interrupted task is failed, retryable and closed |
| `Wakeups.RequeueTakesEffect` | vermay/main_agent/core.py:684-689 | a queued task whose worker accepts it gets its frame |
| `MainAgentStores.MainAgentStore.TransitionLocalTask` | vermay/main_agent/store.py:1423-1468 | record update and event append realize the transition, or nothing changes |
| `MainAgentStores.MainAgentStore.AppendTaskEvent` | vermay/main_agent/store.py:1531-1564 | appends one event at the record's revision and touches no other task's log |
| `MainAgentStores.MainAgentStore.UpsertTaskArtifact` | vermay/main_agent/store.py:1800-1844 | stores an artifact and raises the revision only if it changed |
| `MainAgentStores.MainAgentStore.SetTaskOutput` | vermay/main_agent/store.py:1509-1529 | sets the output and raises the revision only if it changed |
| `MainAgentStores.MainAgentStore.CreateLocalTask` | vermay/main_agent/store.py:693-726 | adds one task with its first event and leaves all others alone |
| `MainAgentStores.MainAgentStore.AcceptLocalTask` | vermay/main_agent/store.py:728-791 | adds one accepted task with its command, or raises exactly when the id is taken |
| `MainAgentStores.MainAgentStore.EnqueueTaskExecution` | vermay/main_agent/store.py:1660-1722 | queues one command, accepts an identical one again, raises on any mismatch |
| `MainAgentStores.MainAgentStore.ClaimQueuedTaskExecution` | vermay/main_agent/store.py:1737-1761 | consuming the command and starting the task happen together or not at all |
| `MainAgentStores.MainAgentStore.ResolveApproval` | vermay/main_agent/store.py:1207-1231 | decides the bound invocation, or raises without a trace |
| `MainAgentStores.MainAgentStore.CompleteToolInvocation` | vermay/main_agent/store.py:1233-1287 | artifact, event and status of a finished call commit together or not at all |
| `MainAgentCores.InProcessLocalExecutionAdapter.Wake` | vermay/main_agent/local_execution.py:97-115 | wakes a task iff it has no live frame, and leaves none behind when submission raises |
| `MainAgentCores.MainAgentCore.RunScheduled` | vermay/main_agent/local_execution.py:142-162 | one worker slice: a queued task is claimed and its outcome recorded as the process functions say, any other task is left alone, the rows stay consistent, and the task leaves the active and the scheduled set either way |
| `MainAgentCores.MainAgentCore.AcceptPendingContinuation` | vermay/main_agent/core.py:872-911 | the table writes of a continuation realize the process function, with rollback at every raising step |
| `MainAgentCores.MainAgentCore.RetryFailedTask` | vermay/main_agent/core.py:748-870 | raises iff the source is not retryable, returns an existing retry unchanged, and otherwise adds exactly one new attempt |
| `MainAgentCores.MainAgentCore.CommitTaskCancellation` | vermay/main_agent/core.py:1009-1048 | the table writes of a cancellation realize the process function |
| `MainAgentCores.MainAgentCore.RecordTaskCancellation` | vermay/main_agent/task_outcomes.py:156-181 | realizes the cancellation outcome |
| `MainAgentCores.MainAgentCore.RecordTaskFailure` | vermay/main_agent/task_outcomes.py:78-120 | realizes the failure outcome |
| `MainAgentCores.MainAgentCore.RecordTaskRecoveryFailure` | vermay/main_agent/task_outcomes.py:122-154 | realizes the recovery outcome |
| `MainAgentCores.MainAgentCore.RecordTaskCompleted` | vermay/main_agent/task_outcomes.py:238-294 | evidence, answer, output and status realize the completed outcome |
| `MainAgentCores.MainAgentCore.RecordTaskInterrupted` | vermay/main_agent/task_outcomes.py:296-347 | request and waiting status realize the interrupted outcome |
| `MainAgentCores.MainAgentCore.RecordLocalResult` | vermay/main_agent/task_outcomes.py:40-76 | every result realizes its outcome, or rolls back completely |
| `MainAgentCores.MainAgentCore.RecordLocalExecutionOutcome` | vermay/main_agent/core.py:1312-1334 | a result that cannot be recorded is recorded as a failure |
| `MainAgentCores.MainAgentCore.FailInterrupted` | vermay/main_agent/core.py:636-645 | exactly the listed tasks are failed for good, all other rows stay |
| `MainAgentCores.MainAgentCore.RecoverQueued` | vermay/main_agent/core.py:647-695 | a queued task is scheduled, retained or failed by exactly this decision table |
| `MainAgentCores.MainAgentCore.ReconcileStartup` | vermay/main_agent/core.py:616-702 | of the whole table exactly the running, canceling and queued tasks are split, each once, into scheduled, failed and retained; failed ones are terminal and closed, every other row of the store is untouched |
| `MainAgentCores.SplitsAreDisjoint` | vermay/main_agent/core.py:697-702 | the three lists cover what was split, without repetition or overlap |
| `Ingress.StepKeeps` | vermay/main_agent/core.py:338-499 | every step of admission, routing, resolution, failure, crash and restart keeps the ingress invariant, grows the tables only and changes no settled row |
| `Ingress.AdmitKeeps` | vermay/main_agent/core.py:338-426 | so does an admission, new or replayed, under an id of the client's or one drawn for it before |
| `Ingress.AcceptTaskKeeps` | vermay/main_agent/store.py:728-791 | decision, task and resolution commit together and keep it |
| `Ingress.AcceptRetryKeeps` | vermay/main_agent/core.py:775-833 | a retry admits and resolves its own message in one commit and keeps it |
| `Ingress.DelegateKeeps` | vermay/main_agent/core.py:1391-1529 | so do both kinds of delegation |
| `Ingress.ReconcileKeeps` | vermay/main_agent/store.py:347-396 | failing abandoned rows at startup keeps it |
| `Ingress.OneOwnerPerMessage` | vermay/main_agent/store.py:246-292 | exactly one admission of a message id ever becomes its owner, under every interleaving |
| `Ingress.InProgressHasItsOwner` | vermay/main_agent/core.py:251-261 | while requests are served, a message in progress has its live owner and no result was returned for it |
| `Ingress.SettledIsAbsorbing` | vermay/main_agent/store.py:426-492 | resolved and failed rows never change again |
| `Ingress.ReplayReturnsTheOriginal` | vermay/main_agent/core.py:397-499 | replaying a resolved message succeeds exactly for the same request in the same context and returns the identity every earlier caller got |
| `Ingress.AdmitReserves` | vermay/main_agent/core.py:338-377 | a new message makes its caller the owner of a row with the caller's own request |
| `Ingress.AdmitReplays` | vermay/main_agent/core.py:397-426 | a resolved message is answered from its row without a new owner |
| `Ingress.OwnerAnswers` | vermay/main_agent/core.py:1113-1152 | routed to an answer, it is resolved to a new message of its context |
| `Ingress.OwnerAcceptsTask` | vermay/main_agent/core.py:1220-1255 | routed to a task, it is resolved to a new task |
| `Ingress.OwnerDelegates` | vermay/main_agent/core.py:1391-1529 | routed to another agent, it is resolved to a delegation and what came back |
| `Ingress.OwnerFails` | vermay/main_agent/core.py:501-509 | an owner that raises leaves its row failed |
| `Ingress.ReconcileFailsAbandoned` | vermay/main_agent/store.py:347-396 | recovery fails exactly the rows in progress |
| `AgentLoop.StepKeepsLoopInv` | vermay/langgraph_runtime/graph.py:42-84 | every node, on every input, keeps the loop invariant |
| `AgentLoop.CheckPermissionKeeps` | vermay/langgraph_runtime/nodes.py:269-406 | the permission node routes on with a verdict about exactly the calls of this turn |
| `AgentLoop.ApprovalKeeps` | vermay/langgraph_runtime/nodes.py:477-558 | the approval node reaches the tools only after every question was answered yes in this turn |
| `AgentLoop.ToolsKeep` | vermay/langgraph_runtime/nodes.py:52-119 | one message per call, and the calls fit the tool budget |
| `AgentLoop.StepDecreasesMeasure` | vermay/langgraph_runtime/graph.py:42-84 | every node brings the run nearer its end: loop steps left, then node rank, then approvals left |
| `AgentLoop.EveryRunEnds` | vermay/langgraph_runtime/graph.py:42-84 | every run, pauses and resumes included, ends within max_loop_steps * (7 + max_tool_calls) nodes |
| `AgentLoop.BudgetsHold` | vermay/langgraph_runtime/execution.py:133-182 | no run sends more than max_model_calls requests or executes more than max_tool_calls tools |
| `AgentLoop.ModelIsAskedWithinBudgets` | vermay/langgraph_runtime/execution.py:133-202 | the model is asked only while the call, loop, failure and argument-correction budgets all last, and never after cancellation |
| `AgentLoop.TurnIsCounted` | vermay/langgraph_runtime/nodes.py:624-711 | a turn is counted exactly: every call, every failure, one round for bad arguments, and it stops iff a budget is used up |
| `AgentLoop.FinalAnswerIsTheModels` | vermay/langgraph_runtime/nodes.py:160-233 | a final answer is the text of a reply without calls, or the policy's refusal |
| `AgentLoop.EndsWithReason` | vermay/langgraph_runtime/nodes.py:160-233 | the end has a stop reason that is not a pause, and a final answer iff completed or blocked; a paused run says what it waits for |
| `AgentLoop.MaxLoopsIsUnreachable` | vermay/langgraph_runtime/routing.py:48-53 | the max_loops node is never reached |
| `AgentLoop.ToolsNodeIsPermitted` | vermay/langgraph_runtime/nodes.py:342-406 | at the tools node every call was allowed or approved in this turn iff none is a replay the ledger blocks; with a gate none is, and the gate's own verdict on each call is allow, or needs approval with the operator's yes in this turn |
| `AgentLoop.ExecutedCallsWerePermitted` | vermay/langgraph_runtime/nodes.py:52-119 | what is executed was let through by the gate's verdict or approved in this turn: always with a gate, and without one when the calls of the turn are distinct |
| `AgentLoop.DeniedCallCanExecuteIff` | vermay/langgraph_runtime/nodes.py:831-868 | a call that is not permitted can be executed if and only if the first matching decision with a reference is not blocked |
| `AgentLoop.OnlyPermittedExecuteIff` | vermay/langgraph_runtime/nodes.py:831-868 | in a turn only permitted calls can be executed if and only if no blocked replay borrows another call's unblocked reference |
| `AgentLoop.SharedReferenceExecutesDenied` | vermay/langgraph_runtime/nodes.py:839-855 | without a gate, for any two calls that match each other, a denied replay is executed under the reference of the first |
| `AgentLoop.UngatedReplayReachesTools` | vermay/langgraph_runtime/nodes.py:317-340 | without a gate a denied replay reaches the tools node and is not executed |
| `AgentLoopRouting.GateDecides` | vermay/langgraph_runtime/nodes.py:342-406 | with a gate, a turn is rejected iff a call is denied or a blocked replay, asks for approval iff it is not rejected and some call needs it, and goes to the tools iff neither |
| `AgentLoopRouting.PermissionStopsFirst` | vermay/langgraph_runtime/nodes.py:269-316 | cancellation, a question to the user, elapsed time and the tool budget come before the gate, in this order |
| `AgentLoopRouting.ApprovalDecides` | vermay/langgraph_runtime/nodes.py:477-558 | each answer is recorded on the call asked about; a no rejects, a yes asks the next question, the last yes leads to the tools |
| `AgentLoopRouting.QuestionsAreTheApprovals` | vermay/langgraph_runtime/nodes.py:481-489 | the questions are exactly the decisions that need approval |
| `AgentLoopRouting.ModelReplyDecides` | vermay/langgraph_runtime/nodes.py:160-233 | within its limits the model node sends one request and follows the reply: answer, tool calls or error |
| `AgentLoopRouting.ModelLimitStops` | vermay/langgraph_runtime/nodes.py:160-185 | past a limit the run ends with that limit as its reason |
| `AgentLoopRouting.RejectionEnds` | vermay/langgraph_runtime/nodes.py:440-474 | a rejected turn ends the run as blocked, with nothing executed |
| `AgentLoopRouting.UserInputAnswersTheTurn` | vermay/langgraph_runtime/nodes.py:563-621 | the user's input answers every call of the turn, executes none, and the loop goes on |
| `AgentLoopRouting.LoopGoesOnIff` | vermay/langgraph_runtime/nodes.py:714-726 | the next step starts, with its permission reset, iff nothing stopped and steps are left |
| `AgentLoopRouting.ExecutionsAreCounted` | vermay/langgraph_runtime/nodes.py:52-119 | the counted executions are exactly the calls the wrapper executes |
| `AgentLoopRouting.GrantDecidesExecution` | vermay/langgraph_runtime/nodes.py:69-97 | under its own reference a call is executed iff it was not canceled and the ledger granted it |
| `AgentLoopRouting.ToolsAnswerEveryCall` | vermay/langgraph_runtime/nodes.py:52-119 | every call is answered once and in order, by its outcome if executed and by an error otherwise, and an exception leaves the graph |
| `Transactions.AgentStore.Exec` | vermay/storage.py:483-537 | every program of writes, registrations, nested scopes and errors has its flat meaning at depth 0 and only collects inside |
| `Transactions.AgentStore.Transaction` | vermay/storage.py:494-514 | only the outermost scope commits, rolls back and runs callbacks |
| `Transactions.AgentStore.Execute` | vermay/storage.py:483-488 | a write outside a transaction is durable at once, inside it is not |
| `Transactions.AgentStore.RegisterAfterCommit` | vermay/storage.py:516-529 | a callback runs at once outside a transaction and is queued inside |
| `Transactions.AgentStore.RunAfterCommitCallbacks` | vermay/storage.py:531-537 | callbacks run once, in order, whether or not they raise |
| `Transactions.AgentStore.ExecuteLifecycle` | vermay/main_agent/lifecycle_transactions.py:68-82 | a lifecycle transaction is one scope followed by one effect, at depth 0 with its flat meaning and under an open transaction collecting into it |
| `Transactions.AllOrNothing` | vermay/storage.py:494-537 | an outermost transaction makes all its rows durable in one commit and then runs its callbacks, or makes nothing durable and runs none |
| `Transactions.NestedScopesAreFlat` | vermay/storage.py:494-514 | nesting scopes changes nothing |
| `Transactions.CaughtScopeKeepsItsWork` | vermay/storage.py:516-523 | nested scopes are not savepoints: a caught error keeps their writes and callbacks |
| `Transactions.LifecycleEffectFollowsCommit` | vermay/main_agent/lifecycle_transactions.py:68-82 | the effect runs only after its facts are durable and never takes them back |
| `Transactions.NestedLifecycleActsEarly` | vermay/main_agent/lifecycle_transactions.py:68-82 | under an open transaction the effect of every completed workflow precedes the commit, and is all that is left when the outer commit fails |
| `Transactions.CommitsItsWrites` | vermay/storage.py:494-537 | a transaction of writes and registrations commits them in order, at once, and then calls back in order |
| `Transactions.ErrorTakesEverythingBack` | vermay/storage.py:494-514 | an error stops the rest of the program and takes everything back |
| `Transactions.BareWritesCommitOneByOne` | vermay/storage.py:483-488 | without a transaction each write is durable on its own |
| `Notifications.InProcessTaskEventNotifier.WaitForChange` | vermay/main_agent/task_event_subscription.py:34-47 | waits only on a version already observed, and returns the current one |
| `Notifications.VersionsOnlyGrow` | vermay/main_agent/task_event_subscription.py:49-52 | a version grows iff its task was notified |
| `Notifications.StepKeepsInv` | vermay/main_agent/store.py:1772-1798 | every commit, notify, observe, list and wake-up keeps the subscriber invariant |
| `Notifications.NoLostWakeUp` | vermay/main_agent/store.py:1785-1798 | a subscriber blocked on the current version has every committed event past its cursor still to be notified |
| `Notifications.NewsReleasesSubscriber` | vermay/main_agent/store.py:1561-1563 | any such notify moves the version past the one waited on, and the subscriber then finds the event |
| `Notifications.ListThenObserveLosesWakeUp` | vermay/main_agent/store.py:1785-1798 | a reader with the two reads in the other order can block on the current version with an undelivered event and no notify to come, from every state in which its list finds nothing |
| `Resubscription.ProjectBatch` | vermay/api/a2a/adapter.py:200-224 | a batch fails iff one of its events has no projection, and otherwise shows exactly the visible ones |
| `Resubscription.Subscribe` | vermay/api/a2a/routes.py:220-259 | against any growing log the stream is exactly the visible part of what it has seen past its cursor; it closes only on an end state it read, and stays open only while it read none |
| `Resubscription.EventsSince` | vermay/main_agent/store.py:1579-1589 | listing from the last id seen yields exactly what the log gained |
| `Resubscription.EventsAfterMeans` | vermay/main_agent/store.py:1579-1589 | listing keeps exactly the events past the cursor |
| `Resubscription.UpToDateIsExact` | vermay/api/a2a/routes.py:231-257 | the delivered ids are the non-internal events past the cursor, each once, increasing |
| `Resubscription.ClosingStateWasDelivered` | vermay/api/a2a/routes.py:246-257 | a stream that closes on an end state has delivered the very event that produced it in the log the task was read at, unless that event lies at or before the client's cursor |
| `Resubscription.TaskLogProjects` | vermay/main_agent/projection.py:37-54 | the log of a consistent task always projects, ends at the record's status, and hides exactly the audit events |
| `Resubscription.EndStates` | vermay/api/a2a/routes.py:327-328 | a stream ends exactly where the task ends or waits |
| `Sse.ReadSseStream` | web/lib/agent/stream.ts:112-142 | reading chunk by chunk emits what reading the whole text at once would |
| `Sse.EmitFrames` | web/lib/agent/stream.ts:131-133 | emits the payloads of the complete frames in order |
| `Sse.SplitIsIncremental` | web/lib/agent/stream.ts:129-130 | splitting the kept buffer with the next chunk continues the split of the whole |
| `Sse.BodyEmitsData` | web/lib/agent/stream.ts:144-157 | a printed event yields exactly its payload |
| `Sse.FormatIsOneFrame` | vermay/api/a2a/routes.py:262-267 | a printed event is cut at its own blank line whatever follows |
| `Sse.ParseUndoesPrint` | vermay/api/a2a/routes.py:262-267 | reading undoes printing |
| `Sse.ReadPrinted` | web/lib/agent/stream.ts:112-157 | for every sequence of one-line payloads and every way of cutting the printed text, exactly that sequence is emitted |
| `ClientProjection.MergeKeepsClient` | web/lib/agent/task-presentation.ts:388-413 | merging any projection that shows the backend at its revision keeps the client right and never goes back |
| `ClientProjection.EventKeepsClient` | web/lib/agent/task-projection-reducer.ts:43-81 | so does an event, also an artifact event without a status |
| `ClientProjection.SnapshotKeepsClient` | web/lib/agent/task-presentation.ts:415-442 | so does an arbitrarily stale snapshot |
| `ClientProjection.ClientNeverRegresses` | web/lib/agent/task-projection-reducer.ts:83-121 | over every delivery the shown revision never falls, the shown status is the backend's at that revision, and input requests and errors are shown only in their status |
| `ClientProjection.ClientShowsTheProcess` | web/lib/agent/task-presentation.ts:388-442 | the same against the log of any consistent task |
| `ClientProjection.HistoryHasRevisions` | vermay/main_agent/store.py:1450-1468 | the store's history invariant gives the revision discipline the client needs |
| `ClientProjection.UnrevisionedReadRegressesIff` | web/lib/agent/task-presentation.ts:403-442 | after a read without a revision that shows another status, the client keeps its revision and still shows the backend's status at it iff the read is older by timestamp; otherwise later reads up to that revision do not repair it |
| `ClientProjection.AnswerIsShownIff` | web/lib/agent/task-projection-reducer.ts:43-81 | a client without an answer shows the one that comes with an event iff the event is not older than what it shows |
| `ClientProjection.NewStatusIsShown` | web/lib/agent/task-projection-reducer.ts:43-81 | a newer status event shows its status, its request while waiting and its error when failed |
| `ClientProjection.NewArtifactKeepsStatus` | web/lib/agent/task-projection-reducer.ts:43-81 | a newer artifact event moves the revision and the answer, not the status |
| `ClientProjection.NewSnapshotIsShown` | web/lib/agent/task-presentation.ts:415-442 | a newer snapshot shows its status, revision, thread and error |
| `ClientProjection.StaleIsIgnored` | web/lib/agent/task-presentation.ts:388-402 | a stale projection changes nothing |
| `ThreadEntries.JoinKeeps` | vermay/main_agent/task_runner.py:122-128 | joining keeps one shared, exactly counted entry per thread id |
| `ThreadEntries.LeaveKeeps` | vermay/main_agent/task_runner.py:132-137 | so does leaving |
| `ThreadEntries.InTableIffInUse` | vermay/main_agent/task_runner.py:119-137 | a thread id has an entry iff a call is in flight on it |
| `ThreadEntries.LocalTaskRunner.CountIn` | vermay/main_agent/task_runner.py:119-128 | a call counts itself in, or is refused once the runner is closed |
| `ThreadEntries.LocalTaskRunner.TakeLock` | vermay/main_agent/task_runner.py:129-131 | a lock is taken iff nobody holds it |
| `ThreadEntries.LocalTaskRunner.CountOut` | vermay/main_agent/task_runner.py:132-137 | leaving releases the lock and the count |
| `ThreadEntries.LocalTaskRunner.FinishClosing` | vermay/main_agent/task_runner.py:110-117 | the runtime is closed only with no call in flight |
| `ThreadEntries.LocalTaskRunner.LocksExclude` | vermay/main_agent/task_runner.py:119-137 | all calls on a thread id contend on one lock, at most one holds it, and a closed runtime has no calls |
| `ThreadEntries.ExecutionContextRegistry.Activate` | vermay/execution_context.py:97-119 | a first activation gets a signal nobody ever raised |
| `ThreadEntries.ExecutionContextRegistry.Deactivate` | vermay/execution_context.py:115-119 | the last user removes the signal |
| `ThreadEntries.ExecutionContextRegistry.RequestCancellation` | vermay/execution_context.py:121-129 | reaches exactly the calls active on the thread, and says whether there are any |
| `ThreadEntries.ExecutionContextRegistry.CancellationRequested` | vermay/execution_context.py:173-181 | true iff an active call of the thread holds a raised signal |
| `ThreadEntries.RetiredForever` | vermay/execution_context.py:115-119 | an entry without users stays out of the table and of every call, over every run of joins and leaves |
| `ThreadEntries.EntriesAreNotReused` | vermay/execution_context.py:115-119 | after its last user left, no later call of any run gets the same entry, so a signal cannot leak |

## Left out

- Remote proxy tasks beyond their admission: they never use the local queue, and their status merge is a table check.
- HTTP, model providers, MCP and SSH clients: their results are arbitrary inputs of the steps.
- SQLite, schema migrations, JSON encoding and row mappers: tables are maps and sequences, and each outermost transaction is one atomic commit. Database errors other than constraint violations are not modelled.
- Digests and generated ids: arguments are compared by an injective digest, generated ids are fresh.
- Clocks and timestamps: elapsed-time limits may fire at any check, and "latest invocation" means the one created last.
- LangGraph and LangChain internals: a tools node returns one message per call and a resume re-enters the interrupted node.
- Deleting contexts and registered agents, the UNIQUE constraint on runtime thread ids, routing prompts, classifiers, skills, memory, progress output, command line and React code.
- Liveness of wake-ups in general: it fails, as described above.
- Concurrency inside one guarded section or transaction: each is one step. `prepare` is one step too, although it reads the prior record of the effect before the transaction that creates the new one.
- Clients that guess an id the core has not drawn yet: a given message id is the client's own or one drawn before.
- Reading bytes as UTF-8 in the event stream: chunks are already decoded text. An aborted read just stops.
- Closing prepared calls of a completed task: the code does not close them, so closure is stated for failed and canceled tasks.
- A result with status running: the code leaves the task running without a worker, and so does the model.
- RuntimeProperties.DispatchedAtMostOnce: two commands with equal contents are told apart by the order of their creation.
- ClientProjection.ClientNeverRegresses: speaks of a task the client already holds; adding, replacing and removing tasks are map updates without a property of their own.
- MainAgentCores.MainAgentCore.ReconcileStartup: runs without workers in between; their interleaving with recovery is covered by RuntimeInvariant.RequeueKeepsInv.

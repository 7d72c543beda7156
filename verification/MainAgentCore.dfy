/**
The core's own transactions over the store (continuations, cancellation, outcomes), the in-process
worker adapter's two sets, and startup reconciliation.
*/
module MainAgentCores {
  import opened Prelude
  import opened Lifecycle
  import opened Processes
  import opened MainAgentStores
  import L = Ledger
  import R = Runtime

  // ----- the worker adapter ----------------------------------------------------------------

  /** Wake-up, deduplication and the active window of local workers. */
  class InProcessLocalExecutionAdapter {
    var active: set<TaskId>
    var scheduled: set<TaskId>

    constructor ()
      ensures active == {} && scheduled == {}
    {
      active, scheduled := {}, {};
    }

    /** `wake` with a submitter: at most one live frame per task, and none left behind by a failed submission. */
    method Wake(t: TaskId, submissionFails: bool) returns (woken: Result<bool>)
      modifies this
      ensures active == old(active)
      ensures woken == (if t in old(active) || t in old(scheduled) then Ok(false)
                        else if submissionFails then Raised else Ok(true))
      ensures scheduled == (if woken == Ok(true) then old(scheduled) + {t} else old(scheduled))
    {
      if t in active || t in scheduled {
        return Ok(false);
      }
      scheduled := scheduled + {t};
      if submissionFails {
        ForgetScheduled(t);
        return Raised;
      }
      return Ok(true);
    }

    method ForgetScheduled(t: TaskId)
      modifies this
      ensures active == old(active) && scheduled == old(scheduled) - {t}
    {
      scheduled := scheduled - {t};
    }

    method Enter(t: TaskId)
      modifies this
      ensures scheduled == old(scheduled) && active == old(active) + {t}
    {
      active := active + {t};
    }

    method Exit(t: TaskId)
      modifies this
      ensures scheduled == old(scheduled) && active == old(active) - {t}
    {
      active := active - {t};
    }
  }

  // ----- the core --------------------------------------------------------------------------

  /** The tasks whose status is one of these, in table order. */
  function WithStatus(db: Tables, order: seq<TaskId>, statuses: set<TaskStatus>): (r: seq<TaskId>)
    requires InTable(db, order)
    ensures forall t :: t in r <==> t in order && db.tasks[t].status in statuses
    ensures NoDup(order) ==> NoDup(r)
  {
    if order == [] then []
    else (if db.tasks[order[0]].status in statuses then [order[0]] else []) + WithStatus(db, order[1..], statuses)
  }

  ghost predicate AllOk(db: Tables) {
    forall t :: t in db.tasks ==> ProcessOk(Rows(db, t))
  }

  class MainAgentCore {
    const store: MainAgentStore
    const worker: InProcessLocalExecutionAdapter

    constructor (store: MainAgentStore, worker: InProcessLocalExecutionAdapter)
      ensures this.store == store && this.worker == worker
    {
      this.store, this.worker := store, worker;
    }

    // ----- continuations -------------------------------------------------------------------

    /** `_submit_task_input` and `_accept_pending_continuation` inside their transaction. */
    method AcceptPendingContinuation(t: TaskId, payload: Payload) returns (raised: bool)
      requires t in store.db.tasks
      modifies store
      ensures Realizes(old(store.db), store.db, t,
                       AcceptContinuation(Rows(old(store.db), t), payload, old(store.db).nextSerial), raised)
    {
      var saved := store.db;
      ghost var p := Rows(saved, t);
      if payload.Initial? || store.db.tasks[t].status !in {InputRequired, AuthRequired} || t !in store.db.pending {
        return true;
      }
      var request := store.db.pending[t];
      if request.kind != ExpectedKind(payload) {
        return true;
      }
      raised := ConsumeContinuation(t, payload, request);
      if raised {
        store.db := saved;
        return;
      }
      ghost var consumed := store.db;
      raised := QueueContinuation(t, payload);
      if raised {
        store.db := saved;
        return;
      }
      TouchesIsTransitive(saved, consumed, store.db, t);
    }

    /** The pending row, the decision it is bound to and the audit events. */
    method ConsumeContinuation(t: TaskId, payload: Payload, request: InputRequest) returns (raised: bool)
      requires t in store.db.tasks && store.db.pending.Keys >= {t} && store.db.pending[t] == request
      modifies store
      ensures var p := Rows(old(store.db), t);
              var decided :=
                if payload.ApprovalAnswer? then ResolveBinding(p.ledger, request.binding, payload.approved)
                else Ok(p.ledger);
              match decided
              case Raised => raised
              case Ok(l) =>
                !raised && Touches(old(store.db), store.db, t) && Rows(store.db, t) == Resumed(p, payload, l)
      ensures store.db.nextSerial == old(store.db).nextSerial
    {
      ghost var start := store.db;
      if payload.UserInput? {
        store.AppendTaskEvent(t, InputSubmitted, None);
      }
      ghost var submitted := store.db;
      store.ClearPendingContinuation(t);
      TouchesIsTransitive(start, submitted, store.db, t);
      if payload.ApprovalAnswer? {
        ghost var cleared := store.db;
        raised := store.ResolveApproval(t, request.binding, payload.approved);
        if raised {
          return;
        }
        TouchesIsTransitive(start, cleared, store.db, t);
      }
      ghost var decided := store.db;
      store.AppendTaskEvent(t, TaskResumed, None);
      TouchesIsTransitive(start, decided, store.db, t);
      raised := false;
    }

    method QueueContinuation(t: TaskId, payload: Payload) returns (raised: bool)
      requires t in store.db.tasks
      modifies store
      ensures var p := Rows(old(store.db), t);
              match Transition(p, Queued)
              case Raised => raised
              case Ok(q) => match Enqueue(q, Command(payload, q.task.thread, old(store.db).nextSerial))
                case Raised => raised
                case Ok(r) => !raised && Touches(old(store.db), store.db, t) && Rows(store.db, t) == r
    {
      ghost var start := store.db;
      raised := store.TransitionLocalTask(t, Queued, false);
      if raised {
        return;
      }
      ghost var moved := store.db;
      raised := store.EnqueueTaskExecution(t, payload, store.db.tasks[t].thread);
      if !raised {
        TouchesIsTransitive(start, moved, store.db, t);
      }
    }

    // ----- retry ---------------------------------------------------------------------------

    /**
    `accept_retry`: eligibility, the one-direct-retry index and the new attempt in one transaction. An
    existing retry is returned instead of a second one.
    */
    method RetryFailedTask(source: TaskId, t: TaskId, thread: ThreadId, queue: bool) returns (retry: Result<TaskId>)
      requires source in store.db.tasks && source != t && NoRows(store.db, t)
      modifies store
      ensures retry.Raised? <==> !R.Retryable(Rows(old(store.db), source))
      ensures retry != Ok(t) ==> store.db == old(store.db)
      ensures retry.Ok? && retry.value != t ==> IsRetryOf(old(store.db), retry.value, source)
      ensures retry == Ok(t) ==> RetryAccepted(old(store.db), store.db, source, t, thread, queue)
      ensures retry == Ok(t) ==> forall u :: !IsRetryOf(old(store.db), u, source)
    {
      var task := store.db.tasks[source];
      var records := if source in store.db.invocations then store.db.invocations[source] else [];
      if task.status != Failed || !task.errorRetryable || exists i :: 0 <= i < |records| && records[i].sideEffecting {
        return Raised;
      }
      if exists u :: u in store.db.tasks && IsRetryOf(store.db, u, source) {
        var u :| u in store.db.tasks && IsRetryOf(store.db, u, source);
        return Ok(u);
      }
      CreateRetry(source, t, thread, queue);
      return Ok(t);
    }

    method CreateRetry(source: TaskId, t: TaskId, thread: ThreadId, queue: bool)
      requires source in store.db.tasks && source != t && NoRows(store.db, t)
      modifies store
      ensures RetryAccepted(old(store.db), store.db, source, t, thread, queue)
    {
      ghost var start := store.db;
      var raised := store.AcceptLocalTask(t, thread, Some(source), store.db.tasks[source].attempt + 1, queue);
      ghost var accepted := store.db;
      NoteRetry(source, t);
      RetryComposes(start, accepted, store.db, source, t, thread, queue);
    }

    /** The audit events on both ends of a retry. */
    method NoteRetry(source: TaskId, t: TaskId)
      requires source in store.db.tasks && t in store.db.tasks && source != t
      modifies store
      ensures RetryNoted(old(store.db), store.db, source, t)
    {
      ghost var start := store.db;
      store.AppendTaskEvent(source, RetryRequested, None);
      ghost var noted := store.db;
      assert Rows(noted, t) == Rows(start, t);
      store.AppendTaskEvent(t, Retried, None);
      assert Rows(store.db, source) == Rows(noted, source);
      forall u | u in start.tasks && u != source && u != t
        ensures Rows(store.db, u) == Rows(start, u)
      {
        assert Rows(noted, u) == Rows(start, u);
      }
    }

    // ----- cancellation --------------------------------------------------------------------

    /** `commit_cancellation`: an active worker keeps the task until it reports. */
    method CommitTaskCancellation(t: TaskId) returns (raised: bool)
      requires t in store.db.tasks
      modifies store
      ensures Realizes(old(store.db), store.db, t,
                       CommitCancellation(Rows(old(store.db), t), t in worker.active), raised)
    {
      var saved := store.db;
      var status := store.db.tasks[t].status;
      if IsTerminal(status) {
        return true;
      }
      if status == CancelRequested {
        return false;
      }
      if status == Running {
        raised := store.TransitionLocalTask(t, CancelRequested, false);
        if raised || t in worker.active {
          return;
        }
      }
      ghost var requested := store.db;
      raised := CancelNow(t);
      if raised {
        store.db := saved;
        return;
      }
      TouchesIsTransitive(saved, requested, store.db, t);
    }

    method CancelNow(t: TaskId) returns (raised: bool)
      requires t in store.db.tasks
      modifies store
      ensures match Transition(Rows(old(store.db), t), Canceled)
              case Raised => raised
              case Ok(c) =>
                && !raised && Touches(old(store.db), store.db, t)
                && Rows(store.db, t) == ClearContinuations(c.(ledger := L.CancelPrepared(c.ledger)))
    {
      ghost var start := store.db;
      raised := store.TransitionLocalTask(t, Canceled, false);
      if raised {
        return;
      }
      ghost var moved := store.db;
      var records := if t in store.db.invocations then store.db.invocations[t] else [];
      store.SetInvocations(t, L.CancelPrepared(records));
      TouchesIsTransitive(start, moved, store.db, t);
      ClearRows(start, t);
    }

    /** Deleting the continuation and the queued command. */
    method ClearRows(ghost start: Tables, t: TaskId)
      requires t in store.db.tasks && Touches(start, store.db, t)
      modifies store
      ensures Touches(old(store.db), store.db, t) && Touches(start, store.db, t)
      ensures Rows(store.db, t) == ClearContinuations(Rows(old(store.db), t))
    {
      ghost var before := store.db;
      store.ClearPendingContinuation(t);
      ghost var cleared := store.db;
      store.ClearQueuedExecution(t);
      TouchesIsTransitive(before, cleared, store.db, t);
      TouchesIsTransitive(start, before, store.db, t);
    }

    // ----- outcomes ------------------------------------------------------------------------

    /** `transition` followed by `_close_unresolved_execution`. */
    method TransitionAndCloseTask(t: TaskId, target: TaskStatus, retryable: bool) returns (raised: bool)
      requires t in store.db.tasks
      modifies store
      ensures Realizes(old(store.db), store.db, t,
                       TransitionAndClose(Rows(old(store.db), t), target, retryable), raised)
    {
      ghost var start := store.db;
      raised := store.TransitionLocalTask(t, target, retryable);
      if raised {
        return;
      }
      ghost var moved := store.db;
      var records := if t in store.db.invocations then store.db.invocations[t] else [];
      store.SetInvocations(t, L.CancelPrepared(L.MarkRunningUncertain(records)));
      TouchesIsTransitive(start, moved, store.db, t);
      ClearRows(start, t);
    }

    method RecordTaskCancellation(t: TaskId) returns (raised: bool)
      requires t in store.db.tasks
      modifies store
      ensures Realizes(old(store.db), store.db, t, RecordCancellation(Rows(old(store.db), t)), raised)
    {
      if IsTerminal(store.db.tasks[t].status) {
        return false;
      }
      raised := TransitionAndCloseTask(t, Canceled, false);
    }

    method RecordTaskFailure(t: TaskId, retryable: bool) returns (raised: bool)
      requires t in store.db.tasks
      modifies store
      ensures Realizes(old(store.db), store.db, t, RecordFailure(Rows(old(store.db), t), retryable), raised)
    {
      if IsTerminal(store.db.tasks[t].status) {
        return false;
      }
      if store.db.tasks[t].status == CancelRequested {
        raised := RecordTaskCancellation(t);
        return;
      }
      raised := TransitionAndCloseTask(t, Failed, retryable);
    }

    method RecordTaskRecoveryFailure(t: TaskId) returns (raised: bool)
      requires t in store.db.tasks
      modifies store
      ensures Realizes(old(store.db), store.db, t, RecordRecoveryFailure(Rows(old(store.db), t)), raised)
    {
      if IsTerminal(store.db.tasks[t].status) {
        return false;
      }
      raised := TransitionAndCloseTask(t, Failed, true);
    }

    method PersistTaskObservations(t: TaskId, observations: Option<Text>)
      requires t in store.db.tasks
      modifies store
      ensures Touches(old(store.db), store.db, t)
      ensures Rows(store.db, t) == PersistObservations(Rows(old(store.db), t), observations)
    {
      if observations.None? {
        return;
      }
      ghost var start := store.db;
      var known := t in store.db.artifacts && Observations in store.db.artifacts[t];
      store.UpsertTaskArtifact(t, Observations, observations.value);
      ghost var stored := store.db;
      store.AppendTaskEvent(t, if known then ArtifactUpdated else ArtifactCreated, None);
      TouchesIsTransitive(start, stored, store.db, t);
    }

    /** `_record_completed`: evidence, answer and output before the status. */
    method RecordTaskCompleted(t: TaskId, r: RunResult) returns (raised: bool)
      requires t in store.db.tasks
      modifies store
      ensures match RecordCompleted(Rows(old(store.db), t), r)
              case Raised => raised
              case Ok(p) => !raised && Touches(old(store.db), store.db, t) && Rows(store.db, t) == p
    {
      ghost var start := store.db;
      WriteAnswer(t, r);
      ghost var answered := store.db;
      raised := store.TransitionLocalTask(t, Completed, false);
      if raised {
        return;
      }
      TouchesIsTransitive(start, answered, store.db, t);
      ClearRows(start, t);
    }

    method WriteAnswer(t: TaskId, r: RunResult)
      requires t in store.db.tasks
      modifies store
      ensures Touches(old(store.db), store.db, t) && Rows(store.db, t) == Answered(Rows(old(store.db), t), r)
    {
      ghost var start := store.db;
      PersistTaskObservations(t, r.observations);
      ghost var observed := store.db;
      store.UpsertTaskArtifact(t, FinalAnswer, r.answer);
      TouchesIsTransitive(start, observed, store.db, t);
      ghost var stored := store.db;
      store.AppendTaskEvent(t, ArtifactCreated, None);
      TouchesIsTransitive(start, stored, store.db, t);
      ghost var noted := store.db;
      store.SetTaskOutput(t, r.outputMessage);
      TouchesIsTransitive(start, noted, store.db, t);
    }

    method RecordTaskInterrupted(t: TaskId, r: RunResult, status: TaskStatus, request: InputRequest)
      returns (raised: bool)
      requires t in store.db.tasks
      modifies store
      ensures match RecordInterrupted(Rows(old(store.db), t), r, status, request)
              case Raised => raised
              case Ok(p) => !raised && Touches(old(store.db), store.db, t) && Rows(store.db, t) == p
    {
      ghost var start := store.db;
      PersistTaskObservations(t, r.observations);
      ghost var observed := store.db;
      store.SetPendingContinuation(t, request);
      TouchesIsTransitive(start, observed, store.db, t);
      ghost var asked := store.db;
      raised := store.TransitionLocalTask(t, status, false);
      if raised {
        return;
      }
      TouchesIsTransitive(start, asked, store.db, t);
      ghost var moved := store.db;
      store.ClearQueuedExecution(t);
      TouchesIsTransitive(start, moved, store.db, t);
    }

    /** The last branch of `record_local_result`: anything else is a failure with evidence. */
    method RecordTaskStopped(t: TaskId, r: RunResult) returns (raised: bool)
      requires t in store.db.tasks
      modifies store
      ensures match TransitionAndClose(PersistObservations(Rows(old(store.db), t), r.observations), Failed, r.retryable)
              case Raised => raised
              case Ok(p) => !raised && Touches(old(store.db), store.db, t) && Rows(store.db, t) == p
    {
      ghost var start := store.db;
      PersistTaskObservations(t, r.observations);
      ghost var observed := store.db;
      raised := TransitionAndCloseTask(t, Failed, r.retryable);
      if !raised {
        TouchesIsTransitive(start, observed, store.db, t);
      }
    }

    /** `record_local_result`. */
    method RecordLocalResult(t: TaskId, r: RunResult) returns (raised: bool)
      requires t in store.db.tasks
      modifies store
      ensures Realizes(old(store.db), store.db, t, RecordResult(Rows(old(store.db), t), r), raised)
    {
      var saved := store.db;
      var current := store.db.tasks[t].status;
      if IsTerminal(current) {
        return false;
      }
      if current == CancelRequested {
        raised := RecordTaskCancellation(t);
        return;
      }
      var status := ResultStatus(r);
      if status in {InputRequired, AuthRequired} {
        var request := ContinuationRequest(r);
        if request.None? {
          raised := RecordTaskFailure(t, false);
          return;
        }
        raised := RecordTaskInterrupted(t, r, status, request.value);
      } else if status == Completed {
        raised := RecordTaskCompleted(t, r);
      } else if status == Running {
        return false;
      } else {
        raised := RecordTaskStopped(t, r);
      }
      if raised {
        store.db := saved;
      }
    }

    /** `_record_local_execution_outcome`. */
    method RecordLocalExecutionOutcome(t: TaskId, outcome: Outcome, fallbackRetryable: bool) returns (raised: bool)
      requires t in store.db.tasks
      modifies store
      ensures Realizes(old(store.db), store.db, t,
                       RecordOutcome(Rows(old(store.db), t), outcome, fallbackRetryable), raised)
    {
      match outcome {
        case Crashed(retryable) => raised := RecordTaskFailure(t, retryable);
        case Finished(r) =>
          raised := RecordLocalResult(t, r);
          if raised {
            raised := RecordTaskFailure(t, fallbackRetryable);
          }
      }
    }

    // ----- one worker slice ----------------------------------------------------------------

    /**
    `_run_scheduled` and `_run_once`, with what the dispatch reports as an input: a queued task is
    claimed, run and recorded, any other is left alone, and in each case the task leaves both sets.
    */
    method RunScheduled(t: TaskId, outcome: Outcome, fallbackRetryable: bool) returns (dispatched: Option<Command>)
      requires t in store.db.tasks && ProcessOk(Rows(store.db, t))
      modifies store, worker
      ensures worker.active == old(worker.active) - {t} && worker.scheduled == old(worker.scheduled) - {t}
      ensures dispatched == Rows(old(store.db), t).queued
      ensures dispatched.None? ==> store.db == old(store.db)
      ensures Touches(old(store.db), store.db, t) && ProcessOk(Rows(store.db, t)) && Rows(store.db, t).queued.None?
      ensures dispatched.Some? ==>
                && Claim(Rows(old(store.db), t)).Ok? && Claim(Rows(old(store.db), t)).value.Some?
                && Ok(Rows(store.db, t))
                   == RecordOutcome(Claim(Rows(old(store.db), t)).value.value.0, outcome, fallbackRetryable)
    {
      ghost var start := store.db;
      ClaimOk(Rows(start, t));
      worker.Enter(t);
      var claimed := store.ClaimQueuedTaskExecution(t);
      dispatched := claimed.value;
      worker.Exit(t);
      if dispatched.Some? {
        ghost var running := store.db;
        OutcomeOk(Rows(running, t), outcome, fallbackRetryable);
        var raised := RecordLocalExecutionOutcome(t, outcome, fallbackRetryable);
        TouchesIsTransitive(start, running, store.db, t);
      }
      worker.ForgetScheduled(t);
    }

    // ----- startup -------------------------------------------------------------------------

    /** One more task failed on top of those failed since `start`. */
    method FailNext(ghost start: Tables, ghost failed: seq<TaskId>, t: TaskId)
      requires FailedExactly(start, store.db, failed)
      requires PendingTask(start, t) && t !in failed
      modifies store
      ensures FailedExactly(start, store.db, failed + [t])
    {
      ghost var before := store.db;
      assert RowsAfter(start, before, failed, t);
      RecoveryOk(Rows(start, t));
      var raised := RecordTaskRecoveryFailure(t);
      assert FailedForGood(Rows(store.db, t));
      OneMoreFailed(start, before, store.db, failed, t);
    }

    /** `_reconcile_startup`, first loop: whatever was running when the process died is failed. */
    method FailInterrupted(interrupted: seq<TaskId>) returns (failed: seq<TaskId>)
      requires Pending(store.db, interrupted)
      modifies store
      ensures failed == interrupted && FailedExactly(old(store.db), store.db, failed)
    {
      ghost var start := store.db;
      failed := [];
      for k := 0 to |interrupted|
        invariant FailedExactly(start, store.db, failed)
        invariant failed == interrupted[..k]
      {
        PendingNext(start, interrupted, k);
        FailNext(start, failed, interrupted[k]);
        failed := failed + [interrupted[k]];
      }
      assert interrupted[..|interrupted|] == interrupted;
    }

    /** One queued task at startup: its command is recoverable and its worker can be woken, or it is failed. */
    method RecoverQueued(ghost start: Tables, ghost failed: seq<TaskId>, t: TaskId, undecodable: bool,
                         available: bool, submissionFails: bool)
      returns (fate: Fate)
      requires FailedExactly(start, store.db, failed)
      requires PendingTask(start, t) && t !in failed && start.tasks[t].status == Queued
      modifies store, worker
      ensures FailedExactly(start, store.db, if fate == Lost then failed + [t] else failed)
      ensures worker.active == old(worker.active)
      ensures worker.scheduled == (if fate == Woken then old(worker.scheduled) + {t} else old(worker.scheduled))
      ensures fate == FateOf(old(worker.scheduled) + old(worker.active), t, undecodable, available, submissionFails)
    {
      assert RowsAfter(start, store.db, failed, t);
      if undecodable || t !in store.db.queued || store.db.queued[t].thread != store.db.tasks[t].thread || !available {
        FailNext(start, failed, t);
        return Lost;
      }
      var woken := worker.Wake(t, submissionFails);
      if woken.Raised? {
        FailNext(start, failed, t);
        return Lost;
      }
      return if woken.value then Woken else Retained;
    }

    /**
    `_reconcile_startup`, second loop: the queued tasks are split into scheduled, failed and retained.
    `undecodable` and `refused` are the tasks whose command row is unreadable or whose submission raises.
    */
    method RequeueQueued(queued: seq<TaskId>, available: bool, undecodable: set<TaskId>, refused: set<TaskId>)
      returns (r: Reconciliation)
      requires Pending(store.db, queued) && forall t :: t in queued ==> store.db.tasks[t].status == Queued
      modifies store, worker
      ensures FailedExactly(old(store.db), store.db, r.failed) && Splits(queued, r)
      ensures AreLive(r, worker.scheduled, worker.active)
    {
      ghost var start := store.db;
      r := Reconciliation([], [], []);
      for k := 0 to |queued|
        invariant FailedExactly(start, store.db, r.failed)
        invariant Splits(queued[..k], r)
        invariant AreLive(r, worker.scheduled, worker.active)
      {
        assert PendingTask(start, queued[k]) && queued[k] in queued;
        NotListedYet(queued, k, r);
        r := RecoverNext(start, queued, k, r, queued[k] in undecodable, available, queued[k] in refused, queued[k]);
      }
      assert queued[..|queued|] == queued;
    }

    /** One iteration of the second loop. */
    method RecoverNext(ghost start: Tables, ghost queued: seq<TaskId>, ghost k: nat, before: Reconciliation,
                       undecodable: bool, available: bool, submissionFails: bool, t: TaskId)
      returns (r: Reconciliation)
      requires k < |queued| && queued[k] == t
      requires FailedExactly(start, store.db, before.failed) && Splits(queued[..k], before)
      requires AreLive(before, worker.scheduled, worker.active)
      requires PendingTask(start, t) && t !in before.failed && start.tasks[t].status == Queued
      modifies store, worker
      ensures FailedExactly(start, store.db, r.failed) && Splits(queued[..k + 1], r)
      ensures AreLive(r, worker.scheduled, worker.active)
    {
      var fate := RecoverQueued(start, before.failed, t, undecodable, available, submissionFails);
      SplitOneMore(queued, k, before, fate);
      r := before.Add(t, fate);
    }

    /**
    `_reconcile_startup`: the tasks that were running, canceling or queued are split, each exactly once,
    into scheduled, failed and retained ones; every failed one is terminal and closed, every other task
    of the store keeps all its rows.
    */
    method ReconcileStartup(order: seq<TaskId>, available: bool, undecodable: set<TaskId>, refused: set<TaskId>)
      returns (r: Reconciliation)
      requires AllOk(store.db) && NoDup(order) && InTable(store.db, order)
      modifies store, worker
      ensures AllOk(store.db) && FailedExactly(old(store.db), store.db, r.failed)
      ensures Splits(WithStatus(old(store.db), order, {Running, CancelRequested})
                       + WithStatus(old(store.db), order, {Queued}), r)
      ensures AreLive(r, worker.scheduled, worker.active)
      ensures (forall t :: t in old(store.db).tasks ==> t in order) ==> CoversTable(old(store.db), r)
    {
      ghost var start := store.db;
      ListIsPending(start, order, {Running, CancelRequested});
      var interrupted := FailInterrupted(WithStatus(store.db, order, {Running, CancelRequested}));
      ghost var middle := store.db;
      AllOkAfter(start, middle, interrupted);
      SameQueuedList(start, middle, order);
      ListIsPending(middle, order, {Queued});
      r := RequeueQueued(WithStatus(store.db, order, {Queued}), available, undecodable, refused);
      AllOkAfter(middle, store.db, r.failed);
      FailedInTwo(start, middle, store.db, interrupted, r.failed);
      r := r.(failed := interrupted + r.failed);
      if forall t :: t in start.tasks ==> t in order {
        SplitCoversTable(start, order, r);
      }
    }
  }

  ghost predicate PendingTask(db: Tables, t: TaskId) {
    t in db.tasks && !IsTerminal(db.tasks[t].status) && ProcessOk(Rows(db, t))
  }

  /** A list of distinct tasks that are not terminal. */
  ghost predicate Pending(db: Tables, list: seq<TaskId>) {
    NoDup(list) && forall i :: 0 <= i < |list| ==> PendingTask(db, list[i])
  }

  lemma PendingNext(db: Tables, list: seq<TaskId>, k: nat)
    requires Pending(db, list) && k < |list|
    ensures PendingTask(db, list[k]) && list[k] !in list[..k] && list[..k] + [list[k]] == list[..k + 1]
  {
  }

  predicate InTable(db: Tables, order: seq<TaskId>) {
    forall i :: 0 <= i < |order| ==> order[i] in db.tasks
  }

  lemma ListIsPending(db: Tables, order: seq<TaskId>, statuses: set<TaskStatus>)
    requires AllOk(db) && NoDup(order) && InTable(db, order) && statuses !! {Completed, Failed, Canceled}
    ensures Pending(db, WithStatus(db, order, statuses))
    ensures forall t :: t in WithStatus(db, order, statuses) ==> t in db.tasks && db.tasks[t].status in statuses
  {
    var list := WithStatus(db, order, statuses);
    forall i | 0 <= i < |list|
      ensures PendingTask(db, list[i])
    {
      assert list[i] in list;
    }
  }

  /** The three lists that startup reconciliation reports. */
  datatype Reconciliation = Reconciliation(scheduled: seq<TaskId>, failed: seq<TaskId>, retained: seq<TaskId>) {
    function Add(t: TaskId, fate: Fate): Reconciliation {
      match fate
      case Woken => this.(scheduled := scheduled + [t])
      case Retained => this.(retained := retained + [t])
      case Lost => this.(failed := failed + [t])
    }
  }

  predicate IsRetryOf(db: Tables, u: TaskId, source: TaskId) {
    u in db.tasks && db.tasks[u].retryOf == Some(source)
  }

  /** The new attempt exists, its source only gained an audit event, nothing else changed. */
  ghost predicate RetryAccepted(a: Tables, b: Tables, source: TaskId, t: TaskId, thread: ThreadId, queue: bool)
    requires source in a.tasks
  {
    && b.tasks.Keys == a.tasks.Keys + {t}
    && Rows(b, source) == AppendEvent(Rows(a, source), RetryRequested)
    && var accepted := Accept(thread, Some(source), a.tasks[source].attempt + 1, queue, a.nextSerial);
       && accepted.Ok? && Rows(b, t) == AppendEvent(accepted.value, Retried)
       && forall u :: u in a.tasks && u != source ==> Rows(b, u) == Rows(a, u)
  }

  ghost predicate RetryNoted(a: Tables, b: Tables, source: TaskId, t: TaskId)
    requires source in a.tasks && t in a.tasks
  {
    && b.tasks.Keys == a.tasks.Keys
    && Rows(b, source) == AppendEvent(Rows(a, source), RetryRequested)
    && Rows(b, t) == AppendEvent(Rows(a, t), Retried)
    && forall u :: u in a.tasks && u != source && u != t ==> Rows(b, u) == Rows(a, u)
  }

  /** Accepting a retry and noting it on both tasks touches those two and no other. */
  lemma RetryComposes(a: Tables, b: Tables, c: Tables, source: TaskId, t: TaskId, thread: ThreadId, queue: bool)
    requires source in a.tasks && source != t && t !in a.tasks
    requires Adds(a, b, t) && RetryNoted(b, c, source, t)
    requires Ok(Rows(b, t)) == Accept(thread, Some(source), a.tasks[source].attempt + 1, queue, a.nextSerial)
    ensures RetryAccepted(a, c, source, t, thread, queue)
  {
    assert Rows(b, source) == Rows(a, source);
    forall u | u in a.tasks && u != source
      ensures Rows(c, u) == Rows(a, u)
    {
      assert Rows(b, u) == Rows(a, u) && Rows(c, u) == Rows(b, u);
    }
  }

  datatype Fate = Woken | Retained | Lost

  /** What becomes of a queued task at startup. */
  function FateOf(live: set<TaskId>, t: TaskId, undecodable: bool, available: bool, submissionFails: bool): Fate {
    if undecodable || !available then Lost
    else if t in live then Retained
    else if submissionFails then Lost
    else Woken
  }

  ghost predicate FailedForGood(p: Process) {
    ProcessOk(p) && p.task.status == Failed && p.task.errorRetryable && L.Closed(p.ledger)
  }

  ghost predicate RowsAfter(start: Tables, now: Tables, failed: seq<TaskId>, t: TaskId)
    requires t in start.tasks && t in now.tasks
  {
    if t in failed then FailedForGood(Rows(now, t)) else Rows(now, t) == Rows(start, t)
  }

  /** Exactly the listed tasks were failed; every other row is as it was. */
  ghost predicate FailedExactly(start: Tables, now: Tables, failed: seq<TaskId>) {
    && now.tasks.Keys == start.tasks.Keys
    && (forall t :: t in failed ==> t in start.tasks)
    && (forall t :: t in start.tasks ==> RowsAfter(start, now, failed, t))
  }

  lemma OneMoreFailed(start: Tables, before: Tables, now: Tables, failed: seq<TaskId>, t: TaskId)
    requires FailedExactly(start, before, failed) && Touches(before, now, t)
    requires t in now.tasks && FailedForGood(Rows(now, t))
    ensures FailedExactly(start, now, failed + [t])
  {
    forall u | u in start.tasks
      ensures RowsAfter(start, now, failed + [t], u)
    {
      assert RowsAfter(start, before, failed, u);
    }
  }

  lemma AllOkAfter(start: Tables, now: Tables, failed: seq<TaskId>)
    requires AllOk(start) && FailedExactly(start, now, failed)
    ensures AllOk(now)
  {
    forall t | t in now.tasks
      ensures ProcessOk(Rows(now, t))
    {
      assert RowsAfter(start, now, failed, t);
    }
  }

  lemma FailedInTwo(start: Tables, middle: Tables, now: Tables, a: seq<TaskId>, b: seq<TaskId>)
    requires FailedExactly(start, middle, a) && FailedExactly(middle, now, b)
    ensures FailedExactly(start, now, a + b)
  {
    forall t | t in start.tasks
      ensures RowsAfter(start, now, a + b, t)
    {
      assert RowsAfter(start, middle, a, t) && RowsAfter(middle, now, b, t);
    }
  }

  lemma SameQueuedList(start: Tables, now: Tables, order: seq<TaskId>)
    requires InTable(start, order) && InTable(now, order)
    requires FailedExactly(start, now, WithStatus(start, order, {Running, CancelRequested}))
    ensures WithStatus(now, order, {Queued}) == WithStatus(start, order, {Queued})
  {
    SameQueued(start, now, order, WithStatus(start, order, {Running, CancelRequested}));
  }

  /** Failing the interrupted tasks leaves the list of queued ones as it was. */
  lemma {:induction false} SameQueued(start: Tables, now: Tables, order: seq<TaskId>, failed: seq<TaskId>)
    requires FailedExactly(start, now, failed) && InTable(start, order) && InTable(now, order)
    requires forall t :: t in failed ==> start.tasks[t].status != Queued
    ensures WithStatus(now, order, {Queued}) == WithStatus(start, order, {Queued})
    decreases |order|
  {
    if order != [] {
      assert RowsAfter(start, now, failed, order[0]);
      assert Rows(now, order[0]).task == now.tasks[order[0]] && Rows(start, order[0]).task == start.tasks[order[0]];
      SameQueued(start, now, order[1..], failed);
    }
  }

  /** Scheduled, failed and retained together list each task of `all` exactly once. */
  ghost predicate Splits(all: seq<TaskId>, r: Reconciliation) {
    multiset(r.scheduled) + multiset(r.failed) + multiset(r.retained) == multiset(all)
  }

  ghost predicate AreLive(r: Reconciliation, scheduled: set<TaskId>, active: set<TaskId>) {
    && (forall t :: t in r.scheduled ==> t in scheduled)
    && (forall t :: t in r.retained ==> t in scheduled + active)
  }

  lemma SplitOneMore(all: seq<TaskId>, k: nat, r: Reconciliation, fate: Fate)
    requires k < |all| && Splits(all[..k], r)
    ensures Splits(all[..k + 1], r.Add(all[k], fate))
  {
    assert all[..k + 1] == all[..k] + [all[k]];
  }

  /** A task that a reconciliation has not come to yet is on none of its lists. */
  lemma NotListedYet(all: seq<TaskId>, k: nat, r: Reconciliation)
    requires NoDup(all) && k < |all| && Splits(all[..k], r)
    ensures all[k] !in r.scheduled && all[k] !in r.failed && all[k] !in r.retained
  {
    assert all[k] !in multiset(all[..k]);
  }

  /** The lists of a reconciliation are disjoint, have no repetitions and cover what was split. */
  lemma SplitsAreDisjoint(all: seq<TaskId>, r: Reconciliation, t: TaskId)
    requires Splits(all, r) && NoDup(all)
    ensures t in all <==> t in r.scheduled || t in r.failed || t in r.retained
    ensures multiset(r.scheduled)[t] + multiset(r.failed)[t] + multiset(r.retained)[t] <= 1
  {
    CountOfNoDup(all, t);
  }

  /** How often the lists mention a task. */
  ghost function Mentions(r: Reconciliation, t: TaskId): nat {
    multiset(r.scheduled)[t] + multiset(r.failed)[t] + multiset(r.retained)[t]
  }

  /** Of the whole table, exactly the running, canceling and queued tasks are on the lists, each once. */
  ghost predicate CoversTable(db: Tables, r: Reconciliation) {
    forall t :: t in db.tasks ==>
      Mentions(r, t) == if db.tasks[t].status in {Running, CancelRequested, Queued} then 1 else 0
  }

  lemma SplitCoversTable(db: Tables, order: seq<TaskId>, r: Reconciliation)
    requires NoDup(order) && InTable(db, order) && forall t :: t in db.tasks ==> t in order
    requires Splits(WithStatus(db, order, {Running, CancelRequested}) + WithStatus(db, order, {Queued}), r)
    ensures CoversTable(db, r)
  {
    var a, b := WithStatus(db, order, {Running, CancelRequested}), WithStatus(db, order, {Queued});
    forall t | t in db.tasks
      ensures Mentions(r, t) == if db.tasks[t].status in {Running, CancelRequested, Queued} then 1 else 0
    {
      CountOfNoDup(a, t);
      CountOfNoDup(b, t);
      assert Mentions(r, t) == (multiset(r.scheduled) + multiset(r.failed) + multiset(r.retained))[t];
      assert multiset(a + b)[t] == multiset(a)[t] + multiset(b)[t];
    }
  }

  lemma {:induction false} CountOfNoDup(all: seq<TaskId>, t: TaskId)
    requires NoDup(all)
    ensures multiset(all)[t] == if t in all then 1 else 0
    decreases |all|
  {
    if all != [] {
      var n := |all| - 1;
      assert all == all[..n] + [all[n]];
      CountOfNoDup(all[..n], t);
    }
  }
}

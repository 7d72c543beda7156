/**
Once-only execution over every run of the runtime: what the ledger guarantees for one call and for one
effect carries over to all workers, requests, crashes and restarts.
*/
module OnceOnly {
  import opened Prelude
  import opened Lifecycle
  import opened Processes
  import opened Runtime
  import opened RuntimeInvariant
  import opened RuntimeProperties
  import L = Ledger

  /** The step is a begin of `key` for task `t` to which the ledger answers "execute". */
  ghost predicate GrantsCall(s: State, op: Op, t: TaskId, key: L.CallKey) {
    && op.BeginTool? && op.key == key && Dispatches(s, op.frame) && s.frames[op.frame].task == t
    && L.Grants(s.procs[t].ledger, L.OpBegin(key), key)
  }

  /** How often execution of the call is granted along the run. */
  ghost function CallGrants(s: State, ops: seq<Op>, t: TaskId, key: L.CallKey): nat
    decreases |ops|
  {
    if ops == [] then 0
    else (if GrantsCall(s, ops[0], t, key) then 1 else 0) + CallGrants(Step(s, ops[0]), ops[1..], t, key)
  }

  /** No worker begins a call that it has in flight: the calls of a turn have different ids. */
  ghost predicate DistinctInFlight(s: State, ops: seq<Op>)
    decreases |ops|
  {
    ops == [] ||
    (&& (ops[0].BeginTool? && Dispatches(s, ops[0].frame) ==> ops[0].key !in s.frames[ops[0].frame].phase.inflight)
     && DistinctInFlight(Step(s, ops[0]), ops[1..]))
  }

  /** The task has a record of the call that left `prepared`. */
  ghost predicate HasLeftPrepared(s: State, t: TaskId, key: L.CallKey) {
    && t in s.procs
    && var l := s.procs[t].ledger; L.IndexOf(l, key) < |l| && l[L.IndexOf(l, key)].status != L.Prepared
  }

  ghost predicate HasFinal(s: State, t: TaskId, key: L.CallKey) {
    && t in s.procs
    && var l := s.procs[t].ledger; L.IndexOf(l, key) < |l| && L.Final(l[L.IndexOf(l, key)].status)
  }

  lemma RecordsStayPut(s: State, op: Op, t: TaskId, key: L.CallKey)
    requires Inv(s) && HasLeftPrepared(s, t, key)
    ensures HasLeftPrepared(Step(s, op), t, key)
    ensures HasFinal(s, t, key) ==> HasFinal(Step(s, op), t, key)
  {
    StepKeepsInv(s, op);
    LedgersKeepRecords(s.procs[t], Step(s, op).procs[t], key);
  }

  lemma LedgersKeepRecords(p: Process, q: Process, key: L.CallKey)
    requires Evolves(p, q) && L.RecordsOk(q.ledger) && L.IndexOf(p.ledger, key) < |p.ledger|
    ensures var i := L.IndexOf(p.ledger, key);
            L.IndexOf(q.ledger, key) == i < |q.ledger| && L.Advances(p.ledger[i], q.ledger[i])
  {
    var i := L.IndexOf(p.ledger, key);
    assert L.Advances(p.ledger[i], q.ledger[i]);
    L.IndexOfIsUnique(q.ledger, i);
  }

  /** Nothing finished, uncertain or canceled is granted execution again, by any worker, in any run. */
  lemma {:induction false} FinalCallIsNeverGranted(s: State, ops: seq<Op>, t: TaskId, key: L.CallKey)
    requires Inv(s) && HasFinal(s, t, key)
    ensures CallGrants(s, ops, t, key) == 0
    decreases |ops|
  {
    if ops != [] {
      RecordsStayPut(s, ops[0], t, key);
      StepKeepsInv(s, ops[0]);
      FinalCallIsNeverGranted(Step(s, ops[0]), ops[1..], t, key);
    }
  }

  /** Distinct calls in flight exclude a begin on the running record. */
  lemma DistinctIsNotConcurrent(s: State, op: Op, t: TaskId, key: L.CallKey)
    requires FramesOk(s) && HasLeftPrepared(s, t, key)
    requires op.BeginTool? && Dispatches(s, op.frame) ==> op.key !in s.frames[op.frame].phase.inflight
    ensures !GrantsCall(s, op, t, key)
  {
    if op.BeginTool? && Dispatches(s, op.frame) {
      assert FrameOk(s, op.frame);
    }
  }

  lemma {:induction false} LeftPreparedIsNotGranted(s: State, ops: seq<Op>, t: TaskId, key: L.CallKey)
    requires Inv(s) && HasLeftPrepared(s, t, key) && DistinctInFlight(s, ops)
    ensures CallGrants(s, ops, t, key) == 0
    decreases |ops|
  {
    if ops != [] {
      DistinctIsNotConcurrent(s, ops[0], t, key);
      RecordsStayPut(s, ops[0], t, key);
      StepKeepsInv(s, ops[0]);
      LeftPreparedIsNotGranted(Step(s, ops[0]), ops[1..], t, key);
    }
  }

  lemma GrantedHasLeftPrepared(s: State, op: Op, t: TaskId, key: L.CallKey)
    requires Inv(s) && GrantsCall(s, op, t, key)
    ensures HasLeftPrepared(Step(s, op), t, key)
  {
    var l := s.procs[t].ledger;
    assert ProcessOk(s.procs[t]);
    L.GrantMakesRunning(l, L.OpBegin(key), key);
    assert Step(s, op).procs[t].ledger == L.Apply(l, L.OpBegin(key));
  }

  /**
  While no worker begins a call it has in flight, each call of each task is granted at most once, over
  every run of the whole runtime, crashes and restarts included.
  */
  lemma {:induction false} CallGrantedAtMostOnce(s: State, ops: seq<Op>, t: TaskId, key: L.CallKey)
    requires Inv(s) && DistinctInFlight(s, ops)
    ensures CallGrants(s, ops, t, key) <= 1
    decreases |ops|
  {
    if ops != [] {
      StepKeepsInv(s, ops[0]);
      if GrantsCall(s, ops[0], t, key) {
        GrantedHasLeftPrepared(s, ops[0], t, key);
        LeftPreparedIsNotGranted(Step(s, ops[0]), ops[1..], t, key);
      } else {
        CallGrantedAtMostOnce(Step(s, ops[0]), ops[1..], t, key);
      }
    }
  }

  /** A worker prepares a call although the newest record of the same effect is still prepared. */
  ghost predicate CreatesTwinCall(s: State, op: Op) {
    && op.PrepareTool? && Dispatches(s, op.frame)
    && L.CreatesTwin(ProcOf(s, op.frame).ledger, L.OpPrepare(op.key, op.approvalRequired, op.sideEffecting))
  }

  ghost predicate NoTwinCalls(s: State, ops: seq<Op>)
    decreases |ops|
  {
    ops == [] || (!CreatesTwinCall(s, ops[0]) && NoTwinCalls(Step(s, ops[0]), ops[1..]))
  }

  ghost predicate NoTwins(s: State) {
    forall t :: t in s.procs ==> L.NoLiveTwin(s.procs[t].ledger)
  }

  lemma AdvancingKeepsNoLiveTwin(l: L.Records, l': L.Records)
    requires L.NoLiveTwin(l) && L.Extends(l, l') && |l'| == |l|
    ensures L.NoLiveTwin(l')
  {
    forall i, j | 0 <= i < j < |l'| && L.SameEffect(l'[i].key, l'[j].key)
      ensures L.Final(l'[i].status) && !l'[i].started
    {
      assert L.Advances(l[i], l'[i]) && L.Advances(l[j], l'[j]);
      assert L.SameEffect(l[i].key, l[j].key);
    }
  }

  /** The transaction adds no invocation. */
  ghost predicate SameSize(p: Process, r: Result<Process>) {
    r.Ok? ==> |r.value.ledger| == |p.ledger|
  }

  lemma ControlAddsNoCall(p: Process, active: bool, retryable: bool, payload: Payload, serial: nat)
    ensures SameSize(p, CommitCancellation(p, active)) && SameSize(p, RecordFailure(p, retryable))
    ensures SameSize(p, RecordRecoveryFailure(p)) && SameSize(p, AcceptContinuation(p, payload, serial))
  {
  }

  lemma OutcomeAddsNoCall(p: Process, outcome: Outcome, fallbackRetryable: bool)
    ensures SameSize(p, RecordOutcome(p, outcome, fallbackRetryable))
  {
    ControlAddsNoCall(p, false, fallbackRetryable, Initial, 0);
    if outcome.Finished? {
      ResultAddsNoCall(p, outcome.result);
    } else {
      ControlAddsNoCall(p, false, outcome.retryable, Initial, 0);
    }
  }

  lemma ResultAddsNoCall(p: Process, r: RunResult)
    ensures SameSize(p, RecordResult(p, r))
  {
    if p.task.status == CancelRequested || ContinuationRequest(r).None? {
      ControlAddsNoCall(p, false, false, Initial, 0);
    } else {
      InterruptionAddsNoCall(p, r, ResultStatus(r), ContinuationRequest(r).value);
    }
    CompletionAddsNoCall(p, r);
  }

  lemma EvidenceAddsNoCall(p: Process, observations: Option<Text>)
    ensures PersistObservations(p, observations).ledger == p.ledger
  {
  }

  lemma CompletionAddsNoCall(p: Process, r: RunResult)
    ensures SameSize(p, RecordCompleted(p, r))
    ensures SameSize(p, TransitionAndClose(PersistObservations(p, r.observations), Failed, r.retryable))
  {
    EvidenceAddsNoCall(p, r.observations);
  }

  lemma InterruptionAddsNoCall(p: Process, r: RunResult, status: TaskStatus, request: InputRequest)
    ensures SameSize(p, RecordInterrupted(p, r, status, request))
  {
    EvidenceAddsNoCall(p, r.observations);
  }

  lemma RequestsAddNoCall(s: State, op: Op, t: TaskId)
    requires IsRequest(op) && t in s.procs && t in StepRequest(s, op).procs
    ensures |StepRequest(s, op).procs[t].ledger| == |s.procs[t].ledger|
  {
    var payload := if op.Continue? then op.payload else Initial;
    ControlAddsNoCall(s.procs[t], t in s.active, op.RecordWakeFailure? && op.retryable, payload, s.nextSerial);
  }

  lemma RestartsAddNoCall(s: State, op: Op, t: TaskId)
    requires IsRestart(op) && t in s.procs && t in StepRestart(s, op).procs
    ensures |StepRestart(s, op).procs[t].ledger| == |s.procs[t].ledger|
  {
    ControlAddsNoCall(s.procs[t], false, false, Initial, 0);
  }

  lemma ToolsAddNoCall(s: State, op: Op, t: TaskId)
    requires IsTool(op) && !op.PrepareTool? && t in s.procs && t in StepTool(s, op).procs
    ensures |StepTool(s, op).procs[t].ledger| == |s.procs[t].ledger|
  {
  }

  lemma FramesAddNoCall(s: State, op: Op, t: TaskId)
    requires IsFrame(op) && t in s.procs && t in StepFrame(s, op).procs
    ensures |StepFrame(s, op).procs[t].ledger| == |s.procs[t].ledger|
  {
    if op.Record? && Live(s, op.frame) && s.frames[op.frame].phase.Reporting? {
      OutcomeAddsNoCall(ProcOf(s, op.frame), s.frames[op.frame].phase.outcome, op.fallbackRetryable);
    }
  }

  /** Only `prepare` ever adds an invocation to a task. */
  lemma OnlyPrepareAddsCalls(s: State, op: Op, t: TaskId)
    requires t in s.procs && t in Step(s, op).procs && !op.PrepareTool?
    ensures |Step(s, op).procs[t].ledger| == |s.procs[t].ledger|
  {
    if IsRequest(op) {
      if s.boot.Serving? {
        RequestsAddNoCall(s, op, t);
      }
    } else if IsRestart(op) {
      RestartsAddNoCall(s, op, t);
    } else if IsTool(op) {
      ToolsAddNoCall(s, op, t);
    } else {
      FramesAddNoCall(s, op, t);
    }
  }

  lemma PrepareKeepsNoTwins(s: State, op: Op, t: TaskId)
    requires ProcsOk(s) && NoTwins(s) && op.PrepareTool? && !CreatesTwinCall(s, op)
    requires t in s.procs && t in Step(s, op).procs
    ensures L.NoLiveTwin(Step(s, op).procs[t].ledger)
  {
    if Dispatches(s, op.frame) && s.frames[op.frame].task == t {
      assert ProcessOk(s.procs[t]);
      L.ApplyKeepsNoLiveTwin(s.procs[t].ledger, L.OpPrepare(op.key, op.approvalRequired, op.sideEffecting));
    }
  }

  lemma NewTasksHaveNoCalls(s: State, op: Op, t: TaskId)
    requires t !in s.procs && t in Step(s, op).procs
    ensures Step(s, op).procs[t].ledger == []
  {
    if op.AcceptTask? {
      AcceptOk(op.thread, None, 1, op.queue, s.nextSerial);
    } else if op.AcceptRetry? {
      if op.source in s.procs {
        AcceptOk(op.thread, Some(op.source), s.procs[op.source].task.attempt + 1, op.queue, s.nextSerial);
      }
    } else {
      NothingElseAddsTasks(s, op, t);
    }
  }

  lemma NothingElseAddsTasks(s: State, op: Op, t: TaskId)
    requires t !in s.procs && !op.AcceptTask? && !op.AcceptRetry?
    ensures t !in Step(s, op).procs
  {
    if t !in Subjects(s, op) {
      OthersKeepTheirRows(s, op, t);
    }
  }

  lemma StepKeepsNoTwins(s: State, op: Op)
    requires Inv(s) && NoTwins(s) && !CreatesTwinCall(s, op)
    ensures NoTwins(Step(s, op))
  {
    StepKeepsInv(s, op);
    forall t | t in Step(s, op).procs
      ensures L.NoLiveTwin(Step(s, op).procs[t].ledger)
    {
      if t !in s.procs {
        NewTasksHaveNoCalls(s, op, t);
      } else if op.PrepareTool? {
        PrepareKeepsNoTwins(s, op, t);
      } else {
        OnlyPrepareAddsCalls(s, op, t);
        AdvancingKeepsNoLiveTwin(s.procs[t].ledger, Step(s, op).procs[t].ledger);
      }
    }
  }

  /**
  If no worker prepares a repeated effect next to a prepared record of it, each task starts at most one
  record of each effect, over every run of the whole runtime.
  */
  lemma {:induction false} EffectStartsAtMostOnce(s: State, ops: seq<Op>, t: TaskId)
    requires Inv(s) && NoTwins(s) && NoTwinCalls(s, ops) && t in Run(s, ops).procs
    ensures L.OneStartedPerEffect(Run(s, ops).procs[t].ledger)
    decreases |ops|
  {
    if ops != [] {
      StepKeepsInv(s, ops[0]);
      StepKeepsNoTwins(s, ops[0]);
      EffectStartsAtMostOnce(Step(s, ops[0]), ops[1..], t);
    }
  }

  // ----- approval before execution ---------------------------------------------------------

  /** The task has a record of the call that needs the operator's yes and does not have it. */
  ghost predicate LacksApproval(s: State, t: TaskId, key: L.CallKey) {
    && t in s.procs && Unapproved(s.procs[t].ledger, key)
  }

  predicate Unapproved(l: L.Records, key: L.CallKey) {
    && L.IndexOf(l, key) < |l|
    && l[L.IndexOf(l, key)].approvalRequired && l[L.IndexOf(l, key)].approval != L.Approved
  }

  /** The step is the operator's yes to the request that is bound to this call. */
  ghost predicate ApprovesCall(s: State, op: Op, t: TaskId, key: L.CallKey) {
    && op == Continue(t, ApprovalAnswer(true)) && t in s.procs && s.procs[t].pending.Some?
    && s.procs[t].pending.value.binding.Bound? && s.procs[t].pending.value.binding.key == key
  }

  ghost predicate NeverApproved(s: State, ops: seq<Op>, t: TaskId, key: L.CallKey)
    decreases |ops|
  {
    ops == [] || (!ApprovesCall(s, ops[0], t, key) && NeverApproved(Step(s, ops[0]), ops[1..], t, key))
  }

  /** No record's approval changes. */
  ghost predicate SameApprovals(l: L.Records, l': L.Records) {
    |l| <= |l'| && forall i :: 0 <= i < |l| ==> l'[i].approval == l[i].approval
  }

  lemma ControlApprovesNothing(p: Process, active: bool, retryable: bool)
    ensures CommitCancellation(p, active).Ok? ==> SameApprovals(p.ledger, CommitCancellation(p, active).value.ledger)
    ensures RecordFailure(p, retryable).Ok? ==> SameApprovals(p.ledger, RecordFailure(p, retryable).value.ledger)
    ensures RecordRecoveryFailure(p).Ok? ==> SameApprovals(p.ledger, RecordRecoveryFailure(p).value.ledger)
  {
  }

  lemma StopApprovesNothing(p: Process, r: RunResult)
    ensures var q := TransitionAndClose(PersistObservations(p, r.observations), Failed, r.retryable);
            q.Ok? ==> SameApprovals(p.ledger, q.value.ledger)
    ensures RecordCompleted(p, r).Ok? ==> RecordCompleted(p, r).value.ledger == p.ledger
  {
    EvidenceAddsNoCall(p, r.observations);
  }

  lemma WaitingApprovesNothing(p: Process, r: RunResult, status: TaskStatus, request: InputRequest)
    ensures var q := RecordInterrupted(p, r, status, request); q.Ok? ==> q.value.ledger == p.ledger
  {
    EvidenceAddsNoCall(p, r.observations);
  }

  lemma ResultApprovesNothing(p: Process, r: RunResult)
    ensures RecordResult(p, r).Ok? ==> SameApprovals(p.ledger, RecordResult(p, r).value.ledger)
  {
    var status := ResultStatus(r);
    if p.task.status == CancelRequested {
      CancellationApprovesNothing(p);
    } else if status in {InputRequired, AuthRequired} {
      if ContinuationRequest(r).None? {
        ControlApprovesNothing(p, false, false);
      } else {
        WaitingApprovesNothing(p, r, status, ContinuationRequest(r).value);
      }
    } else {
      StopApprovesNothing(p, r);
    }
  }

  lemma CancellationApprovesNothing(p: Process)
    ensures RecordCancellation(p).Ok? ==> SameApprovals(p.ledger, RecordCancellation(p).value.ledger)
  {
  }

  lemma OutcomeApprovesNothing(p: Process, outcome: Outcome, fallbackRetryable: bool)
    ensures var r := RecordOutcome(p, outcome, fallbackRetryable);
            r.Ok? ==> SameApprovals(p.ledger, r.value.ledger)
  {
    ControlApprovesNothing(p, false, fallbackRetryable);
    if outcome.Finished? {
      ResultApprovesNothing(p, outcome.result);
    } else {
      ControlApprovesNothing(p, false, outcome.retryable);
    }
  }

  /** Only the operator's answer to its bound request changes a call's approval. */
  lemma StepApprovesNothingElse(s: State, op: Op, t: TaskId)
    requires t in s.procs && t in Step(s, op).procs && !(op.Continue? && op.task == t)
    ensures SameApprovals(s.procs[t].ledger, Step(s, op).procs[t].ledger)
  {
    if IsTool(op) {
      ToolsApproveNothing(s, op, t);
    } else if IsFrame(op) {
      FramesApproveNothing(s, op, t);
    } else if IsRestart(op) {
      RestartsApproveNothing(s, op, t);
    } else if s.boot.Serving? {
      RequestsApproveNothing(s, op, t);
    }
  }

  lemma RequestsApproveNothing(s: State, op: Op, t: TaskId)
    requires IsRequest(op) && t in s.procs && t in StepRequest(s, op).procs && !(op.Continue? && op.task == t)
    ensures SameApprovals(s.procs[t].ledger, StepRequest(s, op).procs[t].ledger)
  {
    if op.CancelTask? || op.RecordWakeFailure? {
      ControlApprovesNothing(s.procs[t], t in s.active, op.RecordWakeFailure? && op.retryable);
    } else {
      AcceptanceApprovesNothing(s, op, t);
    }
  }

  lemma AcceptanceApprovesNothing(s: State, op: Op, t: TaskId)
    requires IsRequest(op) && !op.CancelTask? && !op.RecordWakeFailure? && !(op.Continue? && op.task == t)
    requires t in s.procs && t in StepRequest(s, op).procs
    ensures StepRequest(s, op).procs[t].ledger == s.procs[t].ledger
  {
  }

  lemma RestartsApproveNothing(s: State, op: Op, t: TaskId)
    requires IsRestart(op) && t in s.procs && t in StepRestart(s, op).procs
    ensures SameApprovals(s.procs[t].ledger, StepRestart(s, op).procs[t].ledger)
  {
    if op.FailInterrupted? {
      if op.task in s.procs {
        FailRecoveryApprovesNothing(s, op.task, t);
      }
    } else if op.Requeue? && s.boot.Requeueing? && op.task in s.procs {
      FailRecoveryApprovesNothing(s.(boot := Requeueing(s.boot.remaining - {op.task})), op.task, t);
    }
  }

  lemma FailRecoveryApprovesNothing(s: State, u: TaskId, t: TaskId)
    requires u in s.procs && t in s.procs
    ensures t in FailRecovery(s, u).procs && SameApprovals(s.procs[t].ledger, FailRecovery(s, u).procs[t].ledger)
  {
    ControlApprovesNothing(s.procs[u], false, false);
  }

  lemma ToolsApproveNothing(s: State, op: Op, t: TaskId)
    requires IsTool(op) && t in s.procs && t in StepTool(s, op).procs
    ensures SameApprovals(s.procs[t].ledger, StepTool(s, op).procs[t].ledger)
  {
  }

  lemma FramesApproveNothing(s: State, op: Op, t: TaskId)
    requires IsFrame(op) && t in s.procs && t in StepFrame(s, op).procs
    ensures SameApprovals(s.procs[t].ledger, StepFrame(s, op).procs[t].ledger)
  {
    if op.Record? && Live(s, op.frame) && s.frames[op.frame].phase.Reporting? {
      OutcomeApprovesNothing(ProcOf(s, op.frame), s.frames[op.frame].phase.outcome, op.fallbackRetryable);
    }
  }

  lemma SameApprovalsStayUnapproved(p: Process, q: Process, key: L.CallKey)
    requires Evolves(p, q) && L.RecordsOk(q.ledger) && SameApprovals(p.ledger, q.ledger) && Unapproved(p.ledger, key)
    ensures Unapproved(q.ledger, key)
  {
    LedgersKeepRecords(p, q, key);
  }

  lemma ContinuationKeepsUnapproved(p: Process, payload: Payload, serial: nat, key: L.CallKey)
    requires ProcessOk(p) && Unapproved(p.ledger, key) && AcceptContinuation(p, payload, serial).Ok?
    requires !(payload == ApprovalAnswer(true) && p.pending.value.binding.Bound? && p.pending.value.binding.key == key)
    ensures Unapproved(AcceptContinuation(p, payload, serial).value.ledger, key)
  {
    ContinuationOk(p, payload, serial);
    ContinuationDecidesOnlyItsBinding(p, payload, serial);
    LedgersKeepRecords(p, AcceptContinuation(p, payload, serial).value, key);
  }

  lemma StepKeepsUnapproved(s: State, op: Op, t: TaskId, key: L.CallKey)
    requires Inv(s) && LacksApproval(s, t, key) && !ApprovesCall(s, op, t, key)
    ensures LacksApproval(Step(s, op), t, key)
  {
    StepKeepsInv(s, op);
    if op.Continue? && op.task == t {
      if s.boot.Serving? && AcceptContinuation(s.procs[t], op.payload, s.nextSerial).Ok? {
        ContinuationKeepsUnapproved(s.procs[t], op.payload, s.nextSerial, key);
      }
    } else {
      StepApprovesNothingElse(s, op, t);
      SameApprovalsStayUnapproved(s.procs[t], Step(s, op).procs[t], key);
    }
  }

  lemma UnapprovedIsNotGranted(s: State, op: Op, t: TaskId, key: L.CallKey)
    requires ProcsOk(s) && LacksApproval(s, t, key)
    ensures !GrantsCall(s, op, t, key)
  {
    var l := s.procs[t].ledger;
    assert ProcessOk(s.procs[t]) && L.RecordOk(l[L.IndexOf(l, key)]);
  }

  /** Over every run of the runtime, a call that needs approval is not granted before the operator's yes to it. */
  lemma {:induction false} UnapprovedCallIsNeverGranted(s: State, ops: seq<Op>, t: TaskId, key: L.CallKey)
    requires Inv(s) && LacksApproval(s, t, key) && NeverApproved(s, ops, t, key)
    ensures CallGrants(s, ops, t, key) == 0
    decreases |ops|
  {
    if ops != [] {
      UnapprovedIsNotGranted(s, ops[0], t, key);
      StepKeepsUnapproved(s, ops[0], t, key);
      StepKeepsInv(s, ops[0]);
      UnapprovedCallIsNeverGranted(Step(s, ops[0]), ops[1..], t, key);
    }
  }

  /** A dispatching worker asks for a new call: unknown key, effect not blocked, identity free. */
  ghost predicate PreparesNew(s: State, op: Op, t: TaskId) {
    && op.PrepareTool? && Dispatches(s, op.frame) && s.frames[op.frame].task == t
    && var l := s.procs[t].ledger;
       !L.Knows(l, op.key) && !L.EffectBlocked(l, op.key) && !L.IdentityTaken(l, op.key)
  }

  /** Preparing a new call records it as asked: with its approval requirement and its side effect. */
  lemma PrepareRecordsTheCall(s: State, op: Op, t: TaskId)
    requires ProcsOk(s) && PreparesNew(s, op, t)
    ensures var l, l' := s.procs[t].ledger, Step(s, op).procs[t].ledger;
            && |l'| == |l| + 1 && l <= l'
            && L.IsNewCall(l'[|l|], op.key, op.approvalRequired, op.sideEffecting)
            && L.IndexOf(l', op.key) == |l|
            && (op.sideEffecting ==> HasSideEffects(Step(s, op).procs[t]))
  {
    var l := s.procs[t].ledger;
    assert ProcessOk(s.procs[t]);
    L.PrepareAnswers(l, op.key, op.approvalRequired, op.sideEffecting);
    L.ApplyKeepsRecords(l, L.OpPrepare(op.key, op.approvalRequired, op.sideEffecting));
    L.IndexOfIsUnique(Step(s, op).procs[t].ledger, |l|);
  }

  /** So what the permission gate wants approved runs, in any run, only after the operator's yes to this call. */
  lemma PreparedCallNeedsApproval(s: State, op: Op, t: TaskId, ops: seq<Op>)
    requires Inv(s) && PreparesNew(s, op, t) && op.approvalRequired
    requires NeverApproved(Step(s, op), ops, t, op.key)
    ensures CallGrants(Step(s, op), ops, t, op.key) == 0
  {
    PrepareRecordsTheCall(s, op, t);
    StepKeepsInv(s, op);
    UnapprovedCallIsNeverGranted(Step(s, op), ops, t, op.key);
  }
}

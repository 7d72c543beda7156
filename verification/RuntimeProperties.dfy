/**
What the runtime guarantees in every reachable state and along every run, crashes included. Each
theorem quantifies over all operation sequences; `s` reached from `INITIAL` is any committed state.
*/
module RuntimeProperties {
  import opened Prelude
  import opened Lifecycle
  import opened Processes
  import opened Runtime
  import opened RuntimeInvariant
  import L = Ledger

  function Reached(ops: seq<Op>): State {
    Run(INITIAL, ops)
  }

  lemma ReachedInv(ops: seq<Op>)
    ensures Inv(Reached(ops))
  {
    InitialInv();
    RunKeepsInv(INITIAL, ops);
  }

  // ----- one committed state ---------------------------------------------------------------

  /** Queue row, continuation row and status of a task always agree, and it owns at most one row. */
  lemma RowsAgreeWithStatus(ops: seq<Op>, t: TaskId)
    requires t in Reached(ops).procs
    ensures var p := Reached(ops).procs[t];
            && (p.task.status == Queued <==> p.queued.Some?)
            && (p.queued.Some? ==> p.queued.value.thread == p.task.thread && p.pending.None?)
            && (p.task.status == InputRequired <==> p.pending.Some? && p.pending.value.kind == UserInputRequired)
            && (p.task.status == AuthRequired <==> p.pending.Some? && p.pending.value.kind == ApprovalRequired)
            && (p.task.status !in {Queued, InputRequired, AuthRequired} ==> p.queued.None? && p.pending.None?)
  {
    ReachedInv(ops);
  }

  /** The status events of a task walk the transition table from `Created` to its current status. */
  lemma EventsWalkTheTable(ops: seq<Op>, t: TaskId)
    requires t in Reached(ops).procs
    ensures var p := Reached(ops).procs[t];
            var trail := StatusTrail(p.events);
            && 0 < |trail| && trail[0] == Created && LegalPath(trail) && trail[|trail| - 1] == p.task.status
            && (forall i :: 0 <= i < |p.events| ==> 1 <= p.events[i].revision <= p.task.revision)
            && (forall i, j :: 0 <= i < j < |p.events| ==> p.events[i].revision <= p.events[j].revision)
            && (forall i, j :: 0 <= i < j < |p.events| && p.events[j].status.Some? ==>
                  p.events[i].revision < p.events[j].revision)
  {
    ReachedInv(ops);
    var p := Reached(ops).procs[t];
    assert ProcessOk(p);
    HistoryMeans(p.events, p.task.status, p.task.revision);
  }

  /** No call that needs an operator's approval was ever granted without it. */
  lemma GrantedCallsWereApproved(ops: seq<Op>, t: TaskId, i: nat)
    requires t in Reached(ops).procs && i < |Reached(ops).procs[t].ledger|
    ensures var call := Reached(ops).procs[t].ledger[i];
            (call.started || call.status in {L.Running, L.Succeeded}) && call.approvalRequired ==>
              call.approval == L.Approved
  {
    ReachedInv(ops);
    var p := Reached(ops).procs[t];
    assert ProcessOk(p);
    assert L.RecordOk(p.ledger[i]);
  }

  /** One live frame per task; the scheduled and active sets are exactly what the frames say. */
  lemma OneFramePerTask(ops: seq<Op>)
    ensures var s := Reached(ops);
            && (forall f, g :: f in s.frames && g in s.frames && s.frames[f].task == s.frames[g].task ==> f == g)
            && (forall t :: t in s.scheduled <==> exists f :: f in s.frames && s.frames[f].task == t)
            && (forall t :: t in s.active <==>
                  exists f :: f in s.frames && s.frames[f].task == t && Holds(s.frames[f].phase))
  {
    ReachedInv(ops);
    var s := Reached(ops);
    forall f | f in s.frames
      ensures s.frames[f].task in s.scheduled
      ensures s.frames[f].task in s.active <==> Holds(s.frames[f].phase)
    {
      assert FrameOk(s, f);
    }
    forall t | t in s.scheduled
      ensures exists f :: f in s.frames && s.frames[f].task == t
    {
      assert HasFrame(s, t);
    }
    forall t | t in s.active
      ensures exists f :: f in s.frames && s.frames[f].task == t && Holds(s.frames[f].phase)
    {
      assert HasFrame(s, t);
    }
  }

  /** A call runs only under a worker that dispatches its task; whoever is not dispatched runs nothing. */
  lemma CallsRunUnderTheirWorker(ops: seq<Op>, t: TaskId)
    requires t in Reached(ops).procs && Reached(ops).boot.Serving?
    ensures var s := Reached(ops);
            L.NoneRunning(s.procs[t].ledger)
            || exists f :: f in s.frames && s.frames[f].task == t && s.frames[f].phase.Dispatching?
  {
    ReachedInv(ops);
    var s := Reached(ops);
    assert IdleOk(s, t);
    if t in s.scheduled {
      assert HasFrame(s, t);
      var f :| f in s.frames && s.frames[f].task == t;
      assert FrameOk(s, f);
    }
  }

  // ----- whole runs ------------------------------------------------------------------------

  /** Each queued command is handed to the runner at most once, across any number of crashes. */
  lemma DispatchedAtMostOnce(ops: seq<Op>)
    ensures var s := Reached(ops);
            && NoDup(s.dispatched)
            && forall t :: t in s.procs && s.procs[t].queued.Some? ==> s.procs[t].queued.value.serial !in s.dispatched
  {
    ReachedInv(ops);
  }

  /** The claim of frame `f` hands the queued command of its task to the runner. */
  ghost predicate Dispatched(s: State, s': State, f: nat) {
    && f in s.frames && f in s'.frames && s'.frames[f].task == s.frames[f].task
    && var t := s.frames[f].task;
       && t in s.procs && t in s'.procs
       && s.procs[t].queued.Some? && s'.procs[t].queued.None?
       && s'.dispatched == s.dispatched + [s.procs[t].queued.value.serial]
  }

  /** A worker starts dispatching only by consuming its task's queued command, and that is what the history records. */
  lemma DispatchConsumesItsCommand(s: State, op: Op, f: nat)
    requires Inv(s) && f in Step(s, op).frames && Step(s, op).frames[f].phase.Dispatching?
    requires f !in s.frames || !s.frames[f].phase.Dispatching?
    ensures op == ClaimCommand(f) && Dispatched(s, Step(s, op), f)
  {
    if IsRequest(op) || IsRestart(op) {
      RequestsDoNotDispatch(s, op, f);
    } else if IsTool(op) {
      ToolsDoNotDispatch(s, op, f);
    } else if op == ClaimCommand(f) {
      ClaimDispatches(s, f);
    } else {
      FramesDoNotDispatch(s, op, f);
    }
  }

  /** Only the frame of a claim can go into dispatch. */
  lemma RequestsDoNotDispatch(s: State, op: Op, f: nat)
    requires (IsRequest(op) || IsRestart(op)) && f in Step(s, op).frames
    ensures Step(s, op).frames[f].phase.Dispatching? ==> f in s.frames && s.frames[f].phase.Dispatching?
  {
  }

  lemma ToolsDoNotDispatch(s: State, op: Op, f: nat)
    requires IsTool(op) && f in StepTool(s, op).frames
    ensures StepTool(s, op).frames[f].phase.Dispatching? ==> f in s.frames && s.frames[f].phase.Dispatching?
  {
    if Dispatches(s, op.frame) && StepTool(s, op) != s {
      var t, s' := s.frames[op.frame].task, StepTool(s, op);
      assert s' == Advance(s, op.frame, s'.procs[t], s'.frames[op.frame].phase);
    }
  }

  lemma FramesDoNotDispatch(s: State, op: Op, f: nat)
    requires IsFrame(op) && op != ClaimCommand(f) && f in StepFrame(s, op).frames
    ensures StepFrame(s, op).frames[f].phase.Dispatching? ==> f in s.frames && s.frames[f].phase.Dispatching?
  {
  }

  lemma ClaimDispatches(s: State, f: nat)
    requires Inv(s) && f in DoClaim(s, f).frames && DoClaim(s, f).frames[f].phase.Dispatching?
    requires f !in s.frames || !s.frames[f].phase.Dispatching?
    ensures Dispatched(s, DoClaim(s, f), f)
  {
    ClaimOk(ProcOf(s, f));
  }

  /** Every queued command has a serial of its own: a row that changes to a new command draws the next one. */
  lemma CommandsDrawFreshSerials(s: State, op: Op, t: TaskId)
    requires ProcsOk(s) && FramesOk(s) && t in Step(s, op).procs && Step(s, op).procs[t].queued.Some?
    requires t !in s.procs || s.procs[t].queued != Step(s, op).procs[t].queued
    ensures Step(s, op).procs[t].queued.value.serial == s.nextSerial < Step(s, op).nextSerial
  {
    if t !in Subjects(s, op) {
      OthersKeepTheirRows(s, op, t);
    } else if IsRequest(op) {
      RequestsDrawFreshSerials(s, op, t);
    } else if IsRestart(op) {
      RecoveryQueuesNothing(s, op, t);
    } else if IsTool(op) {
      ToolsQueueNothing(s, op, t);
    } else {
      FramesQueueNothing(s, op, t);
    }
  }

  /** What a transaction may do to the queue row of a task. */
  ghost predicate QueuesNothingNew(p: Process, q: Process) {
    q.queued.None? || q.queued == p.queued
  }

  lemma CancellationQueuesNothing(p: Process, active: bool, retryable: bool)
    ensures CommitCancellation(p, active).Ok? ==> QueuesNothingNew(p, CommitCancellation(p, active).value)
    ensures RecordFailure(p, retryable).Ok? ==> QueuesNothingNew(p, RecordFailure(p, retryable).value)
    ensures RecordRecoveryFailure(p).Ok? ==> QueuesNothingNew(p, RecordRecoveryFailure(p).value)
  {
  }

  lemma RequestsDrawFreshSerials(s: State, op: Op, t: TaskId)
    requires ProcsOk(s) && IsRequest(op) && t in Subjects(s, op)
    requires t in StepRequest(s, op).procs && StepRequest(s, op).procs[t].queued.Some?
    requires t !in s.procs || s.procs[t].queued != StepRequest(s, op).procs[t].queued
    ensures StepRequest(s, op).procs[t].queued.value.serial == s.nextSerial < StepRequest(s, op).nextSerial
  {
    if op.CancelTask? || op.RecordWakeFailure? {
      if t in s.procs {
        CancellationQueuesNothing(s.procs[t], t in s.active, op.RecordWakeFailure? && op.retryable);
      }
    } else {
      AcceptanceDrawsFreshSerial(s, op, t);
    }
  }

  lemma AcceptanceDrawsFreshSerial(s: State, op: Op, t: TaskId)
    requires ProcsOk(s) && t in Subjects(s, op) && (op.AcceptTask? || op.AcceptRetry? || op.Continue?)
    requires t in StepRequest(s, op).procs && StepRequest(s, op).procs[t].queued.Some?
    requires t !in s.procs || s.procs[t].queued != StepRequest(s, op).procs[t].queued
    ensures StepRequest(s, op).procs[t].queued.value.serial == s.nextSerial < StepRequest(s, op).nextSerial
  {
    if op.AcceptTask? {
      AcceptOk(op.thread, None, 1, op.queue, s.nextSerial);
    } else if op.AcceptRetry? {
      if op.source in s.procs {
        AcceptOk(op.thread, Some(op.source), s.procs[op.source].task.attempt + 1, op.queue, s.nextSerial);
      }
    } else if t in s.procs && AcceptContinuation(s.procs[t], op.payload, s.nextSerial).Ok? {
      ContinuationOk(s.procs[t], op.payload, s.nextSerial);
    }
  }

  lemma RecoveryQueuesNothing(s: State, op: Op, t: TaskId)
    requires IsRestart(op) && t in s.procs && t in StepRestart(s, op).procs
    ensures QueuesNothingNew(s.procs[t], StepRestart(s, op).procs[t])
  {
    CancellationQueuesNothing(s.procs[t], false, false);
  }

  lemma ToolsQueueNothing(s: State, op: Op, t: TaskId)
    requires IsTool(op) && t in s.procs && t in StepTool(s, op).procs
    ensures StepTool(s, op).procs[t].queued == s.procs[t].queued
  {
  }

  lemma RecordQueuesNothing(s: State, f: nat, fallbackRetryable: bool)
    requires ProcsOk(s) && FramesOk(s) && Live(s, f) && s.frames[f].phase.Reporting?
    ensures var r := RecordOutcome(ProcOf(s, f), s.frames[f].phase.outcome, fallbackRetryable);
            r.Ok? && QueuesNothingNew(ProcOf(s, f), r.value)
  {
    assert FrameOk(s, f);
    OutcomeOk(ProcOf(s, f), s.frames[f].phase.outcome, fallbackRetryable);
  }

  lemma FramesQueueNothing(s: State, op: Op, t: TaskId)
    requires ProcsOk(s) && FramesOk(s) && IsFrame(op) && t in s.procs && t in StepFrame(s, op).procs
    ensures QueuesNothingNew(s.procs[t], StepFrame(s, op).procs[t])
  {
    if op.Record? {
      if Live(s, op.frame) && s.frames[op.frame].phase.Reporting? {
        RecordQueuesNothing(s, op.frame, op.fallbackRetryable);
      }
    } else {
      MovesQueueNothing(s, op, t);
    }
  }

  lemma MovesQueueNothing(s: State, op: Op, t: TaskId)
    requires IsFrame(op) && !op.Record? && t in s.procs && t in StepFrame(s, op).procs
    ensures QueuesNothingNew(s.procs[t], StepFrame(s, op).procs[t])
  {
  }

  lemma {:induction false} RunConcat(s: State, a: seq<Op>, b: seq<Op>)
    ensures Run(s, a + b) == Run(Run(s, a), b)
    decreases |a|
  {
    if a == [] {
      assert a + b == b;
    } else {
      assert (a + b)[1..] == a[1..] + b;
      RunConcat(Step(s, a[0]), a[1..], b);
    }
  }

  /** A failed or canceled task keeps its status and a closed ledger for good, whatever happens later. */
  lemma DeadTasksStayClosed(ops: seq<Op>, later: seq<Op>, t: TaskId)
    requires t in Reached(ops).procs && Reached(ops).procs[t].task.status in {Failed, Canceled}
    ensures var p := Reached(ops).procs[t];
            && t in Reached(ops + later).procs
            && var q := Reached(ops + later).procs[t];
               q.task.status == p.task.status && q.ledger == p.ledger && L.Closed(q.ledger)
  {
    ReachedInv(ops);
    RunConcat(INITIAL, ops, later);
    RunKeepsInv(Reached(ops), later);
  }

  // ----- isolation -------------------------------------------------------------------------

  /** The tasks whose rows an operation may change. */
  ghost function Subjects(s: State, op: Op): set<TaskId> {
    match op
    case AcceptTask(t, _, _) => {t}
    case AcceptRetry(source, t, _, _) => {source, t}
    case Continue(t, _) => {t}
    case CancelTask(t) => {t}
    case RecordWakeFailure(t, _) => {t}
    case FailInterrupted(t) => {t}
    case Requeue(t, _) => {t}
    case ClaimCommand(f) => FrameTask(s, f)
    case PrepareTool(f, _, _, _) => FrameTask(s, f)
    case BeginTool(f, _) => FrameTask(s, f)
    case SucceedTool(f, _, _) => FrameTask(s, f)
    case LoseTool(f, _) => FrameTask(s, f)
    case CancelTool(f, _) => FrameTask(s, f)
    case Record(f, _) => FrameTask(s, f)
    case _ => {}
  }

  ghost function FrameTask(s: State, f: nat): set<TaskId> {
    if f in s.frames then {s.frames[f].task} else {}
  }

  /** An operation changes the rows of its own subjects only. */
  lemma OthersKeepTheirRows(s: State, op: Op, u: TaskId)
    requires u !in Subjects(s, op)
    ensures u in s.procs <==> u in Step(s, op).procs
    ensures u in s.procs ==> Step(s, op).procs[u] == s.procs[u]
  {
    if IsTool(op) {
      OthersKeepUnderTools(s, op, u);
    } else if IsFrame(op) {
      OthersKeepUnderFrames(s, op, u);
    }
  }

  lemma OthersKeepUnderTools(s: State, op: Op, u: TaskId)
    requires IsTool(op) && u !in Subjects(s, op)
    ensures u in s.procs <==> u in StepTool(s, op).procs
    ensures u in s.procs ==> StepTool(s, op).procs[u] == s.procs[u]
  {
    if Dispatches(s, op.frame) && StepTool(s, op) != s {
      var t, s' := s.frames[op.frame].task, StepTool(s, op);
      assert s' == Advance(s, op.frame, s'.procs[t], s'.frames[op.frame].phase);
    }
  }

  lemma OthersKeepUnderFrames(s: State, op: Op, u: TaskId)
    requires IsFrame(op) && u !in Subjects(s, op)
    ensures u in s.procs <==> u in StepFrame(s, op).procs
    ensures u in s.procs ==> StepFrame(s, op).procs[u] == s.procs[u]
  {
  }

  // ----- cancellation ----------------------------------------------------------------------

  lemma DispatchKeepsStatus(s: State, op: Op, t: TaskId)
    requires t in s.procs && t in Step(s, op).procs
    requires IsTool(op)
    ensures Step(s, op).procs[t].task.status == s.procs[t].task.status
  {
  }

  /** Requests leave a task alone whose cancellation was requested. */
  lemma RequestSparesCancelRequested(s: State, op: Op, t: TaskId)
    requires VolatileOk(s) && t in s.procs && s.procs[t].task.status == CancelRequested
    requires op.Continue? || op.CancelTask? || op.RecordWakeFailure? || op.AcceptTask? || op.AcceptRetry?
    requires t in Subjects(s, op)
    ensures var s' := StepRequest(s, op); t in s'.procs && s'.procs[t].task.status == CancelRequested
  {
  }

  lemma RequeueSparesCancelRequested(s: State, op: Op, t: TaskId)
    requires VolatileOk(s) && t in s.procs && s.procs[t].task.status == CancelRequested
    requires op.Requeue? && op.task == t
    ensures StepRestart(s, op) == s
  {
  }

  lemma RecordEndsCanceled(s: State, f: nat, fallbackRetryable: bool)
    requires ProcsOk(s) && Live(s, f) && ProcOf(s, f).task.status == CancelRequested
    ensures var t, s' := s.frames[f].task, DoRecord(s, f, fallbackRetryable);
            t in s'.procs && s'.procs[t].task.status in {CancelRequested, Canceled}
  {
    if s.frames[f].phase.Reporting? {
      OutcomeOk(ProcOf(s, f), s.frames[f].phase.outcome, fallbackRetryable);
    }
  }

  /** After a committed cancellation request only restart recovery can fail the task. */
  lemma CancelStepEndsCanceled(s: State, op: Op, t: TaskId)
    requires ProcsOk(s) && VolatileOk(s) && t in s.procs && s.procs[t].task.status == CancelRequested
    requires op != FailInterrupted(t)
    ensures t in Step(s, op).procs && Step(s, op).procs[t].task.status in {CancelRequested, Canceled}
  {
    if t !in Subjects(s, op) {
      OthersKeepTheirRows(s, op, t);
    } else if IsRequest(op) {
      RequestSparesCancelRequested(s, op, t);
    } else if IsRestart(op) {
      RequeueSparesCancelRequested(s, op, t);
    } else if op.Record? {
      RecordEndsCanceled(s, op.frame, op.fallbackRetryable);
    } else if op.ClaimCommand? {
      assert Claim(s.procs[t]) == Ok(None);
    } else {
      DispatchKeepsStatus(s, op, t);
    }
  }

  /**
  Once a cancellation request has committed, the task never completes and never waits again: it ends
  canceled whatever its worker reports, or failed if and only through the restart recovery of it.
  */
  lemma {:induction false} CancellationIsFinal(s: State, ops: seq<Op>, t: TaskId)
    requires Inv(s) && t in s.procs && s.procs[t].task.status in {CancelRequested, Canceled}
    ensures t in Run(s, ops).procs
    ensures Run(s, ops).procs[t].task.status in {CancelRequested, Canceled, Failed}
    ensures Run(s, ops).procs[t].task.status == Failed ==> FailInterrupted(t) in ops
    decreases |ops|
  {
    RunKeepsInv(s, ops);
    if ops != [] && s.procs[t].task.status == CancelRequested && FailInterrupted(t) !in ops {
      CancelStepEndsCanceled(s, ops[0], t);
      StepKeepsInv(s, ops[0]);
      CancellationIsFinal(Step(s, ops[0]), ops[1..], t);
    }
  }

  // ----- lost wake-ups ---------------------------------------------------------------------

  /** Queued, but nothing in this process will ever run it. */
  ghost predicate Stranded(s: State, t: TaskId) {
    && t in s.procs && s.procs[t].task.status == Queued
    && s.boot.Serving?
    && t !in s.scheduled + s.wakes + s.failing
  }

  /** A wake that meets the leaving frame of the previous slice is lost once that frame is forgotten. */
  lemma WakeBeforeForgetStrands(s: State, t: TaskId, f: nat, payload: Payload)
    requires Inv(s) && s.boot.Serving? && t in s.procs
    requires f in s.frames && s.frames[f] == Frame(t, Leaving)
    requires AcceptContinuation(s.procs[t], payload, s.nextSerial).Ok?
    ensures Stranded(Run(s, [Continue(t, payload), Wake(t), Forget(f)]), t)
  {
    var p := AcceptContinuation(s.procs[t], payload, s.nextSerial).value;
    BeforeTheWake(s, t, f, payload);
    LostWake(s, t, f, p);
    ThreeSteps(s, Continue(t, payload), Wake(t), Forget(f));
  }

  lemma BeforeTheWake(s: State, t: TaskId, f: nat, payload: Payload)
    requires FramesOk(s) && VolatileOk(s) && s.boot.Serving? && t in s.procs && ProcessOk(s.procs[t])
    requires f in s.frames && s.frames[f].task == t
    requires AcceptContinuation(s.procs[t], payload, s.nextSerial).Ok?
    ensures var p := AcceptContinuation(s.procs[t], payload, s.nextSerial).value;
            && Step(s, Continue(t, payload)) == AddTask(s, t, p, true) && p.task.status == Queued
            && t in s.scheduled && t !in s.wakes + s.failing
  {
    ContinuationOk(s.procs[t], payload, s.nextSerial);
    WaitingIsScheduled(s, t, f);
  }

  /** The leaving frame keeps its task scheduled, and a waiting task has no wake under way. */
  lemma WaitingIsScheduled(s: State, t: TaskId, f: nat)
    requires FramesOk(s) && VolatileOk(s) && t in s.procs && f in s.frames && s.frames[f].task == t
    requires s.procs[t].task.status in {InputRequired, AuthRequired}
    ensures t in s.scheduled && t !in s.wakes + s.failing
  {
    assert FrameOk(s, f);
  }

  lemma LostWake(s: State, t: TaskId, f: nat, p: Process)
    requires s.boot.Serving? && t in s.scheduled && t !in s.wakes + s.failing
    requires f in s.frames && s.frames[f] == Frame(t, Leaving) && p.task.status == Queued
    ensures var s' := Step(Step(AddTask(s, t, p, true), Wake(t)), Forget(f)); Stranded(s', t)
  {
    var s1 := AddTask(s, t, p, true);
    assert Step(s1, Wake(t)) == s1.(wakes := s1.wakes - {t});
  }

  /** A post-commit wake brings a queued task to a new worker exactly when no frame is left of the last one. */
  lemma WakeReachesAWorkerIff(s: State, t: TaskId)
    requires FramesOk(s) && s.boot.Serving? && t in s.wakes && t in s.procs && s.procs[t].task.status == Queued
    ensures var s' := Step(s, Wake(t));
            (exists f :: f in s'.frames && s'.frames[f] == Frame(t, Scheduled)) <==> t !in s.scheduled
  {
    var s' := Step(s, Wake(t));
    if t in s.scheduled {
      forall f | f in s'.frames
        ensures s'.frames[f] != Frame(t, Scheduled)
      {
        assert FrameOk(s, f);
      }
    } else {
      assert s'.frames[s.nextFrame] == Frame(t, Scheduled);
    }
  }

  /** A first slice that stops for user input. */
  const ASKS := RunResult(InputRequired, Some(InputRequest(UserInputRequired, Unbound)), "", "", None, false)

  function FirstSlice(t: TaskId): seq<Op> {
    [AcceptTask(t, t, true), Wake(t), Enter(0), ClaimCommand(0), FinishDispatch(0, ASKS), Record(0, false)]
  }

  /** One task, one frame. */
  function Alone(t: TaskId, p: Process, phase: Phase): State {
    INITIAL.(procs := map[t := p], nextSerial := 1, frames := map[0 := Frame(t, phase)], nextFrame := 1,
             scheduled := {t}, active := if Holds(phase) then {t} else {})
  }

  lemma AcceptedAndEntered(t: TaskId)
    ensures var ops := FirstSlice(t);
            Step(Step(Step(INITIAL, ops[0]), ops[1]), ops[2]) == Alone(t, Accept(t, None, 1, true, 0).value, Entered)
  {
    var p := Accept(t, None, 1, true, 0).value;
    AcceptOk(t, None, 1, true, 0);
    AcceptAlone(t, p);
    WakeAlone(t, p);
    EnterAlone(t, p);
  }

  /** One accepted task, its wake still to come. */
  function Waiting(t: TaskId, p: Process): State {
    INITIAL.(procs := map[t := p], nextSerial := 1, wakes := {t})
  }

  lemma AcceptAlone(t: TaskId, p: Process)
    requires Accept(t, None, 1, true, 0) == Ok(p)
    ensures Step(INITIAL, AcceptTask(t, t, true)) == Waiting(t, p)
  {
  }

  lemma WakeAlone(t: TaskId, p: Process)
    ensures Step(Waiting(t, p), Wake(t)) == Alone(t, p, Scheduled)
  {
  }

  lemma EnterAlone(t: TaskId, p: Process)
    ensures Step(Alone(t, p, Scheduled), Enter(0)) == Alone(t, p, Entered)
  {
  }

  lemma AskedTaskCanContinue(q: Process)
    requires q.task.status == Running
    ensures RecordResult(q, ASKS).Ok?
    ensures AcceptContinuation(RecordResult(q, ASKS).value, UserInput(""), 1).Ok?
  {
    var asked := RecordResult(q, ASKS).value;
    assert asked.task.status == InputRequired && asked.pending == ASKS.request;
  }

  /** The state after the first slice, when the claim turned `p` into `q`. */
  function AfterSlice(t: TaskId, q: Process, serial: nat, phase: Phase): State {
    Alone(t, q, phase).(dispatched := [serial])
  }

  lemma ClaimAlone(t: TaskId, p: Process, q: Process, command: Command)
    requires Claim(p) == Ok(Some((q, command)))
    ensures Step(Alone(t, p, Entered), ClaimCommand(0)) == AfterSlice(t, q, command.serial, Dispatching(multiset{}))
  {
  }

  lemma LeaveAlone(t: TaskId, q: Process, serial: nat)
    ensures Step(AfterSlice(t, q, serial, Dispatching(multiset{})), FinishDispatch(0, ASKS))
            == AfterSlice(t, q, serial, Reporting(Finished(ASKS)))
  {
  }

  lemma RecordAlone(t: TaskId, q: Process, serial: nat)
    requires RecordResult(q, ASKS).Ok?
    ensures Step(AfterSlice(t, q, serial, Reporting(Finished(ASKS))), Record(0, false))
            == AfterSlice(t, RecordResult(q, ASKS).value, serial, Leaving)
  {
  }

  lemma SixSteps(s: State, a: seq<Op>, b: seq<Op>, mid: State, end: State)
    requires |a| == 3 && Step(Step(Step(s, a[0]), a[1]), a[2]) == mid
    requires |b| == 3 && Step(Step(Step(mid, b[0]), b[1]), b[2]) == end
    ensures Run(s, a + b) == end
  {
    ThreeSteps(s, a[0], a[1], a[2]);
    ThreeSteps(mid, b[0], b[1], b[2]);
    assert a == [a[0], a[1], a[2]] && b == [b[0], b[1], b[2]];
    RunConcat(s, a, b);
  }

  lemma ClaimOfAccepted(t: TaskId)
    ensures var p := Accept(t, None, 1, true, 0);
            && p.Ok? && Claim(p.value).Ok? && Claim(p.value).value.Some?
            && Claim(p.value).value.value.0.task.status == Running
  {
    AcceptOk(t, None, 1, true, 0);
    ClaimOk(Accept(t, None, 1, true, 0).value);
  }

  lemma FirstSliceLeaves(t: TaskId) returns (p: Process, serial: nat)
    ensures Reached(FirstSlice(t)) == AfterSlice(t, p, serial, Leaving)
    ensures AcceptContinuation(p, UserInput(""), 1).Ok?
  {
    ClaimOfAccepted(t);
    var accepted := Accept(t, None, 1, true, 0).value;
    var (q, command) := Claim(accepted).value.value;
    AskedTaskCanContinue(q);
    p, serial := RecordResult(q, ASKS).value, command.serial;
    AcceptedAndEntered(t);
    ClaimAlone(t, accepted, q, command);
    LeaveAlone(t, q, serial);
    RecordAlone(t, q, serial);
    SixSteps(INITIAL, FirstSlice(t)[..3], FirstSlice(t)[3..],
             Alone(t, accepted, Entered), AfterSlice(t, p, serial, Leaving));
    assert FirstSlice(t)[..3] + FirstSlice(t)[3..] == FirstSlice(t);
  }

  /** The lost wake is reachable. */
  lemma StrandedIsReachable(t: TaskId)
    ensures Stranded(Reached(FirstSlice(t) + [Continue(t, UserInput("")), Wake(t), Forget(0)]), t)
  {
    var p, serial := FirstSliceLeaves(t);
    ReachedInv(FirstSlice(t));
    WakeBeforeForgetStrands(AfterSlice(t, p, serial, Leaving), t, 0, UserInput(""));
    RunConcat(INITIAL, FirstSlice(t), [Continue(t, UserInput("")), Wake(t), Forget(0)]);
  }

  lemma ThreeSteps(s: State, a: Op, b: Op, c: Op)
    ensures Run(s, [a, b, c]) == Step(Step(Step(s, a), b), c)
  {
    var ops := [a, b, c];
    assert ops[1..] == [b, c] && [b, c][1..] == [c] && [c][1..] == [];
    assert Run(Step(Step(s, a), b), [c]) == Run(Step(Step(Step(s, a), b), c), []);
  }

  lemma StrandedStep(s: State, op: Op, t: TaskId)
    requires FramesOk(s) && VolatileOk(s) && Stranded(s, t) && !op.Crash?
    ensures Stranded(Step(s, op), t) || (t in Step(s, op).procs && Step(s, op).procs[t].task.status == Canceled)
  {
    forall f | f in s.frames
      ensures s.frames[f].task != t
    {
      assert FrameOk(s, f);
    }
    if IsRequest(op) {
      StrandedRequest(s, op, t);
    } else if !IsRestart(op) {
      StrandedWorker(s, op, t);
    }
  }

  lemma StrandedRequest(s: State, op: Op, t: TaskId)
    requires VolatileOk(s) && Stranded(s, t) && IsRequest(op)
    ensures var s' := StepRequest(s, op);
            Stranded(s', t) || (t in s'.procs && s'.procs[t].task.status == Canceled)
  {
  }

  lemma StrandedWorker(s: State, op: Op, t: TaskId)
    requires Stranded(s, t) && forall f :: f in s.frames ==> s.frames[f].task != t
    requires !IsRequest(op) && !IsRestart(op)
    ensures Stranded(Step(s, op), t)
  {
  }

  /** ... and then it can only be canceled until the process restarts. */
  lemma {:induction false} StrandedUntilRestart(s: State, ops: seq<Op>, t: TaskId)
    requires Inv(s) && Stranded(s, t) && Crash !in ops
    ensures Stranded(Run(s, ops), t) || (t in Run(s, ops).procs && Run(s, ops).procs[t].task.status == Canceled)
    decreases |ops|
  {
    if ops != [] {
      StrandedStep(s, ops[0], t);
      StepKeepsInv(s, ops[0]);
      if Stranded(Step(s, ops[0]), t) {
        StrandedUntilRestart(Step(s, ops[0]), ops[1..], t);
      } else {
        RunKeepsInv(Step(s, ops[0]), ops[1..]);
      }
    }
  }

  // ----- retry lineage ---------------------------------------------------------------------

  /** The first task of the lineage. */
  ghost function Root(s: State, t: TaskId): TaskId
    requires LineageOk(s) && t in s.procs
    decreases s.procs[t].task.attempt
  {
    assert RetryOk(s, t);
    match s.procs[t].task.retryOf
    case None => t
    case Some(source) => Root(s, source)
  }

  lemma {:induction false} RootIsFirstAttempt(s: State, t: TaskId)
    requires LineageOk(s) && t in s.procs
    ensures Root(s, t) in s.procs
    ensures s.procs[Root(s, t)].task.attempt == 1 && s.procs[Root(s, t)].task.retryOf.None?
    ensures 1 <= s.procs[t].task.attempt
    ensures s.procs[t].task.attempt == 1 <==> t == Root(s, t)
    decreases s.procs[t].task.attempt
  {
    assert RetryOk(s, t);
    if s.procs[t].task.retryOf.Some? {
      RootIsFirstAttempt(s, s.procs[t].task.retryOf.value);
    }
  }

  /** A lineage is a chain: it holds one task per attempt. */
  lemma {:induction false} OneTaskPerAttempt(s: State, t: TaskId, u: TaskId)
    requires LineageOk(s) && t in s.procs && u in s.procs
    requires Root(s, t) == Root(s, u) && s.procs[t].task.attempt == s.procs[u].task.attempt
    ensures t == u
    decreases s.procs[t].task.attempt
  {
    RootIsFirstAttempt(s, t);
    RootIsFirstAttempt(s, u);
    assert RetryOk(s, t) && RetryOk(s, u);
    if s.procs[t].task.attempt > 1 {
      OneTaskPerAttempt(s, s.procs[t].task.retryOf.value, s.procs[u].task.retryOf.value);
    }
  }

  /** Every task of a lineage but its last is failed, retryable and free of side effects. */
  lemma {:induction false} EarlierAttemptsAreRetryable(s: State, t: TaskId, u: TaskId)
    requires LineageOk(s) && t in s.procs && u in s.procs
    requires Root(s, t) == Root(s, u) && s.procs[t].task.attempt < s.procs[u].task.attempt
    ensures Retryable(s.procs[t])
    decreases s.procs[u].task.attempt
  {
    RootIsFirstAttempt(s, t);
    RootIsFirstAttempt(s, u);
    assert RetryOk(s, u);
    var source := s.procs[u].task.retryOf.value;
    if s.procs[source].task.attempt == s.procs[t].task.attempt {
      OneTaskPerAttempt(s, source, t);
    } else {
      EarlierAttemptsAreRetryable(s, t, source);
    }
  }

  lemma SideEffectsLast(p: Process, q: Process)
    requires Evolves(p, q) && HasSideEffects(p)
    ensures HasSideEffects(q)
  {
    var i :| 0 <= i < |p.ledger| && p.ledger[i].sideEffecting;
    assert L.Advances(p.ledger[i], q.ledger[i]);
  }

  /** At most one task of a lineage ever prepares a side-effecting call, over the whole run. */
  lemma OneSideEffectingAttempt(ops: seq<Op>, later: seq<Op>, t: TaskId, u: TaskId)
    requires t in Reached(ops).procs && HasSideEffects(Reached(ops).procs[t])
    requires u in Reached(ops + later).procs && HasSideEffects(Reached(ops + later).procs[u])
    ensures var s := Reached(ops + later);
            && LineageOk(s) && t in s.procs
            && (Root(s, t) == Root(s, u) ==> t == u)
  {
    var s := Reached(ops + later);
    ReachedInv(ops);
    RunConcat(INITIAL, ops, later);
    RunKeepsInv(Reached(ops), later);
    SideEffectsLast(Reached(ops).procs[t], s.procs[t]);
    if Root(s, t) == Root(s, u) {
      if s.procs[t].task.attempt < s.procs[u].task.attempt {
        EarlierAttemptsAreRetryable(s, t, u);
      } else if s.procs[u].task.attempt < s.procs[t].task.attempt {
        EarlierAttemptsAreRetryable(s, u, t);
      } else {
        OneTaskPerAttempt(s, t, u);
      }
    }
  }

  /** The lineage in every reachable state: one direct retry per task, attempts rising by one. */
  lemma LineageIsAChain(ops: seq<Op>, t: TaskId, u: TaskId)
    requires var s := Reached(ops); t in s.procs && u in s.procs
    ensures var s := Reached(ops);
            && (s.procs[t].task.retryOf.Some? && s.procs[t].task.retryOf == s.procs[u].task.retryOf ==> t == u)
            && (s.procs[t].task.retryOf.Some? ==>
                  var source := s.procs[t].task.retryOf.value;
                  && source in s.procs && s.procs[t].task.attempt == s.procs[source].task.attempt + 1
                  && s.procs[source].task.status == Failed && s.procs[source].task.errorRetryable
                  && !HasSideEffects(s.procs[source]))
            && LineageOk(s)
            && (Root(s, t) == Root(s, u) && s.procs[t].task.attempt == s.procs[u].task.attempt ==> t == u)
  {
    ReachedInv(ops);
    var s := Reached(ops);
    assert RetryOk(s, t);
    if Root(s, t) == Root(s, u) && s.procs[t].task.attempt == s.procs[u].task.attempt {
      OneTaskPerAttempt(s, t, u);
    }
  }
}

/**
The runtime as one transition system: durable processes, the in-process worker adapter and the
post-commit effects of request threads, under every interleaving and with a crash at any point.

Each operation is one transaction or one guarded section. An operation whose guard does not hold, or
whose transaction raises, leaves the state unchanged, so every sequence of operations is a run.
*/
module Runtime {
  import opened Prelude
  import opened Lifecycle
  import opened Processes
  import L = Ledger

  /** Where a worker frame stands between `wake` and `_forget_scheduled`. */
  datatype Phase =
    | Scheduled                                   // submitted, not started
    | Entered                                     // in the active set, before its claim
    | Refused                                     // its claim found nothing to run
    | Dispatching(inflight: multiset<L.CallKey>)  // running the agent; granted tool calls in flight
    | Reporting(outcome: Outcome)                 // left the active set, outcome not yet recorded
    | Leaving                                     // outcome recorded, still in the scheduled set

  datatype Frame = Frame(task: TaskId, phase: Phase)

  /** Startup reconciliation runs before requests are served. */
  datatype Boot =
    | FailingInterrupted
    | Requeueing(remaining: set<TaskId>)
    | Serving

  datatype State = State(
    // durable
    procs: map<TaskId, Process>,
    nextSerial: nat,
    // process-local: lost in a crash
    frames: map<nat, Frame>,
    nextFrame: nat,
    scheduled: set<TaskId>,
    active: set<TaskId>,
    wakes: set<TaskId>,     // committed acceptances whose post-commit wake has not run
    failing: set<TaskId>,   // wakes whose submission raised, failure not yet recorded
    boot: Boot,
    // history: the serials of all commands ever handed to the runner
    dispatched: seq<nat>
  )

  datatype RecoveryVerdict = NoWorker | SubmissionFails | Submits

  datatype Op =
    // requests
    | AcceptTask(task: TaskId, thread: ThreadId, queue: bool)
    | AcceptRetry(source: TaskId, task: TaskId, thread: ThreadId, queue: bool)
    | Continue(task: TaskId, payload: Payload)
    | CancelTask(task: TaskId)
    | Wake(task: TaskId)
    | WakeFails(task: TaskId)
    | RecordWakeFailure(task: TaskId, retryable: bool)
    // workers
    | Enter(frame: nat)
    | ClaimCommand(frame: nat)
    | LeaveRefused(frame: nat)
    | PrepareTool(frame: nat, key: L.CallKey, approvalRequired: bool, sideEffecting: bool)
    | BeginTool(frame: nat, key: L.CallKey)
    | SucceedTool(frame: nat, key: L.CallKey, content: Text)
    | LoseTool(frame: nat, key: L.CallKey)
    | CancelTool(frame: nat, key: L.CallKey)
    | FinishDispatch(frame: nat, result: RunResult)
    | AbortDispatch(frame: nat, retryable: bool)
    | Record(frame: nat, fallbackRetryable: bool)
    | Forget(frame: nat)
    // restart
    | Crash
    | FailInterrupted(task: TaskId)
    | StartRequeueing
    | Requeue(task: TaskId, verdict: RecoveryVerdict)
    | StartServing

  // ----- steps -----------------------------------------------------------------------------

  predicate Holds(phase: Phase) {
    phase.Entered? || phase.Refused? || phase.Dispatching?
  }

  function Put(s: State, t: TaskId, p: Process): State {
    s.(procs := s.procs[t := p])
  }

  /** A worker section: the frame moves on and its task's row is replaced. */
  function Advance(s: State, f: nat, p: Process, phase: Phase): State
    requires f in s.frames
  {
    var t := s.frames[f].task;
    s.(procs := s.procs[t := p],
       frames := s.frames[f := Frame(t, phase)],
       active := if Holds(phase) then s.active + {t} else s.active - {t})
  }

  /** `wake`: at most one live frame per task in this process. */
  function Schedule(s: State, t: TaskId): State {
    if t in s.active || t in s.scheduled then s
    else s.(scheduled := s.scheduled + {t},
            frames := s.frames[s.nextFrame := Frame(t, Scheduled)],
            nextFrame := s.nextFrame + 1)
  }

  predicate HasSideEffects(p: Process) {
    exists i :: 0 <= i < |p.ledger| && p.ledger[i].sideEffecting
  }

  predicate Retryable(p: Process) {
    p.task.status == Failed && p.task.errorRetryable && !HasSideEffects(p)
  }

  predicate HasRetry(s: State, source: TaskId) {
    exists t :: t in s.procs && s.procs[t].task.retryOf == Some(source)
  }

  /** The frame exists and its task has a row. */
  predicate Live(s: State, f: nat) {
    f in s.frames && s.frames[f].task in s.procs
  }

  predicate Dispatches(s: State, f: nat) {
    Live(s, f) && s.frames[f].phase.Dispatching?
  }

  function ProcOf(s: State, f: nat): Process
    requires Live(s, f)
  {
    s.procs[s.frames[f].task]
  }

  function DoAccept(s: State, t: TaskId, thread: ThreadId, queue: bool): State {
    if t in s.procs then s
    else match Accept(thread, None, 1, queue, s.nextSerial)
      case Raised => s
      case Ok(p) => AddTask(s, t, p, queue)
  }

  /** A new row, and a post-commit wake when it was queued. */
  function AddTask(s: State, t: TaskId, p: Process, queue: bool): State {
    Put(s, t, p).(nextSerial := s.nextSerial + 1, wakes := if queue then s.wakes + {t} else s.wakes)
  }

  function DoRetry(s: State, source: TaskId, t: TaskId, thread: ThreadId, queue: bool): State {
    if t in s.procs || source !in s.procs || !Retryable(s.procs[source]) || HasRetry(s, source) then s
    else match Accept(thread, Some(source), s.procs[source].task.attempt + 1, queue, s.nextSerial)
      case Raised => s
      case Ok(p) =>
        AddTask(Put(s, source, AppendEvent(s.procs[source], RetryRequested)), t, AppendEvent(p, Retried), queue)
  }

  function DoContinue(s: State, t: TaskId, payload: Payload): State {
    if t !in s.procs then s
    else match AcceptContinuation(s.procs[t], payload, s.nextSerial)
      case Raised => s
      case Ok(p) => AddTask(s, t, p, true)
  }

  function DoCancel(s: State, t: TaskId): State {
    if t !in s.procs then s
    else match CommitCancellation(s.procs[t], t in s.active)
      case Raised => s
      case Ok(p) => Put(s, t, p)
  }

  function DoWake(s: State, t: TaskId): State {
    if t !in s.wakes then s else Schedule(TakeWake(s, t, false), t)
  }

  /** The post-commit wake of a task is under way, or its submission raised. */
  function TakeWake(s: State, t: TaskId, fails: bool): State {
    s.(wakes := s.wakes - {t}, failing := if fails then s.failing + {t} else s.failing)
  }

  function DoWakeFails(s: State, t: TaskId): State {
    if t !in s.wakes || t in s.active || t in s.scheduled then s
    else TakeWake(s, t, true)
  }

  function DoRecordWakeFailure(s: State, t: TaskId, retryable: bool): State {
    if t !in s.failing || t !in s.procs then s
    else match RecordFailure(s.procs[t], retryable)
      case Raised => s
      case Ok(p) => Put(s, t, p).(failing := s.failing - {t})
  }

  predicate IsRequest(op: Op) {
    op.AcceptTask? || op.AcceptRetry? || op.Continue? || op.CancelTask? || op.Wake? || op.WakeFails?
    || op.RecordWakeFailure?
  }

  function StepRequest(s: State, op: Op): State
    requires IsRequest(op)
  {
    match op
    case AcceptTask(t, thread, queue) => DoAccept(s, t, thread, queue)
    case AcceptRetry(source, t, thread, queue) => DoRetry(s, source, t, thread, queue)
    case Continue(t, payload) => DoContinue(s, t, payload)
    case CancelTask(t) => DoCancel(s, t)
    case Wake(t) => DoWake(s, t)
    case WakeFails(t) => DoWakeFails(s, t)
    case RecordWakeFailure(t, retryable) => DoRecordWakeFailure(s, t, retryable)
  }

  function DoEnter(s: State, f: nat): State {
    if Live(s, f) && s.frames[f].phase.Scheduled? then Advance(s, f, ProcOf(s, f), Entered) else s
  }

  function DoClaim(s: State, f: nat): State {
    if !Live(s, f) || !s.frames[f].phase.Entered? then s
    else match Claim(ProcOf(s, f))
      case Raised => s
      case Ok(None) => Advance(s, f, ProcOf(s, f), Refused)
      case Ok(Some(v)) =>
        Advance(s, f, v.0, Dispatching(multiset{})).(dispatched := s.dispatched + [v.1.serial])
  }

  function DoLeaveRefused(s: State, f: nat): State {
    if Live(s, f) && s.frames[f].phase.Refused? then Advance(s, f, ProcOf(s, f), Leaving) else s
  }

  function DoPrepareTool(s: State, f: nat, key: L.CallKey, required: bool, effect: bool): State {
    if !Dispatches(s, f) then s
    else match ToolPrepare(ProcOf(s, f), key, required, effect)
      case Raised => s
      case Ok(p) => Advance(s, f, p, s.frames[f].phase)
  }

  function DoBeginTool(s: State, f: nat, key: L.CallKey): State {
    if !Dispatches(s, f) then s
    else match ToolBegin(ProcOf(s, f), key)
      case Raised => s
      case Ok(v) =>
        var inflight := s.frames[f].phase.inflight;
        Advance(s, f, v.0, Dispatching(if v.1 then inflight + multiset{key} else inflight))
  }

  function DoSucceedTool(s: State, f: nat, key: L.CallKey, content: Text): State {
    if !Dispatches(s, f) || key !in s.frames[f].phase.inflight then s
    else match ToolSucceed(ProcOf(s, f), key, content)
      case Raised => s
      case Ok(p) => Advance(s, f, p, Dispatching(s.frames[f].phase.inflight - multiset{key}))
  }

  function DoLoseTool(s: State, f: nat, key: L.CallKey): State {
    if !Dispatches(s, f) || key !in s.frames[f].phase.inflight then s
    else match ToolUncertain(ProcOf(s, f), key)
      case Raised => s
      case Ok(p) => Advance(s, f, p, Dispatching(s.frames[f].phase.inflight - multiset{key}))
  }

  function DoCancelTool(s: State, f: nat, key: L.CallKey): State {
    if !Dispatches(s, f) then s
    else match ToolCancel(ProcOf(s, f), key)
      case Raised => s
      case Ok(p) => Advance(s, f, p, s.frames[f].phase)
  }

  /** Leaving dispatch: every granted call has been finished or marked uncertain by its wrapper. */
  function DoLeaveDispatch(s: State, f: nat, outcome: Outcome): State {
    if Live(s, f)
       && (s.frames[f].phase == Dispatching(multiset{}) || (s.frames[f].phase.Entered? && outcome.Crashed?))
    then Advance(s, f, ProcOf(s, f), Reporting(outcome)) else s
  }

  function DoRecord(s: State, f: nat, fallbackRetryable: bool): State {
    if !Live(s, f) || !s.frames[f].phase.Reporting? then s
    else match RecordOutcome(ProcOf(s, f), s.frames[f].phase.outcome, fallbackRetryable)
      case Raised => s
      case Ok(p) => Advance(s, f, p, Leaving)
  }

  function DoForget(s: State, f: nat): State {
    if !Live(s, f) || !s.frames[f].phase.Leaving? then s
    else s.(scheduled := s.scheduled - {s.frames[f].task}, frames := s.frames - {f})
  }

  predicate IsTool(op: Op) {
    op.PrepareTool? || op.BeginTool? || op.SucceedTool? || op.LoseTool? || op.CancelTool?
  }

  /** The sections of a dispatching worker's tool wrapper. */
  function StepTool(s: State, op: Op): State
    requires IsTool(op)
  {
    match op
    case PrepareTool(f, key, required, effect) => DoPrepareTool(s, f, key, required, effect)
    case BeginTool(f, key) => DoBeginTool(s, f, key)
    case SucceedTool(f, key, content) => DoSucceedTool(s, f, key, content)
    case LoseTool(f, key) => DoLoseTool(s, f, key)
    case CancelTool(f, key) => DoCancelTool(s, f, key)
  }

  predicate IsFrame(op: Op) {
    op.Enter? || op.ClaimCommand? || op.LeaveRefused? || op.FinishDispatch? || op.AbortDispatch? || op.Record?
    || op.Forget?
  }

  /** The sections that move a worker frame on. */
  function StepFrame(s: State, op: Op): State
    requires IsFrame(op)
  {
    match op
    case Enter(f) => DoEnter(s, f)
    case ClaimCommand(f) => DoClaim(s, f)
    case LeaveRefused(f) => DoLeaveRefused(s, f)
    case FinishDispatch(f, result) => DoLeaveDispatch(s, f, Finished(result))
    case AbortDispatch(f, retryable) => DoLeaveDispatch(s, f, Crashed(retryable))
    case Record(f, fallbackRetryable) => DoRecord(s, f, fallbackRetryable)
    case Forget(f) => DoForget(s, f)
  }

  function Interrupted(s: State): set<TaskId> {
    set t | t in s.procs && s.procs[t].task.status in {Running, CancelRequested}
  }

  function QueuedTasks(s: State): set<TaskId> {
    set t | t in s.procs && s.procs[t].task.status == Queued
  }

  function FailRecovery(s: State, t: TaskId): State
    requires t in s.procs
  {
    match RecordRecoveryFailure(s.procs[t])
    case Raised => s
    case Ok(p) => Put(s, t, p)
  }

  /** One iteration of the reconciliation loop over queued tasks. */
  function RequeueOne(s: State, t: TaskId, verdict: RecoveryVerdict): State
    requires t in s.procs
  {
    var p := s.procs[t];
    if p.queued.None? || p.queued.value.thread != p.task.thread || verdict != Submits then FailRecovery(s, t)
    else Schedule(s, t)
  }

  function DoCrash(s: State): State {
    s.(frames := map[], scheduled := {}, active := {}, wakes := {}, failing := {}, boot := FailingInterrupted)
  }

  function DoFailInterrupted(s: State, t: TaskId): State {
    if s.boot.FailingInterrupted? && t in Interrupted(s) then FailRecovery(s, t) else s
  }

  function DoStartRequeueing(s: State): State {
    if s.boot.FailingInterrupted? && Interrupted(s) == {} then s.(boot := Requeueing(QueuedTasks(s))) else s
  }

  function DoRequeue(s: State, t: TaskId, verdict: RecoveryVerdict): State {
    if s.boot.Requeueing? && t in s.boot.remaining && t in s.procs
    then RequeueOne(s.(boot := Requeueing(s.boot.remaining - {t})), t, verdict) else s
  }

  function DoStartServing(s: State): State {
    if s.boot == Requeueing({}) then s.(boot := Serving) else s
  }

  predicate IsRestart(op: Op) {
    op.Crash? || op.FailInterrupted? || op.StartRequeueing? || op.Requeue? || op.StartServing?
  }

  function StepRestart(s: State, op: Op): State
    requires IsRestart(op)
  {
    match op
    case Crash => DoCrash(s)
    case FailInterrupted(t) => DoFailInterrupted(s, t)
    case StartRequeueing => DoStartRequeueing(s)
    case Requeue(t, verdict) => DoRequeue(s, t, verdict)
    case StartServing => DoStartServing(s)
  }

  /** Requests are served only after reconciliation; workers it woke may already run. */
  function Step(s: State, op: Op): State {
    if IsRequest(op) then (if s.boot.Serving? then StepRequest(s, op) else s)
    else if IsRestart(op) then StepRestart(s, op)
    else if IsTool(op) then StepTool(s, op)
    else StepFrame(s, op)
  }

  function Run(s: State, ops: seq<Op>): State
    decreases |ops|
  {
    if ops == [] then s else Run(Step(s, ops[0]), ops[1..])
  }

  const INITIAL := State(map[], 0, map[], 0, {}, {}, {}, {}, Serving, [])
}

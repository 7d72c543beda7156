/**
The durable state of one local task and every transaction that changes it.

A `Process` gathers the rows that belong to one task: its record, its queued execution command, its
pending continuation, its side-effect ledger, its artifacts and its event log. Each function below is
one committed transaction body; `Raised` stands for an exception that rolls the transaction back.
*/
module Processes {
  import opened Prelude
  import opened Lifecycle
  import L = Ledger

  type TaskId = string
  type ThreadId = string
  type Text = string

  // ----- records ---------------------------------------------------------------------------

  datatype TaskRecord = TaskRecord(
    status: TaskStatus,
    thread: ThreadId,
    retryOf: Option<TaskId>,
    attempt: nat,
    output: Option<Text>,
    errorRetryable: bool,
    revision: nat
  )

  datatype Payload =
    | Initial
    | ApprovalAnswer(approved: bool)
    | UserInput(parts: Text)

  /** A queued command; `serial` is its creation order over the whole store. */
  datatype Command = Command(payload: Payload, thread: ThreadId, serial: nat)

  datatype RequestKind = ApprovalRequired | UserInputRequired | UnsupportedRequest

  /** The tool-invocation binding carried by an interrupt. */
  datatype Binding =
    | Unbound
    | Malformed
    | Bound(key: L.CallKey, tool: string, digest: string)

  datatype InputRequest = InputRequest(kind: RequestKind, binding: Binding)

  datatype EventKind =
    | Lifecycle
    | ArtifactCreated
    | ArtifactUpdated
    | TaskResumed
    | InputSubmitted
    | RetryRequested
    | Retried

  datatype Event = Event(kind: EventKind, status: Option<TaskStatus>, revision: nat)

  datatype ArtifactId = FinalAnswer | Observations | ToolResult(key: L.CallKey)

  datatype Process = Process(
    task: TaskRecord,
    queued: Option<Command>,
    pending: Option<InputRequest>,
    ledger: L.Records,
    artifacts: map<ArtifactId, Text>,
    events: seq<Event>
  )

  /** What the runner hands back for one dispatched slice. */
  datatype RunResult = RunResult(
    status: TaskStatus,
    request: Option<InputRequest>,
    answer: Text,
    outputMessage: Text,
    observations: Option<Text>,
    retryable: bool
  )

  datatype Outcome = Finished(result: RunResult) | Crashed(retryable: bool)

  // ----- store primitives ------------------------------------------------------------------

  /** `transition_local_task`: the status, the revision and the lifecycle event change together. */
  function Transition(p: Process, target: TaskStatus, retryable: bool := false): Result<Process> {
    match ValidateTransition(p.task.status, target)
    case Raised => Raised
    case Ok(false) => Ok(p)
    case Ok(true) =>
      var task := p.task.(status := target, errorRetryable := retryable, revision := p.task.revision + 1);
      Ok(p.(task := task, events := p.events + [Event(Lifecycle, Some(target), task.revision)]))
  }

  /** `append_task_event` with no status. */
  function AppendEvent(p: Process, kind: EventKind): Process {
    p.(events := p.events + [Event(kind, None, p.task.revision)])
  }

  function UpsertArtifact(p: Process, id: ArtifactId, content: Text): Process {
    if id in p.artifacts && p.artifacts[id] == content then p
    else p.(artifacts := p.artifacts[id := content], task := p.task.(revision := p.task.revision + 1))
  }

  function SetOutput(p: Process, message: Text): Process {
    if p.task.output == Some(message) then p
    else p.(task := p.task.(output := Some(message), revision := p.task.revision + 1))
  }

  function Enqueue(p: Process, command: Command): Result<Process> {
    if p.task.status != Queued then Raised
    else if p.task.thread != command.thread then Raised
    else match p.queued
      case None => Ok(p.(queued := Some(command)))
      case Some(existing) =>
        if existing.payload == command.payload && existing.thread == command.thread then Ok(p) else Raised
  }

  function ClearContinuations(p: Process): Process {
    p.(pending := None, queued := None)
  }

  // ----- acceptance, claim, continuation ---------------------------------------------------

  /** `create_local_task`. */
  function CreateTask(thread: ThreadId, retryOf: Option<TaskId>, attempt: nat): Process {
    Process(TaskRecord(Created, thread, retryOf, attempt, None, false, 1),
            None, None, [], map[], [Event(Lifecycle, Some(Created), 1)])
  }

  /** `accept_local_task_from_message`: creation, queueing and the first command commit together. */
  function Accept(thread: ThreadId, retryOf: Option<TaskId>, attempt: nat, queue: bool, serial: nat)
    : Result<Process>
  {
    var created := CreateTask(thread, retryOf, attempt);
    if !queue then Ok(created)
    else match Transition(created, Queued)
      case Raised => Raised
      case Ok(p) => Enqueue(p, Command(Initial, thread, serial))
  }

  /** `claim_queued_task_execution`: the command is consumed as the task starts running. */
  function Claim(p: Process): Result<Option<(Process, Command)>> {
    if p.task.status != Queued then Ok(None)
    else match p.queued
      case None => Ok(None)
      case Some(command) =>
        if command.thread != p.task.thread then Raised
        else match Transition(p.(queued := None), Running)
          case Raised => Raised
          case Ok(q) => Ok(Some((q, command)))
  }

  /** `resolve_pending_tool_invocation_approval`. */
  function ResolveBinding(l: L.Records, binding: Binding, approved: bool): Result<L.Records> {
    match binding
    case Unbound => Ok(l)
    case Malformed => Raised
    case Bound(key, tool, digest) => L.Resolve(l, key, tool, digest, approved)
  }

  function ExpectedKind(payload: Payload): RequestKind {
    match payload
    case ApprovalAnswer(_) => ApprovalRequired
    case _ => UserInputRequired
  }

  predicate AwaitsContinuation(p: Process, kind: RequestKind) {
    && p.task.status in {InputRequired, AuthRequired}
    && p.pending.Some?
    && p.pending.value.kind == kind
  }

  /** `_accept_pending_continuation`, for an approval answer or for submitted input. */
  function AcceptContinuation(p: Process, payload: Payload, serial: nat): Result<Process> {
    if payload.Initial? || !AwaitsContinuation(p, ExpectedKind(payload)) then Raised
    else
      var consumed := p.(pending := None);
      var decided :=
        if payload.ApprovalAnswer? then ResolveBinding(p.ledger, p.pending.value.binding, payload.approved)
        else Ok(p.ledger);
      match decided
      case Raised => Raised
      case Ok(ledger) =>
        var submitted := if payload.UserInput? then AppendEvent(consumed, InputSubmitted) else consumed;
        var resumed := AppendEvent(submitted.(ledger := ledger), TaskResumed);
        match Transition(resumed, Queued)
        case Raised => Raised
        case Ok(q) => Enqueue(q, Command(payload, q.task.thread, serial))
  }

  // ----- outcomes --------------------------------------------------------------------------

  /** `_close_unresolved_execution`. */
  function CloseUnresolved(p: Process): Process {
    ClearContinuations(p.(ledger := L.CancelPrepared(L.MarkRunningUncertain(p.ledger))))
  }

  function TransitionAndClose(p: Process, target: TaskStatus, retryable: bool := false): Result<Process> {
    match Transition(p, target, retryable)
    case Raised => Raised
    case Ok(q) => Ok(CloseUnresolved(q))
  }

  function RecordCancellation(p: Process): Result<Process> {
    if IsTerminal(p.task.status) then Ok(p) else TransitionAndClose(p, Canceled)
  }

  function RecordFailure(p: Process, retryable: bool): Result<Process> {
    if IsTerminal(p.task.status) then Ok(p)
    else if p.task.status == CancelRequested then RecordCancellation(p)
    else TransitionAndClose(p, Failed, retryable)
  }

  function RecordRecoveryFailure(p: Process): Result<Process> {
    if IsTerminal(p.task.status) then Ok(p) else TransitionAndClose(p, Failed, true)
  }

  /** `_persist_observations`. */
  function PersistObservations(p: Process, observations: Option<Text>): Process {
    match observations
    case None => p
    case Some(text) =>
      var kind := if Observations in p.artifacts then ArtifactUpdated else ArtifactCreated;
      AppendEvent(UpsertArtifact(p, Observations, text), kind)
  }

  function RecordCompleted(p: Process, r: RunResult): Result<Process> {
    var observed := PersistObservations(p, r.observations);
    var answered := AppendEvent(UpsertArtifact(observed, FinalAnswer, r.answer), ArtifactCreated);
    match Transition(SetOutput(answered, r.outputMessage), Completed)
    case Raised => Raised
    case Ok(q) => Ok(ClearContinuations(q))
  }

  function RecordInterrupted(p: Process, r: RunResult, status: TaskStatus, request: InputRequest): Result<Process> {
    var observed := PersistObservations(p, r.observations);
    match Transition(observed.(pending := Some(request)), status)
    case Raised => Raised
    case Ok(q) => Ok(q.(queued := None))
  }

  /** `continuation_input_request`: only two request kinds can be continued. */
  function ContinuationRequest(r: RunResult): Option<InputRequest> {
    if r.request.Some? && r.request.value.kind != UnsupportedRequest then r.request else None
  }

  /** `local_process_status`. */
  function ResultStatus(r: RunResult): TaskStatus {
    if r.status !in {InputRequired, AuthRequired} || ContinuationRequest(r).None? then r.status
    else if ContinuationRequest(r).value.kind == ApprovalRequired then AuthRequired
    else InputRequired
  }

  /** `record_local_result`. */
  function RecordResult(p: Process, r: RunResult): Result<Process> {
    if IsTerminal(p.task.status) then Ok(p)
    else if p.task.status == CancelRequested then RecordCancellation(p)
    else
      var status := ResultStatus(r);
      if status in {InputRequired, AuthRequired} then
        match ContinuationRequest(r)
        case None => RecordFailure(p, false)
        case Some(request) => RecordInterrupted(p, r, status, request)
      else if status == Completed then RecordCompleted(p, r)
      else if status == Running then Ok(p)
      else TransitionAndClose(PersistObservations(p, r.observations), Failed, r.retryable)
  }

  /** `_record_local_execution_outcome`: a result that cannot be recorded is recorded as a failure. */
  function RecordOutcome(p: Process, outcome: Outcome, fallbackRetryable: bool): Result<Process> {
    match outcome
    case Crashed(retryable) => RecordFailure(p, retryable)
    case Finished(r) =>
      (match RecordResult(p, r)
       case Ok(q) => Ok(q)
       case Raised => RecordFailure(p, fallbackRetryable))
  }

  // ----- cancellation ----------------------------------------------------------------------

  /** `_cancel_task`: `active` is whether a worker holds the task between entering and leaving dispatch. */
  function CommitCancellation(p: Process, active: bool): Result<Process> {
    if IsTerminal(p.task.status) then Raised
    else if p.task.status == CancelRequested then Ok(p)
    else
      var requested := if p.task.status == Running then Transition(p, CancelRequested) else Ok(p);
      match requested
      case Raised => Raised
      case Ok(q) =>
        if p.task.status == Running && active then Ok(q)
        else match Transition(q, Canceled)
          case Raised => Raised
          case Ok(c) => Ok(ClearContinuations(c.(ledger := L.CancelPrepared(c.ledger))))
  }

  // ----- tool calls ------------------------------------------------------------------------

  function ToolPrepare(p: Process, key: L.CallKey, approvalRequired: bool, sideEffecting: bool): Result<Process> {
    match L.Prepare(p.ledger, key, approvalRequired, sideEffecting)
    case Raised => Raised
    case Ok(v) => Ok(p.(ledger := v.0))
  }

  function ToolBegin(p: Process, key: L.CallKey): Result<(Process, bool)> {
    match L.Begin(p.ledger, key)
    case Raised => Raised
    case Ok(v) => Ok((p.(ledger := v.0), v.1))
  }

  /** `complete_tool_invocation_success`: the result artifact, its event and the status commit together. */
  function ToolSucceed(p: Process, key: L.CallKey, content: Text): Result<Process> {
    match L.Succeed(p.ledger, key)
    case Raised => Raised
    case Ok(None) => Ok(p)
    case Ok(Some(ledger)) =>
      Ok(AppendEvent(UpsertArtifact(p, ToolResult(key), content), ArtifactCreated).(ledger := ledger))
  }

  function ToolUncertain(p: Process, key: L.CallKey): Result<Process> {
    match L.MarkUncertain(p.ledger, key)
    case Raised => Raised
    case Ok(l) => Ok(p.(ledger := l))
  }

  function ToolCancel(p: Process, key: L.CallKey): Result<Process> {
    match L.Cancel(p.ledger, key)
    case Raised => Raised
    case Ok(l) => Ok(p.(ledger := l))
  }

  // ----- what every transaction keeps ------------------------------------------------------

  /** The queue row and the continuation row say exactly what the status says. */
  predicate RowsMatchStatus(p: Process) {
    && (p.task.status == Queued <==> p.queued.Some?)
    && (p.queued.Some? ==> p.queued.value.thread == p.task.thread)
    && (p.task.status == InputRequired <==> p.pending.Some? && p.pending.value.kind == UserInputRequired)
    && (p.task.status == AuthRequired <==> p.pending.Some? && p.pending.value.kind == ApprovalRequired)
    && (p.pending.Some? ==> p.pending.value.kind != UnsupportedRequest)
  }

  /** The last status a log carries; a log starts with one. */
  function StatusOf(log: seq<Event>): TaskStatus {
    if log == [] then Created
    else if log[|log| - 1].status.Some? then log[|log| - 1].status.value
    else StatusOf(log[..|log| - 1])
  }

  /**
  The log is a task history: it opens with the creation event, its lifecycle events and only they
  carry a status, each status is a legal move from the one before and has a revision no earlier event
  has, and no revision exceeds `limit`.
  */
  ghost predicate History(log: seq<Event>, status: TaskStatus, limit: nat) {
    && log != []
    && var prior, last := log[..|log| - 1], log[|log| - 1];
       && 1 <= last.revision <= limit
       && (last.kind == EventKind.Lifecycle <==> last.status.Some?)
       && if prior == [] then last == Event(Lifecycle, Some(Created), 1) && status == Created
          else if last.status.Some? then
            && status == last.status.value
            && status in Targets(StatusOf(prior))
            && History(prior, StatusOf(prior), last.revision - 1)
          else
            History(prior, status, last.revision)
  }

  ghost predicate LogTellsStatus(p: Process) {
    History(p.events, p.task.status, p.task.revision)
  }

  /** A failed or canceled task has no tool call left prepared or running. */
  ghost predicate ClosedWhenDead(p: Process) {
    p.task.status in {Failed, Canceled} ==> L.Closed(p.ledger)
  }

  ghost predicate ProcessOk(p: Process) {
    && RowsMatchStatus(p)
    && LogTellsStatus(p)
    && L.RecordsOk(p.ledger)
    && ClosedWhenDead(p)
  }

  /** What no transaction of a task may change: its thread, its lineage, and a terminal outcome. */
  ghost predicate Evolves(p: Process, q: Process) {
    && q.task.thread == p.task.thread
    && q.task.retryOf == p.task.retryOf
    && q.task.attempt == p.task.attempt
    && p.task.revision <= q.task.revision
    && p.events <= q.events
    && L.Extends(p.ledger, q.ledger)
    && (IsTerminal(p.task.status) ==>
          && q.task.status == p.task.status
          && q.task.errorRetryable == p.task.errorRetryable
          && q.ledger == p.ledger)
    && (p.task.status == CancelRequested ==> q.task.status in {CancelRequested, Canceled, Failed})
  }

  /** A step that leaves the status and the control rows alone and only adds to the history. */
  ghost predicate AddsHistory(p: Process, q: Process) {
    && Evolves(p, q)
    && q.task.status == p.task.status
    && q.task.errorRetryable == p.task.errorRetryable
    && q.queued == p.queued
    && q.pending == p.pending
    && q.ledger == p.ledger
  }

  // ----- log lemmas ------------------------------------------------------------------------

  lemma HistoryIsMonotone(log: seq<Event>, status: TaskStatus, limit: nat, limit': nat)
    requires History(log, status, limit) && limit <= limit'
    ensures History(log, status, limit')
  {
  }

  lemma {:induction false} HistoryEndsAtStatus(log: seq<Event>, status: TaskStatus, limit: nat)
    requires History(log, status, limit)
    ensures StatusOf(log) == status
  {
    if |log| > 1 && log[|log| - 1].status.None? {
      HistoryEndsAtStatus(log[..|log| - 1], status, log[|log| - 1].revision);
    }
  }

  lemma {:induction false} HistoryOpens(log: seq<Event>, status: TaskStatus, limit: nat)
    requires History(log, status, limit)
    ensures log != [] && log[0] == Event(Lifecycle, Some(Created), 1)
    ensures forall i :: 0 <= i < |log| ==> (log[i].kind == EventKind.Lifecycle <==> log[i].status.Some?)
    decreases |log|
  {
    var prior, last := log[..|log| - 1], log[|log| - 1];
    if prior != [] {
      HistoryOpens(prior, if last.status.Some? then StatusOf(prior) else status,
                   if last.status.Some? then last.revision - 1 else last.revision);
    }
  }

  /** A log keeps telling the status when only other rows, or the revision upwards, change. */
  lemma KeepsLog(p: Process, q: Process)
    requires LogTellsStatus(p)
    requires q.events == p.events && q.task.status == p.task.status && p.task.revision <= q.task.revision
    ensures LogTellsStatus(q)
  {
    HistoryIsMonotone(p.events, p.task.status, p.task.revision, q.task.revision);
  }

  lemma TransitionKeepsLog(p: Process, target: TaskStatus, retryable: bool)
    requires LogTellsStatus(p) && Transition(p, target, retryable).Ok?
    ensures LogTellsStatus(Transition(p, target, retryable).value)
    ensures Transition(p, target, retryable).value.task.status == target
  {
    var q := Transition(p, target, retryable).value;
    if q != p {
      assert q.events[..|q.events| - 1] == p.events;
      HistoryEndsAtStatus(p.events, p.task.status, p.task.revision);
    }
  }

  lemma AppendKeepsLog(p: Process, kind: EventKind)
    requires LogTellsStatus(p) && kind != EventKind.Lifecycle
    ensures LogTellsStatus(AppendEvent(p, kind))
    ensures AddsHistory(p, AppendEvent(p, kind))
  {
    assert (p.events + [Event(kind, None, p.task.revision)])[..|p.events|] == p.events;
  }

  lemma ObservationsKeepLog(p: Process, observations: Option<Text>)
    requires LogTellsStatus(p)
    ensures LogTellsStatus(PersistObservations(p, observations))
    ensures AddsHistory(p, PersistObservations(p, observations))
  {
    if observations.Some? {
      var q := UpsertArtifact(p, Observations, observations.value);
      KeepsLog(p, q);
      AppendKeepsLog(q, ArtifactCreated);
      AppendKeepsLog(q, ArtifactUpdated);
    }
  }

  lemma ExtendsIsTransitive(a: L.Records, b: L.Records, c: L.Records)
    requires L.Extends(a, b) && L.Extends(b, c)
    ensures L.Extends(a, c)
  {
  }

  lemma ClosingClosesLedger(l: L.Records)
    requires L.RecordsOk(l)
    ensures var closed := L.CancelPrepared(L.MarkRunningUncertain(l));
            L.RecordsOk(closed) && L.Extends(l, closed) && L.Closed(closed)
    ensures L.NoneRunning(l) ==> L.Closed(L.CancelPrepared(l))
    ensures L.RecordsOk(L.CancelPrepared(l)) && L.Extends(l, L.CancelPrepared(l))
  {
    L.CloseKeepsRecords(l);
    L.CloseKeepsRecords(L.MarkRunningUncertain(l));
  }

  // ----- transactions keep ProcessOk -------------------------------------------------------

  lemma AcceptOk(thread: ThreadId, retryOf: Option<TaskId>, attempt: nat, queue: bool, serial: nat)
    ensures var r := Accept(thread, retryOf, attempt, queue, serial);
            && r.Ok? && ProcessOk(r.value)
            && r.value.task.status == (if queue then Queued else Created)
            && r.value.queued == (if queue then Some(Command(Initial, thread, serial)) else None)
            && r.value.ledger == []
            && r.value.task.retryOf == retryOf && r.value.task.attempt == attempt
            && r.value.task.thread == thread
  {
    var created := CreateTask(thread, retryOf, attempt);
    TransitionKeepsLog(created, Queued, false);
    KeepsLog(Transition(created, Queued).value,
             Transition(created, Queued).value.(queued := Some(Command(Initial, thread, serial))));
  }

  lemma ClaimOk(p: Process)
    requires ProcessOk(p)
    ensures var r := Claim(p);
            && r.Ok?
            && (r.value.Some? <==> p.task.status == Queued)
            && (r.value.Some? ==>
                  var (q, command) := r.value.value;
                  && ProcessOk(q) && Evolves(p, q)
                  && p.queued == Some(command) && q.queued.None?
                  && q.task.status == Running && q.ledger == p.ledger)
  {
    if p.task.status == Queued {
      TransitionKeepsLog(p.(queued := None), Running, false);
    }
  }

  /** The row, ledger and audit part of a continuation, before the status moves. */
  function Resumed(p: Process, payload: Payload, ledger: L.Records): Process {
    var consumed := p.(pending := None);
    var submitted := if payload.UserInput? then AppendEvent(consumed, InputSubmitted) else consumed;
    AppendEvent(submitted.(ledger := ledger), TaskResumed)
  }

  lemma ResumedOk(p: Process, payload: Payload, ledger: L.Records)
    requires LogTellsStatus(p)
    ensures var q := Resumed(p, payload, ledger);
            && LogTellsStatus(q)
            && AddsHistory(p.(pending := None, ledger := ledger), q)
            && (!IsTerminal(p.task.status) && L.Extends(p.ledger, ledger) ==> Evolves(p, q))
  {
    var consumed := p.(pending := None);
    KeepsLog(p, consumed);
    AppendKeepsLog(consumed, InputSubmitted);
    var submitted := if payload.UserInput? then AppendEvent(consumed, InputSubmitted) else consumed;
    KeepsLog(submitted, submitted.(ledger := ledger));
    AppendKeepsLog(submitted.(ledger := ledger), TaskResumed);
  }

  /** The operator's answer leaves the ledger in order and starts nothing. */
  lemma DecisionKeepsLedger(l: L.Records, binding: Binding, approved: bool)
    requires L.RecordsOk(l) && ResolveBinding(l, binding, approved).Ok?
    ensures var l' := ResolveBinding(l, binding, approved).value;
            L.RecordsOk(l') && L.Extends(l, l') && (L.NoneRunning(l) ==> L.NoneRunning(l'))
  {
    if binding.Bound? {
      L.ApplyKeepsRecords(l, L.OpResolve(binding.key, binding.tool, binding.digest, approved));
    }
  }

  /** A task without control rows goes back to the queue with one command. */
  lemma RequeuedOk(p: Process, payload: Payload, serial: nat)
    requires LogTellsStatus(p) && L.RecordsOk(p.ledger) && p.task.status in {InputRequired, AuthRequired}
    requires p.queued.None? && p.pending.None?
    ensures var moved := Transition(p, Queued);
            && moved.Ok?
            && var q := Enqueue(moved.value, Command(payload, p.task.thread, serial));
               && q.Ok? && ProcessOk(q.value) && Evolves(p, q.value) && q.value.ledger == p.ledger
               && q.value.task.status == Queued && q.value.queued == Some(Command(payload, p.task.thread, serial))
  {
    TransitionKeepsLog(p, Queued, false);
    var moved := Transition(p, Queued).value;
    KeepsLog(moved, moved.(queued := Some(Command(payload, p.task.thread, serial))));
  }

  lemma EvolvesIsTransitive(p: Process, q: Process, r: Process)
    requires Evolves(p, q) && Evolves(q, r)
    ensures Evolves(p, r)
  {
    ExtendsIsTransitive(p.ledger, q.ledger, r.ledger);
  }

  lemma ContinuationOk(p: Process, payload: Payload, serial: nat)
    requires ProcessOk(p) && AcceptContinuation(p, payload, serial).Ok?
    ensures var q := AcceptContinuation(p, payload, serial).value;
            && ProcessOk(q) && Evolves(p, q)
            && p.task.status in {InputRequired, AuthRequired}
            && q.task.status == Queued
            && q.queued == Some(Command(payload, p.task.thread, serial))
            && (L.NoneRunning(p.ledger) ==> L.NoneRunning(q.ledger))
  {
    var binding := p.pending.value.binding;
    var ledger :=
      if payload.ApprovalAnswer? then ResolveBinding(p.ledger, binding, payload.approved).value else p.ledger;
    if payload.ApprovalAnswer? {
      DecisionKeepsLedger(p.ledger, binding, payload.approved);
    }
    var resumed := Resumed(p, payload, ledger);
    ResumedOk(p, payload, ledger);
    RequeuedOk(resumed, payload, serial);
    var q := Enqueue(Transition(resumed, Queued).value, Command(payload, p.task.thread, serial)).value;
    assert AcceptContinuation(p, payload, serial) == Ok(q);
    EvolvesIsTransitive(p, resumed, q);
  }

  /** A decision bound to one invocation changes that record and no other. */
  lemma ContinuationDecidesOnlyItsBinding(p: Process, payload: Payload, serial: nat)
    requires ProcessOk(p) && AcceptContinuation(p, payload, serial).Ok?
    ensures var q := AcceptContinuation(p, payload, serial).value;
            && |q.ledger| == |p.ledger|
            && forall i :: 0 <= i < |p.ledger| && q.ledger[i] != p.ledger[i] ==>
                 && payload.ApprovalAnswer?
                 && p.pending.value.binding.Bound?
                 && p.ledger[i].key == p.pending.value.binding.key
                 && p.ledger[i].approval == L.Pending
                 && q.ledger[i].approval == (if payload.approved then L.Approved else L.Rejected)
  {
  }

  lemma TransitionAndCloseOk(p: Process, target: TaskStatus, retryable: bool)
    requires L.RecordsOk(p.ledger) && LogTellsStatus(p) && !IsTerminal(p.task.status)
    requires target in {Failed, Canceled} && TransitionAndClose(p, target, retryable).Ok?
    ensures var q := TransitionAndClose(p, target, retryable).value;
            ProcessOk(q) && Evolves(p, q) && q.task.status == target && L.Closed(q.ledger)
            && q.task.errorRetryable == retryable
  {
    TransitionKeepsLog(p, target, retryable);
    var moved := Transition(p, target, retryable).value;
    ClosingClosesLedger(p.ledger);
    KeepsLog(moved, CloseUnresolved(moved));
  }

  lemma CancellationOk(p: Process)
    requires ProcessOk(p) && RecordCancellation(p).Ok?
    ensures var q := RecordCancellation(p).value;
            ProcessOk(q) && Evolves(p, q) && IsTerminal(q.task.status)
            && (q == p || L.Closed(q.ledger))
  {
    if !IsTerminal(p.task.status) {
      TransitionAndCloseOk(p, Canceled, false);
    }
  }

  lemma FailureOk(p: Process, retryable: bool)
    requires ProcessOk(p)
    ensures var r := RecordFailure(p, retryable);
            && r.Ok? && ProcessOk(r.value) && Evolves(p, r.value) && IsTerminal(r.value.task.status)
            && (r.value == p || L.Closed(r.value.ledger))
            && (p.task.status == CancelRequested ==> r.value.task.status == Canceled)
            && (p.task.status !in {CancelRequested, Completed, Canceled, Failed} ==>
                  r.value.task.status == Failed && r.value.task.errorRetryable == retryable)
  {
    if !IsTerminal(p.task.status) {
      if p.task.status == CancelRequested {
        TransitionAndCloseOk(p, Canceled, false);
      } else {
        TransitionAndCloseOk(p, Failed, retryable);
      }
    }
  }

  lemma RecoveryOk(p: Process)
    requires ProcessOk(p)
    ensures var r := RecordRecoveryFailure(p);
            && r.Ok? && ProcessOk(r.value) && Evolves(p, r.value) && IsTerminal(r.value.task.status)
            && (!IsTerminal(p.task.status) ==> r.value.task.status == Failed && r.value.task.errorRetryable)
            && (IsTerminal(p.task.status) ==> r.value == p)
            && (r.value == p || L.Closed(r.value.ledger))
  {
    if !IsTerminal(p.task.status) {
      TransitionAndCloseOk(p, Failed, true);
    }
  }

  function Answered(p: Process, r: RunResult): Process {
    var observed := PersistObservations(p, r.observations);
    SetOutput(AppendEvent(UpsertArtifact(observed, FinalAnswer, r.answer), ArtifactCreated), r.outputMessage)
  }

  lemma AddsHistoryIsTransitive(p: Process, q: Process, r: Process)
    requires AddsHistory(p, q) && AddsHistory(q, r)
    ensures AddsHistory(p, r)
  {
    EvolvesIsTransitive(p, q, r);
  }

  /** Storing an artifact or the output raises the revision at most. */
  lemma StoringAddsHistory(p: Process, id: ArtifactId, content: Text)
    requires LogTellsStatus(p)
    ensures LogTellsStatus(UpsertArtifact(p, id, content)) && AddsHistory(p, UpsertArtifact(p, id, content))
    ensures LogTellsStatus(SetOutput(p, content)) && AddsHistory(p, SetOutput(p, content))
  {
    KeepsLog(p, UpsertArtifact(p, id, content));
    KeepsLog(p, SetOutput(p, content));
  }

  lemma AnsweredOk(p: Process, r: RunResult)
    requires LogTellsStatus(p)
    ensures LogTellsStatus(Answered(p, r))
    ensures AddsHistory(p, Answered(p, r))
  {
    var observed := PersistObservations(p, r.observations);
    ObservationsKeepLog(p, r.observations);
    var upserted := UpsertArtifact(observed, FinalAnswer, r.answer);
    StoringAddsHistory(observed, FinalAnswer, r.answer);
    AppendKeepsLog(upserted, ArtifactCreated);
    var noted := AppendEvent(upserted, ArtifactCreated);
    StoringAddsHistory(noted, FinalAnswer, r.outputMessage);
    AddsHistoryIsTransitive(p, observed, upserted);
    AddsHistoryIsTransitive(p, upserted, noted);
    AddsHistoryIsTransitive(p, noted, Answered(p, r));
  }

  lemma CompletedOk(p: Process, r: RunResult)
    requires ProcessOk(p) && p.task.status == Running
    ensures var c := RecordCompleted(p, r);
            c.Ok? && ProcessOk(c.value) && Evolves(p, c.value) && c.value.task.status == Completed
            && c.value.ledger == p.ledger
  {
    var answered := Answered(p, r);
    AnsweredOk(p, r);
    TransitionKeepsLog(answered, Completed, false);
    var moved := Transition(answered, Completed).value;
    KeepsLog(moved, ClearContinuations(moved));
    assert RecordCompleted(p, r) == Ok(ClearContinuations(moved));
  }

  /** A completed task holds the answer, the output and the evidence of its result, and nothing pending. */
  lemma CompletionDelivers(p: Process, r: RunResult)
    requires RecordCompleted(p, r).Ok?
    ensures var q := RecordCompleted(p, r).value;
            && FinalAnswer in q.artifacts && q.artifacts[FinalAnswer] == r.answer
            && q.task.output == Some(r.outputMessage)
            && (r.observations.Some? ==>
                  Observations in q.artifacts && q.artifacts[Observations] == r.observations.value)
            && (forall id :: id in p.artifacts && id != FinalAnswer && id != Observations ==>
                  id in q.artifacts && q.artifacts[id] == p.artifacts[id])
            && q.queued.None? && q.pending.None?
  {
    var observed := PersistObservations(p, r.observations);
    assert r.observations.Some? ==>
        Observations in observed.artifacts && observed.artifacts[Observations] == r.observations.value;
  }

  /** A waiting task holds the request it waits on and the evidence so far. */
  lemma InterruptionAsks(p: Process, r: RunResult, status: TaskStatus, request: InputRequest)
    requires RecordInterrupted(p, r, status, request).Ok?
    ensures var q := RecordInterrupted(p, r, status, request).value;
            && q.pending == Some(request)
            && (r.observations.Some? ==>
                  Observations in q.artifacts && q.artifacts[Observations] == r.observations.value)
  {
    var observed := PersistObservations(p, r.observations);
    assert r.observations.Some? ==>
        Observations in observed.artifacts && observed.artifacts[Observations] == r.observations.value;
  }

  /** The first success of a call stores its result; a repeated one changes nothing. */
  lemma SuccessStoresResult(p: Process, key: L.CallKey, content: Text)
    requires L.RecordsOk(p.ledger) && ToolSucceed(p, key, content).Ok?
    ensures var q := ToolSucceed(p, key, content).value;
            var i := L.IndexOf(p.ledger, key);
            && i < |p.ledger| && p.ledger[i].status in {L.Running, L.Succeeded} && q.ledger[i].status == L.Succeeded
            && (q == p <==> p.ledger[i].status == L.Succeeded)
            && (q != p ==> ToolResult(key) in q.artifacts && q.artifacts[ToolResult(key)] == content)
  {
  }

  lemma InterruptedOk(p: Process, r: RunResult)
    requires ProcessOk(p) && p.task.status == Running && ContinuationRequest(r).Some?
    requires r.status in {InputRequired, AuthRequired}
    ensures var i := RecordInterrupted(p, r, ResultStatus(r), ContinuationRequest(r).value);
            i.Ok? && ProcessOk(i.value) && Evolves(p, i.value) && i.value.ledger == p.ledger
            && i.value.task.status == ResultStatus(r)
  {
    var request := ContinuationRequest(r).value;
    var observed := PersistObservations(p, r.observations);
    ObservationsKeepLog(p, r.observations);
    KeepsLog(observed, observed.(pending := Some(request)));
    TransitionKeepsLog(observed.(pending := Some(request)), ResultStatus(r), false);
    var moved := Transition(observed.(pending := Some(request)), ResultStatus(r)).value;
    KeepsLog(moved, moved.(queued := None));
  }

  lemma ResultOk(p: Process, r: RunResult)
    requires ProcessOk(p) && RecordResult(p, r).Ok?
    requires p.task.status in {Running, CancelRequested} || IsTerminal(p.task.status)
    ensures var q := RecordResult(p, r).value;
            && ProcessOk(q) && Evolves(p, q)
            && (p.task.status == CancelRequested ==> q.task.status == Canceled)
            && (L.NoneRunning(p.ledger) ==> L.NoneRunning(q.ledger))
            && q.queued.None?
  {
    if p.task.status == CancelRequested {
      CancellationOk(p);
    } else if p.task.status == Running {
      var status := ResultStatus(r);
      if status in {InputRequired, AuthRequired} {
        if ContinuationRequest(r).None? {
          FailureOk(p, false);
        } else {
          InterruptedOk(p, r);
        }
      } else if status == Completed {
        CompletedOk(p, r);
      } else if status != Running {
        ObservationsKeepLog(p, r.observations);
        TransitionAndCloseOk(PersistObservations(p, r.observations), Failed, r.retryable);
        EvolvesAfterObservations(p, r.observations, r.retryable);
      }
    }
  }

  lemma EvolvesAfterObservations(p: Process, observations: Option<Text>, retryable: bool)
    requires ProcessOk(p) && p.task.status == Running
    ensures var q := TransitionAndClose(PersistObservations(p, observations), Failed, retryable);
            q.Ok? && Evolves(p, q.value)
  {
    ObservationsKeepLog(p, observations);
    TransitionAndCloseOk(PersistObservations(p, observations), Failed, retryable);
  }

  lemma OutcomeOk(p: Process, outcome: Outcome, fallbackRetryable: bool)
    requires ProcessOk(p)
    requires outcome.Finished? ==> p.task.status in {Running, CancelRequested} || IsTerminal(p.task.status)
    ensures var r := RecordOutcome(p, outcome, fallbackRetryable);
            && r.Ok? && ProcessOk(r.value) && Evolves(p, r.value)
            && (p.task.status == CancelRequested ==> r.value.task.status == Canceled)
            && (L.NoneRunning(p.ledger) ==> L.NoneRunning(r.value.ledger))
            && (r.value.queued.None? || r.value.queued == p.queued)
            && (p.task.status != Queued ==> r.value.queued.None?)
  {
    match outcome
    case Crashed(retryable) => FailureOk(p, retryable);
    case Finished(r) =>
      if RecordResult(p, r).Ok? {
        ResultOk(p, r);
      } else {
        FailureOk(p, fallbackRetryable);
      }
  }

  lemma CancelNowOk(p: Process)
    requires LogTellsStatus(p) && L.RecordsOk(p.ledger) && L.NoneRunning(p.ledger)
    requires !IsTerminal(p.task.status) && Transition(p, Canceled).Ok?
    ensures var c := Transition(p, Canceled).value;
            var q := ClearContinuations(c.(ledger := L.CancelPrepared(c.ledger)));
            && ProcessOk(q) && Evolves(p, q) && q.task.status == Canceled && L.NoneRunning(q.ledger)
  {
    TransitionKeepsLog(p, Canceled, false);
    var c := Transition(p, Canceled).value;
    ClosingClosesLedger(p.ledger);
    KeepsLog(c, ClearContinuations(c.(ledger := L.CancelPrepared(c.ledger))));
  }

  lemma CommitCancellationOk(p: Process, active: bool)
    requires ProcessOk(p) && CommitCancellation(p, active).Ok?
    requires L.NoneRunning(p.ledger) || (active && p.task.status in {Running, CancelRequested})
    ensures var q := CommitCancellation(p, active).value;
            && ProcessOk(q) && Evolves(p, q)
            && q.task.status in {CancelRequested, Canceled}
            && (q.task.status == CancelRequested ==>
                  p.task.status in {Running, CancelRequested} && q.ledger == p.ledger)
            && (active && p.task.status in {Running, CancelRequested} ==> q.task.status == CancelRequested)
            && (L.NoneRunning(p.ledger) ==> L.NoneRunning(q.ledger))
            && q.queued.None?
  {
    if p.task.status == Running {
      TransitionKeepsLog(p, CancelRequested, false);
      if !active {
        CancelNowOk(Transition(p, CancelRequested).value);
      }
    } else if p.task.status != CancelRequested {
      CancelNowOk(p);
    }
  }

  // ----- tool calls keep ProcessOk ---------------------------------------------------------

  /** A ledger operation issued by a live worker keeps everything but the record it moves. */
  lemma LedgerStepOk(p: Process, op: L.LedgerOp)
    requires ProcessOk(p)
    requires p.task.status in {Running, CancelRequested}
    ensures var q := p.(ledger := L.Apply(p.ledger, op)); ProcessOk(q) && Evolves(p, q)
  {
    L.ApplyKeepsRecords(p.ledger, op);
    KeepsLog(p, p.(ledger := L.Apply(p.ledger, op)));
  }

  /** A live task that only gained history and a ledger step is still in order. */
  lemma LedgerKeepsHistory(p: Process, q: Process, ledger: L.Records)
    requires ProcessOk(p) && AddsHistory(p, q) && LogTellsStatus(q) && p.task.status in {Running, CancelRequested}
    requires L.RecordsOk(ledger) && L.Extends(p.ledger, ledger)
    ensures ProcessOk(q.(ledger := ledger)) && Evolves(p, q.(ledger := ledger))
  {
    KeepsLog(q, q.(ledger := ledger));
  }

  lemma ToolSucceedOk(p: Process, key: L.CallKey, content: Text)
    requires ProcessOk(p) && ToolSucceed(p, key, content).Ok?
    requires p.task.status in {Running, CancelRequested}
    ensures var q := ToolSucceed(p, key, content).value;
            && ProcessOk(q) && Evolves(p, q) && q.task.status == p.task.status && q.queued == p.queued
            && q.ledger == L.Apply(p.ledger, L.OpSucceed(key))
  {
    L.ApplyKeepsRecords(p.ledger, L.OpSucceed(key));
    if L.Succeed(p.ledger, key).value.Some? {
      var ledger := L.Succeed(p.ledger, key).value.value;
      var upserted := UpsertArtifact(p, ToolResult(key), content);
      StoringAddsHistory(p, ToolResult(key), content);
      AppendKeepsLog(upserted, ArtifactCreated);
      var q := AppendEvent(upserted, ArtifactCreated);
      AddsHistoryIsTransitive(p, upserted, q);
      assert L.Apply(p.ledger, L.OpSucceed(key)) == ledger;
      LedgerKeepsHistory(p, q, ledger);
      assert ToolSucceed(p, key, content) == Ok(q.(ledger := ledger));
    }
  }

  // ----- what a history says ---------------------------------------------------------------

  /** The statuses carried by a log, in order. */
  function StatusTrail(log: seq<Event>): seq<TaskStatus> {
    if log == [] then []
    else
      var last := log[|log| - 1];
      StatusTrail(log[..|log| - 1]) + (if last.status.Some? then [last.status.value] else [])
  }

  /**
  The status-bearing events form a legal path of the transition table from `Created` to the current
  status, revisions never fall or exceed the record's, and a status change has a fresh revision.
  */
  lemma {:induction false} HistoryMeans(log: seq<Event>, status: TaskStatus, limit: nat)
    requires History(log, status, limit)
    ensures var trail := StatusTrail(log);
            0 < |trail| && trail[0] == Created && LegalPath(trail) && trail[|trail| - 1] == status
    ensures forall i :: 0 <= i < |log| ==> 1 <= log[i].revision <= limit
    ensures forall i, j :: 0 <= i < j < |log| ==> log[i].revision <= log[j].revision
    ensures forall i, j :: 0 <= i < j < |log| && log[j].status.Some? ==> log[i].revision < log[j].revision
    decreases |log|
  {
    var prior, last := log[..|log| - 1], log[|log| - 1];
    if prior != [] {
      var s := if last.status.Some? then StatusOf(prior) else status;
      HistoryMeans(prior, s, if last.status.Some? then last.revision - 1 else last.revision);
      assert forall i :: 0 <= i < |prior| ==> log[i] == prior[i];
    }
  }
}

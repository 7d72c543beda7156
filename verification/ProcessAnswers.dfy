/**
What each transaction of a task answers: when it is accepted, and which state, rows and events it leaves
behind, told by the request or result it was given.
*/
module ProcessAnswers {
  import opened Prelude
  import opened Lifecycle
  import opened Processes
  import L = Ledger

  // ----- the transition table --------------------------------------------------------------

  /**
  The shape of the local state machine: terminal statuses are left by nothing, a requested cancellation
  leads only to an end, work completes and waits only out of running, and only created and waiting tasks
  are queued.
  */
  lemma TableShape(a: TaskStatus, b: TaskStatus)
    ensures IsTerminal(a) ==> b !in Targets(a)
    ensures a == CancelRequested && b in Targets(a) ==> b in {Canceled, Failed}
    ensures b in {Completed, CancelRequested, InputRequired, AuthRequired} && b in Targets(a) ==> a == Running
    ensures b == Queued && b in Targets(a) ==> a in {Created, InputRequired, AuthRequired}
    ensures b == Running && b in Targets(a) ==> a in {Created, Queued}
    ensures !IsTerminal(a) ==> Failed in Targets(a)
    ensures !IsTerminal(a) && a != Running ==> Canceled in Targets(a)
    ensures b != Created || b !in Targets(a)
  {
  }

  /** A transition is refused exactly off the table, and otherwise moves status, revision and log by one. */
  lemma TransitionAnswers(p: Process, target: TaskStatus, retryable: bool)
    ensures var r := Transition(p, target, retryable);
            && (r.Ok? <==> target == p.task.status || target in Targets(p.task.status))
            && (target == p.task.status ==> r == Ok(p))
            && (r.Ok? && target != p.task.status ==>
                  && r.value.task.status == target && r.value.task.errorRetryable == retryable
                  && r.value.task.revision == p.task.revision + 1
                  && r.value.events == p.events + [Event(EventKind.Lifecycle, Some(target), r.value.task.revision)]
                  && r.value.queued == p.queued && r.value.pending == p.pending && r.value.ledger == p.ledger
                  && r.value.artifacts == p.artifacts && r.value.task.output == p.task.output)
  {
  }

  // ----- logs ------------------------------------------------------------------------------

  /** The kinds of the events a transaction appended. */
  ghost predicate Logs(p: Process, q: Process, kinds: seq<EventKind>) {
    && |q.events| == |p.events| + |kinds| && p.events <= q.events
    && forall k :: 0 <= k < |kinds| ==> q.events[|p.events| + k].kind == kinds[k]
  }

  function EvidenceKinds(p: Process, observations: Option<Text>): seq<EventKind> {
    if observations.None? then [] else if Observations in p.artifacts then [ArtifactUpdated] else [ArtifactCreated]
  }

  lemma EvidenceLogs(p: Process, observations: Option<Text>)
    ensures Logs(p, PersistObservations(p, observations), EvidenceKinds(p, observations))
  {
  }

  // ----- rows ------------------------------------------------------------------------------

  /** A changed artifact or output is stored under the next revision; an unchanged one changes nothing. */
  lemma StoringRaisesRevision(p: Process, id: ArtifactId, content: Text)
    ensures var q := UpsertArtifact(p, id, content);
            && id in q.artifacts && q.artifacts[id] == content
            && q.task.revision == p.task.revision + (if id in p.artifacts && p.artifacts[id] == content then 0 else 1)
            && (forall other :: other != id ==> (other in q.artifacts <==> other in p.artifacts))
            && (forall other :: other in p.artifacts && other != id ==> q.artifacts[other] == p.artifacts[other])
    ensures var q := SetOutput(p, content);
            && q.task.output == Some(content)
            && q.task.revision == p.task.revision + (if p.task.output == Some(content) then 0 else 1)
  {
  }

  /** On a consistent task a command is accepted only as a repetition of the one it has, and changes nothing. */
  lemma EnqueueAnswers(p: Process, command: Command)
    requires ProcessOk(p)
    ensures var r := Enqueue(p, command);
            && (r.Ok? <==> && p.task.status == Queued && p.queued.Some?
                           && p.queued.value.payload == command.payload && p.task.thread == command.thread)
            && (r.Ok? ==> r.value == p)
  {
  }

  // ----- continuations ---------------------------------------------------------------------

  /** The operator's answer fits the binding of the request. */
  ghost predicate DecisionFits(l: L.Records, binding: Binding, approved: bool) {
    match binding
    case Unbound => true
    case Malformed => false
    case Bound(key, tool, digest) =>
      && key.tool == tool && key.digest == digest
      && exists i :: 0 <= i < |l| && l[i].key == key && CanDecide(l[i], approved)
  }

  /** The record needs a decision and can take this one, or has it already. */
  predicate CanDecide(r: L.Invocation, approved: bool) {
    && r.approvalRequired
    && (|| r.approval == (if approved then L.Approved else L.Rejected)
        || (r.approval == L.Pending && r.status == L.Prepared))
  }

  lemma BindingAnswers(l: L.Records, binding: Binding, approved: bool)
    requires L.RecordsOk(l)
    ensures ResolveBinding(l, binding, approved).Ok? <==> DecisionFits(l, binding, approved)
  {
    if binding.Bound? {
      var i := L.IndexOf(l, binding.key);
      if i < |l| {
        L.ResolveAnswers(l, i, binding.tool, binding.digest, approved);
      }
      forall j | 0 <= j < |l| && l[j].key == binding.key
        ensures j == i
      {
        L.IndexOfIsUnique(l, j);
      }
    }
  }

  /**
  A continuation is accepted if and only if the task waits for this kind of answer and, for an approval,
  the decision fits the invocation the request is bound to.
  */
  lemma ContinuationAnswers(p: Process, payload: Payload, serial: nat)
    requires ProcessOk(p)
    ensures AcceptContinuation(p, payload, serial).Ok? <==>
              || (payload.UserInput? && p.task.status == InputRequired)
              || (payload.ApprovalAnswer? && p.task.status == AuthRequired
                  && DecisionFits(p.ledger, p.pending.value.binding, payload.approved))
  {
    if payload.ApprovalAnswer? && p.task.status == AuthRequired {
      BindingAnswers(p.ledger, p.pending.value.binding, payload.approved);
    }
    if AwaitsContinuation(p, ExpectedKind(payload)) && !payload.Initial? {
      var decided :=
        if payload.ApprovalAnswer? then ResolveBinding(p.ledger, p.pending.value.binding, payload.approved)
        else Ok(p.ledger);
      if decided.Ok? {
        ResumedOk(p, payload, decided.value);
        RequeueAnswers(Resumed(p, payload, decided.value), payload, serial);
      }
    }
  }

  lemma RequeueAnswers(p: Process, payload: Payload, serial: nat)
    requires p.task.status in {InputRequired, AuthRequired} && p.queued.None?
    ensures Transition(p, Queued).Ok?
    ensures Enqueue(Transition(p, Queued).value, Command(payload, p.task.thread, serial)).Ok?
  {
  }

  /** The decision lands on the bound invocation: it is approved, or rejected and canceled, as answered. */
  lemma DecisionLands(p: Process, approved: bool, serial: nat) returns (i: nat)
    requires ProcessOk(p) && p.task.status == AuthRequired && p.pending.value.binding.Bound?
    requires AcceptContinuation(p, ApprovalAnswer(approved), serial).Ok?
    ensures var q := AcceptContinuation(p, ApprovalAnswer(approved), serial).value;
            var Bound(key, tool, digest) := p.pending.value.binding;
            && i < |p.ledger| == |q.ledger| && p.ledger[i].key == q.ledger[i].key == key
            && key.tool == tool && key.digest == digest && p.ledger[i].approvalRequired
            && q.ledger[i].approval == (if approved then L.Approved else L.Rejected)
            && q.ledger[i].status == (if approved then p.ledger[i].status else L.Canceled)
  {
    var Bound(key, tool, digest) := p.pending.value.binding;
    i := L.IndexOf(p.ledger, key);
    L.ResolveAnswers(p.ledger, i, tool, digest, approved);
    L.ApplyKeepsRecords(p.ledger, L.OpResolve(key, tool, digest, approved));
  }

  /** A resumed task's log gains the submission, if any, the resumption and the new status. */
  lemma ContinuationLogs(p: Process, payload: Payload, serial: nat)
    requires AcceptContinuation(p, payload, serial).Ok?
    ensures Logs(p, AcceptContinuation(p, payload, serial).value,
                 (if payload.UserInput? then [InputSubmitted] else []) + [TaskResumed, EventKind.Lifecycle])
  {
  }

  // ----- results ---------------------------------------------------------------------------

  /** The result asks for something that can be continued. */
  predicate AsksSomething(r: RunResult) {
    r.request.Some? && r.request.value.kind in {ApprovalRequired, UserInputRequired}
  }

  /** The observations of the result are on record. */
  ghost predicate HoldsEvidence(q: Process, r: RunResult) {
    r.observations.Some? ==> Observations in q.artifacts && q.artifacts[Observations] == r.observations.value
  }

  /**
  Which outcome the result of a running task gets: a completed one its answer and output, a waiting one
  the status of what it asks for with that request pending, a waiting one that asks for nothing and any
  other stop a failure, and a result that is still running changes nothing.
  */
  lemma ResultAnswers(p: Process, r: RunResult)
    requires ProcessOk(p) && p.task.status == Running
    ensures RecordResult(p, r).Ok?
    ensures var q := RecordResult(p, r).value;
            && (r.status == Completed ==>
                  && q.task.status == Completed && FinalAnswer in q.artifacts && q.artifacts[FinalAnswer] == r.answer
                  && q.task.output == Some(r.outputMessage) && HoldsEvidence(q, r))
            && (r.status in {InputRequired, AuthRequired} && AsksSomething(r) ==>
                  && q.pending == r.request && HoldsEvidence(q, r)
                  && q.task.status == if r.request.value.kind == ApprovalRequired then AuthRequired else InputRequired)
            && (r.status in {InputRequired, AuthRequired} && !AsksSomething(r) ==>
                  q.task.status == Failed && !q.task.errorRetryable)
            && (r.status == Running ==> q == p)
            && (r.status in {Created, Queued, CancelRequested, Canceled, Failed} ==>
                  q.task.status == Failed && q.task.errorRetryable == r.retryable && HoldsEvidence(q, r))
  {
    var status := ResultStatus(r);
    if r.status == Completed {
      CompletedOk(p, r);
      CompletionDelivers(p, r);
    } else if r.status in {InputRequired, AuthRequired} {
      if AsksSomething(r) {
        InterruptedOk(p, r);
        InterruptionAsks(p, r, status, r.request.value);
      } else {
        FailureOk(p, false);
      }
    } else if r.status != Running {
      StopAnswers(p, r);
    }
  }

  lemma StopAnswers(p: Process, r: RunResult)
    requires ProcessOk(p) && p.task.status == Running
    ensures var q := TransitionAndClose(PersistObservations(p, r.observations), Failed, r.retryable);
            && q.Ok? && q.value.task.status == Failed && q.value.task.errorRetryable == r.retryable
            && HoldsEvidence(q.value, r)
  {
    ObservationsKeepLog(p, r.observations);
    var observed := PersistObservations(p, r.observations);
    TransitionAndCloseOk(observed, Failed, r.retryable);
  }

  /** A late result of a task that ended, or whose cancellation was requested, is not recorded. */
  lemma LateResultAnswers(p: Process, r: RunResult)
    requires ProcessOk(p) && p.task.status != Running
    ensures IsTerminal(p.task.status) ==> RecordResult(p, r) == Ok(p)
    ensures p.task.status == CancelRequested ==>
              RecordResult(p, r).Ok? && RecordResult(p, r).value.task.status == Canceled
              && RecordResult(p, r).value.artifacts == p.artifacts && L.Closed(RecordResult(p, r).value.ledger)
  {
    if p.task.status == CancelRequested {
      TransitionAndCloseOk(p, Canceled, false);
    }
  }

  /** A slice's outcome: a result is recorded as such, a crash as a failure with its own retryability. */
  lemma OutcomeAnswers(p: Process, outcome: Outcome, fallbackRetryable: bool)
    requires ProcessOk(p) && p.task.status == Running
    ensures RecordOutcome(p, outcome, fallbackRetryable).Ok?
    ensures outcome.Finished? ==> RecordOutcome(p, outcome, fallbackRetryable) == RecordResult(p, outcome.result)
    ensures outcome.Crashed? ==>
              var q := RecordOutcome(p, outcome, fallbackRetryable).value;
              q.task.status == Failed && q.task.errorRetryable == outcome.retryable && L.Closed(q.ledger)
  {
    match outcome
    case Finished(r) => ResultAnswers(p, r);
    case Crashed(retryable) => TransitionAndCloseOk(p, Failed, retryable);
  }

  /** A completed task's log gains its evidence, its answer and the new status. */
  lemma CompletionLogs(p: Process, r: RunResult)
    requires RecordCompleted(p, r).Ok? && p.task.status == Running
    ensures Logs(p, RecordCompleted(p, r).value,
                 EvidenceKinds(p, r.observations) + [ArtifactCreated, EventKind.Lifecycle])
  {
    EvidenceLogs(p, r.observations);
  }

  /** A finished call's log gains the artifact of its result. */
  lemma SuccessLogs(p: Process, key: L.CallKey, content: Text)
    requires ToolSucceed(p, key, content).Ok? && L.Succeed(p.ledger, key).value.Some?
    ensures Logs(p, ToolSucceed(p, key, content).value, [ArtifactCreated])
  {
  }

  // ----- cancellation ----------------------------------------------------------------------

  /**
  A cancellation is accepted exactly for a task that has not ended. It stays requested only while a
  worker holds the running task; any other task is canceled at once, with its prepared calls and both
  control rows gone, and closed if no call was running.
  */
  lemma CancellationAnswers(p: Process, active: bool)
    requires ProcessOk(p)
    ensures var r := CommitCancellation(p, active);
            && (r.Ok? <==> !IsTerminal(p.task.status))
            && (p.task.status == CancelRequested ==> r == Ok(p))
            && (p.task.status == Running && active ==>
                  r.value.task.status == CancelRequested && r.value.ledger == p.ledger
                  && Logs(p, r.value, [EventKind.Lifecycle]))
            && (r.Ok? && p.task.status != CancelRequested && !(p.task.status == Running && active) ==>
                  && r.value.task.status == Canceled && r.value.queued.None? && r.value.pending.None?
                  && r.value.ledger == L.CancelPrepared(p.ledger)
                  && (forall i :: 0 <= i < |r.value.ledger| ==> r.value.ledger[i].status != L.Prepared)
                  && (L.NoneRunning(p.ledger) ==> L.Closed(r.value.ledger)))
  {
  }
}

/**
The agent loop: the node and edge table of the graph as a step function, with its model, tool, loop
and failure budgets, permission decisions, pauses and resumes.

One step runs one node. Everything the loop does not decide itself (the model's reply, the gate's
verdicts, what the ledger answers, cancellation, elapsed time, tool results, operator answers) is an
`Input`, so a run is a sequence of arbitrary inputs.
*/
module AgentLoop {
  import opened Prelude

  // ----- data ------------------------------------------------------------------------------

  datatype Policy = Policy(
    maxModelCalls: nat,
    maxToolCalls: nat,
    maxFailures: nat,
    maxArgumentCorrections: nat,
    maxLoopSteps: nat
  )

  /** `ExecutionPolicy.__post_init__`. */
  predicate PolicyOk(p: Policy) {
    p.maxModelCalls >= 1 && p.maxFailures >= 1 && p.maxLoopSteps >= 1
  }

  datatype StopReason =
    | Completed
    | InputRequired
    | ApprovalRequired
    | BudgetExhausted
    | RepeatedFailure
    | PolicyBlocked
    | Canceled
    | ElapsedLimit
    | ToolArgumentError

  datatype Call = Call(id: Option<string>, name: string, args: string)

  datatype ToolOutcome = Success | ArgumentError | ExecutionError

  datatype Message = Other | Ai(calls: seq<Call>) | Tool(outcome: ToolOutcome)

  datatype Verdict = Allow | Deny | NeedsApproval

  /** The ledger reference that `prepare` attached to a decision. */
  datatype Reference = Reference(id: string, blocked: bool)

  datatype DecisionStatus = IsAllowed | IsDenied | IsApprovalRequired

  datatype Decision = Decision(status: DecisionStatus, call: Call, reference: Option<Reference>)

  datatype PermissionStatus = PermAllowed | PermInputRequired | PermApprovalRequired | PermDenied | PermExhausted

  datatype Permission = Permission(status: PermissionStatus, calls: seq<Call>, decisions: seq<Decision>)

  /** An operator's answer to one approval interrupt. */
  datatype Answer = Answer(loopIndex: nat, call: Call, approved: bool)

  datatype Node =
    | CallModel
    | CheckPermission
    | AwaitApproval(asked: nat)   // interrupted at the approval with this index
    | AwaitUserInput
    | RejectTool
    | Tools
    | RecordToolMessages
    | IncrementLoop
    | MaxLoops
    | End
    | Aborted                     // an exception left the graph

  datatype LoopState = LoopState(
    at: Node,
    loopIndex: nat,
    maxLoops: nat,
    modelCalls: nat,
    toolCalls: nat,
    failures: nat,
    argumentErrorRounds: nat,
    permission: Option<Permission>,
    approval: Option<bool>,
    messages: seq<Message>,
    finalAnswer: Option<string>,
    stop: Option<StopReason>,
    // history
    invocations: nat,        // model requests actually sent
    executions: nat,         // tools actually executed
    answers: seq<Answer>
  )

  datatype Config = Config(policy: Policy, gate: Option<Call -> Verdict>, hasRecorder: bool)

  /** `declaresCall`: a final answer that only narrates a tool call. */
  datatype Reply = Reply(content: string, calls: seq<Call>, declaresCall: bool) | ProviderError

  /** What the wrapper meets around one tool call. */
  datatype ToolEvent = ToolEvent(
    canceledFirst: bool,
    latePrepare: Option<Reference>,
    canceledSecond: bool,
    granted: bool,
    outcome: ToolOutcome,
    raises: bool
  )

  datatype Input = Input(
    canceled: bool,
    canceledLater: bool,
    elapsed: bool,
    elapsedLater: bool,
    reply: Reply,
    prepared: nat -> Option<Reference>,
    tool: nat -> ToolEvent,
    approved: bool
  )

  const REQUEST_USER_INPUT := "request_user_input"

  // ----- limits ----------------------------------------------------------------------------

  function ModelCallLimit(c: Config, s: LoopState, elapsed: bool): Option<StopReason> {
    if elapsed then Some(ElapsedLimit)
    else if s.modelCalls >= c.policy.maxModelCalls then Some(BudgetExhausted)
    else if s.failures >= c.policy.maxFailures then Some(RepeatedFailure)
    else None
  }

  function ToolCallLimit(c: Config, s: LoopState, requested: nat, elapsed: bool): Option<StopReason> {
    if elapsed then Some(ElapsedLimit)
    else if s.toolCalls + requested > c.policy.maxToolCalls then Some(BudgetExhausted)
    else None
  }

  function LoopStepLimit(c: Config, next: nat, elapsed: bool): Option<StopReason> {
    if elapsed then Some(ElapsedLimit)
    else if next > c.policy.maxLoopSteps then Some(BudgetExhausted)
    else None
  }

  function CancelOr(canceled: bool, limit: Option<StopReason>): Option<StopReason> {
    if canceled then Some(Canceled) else limit
  }

  // ----- message scans ---------------------------------------------------------------------

  /** `latest_ai_message`: its tool calls, none if there is no such message. */
  function LatestCalls(messages: seq<Message>): seq<Call> {
    if messages == [] then []
    else
      var last := messages[|messages| - 1];
      if last.Ai? then last.calls else LatestCalls(messages[..|messages| - 1])
  }

  /** The block of tool messages that ends `messages`. */
  function TrailingTools(messages: seq<Message>): seq<Message> {
    if messages == [] || !messages[|messages| - 1].Tool? then []
    else TrailingTools(messages[..|messages| - 1]) + [messages[|messages| - 1]]
  }

  /** `_latest_tool_messages`: messages after the last block of tool messages are skipped. */
  function LatestTools(messages: seq<Message>): seq<Message> {
    if messages == [] then []
    else if messages[|messages| - 1].Tool? then TrailingTools(messages)
    else LatestTools(messages[..|messages| - 1])
  }

  function CountOutcome(messages: seq<Message>, outcome: ToolOutcome): nat {
    if messages == [] then 0
    else (if messages[0] == Tool(outcome) then 1 else 0) + CountOutcome(messages[1..], outcome)
  }

  // ----- routing ---------------------------------------------------------------------------

  function RouteAfterModel(s: LoopState): Node {
    if s.finalAnswer.Some? then End
    else if s.stop.Some? then End
    else if LatestCalls(s.messages) != [] then CheckPermission
    else End
  }

  function RouteAfterPermission(s: LoopState): Node {
    if s.permission.Some? && s.permission.value.status == PermAllowed then Tools
    else if s.permission.Some? && s.permission.value.status == PermInputRequired then AwaitUserInput
    else if s.permission.Some? && s.permission.value.status == PermApprovalRequired then AwaitApproval(0)
    else if s.stop.Some? then End
    else RejectTool
  }

  function RouteAfterApproval(s: LoopState): Node {
    if s.approval == Some(true) then Tools else RejectTool
  }

  function RouteLoopLimit(s: LoopState): Node {
    if s.stop.Some? then End
    else if s.loopIndex > s.maxLoops then MaxLoops
    else CallModel
  }

  // ----- nodes -----------------------------------------------------------------------------

  function RunCallModel(c: Config, s: LoopState, i: Input): LoopState {
    var limit := CancelOr(i.canceled, ModelCallLimit(c, s, i.elapsed));
    if limit.Some? then
      var stopped := s.(stop := limit);
      stopped.(at := RouteAfterModel(stopped))
    else
      var invoked := s.(invocations := s.invocations + 1);
      var late := CancelOr(i.canceledLater, ModelCallLimit(c, s, i.elapsedLater));
      if late.Some? then
        var stopped := invoked.(stop := late);
        stopped.(at := RouteAfterModel(stopped))
      else match i.reply
        case ProviderError => invoked.(at := Aborted)
        case Reply(content, calls, declaresCall) =>
          if calls != [] then Asked(invoked, calls)
          else if declaresCall then invoked.(at := Aborted)
          else Answered(invoked, content)
  }

  function Answered(s: LoopState, content: string): LoopState {
    var next := s.(messages := s.messages + [Ai([])], modelCalls := s.modelCalls + 1,
                   finalAnswer := Some(content), stop := Some(Completed));
    next.(at := RouteAfterModel(next))
  }

  function Asked(s: LoopState, calls: seq<Call>): LoopState {
    var next := s.(messages := s.messages + [Ai(calls)], modelCalls := s.modelCalls + 1);
    next.(at := RouteAfterModel(next))
  }

  /** A decision before the ledger is consulted; without a gate everything is allowed. */
  function GateStatus(c: Config, call: Call): DecisionStatus {
    match c.gate
    case None => IsAllowed
    case Some(check) =>
      (match check(call) case NeedsApproval => IsApprovalRequired case Allow => IsAllowed case Deny => IsDenied)
  }

  /** `_attach_invocation_reference`: a call the ledger will not replay becomes a denial. */
  function Decide(c: Config, call: Call, prepared: Option<Reference>): Decision {
    if !c.hasRecorder || prepared.None? then Decision(GateStatus(c, call), call, None)
    else if prepared.value.blocked then Decision(IsDenied, call, prepared)
    else Decision(GateStatus(c, call), call, prepared)
  }

  function Decisions(c: Config, calls: seq<Call>, prepared: nat -> Option<Reference>): (r: seq<Decision>)
    ensures |r| == |calls|
    ensures forall k :: 0 <= k < |calls| ==> r[k] == Decide(c, calls[k], prepared(k))
  {
    seq(|calls|, k requires 0 <= k < |calls| => Decide(c, calls[k], prepared(k)))
  }

  predicate HasStatus(ds: seq<Decision>, status: DecisionStatus) {
    exists k :: 0 <= k < |ds| && ds[k].status == status
  }

  function JudgeCalls(c: Config, calls: seq<Call>, ds: seq<Decision>): PermissionStatus {
    if c.gate.None? then PermAllowed
    else if HasStatus(ds, IsDenied) then PermDenied
    else if HasStatus(ds, IsApprovalRequired) then PermApprovalRequired
    else PermAllowed
  }

  function AsksUser(calls: seq<Call>): bool {
    exists k :: 0 <= k < |calls| && calls[k].name == REQUEST_USER_INPUT
  }

  function RunCheckPermission(c: Config, s: LoopState, i: Input): LoopState {
    var next := PermissionUpdates(c, s, i);
    next.(at := RouteAfterPermission(next))
  }

  function PermissionUpdates(c: Config, s: LoopState, i: Input): LoopState {
    var calls := LatestCalls(s.messages);
    if i.canceled then s.(stop := Some(Canceled))
    else if calls == [] then s.(permission := Some(Permission(PermDenied, [], [])))
    else if AsksUser(calls) then
      s.(permission := Some(Permission(PermInputRequired, calls, [])), stop := Some(InputRequired))
    else
      var limit := ToolCallLimit(c, s, |calls|, i.elapsed);
      if limit.Some? then s.(permission := Some(Permission(PermExhausted, calls, [])), stop := limit)
      else
        var ds := Decisions(c, calls, i.prepared);
        var status := JudgeCalls(c, calls, ds);
        s.(permission := Some(Permission(status, calls, ds)),
           stop := if status == PermApprovalRequired then Some(ApprovalRequired) else s.stop)
  }

  /** The decisions that the approval node asks about, in order. */
  function ToApprove(ds: seq<Decision>): seq<Decision> {
    if ds == [] then []
    else (if ds[0].status == IsApprovalRequired then [ds[0]] else []) + ToApprove(ds[1..])
  }

  /** One resume of the approval interrupt; the first rejection ends the questions. */
  function RunApproval(c: Config, s: LoopState, i: Input): LoopState
    requires s.at.AwaitApproval?
  {
    var asks := if s.permission.Some? then ToApprove(s.permission.value.decisions) else [];
    if s.at.asked >= |asks| then
      var next := s.(approval := Some(false), stop := None);
      next.(at := RouteAfterApproval(next))
    else
      var answered := s.(answers := s.answers + [Answer(s.loopIndex, asks[s.at.asked].call, i.approved)]);
      if i.approved && s.at.asked + 1 < |asks| then answered.(at := AwaitApproval(s.at.asked + 1))
      else
        var next := answered.(approval := Some(i.approved), stop := None);
        next.(at := RouteAfterApproval(next))
  }

  /** Resuming a user-input interrupt answers every call of the turn without executing any. */
  function RunUserInput(s: LoopState): LoopState {
    var n := if s.permission.Some? then |s.permission.value.calls| else 1;
    s.(messages := s.messages + seq(n, _ => Tool(Success)), stop := None, at := IncrementLoop)
  }

  function RunReject(s: LoopState): LoopState {
    s.(finalAnswer := Some("rejected"), stop := Some(PolicyBlocked), at := End)
  }

  /** `_same_tool_call`. */
  predicate SameCall(a: Call, b: Call) {
    if a.id.Some? && b.id.Some? then a.id == b.id else a.name == b.name && a.args == b.args
  }

  /** `_invocation_reference_for_tool_call`: the first matching decision that carries a reference. */
  function ReferenceFor(ds: seq<Decision>, call: Call): Option<Reference> {
    if ds == [] then None
    else if SameCall(ds[0].call, call) && ds[0].reference.Some? then ds[0].reference
    else ReferenceFor(ds[1..], call)
  }

  /** Whether the wrapper really executes the tool. */
  predicate Executes(c: Config, ds: seq<Decision>, call: Call, e: ToolEvent) {
    && !e.canceledFirst
    && (c.hasRecorder ==>
          var found := ReferenceFor(ds, call);
          var reference := if found.Some? then found else e.latePrepare;
          reference.Some? ==> !reference.value.blocked && !e.canceledSecond && e.granted)
  }

  function CountExecutions(c: Config, ds: seq<Decision>, calls: seq<Call>, tool: nat -> ToolEvent): (n: nat)
    ensures n <= |calls|
  {
    if calls == [] then 0
    else
      var last := |calls| - 1;
      CountExecutions(c, ds, calls[..last], tool) + (if Executes(c, ds, calls[last], tool(last)) then 1 else 0)
  }

  /** A blocked call yields an error message, an executed one its outcome. */
  function ToolMessages(c: Config, ds: seq<Decision>, calls: seq<Call>, tool: nat -> ToolEvent): (r: seq<Message>)
    ensures |r| == |calls|
    ensures forall k :: 0 <= k < |r| ==> r[k].Tool?
  {
    seq(|calls|, k requires 0 <= k < |calls| =>
      Tool(if Executes(c, ds, calls[k], tool(k)) then tool(k).outcome else ExecutionError))
  }

  predicate SomeRaise(c: Config, ds: seq<Decision>, calls: seq<Call>, tool: nat -> ToolEvent) {
    exists k :: 0 <= k < |calls| && Executes(c, ds, calls[k], tool(k)) && tool(k).raises
  }

  function DecisionsOf(s: LoopState): seq<Decision> {
    if s.permission.Some? then s.permission.value.decisions else []
  }

  function RunTools(c: Config, s: LoopState, i: Input): LoopState {
    var calls, ds := LatestCalls(s.messages), DecisionsOf(s);
    var executed := s.(executions := s.executions + CountExecutions(c, ds, calls, i.tool));
    if SomeRaise(c, ds, calls, i.tool) then executed.(at := Aborted)
    else executed.(messages := s.messages + ToolMessages(c, ds, calls, i.tool), at := RecordToolMessages)
  }

  function RunRecord(c: Config, s: LoopState): LoopState {
    var latest := LatestTools(s.messages);
    var argumentErrors := CountOutcome(latest, ArgumentError);
    var rounds := s.argumentErrorRounds + (if argumentErrors > 0 then 1 else 0);
    var failures := s.failures + CountOutcome(latest, ExecutionError);
    var counted := s.(toolCalls := s.toolCalls + |latest|, failures := failures,
                      argumentErrorRounds := rounds, at := IncrementLoop);
    if argumentErrors > 0 && rounds > c.policy.maxArgumentCorrections then counted.(stop := Some(ToolArgumentError))
    else if failures >= c.policy.maxFailures then counted.(stop := Some(RepeatedFailure))
    else counted
  }

  function RunIncrement(c: Config, s: LoopState, i: Input): LoopState {
    var limit := LoopStepLimit(c, s.loopIndex + 1, i.elapsed);
    var next := s.(loopIndex := s.loopIndex + 1, permission := None, stop := if limit.Some? then limit else s.stop);
    next.(at := RouteLoopLimit(next))
  }

  function Step(c: Config, s: LoopState, i: Input): LoopState {
    match s.at
    case CallModel => RunCallModel(c, s, i)
    case CheckPermission => RunCheckPermission(c, s, i)
    case AwaitApproval(_) => RunApproval(c, s, i)
    case AwaitUserInput => RunUserInput(s)
    case RejectTool => RunReject(s)
    case Tools => RunTools(c, s, i)
    case RecordToolMessages => RunRecord(c, s)
    case IncrementLoop => RunIncrement(c, s, i)
    case MaxLoops => s.(stop := Some(BudgetExhausted), at := End)
    case End => s
    case Aborted => s
  }

  function Run(c: Config, s: LoopState, inputs: seq<Input>): LoopState
    decreases |inputs|
  {
    if inputs == [] then s else Run(c, Step(c, s, inputs[0]), inputs[1..])
  }

  /** `build_initial_state`, with any history before the user's message. */
  function InitialState(c: Config, history: seq<Message>): LoopState {
    LoopState(CallModel, 1, c.policy.maxLoopSteps, 0, 0, 0, 0, None, None, history + [Other], None, None, 0, 0, [])
  }

  predicate Ended(s: LoopState) {
    s.at.End? || s.at.Aborted?
  }

  // ----- invariant -------------------------------------------------------------------------

  /** The decision lets its call run: allowed, or approved by the operator in this very turn. */
  predicate Permitted(s: LoopState, d: Decision) {
    d.status == IsAllowed
    || (d.status == IsApprovalRequired && Answer(s.loopIndex, d.call, true) in s.answers)
  }

  /** The model has just asked for tools. */
  ghost predicate EndsWithCalls(messages: seq<Message>) {
    messages != [] && messages[|messages| - 1].Ai? && messages[|messages| - 1].calls != []
  }

  /** The decision says what the gate said, or that the ledger blocks the call. */
  ghost predicate DecidedByGate(c: Config, d: Decision) {
    c.gate.Some? ==>
      && (d.status == IsAllowed ==> c.gate.value(d.call) == Allow)
      && (d.status == IsApprovalRequired ==> c.gate.value(d.call) == NeedsApproval)
      && (d.status == IsDenied ==>
            c.gate.value(d.call) == Deny || (d.reference.Some? && d.reference.value.blocked))
  }

  /** The gate itself lets the call run: it allows it, or the operator approved it in this very turn. */
  ghost predicate GateLets(c: Config, s: LoopState, call: Call) {
    c.gate.Some? ==>
      || c.gate.value(call) == Allow
      || (c.gate.value(call) == NeedsApproval && Answer(s.loopIndex, call, true) in s.answers)
  }

  /** The permission on record is about the calls of the latest model message. */
  ghost predicate AboutThisTurn(c: Config, s: LoopState) {
    && s.permission.Some?
    && var p := s.permission.value;
       && p.calls == LatestCalls(s.messages) && EndsWithCalls(s.messages)
       && |p.decisions| == |p.calls|
       && (forall k :: 0 <= k < |p.calls| ==> p.decisions[k].call == p.calls[k])
       && (forall k :: 0 <= k < |p.calls| ==> DecidedByGate(c, p.decisions[k]))
       && (forall k :: 0 <= k < |p.calls| && p.decisions[k].status == IsDenied && c.gate.None? ==>
             c.hasRecorder && p.decisions[k].reference.Some? && p.decisions[k].reference.value.blocked)
       && (forall k :: 0 <= k < |p.calls| && p.decisions[k].status != IsDenied && p.decisions[k].reference.Some? ==>
             !p.decisions[k].reference.value.blocked)
       && s.toolCalls + |p.calls| <= c.policy.maxToolCalls
  }

  ghost predicate ApprovedSoFar(s: LoopState, asked: nat) {
    && s.permission.Some?
    && var asks := ToApprove(s.permission.value.decisions);
       && asked <= |asks|
       && forall k :: 0 <= k < asked ==> Answer(s.loopIndex, asks[k].call, true) in s.answers
  }

  /** With a gate, nothing denied gets past the permission node. */
  ghost predicate NoneDenied(c: Config, s: LoopState) {
    c.gate.Some? ==> !HasStatus(DecisionsOf(s), IsDenied)
  }

  /** What holds before each node runs. */
  ghost predicate AtNode(c: Config, s: LoopState) {
    match s.at
    case CallModel => s.permission.None? && s.stop.None? && s.finalAnswer.None?
    case CheckPermission =>
      s.permission.None? && s.stop.None? && s.finalAnswer.None? && EndsWithCalls(s.messages)
    case AwaitApproval(asked) =>
      && s.stop == Some(ApprovalRequired) && s.finalAnswer.None?
      && AboutThisTurn(c, s) && NoneDenied(c, s) && c.gate.Some?
      && ApprovedSoFar(s, asked) && asked < |ToApprove(DecisionsOf(s))|
    case AwaitUserInput =>
      s.stop == Some(InputRequired) && s.finalAnswer.None?
    case RejectTool => s.stop.None? && s.finalAnswer.None?
    case Tools =>
      && s.stop.None? && s.finalAnswer.None?
      && AboutThisTurn(c, s) && NoneDenied(c, s)
      && forall k :: 0 <= k < |DecisionsOf(s)| ==>
           Permitted(s, DecisionsOf(s)[k]) || (c.gate.None? && DecisionsOf(s)[k].status == IsDenied)
    case RecordToolMessages =>
      && s.stop.None? && s.finalAnswer.None?
      && s.toolCalls + |LatestTools(s.messages)| <= c.policy.maxToolCalls
      && s.executions <= s.toolCalls + |LatestTools(s.messages)|
    case IncrementLoop =>
      s.finalAnswer.None? && (s.stop.None? || s.stop.value in {ToolArgumentError, RepeatedFailure})
    case MaxLoops => false
    case End =>
      && s.stop.Some? && s.stop.value !in {InputRequired, ApprovalRequired}
      && (s.finalAnswer.Some? <==> s.stop.value in {Completed, PolicyBlocked})
    case Aborted => s.finalAnswer.None?
  }

  ghost predicate BudgetsOk(c: Config, s: LoopState) {
    && s.modelCalls <= s.invocations <= c.policy.maxModelCalls
    && s.toolCalls <= c.policy.maxToolCalls
    && s.executions <= c.policy.maxToolCalls
    && (!Ended(s) ==> s.invocations == s.modelCalls)
    && (!Ended(s) && !s.at.RecordToolMessages? ==> s.executions <= s.toolCalls)
    && 1 <= s.loopIndex
    && (!Ended(s) ==> s.loopIndex <= c.policy.maxLoopSteps)
    && (!Ended(s) && (s.at.IncrementLoop? ==> s.stop.None?) ==>
          s.failures < c.policy.maxFailures && s.argumentErrorRounds <= c.policy.maxArgumentCorrections)
  }

  ghost predicate LoopInv(c: Config, s: LoopState) {
    PolicyOk(c.policy) && s.maxLoops == c.policy.maxLoopSteps && BudgetsOk(c, s) && AtNode(c, s)
  }

  // ----- message lemmas --------------------------------------------------------------------

  lemma {:induction false} ToolBlockIsLatest(messages: seq<Message>, block: seq<Message>)
    requires messages != [] && !messages[|messages| - 1].Tool?
    requires forall k :: 0 <= k < |block| ==> block[k].Tool?
    ensures TrailingTools(messages + block) == block
    decreases |block|
  {
    if block == [] {
      assert messages + block == messages;
    } else {
      var last := |block| - 1;
      assert (messages + block)[..|messages + block| - 1] == messages + block[..last];
      ToolBlockIsLatest(messages, block[..last]);
    }
  }

  lemma {:induction false} ToApproveCovers(ds: seq<Decision>, k: nat) returns (j: nat)
    requires k < |ds| && ds[k].status == IsApprovalRequired
    ensures j < |ToApprove(ds)| && ToApprove(ds)[j] == ds[k]
  {
    if k == 0 {
      j := 0;
    } else {
      var j' := ToApproveCovers(ds[1..], k - 1);
      j := if ds[0].status == IsApprovalRequired then j' + 1 else j';
    }
  }

  lemma {:induction false} ToApproveIsBounded(ds: seq<Decision>)
    ensures |ToApprove(ds)| <= |ds|
  {
    if ds != [] {
      ToApproveIsBounded(ds[1..]);
    }
  }

  // ----- every node keeps the invariant ----------------------------------------------------

  lemma CallModelKeeps(c: Config, s: LoopState, i: Input)
    requires LoopInv(c, s) && s.at.CallModel?
    ensures LoopInv(c, RunCallModel(c, s, i))
  {
  }

  lemma CheckPermissionKeeps(c: Config, s: LoopState, i: Input)
    requires LoopInv(c, s) && s.at.CheckPermission?
    ensures LoopInv(c, RunCheckPermission(c, s, i))
  {
    var next := RunCheckPermission(c, s, i);
    if next.at.AwaitApproval? {
      JudgedIsAboutTurn(c, s, i);
      var ds := DecisionsOf(next);
      var k :| 0 <= k < |ds| && ds[k].status == IsApprovalRequired;
      var j := ToApproveCovers(ds, k);
    } else if next.at.Tools? {
      JudgedIsAboutTurn(c, s, i);
    }
  }

  /** A permission that lets the turn go on is about exactly its calls, and fits the tool budget. */
  lemma JudgedIsAboutTurn(c: Config, s: LoopState, i: Input)
    requires LoopInv(c, s) && s.at.CheckPermission?
    requires var next := RunCheckPermission(c, s, i); next.at.AwaitApproval? || next.at.Tools?
    ensures AboutThisTurn(c, RunCheckPermission(c, s, i))
  {
  }

  lemma ApprovalKeeps(c: Config, s: LoopState, i: Input)
    requires LoopInv(c, s) && s.at.AwaitApproval?
    ensures LoopInv(c, RunApproval(c, s, i))
  {
    var next := RunApproval(c, s, i);
    if next.at.Tools? {
      AllApproved(c, s, next);
    }
  }

  /** The last approval makes every decision of the turn permitted. */
  lemma AllApproved(c: Config, s: LoopState, next: LoopState)
    requires LoopInv(c, s) && s.at.AwaitApproval?
    requires next.loopIndex == s.loopIndex && next.permission == s.permission
    requires ApprovedSoFar(next, |ToApprove(DecisionsOf(s))|)
    ensures forall k :: 0 <= k < |DecisionsOf(next)| ==> Permitted(next, DecisionsOf(next)[k])
  {
    var ds := DecisionsOf(s);
    forall k | 0 <= k < |ds|
      ensures Permitted(next, ds[k])
    {
      if ds[k].status == IsApprovalRequired {
        var j := ToApproveCovers(ds, k);
      }
    }
  }

  lemma ToolsKeep(c: Config, s: LoopState, i: Input)
    requires LoopInv(c, s) && s.at.Tools?
    ensures LoopInv(c, RunTools(c, s, i))
  {
    var calls, ds := LatestCalls(s.messages), DecisionsOf(s);
    var block := ToolMessages(c, ds, calls, i.tool);
    ToolBlockIsLatest(s.messages, block);
    assert LatestTools(s.messages + block) == block;
  }

  /** Every node keeps the invariant, for every input. */
  lemma StepKeepsLoopInv(c: Config, s: LoopState, i: Input)
    requires LoopInv(c, s)
    ensures LoopInv(c, Step(c, s, i))
  {
    match s.at
    case CallModel => CallModelKeeps(c, s, i);
    case CheckPermission => CheckPermissionKeeps(c, s, i);
    case AwaitApproval(_) => ApprovalKeeps(c, s, i);
    case Tools => ToolsKeep(c, s, i);
    case _ =>
  }

  lemma {:induction false} RunKeepsLoopInv(c: Config, s: LoopState, inputs: seq<Input>)
    requires LoopInv(c, s)
    ensures LoopInv(c, Run(c, s, inputs))
    decreases |inputs|
  {
    if inputs != [] {
      StepKeepsLoopInv(c, s, inputs[0]);
      RunKeepsLoopInv(c, Step(c, s, inputs[0]), inputs[1..]);
    }
  }

  // ----- termination -----------------------------------------------------------------------

  /** Nodes still ahead in this loop step; the approval node counts one per question left. */
  function Rank(c: Config, s: LoopState): nat {
    match s.at
    case CallModel => 6 + c.policy.maxToolCalls
    case CheckPermission => 5 + c.policy.maxToolCalls
    case AwaitApproval(asked) =>
      var asks := |ToApprove(DecisionsOf(s))|;
      4 + if asked <= asks then asks - asked else 0
    case Tools => 3
    case RecordToolMessages => 2
    case AwaitUserInput => 2
    case _ => 1
  }

  /** `n` loop steps of `width` nodes each. */
  function Ahead(n: nat, width: nat): nat {
    if n == 0 then 0 else width + Ahead(n - 1, width)
  }

  lemma {:induction false} AheadIsProduct(n: nat, width: nat)
    ensures Ahead(n, width) == n * width
  {
    if n > 0 {
      AheadIsProduct(n - 1, width);
      assert (n - 1) * width + width == n * width;
    }
  }

  /** Loop steps left, then nodes left in this one. */
  function Measure(c: Config, s: LoopState): nat {
    if Ended(s) || s.loopIndex > c.policy.maxLoopSteps then 0
    else Ahead(c.policy.maxLoopSteps - s.loopIndex, 7 + c.policy.maxToolCalls) + Rank(c, s)
  }

  lemma ApprovalsFitTheBudget(c: Config, s: LoopState)
    requires LoopInv(c, s) && s.at.AwaitApproval?
    ensures Rank(c, s) <= 4 + c.policy.maxToolCalls
  {
    ToApproveIsBounded(DecisionsOf(s));
  }

  lemma StaysInLoop(c: Config, s: LoopState, next: LoopState)
    requires !Ended(s) && s.loopIndex <= c.policy.maxLoopSteps && next.loopIndex == s.loopIndex
    requires Ended(next) || Rank(c, next) < Rank(c, s)
    ensures Measure(c, next) < Measure(c, s)
  {
  }

  lemma NextLoop(c: Config, s: LoopState, next: LoopState)
    requires s.at.IncrementLoop? && s.loopIndex <= c.policy.maxLoopSteps
    requires next.loopIndex == s.loopIndex + 1 && (Ended(next) || next.at.CallModel?)
    ensures Measure(c, next) < Measure(c, s)
  {
  }

  /** Every step of a run that has not ended brings its end nearer. */
  lemma StepDecreasesMeasure(c: Config, s: LoopState, i: Input)
    requires LoopInv(c, s) && !Ended(s)
    ensures Measure(c, Step(c, s, i)) < Measure(c, s)
  {
    var next := Step(c, s, i);
    StepKeepsLoopInv(c, s, i);
    if s.at.IncrementLoop? {
      NextLoop(c, s, next);
    } else {
      if next.at.AwaitApproval? {
        ApprovalsFitTheBudget(c, next);
      }
      StaysInLoop(c, s, next);
    }
  }

  lemma {:induction false} RunEndsWithinMeasure(c: Config, s: LoopState, inputs: seq<Input>)
    requires LoopInv(c, s) && |inputs| >= Measure(c, s)
    ensures Ended(Run(c, s, inputs))
    decreases |inputs|
  {
    if Ended(s) {
      EndedStays(c, s, inputs);
    } else {
      StepDecreasesMeasure(c, s, inputs[0]);
      StepKeepsLoopInv(c, s, inputs[0]);
      RunEndsWithinMeasure(c, Step(c, s, inputs[0]), inputs[1..]);
    }
  }

  lemma {:induction false} EndedStays(c: Config, s: LoopState, inputs: seq<Input>)
    requires Ended(s)
    ensures Run(c, s, inputs) == s
    decreases |inputs|
  {
    if inputs != [] {
      EndedStays(c, s, inputs[1..]);
    }
  }

  // ----- every run -------------------------------------------------------------------------

  lemma InitialLoopInv(c: Config, history: seq<Message>)
    requires PolicyOk(c.policy)
    ensures LoopInv(c, InitialState(c, history))
  {
  }

  /** Every run, pauses and resumes included, ends within a number of nodes the policy fixes. */
  lemma EveryRunEnds(c: Config, history: seq<Message>, inputs: seq<Input>)
    requires PolicyOk(c.policy)
    requires |inputs| >= c.policy.maxLoopSteps * (7 + c.policy.maxToolCalls)
    ensures Ended(Run(c, InitialState(c, history), inputs))
  {
    AheadIsProduct(c.policy.maxLoopSteps, 7 + c.policy.maxToolCalls);
    RunEndsAhead(c, history, inputs);
  }

  lemma RunEndsAhead(c: Config, history: seq<Message>, inputs: seq<Input>)
    requires PolicyOk(c.policy) && |inputs| >= Ahead(c.policy.maxLoopSteps, 7 + c.policy.maxToolCalls)
    ensures Ended(Run(c, InitialState(c, history), inputs))
  {
    InitialLoopInv(c, history);
    InitialMeasure(c, history);
    RunEndsWithinMeasure(c, InitialState(c, history), inputs);
  }

  lemma InitialMeasure(c: Config, history: seq<Message>)
    requires PolicyOk(c.policy)
    ensures Measure(c, InitialState(c, history)) < Ahead(c.policy.maxLoopSteps, 7 + c.policy.maxToolCalls)
  {
  }

  /** No run sends more model requests or executes more tools than the policy allows. */
  lemma BudgetsHold(c: Config, history: seq<Message>, inputs: seq<Input>)
    requires PolicyOk(c.policy)
    ensures var s := Run(c, InitialState(c, history), inputs);
            && s.invocations <= c.policy.maxModelCalls
            && s.executions <= c.policy.maxToolCalls
            && s.modelCalls <= s.invocations && s.toolCalls <= c.policy.maxToolCalls
  {
    InitialLoopInv(c, history);
    RunKeepsLoopInv(c, InitialState(c, history), inputs);
  }

  /** The model is asked only while every budget lasts: calls, loop steps, failures and argument corrections. */
  lemma ModelIsAskedWithinBudgets(c: Config, history: seq<Message>, inputs: seq<Input>, i: Input)
    requires PolicyOk(c.policy)
    ensures var s := Run(c, InitialState(c, history), inputs);
            Step(c, s, i).invocations != s.invocations ==>
              && s.at.CallModel? && Step(c, s, i).invocations == s.invocations + 1
              && !i.canceled && !i.elapsed
              && s.invocations < c.policy.maxModelCalls && s.loopIndex <= c.policy.maxLoopSteps
              && s.failures < c.policy.maxFailures && s.argumentErrorRounds <= c.policy.maxArgumentCorrections
  {
    InitialLoopInv(c, history);
    RunKeepsLoopInv(c, InitialState(c, history), inputs);
  }

  /** How many calls of a turn come back with this outcome. */
  function Outcomes(c: Config, ds: seq<Decision>, calls: seq<Call>, tool: nat -> ToolEvent, outcome: ToolOutcome): nat {
    CountOutcome(ToolMessages(c, ds, calls, tool), outcome)
  }

  /** Tools and their record node count a turn exactly: each call, each failure, and a round with bad arguments once. */
  lemma TurnIsCounted(c: Config, s: LoopState, i: Input)
    requires LoopInv(c, s) && s.at.Tools? && RunTools(c, s, i).at.RecordToolMessages?
    ensures var calls, ds := LatestCalls(s.messages), DecisionsOf(s);
            var r := RunRecord(c, RunTools(c, s, i));
            && r.toolCalls == s.toolCalls + |calls|
            && r.failures == s.failures + Outcomes(c, ds, calls, i.tool, ExecutionError)
            && r.argumentErrorRounds
               == s.argumentErrorRounds + (if Outcomes(c, ds, calls, i.tool, ArgumentError) > 0 then 1 else 0)
            && (r.stop.Some? <==>
                  r.failures >= c.policy.maxFailures || r.argumentErrorRounds > c.policy.maxArgumentCorrections)
  {
    var calls, ds := LatestCalls(s.messages), DecisionsOf(s);
    var block := ToolMessages(c, ds, calls, i.tool);
    ToolBlockIsLatest(s.messages, block);
    assert LatestTools(s.messages + block) == block;
  }

  /** The only final answers are the model's own text, in a reply without calls, and the policy's refusal. */
  lemma FinalAnswerIsTheModels(c: Config, s: LoopState, i: Input)
    requires LoopInv(c, s) && !Ended(s) && Step(c, s, i).finalAnswer.Some?
    ensures Step(c, s, i).at.End?
    ensures s.at.RejectTool? || (s.at.CallModel? && i.reply.Reply? && i.reply.calls == [] && !i.reply.declaresCall
                                 && Step(c, s, i).finalAnswer == Some(i.reply.content))
  {
  }

  /**
  A run that reaches the end of the graph has a stop reason that is not a pause, and a final answer
  exactly when it completed or was blocked; a paused run says which answer it waits for.
  */
  lemma EndsWithReason(c: Config, history: seq<Message>, inputs: seq<Input>)
    requires PolicyOk(c.policy)
    ensures var s := Run(c, InitialState(c, history), inputs);
            && (s.at.End? ==>
                  && s.stop.Some? && s.stop.value !in {InputRequired, ApprovalRequired}
                  && (s.finalAnswer.Some? <==> s.stop.value in {Completed, PolicyBlocked}))
            && (s.at.AwaitApproval? ==> s.stop == Some(ApprovalRequired))
            && (s.at.AwaitUserInput? ==> s.stop == Some(InputRequired))
  {
    InitialLoopInv(c, history);
    RunKeepsLoopInv(c, InitialState(c, history), inputs);
  }

  /** The `max_loops` node is dead: the loop-step limit always stops the run first. */
  lemma MaxLoopsIsUnreachable(c: Config, history: seq<Message>, inputs: seq<Input>)
    requires PolicyOk(c.policy)
    ensures !Run(c, InitialState(c, history), inputs).at.MaxLoops?
  {
    InitialLoopInv(c, history);
    RunKeepsLoopInv(c, InitialState(c, history), inputs);
  }

  // ----- permission ------------------------------------------------------------------------

  /** The permission node found a call that the ledger will not replay. */
  ghost predicate SomeReplayBlocked(s: LoopState) {
    exists k :: 0 <= k < |DecisionsOf(s)|
      && DecisionsOf(s)[k].reference.Some? && DecisionsOf(s)[k].reference.value.blocked
  }

  /**
  Whenever the tools node is reached, the permission on record is about the calls of this turn, and
  every one of them was allowed, or approved by name in this same turn, if and only if none of them is
  a replay that the ledger blocks. With a permission gate that is always so, and it is the gate's own
  verdict on each call, or the operator's yes to it, that lets it through.
  */
  lemma ToolsNodeIsPermitted(c: Config, history: seq<Message>, inputs: seq<Input>)
    requires PolicyOk(c.policy)
    requires Run(c, InitialState(c, history), inputs).at.Tools?
    ensures var s := Run(c, InitialState(c, history), inputs);
            && AboutThisTurn(c, s)
            && ((forall k :: 0 <= k < |DecisionsOf(s)| ==> Permitted(s, DecisionsOf(s)[k])) <==> !SomeReplayBlocked(s))
            && (c.gate.Some? ==> !SomeReplayBlocked(s))
            && (forall k :: 0 <= k < |LatestCalls(s.messages)| ==> GateLets(c, s, LatestCalls(s.messages)[k]))
  {
    InitialLoopInv(c, history);
    RunKeepsLoopInv(c, InitialState(c, history), inputs);
    var s := Run(c, InitialState(c, history), inputs);
    var ds := DecisionsOf(s);
    if SomeReplayBlocked(s) {
      var k :| 0 <= k < |ds| && ds[k].reference.Some? && ds[k].reference.value.blocked;
      assert ds[k].status == IsDenied && !Permitted(s, ds[k]);
      assert c.gate.None?;
    } else {
      forall k | 0 <= k < |ds|
        ensures Permitted(s, ds[k])
      {
      }
    }
    forall k | 0 <= k < |LatestCalls(s.messages)|
      ensures GateLets(c, s, LatestCalls(s.messages)[k])
    {
      assert ds[k].call == LatestCalls(s.messages)[k] && DecidedByGate(c, ds[k]);
    }
  }

  ghost predicate DistinctCalls(calls: seq<Call>) {
    forall j, k :: 0 <= j < k < |calls| ==> !SameCall(calls[j], calls[k])
  }

  lemma {:induction false} ReferenceIsOwn(ds: seq<Decision>, k: nat)
    requires k < |ds| && ds[k].reference.Some?
    requires forall j :: 0 <= j < k ==> !SameCall(ds[j].call, ds[k].call)
    ensures ReferenceFor(ds, ds[k].call) == ds[k].reference
  {
    if k > 0 {
      ReferenceIsOwn(ds[1..], k - 1);
    }
  }

  /**
  What the tools node really executes was allowed or approved in this turn: always with a gate, and
  without one as long as no two calls of the turn are the same call.
  */
  lemma ExecutedCallsWerePermitted(c: Config, history: seq<Message>, inputs: seq<Input>, k: nat, e: ToolEvent)
    requires PolicyOk(c.policy)
    requires var s := Run(c, InitialState(c, history), inputs);
             && s.at.Tools? && k < |LatestCalls(s.messages)|
             && Executes(c, DecisionsOf(s), LatestCalls(s.messages)[k], e)
             && (c.gate.Some? || DistinctCalls(LatestCalls(s.messages)))
    ensures var s := Run(c, InitialState(c, history), inputs);
            && k < |DecisionsOf(s)| && DecisionsOf(s)[k].call == LatestCalls(s.messages)[k]
            && Permitted(s, DecisionsOf(s)[k]) && GateLets(c, s, LatestCalls(s.messages)[k])
  {
    InitialLoopInv(c, history);
    RunKeepsLoopInv(c, InitialState(c, history), inputs);
    var s := Run(c, InitialState(c, history), inputs);
    var ds := DecisionsOf(s);
    assert ds[k].call == LatestCalls(s.messages)[k] && DecidedByGate(c, ds[k]);
    if ds[k].status == IsDenied {
      assert c.gate.None?;
      forall j | 0 <= j < k
        ensures !SameCall(ds[j].call, ds[k].call)
      {
        assert ds[j].call == LatestCalls(s.messages)[j];
      }
      ReferenceIsOwn(ds, k);
      assert false;
    }
  }

  lemma {:induction false} SomeReferenceIsFound(ds: seq<Decision>, k: nat)
    requires k < |ds| && ds[k].reference.Some?
    ensures ReferenceFor(ds, ds[k].call).Some?
  {
    if k > 0 {
      SomeReferenceIsFound(ds[1..], k - 1);
    }
  }

  /**
  ... and exactly this can go wrong: at the tools node a call that is not permitted can be executed if
  and only if the first decision that matches it, and carries a reference, is not itself blocked.
  */
  lemma DeniedCallCanExecuteIff(c: Config, history: seq<Message>, inputs: seq<Input>, k: nat)
    requires PolicyOk(c.policy)
    requires var s := Run(c, InitialState(c, history), inputs);
             s.at.Tools? && k < |DecisionsOf(s)| && !Permitted(s, DecisionsOf(s)[k])
    ensures var s := Run(c, InitialState(c, history), inputs);
            var ds := DecisionsOf(s);
            && ReferenceFor(ds, ds[k].call).Some?
            && ((exists e :: Executes(c, ds, ds[k].call, e)) <==> !ReferenceFor(ds, ds[k].call).value.blocked)
  {
    InitialLoopInv(c, history);
    RunKeepsLoopInv(c, InitialState(c, history), inputs);
    var ds := DecisionsOf(Run(c, InitialState(c, history), inputs));
    assert ds[k].status == IsDenied;
    SomeReferenceIsFound(ds, k);
    if !ReferenceFor(ds, ds[k].call).value.blocked {
      assert Executes(c, ds, ds[k].call, ToolEvent(false, None, false, true, Success, false));
    }
  }

  /** Some call whose replay is blocked would be executed under the unblocked reference of another call. */
  ghost predicate BorrowsReference(ds: seq<Decision>) {
    exists k :: 0 <= k < |ds| && ds[k].reference.Some? && ds[k].reference.value.blocked
      && ReferenceFor(ds, ds[k].call).Some? && !ReferenceFor(ds, ds[k].call).value.blocked
  }

  /** For the whole turn: only permitted calls can be executed if and only if no blocked replay borrows a reference. */
  lemma OnlyPermittedExecuteIff(c: Config, history: seq<Message>, inputs: seq<Input>)
    requires PolicyOk(c.policy) && Run(c, InitialState(c, history), inputs).at.Tools?
    ensures var s := Run(c, InitialState(c, history), inputs);
            var ds := DecisionsOf(s);
            (forall k, e :: 0 <= k < |ds| && Executes(c, ds, ds[k].call, e) ==> Permitted(s, ds[k]))
            <==> !BorrowsReference(ds)
  {
    InitialLoopInv(c, history);
    RunKeepsLoopInv(c, InitialState(c, history), inputs);
    var s := Run(c, InitialState(c, history), inputs);
    var ds := DecisionsOf(s);
    forall k | 0 <= k < |ds| && !Permitted(s, ds[k])
      ensures ds[k].reference.Some? && ds[k].reference.value.blocked
      ensures (exists e :: Executes(c, ds, ds[k].call, e)) ==> BorrowsReference(ds)
    {
      DeniedCallCanExecuteIff(c, history, inputs, k);
    }
    if BorrowsReference(ds) {
      var k :| 0 <= k < |ds| && ds[k].reference.Some? && ds[k].reference.value.blocked
        && ReferenceFor(ds, ds[k].call).Some? && !ReferenceFor(ds, ds[k].call).value.blocked;
      assert !Permitted(s, ds[k]);
      DeniedCallCanExecuteIff(c, history, inputs, k);
    }
  }

  // ----- the counterexample without a gate -------------------------------------------------

  /** One model turn that asks for one call, and a ledger that answers "will not be replayed". */
  function ReplayedTurn(call: Call): Input {
    Input(false, false, false, false, Reply("", [call], false),
          n => Some(Reference("earlier", true)),
          n => ToolEvent(false, None, false, true, Success, false),
          false)
  }

  /** Without a gate a denied replay still reaches the tools node; the wrapper then refuses to execute it. */
  lemma UngatedReplayReachesTools(policy: Policy, call: Call)
    requires PolicyOk(policy) && policy.maxToolCalls >= 1 && call.name != REQUEST_USER_INPUT
    ensures var c := Config(policy, None, true);
            var i := ReplayedTurn(call);
            var s := Run(c, InitialState(c, []), [i, i]);
            && s.at.Tools? && DecisionsOf(s) == [Decision(IsDenied, call, Some(Reference("earlier", true)))]
            && !Executes(c, DecisionsOf(s), call, i.tool(0))
  {
    var c := Config(policy, None, true);
    var i := ReplayedTurn(call);
    var s0 := InitialState(c, []);
    var s1 := Step(c, s0, i);
    assert s1.messages == s0.messages + [Ai([call])] && LatestCalls(s1.messages) == [call];
    var s2 := Step(c, s1, i);
    assert DecisionsOf(s2) == [Decide(c, call, Some(Reference("earlier", true)))];
    TwoSteps(c, s0, i);
  }

  lemma TwoSteps(c: Config, s: LoopState, i: Input)
    ensures Run(c, s, [i, i]) == Step(c, Step(c, s, i), i)
  {
    assert [i, i][1..] == [i] && [i][1..] == [];
    assert Run(c, Step(c, s, i), [i]) == Run(c, Step(c, Step(c, s, i), i), []);
  }

  /** One model turn with two calls that match each other: the ledger prepares the first and blocks the second. */
  function SharedTurn(a: Call, b: Call): Input {
    Input(false, false, false, false, Reply("", [a, b], false),
          n => Some(Reference("shared", n != 0)),
          n => ToolEvent(false, None, false, true, Success, false),
          false)
  }

  /**
  Without a gate, two calls that match each other, for instance under one id, share the reference of
  the first: the second is executed although its own decision is a denied replay.
  */
  lemma SharedReferenceExecutesDenied(policy: Policy, a: Call, b: Call)
    requires PolicyOk(policy) && policy.maxToolCalls >= 2 && SameCall(a, b)
    requires a.name != REQUEST_USER_INPUT && b.name != REQUEST_USER_INPUT
    ensures var c := Config(policy, None, true);
            var i := SharedTurn(a, b);
            var s := Run(c, InitialState(c, []), [i, i]);
            && s.at.Tools? && |DecisionsOf(s)| == 2
            && DecisionsOf(s)[1] == Decision(IsDenied, b, Some(Reference("shared", true)))
            && !Permitted(s, DecisionsOf(s)[1])
            && Executes(c, DecisionsOf(s), b, i.tool(1))
  {
    var c := Config(policy, None, true);
    var i := SharedTurn(a, b);
    var s0 := InitialState(c, []);
    var s1 := Step(c, s0, i);
    assert s1.messages == s0.messages + [Ai([a, b])] && LatestCalls(s1.messages) == [a, b];
    var s2 := Step(c, s1, i);
    TwoSteps(c, s0, i);
    var ds := DecisionsOf(s2);
    assert ds[0] == Decide(c, a, Some(Reference("shared", false)));
    assert ds[1] == Decide(c, b, Some(Reference("shared", true)));
    assert ReferenceFor(ds, b) == ds[0].reference;
  }
}

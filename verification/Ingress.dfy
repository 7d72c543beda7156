/**
Message admission: the durable ingress row of every top-level message, the one caller that may route
it, and the outcome that a replay of the same message returns, under every interleaving of callers
and with a crash at any point.
*/
module Ingress {
  import opened Prelude

  /** Identifiers: chosen by a client, or drawn fresh by the core. */
  datatype Id = Given(name: string) | Fresh(serial: nat)

  type ContextId = string
  type Fingerprint = string

  datatype RouteKind = LocalMessage | LocalTask | RemoteAgent

  datatype IngressState = InProgress | Resolved | Failed

  datatype OutcomeKind = MessageOutcome | TaskOutcome | DelegationOutcome

  datatype Row = Row(
    context: ContextId,
    fingerprint: Fingerprint,
    state: IngressState,
    decision: Option<Id>,
    outcome: Option<(OutcomeKind, Id)>
  )

  datatype Decision = Decision(context: ContextId, message: Id, kind: RouteKind)

  /** A delegation ended with a message or proxies a remote task. */
  datatype Delegation = DelegatedMessage(message: Id) | DelegatedTask(task: Id)

  /** The identity of a result, as the original caller and every replay see it. */
  datatype Outcome =
    | LocalMessageResult(context: ContextId, input: Id, decision: Id, message: Id)
    | LocalTaskResult(context: ContextId, input: Id, decision: Id, task: Id)
    | RemoteMessageResult(context: ContextId, input: Id, decision: Id, delegation: Id, message: Id)
    | RemoteTaskResult(context: ContextId, input: Id, decision: Id, delegation: Id, task: Id)

  /** How far the owner of a message has come. */
  datatype Phase = Owner | Routed(kind: RouteKind) | Recorded(kind: RouteKind, decision: Id)

  datatype Caller = Caller(message: Id, phase: Phase)

  datatype State = State(
    // durable
    ingress: map<Id, Row>,
    messages: map<Id, ContextId>,
    decisions: map<Id, Decision>,
    delegations: map<Id, Delegation>,
    tasks: set<Id>,
    nextSerial: nat,
    // process-local
    callers: map<nat, Caller>,
    serving: bool,
    // history
    owned: seq<Id>,                  // admissions that made their caller the owner
    returned: set<(Id, Outcome)>     // results handed to callers, first time or replayed
  )

  datatype Op =
    | Admit(caller: nat, message: Option<Id>, context: Option<ContextId>, created: ContextId, fingerprint: Fingerprint)
    | Route(caller: nat, kind: RouteKind)
    | RecordRoute(caller: nat)
    | AnswerMessage(caller: nat)
    | AcceptTask(caller: nat)
    | Delegate(caller: nat, answersMessage: bool)
    | AcceptRetry(home: ContextId, fingerprint: Fingerprint)
    | Fail(caller: nat)
    | Crash
    | Reconcile

  // ----- replay ----------------------------------------------------------------------------

  /** `_result_from_message_ingress`: every check of a resolved row, in order. */
  function ResultOf(s: State, m: Id, row: Row): Result<Outcome> {
    if row.decision.None? || row.outcome.None? then Raised
    else
      var d, (kind, id) := row.decision.value, row.outcome.value;
      if d !in s.decisions then Raised
      else if s.decisions[d].context != row.context || s.decisions[d].message != m then Raised
      else match s.decisions[d].kind
        case LocalMessage =>
          if kind != MessageOutcome || id !in s.messages then Raised
          else Ok(LocalMessageResult(row.context, m, d, id))
        case LocalTask =>
          if kind != TaskOutcome || id !in s.tasks then Raised
          else Ok(LocalTaskResult(row.context, m, d, id))
        case RemoteAgent =>
          if kind != DelegationOutcome || id !in s.delegations then Raised
          else match s.delegations[id]
            case DelegatedMessage(message) =>
              if message !in s.messages then Raised else Ok(RemoteMessageResult(row.context, m, d, id, message))
            case DelegatedTask(task) =>
              if task !in s.tasks then Raised else Ok(RemoteTaskResult(row.context, m, d, id, task))
  }

  /** `_prepared_existing_message_ingress`; the failed and the in-progress state raise their own errors. */
  function Replay(s: State, m: Id, context: Option<ContextId>, fingerprint: Fingerprint): Result<Outcome>
    requires m in s.ingress
  {
    var row := s.ingress[m];
    if context.Some? && context.value != row.context then Raised
    else if fingerprint != row.fingerprint then Raised
    else if m !in s.messages || s.messages[m] != row.context then Raised
    else if row.state == Resolved then ResultOf(s, m, row)
    else Raised
  }

  // ----- steps -----------------------------------------------------------------------------

  /** The id of an admitted message: the client's, be it its own or one drawn for it before, or a fresh one. */
  function MessageId(s: State, message: Option<Id>): Id {
    if message.Some? then message.value else Fresh(s.nextSerial)
  }

  function DoAdmit(s: State, c: nat, message: Option<Id>, context: Option<ContextId>, created: ContextId,
                   fp: Fingerprint): State
  {
    var m := MessageId(s, message);
    if !s.serving || c in s.callers || (message.Some? && !Drawn(s, m)) then s
    else if m in s.ingress then
      match Replay(s, m, context, fp)
      case Raised => s
      case Ok(outcome) => s.(returned := s.returned + {(m, outcome)})
    else if m in s.messages then s
    else Reserve(s, c, m, if context.Some? then context.value else created, fp)
  }

  /** Message and ingress row are inserted together; their caller becomes the owner. */
  function Reserve(s: State, c: nat, m: Id, home: ContextId, fp: Fingerprint): State {
    s.(messages := s.messages[m := home],
       ingress := s.ingress[m := Row(home, fp, InProgress, None, None)],
       nextSerial := s.nextSerial + 1,
       callers := s.callers[c := Caller(m, Owner)],
       owned := s.owned + [m])
  }

  function DoRoute(s: State, c: nat, kind: RouteKind): State {
    if c !in s.callers || !s.callers[c].phase.Owner? then s
    else s.(callers := s.callers[c := s.callers[c].(phase := Routed(kind))])
  }

  predicate CanWrite(s: State, c: nat) {
    c in s.callers && s.callers[c].message in s.ingress && s.ingress[s.callers[c].message].state == InProgress
  }

  /** `_record_message_ingress_route`, for the two routes that do not accept a task. */
  function DoRecordRoute(s: State, c: nat): State {
    if !CanWrite(s, c) || !s.callers[c].phase.Routed? || s.callers[c].phase.kind == LocalTask then s
    else
      var m, kind, d := s.callers[c].message, s.callers[c].phase.kind, Fresh(s.nextSerial);
      s.(decisions := s.decisions[d := Decision(s.ingress[m].context, m, kind)],
         ingress := s.ingress[m := s.ingress[m].(decision := Some(d))],
         nextSerial := s.nextSerial + 1,
         callers := s.callers[c := Caller(m, Recorded(kind, d))])
  }

  /** `resolve_message_ingress` at the end of the owner's last transaction, and its return to the caller. */
  function Settle(s: State, c: nat, kind: OutcomeKind, id: Id, outcome: Outcome): State
    requires c in s.callers && s.callers[c].message in s.ingress
  {
    var m := s.callers[c].message;
    s.(ingress := s.ingress[m := s.ingress[m].(state := Resolved, outcome := Some((kind, id)))],
       callers := s.callers - {c},
       returned := s.returned + {(m, outcome)})
  }

  function DoAnswerMessage(s: State, c: nat): State {
    if !CanWrite(s, c) || !s.callers[c].phase.Recorded? || s.callers[c].phase.kind != LocalMessage then s
    else
      var m, answer := s.callers[c].message, Fresh(s.nextSerial);
      var context := s.ingress[m].context;
      var written := s.(messages := s.messages[answer := context], nextSerial := s.nextSerial + 1);
      Settle(written, c, MessageOutcome, answer, LocalMessageResult(context, m, s.callers[c].phase.decision, answer))
  }

  /** `accept_local_task_from_message`: decision, task and resolution commit together. */
  function DoAcceptTask(s: State, c: nat): State {
    if !CanWrite(s, c) || s.callers[c].phase != Routed(LocalTask) then s
    else
      var m, d, t := s.callers[c].message, Fresh(s.nextSerial), Fresh(s.nextSerial + 1);
      var row := s.ingress[m];
      var written := s.(decisions := s.decisions[d := Decision(row.context, m, LocalTask)],
                        tasks := s.tasks + {t},
                        ingress := s.ingress[m := row.(decision := Some(d))],
                        nextSerial := s.nextSerial + 2);
      Settle(written, c, TaskOutcome, t, LocalTaskResult(row.context, m, d, t))
  }

  function DoDelegate(s: State, c: nat, answersMessage: bool): State {
    if !CanWrite(s, c) || !s.callers[c].phase.Recorded? || s.callers[c].phase.kind != RemoteAgent then s
    else
      var m, d := s.callers[c].message, s.callers[c].phase.decision;
      var x, g := Fresh(s.nextSerial), Fresh(s.nextSerial + 1);
      var context := s.ingress[m].context;
      if answersMessage then
        Settle(WriteDelegatedMessage(s, x, g, context), c, DelegationOutcome, g,
               RemoteMessageResult(context, m, d, g, x))
      else
        Settle(WriteDelegatedTask(s, x, g), c, DelegationOutcome, g, RemoteTaskResult(context, m, d, g, x))
  }

  function WriteDelegatedMessage(s: State, x: Id, g: Id, context: ContextId): State {
    s.(messages := s.messages[x := context],
       delegations := s.delegations[g := DelegatedMessage(x)], nextSerial := s.nextSerial + 2)
  }

  function WriteDelegatedTask(s: State, x: Id, g: Id): State {
    s.(tasks := s.tasks + {x}, delegations := s.delegations[g := DelegatedTask(x)], nextSerial := s.nextSerial + 2)
  }

  /** A retry admits and resolves its own new message in the transaction that accepts the new task. */
  function DoAcceptRetry(s: State, context: ContextId, fp: Fingerprint): State {
    if !s.serving then s
    else
      var m, d, t := Fresh(s.nextSerial), Fresh(s.nextSerial + 1), Fresh(s.nextSerial + 2);
      s.(messages := s.messages[m := context],
         decisions := s.decisions[d := Decision(context, m, LocalTask)],
         tasks := s.tasks + {t},
         ingress := s.ingress[m := Row(context, fp, Resolved, Some(d), Some((TaskOutcome, t)))],
         nextSerial := s.nextSerial + 3,
         owned := s.owned + [m])
  }

  /** `fail_message_ingress`: a row that already left `in progress` stays as it is. */
  function FailRow(row: Row): Row {
    if row.state == InProgress then row.(state := Failed) else row
  }

  /** An exception, or an aborted stream, at any point of the owner's work. */
  function DoFail(s: State, c: nat): State {
    if c !in s.callers || s.callers[c].message !in s.ingress then s
    else
      var m := s.callers[c].message;
      s.(ingress := s.ingress[m := FailRow(s.ingress[m])], callers := s.callers - {c})
  }

  function DoCrash(s: State): State {
    s.(callers := map[], serving := false)
  }

  /** `fail_in_progress_message_ingresses` at startup, before requests are served. */
  function DoReconcile(s: State): State {
    if s.serving then s
    else s.(ingress := map m | m in s.ingress :: FailRow(s.ingress[m]), serving := true)
  }

  function Step(s: State, op: Op): State {
    match op
    case Admit(c, message, context, created, fp) => DoAdmit(s, c, message, context, created, fp)
    case Route(c, kind) => DoRoute(s, c, kind)
    case RecordRoute(c) => DoRecordRoute(s, c)
    case AnswerMessage(c) => DoAnswerMessage(s, c)
    case AcceptTask(c) => DoAcceptTask(s, c)
    case Delegate(c, answersMessage) => DoDelegate(s, c, answersMessage)
    case AcceptRetry(context, fp) => DoAcceptRetry(s, context, fp)
    case Fail(c) => DoFail(s, c)
    case Crash => DoCrash(s)
    case Reconcile => DoReconcile(s)
  }

  function Run(s: State, ops: seq<Op>): State
    decreases |ops|
  {
    if ops == [] then s else Run(Step(s, ops[0]), ops[1..])
  }

  const INITIAL := State(map[], map[], map[], map[], {}, 0, map[], true, [], {})

  // ----- invariant -------------------------------------------------------------------------

  predicate Drawn(s: State, id: Id) {
    id.Fresh? ==> id.serial < s.nextSerial
  }

  /** Ids in the tables were drawn before, so a fresh one collides with none. */
  ghost predicate IdsOk(s: State) {
    && (forall m :: m in s.messages ==> Drawn(s, m))
    && (forall d :: d in s.decisions ==> Drawn(s, d) && d.Fresh?)
    && (forall g :: g in s.delegations ==> Drawn(s, g) && g.Fresh?)
    && (forall m :: m in s.ingress ==> m in s.messages && s.messages[m] == s.ingress[m].context)
  }

  /** A resolved row always yields its result; an unresolved one has no outcome. */
  ghost predicate RowOk(s: State, m: Id)
    requires m in s.ingress
  {
    if s.ingress[m].state == Resolved then ResultOf(s, m, s.ingress[m]).Ok? else s.ingress[m].outcome.None?
  }

  /** Each caller owns the row of its message, alone, and while it is in progress. */
  ghost predicate CallerOk(s: State, c: nat)
    requires c in s.callers
  {
    var m := s.callers[c].message;
    && m in s.ingress && s.ingress[m].state == InProgress
    && (s.callers[c].phase.Recorded? ==>
          var d := s.callers[c].phase.decision;
          && s.ingress[m].decision == Some(d) && d in s.decisions
          && s.decisions[d] == Decision(s.ingress[m].context, m, s.callers[c].phase.kind))
  }

  ghost predicate CallersOk(s: State) {
    && (forall c :: c in s.callers ==> CallerOk(s, c))
    && (forall c, e :: c in s.callers && e in s.callers && c != e ==> s.callers[c].message != s.callers[e].message)
    && (!s.serving ==> s.callers == map[])
    && OwnersOk(s)
  }

  /** While requests are served, nothing in progress is abandoned. */
  ghost predicate OwnersOk(s: State) {
    s.serving ==> forall m :: m in s.ingress && s.ingress[m].state == InProgress ==> HasOwner(s, m)
  }

  ghost predicate HasOwner(s: State, m: Id) {
    exists c :: c in s.callers && s.callers[c].message == m
  }

  ghost predicate OwnedOk(s: State) {
    && NoDup(s.owned)
    && (forall m :: m in s.owned <==> m in s.ingress)
  }

  /** Whatever was ever returned for a message is what its row yields now. */
  ghost predicate ReturnedOk(s: State) {
    forall r :: r in s.returned ==>
      r.0 in s.ingress && s.ingress[r.0].state == Resolved && ResultOf(s, r.0, s.ingress[r.0]) == Ok(r.1)
  }

  ghost predicate Inv(s: State) {
    && IdsOk(s) && CallersOk(s) && OwnedOk(s) && ReturnedOk(s)
    && forall m :: m in s.ingress ==> RowOk(s, m)
  }

  /** Tables only grow. */
  ghost predicate Grows(s: State, s': State) {
    && (forall m :: m in s.messages ==> m in s'.messages && s'.messages[m] == s.messages[m])
    && (forall d :: d in s.decisions ==> d in s'.decisions && s'.decisions[d] == s.decisions[d])
    && (forall g :: g in s.delegations ==> g in s'.delegations && s'.delegations[g] == s.delegations[g])
    && s.tasks <= s'.tasks
  }

  /** A row that left `in progress` is never changed again. */
  ghost predicate Absorbs(s: State, s': State) {
    forall m :: m in s.ingress ==>
      m in s'.ingress && (s.ingress[m].state != InProgress ==> s'.ingress[m] == s.ingress[m])
  }

  lemma ResultIsStable(s: State, s': State, m: Id, row: Row)
    requires Grows(s, s') && ResultOf(s, m, row).Ok?
    ensures ResultOf(s', m, row) == ResultOf(s, m, row)
  {
  }

  lemma ReturnedStays(s: State, s': State)
    requires ReturnedOk(s) && Grows(s, s') && Absorbs(s, s') && s'.returned == s.returned
    ensures ReturnedOk(s')
  {
    forall r | r in s'.returned
      ensures r.0 in s'.ingress && s'.ingress[r.0].state == Resolved && ResultOf(s', r.0, s'.ingress[r.0]) == Ok(r.1)
    {
      ResultIsStable(s, s', r.0, s.ingress[r.0]);
    }
  }

  /** A row that did not change stays right under growing tables. */
  lemma RowStays(s: State, s': State, m: Id)
    requires Grows(s, s') && m in s.ingress && m in s'.ingress && RowOk(s, m)
    requires s'.ingress[m] == s.ingress[m]
    ensures RowOk(s', m)
  {
    if s.ingress[m].state == Resolved {
      ResultIsStable(s, s', m, s.ingress[m]);
    }
  }

  ghost predicate RowsOk(s: State) {
    forall m :: m in s.ingress ==> RowOk(s, m)
  }

  /** One row of `s'` is given as right, the others are those of `s`. */
  lemma RowsStay(s: State, s': State, m: Id)
    requires RowsOk(s) && Grows(s, s') && m in s'.ingress && RowOk(s', m)
    requires forall u :: u in s'.ingress && u != m ==> u in s.ingress && s'.ingress[u] == s.ingress[u]
    ensures RowsOk(s')
  {
    forall u | u in s'.ingress
      ensures RowOk(s', u)
    {
      if u != m {
        RowStays(s, s', u);
      }
    }
  }

  /** A caller that moves on, or leaves a row settled behind it, leaves the other owners in place. */
  lemma OwnersStay(s: State, s': State, c: nat)
    requires CallersOk(s) && c in s.callers && s'.serving == s.serving
    requires forall e :: e in s.callers && e != c ==> e in s'.callers && s'.callers[e] == s.callers[e]
    requires c in s'.callers ==> s'.callers[c].message == s.callers[c].message
    requires c !in s'.callers ==>
               s.callers[c].message in s'.ingress && s'.ingress[s.callers[c].message].state != InProgress
    requires forall m :: m in s'.ingress && s'.ingress[m].state == InProgress ==>
               m in s.ingress && s.ingress[m].state == InProgress
    ensures OwnersOk(s')
  {
    if s'.serving {
      forall m | m in s'.ingress && s'.ingress[m].state == InProgress
        ensures HasOwner(s', m)
      {
        assert HasOwner(s, m);
        var e :| e in s.callers && s.callers[e].message == m;
        assert e in s'.callers && s'.callers[e].message == m;
      }
    }
  }

  // ----- every step ------------------------------------------------------------------------

  lemma ReplayKeeps(s: State, m: Id, outcome: Outcome)
    requires Inv(s) && m in s.ingress && s.ingress[m].state == Resolved && ResultOf(s, m, s.ingress[m]) == Ok(outcome)
    ensures var s' := s.(returned := s.returned + {(m, outcome)}); Inv(s') && Grows(s, s') && Absorbs(s, s')
  {
    var s' := s.(returned := s.returned + {(m, outcome)});
    forall u | u in s'.ingress
      ensures RowOk(s', u)
    {
      RowStays(s, s', u);
    }
    assert forall c :: c in s'.callers ==> CallerOk(s, c) && CallerOk(s', c);
    ReturnedStays(s, s'.(returned := s.returned));
    ResultIsStable(s, s', m, s.ingress[m]);
    forall r | r in s'.returned
      ensures r.0 in s'.ingress && s'.ingress[r.0].state == Resolved && ResultOf(s', r.0, s'.ingress[r.0]) == Ok(r.1)
    {
      ResultIsStable(s, s', r.0, s.ingress[r.0]);
    }
  }

  lemma ReserveKeepsCallers(s: State, c: nat, m: Id, home: ContextId, fp: Fingerprint)
    requires CallersOk(s) && s.serving && c !in s.callers && m !in s.ingress
    ensures CallersOk(Reserve(s, c, m, home, fp))
  {
    var s' := Reserve(s, c, m, home, fp);
    forall e | e in s'.callers
      ensures CallerOk(s', e)
    {
      if e != c {
        assert CallerOk(s, e);
      }
    }
    assert forall e :: e in s.callers ==> CallerOk(s, e) && s.callers[e].message != m;
    forall u | u in s'.ingress && s'.ingress[u].state == InProgress
      ensures HasOwner(s', u)
    {
      if u == m {
        assert s'.callers[c].message == u;
      } else {
        assert HasOwner(s, u);
        var e :| e in s.callers && s.callers[e].message == u;
        assert s'.callers[e].message == u;
      }
    }
  }

  lemma ReserveKeeps(s: State, c: nat, m: Id, home: ContextId, fp: Fingerprint)
    requires Inv(s) && s.serving && c !in s.callers && m !in s.ingress && m !in s.messages
    requires m.Fresh? ==> m.serial <= s.nextSerial
    ensures var s' := Reserve(s, c, m, home, fp); Inv(s') && Grows(s, s') && Absorbs(s, s')
  {
    var s' := Reserve(s, c, m, home, fp);
    ReserveGrows(s, c, m, home, fp);
    ReserveKeepsCallers(s, c, m, home, fp);
    ReturnedStays(s, s');
    RowsStay(s, s', m);
  }

  lemma ReserveGrows(s: State, c: nat, m: Id, home: ContextId, fp: Fingerprint)
    requires IdsOk(s) && OwnedOk(s) && m !in s.ingress && m !in s.messages
    requires m.Fresh? ==> m.serial <= s.nextSerial
    ensures var s' := Reserve(s, c, m, home, fp); IdsOk(s') && OwnedOk(s') && Grows(s, s') && Absorbs(s, s')
  {
  }

  lemma NothingChanges(s: State)
    ensures Grows(s, s) && Absorbs(s, s)
  {
  }

  lemma AdmitKeeps(s: State, c: nat, message: Option<Id>, context: Option<ContextId>, created: ContextId,
                   fp: Fingerprint)
    requires Inv(s) && (message.None? ==> Fresh(s.nextSerial) !in s.messages)
    ensures var s' := DoAdmit(s, c, message, context, created, fp); Inv(s') && Grows(s, s') && Absorbs(s, s')
  {
    NothingChanges(s);
    var m := MessageId(s, message);
    if s.serving && c !in s.callers && (message.None? || Drawn(s, m)) {
      if m in s.ingress {
        if Replay(s, m, context, fp).Ok? {
          ReplayKeeps(s, m, Replay(s, m, context, fp).value);
        }
      } else if m !in s.messages {
        ReserveKeeps(s, c, m, if context.Some? then context.value else created, fp);
      }
    }
  }

  lemma RouteKeeps(s: State, c: nat, kind: RouteKind)
    requires Inv(s)
    ensures var s' := DoRoute(s, c, kind); Inv(s') && Grows(s, s') && Absorbs(s, s')
  {
    var s' := DoRoute(s, c, kind);
    RouteGrows(s, c, kind);
    RouteKeepsCallers(s, c, kind);
    ReturnedStays(s, s');
    SameRows(s, s');
  }

  lemma RouteGrows(s: State, c: nat, kind: RouteKind)
    requires IdsOk(s) && OwnedOk(s)
    ensures var s' := DoRoute(s, c, kind); IdsOk(s') && OwnedOk(s') && Grows(s, s') && Absorbs(s, s')
  {
  }

  lemma SameRows(s: State, s': State)
    requires RowsOk(s) && Grows(s, s') && s'.ingress == s.ingress
    ensures RowsOk(s')
  {
    forall u | u in s'.ingress
      ensures RowOk(s', u)
    {
      RowStays(s, s', u);
    }
  }

  lemma RouteKeepsCallers(s: State, c: nat, kind: RouteKind)
    requires CallersOk(s)
    ensures CallersOk(DoRoute(s, c, kind))
  {
    var s' := DoRoute(s, c, kind);
    forall e | e in s'.callers
      ensures CallerOk(s', e)
    {
      assert CallerOk(s, e);
    }
    if s' != s {
      OwnersStay(s, s', c);
    }
  }

  lemma RecordRouteKeepsCallers(s: State, c: nat)
    requires IdsOk(s) && CallersOk(s)
    ensures CallersOk(DoRecordRoute(s, c))
  {
    var s' := DoRecordRoute(s, c);
    forall e | e in s'.callers
      ensures CallerOk(s', e)
    {
      RecordRouteKeepsCaller(s, c, e);
    }
    if s' != s {
      OwnersStay(s, s', c);
    }
  }

  lemma RecordRouteKeepsCaller(s: State, c: nat, e: nat)
    requires IdsOk(s) && e in s.callers && CallerOk(s, e)
    requires c in s.callers && c != e ==> s.callers[c].message != s.callers[e].message
    ensures e in DoRecordRoute(s, c).callers && CallerOk(DoRecordRoute(s, c), e)
  {
  }

  lemma RecordRouteKeeps(s: State, c: nat)
    requires Inv(s)
    ensures var s' := DoRecordRoute(s, c); Inv(s') && Grows(s, s') && Absorbs(s, s')
  {
    NothingChanges(s);
    var s' := DoRecordRoute(s, c);
    if s' != s {
      var m := s.callers[c].message;
      RecordRouteGrows(s, c);
      RecordRouteKeepsCallers(s, c);
      ReturnedStays(s, s');
      assert RowOk(s, m) && RowOk(s', m);
      RowsStay(s, s', m);
    }
  }

  lemma RecordRouteGrows(s: State, c: nat)
    requires IdsOk(s) && OwnedOk(s)
    ensures var s' := DoRecordRoute(s, c); IdsOk(s') && OwnedOk(s') && Grows(s, s') && Absorbs(s, s')
  {
  }

  /** The owner's last transaction wrote `w` on top of `s`: the tables grew, only its own row changed. */
  ghost predicate WroteFor(s: State, w: State, m: Id) {
    && Grows(s, w) && IdsOk(w)
    && w.callers == s.callers && w.serving == s.serving && w.owned == s.owned && w.returned == s.returned
    && w.ingress.Keys == s.ingress.Keys
    && m in w.ingress
    && forall u :: u in s.ingress && u != m ==> w.ingress[u] == s.ingress[u]
  }

  lemma SettleKeepsCallers(s: State, w: State, c: nat, kind: OutcomeKind, id: Id, outcome: Outcome)
    requires CallersOk(s) && c in s.callers && WroteFor(s, w, s.callers[c].message)
    ensures CallersOk(Settle(w, c, kind, id, outcome))
  {
    var s' := Settle(w, c, kind, id, outcome);
    forall e | e in s'.callers
      ensures CallerOk(s', e)
    {
      assert CallerOk(s, e);
    }
    OwnersStay(s, s', c);
  }

  lemma SettleKeepsReturned(s: State, s': State, m: Id, outcome: Outcome)
    requires ReturnedOk(s) && Grows(s, s') && Absorbs(s, s')
    requires m in s'.ingress && s'.ingress[m].state == Resolved && ResultOf(s', m, s'.ingress[m]) == Ok(outcome)
    requires s'.returned == s.returned + {(m, outcome)}
    ensures ReturnedOk(s')
  {
    forall r | r in s'.returned
      ensures r.0 in s'.ingress && s'.ingress[r.0].state == Resolved && ResultOf(s', r.0, s'.ingress[r.0]) == Ok(r.1)
    {
      if r in s.returned {
        ResultIsStable(s, s', r.0, s.ingress[r.0]);
      }
    }
  }

  lemma SettleGrows(s: State, w: State, c: nat, kind: OutcomeKind, id: Id, outcome: Outcome)
    requires OwnedOk(s) && c in s.callers && WroteFor(s, w, s.callers[c].message)
    requires s.callers[c].message in s.ingress && s.ingress[s.callers[c].message].state == InProgress
    ensures var s' := Settle(w, c, kind, id, outcome);
            Grows(s, s') && Grows(w, s') && Absorbs(s, s') && IdsOk(s') && OwnedOk(s')
  {
  }

  /** Resolving the row with an outcome that the row itself yields keeps everything. */
  lemma SettleKeeps(s: State, w: State, c: nat, kind: OutcomeKind, id: Id, outcome: Outcome)
    requires Inv(s) && c in s.callers && WroteFor(s, w, s.callers[c].message)
    requires s.ingress[s.callers[c].message].state == InProgress
    requires w.ingress[s.callers[c].message].context == s.ingress[s.callers[c].message].context
    requires var m := s.callers[c].message;
             ResultOf(w, m, w.ingress[m].(state := Resolved, outcome := Some((kind, id)))) == Ok(outcome)
    ensures var s' := Settle(w, c, kind, id, outcome); Inv(s') && Grows(s, s') && Absorbs(s, s')
  {
    var m, s' := s.callers[c].message, Settle(w, c, kind, id, outcome);
    SettleGrows(s, w, c, kind, id, outcome);
    SettleKeepsCallers(s, w, c, kind, id, outcome);
    ResultIsStable(w, s', m, s'.ingress[m]);
    SettleKeepsReturned(s, s', m, outcome);
    RowsStay(s, s', m);
  }

  lemma MessageWritten(s: State, m: Id, x: Id, context: ContextId)
    requires IdsOk(s) && m in s.ingress && x == Fresh(s.nextSerial)
    ensures WroteFor(s, s.(messages := s.messages[x := context], nextSerial := s.nextSerial + 1), m)
  {
  }

  lemma DelegatedMessageWritten(s: State, m: Id, x: Id, g: Id)
    requires IdsOk(s) && m in s.ingress && x == Fresh(s.nextSerial) && g == Fresh(s.nextSerial + 1)
    ensures WroteFor(s, WriteDelegatedMessage(s, x, g, s.ingress[m].context), m)
  {
  }

  lemma DelegatedTaskWritten(s: State, m: Id, x: Id, g: Id)
    requires IdsOk(s) && m in s.ingress && x == Fresh(s.nextSerial) && g == Fresh(s.nextSerial + 1)
    ensures WroteFor(s, WriteDelegatedTask(s, x, g), m)
  {
  }

  lemma AnswerMessageKeeps(s: State, c: nat)
    requires Inv(s)
    ensures var s' := DoAnswerMessage(s, c); Inv(s') && Grows(s, s') && Absorbs(s, s')
  {
    if CanWrite(s, c) && s.callers[c].phase.Recorded? && s.callers[c].phase.kind == LocalMessage {
      assert CallerOk(s, c);
      var written, outcome := AnswerSettles(s, c);
      SettleKeeps(s, written, c, MessageOutcome, Fresh(s.nextSerial), outcome);
    } else {
      NothingChanges(s);
    }
  }

  lemma AnswerSettles(s: State, c: nat) returns (w: State, outcome: Outcome)
    requires IdsOk(s) && CanWrite(s, c) && CallerOk(s, c)
    requires s.callers[c].phase.Recorded? && s.callers[c].phase.kind == LocalMessage
    ensures var m, answer := s.callers[c].message, Fresh(s.nextSerial);
            && WroteFor(s, w, m) && w.ingress == s.ingress
            && ResultOf(w, m, w.ingress[m].(state := Resolved, outcome := Some((MessageOutcome, answer))))
               == Ok(outcome)
            && DoAnswerMessage(s, c) == Settle(w, c, MessageOutcome, answer, outcome)
  {
    var m, answer := s.callers[c].message, Fresh(s.nextSerial);
    var context := s.ingress[m].context;
    w := s.(messages := s.messages[answer := context], nextSerial := s.nextSerial + 1);
    outcome := LocalMessageResult(context, m, s.callers[c].phase.decision, answer);
    MessageWritten(s, m, answer, context);
  }

  lemma AcceptTaskKeeps(s: State, c: nat)
    requires Inv(s)
    ensures var s' := DoAcceptTask(s, c); Inv(s') && Grows(s, s') && Absorbs(s, s')
  {
    if CanWrite(s, c) && s.callers[c].phase == Routed(LocalTask) {
      assert CallerOk(s, c);
      var written, outcome := AcceptSettles(s, c);
      SettleKeeps(s, written, c, TaskOutcome, Fresh(s.nextSerial + 1), outcome);
    } else {
      NothingChanges(s);
    }
  }

  lemma AcceptSettles(s: State, c: nat) returns (w: State, outcome: Outcome)
    requires IdsOk(s) && CanWrite(s, c) && s.callers[c].phase == Routed(LocalTask)
    ensures var m, t := s.callers[c].message, Fresh(s.nextSerial + 1);
            && WroteFor(s, w, m) && w.ingress[m].context == s.ingress[m].context
            && ResultOf(w, m, w.ingress[m].(state := Resolved, outcome := Some((TaskOutcome, t)))) == Ok(outcome)
            && DoAcceptTask(s, c) == Settle(w, c, TaskOutcome, t, outcome)
  {
    var m, d, t := s.callers[c].message, Fresh(s.nextSerial), Fresh(s.nextSerial + 1);
    var row := s.ingress[m];
    w := s.(decisions := s.decisions[d := Decision(row.context, m, LocalTask)],
            tasks := s.tasks + {t},
            ingress := s.ingress[m := row.(decision := Some(d))],
            nextSerial := s.nextSerial + 2);
    outcome := LocalTaskResult(row.context, m, d, t);
  }

  lemma DelegateKeeps(s: State, c: nat, answersMessage: bool)
    requires Inv(s)
    ensures var s' := DoDelegate(s, c, answersMessage); Inv(s') && Grows(s, s') && Absorbs(s, s')
  {
    if CanWrite(s, c) && s.callers[c].phase.Recorded? && s.callers[c].phase.kind == RemoteAgent {
      assert CallerOk(s, c);
      var g := Fresh(s.nextSerial + 1);
      var written, outcome := DelegateSettles(s, c, answersMessage);
      SettleKeeps(s, written, c, DelegationOutcome, g, outcome);
    } else {
      NothingChanges(s);
    }
  }

  lemma DelegateSettles(s: State, c: nat, answersMessage: bool) returns (w: State, outcome: Outcome)
    requires IdsOk(s) && CanWrite(s, c) && CallerOk(s, c)
    requires s.callers[c].phase.Recorded? && s.callers[c].phase.kind == RemoteAgent
    ensures var m, g := s.callers[c].message, Fresh(s.nextSerial + 1);
            && WroteFor(s, w, m) && w.ingress == s.ingress
            && ResultOf(w, m, w.ingress[m].(state := Resolved, outcome := Some((DelegationOutcome, g)))) == Ok(outcome)
            && DoDelegate(s, c, answersMessage) == Settle(w, c, DelegationOutcome, g, outcome)
  {
    var m, d := s.callers[c].message, s.callers[c].phase.decision;
    var x, g := Fresh(s.nextSerial), Fresh(s.nextSerial + 1);
    if answersMessage {
      w := WriteDelegatedMessage(s, x, g, s.ingress[m].context);
      outcome := RemoteMessageResult(s.ingress[m].context, m, d, g, x);
      DelegatedMessageWritten(s, m, x, g);
    } else {
      w, outcome := WriteDelegatedTask(s, x, g), RemoteTaskResult(s.ingress[m].context, m, d, g, x);
      DelegatedTaskWritten(s, m, x, g);
    }
  }

  lemma AcceptRetryGrows(s: State, context: ContextId, fp: Fingerprint)
    requires IdsOk(s) && OwnedOk(s) && s.serving
    ensures var s' := DoAcceptRetry(s, context, fp); IdsOk(s') && OwnedOk(s') && Grows(s, s') && Absorbs(s, s')
  {
    assert Fresh(s.nextSerial) !in s.messages && Fresh(s.nextSerial) !in s.ingress;
  }

  lemma AcceptRetryKeepsCallers(s: State, context: ContextId, fp: Fingerprint)
    requires IdsOk(s) && CallersOk(s) && s.serving
    ensures CallersOk(DoAcceptRetry(s, context, fp))
  {
    var s' := DoAcceptRetry(s, context, fp);
    forall e | e in s'.callers
      ensures CallerOk(s', e)
    {
      assert CallerOk(s, e);
    }
    forall u | u in s'.ingress && s'.ingress[u].state == InProgress
      ensures HasOwner(s', u)
    {
      assert HasOwner(s, u);
      var e :| e in s.callers && s.callers[e].message == u;
      assert s'.callers[e].message == u;
    }
  }

  lemma AcceptRetryKeeps(s: State, context: ContextId, fp: Fingerprint)
    requires Inv(s)
    ensures var s' := DoAcceptRetry(s, context, fp); Inv(s') && Grows(s, s') && Absorbs(s, s')
  {
    if s.serving {
      var m, s' := Fresh(s.nextSerial), DoAcceptRetry(s, context, fp);
      AcceptRetryGrows(s, context, fp);
      AcceptRetryKeepsCallers(s, context, fp);
      ReturnedStays(s, s');
      RowsStay(s, s', m);
    } else {
      NothingChanges(s);
    }
  }

  lemma FailKeepsCallers(s: State, c: nat)
    requires CallersOk(s) && c in s.callers
    ensures CallersOk(DoFail(s, c))
  {
    var s' := DoFail(s, c);
    assert CallerOk(s, c);
    forall e | e in s'.callers
      ensures CallerOk(s', e)
    {
      assert CallerOk(s, e);
    }
    OwnersStay(s, s', c);
  }

  lemma FailKeeps(s: State, c: nat)
    requires Inv(s)
    ensures var s' := DoFail(s, c); Inv(s') && Grows(s, s') && Absorbs(s, s')
  {
    NothingChanges(s);
    if c in s.callers {
      assert CallerOk(s, c);
      var m, s' := s.callers[c].message, DoFail(s, c);
      FailKeepsCallers(s, c);
      ReturnedStays(s, s');
      assert RowOk(s, m) && RowOk(s', m);
      RowsStay(s, s', m);
    }
  }

  lemma CrashKeeps(s: State)
    requires Inv(s)
    ensures var s' := DoCrash(s); Inv(s') && Grows(s, s') && Absorbs(s, s')
  {
    var s' := DoCrash(s);
    ReturnedStays(s, s');
    forall u | u in s'.ingress
      ensures RowOk(s', u)
    {
      RowStays(s, s', u);
    }
  }

  lemma ReconcileKeeps(s: State)
    requires Inv(s)
    ensures var s' := DoReconcile(s); Inv(s') && Grows(s, s') && Absorbs(s, s')
  {
    NothingChanges(s);
    var s' := DoReconcile(s);
    if !s.serving {
      ReturnedStays(s, s');
      forall u | u in s'.ingress
        ensures RowOk(s', u)
      {
        assert RowOk(s, u);
        if s.ingress[u].state != InProgress {
          RowStays(s, s', u);
        }
      }
    }
  }

  lemma StepKeeps(s: State, op: Op)
    requires Inv(s)
    ensures Inv(Step(s, op)) && Grows(s, Step(s, op)) && Absorbs(s, Step(s, op))
  {
    match op
    case Admit(c, message, context, created, fp) => AdmitKeeps(s, c, message, context, created, fp);
    case Route(c, kind) => RouteKeeps(s, c, kind);
    case RecordRoute(c) => RecordRouteKeeps(s, c);
    case AnswerMessage(c) => AnswerMessageKeeps(s, c);
    case AcceptTask(c) => AcceptTaskKeeps(s, c);
    case Delegate(c, answersMessage) => DelegateKeeps(s, c, answersMessage);
    case AcceptRetry(context, fp) => AcceptRetryKeeps(s, context, fp);
    case Fail(c) => FailKeeps(s, c);
    case Crash => CrashKeeps(s);
    case Reconcile => ReconcileKeeps(s);
  }

  lemma {:induction false} RunKeeps(s: State, ops: seq<Op>)
    requires Inv(s)
    ensures Inv(Run(s, ops)) && Grows(s, Run(s, ops)) && Absorbs(s, Run(s, ops))
    decreases |ops|
  {
    NothingChanges(s);
    if ops != [] {
      StepKeeps(s, ops[0]);
      RunKeeps(Step(s, ops[0]), ops[1..]);
    }
  }

  // ----- what callers can rely on ----------------------------------------------------------

  /** Exactly one admission of a message id ever makes its caller the owner, however calls interleave. */
  lemma OneOwnerPerMessage(ops: seq<Op>)
    ensures var s := Run(INITIAL, ops);
            && NoDup(s.owned)
            && (forall m :: m in s.ingress <==> m in s.owned)
            && (forall c, e :: c in s.callers && e in s.callers && s.callers[c].message == s.callers[e].message ==>
                  c == e)
  {
    RunKeeps(INITIAL, ops);
  }

  lemma {:induction false} RunConcat(s: State, a: seq<Op>, b: seq<Op>)
    ensures Run(s, a + b) == Run(Run(s, a), b)
    decreases |a|
  {
    if a == [] {
      assert a + b == b;
    } else {
      assert (a + b)[1..] == a[1..] + b;
      RunConcat(Step(s, a[0]), a[1..], b);
    }
  }

  /** A resolved or failed row is final, through every later call, crash and restart. */
  lemma SettledIsAbsorbing(ops: seq<Op>, later: seq<Op>, m: Id)
    requires m in Run(INITIAL, ops).ingress && Run(INITIAL, ops).ingress[m].state != InProgress
    ensures m in Run(INITIAL, ops + later).ingress
    ensures Run(INITIAL, ops + later).ingress[m] == Run(INITIAL, ops).ingress[m]
  {
    RunKeeps(INITIAL, ops);
    RunConcat(INITIAL, ops, later);
    RunKeeps(Run(INITIAL, ops), later);
  }

  /**
  Replaying a resolved message succeeds exactly for the same request in the same context, and returns
  the identity that every earlier caller, the original one included, got for it.
  */
  lemma ReplayReturnsTheOriginal(ops: seq<Op>, m: Id, context: Option<ContextId>, fp: Fingerprint)
    requires m in Run(INITIAL, ops).ingress && Run(INITIAL, ops).ingress[m].state == Resolved
    ensures var s := Run(INITIAL, ops);
            var r := Replay(s, m, context, fp);
            && (r.Ok? <==> fp == s.ingress[m].fingerprint && (context.None? || context.value == s.ingress[m].context))
            && (r.Ok? ==> forall earlier :: (m, earlier) in s.returned ==> earlier == r.value)
  {
    RunKeeps(INITIAL, ops);
    var s := Run(INITIAL, ops);
    assert RowOk(s, m);
    forall earlier | (m, earlier) in s.returned
      ensures ResultOf(s, m, s.ingress[m]) == Ok(earlier)
    {
      assert (m, earlier).0 == m;
    }
  }

  /** While requests are served, a message in progress has exactly one live owner, and nobody has a result for it. */
  lemma InProgressHasItsOwner(ops: seq<Op>, m: Id)
    requires var s := Run(INITIAL, ops); s.serving && m in s.ingress && s.ingress[m].state == InProgress
    ensures var s := Run(INITIAL, ops);
            && (exists c :: c in s.callers && s.callers[c].message == m)
            && (forall outcome :: (m, outcome) !in s.returned)
  {
    RunKeeps(INITIAL, ops);
    var s := Run(INITIAL, ops);
    assert HasOwner(s, m);
    forall outcome
      ensures (m, outcome) !in s.returned
    {
      assert (m, outcome).0 == m;
    }
  }

  // ----- steps take effect -----------------------------------------------------------------

  /** A message nobody has admitted yet makes its caller the owner of a row with the caller's own request. */
  lemma AdmitReserves(s: State, c: nat, message: Option<Id>, context: Option<ContextId>, created: ContextId,
                      fp: Fingerprint)
    requires Inv(s) && s.serving && c !in s.callers && (message.Some? ==> Drawn(s, message.value))
    requires MessageId(s, message) !in s.messages
    ensures var m, s' := MessageId(s, message), DoAdmit(s, c, message, context, created, fp);
            var home := if context.Some? then context.value else created;
            && m in s'.ingress && s'.ingress[m] == Row(home, fp, InProgress, None, None)
            && m in s'.messages && s'.messages[m] == home
            && c in s'.callers && s'.callers[c] == Caller(m, Owner) && s'.returned == s.returned
  {
  }

  /** A resolved message is answered from its row, and nobody becomes its owner. */
  lemma AdmitReplays(s: State, c: nat, m: Id, context: Option<ContextId>, created: ContextId)
    requires Inv(s) && s.serving && c !in s.callers && Drawn(s, m) && m in s.ingress && s.ingress[m].state == Resolved
    requires context.None? || context.value == s.ingress[m].context
    ensures var s' := DoAdmit(s, c, Some(m), context, created, s.ingress[m].fingerprint);
            && ResultOf(s, m, s.ingress[m]).Ok?
            && s' == s.(returned := s.returned + {(m, ResultOf(s, m, s.ingress[m]).value)})
  {
    assert RowOk(s, m);
  }

  /** The owner's message row is resolved to this outcome and the owner is done. */
  ghost predicate Finishes(s: State, s': State, c: nat, outcome: Outcome)
    requires c in s.callers
  {
    var m := s.callers[c].message;
    && m in s'.ingress && s'.ingress[m].state == Resolved && ResultOf(s', m, s'.ingress[m]) == Ok(outcome)
    && (m, outcome) in s'.returned && c !in s'.callers
  }

  /** Routing and recording the route leave the owner with a fresh decision on its own row. */
  lemma RouteIsRecorded(s: State, c: nat, kind: RouteKind)
    requires IdsOk(s) && c in s.callers && CallerOk(s, c) && s.callers[c].phase.Owner? && kind != LocalTask
    ensures var m, d := s.callers[c].message, Fresh(s.nextSerial);
            var s' := DoRecordRoute(DoRoute(s, c, kind), c);
            && d !in s.decisions && IdsOk(s') && CanWrite(s', c) && CallerOk(s', c)
            && s'.callers[c] == Caller(m, Recorded(kind, d)) && s'.ingress[m].context == s.ingress[m].context
            && s'.messages == s.messages && s'.delegations == s.delegations && s'.nextSerial == s.nextSerial + 1
  {
  }

  /** Routed to an answer, a message ends with a new message of its own context. */
  lemma OwnerAnswers(s: State, c: nat) returns (d: Id, x: Id)
    requires Inv(s) && c in s.callers && s.callers[c].phase.Owner?
    ensures var m := s.callers[c].message;
            var s' := DoAnswerMessage(DoRecordRoute(DoRoute(s, c, LocalMessage), c), c);
            && m in s.ingress && d !in s.decisions && x !in s.messages
            && x in s'.messages && s'.messages[x] == s.ingress[m].context
            && Finishes(s, s', c, LocalMessageResult(s.ingress[m].context, m, d, x))
  {
    assert CallerOk(s, c);
    RouteIsRecorded(s, c, LocalMessage);
    d, x := Fresh(s.nextSerial), Fresh(s.nextSerial + 1);
    AnswerFinishes(DoRecordRoute(DoRoute(s, c, LocalMessage), c), c);
  }

  lemma AnswerFinishes(s: State, c: nat)
    requires IdsOk(s) && CanWrite(s, c) && CallerOk(s, c)
    requires s.callers[c].phase.Recorded? && s.callers[c].phase.kind == LocalMessage
    ensures var m, x := s.callers[c].message, Fresh(s.nextSerial);
            var s' := DoAnswerMessage(s, c);
            && x !in s.messages && x in s'.messages && s'.messages[x] == s.ingress[m].context
            && Finishes(s, s', c, LocalMessageResult(s.ingress[m].context, m, s.callers[c].phase.decision, x))
  {
  }

  /** Routed to a task, it ends with a new task, accepted in one commit. */
  lemma OwnerAcceptsTask(s: State, c: nat) returns (d: Id, t: Id)
    requires Inv(s) && c in s.callers && s.callers[c].phase.Owner?
    ensures var m := s.callers[c].message;
            var s' := DoAcceptTask(DoRoute(s, c, LocalTask), c);
            && m in s.ingress && d !in s.decisions && t in s'.tasks
            && Finishes(s, s', c, LocalTaskResult(s.ingress[m].context, m, d, t))
  {
    assert CallerOk(s, c);
    d, t := Fresh(s.nextSerial), Fresh(s.nextSerial + 1);
    AcceptFinishes(DoRoute(s, c, LocalTask), c);
  }

  lemma AcceptFinishes(s: State, c: nat)
    requires CanWrite(s, c) && s.callers[c].phase == Routed(LocalTask)
    requires forall d :: d in s.decisions ==> Drawn(s, d) && d.Fresh?
    ensures var m, d, t := s.callers[c].message, Fresh(s.nextSerial), Fresh(s.nextSerial + 1);
            var s' := DoAcceptTask(s, c);
            && d !in s.decisions && t in s'.tasks
            && Finishes(s, s', c, LocalTaskResult(s.ingress[m].context, m, d, t))
  {
  }

  /** Routed to another agent, it ends with a delegation and the message or task that came back. */
  lemma OwnerDelegates(s: State, c: nat, answersMessage: bool) returns (d: Id, g: Id, x: Id)
    requires Inv(s) && c in s.callers && s.callers[c].phase.Owner?
    ensures var m := s.callers[c].message;
            var s' := DoDelegate(DoRecordRoute(DoRoute(s, c, RemoteAgent), c), c, answersMessage);
            && m in s.ingress && d !in s.decisions && g !in s.delegations
            && (if answersMessage then x in s'.messages else x in s'.tasks)
            && Finishes(s, s', c, Delegated(s.ingress[m].context, m, d, g, x, answersMessage))
  {
    assert CallerOk(s, c);
    RouteIsRecorded(s, c, RemoteAgent);
    d, x, g := Fresh(s.nextSerial), Fresh(s.nextSerial + 1), Fresh(s.nextSerial + 2);
    DelegateFinishes(DoRecordRoute(DoRoute(s, c, RemoteAgent), c), c, answersMessage);
  }

  /** The result of a delegation that brought back a message or a task. */
  function Delegated(context: ContextId, m: Id, d: Id, g: Id, x: Id, answersMessage: bool): Outcome {
    if answersMessage then RemoteMessageResult(context, m, d, g, x) else RemoteTaskResult(context, m, d, g, x)
  }

  lemma DelegateFinishes(s: State, c: nat, answersMessage: bool)
    requires IdsOk(s) && CanWrite(s, c) && CallerOk(s, c)
    requires s.callers[c].phase.Recorded? && s.callers[c].phase.kind == RemoteAgent
    ensures var m, x, g := s.callers[c].message, Fresh(s.nextSerial), Fresh(s.nextSerial + 1);
            var s' := DoDelegate(s, c, answersMessage);
            && g !in s.delegations && (if answersMessage then x in s'.messages else x in s'.tasks)
            && Finishes(s, s', c,
                        Delegated(s.ingress[m].context, m, s.callers[c].phase.decision, g, x, answersMessage))
  {
  }

  /** An owner that raises leaves its row failed, at any point of its work. */
  lemma OwnerFails(s: State, c: nat)
    requires Inv(s) && c in s.callers
    ensures var m, s' := s.callers[c].message, DoFail(s, c);
            m in s'.ingress && s'.ingress[m].state == Failed && c !in s'.callers
  {
    assert CallerOk(s, c);
  }

  /** Restart recovery fails exactly the rows that were in progress, and serves again. */
  lemma ReconcileFailsAbandoned(s: State, m: Id)
    requires !s.serving && m in s.ingress
    ensures var s' := DoReconcile(s);
            && s'.serving && m in s'.ingress
            && (s.ingress[m].state == InProgress ==> s'.ingress[m].state == Failed)
            && (s.ingress[m].state != InProgress ==> s'.ingress[m] == s.ingress[m])
  {
  }
}

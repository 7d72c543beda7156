/**
The side-effect ledger of one local task: the durable records of its non-read-only tool calls, in
creation order, and every store operation that changes them.

A record is identified inside its task by loop index, tool-call id, tool name and argument digest,
which is what the source hashes into an invocation id.
*/
module Ledger {
  import opened Prelude

  datatype InvocationStatus = Prepared | Running | Succeeded | Failed | Uncertain | Canceled

  datatype Approval = NotRequired | Pending | Approved | Rejected

  datatype CallKey = CallKey(loopIndex: nat, callId: string, tool: string, digest: string)

  datatype Invocation = Invocation(
    key: CallKey,
    approvalRequired: bool,
    approval: Approval,
    status: InvocationStatus,
    started: bool,         // the record has a start time: execution was granted once
    sideEffecting: bool    // the recorded side-effect level is not `none`
  )

  type Records = seq<Invocation>

  /** What `prepare` hands back to the runtime. */
  datatype Reference = Reference(key: CallKey, status: InvocationStatus, blocked: bool)

  // ----- reading ---------------------------------------------------------------------------

  predicate SameIdentity(a: CallKey, b: CallKey) {
    a.loopIndex == b.loopIndex && a.callId == b.callId && a.digest == b.digest
  }

  /** The key under which the external effect itself is recognised: same tool, same arguments. */
  predicate SameEffect(a: CallKey, b: CallKey) {
    a.tool == b.tool && a.digest == b.digest
  }

  predicate BlocksReplay(status: InvocationStatus) {
    status in {Running, Succeeded, Uncertain}
  }

  /** Index of the first record with this key, or `|l|`. */
  function IndexOf(l: Records, key: CallKey): (i: nat)
    ensures i <= |l|
    ensures i < |l| ==> l[i].key == key
    ensures forall j :: 0 <= j < i ==> l[j].key != key
  {
    if l == [] then 0
    else if l[0].key == key then 0
    else 1 + IndexOf(l[1..], key)
  }

  /** Index of the first record with the same execution identity, or `|l|`. */
  function IdentityIndex(l: Records, key: CallKey): (i: nat)
    ensures i <= |l|
    ensures i < |l| ==> SameIdentity(l[i].key, key)
    ensures forall j :: 0 <= j < i ==> !SameIdentity(l[j].key, key)
  {
    if l == [] then 0
    else if SameIdentity(l[0].key, key) then 0
    else 1 + IdentityIndex(l[1..], key)
  }

  /** Index of the most recently created record for this effect, or `|l|`. */
  function LatestForEffect(l: Records, key: CallKey): (i: nat)
    ensures i <= |l|
    ensures i < |l| ==> SameEffect(l[i].key, key) && forall j :: i < j < |l| ==> !SameEffect(l[j].key, key)
    ensures i == |l| ==> forall j :: 0 <= j < |l| ==> !SameEffect(l[j].key, key)
  {
    if l == [] then 0
    else if SameEffect(l[|l| - 1].key, key) then |l| - 1
    else
      var i := LatestForEffect(l[..|l| - 1], key);
      if i == |l| - 1 then |l| else i
  }

  // ----- operations ------------------------------------------------------------------------

  function NewRecord(key: CallKey, approvalRequired: bool, sideEffecting: bool): Invocation {
    Invocation(key, approvalRequired, if approvalRequired then Pending else NotRequired,
               Prepared, false, sideEffecting)
  }

  /**
  `prepare`: a replay of the same key returns its record; a new key is refused while the latest
  record of the same effect is running, succeeded or uncertain; otherwise a record is created. The
  store refuses a record whose execution identity is taken by another tool.
  */
  function Prepare(l: Records, key: CallKey, approvalRequired: bool, sideEffecting: bool)
    : (r: Result<(Records, Reference)>)
  {
    var i := IndexOf(l, key);
    if i < |l| then
      Ok((l, Reference(key, l[i].status, BlocksReplay(l[i].status))))
    else
      var prior := LatestForEffect(l, key);
      if prior < |l| && BlocksReplay(l[prior].status) then
        Ok((l, Reference(l[prior].key, l[prior].status, true)))
      else if IdentityIndex(l, key) < |l| then
        Raised
      else
        Ok((l + [NewRecord(key, approvalRequired, sideEffecting)], Reference(key, Prepared, false)))
  }

  /** `begin_tool_invocation`, together with the grant that `begin_execution` derives from it. */
  function Begin(l: Records, key: CallKey): (r: Result<(Records, bool)>) {
    var i := IndexOf(l, key);
    if i == |l| then Raised
    else if l[i].status != Prepared then Ok((l, l[i].status == Running))
    else if l[i].approvalRequired && l[i].approval != Approved then Ok((l, false))
    else Ok((l[i := l[i].(status := Running, started := true)], true))
  }

  /** `resolve_tool_invocation_approval`: one operator decision on exactly one prepared record. */
  function Resolve(l: Records, key: CallKey, tool: string, digest: string, approved: bool): (r: Result<Records>) {
    var i := IndexOf(l, key);
    if i == |l| then Raised
    else if l[i].key.tool != tool || l[i].key.digest != digest then Raised
    else if !l[i].approvalRequired then Raised
    else
      var target := if approved then Approved else Rejected;
      if l[i].approval == target then Ok(l)
      else if l[i].approval != Pending then Raised
      else if l[i].status != Prepared then Raised
      else if approved then Ok(l[i := l[i].(approval := Approved)])
      else Ok(l[i := l[i].(approval := Rejected, status := Canceled)])
  }

  /** The status part of `complete_tool_invocation_success`; `Ok(None)` is a duplicate. */
  function Succeed(l: Records, key: CallKey): (r: Result<Option<Records>>) {
    var i := IndexOf(l, key);
    if i == |l| then Raised
    else if l[i].status == Succeeded then Ok(None)
    else if l[i].status != Running then Raised
    else Ok(Some(l[i := l[i].(status := Succeeded)]))
  }

  function MarkUncertain(l: Records, key: CallKey): (r: Result<Records>) {
    var i := IndexOf(l, key);
    if i == |l| then Raised
    else if l[i].status in {Uncertain, Succeeded, Failed, Canceled} then Ok(l)
    else Ok(l[i := l[i].(status := Uncertain)])
  }

  function Cancel(l: Records, key: CallKey): (r: Result<Records>) {
    var i := IndexOf(l, key);
    if i == |l| then Raised
    else if l[i].status != Prepared then Ok(l)
    else Ok(l[i := l[i].(status := Canceled)])
  }

  function CancelPrepared(l: Records): (r: Records)
    ensures |r| == |l|
    ensures forall i :: 0 <= i < |l| ==>
      r[i] == if l[i].status == Prepared then l[i].(status := Canceled) else l[i]
  {
    seq(|l|, i requires 0 <= i < |l| =>
      if l[i].status == Prepared then l[i].(status := Canceled) else l[i])
  }

  function MarkRunningUncertain(l: Records): (r: Records)
    ensures |r| == |l|
    ensures forall i :: 0 <= i < |l| ==>
      r[i] == if l[i].status == Running then l[i].(status := Uncertain) else l[i]
  {
    seq(|l|, i requires 0 <= i < |l| =>
      if l[i].status == Running then l[i].(status := Uncertain) else l[i])
  }

  // ----- invariant -------------------------------------------------------------------------

  predicate RecordOk(r: Invocation) {
    && (r.started ==> r.status in {Running, Succeeded, Uncertain})
    && (r.status in {Running, Succeeded} ==> r.started)
    && (r.started && r.approvalRequired ==> r.approval == Approved)
    && (r.approval == NotRequired <==> !r.approvalRequired)
    && (r.approval == Rejected ==> r.status == Canceled)
  }

  ghost predicate RecordsOk(l: Records) {
    && (forall i :: 0 <= i < |l| ==> RecordOk(l[i]))
    && (forall i, j :: 0 <= i < j < |l| ==> !SameIdentity(l[i].key, l[j].key))
  }

  ghost predicate NoneRunning(l: Records) {
    forall i :: 0 <= i < |l| ==> l[i].status != Running
  }

  /** No record is left in a state that a worker would have to move on. */
  ghost predicate Closed(l: Records) {
    forall i :: 0 <= i < |l| ==> l[i].status != Running && l[i].status != Prepared
  }

  // ----- one step --------------------------------------------------------------------------

  predicate Final(status: InvocationStatus) {
    status !in {Prepared, Running}
  }

  function Rank(status: InvocationStatus): nat {
    match status
    case Prepared => 0
    case Running => 1
    case _ => 2
  }

  /** A record keeps its identity, moves only forward, and a final one keeps its status for good. */
  predicate Advances(before: Invocation, after: Invocation) {
    && after.key == before.key
    && after.approvalRequired == before.approvalRequired
    && after.sideEffecting == before.sideEffecting
    && Rank(before.status) <= Rank(after.status)
    && (Final(before.status) ==> after.status == before.status && after.started == before.started)
    && (before.started ==> after.started)
    && (before.approval != Pending ==> after.approval == before.approval)
  }

  /** The ledger only grows at its end, and every existing record advances. */
  ghost predicate Extends(before: Records, after: Records) {
    && |before| <= |after|
    && forall i :: 0 <= i < |before| ==> Advances(before[i], after[i])
  }

  /** Only the record with this key may differ. */
  ghost predicate OnlyTouches(before: Records, after: Records, key: CallKey) {
    && |before| == |after|
    && forall i :: 0 <= i < |before| && before[i].key != key ==> after[i] == before[i]
  }

  /** Every ledger operation that any code path performs. */
  datatype LedgerOp =
    | OpPrepare(key: CallKey, approvalRequired: bool, sideEffecting: bool)
    | OpBegin(key: CallKey)
    | OpResolve(key: CallKey, tool: string, digest: string, approved: bool)
    | OpSucceed(key: CallKey)
    | OpUncertain(key: CallKey)
    | OpCancel(key: CallKey)
    | OpCancelPrepared
    | OpRunningUncertain

  /** One ledger operation; an operation that raises leaves the ledger as it was. */
  function Apply(l: Records, op: LedgerOp): Records {
    match op
    case OpPrepare(key, required, effect) =>
      (match Prepare(l, key, required, effect) case Ok(v) => v.0 case Raised => l)
    case OpBegin(key) => (match Begin(l, key) case Ok(v) => v.0 case Raised => l)
    case OpResolve(key, tool, digest, approved) =>
      (match Resolve(l, key, tool, digest, approved) case Ok(v) => v case Raised => l)
    case OpSucceed(key) =>
      (match Succeed(l, key) case Ok(Some(v)) => v case Ok(None) => l case Raised => l)
    case OpUncertain(key) => (match MarkUncertain(l, key) case Ok(v) => v case Raised => l)
    case OpCancel(key) => (match Cancel(l, key) case Ok(v) => v case Raised => l)
    case OpCancelPrepared => CancelPrepared(l)
    case OpRunningUncertain => MarkRunningUncertain(l)
  }

  /** True exactly when the operation is a `begin` to which the ledger answers "execute". */
  predicate Grants(l: Records, op: LedgerOp, key: CallKey) {
    op.OpBegin? && op.key == key && Begin(l, key).Ok? && Begin(l, key).value.1
  }

  lemma IndexOfIsUnique(l: Records, i: nat)
    requires RecordsOk(l) && i < |l|
    ensures IndexOf(l, l[i].key) == i
  {
  }

  lemma UpdateKeepsRecords(l: Records, i: nat, r: Invocation)
    requires RecordsOk(l) && i < |l| && RecordOk(r) && Advances(l[i], r)
    ensures RecordsOk(l[i := r]) && Extends(l, l[i := r])
  {
  }

  lemma AppendKeepsRecords(l: Records, key: CallKey, required: bool, effect: bool)
    requires RecordsOk(l) && IdentityIndex(l, key) == |l|
    ensures var l' := l + [NewRecord(key, required, effect)]; RecordsOk(l') && Extends(l, l')
  {
  }

  lemma CloseKeepsRecords(l: Records)
    requires RecordsOk(l)
    ensures RecordsOk(CancelPrepared(l)) && Extends(l, CancelPrepared(l))
    ensures RecordsOk(MarkRunningUncertain(l)) && Extends(l, MarkRunningUncertain(l))
  {
    forall i | 0 <= i < |l|
      ensures RecordOk(CancelPrepared(l)[i]) && CancelPrepared(l)[i].key == l[i].key
      ensures RecordOk(MarkRunningUncertain(l)[i]) && MarkRunningUncertain(l)[i].key == l[i].key
    {
    }
  }

  /** Every operation keeps the record invariant and moves records only forward. */
  lemma ApplyKeepsRecords(l: Records, op: LedgerOp)
    requires RecordsOk(l)
    ensures RecordsOk(Apply(l, op))
    ensures Extends(l, Apply(l, op))
  {
    if IsRecordOp(op) {
      RecordStepKeeps(l, op);
    } else if op.OpPrepare? {
      PrepareKeepsRecords(l, op);
    } else {
      CloseKeepsRecords(l);
    }
  }

  lemma PrepareKeepsRecords(l: Records, op: LedgerOp)
    requires RecordsOk(l) && op.OpPrepare?
    ensures RecordsOk(Apply(l, op)) && Extends(l, Apply(l, op))
  {
    if IdentityIndex(l, op.key) == |l| {
      AppendKeepsRecords(l, op.key, op.approvalRequired, op.sideEffecting);
    }
  }

  lemma RecordStepKeeps(l: Records, op: LedgerOp)
    requires RecordsOk(l) && IsRecordOp(op)
    ensures RecordsOk(Apply(l, op)) && Extends(l, Apply(l, op))
  {
    var i := IndexOf(l, op.key);
    if i < |l| && Apply(l, op) != l {
      RecordStepAdvances(l, op, i);
      UpdateKeepsRecords(l, i, Apply(l, op)[i]);
    }
  }

  predicate IsRecordOp(op: LedgerOp) {
    op.OpBegin? || op.OpResolve? || op.OpSucceed? || op.OpUncertain? || op.OpCancel?
  }

  /** A per-record operation replaces one record by one that advances it. */
  lemma RecordStepAdvances(l: Records, op: LedgerOp, i: nat)
    requires RecordsOk(l) && IsRecordOp(op)
    requires i == IndexOf(l, op.key) && i < |l| && Apply(l, op) != l
    ensures |Apply(l, op)| == |l| && Apply(l, op) == l[i := Apply(l, op)[i]]
    ensures RecordOk(Apply(l, op)[i]) && Advances(l[i], Apply(l, op)[i])
  {
    assert RecordOk(l[i]);
  }

  /** A per-record operation changes no other record. */
  lemma ApplyTouchesOneRecord(l: Records, op: LedgerOp)
    requires RecordsOk(l)
    requires IsRecordOp(op)
    ensures OnlyTouches(l, Apply(l, op), op.key)
  {
  }

  // ----- what each operation answers -------------------------------------------------------

  predicate Knows(l: Records, key: CallKey) {
    exists i :: 0 <= i < |l| && l[i].key == key
  }

  /** The newest record of the effect forbids to run it again. */
  predicate EffectBlocked(l: Records, key: CallKey) {
    exists i :: 0 <= i < |l| && SameEffect(l[i].key, key) && BlocksReplay(l[i].status)
      && forall j :: i < j < |l| ==> !SameEffect(l[j].key, key)
  }

  predicate IdentityTaken(l: Records, key: CallKey) {
    exists i :: 0 <= i < |l| && SameIdentity(l[i].key, key)
  }

  /**
  `prepare` creates a record exactly for an unknown key whose effect is not blocked and whose identity
  is free, and that record carries what the caller asked for: nothing runs before a required approval.
  Otherwise it changes nothing, and raises exactly on a taken identity.
  */
  lemma PrepareAnswers(l: Records, key: CallKey, required: bool, effect: bool)
    requires RecordsOk(l)
    ensures var r := Prepare(l, key, required, effect);
            var creates := !Knows(l, key) && !EffectBlocked(l, key) && !IdentityTaken(l, key);
            && (r.Raised? <==> !Knows(l, key) && !EffectBlocked(l, key) && IdentityTaken(l, key))
            && (r.Ok? && !creates ==> r.value.0 == l)
            && (r.Ok? ==> (r.value.1.blocked <==>
                  if Knows(l, key) then BlocksReplay(l[IndexOf(l, key)].status) else EffectBlocked(l, key)))
            && (creates ==>
                  && r.Ok? && r.value.1 == Reference(key, Prepared, false)
                  && |r.value.0| == |l| + 1 && l <= r.value.0
                  && IsNewCall(r.value.0[|l|], key, required, effect))
  {
    var i := IndexOf(l, key);
    var prior := LatestForEffect(l, key);
    if i < |l| {
      assert l[i].key == key;
    } else if prior < |l| && BlocksReplay(l[prior].status) {
      assert EffectBlocked(l, key);
    }
    if IdentityIndex(l, key) < |l| {
      assert SameIdentity(l[IdentityIndex(l, key)].key, key);
    }
  }

  /** A record as it is created for a call: prepared, not started, and pending exactly if approval is required. */
  predicate IsNewCall(r: Invocation, key: CallKey, required: bool, effect: bool) {
    && r.key == key && r.approvalRequired == required && r.sideEffecting == effect
    && r.status == Prepared && !r.started
    && (r.approval == Pending <==> required) && (r.approval == NotRequired <==> !required)
  }

  /** An unknown key raises in every operation that names a record. */
  lemma UnknownKeyRaises(l: Records, key: CallKey, tool: string, digest: string, approved: bool)
    requires !Knows(l, key)
    ensures Begin(l, key).Raised? && Resolve(l, key, tool, digest, approved).Raised?
    ensures Succeed(l, key).Raised? && MarkUncertain(l, key).Raised? && Cancel(l, key).Raised?
  {
    assert IndexOf(l, key) == |l|;
  }

  /** What the wrapper's operations do to the record they name. */
  lemma RecordAnswers(l: Records, i: nat)
    requires RecordsOk(l) && i < |l|
    ensures var key, was := l[i].key, l[i].status;
            var mayStart := was == Prepared && (l[i].approvalRequired ==> l[i].approval == Approved);
            && Begin(l, key).Ok? && Succeed(l, key).Raised? == (was !in {Running, Succeeded})
            && (Begin(l, key).value.1 <==> was == Running || mayStart)
            && Apply(l, OpBegin(key))[i] == (if mayStart then l[i].(status := Running, started := true) else l[i])
            && Apply(l, OpSucceed(key))[i].status == (if was == Running then Succeeded else was)
            && Apply(l, OpUncertain(key))[i].status == (if Final(was) then was else Uncertain)
            && Apply(l, OpCancel(key))[i].status == (if was == Prepared then Canceled else was)
  {
    IndexOfIsUnique(l, i);
  }

  /**
  An operator's decision is taken if and only if it names the tool and arguments of a record that needs
  approval and is pending and prepared, or has this very decision already; then the record is decided as
  answered, and a rejected one is canceled.
  */
  lemma ResolveAnswers(l: Records, i: nat, tool: string, digest: string, approved: bool)
    requires RecordsOk(l) && i < |l|
    ensures var answer := if approved then Approved else Rejected;
            var r := Resolve(l, l[i].key, tool, digest, approved);
            && (r.Ok? <==> l[i].key.tool == tool && l[i].key.digest == digest && l[i].approvalRequired
                           && (l[i].approval == answer || (l[i].approval == Pending && l[i].status == Prepared)))
            && (r.Ok? ==> |r.value| == |l| && r.value[i].approval == answer)
            && (r.Ok? && !approved ==> r.value[i].status == Canceled)
            && (r.Ok? && approved ==> r.value[i].status == l[i].status)
  {
    IndexOfIsUnique(l, i);
    assert RecordOk(l[i]);
  }

  // ----- whole runs ------------------------------------------------------------------------

  function Run(l: Records, ops: seq<LedgerOp>): Records
    decreases |ops|
  {
    if ops == [] then l else Run(Apply(l, ops[0]), ops[1..])
  }

  /** How many times execution of `key` is granted along the run. */
  function GrantCount(l: Records, ops: seq<LedgerOp>, key: CallKey): nat
    decreases |ops|
  {
    if ops == [] then 0
    else (if Grants(l, ops[0], key) then 1 else 0) + GrantCount(Apply(l, ops[0]), ops[1..], key)
  }

  /** No `begin` of `key` is issued while that record is already running. */
  ghost predicate NoConcurrentBegin(l: Records, ops: seq<LedgerOp>, key: CallKey)
    decreases |ops|
  {
    ops == [] ||
    (&& (ops[0] == OpBegin(key) && IndexOf(l, key) < |l| ==> l[IndexOf(l, key)].status != Running)
     && NoConcurrentBegin(Apply(l, ops[0]), ops[1..], key))
  }

  lemma {:induction false} RunKeepsRecords(l: Records, ops: seq<LedgerOp>)
    requires RecordsOk(l)
    ensures RecordsOk(Run(l, ops))
    ensures Extends(l, Run(l, ops))
    decreases |ops|
  {
    if ops != [] {
      ApplyKeepsRecords(l, ops[0]);
      RunKeepsRecords(Apply(l, ops[0]), ops[1..]);
    }
  }

  /** Nothing finished, uncertain or canceled is ever granted execution again. */
  lemma {:induction false} FinalIsNeverGranted(l: Records, ops: seq<LedgerOp>, i: nat)
    requires RecordsOk(l)
    requires i < |l| && Final(l[i].status)
    ensures GrantCount(l, ops, l[i].key) == 0
    decreases |ops|
  {
    IndexOfIsUnique(l, i);
    if ops != [] {
      ApplyKeepsRecords(l, ops[0]);
      FinalIsNeverGranted(Apply(l, ops[0]), ops[1..], i);
    }
  }

  /** A record that is running, or gone from prepared, is granted nothing more without a concurrent begin. */
  lemma {:induction false} StartedIsNotGrantedAgain(l: Records, ops: seq<LedgerOp>, i: nat)
    requires RecordsOk(l)
    requires i < |l| && l[i].status != Prepared
    requires NoConcurrentBegin(l, ops, l[i].key)
    ensures GrantCount(l, ops, l[i].key) == 0
    decreases |ops|
  {
    IndexOfIsUnique(l, i);
    if ops != [] {
      ApplyKeepsRecords(l, ops[0]);
      StartedIsNotGrantedAgain(Apply(l, ops[0]), ops[1..], i);
    }
  }

  /** Along a run without a begin on the running record, a key is granted at most once. */
  lemma {:induction false} GrantedAtMostOnce(l: Records, ops: seq<LedgerOp>, key: CallKey)
    requires RecordsOk(l) && NoConcurrentBegin(l, ops, key)
    ensures GrantCount(l, ops, key) <= 1
    decreases |ops|
  {
    if ops != [] {
      var next := Apply(l, ops[0]);
      ApplyKeepsRecords(l, ops[0]);
      if Grants(l, ops[0], key) {
        GrantMakesRunning(l, ops[0], key);
        StartedIsNotGrantedAgain(next, ops[1..], IndexOf(next, key));
      } else {
        GrantedAtMostOnce(next, ops[1..], key);
      }
    }
  }

  predicate IsRunning(l: Records, key: CallKey) {
    IndexOf(l, key) < |l| && l[IndexOf(l, key)].status == Running
  }

  lemma GrantMakesRunning(l: Records, op: LedgerOp, key: CallKey)
    requires RecordsOk(l) && Grants(l, op, key)
    ensures IsRunning(Apply(l, op), key)
  {
    ApplyKeepsRecords(l, op);
    IndexOfIsUnique(Apply(l, op), IndexOf(l, key));
  }

  /** Nothing but a grant makes a record run. */
  lemma OnlyGrantsMakeRunning(l: Records, op: LedgerOp, key: CallKey)
    requires RecordsOk(l) && !IsRunning(l, key) && IsRunning(Apply(l, op), key)
    ensures Grants(l, op, key)
  {
    ApplyKeepsRecords(l, op);
    var l' := Apply(l, op);
    var i := IndexOf(l', key);
    if i < |l| {
      IndexOfIsUnique(l, i);
    }
  }

  /** The first begin that meets the running record is itself a grant, on top of the one that made it run. */
  lemma {:induction false} ConcurrentBeginIsGranted(l: Records, ops: seq<LedgerOp>, key: CallKey)
    requires RecordsOk(l) && !NoConcurrentBegin(l, ops, key)
    ensures GrantCount(l, ops, key) >= if IsRunning(l, key) then 1 else 2
    decreases |ops|
  {
    var next := Apply(l, ops[0]);
    ApplyKeepsRecords(l, ops[0]);
    if ops[0] == OpBegin(key) && IsRunning(l, key) {
      assert Grants(l, ops[0], key);
    } else {
      ConcurrentBeginIsGranted(next, ops[1..], key);
      if !IsRunning(l, key) && IsRunning(next, key) {
        OnlyGrantsMakeRunning(l, ops[0], key);
      }
    }
  }

  /**
  Once-only execution, exactly: along every run from a ledger in which the key is not running, it is
  granted at most once if and only if no `begin` of it reaches the record while it runs.
  */
  lemma GrantedAtMostOnceIff(l: Records, ops: seq<LedgerOp>, key: CallKey)
    requires RecordsOk(l) && !IsRunning(l, key)
    ensures GrantCount(l, ops, key) <= 1 <==> NoConcurrentBegin(l, ops, key)
  {
    if NoConcurrentBegin(l, ops, key) {
      GrantedAtMostOnce(l, ops, key);
    } else {
      ConcurrentBeginIsGranted(l, ops, key);
    }
  }

  // ----- approval before execution ---------------------------------------------------------

  /** The operation is an operator's yes to this call. */
  predicate Approves(op: LedgerOp, key: CallKey) {
    op.OpResolve? && op.key == key && op.approved
  }

  lemma OnlyApprovalApproves(l: Records, op: LedgerOp, i: nat)
    requires RecordsOk(l) && i < |l| && l[i].approvalRequired && l[i].approval != Approved
    requires !Approves(op, l[i].key)
    ensures i < |Apply(l, op)| && Apply(l, op)[i].key == l[i].key
    ensures Apply(l, op)[i].approvalRequired && Apply(l, op)[i].approval != Approved
    ensures !Grants(l, op, l[i].key)
  {
    ApplyKeepsRecords(l, op);
    IndexOfIsUnique(l, i);
    assert RecordOk(l[i]);
  }

  /** Along every run without an operator's yes to it, a call that needs approval is never granted. */
  lemma {:induction false} UnapprovedIsNeverGranted(l: Records, ops: seq<LedgerOp>, i: nat)
    requires RecordsOk(l) && i < |l| && l[i].approvalRequired && l[i].approval != Approved
    requires forall op :: op in ops ==> !Approves(op, l[i].key)
    ensures GrantCount(l, ops, l[i].key) == 0
    decreases |ops|
  {
    if ops != [] {
      OnlyApprovalApproves(l, ops[0], i);
      ApplyKeepsRecords(l, ops[0]);
      UnapprovedIsNeverGranted(Apply(l, ops[0]), ops[1..], i);
    }
  }

  /** So a call prepared with an approval requirement runs only after the operator's yes to it. */
  lemma PreparedNeedsApproval(l: Records, key: CallKey, effect: bool, ops: seq<LedgerOp>)
    requires RecordsOk(l) && !Knows(l, key) && !EffectBlocked(l, key) && !IdentityTaken(l, key)
    requires forall op :: op in ops ==> !Approves(op, key)
    ensures GrantCount(Apply(l, OpPrepare(key, true, effect)), ops, key) == 0
  {
    PrepareAnswers(l, key, true, effect);
    ApplyKeepsRecords(l, OpPrepare(key, true, effect));
    UnapprovedIsNeverGranted(Apply(l, OpPrepare(key, true, effect)), ops, |l|);
  }

  // ----- one effect, one execution ---------------------------------------------------------

  /** At most one record of each effect was ever granted execution. */
  ghost predicate OneStartedPerEffect(l: Records) {
    forall i, j :: 0 <= i < j < |l| && SameEffect(l[i].key, l[j].key) ==> !(l[i].started && l[j].started)
  }

  /** All but the newest record of an effect are dead: final without having been started. */
  ghost predicate NoLiveTwin(l: Records) {
    forall i, j :: 0 <= i < j < |l| && SameEffect(l[i].key, l[j].key) ==> Final(l[i].status) && !l[i].started
  }

  /** The operation creates a record although the newest record of the same effect is still prepared. */
  predicate CreatesTwin(l: Records, op: LedgerOp) {
    && op.OpPrepare?
    && |Apply(l, op)| > |l|
    && var prior := LatestForEffect(l, op.key);
       prior < |l| && l[prior].status == Prepared
  }

  ghost predicate NoTwinCreated(l: Records, ops: seq<LedgerOp>)
    decreases |ops|
  {
    ops == [] || (!CreatesTwin(l, ops[0]) && NoTwinCreated(Apply(l, ops[0]), ops[1..]))
  }

  lemma ApplyKeepsNoLiveTwin(l: Records, op: LedgerOp)
    requires RecordsOk(l) && NoLiveTwin(l) && !CreatesTwin(l, op)
    ensures NoLiveTwin(Apply(l, op))
  {
    ApplyKeepsRecords(l, op);
    var l' := Apply(l, op);
    forall i, j | 0 <= i < j < |l'| && SameEffect(l'[i].key, l'[j].key)
      ensures Final(l'[i].status) && !l'[i].started
    {
      if j < |l| {
        assert SameEffect(l[i].key, l[j].key);
      } else {
        var prior := LatestForEffect(l, op.key);
        assert i <= prior < |l| && Final(l[prior].status) && !BlocksReplay(l[prior].status);
        assert RecordOk(l[prior]);
        if i < prior {
          assert SameEffect(l[i].key, l[prior].key);
        }
      }
    }
  }

  /**
  A blocked reference names an effect that is running, succeeded or uncertain; a prepared reference
  that is not blocked names one that no record of the task has ever started.
  */
  lemma PreparedMeansNeverStarted(l: Records, key: CallKey, required: bool, effect: bool)
    requires RecordsOk(l) && NoLiveTwin(l) && !CreatesTwin(l, OpPrepare(key, required, effect))
    requires Prepare(l, key, required, effect).Ok?
    ensures var (l', reference) := Prepare(l, key, required, effect).value;
            && (reference.blocked ==>
                  l' == l && exists j :: 0 <= j < |l| && SameEffect(l[j].key, key) && BlocksReplay(l[j].status))
            && (!reference.blocked && reference.status == Prepared ==>
                  && reference.key == key
                  && (exists j :: 0 <= j < |l'| && l'[j].key == key && l'[j].status == Prepared)
                  && (forall j :: 0 <= j < |l'| && SameEffect(l'[j].key, key) ==> !l'[j].started))
  {
    var op := OpPrepare(key, required, effect);
    ApplyKeepsRecords(l, op);
    ApplyKeepsNoLiveTwin(l, op);
    var (l', reference) := Prepare(l, key, required, effect).value;
    var i := IndexOf(l, key);
    if reference.blocked {
      assert SameEffect(l[if i < |l| then i else LatestForEffect(l, key)].key, key);
    } else if reference.status == Prepared {
      var n := if i < |l| then i else |l|;
      assert l'[n].key == key && l'[n].status == Prepared && RecordOk(l'[n]);
      forall j | 0 <= j < |l'| && SameEffect(l'[j].key, key)
        ensures !l'[j].started
      {
        if j < n {
          assert SameEffect(l'[j].key, l'[n].key);
        }
      }
    }
  }

  /** If a repeated effect is prepared only after its earlier records left `prepared`, it runs at most once. */
  lemma {:induction false} EffectRunsAtMostOnce(l: Records, ops: seq<LedgerOp>)
    requires RecordsOk(l) && NoLiveTwin(l) && NoTwinCreated(l, ops)
    ensures NoLiveTwin(Run(l, ops))
    ensures OneStartedPerEffect(Run(l, ops))
    decreases |ops|
  {
    if ops != [] {
      ApplyKeepsRecords(l, ops[0]);
      ApplyKeepsNoLiveTwin(l, ops[0]);
      EffectRunsAtMostOnce(Apply(l, ops[0]), ops[1..]);
    }
  }

  /** The continuation in which the operator approves a record and the runtime begins it. */
  function ApproveAndBegin(key: CallKey): seq<LedgerOp> {
    [OpResolve(key, key.tool, key.digest, true), OpBegin(key)]
  }

  lemma ApproveAndBeginStarts(l: Records, i: nat)
    requires RecordsOk(l) && i < |l| && l[i].status == Prepared
    ensures var ops := ApproveAndBegin(l[i].key);
           
            && NoTwinCreated(l, ops)
            && var l' := Apply(Apply(l, ops[0]), ops[1]);
               && Run(l, ops) == l'
               && RecordsOk(l') && OnlyTouches(l, l', l[i].key) && Extends(l, l')
               && l'[i].started
  {
    var ops := ApproveAndBegin(l[i].key);
    IndexOfIsUnique(l, i);
    var mid := Apply(l, ops[0]);
    ApplyKeepsRecords(l, ops[0]);
    ApplyTouchesOneRecord(l, ops[0]);
    IndexOfIsUnique(mid, i);
    var l' := Apply(mid, ops[1]);
    ApplyKeepsRecords(mid, ops[1]);
    ApplyTouchesOneRecord(mid, ops[1]);
    assert RecordOk(l[i]);
    assert ops[1..] == [ops[1]] && ops[1..][1..] == [];
    assert Run(mid, [ops[1]]) == Run(l', []);
  }

  lemma {:induction false} RunConcat(l: Records, a: seq<LedgerOp>, b: seq<LedgerOp>)
    ensures Run(l, a + b) == Run(Run(l, a), b)
    ensures NoTwinCreated(l, a) && NoTwinCreated(Run(l, a), b) ==> NoTwinCreated(l, a + b)
    decreases |a|
  {
    if a == [] {
      assert a + b == b;
    } else {
      assert (a + b)[0] == a[0] && (a + b)[1..] == a[1..] + b;
      RunConcat(Apply(l, a[0]), a[1..], b);
    }
  }

  /**
  ... and only then: as soon as a twin of a prepared record is created, for instance by a model turn
  that asks for the same effect under two call ids, a continuation exists in which both run.
  */
  lemma TwinsCanBothRun(l: Records, op: LedgerOp) returns (ops: seq<LedgerOp>)
    requires RecordsOk(l) && CreatesTwin(l, op)
    ensures NoTwinCreated(Apply(l, op), ops)
    ensures !OneStartedPerEffect(Run(l, [op] + ops))
  {
    var i, j := LatestForEffect(l, op.key), |l|;
    var l1 := Apply(l, op);
    ApplyKeepsRecords(l, op);
    assert l1[i] == l[i] && l1[j].status == Prepared && l1[j].key == op.key;
    ApproveAndBeginStarts(l1, i);
    var l2 := Run(l1, ApproveAndBegin(l1[i].key));
    assert !SameIdentity(l1[i].key, l1[j].key);
    assert l2[j] == l1[j];
    ApproveAndBeginStarts(l2, j);
    var l3 := Run(l2, ApproveAndBegin(l2[j].key));
    ops := ApproveAndBegin(l1[i].key) + ApproveAndBegin(l2[j].key);
    RunConcat(l1, ApproveAndBegin(l1[i].key), ApproveAndBegin(l2[j].key));
    assert ([op] + ops)[1..] == ops;
    assert Run(l, [op] + ops) == l3;
    assert SameEffect(l3[i].key, l3[j].key) && l3[i].started && l3[j].started;
  }
}

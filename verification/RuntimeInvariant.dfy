/**
What every step of the runtime keeps: the rows of each task, the worker frames, the process-local
sets, the command serials and the retry lineage. The last lemma carries it to every run.
*/
module RuntimeInvariant {
  import opened Prelude
  import opened Lifecycle
  import opened Processes
  import opened Runtime
  import L = Ledger

  // ----- invariant -------------------------------------------------------------------------

  ghost predicate ProcsOk(s: State) {
    forall t :: t in s.procs ==> ProcessOk(s.procs[t])
  }

  ghost predicate RunningAreInFlight(l: L.Records, inflight: multiset<L.CallKey>) {
    forall i :: 0 <= i < |l| && l[i].status == L.Running ==> l[i].key in inflight
  }

  /** What a frame's phase says about its task. */
  ghost predicate PhaseOk(p: Process, phase: Phase) {
    match phase
    case Dispatching(inflight) =>
      && p.task.status in {Running, CancelRequested}
      && RunningAreInFlight(p.ledger, inflight)
    case Reporting(outcome) =>
      && L.NoneRunning(p.ledger)
      && (p.task.status in {Running, CancelRequested} || IsTerminal(p.task.status)
          || (p.task.status == Queued && outcome.Crashed?))
    case Leaving => L.NoneRunning(p.ledger)
    case Refused => L.NoneRunning(p.ledger) && IsTerminal(p.task.status)
    case _ => L.NoneRunning(p.ledger) && (p.task.status == Queued || IsTerminal(p.task.status))
  }

  ghost predicate FrameOk(s: State, f: nat)
    requires f in s.frames
  {
    var frame := s.frames[f];
    && f < s.nextFrame
    && frame.task in s.procs
    && frame.task in s.scheduled
    && (frame.task in s.active <==> Holds(frame.phase))
    && PhaseOk(s.procs[frame.task], frame.phase)
    && (frame.task in s.wakes + s.failing ==> frame.phase.Leaving?)
  }

  ghost predicate HasFrame(s: State, t: TaskId) {
    exists f :: f in s.frames && s.frames[f].task == t
  }

  ghost predicate FramesOk(s: State) {
    && (forall f :: f in s.frames ==> FrameOk(s, f))
    && (forall f, g :: f in s.frames && g in s.frames && f != g ==> s.frames[f].task != s.frames[g].task)
    && (forall t :: t in s.scheduled ==> HasFrame(s, t))
    && s.active <= s.scheduled
  }

  ghost predicate IdleOk(s: State, t: TaskId)
    requires t in s.procs
  {
    || t in s.scheduled
    || L.NoneRunning(s.procs[t].ledger)
    || (s.boot.FailingInterrupted? && s.procs[t].task.status in {Running, CancelRequested})
  }

  ghost predicate VolatileOk(s: State) {
    && (forall t :: t in s.procs ==> IdleOk(s, t))
    && (forall t :: t in s.wakes + s.failing ==>
          t in s.procs && (s.procs[t].task.status == Queued || IsTerminal(s.procs[t].task.status)))
    && (s.boot.FailingInterrupted? ==> s.frames == map[] && s.scheduled == {})
    && (!s.boot.Serving? ==> s.wakes == {} && s.failing == {})
    && s.wakes !! s.failing
    && (s.boot.Requeueing? ==> forall t :: t in s.boot.remaining ==>
          t in s.procs && t !in s.scheduled && s.procs[t].task.status == Queued)
  }

  ghost predicate SerialsOk(s: State) {
    && (forall t :: t in s.procs && s.procs[t].queued.Some? ==>
          s.procs[t].queued.value.serial < s.nextSerial && s.procs[t].queued.value.serial !in s.dispatched)
    && (forall t, u :: t in s.procs && u in s.procs && t != u && s.procs[t].queued.Some? && s.procs[u].queued.Some? ==>
          s.procs[t].queued.value.serial != s.procs[u].queued.value.serial)
    && (forall n :: n in s.dispatched ==> n < s.nextSerial)
    && NoDup(s.dispatched)
  }

  /** A retry points at a failed, retryable task without side effects, and takes the next attempt. */
  ghost predicate RetryOk(s: State, t: TaskId)
    requires t in s.procs
  {
    match s.procs[t].task.retryOf
    case None => s.procs[t].task.attempt == 1
    case Some(source) =>
      && source in s.procs
      && Retryable(s.procs[source])
      && s.procs[t].task.attempt == s.procs[source].task.attempt + 1
  }

  ghost predicate LineageOk(s: State) {
    && (forall t :: t in s.procs ==> RetryOk(s, t))
    && (forall t, u :: t in s.procs && u in s.procs && t != u && s.procs[t].task.retryOf.Some? ==>
          s.procs[t].task.retryOf != s.procs[u].task.retryOf)
  }

  ghost predicate Inv(s: State) {
    ProcsOk(s) && FramesOk(s) && VolatileOk(s) && SerialsOk(s) && LineageOk(s)
  }

  /** Every task of `s` is still there and has only evolved. */
  ghost predicate AllEvolve(s: State, s': State) {
    forall t :: t in s.procs ==> t in s'.procs && Evolves(s.procs[t], s'.procs[t])
  }

  // ----- generic preservation --------------------------------------------------------------

  lemma EvolvesIsReflexive(p: Process)
    ensures Evolves(p, p)
  {
  }

  lemma RetryableIsStable(p: Process, q: Process)
    requires Retryable(p) && Evolves(p, q)
    ensures Retryable(q)
  {
  }

  lemma PutEvolves(s: State, t: TaskId, q: Process)
    requires t in s.procs && Evolves(s.procs[t], q)
    ensures AllEvolve(s, Put(s, t, q))
  {
    forall u | u in s.procs
      ensures Evolves(s.procs[u], Put(s, t, q).procs[u])
    {
      if u != t {
        EvolvesIsReflexive(s.procs[u]);
      }
    }
  }

  lemma PutKeepsSerials(s: State, t: TaskId, q: Process)
    requires SerialsOk(s) && t in s.procs
    requires q.queued == s.procs[t].queued || q.queued.None?
    ensures SerialsOk(Put(s, t, q))
  {
  }

  lemma PutKeepsLineage(s: State, t: TaskId, q: Process)
    requires LineageOk(s) && t in s.procs
    requires q.task.retryOf == s.procs[t].task.retryOf && q.task.attempt == s.procs[t].task.attempt
    requires Retryable(s.procs[t]) ==> Retryable(q)
    ensures LineageOk(Put(s, t, q))
  {
    var s' := Put(s, t, q);
    forall u | u in s'.procs
      ensures RetryOk(s', u)
    {
      assert RetryOk(s, u);
    }
  }

  /** Replacing one task's row by an evolved one keeps the tables. */
  lemma PutKeepsTables(s: State, t: TaskId, q: Process)
    requires ProcsOk(s) && SerialsOk(s) && LineageOk(s) && t in s.procs
    requires ProcessOk(q) && Evolves(s.procs[t], q)
    requires q.queued == s.procs[t].queued || q.queued.None?
    ensures var s' := Put(s, t, q); ProcsOk(s') && SerialsOk(s') && LineageOk(s') && AllEvolve(s, s')
  {
    PutEvolves(s, t, q);
    PutKeepsSerials(s, t, q);
    if Retryable(s.procs[t]) {
      RetryableIsStable(s.procs[t], q);
    }
    PutKeepsLineage(s, t, q);
  }

  /** The tables do not depend on the process-local fields. */
  lemma TablesOnly(s: State, s': State)
    requires ProcsOk(s) && SerialsOk(s) && LineageOk(s)
    requires s'.procs == s.procs && s'.nextSerial == s.nextSerial && s'.dispatched == s.dispatched
    ensures ProcsOk(s') && SerialsOk(s') && LineageOk(s')
  {
    forall u | u in s'.procs
      ensures RetryOk(s', u)
    {
      assert RetryOk(s, u);
    }
  }

  /** The facts a transaction on task `t` must establish about the process-local state. */
  ghost predicate FitsVolatile(s: State, t: TaskId, q: Process) {
    && (forall f :: f in s.frames && s.frames[f].task == t ==> PhaseOk(q, s.frames[f].phase))
    && (t !in s.scheduled ==> L.NoneRunning(q.ledger))
    && (t in s.wakes + s.failing ==> q.task.status == Queued || IsTerminal(q.task.status))
    && (s.boot.Requeueing? && t in s.boot.remaining ==> q.task.status == Queued)
  }

  lemma PutKeepsVolatile(s: State, t: TaskId, q: Process)
    requires FramesOk(s) && VolatileOk(s) && t in s.procs && FitsVolatile(s, t, q)
    ensures FramesOk(Put(s, t, q)) && VolatileOk(Put(s, t, q))
  {
    var s' := Put(s, t, q);
    forall f | f in s'.frames
      ensures FrameOk(s', f)
    {
      assert FrameOk(s, f);
    }
    forall u | u in s'.scheduled
      ensures HasFrame(s', u)
    {
      assert HasFrame(s, u);
    }
    forall u | u in s'.procs
      ensures IdleOk(s', u)
    {
      if u != t {
        assert IdleOk(s, u);
      }
    }
  }

  /** A transaction on one task, outside the worker frames. */
  lemma PutKeepsInv(s: State, t: TaskId, q: Process)
    requires Inv(s) && t in s.procs
    requires ProcessOk(q) && Evolves(s.procs[t], q)
    requires q.queued == s.procs[t].queued || q.queued.None?
    requires FitsVolatile(s, t, q)
    ensures Inv(Put(s, t, q)) && AllEvolve(s, Put(s, t, q))
  {
    PutKeepsTables(s, t, q);
    PutKeepsVolatile(s, t, q);
  }

  lemma AdvanceKeepsFrames(s: State, f: nat, q: Process, phase: Phase)
    requires FramesOk(s) && f in s.frames && !s.frames[f].phase.Leaving?
    requires PhaseOk(q, phase)
    ensures FramesOk(Advance(s, f, q, phase))
  {
    var t, s' := s.frames[f].task, Advance(s, f, q, phase);
    assert FrameOk(s, f);
    forall g | g in s'.frames
      ensures FrameOk(s', g)
    {
      assert FrameOk(s, g);
    }
    forall u | u in s'.scheduled
      ensures HasFrame(s', u)
    {
      assert HasFrame(s, u);
      var g :| g in s.frames && s.frames[g].task == u;
      assert s'.frames[g].task == u;
    }
  }

  lemma AdvanceKeepsVolatile(s: State, f: nat, q: Process, phase: Phase)
    requires FramesOk(s) && VolatileOk(s) && f in s.frames && !s.frames[f].phase.Leaving?
    ensures VolatileOk(Advance(s, f, q, phase))
  {
    var t, s' := s.frames[f].task, Advance(s, f, q, phase);
    assert FrameOk(s, f);
    forall u | u in s'.procs
      ensures IdleOk(s', u)
    {
      if u != t {
        assert IdleOk(s, u);
      }
    }
  }

  /** A section of one worker frame. */
  lemma AdvanceKeepsInv(s: State, f: nat, q: Process, phase: Phase)
    requires Inv(s) && f in s.frames && s.frames[f].task in s.procs && !s.frames[f].phase.Leaving?
    requires var p := ProcOf(s, f);
             ProcessOk(q) && Evolves(p, q) && (q.queued == p.queued || q.queued.None?)
    requires PhaseOk(q, phase)
    ensures Inv(Advance(s, f, q, phase)) && AllEvolve(s, Advance(s, f, q, phase))
  {
    var t := s.frames[f].task;
    PutKeepsTables(s, t, q);
    TablesOnly(Put(s, t, q), Advance(s, f, q, phase));
    AdvanceKeepsFrames(s, f, q, phase);
    AdvanceKeepsVolatile(s, f, q, phase);
  }

  // ----- worker sections -------------------------------------------------------------------

  /** A running call is one that was running before, unless the step began it. */
  lemma OnlyBeginStartsRunning(l: L.Records, op: L.LedgerOp, i: nat)
    requires L.RecordsOk(l) && i < |L.Apply(l, op)| && L.Apply(l, op)[i].status == L.Running
    ensures (i < |l| && l[i].status == L.Running && l[i].key == L.Apply(l, op)[i].key)
            || (op.OpBegin? && L.Apply(l, op)[i].key == op.key && L.Grants(l, op, op.key))
  {
  }

  lemma LedgerStepKeepsFlight(l: L.Records, op: L.LedgerOp, inflight: multiset<L.CallKey>)
    requires L.RecordsOk(l) && RunningAreInFlight(l, inflight)
    ensures !op.OpBegin? || !L.Grants(l, op, op.key) ==> RunningAreInFlight(L.Apply(l, op), inflight)
    ensures op.OpBegin? ==> RunningAreInFlight(L.Apply(l, op), inflight + multiset{op.key})
  {
    var l' := L.Apply(l, op);
    forall i | 0 <= i < |l'| && l'[i].status == L.Running
      ensures l'[i].key in inflight || (op.OpBegin? && l'[i].key == op.key && L.Grants(l, op, op.key))
    {
      OnlyBeginStartsRunning(l, op, i);
    }
  }

  /** Finishing or losing a call leaves no running record under its key. */
  lemma EndedCallIsNotRunning(l: L.Records, op: L.LedgerOp, i: nat)
    requires L.RecordsOk(l)
    requires (op.OpSucceed? && L.Succeed(l, op.key).Ok?) || (op.OpUncertain? && L.MarkUncertain(l, op.key).Ok?)
    requires i < |L.Apply(l, op)| && L.Apply(l, op)[i].key == op.key
    ensures L.Apply(l, op)[i].status != L.Running
  {
    L.IndexOfIsUnique(l, i);
  }

  lemma EndedCallLeavesFlight(l: L.Records, op: L.LedgerOp, inflight: multiset<L.CallKey>)
    requires L.RecordsOk(l) && RunningAreInFlight(l, inflight)
    requires (op.OpSucceed? && L.Succeed(l, op.key).Ok?) || (op.OpUncertain? && L.MarkUncertain(l, op.key).Ok?)
    ensures RunningAreInFlight(L.Apply(l, op), inflight - multiset{op.key})
  {
    LedgerStepKeepsFlight(l, op, inflight);
    var l' := L.Apply(l, op);
    forall i | 0 <= i < |l'| && l'[i].status == L.Running
      ensures l'[i].key in inflight - multiset{op.key}
    {
      if l'[i].key == op.key {
        EndedCallIsNotRunning(l, op, i);
      }
    }
  }

  lemma NothingChanges(s: State)
    ensures AllEvolve(s, s)
  {
    forall t | t in s.procs
      ensures Evolves(s.procs[t], s.procs[t])
    {
      EvolvesIsReflexive(s.procs[t]);
    }
  }

  /** A section that only moves the frame on. */
  lemma MoveKeepsInv(s: State, f: nat, phase: Phase)
    requires Inv(s) && Live(s, f) && !s.frames[f].phase.Leaving? && PhaseOk(ProcOf(s, f), phase)
    ensures var s' := Advance(s, f, ProcOf(s, f), phase); Inv(s') && AllEvolve(s, s')
  {
    EvolvesIsReflexive(ProcOf(s, f));
    AdvanceKeepsInv(s, f, ProcOf(s, f), phase);
  }

  lemma EnterKeepsInv(s: State, f: nat)
    requires Inv(s)
    ensures Inv(DoEnter(s, f)) && AllEvolve(s, DoEnter(s, f))
  {
    NothingChanges(s);
    if Live(s, f) && s.frames[f].phase.Scheduled? {
      assert FrameOk(s, f);
      MoveKeepsInv(s, f, Entered);
    }
  }

  lemma LeaveRefusedKeepsInv(s: State, f: nat)
    requires Inv(s)
    ensures Inv(DoLeaveRefused(s, f)) && AllEvolve(s, DoLeaveRefused(s, f))
  {
    NothingChanges(s);
    if Live(s, f) && s.frames[f].phase.Refused? {
      assert FrameOk(s, f);
      MoveKeepsInv(s, f, Leaving);
    }
  }

  lemma LeaveDispatchKeepsInv(s: State, f: nat, outcome: Outcome)
    requires Inv(s)
    ensures Inv(DoLeaveDispatch(s, f, outcome)) && AllEvolve(s, DoLeaveDispatch(s, f, outcome))
  {
    NothingChanges(s);
    if DoLeaveDispatch(s, f, outcome) != s {
      assert FrameOk(s, f);
      MoveKeepsInv(s, f, Reporting(outcome));
    }
  }

  /** The command a worker claims was neither dispatched before nor is it queued any longer. */
  lemma ClaimedSerialIsFresh(s: State, t: TaskId, q: Process, serial: nat)
    requires SerialsOk(s) && t in s.procs && s.procs[t].queued.Some? && s.procs[t].queued.value.serial == serial
    requires q.queued.None?
    ensures SerialsOk(Put(s, t, q).(dispatched := s.dispatched + [serial]))
  {
  }

  lemma ClaimKeepsInv(s: State, f: nat)
    requires Inv(s)
    ensures Inv(DoClaim(s, f)) && AllEvolve(s, DoClaim(s, f))
  {
    NothingChanges(s);
    if Live(s, f) && s.frames[f].phase.Entered? {
      var t, p := s.frames[f].task, ProcOf(s, f);
      assert FrameOk(s, f);
      ClaimOk(p);
      match Claim(p).value {
        case None => MoveKeepsInv(s, f, Refused);
        case Some(v) => ClaimedKeepsInv(s, f, v.0, v.1);
      }
    }
  }

  lemma ClaimedKeepsInv(s: State, f: nat, q: Process, command: Command)
    requires Inv(s) && Live(s, f) && s.frames[f].phase.Entered?
    requires ProcessOk(q) && Evolves(ProcOf(s, f), q) && q.queued.None? && PhaseOk(q, Dispatching(multiset{}))
    requires ProcOf(s, f).queued == Some(command)
    ensures var s' := Advance(s, f, q, Dispatching(multiset{})).(dispatched := s.dispatched + [command.serial]);
            Inv(s') && AllEvolve(s, s')
  {
    var moved := Advance(s, f, q, Dispatching(multiset{}));
    var s' := moved.(dispatched := s.dispatched + [command.serial]);
    AdvanceKeepsInv(s, f, q, Dispatching(multiset{}));
    ClaimedSerialIsFresh(s, s.frames[f].task, q, command.serial);
    SameSerials(Put(s, s.frames[f].task, q).(dispatched := s'.dispatched), s');
    SameLineage(moved, s');
    SameVolatile(moved, s');
  }

  lemma SameSerials(s: State, s': State)
    requires SerialsOk(s) && s'.procs == s.procs && s'.nextSerial == s.nextSerial && s'.dispatched == s.dispatched
    ensures SerialsOk(s')
  {
  }

  /** The process-local invariants do not read the serials or the dispatch history. */
  lemma SameVolatile(s: State, s': State)
    requires FramesOk(s) && VolatileOk(s)
    requires s' == s.(nextSerial := s'.nextSerial, dispatched := s'.dispatched)
    ensures FramesOk(s') && VolatileOk(s')
  {
    assert forall f :: f in s'.frames ==> FrameOk(s, f) && FrameOk(s', f);
    assert forall u :: u in s'.scheduled ==> HasFrame(s, u) && HasFrame(s', u);
    assert forall u :: u in s'.procs ==> IdleOk(s, u) && IdleOk(s', u);
  }

  // ----- tool calls of a dispatching worker ------------------------------------------------

  /** What a dispatching worker knows of its task. */
  ghost predicate InDispatch(p: Process, inflight: multiset<L.CallKey>) {
    ProcessOk(p) && PhaseOk(p, Dispatching(inflight))
  }

  /** What a section of a dispatching worker leaves behind. */
  ghost predicate StaysInDispatch(p: Process, q: Process, inflight: multiset<L.CallKey>) {
    ProcessOk(q) && Evolves(p, q) && q.queued == p.queued && PhaseOk(q, Dispatching(inflight))
  }

  lemma LedgerStepStays(p: Process, op: L.LedgerOp, inflight: multiset<L.CallKey>)
    requires InDispatch(p, inflight) && !op.OpBegin?
    ensures StaysInDispatch(p, p.(ledger := L.Apply(p.ledger, op)), inflight)
  {
    LedgerStepOk(p, op);
    LedgerStepKeepsFlight(p.ledger, op, inflight);
  }

  lemma BeginStays(p: Process, key: L.CallKey, inflight: multiset<L.CallKey>)
    requires InDispatch(p, inflight) && ToolBegin(p, key).Ok?
    ensures var (q, granted) := ToolBegin(p, key).value;
            StaysInDispatch(p, q, if granted then inflight + multiset{key} else inflight)
  {
    var op := L.OpBegin(key);
    LedgerStepOk(p, op);
    LedgerStepKeepsFlight(p.ledger, op, inflight);
  }

  lemma SucceedStays(p: Process, key: L.CallKey, content: Text, inflight: multiset<L.CallKey>)
    requires InDispatch(p, inflight) && key in inflight && ToolSucceed(p, key, content).Ok?
    ensures StaysInDispatch(p, ToolSucceed(p, key, content).value, inflight - multiset{key})
  {
    ToolSucceedOk(p, key, content);
    EndedCallLeavesFlight(p.ledger, L.OpSucceed(key), inflight);
  }

  lemma LoseStays(p: Process, key: L.CallKey, inflight: multiset<L.CallKey>)
    requires InDispatch(p, inflight) && key in inflight && ToolUncertain(p, key).Ok?
    ensures StaysInDispatch(p, ToolUncertain(p, key).value, inflight - multiset{key})
  {
    LedgerStepOk(p, L.OpUncertain(key));
    EndedCallLeavesFlight(p.ledger, L.OpUncertain(key), inflight);
  }

  lemma CancelStays(p: Process, key: L.CallKey, inflight: multiset<L.CallKey>)
    requires InDispatch(p, inflight) && ToolCancel(p, key).Ok?
    ensures StaysInDispatch(p, ToolCancel(p, key).value, inflight)
  {
    LedgerStepStays(p, L.OpCancel(key), inflight);
  }

  lemma DispatchStepKeepsInv(s: State, f: nat, q: Process, inflight: multiset<L.CallKey>)
    requires Inv(s) && Dispatches(s, f) && StaysInDispatch(ProcOf(s, f), q, inflight)
    ensures var s' := Advance(s, f, q, Dispatching(inflight)); Inv(s') && AllEvolve(s, s')
  {
    AdvanceKeepsInv(s, f, q, Dispatching(inflight));
  }

  lemma DispatchingOk(s: State, f: nat)
    requires Inv(s) && Dispatches(s, f)
    ensures InDispatch(ProcOf(s, f), s.frames[f].phase.inflight)
  {
    assert FrameOk(s, f);
  }

  lemma PrepareToolKeepsInv(s: State, f: nat, key: L.CallKey, required: bool, effect: bool)
    requires Inv(s)
    ensures var s' := DoPrepareTool(s, f, key, required, effect); Inv(s') && AllEvolve(s, s')
  {
    NothingChanges(s);
    if Dispatches(s, f) && ToolPrepare(ProcOf(s, f), key, required, effect).Ok? {
      DispatchingOk(s, f);
      LedgerStepStays(ProcOf(s, f), L.OpPrepare(key, required, effect), s.frames[f].phase.inflight);
      DispatchStepKeepsInv(s, f, ToolPrepare(ProcOf(s, f), key, required, effect).value, s.frames[f].phase.inflight);
    }
  }

  lemma BeginToolKeepsInv(s: State, f: nat, key: L.CallKey)
    requires Inv(s)
    ensures Inv(DoBeginTool(s, f, key)) && AllEvolve(s, DoBeginTool(s, f, key))
  {
    NothingChanges(s);
    if Dispatches(s, f) && ToolBegin(ProcOf(s, f), key).Ok? {
      var inflight := s.frames[f].phase.inflight;
      var (q, granted) := ToolBegin(ProcOf(s, f), key).value;
      DispatchingOk(s, f);
      BeginStays(ProcOf(s, f), key, inflight);
      DispatchStepKeepsInv(s, f, q, if granted then inflight + multiset{key} else inflight);
    }
  }

  lemma SucceedToolKeepsInv(s: State, f: nat, key: L.CallKey, content: Text)
    requires Inv(s)
    ensures Inv(DoSucceedTool(s, f, key, content)) && AllEvolve(s, DoSucceedTool(s, f, key, content))
  {
    NothingChanges(s);
    if Dispatches(s, f) && key in s.frames[f].phase.inflight && ToolSucceed(ProcOf(s, f), key, content).Ok? {
      var inflight := s.frames[f].phase.inflight;
      DispatchingOk(s, f);
      SucceedStays(ProcOf(s, f), key, content, inflight);
      DispatchStepKeepsInv(s, f, ToolSucceed(ProcOf(s, f), key, content).value, inflight - multiset{key});
    }
  }

  lemma LoseToolKeepsInv(s: State, f: nat, key: L.CallKey)
    requires Inv(s)
    ensures Inv(DoLoseTool(s, f, key)) && AllEvolve(s, DoLoseTool(s, f, key))
  {
    NothingChanges(s);
    if Dispatches(s, f) && key in s.frames[f].phase.inflight && ToolUncertain(ProcOf(s, f), key).Ok? {
      var inflight := s.frames[f].phase.inflight;
      DispatchingOk(s, f);
      LoseStays(ProcOf(s, f), key, inflight);
      DispatchStepKeepsInv(s, f, ToolUncertain(ProcOf(s, f), key).value, inflight - multiset{key});
    }
  }

  lemma CancelToolKeepsInv(s: State, f: nat, key: L.CallKey)
    requires Inv(s)
    ensures Inv(DoCancelTool(s, f, key)) && AllEvolve(s, DoCancelTool(s, f, key))
  {
    NothingChanges(s);
    if Dispatches(s, f) && ToolCancel(ProcOf(s, f), key).Ok? {
      var inflight := s.frames[f].phase.inflight;
      DispatchingOk(s, f);
      CancelStays(ProcOf(s, f), key, inflight);
      DispatchStepKeepsInv(s, f, ToolCancel(ProcOf(s, f), key).value, inflight);
    }
  }

  lemma RecordKeepsInv(s: State, f: nat, fallbackRetryable: bool)
    requires Inv(s)
    ensures Inv(DoRecord(s, f, fallbackRetryable)) && AllEvolve(s, DoRecord(s, f, fallbackRetryable))
  {
    NothingChanges(s);
    if Live(s, f) && s.frames[f].phase.Reporting? {
      var p, outcome := ProcOf(s, f), s.frames[f].phase.outcome;
      assert FrameOk(s, f);
      OutcomeOk(p, outcome, fallbackRetryable);
      AdvanceKeepsInv(s, f, RecordOutcome(p, outcome, fallbackRetryable).value, Leaving);
    }
  }

  lemma ForgetKeepsFrames(s: State, f: nat)
    requires FramesOk(s) && VolatileOk(s) && Live(s, f) && s.frames[f].phase.Leaving?
    ensures FramesOk(DoForget(s, f)) && VolatileOk(DoForget(s, f))
  {
    var t, s' := s.frames[f].task, DoForget(s, f);
    assert FrameOk(s, f);
    forall g | g in s'.frames
      ensures FrameOk(s', g)
    {
      assert FrameOk(s, g);
    }
    forall u | u in s'.scheduled
      ensures HasFrame(s', u)
    {
      assert HasFrame(s, u);
      var g :| g in s.frames && s.frames[g].task == u;
      assert g in s'.frames;
    }
    forall u | u in s'.procs
      ensures IdleOk(s', u)
    {
      assert IdleOk(s, u);
    }
  }

  lemma ForgetKeepsInv(s: State, f: nat)
    requires Inv(s)
    ensures Inv(DoForget(s, f)) && AllEvolve(s, DoForget(s, f))
  {
    NothingChanges(s);
    if Live(s, f) && s.frames[f].phase.Leaving? {
      ForgetKeepsFrames(s, f);
      TablesOnly(s, DoForget(s, f));
    }
  }

  lemma ToolStepKeepsInv(s: State, op: Op)
    requires Inv(s) && IsTool(op)
    ensures Inv(StepTool(s, op)) && AllEvolve(s, StepTool(s, op))
  {
    match op
    case PrepareTool(f, key, required, effect) => PrepareToolKeepsInv(s, f, key, required, effect);
    case BeginTool(f, key) => BeginToolKeepsInv(s, f, key);
    case SucceedTool(f, key, content) => SucceedToolKeepsInv(s, f, key, content);
    case LoseTool(f, key) => LoseToolKeepsInv(s, f, key);
    case CancelTool(f, key) => CancelToolKeepsInv(s, f, key);
  }

  lemma FrameStepKeepsInv(s: State, op: Op)
    requires Inv(s) && IsFrame(op)
    ensures Inv(StepFrame(s, op)) && AllEvolve(s, StepFrame(s, op))
  {
    match op
    case Enter(f) => EnterKeepsInv(s, f);
    case ClaimCommand(f) => ClaimKeepsInv(s, f);
    case LeaveRefused(f) => LeaveRefusedKeepsInv(s, f);
    case FinishDispatch(f, result) => LeaveDispatchKeepsInv(s, f, Finished(result));
    case AbortDispatch(f, retryable) => LeaveDispatchKeepsInv(s, f, Crashed(retryable));
    case Record(f, fallbackRetryable) => RecordKeepsInv(s, f, fallbackRetryable);
    case Forget(f) => ForgetKeepsInv(s, f);
  }

  // ----- request sections ------------------------------------------------------------------

  /** The lineage facts that admit `p` as the row of a new task. */
  ghost predicate FitsLineage(s: State, p: Process) {
    match p.task.retryOf
    case None => p.task.attempt == 1
    case Some(source) =>
      && source in s.procs && Retryable(s.procs[source]) && !HasRetry(s, source)
      && p.task.attempt == s.procs[source].task.attempt + 1
  }

  lemma AddTaskKeepsLineage(s: State, t: TaskId, p: Process, queue: bool)
    requires LineageOk(s) && t !in s.procs && FitsLineage(s, p)
    ensures LineageOk(AddTask(s, t, p, queue))
  {
    var s' := AddTask(s, t, p, queue);
    forall u | u in s'.procs
      ensures RetryOk(s', u)
    {
      if u != t {
        assert RetryOk(s, u);
      }
    }
  }

  lemma AddTaskKeepsSerials(s: State, t: TaskId, p: Process, queue: bool)
    requires SerialsOk(s)
    requires p.queued.Some? ==> p.queued.value.serial == s.nextSerial
    ensures SerialsOk(AddTask(s, t, p, queue))
  {
  }

  lemma AddTaskKeepsFrames(s: State, t: TaskId, p: Process, queue: bool)
    requires FramesOk(s)
    requires forall f :: f in s.frames && s.frames[f].task == t ==> s.frames[f].phase.Leaving?
    requires L.NoneRunning(p.ledger)
    ensures FramesOk(AddTask(s, t, p, queue))
  {
    var s' := AddTask(s, t, p, queue);
    forall f | f in s'.frames
      ensures FrameOk(s', f)
    {
      assert FrameOk(s, f);
    }
    forall u | u in s'.scheduled
      ensures HasFrame(s', u)
    {
      assert HasFrame(s, u);
    }
  }

  lemma AddTaskKeepsVolatile(s: State, t: TaskId, p: Process, queue: bool)
    requires VolatileOk(s) && s.boot.Serving? && t !in s.wakes + s.failing
    requires L.NoneRunning(p.ledger) && (queue ==> p.task.status == Queued)
    ensures VolatileOk(AddTask(s, t, p, queue))
  {
    var s' := AddTask(s, t, p, queue);
    forall u | u in s'.procs
      ensures IdleOk(s', u)
    {
      if u != t {
        assert IdleOk(s, u);
      }
    }
  }

  lemma AddTaskKeepsProcs(s: State, t: TaskId, p: Process, queue: bool)
    requires ProcsOk(s) && ProcessOk(p)
    ensures ProcsOk(AddTask(s, t, p, queue))
  {
  }

  lemma AddTaskEvolves(s: State, t: TaskId, p: Process, queue: bool)
    requires t in s.procs ==> Evolves(s.procs[t], p)
    ensures AllEvolve(s, AddTask(s, t, p, queue))
  {
    forall u | u in s.procs
      ensures Evolves(s.procs[u], AddTask(s, t, p, queue).procs[u])
    {
      if u != t {
        EvolvesIsReflexive(s.procs[u]);
      }
    }
  }

  lemma NewTaskKeepsInv(s: State, t: TaskId, p: Process, queue: bool)
    requires Inv(s) && s.boot.Serving? && t !in s.procs
    requires ProcessOk(p) && p.ledger == [] && FitsLineage(s, p)
    requires queue ==> p.task.status == Queued
    requires p.queued.Some? ==> p.queued.value.serial == s.nextSerial
    ensures Inv(AddTask(s, t, p, queue)) && AllEvolve(s, AddTask(s, t, p, queue))
  {
    forall f | f in s.frames
      ensures s.frames[f].task != t
    {
      assert FrameOk(s, f);
    }
    AddTaskKeepsLineage(s, t, p, queue);
    AddTaskKeepsSerials(s, t, p, queue);
    AddTaskKeepsFrames(s, t, p, queue);
    AddTaskKeepsVolatile(s, t, p, queue);
    AddTaskEvolves(s, t, p, queue);
    AddTaskKeepsProcs(s, t, p, queue);
  }

  lemma AcceptKeepsInv(s: State, t: TaskId, thread: ThreadId, queue: bool)
    requires Inv(s) && s.boot.Serving?
    ensures Inv(DoAccept(s, t, thread, queue)) && AllEvolve(s, DoAccept(s, t, thread, queue))
  {
    NothingChanges(s);
    if t !in s.procs {
      AcceptOk(thread, None, 1, queue, s.nextSerial);
      NewTaskKeepsInv(s, t, Accept(thread, None, 1, queue, s.nextSerial).value, queue);
    }
  }

  lemma EvolveIsTransitive(a: State, b: State, c: State)
    requires AllEvolve(a, b) && AllEvolve(b, c)
    ensures AllEvolve(a, c)
  {
    forall t | t in a.procs
      ensures t in c.procs && Evolves(a.procs[t], c.procs[t])
    {
      EvolvesIsTransitive(a.procs[t], b.procs[t], c.procs[t]);
    }
  }

  /** Noting the retry on a failed source changes nothing but its log. */
  lemma NoteKeepsInv(s: State, source: TaskId)
    requires Inv(s) && s.boot.Serving? && source in s.procs && s.procs[source].task.status == Failed
    ensures var noted := Put(s, source, AppendEvent(s.procs[source], RetryRequested));
            Inv(noted) && AllEvolve(s, noted)
  {
    var p := s.procs[source];
    var q := AppendEvent(p, RetryRequested);
    AppendKeepsLog(p, RetryRequested);
    forall f | f in s.frames && s.frames[f].task == source
      ensures PhaseOk(q, s.frames[f].phase)
    {
      assert FrameOk(s, f);
    }
    assert IdleOk(s, source);
    PutKeepsInv(s, source, q);
  }

  lemma RetryKeepsInv(s: State, source: TaskId, t: TaskId, thread: ThreadId, queue: bool)
    requires Inv(s) && s.boot.Serving?
    ensures Inv(DoRetry(s, source, t, thread, queue)) && AllEvolve(s, DoRetry(s, source, t, thread, queue))
  {
    NothingChanges(s);
    if t !in s.procs && source in s.procs && Retryable(s.procs[source]) && !HasRetry(s, source) {
      var attempt := s.procs[source].task.attempt + 1;
      AcceptOk(thread, Some(source), attempt, queue, s.nextSerial);
      var p := Accept(thread, Some(source), attempt, queue, s.nextSerial).value;
      AppendKeepsLog(p, Retried);
      RetriedKeepsInv(s, source, t, AppendEvent(p, Retried), queue);
    }
  }

  lemma RetriedKeepsInv(s: State, source: TaskId, t: TaskId, p: Process, queue: bool)
    requires Inv(s) && s.boot.Serving? && t !in s.procs && source in s.procs
    requires Retryable(s.procs[source]) && !HasRetry(s, source)
    requires p.task.retryOf == Some(source) && p.task.attempt == s.procs[source].task.attempt + 1
    requires ProcessOk(p) && p.ledger == []
    requires queue ==> p.task.status == Queued
    requires p.queued.Some? ==> p.queued.value.serial == s.nextSerial
    ensures var noted := Put(s, source, AppendEvent(s.procs[source], RetryRequested));
            var s' := AddTask(noted, t, p, queue);
            Inv(s') && AllEvolve(s, s')
  {
    var noted := Put(s, source, AppendEvent(s.procs[source], RetryRequested));
    NoteKeepsInv(s, source);
    NotedAdmitsRetry(s, source, p);
    NewTaskKeepsInv(noted, t, p, queue);
    EvolveIsTransitive(s, noted, AddTask(noted, t, p, queue));
  }

  lemma NotedAdmitsRetry(s: State, source: TaskId, p: Process)
    requires source in s.procs && Retryable(s.procs[source]) && !HasRetry(s, source)
    requires p.task.retryOf == Some(source) && p.task.attempt == s.procs[source].task.attempt + 1
    ensures FitsLineage(Put(s, source, AppendEvent(s.procs[source], RetryRequested)), p)
  {
  }

  lemma ContinueKeepsInv(s: State, t: TaskId, payload: Payload)
    requires Inv(s) && s.boot.Serving?
    ensures Inv(DoContinue(s, t, payload)) && AllEvolve(s, DoContinue(s, t, payload))
  {
    NothingChanges(s);
    if t in s.procs && AcceptContinuation(s.procs[t], payload, s.nextSerial).Ok? {
      var p, q := s.procs[t], AcceptContinuation(s.procs[t], payload, s.nextSerial).value;
      ContinuationOk(p, payload, s.nextSerial);
      WaitingTaskIsIdle(s, t);
      ResumedTaskKeepsInv(s, t, q);
    }
  }

  lemma ResumedTaskKeepsInv(s: State, t: TaskId, q: Process)
    requires Inv(s) && s.boot.Serving? && t in s.procs
    requires s.procs[t].task.status in {InputRequired, AuthRequired}
    requires forall f :: f in s.frames && s.frames[f].task == t ==> s.frames[f].phase.Leaving?
    requires ProcessOk(q) && Evolves(s.procs[t], q) && L.NoneRunning(q.ledger) && q.task.status == Queued
    requires q.queued.Some? && q.queued.value.serial == s.nextSerial
    ensures Inv(AddTask(s, t, q, true)) && AllEvolve(s, AddTask(s, t, q, true))
  {
    AddTaskKeepsSerials(s, t, q, true);
    AddTaskKeepsFrames(s, t, q, true);
    AddTaskKeepsVolatile(s, t, q, true);
    AddTaskEvolves(s, t, q, true);
    ResumeKeepsLineage(s, t, q);
    AddTaskKeepsProcs(s, t, q, true);
  }

  lemma ResumeKeepsLineage(s: State, t: TaskId, q: Process)
    requires LineageOk(s) && t in s.procs && !Retryable(s.procs[t]) && Evolves(s.procs[t], q)
    ensures LineageOk(AddTask(s, t, q, true))
  {
    PutKeepsLineage(s, t, q);
    SameLineage(Put(s, t, q), AddTask(s, t, q, true));
  }

  lemma SameLineage(s: State, s': State)
    requires LineageOk(s) && s'.procs == s.procs
    ensures LineageOk(s')
  {
    forall u | u in s'.procs
      ensures RetryOk(s', u)
    {
      assert RetryOk(s, u);
    }
  }

  /** A task that waits for its operator has at most a leaving frame and no call running. */
  lemma WaitingTaskIsIdle(s: State, t: TaskId)
    requires FramesOk(s) && VolatileOk(s) && t in s.procs && s.procs[t].task.status in {InputRequired, AuthRequired}
    ensures forall f :: f in s.frames && s.frames[f].task == t ==> s.frames[f].phase.Leaving?
    ensures L.NoneRunning(s.procs[t].ledger)
  {
    forall f | f in s.frames && s.frames[f].task == t
      ensures s.frames[f].phase.Leaving?
    {
      assert FrameOk(s, f);
    }
    RunningCallHasRunningTask(s, t);
  }

  /** Unless a worker holds the task, none of its calls is running. */
  lemma InactiveHasNoneRunning(s: State, t: TaskId)
    requires Inv(s) && s.boot.Serving? && t in s.procs
    ensures L.NoneRunning(s.procs[t].ledger) || (t in s.active && s.procs[t].task.status in {Running, CancelRequested})
  {
    if t in s.scheduled {
      assert HasFrame(s, t);
      var f :| f in s.frames && s.frames[f].task == t;
      assert FrameOk(s, f);
    } else {
      assert IdleOk(s, t);
    }
  }

  lemma CancelFitsVolatile(s: State, t: TaskId, q: Process)
    requires Inv(s) && s.boot.Serving? && t in s.procs
    requires L.NoneRunning(s.procs[t].ledger) ==> L.NoneRunning(q.ledger)
    requires q.task.status in {CancelRequested, Canceled}
    requires q.task.status == CancelRequested ==>
               s.procs[t].task.status in {Running, CancelRequested} && q.ledger == s.procs[t].ledger
    requires t in s.active && s.procs[t].task.status in {Running, CancelRequested} ==> q.task.status == CancelRequested
    ensures FitsVolatile(s, t, q)
  {
    InactiveHasNoneRunning(s, t);
    forall f | f in s.frames && s.frames[f].task == t
      ensures PhaseOk(q, s.frames[f].phase)
    {
      assert FrameOk(s, f);
    }
  }

  lemma CancelKeepsInv(s: State, t: TaskId)
    requires Inv(s) && s.boot.Serving?
    ensures Inv(DoCancel(s, t)) && AllEvolve(s, DoCancel(s, t))
  {
    NothingChanges(s);
    if t in s.procs && CommitCancellation(s.procs[t], t in s.active).Ok? {
      var p, q := s.procs[t], CommitCancellation(s.procs[t], t in s.active).value;
      InactiveHasNoneRunning(s, t);
      CommitCancellationOk(p, t in s.active);
      CancelFitsVolatile(s, t, q);
      PutKeepsInv(s, t, q);
    }
  }

  lemma ScheduleKeepsInv(s: State, t: TaskId)
    requires Inv(s) && t in s.procs && (s.procs[t].task.status == Queued || IsTerminal(s.procs[t].task.status))
    requires !s.boot.FailingInterrupted? && t !in s.wakes + s.failing
    requires s.boot.Requeueing? ==> t !in s.boot.remaining
    ensures Inv(Schedule(s, t)) && Schedule(s, t).procs == s.procs
  {
    TablesOnly(s, Schedule(s, t));
    if Schedule(s, t) != s {
      assert IdleOk(s, t);
      ScheduleKeepsFrames(s, t);
      ScheduleKeepsVolatile(s, t);
    }
  }

  lemma ScheduleKeepsFrames(s: State, t: TaskId)
    requires FramesOk(s) && t in s.procs && t !in s.active && t !in s.scheduled && t !in s.wakes + s.failing
    requires PhaseOk(s.procs[t], Scheduled)
    ensures FramesOk(Schedule(s, t))
  {
    var s' := Schedule(s, t);
    ScheduleKeepsHandles(s, t);
    forall f | f in s'.frames
      ensures FrameOk(s', f)
    {
      if f in s.frames {
        assert FrameOk(s, f);
      }
    }
  }

  lemma ScheduleKeepsVolatile(s: State, t: TaskId)
    requires VolatileOk(s) && !s.boot.FailingInterrupted? && t !in s.active && t !in s.scheduled
    requires s.boot.Requeueing? ==> t !in s.boot.remaining
    ensures VolatileOk(Schedule(s, t))
  {
    var s' := Schedule(s, t);
    forall u | u in s'.procs
      ensures IdleOk(s', u)
    {
      assert IdleOk(s, u);
    }
  }

  lemma ScheduleKeepsHandles(s: State, t: TaskId)
    requires FramesOk(s) && t !in s.active && t !in s.scheduled
    ensures var s' := Schedule(s, t);
            && (forall f, g :: f in s'.frames && g in s'.frames && f != g ==> s'.frames[f].task != s'.frames[g].task)
            && (forall u :: u in s'.scheduled ==> HasFrame(s', u))
            && (forall f :: f in s.frames ==> f in s'.frames && s'.frames[f] == s.frames[f])
  {
    var s' := Schedule(s, t);
    forall f | f in s.frames
      ensures f < s.nextFrame && s.frames[f].task != t
    {
      assert FrameOk(s, f);
    }
    forall u | u in s'.scheduled
      ensures HasFrame(s', u)
    {
      if u != t {
        assert HasFrame(s, u);
        var g :| g in s.frames && s.frames[g].task == u;
        assert g in s'.frames && s'.frames[g].task == u;
      } else {
        assert s'.frames[s.nextFrame].task == u;
      }
    }
  }

  /** Taking a pending wake up, or moving it to the failing ones, disturbs nothing else. */
  lemma TakeWakeKeepsInv(s: State, t: TaskId, fails: bool)
    requires Inv(s) && s.boot.Serving? && t in s.wakes
    ensures Inv(TakeWake(s, t, fails))
  {
    var s' := TakeWake(s, t, fails);
    TablesOnly(s, s');
    SameFrames(s, s');
    TakeWakeKeepsVolatile(s, t, fails);
  }

  lemma TakeWakeKeepsVolatile(s: State, t: TaskId, fails: bool)
    requires VolatileOk(s) && s.boot.Serving? && t in s.wakes
    ensures VolatileOk(TakeWake(s, t, fails))
  {
    var s' := TakeWake(s, t, fails);
    assert forall u :: u in s'.procs ==> IdleOk(s, u) && IdleOk(s', u);
  }

  /** The frame invariant does not read the boot phase and allows wakes to be taken away. */
  lemma SameFrames(s: State, s': State)
    requires FramesOk(s) && s' == s.(wakes := s'.wakes, failing := s'.failing, boot := s'.boot)
    requires s'.wakes + s'.failing <= s.wakes + s.failing
    ensures FramesOk(s')
  {
    assert forall f :: f in s'.frames ==> FrameOk(s, f) && FrameOk(s', f);
    assert forall u :: u in s'.scheduled ==> HasFrame(s, u) && HasFrame(s', u);
  }

  lemma WakeKeepsInv(s: State, t: TaskId)
    requires Inv(s) && s.boot.Serving?
    ensures Inv(DoWake(s, t)) && AllEvolve(s, DoWake(s, t))
  {
    NothingChanges(s);
    if t in s.wakes {
      TakeWakeKeepsInv(s, t, false);
      ScheduleKeepsInv(TakeWake(s, t, false), t);
    }
  }

  lemma WakeFailsKeepsInv(s: State, t: TaskId)
    requires Inv(s) && s.boot.Serving?
    ensures Inv(DoWakeFails(s, t)) && AllEvolve(s, DoWakeFails(s, t))
  {
    NothingChanges(s);
    if DoWakeFails(s, t) != s {
      TakeWakeKeepsInv(s, t, true);
    }
  }

  /** A task whose wake failed can be failed: no worker holds it. */
  lemma FailFitsVolatile(s: State, t: TaskId, q: Process)
    requires Inv(s) && !s.boot.FailingInterrupted? && t in s.procs && t !in s.active
    requires s.procs[t].task.status == Queued || IsTerminal(s.procs[t].task.status)
    requires IsTerminal(q.task.status) && (q == s.procs[t] || L.Closed(q.ledger))
    requires s.boot.Requeueing? ==> t !in s.boot.remaining
    ensures FitsVolatile(s, t, q)
  {
    assert IdleOk(s, t);
    forall f | f in s.frames && s.frames[f].task == t
      ensures PhaseOk(q, s.frames[f].phase)
    {
      assert FrameOk(s, f);
    }
  }

  lemma DropFailing(s: State, t: TaskId)
    requires Inv(s)
    ensures Inv(s.(failing := s.failing - {t}))
  {
    var s' := s.(failing := s.failing - {t});
    TablesOnly(s, s');
    SameFrames(s, s');
    assert forall u :: u in s'.procs ==> IdleOk(s, u) && IdleOk(s', u);
  }

  lemma RecordWakeFailureKeepsInv(s: State, t: TaskId, retryable: bool)
    requires Inv(s) && s.boot.Serving?
    ensures Inv(DoRecordWakeFailure(s, t, retryable)) && AllEvolve(s, DoRecordWakeFailure(s, t, retryable))
  {
    NothingChanges(s);
    if t in s.failing && t in s.procs {
      var p, q := s.procs[t], RecordFailure(s.procs[t], retryable).value;
      FailureOk(p, retryable);
      FailingIsNotActive(s, t);
      FailFitsVolatile(s, t, q);
      PutKeepsInv(s, t, q);
      DropFailing(Put(s, t, q), t);
    }
  }

  lemma FailingIsNotActive(s: State, t: TaskId)
    requires Inv(s) && t in s.wakes + s.failing
    ensures t !in s.active
  {
    if t in s.scheduled {
      assert HasFrame(s, t);
      var f :| f in s.frames && s.frames[f].task == t;
      assert FrameOk(s, f);
    }
  }

  lemma RequestStepKeepsInv(s: State, op: Op)
    requires Inv(s) && s.boot.Serving? && IsRequest(op)
    ensures Inv(StepRequest(s, op)) && AllEvolve(s, StepRequest(s, op))
  {
    match op
    case AcceptTask(t, thread, queue) => AcceptKeepsInv(s, t, thread, queue);
    case AcceptRetry(source, t, thread, queue) => RetryKeepsInv(s, source, t, thread, queue);
    case Continue(t, payload) => ContinueKeepsInv(s, t, payload);
    case CancelTask(t) => CancelKeepsInv(s, t);
    case Wake(t) => WakeKeepsInv(s, t);
    case WakeFails(t) => WakeFailsKeepsInv(s, t);
    case RecordWakeFailure(t, retryable) => RecordWakeFailureKeepsInv(s, t, retryable);
  }

  // ----- restart sections ------------------------------------------------------------------

  lemma CrashKeepsInv(s: State)
    requires Inv(s)
    ensures Inv(DoCrash(s)) && AllEvolve(s, DoCrash(s))
  {
    NothingChanges(s);
    var s' := DoCrash(s);
    TablesOnly(s, s');
    forall u | u in s'.procs
      ensures IdleOk(s', u)
    {
      RunningCallHasRunningTask(s, u);
    }
  }

  lemma RunningCallHasRunningTask(s: State, t: TaskId)
    requires FramesOk(s) && VolatileOk(s) && t in s.procs
    ensures L.NoneRunning(s.procs[t].ledger) || s.procs[t].task.status in {Running, CancelRequested}
  {
    assert IdleOk(s, t);
    if t in s.scheduled {
      assert HasFrame(s, t);
      var f :| f in s.frames && s.frames[f].task == t;
      assert FrameOk(s, f);
    }
  }

  lemma FailRecoveryKeepsInv(s: State, t: TaskId)
    requires Inv(s) && t in s.procs && t !in s.scheduled
    requires s.boot.Requeueing? ==> t !in s.boot.remaining
    ensures Inv(FailRecovery(s, t)) && AllEvolve(s, FailRecovery(s, t))
  {
    var p, q := s.procs[t], RecordRecoveryFailure(s.procs[t]).value;
    RecoveryOk(p);
    RunningCallHasRunningTask(s, t);
    forall f | f in s.frames
      ensures s.frames[f].task != t
    {
      assert FrameOk(s, f);
    }
    PutKeepsInv(s, t, q);
  }

  lemma FailInterruptedKeepsInv(s: State, t: TaskId)
    requires Inv(s)
    ensures Inv(DoFailInterrupted(s, t)) && AllEvolve(s, DoFailInterrupted(s, t))
  {
    NothingChanges(s);
    if DoFailInterrupted(s, t) != s {
      FailRecoveryKeepsInv(s, t);
    }
  }

  /** Moving the reconciliation on, when no interrupted task is left behind. */
  lemma BootKeepsInv(s: State, boot: Boot)
    requires Inv(s) && !boot.FailingInterrupted?
    requires s.boot.FailingInterrupted? ==> Interrupted(s) == {}
    requires boot.Serving? ==> s.wakes == {} && s.failing == {}
    requires boot.Requeueing? ==>
               && !s.boot.Serving?
               && forall t :: t in boot.remaining ==>
                    t in s.procs && t !in s.scheduled && s.procs[t].task.status == Queued
    ensures Inv(s.(boot := boot))
  {
    var s' := s.(boot := boot);
    TablesOnly(s, s');
    SameFrames(s, s');
    forall u | u in s'.procs
      ensures IdleOk(s', u)
    {
      assert IdleOk(s, u);
      assert u !in Interrupted(s) || !s.boot.FailingInterrupted?;
    }
  }

  lemma StartRequeueingKeepsInv(s: State)
    requires Inv(s)
    ensures Inv(DoStartRequeueing(s)) && AllEvolve(s, DoStartRequeueing(s))
  {
    NothingChanges(s);
    if s.boot.FailingInterrupted? && Interrupted(s) == {} {
      BootKeepsInv(s, Requeueing(QueuedTasks(s)));
    }
  }

  lemma RequeueKeepsInv(s: State, t: TaskId, verdict: RecoveryVerdict)
    requires Inv(s)
    ensures Inv(DoRequeue(s, t, verdict)) && AllEvolve(s, DoRequeue(s, t, verdict))
  {
    NothingChanges(s);
    if s.boot.Requeueing? && t in s.boot.remaining && t in s.procs {
      var s0 := s.(boot := Requeueing(s.boot.remaining - {t}));
      BootKeepsInv(s, s0.boot);
      NothingChanges(s0);
      if RequeueOne(s0, t, verdict) == FailRecovery(s0, t) {
        FailRecoveryKeepsInv(s0, t);
      } else {
        ScheduleKeepsInv(s0, t);
      }
    }
  }

  lemma StartServingKeepsInv(s: State)
    requires Inv(s)
    ensures Inv(DoStartServing(s)) && AllEvolve(s, DoStartServing(s))
  {
    NothingChanges(s);
    if s.boot == Requeueing({}) {
      BootKeepsInv(s, Serving);
    }
  }

  lemma RestartStepKeepsInv(s: State, op: Op)
    requires Inv(s) && IsRestart(op)
    ensures Inv(StepRestart(s, op)) && AllEvolve(s, StepRestart(s, op))
  {
    match op
    case Crash => CrashKeepsInv(s);
    case FailInterrupted(t) => FailInterruptedKeepsInv(s, t);
    case StartRequeueing => StartRequeueingKeepsInv(s);
    case Requeue(t, verdict) => RequeueKeepsInv(s, t, verdict);
    case StartServing => StartServingKeepsInv(s);
  }

  // ----- every run -------------------------------------------------------------------------

  lemma StepKeepsInv(s: State, op: Op)
    requires Inv(s)
    ensures Inv(Step(s, op)) && AllEvolve(s, Step(s, op))
  {
    NothingChanges(s);
    if IsRequest(op) {
      if s.boot.Serving? {
        RequestStepKeepsInv(s, op);
      }
    } else if IsRestart(op) {
      RestartStepKeepsInv(s, op);
    } else if IsTool(op) {
      ToolStepKeepsInv(s, op);
    } else {
      FrameStepKeepsInv(s, op);
    }
  }

  lemma InitialInv()
    ensures Inv(INITIAL)
  {
  }

  lemma {:induction false} RunKeepsInv(s: State, ops: seq<Op>)
    requires Inv(s)
    ensures Inv(Run(s, ops)) && AllEvolve(s, Run(s, ops))
    decreases |ops|
  {
    NothingChanges(s);
    if ops != [] {
      StepKeepsInv(s, ops[0]);
      RunKeepsInv(Step(s, ops[0]), ops[1..]);
      EvolveIsTransitive(s, Step(s, ops[0]), Run(s, ops));
    }
  }
}

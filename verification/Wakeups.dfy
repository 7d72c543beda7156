/**
Where queued tasks are between acceptance and their worker: what recovery picks up after a restart, the
one step that can lose a wake-up, and what each request and worker section does to its task.
*/
module Wakeups {
  import opened Prelude
  import opened Lifecycle
  import opened Processes
  import opened ProcessAnswers
  import opened Runtime
  import opened RuntimeInvariant
  import opened RuntimeProperties
  import opened OnceOnly
  import L = Ledger

  // ----- queued tasks are accounted for ----------------------------------------------------

  /** While queued tasks are recovered, each of them is still to come or already has its frame. */
  ghost predicate RecoveryCovers(s: State) {
    s.boot.Requeueing? ==>
      forall t :: t in s.procs && s.procs[t].task.status == Queued ==> t in s.boot.remaining || t in s.scheduled
  }

  /** Before requests are served, no frame leaves a queued task behind. */
  ghost predicate LeavesNothing(s: State) {
    !s.boot.Serving? ==>
      forall f :: f in s.frames && s.frames[f].phase.Leaving? ==>
        s.frames[f].task in s.procs && s.procs[s.frames[f].task].task.status != Queued
  }

  ghost predicate QueueOk(s: State) {
    RecoveryCovers(s) && LeavesNothing(s)
  }

  /** Only requests queue a task. */
  lemma OnlyRequestsQueue(s: State, op: Op, t: TaskId)
    requires ProcsOk(s) && FramesOk(s) && !IsRequest(op)
    requires t in Step(s, op).procs && Step(s, op).procs[t].task.status == Queued && ProcessOk(Step(s, op).procs[t])
    ensures t in s.procs && s.procs[t].task.status == Queued
  {
    if t !in s.procs {
      NothingElseAddsTasks(s, op, t);
    } else if IsRestart(op) {
      RecoveryQueuesNothing(s, op, t);
    } else if IsTool(op) {
      ToolsQueueNothing(s, op, t);
    } else {
      FrameStepQueuesNone(s, op, t);
    }
  }

  lemma RecordedIsNotQueued(s: State, f: nat, fallbackRetryable: bool)
    requires ProcsOk(s) && FramesOk(s) && Live(s, f) && s.frames[f].phase.Reporting?
    ensures var r := RecordOutcome(ProcOf(s, f), s.frames[f].phase.outcome, fallbackRetryable);
            r.Ok? && r.value.task.status != Queued
  {
    assert FrameOk(s, f);
    var p, outcome := ProcOf(s, f), s.frames[f].phase.outcome;
    OutcomeOk(p, outcome, fallbackRetryable);
    if p.task.status == Queued {
      FailureOk(p, outcome.retryable);
    }
  }

  /** A frame that starts to leave has a task that is not queued. */
  lemma LeavingIsNotQueued(s: State, op: Op, f: nat)
    requires ProcsOk(s) && FramesOk(s) && IsFrame(op)
    requires f in StepFrame(s, op).frames && StepFrame(s, op).frames[f].phase.Leaving?
    requires f !in s.frames || !s.frames[f].phase.Leaving?
    ensures var t := StepFrame(s, op).frames[f].task;
            t in StepFrame(s, op).procs && StepFrame(s, op).procs[t].task.status != Queued
  {
    OnlyTwoSectionsLeave(s, op, f);
    if op.Record? {
      RecordedIsNotQueued(s, f, op.fallbackRetryable);
    } else {
      assert FrameOk(s, f);
    }
  }

  /** A frame starts to leave when its outcome is recorded, or when it was refused. */
  lemma OnlyTwoSectionsLeave(s: State, op: Op, f: nat)
    requires IsFrame(op) && f in StepFrame(s, op).frames && StepFrame(s, op).frames[f].phase.Leaving?
    requires f !in s.frames || !s.frames[f].phase.Leaving?
    ensures op.frame == f && Live(s, f)
    ensures (op.Record? && s.frames[f].phase.Reporting?) || (op.LeaveRefused? && s.frames[f].phase.Refused?)
  {
  }

  lemma FrameStepKeepsLeaving(s: State, op: Op)
    requires ProcsOk(s) && FramesOk(s) && LeavesNothing(s) && IsFrame(op)
    ensures LeavesNothing(StepFrame(s, op))
  {
    var s' := StepFrame(s, op);
    FrameStepKeepsScheduled(s, op, "");
    if !s.boot.Serving? {
      forall f | f in s'.frames && s'.frames[f].phase.Leaving?
        ensures s'.frames[f].task in s'.procs && s'.procs[s'.frames[f].task].task.status != Queued
      {
        if f in s.frames && s.frames[f].phase.Leaving? {
          StaysLeaving(s, op, f);
        } else {
          LeavingIsNotQueued(s, op, f);
        }
      }
    }
  }

  lemma StaysLeaving(s: State, op: Op, f: nat)
    requires IsFrame(op) && f in s.frames && f in StepFrame(s, op).frames && s.frames[f].phase.Leaving?
    requires op.frame in s.frames && op.frame != f ==> s.frames[op.frame].task != s.frames[f].task
    requires s.frames[f].task in s.procs && s.procs[s.frames[f].task].task.status != Queued
    ensures var s' := StepFrame(s, op);
            s'.frames[f].task in s'.procs && s'.procs[s'.frames[f].task].task.status != Queued
  {
    if op.frame != f {
      OthersKeepUnderFrames(s, op, s.frames[f].task);
      OtherFrameStays(s, op, f);
    } else {
      LeavingFrameRests(s, op);
    }
  }

  lemma LeavingFrameRests(s: State, op: Op)
    requires IsFrame(op) && op.frame in s.frames && s.frames[op.frame].phase.Leaving?
    requires op.frame in StepFrame(s, op).frames
    ensures StepFrame(s, op) == s
  {
  }

  lemma OtherFrameStays(s: State, op: Op, f: nat)
    requires IsFrame(op) && f in s.frames && op.frame != f
    ensures f in StepFrame(s, op).frames && StepFrame(s, op).frames[f] == s.frames[f]
  {
  }

  lemma ToolStepKeepsQueue(s: State, op: Op)
    requires QueueOk(s) && IsTool(op)
    ensures QueueOk(StepTool(s, op))
  {
    ToolStepKeepsSets(s, op);
    forall t | t in s.procs
      ensures StepTool(s, op).procs[t].task.status == s.procs[t].task.status
    {
      DispatchKeepsStatus(s, op, t);
    }
    SameStatusesKeepQueue(s, StepTool(s, op));
  }

  /** The accounting reads only statuses, sets and which frames are leaving. */
  lemma SameStatusesKeepQueue(s: State, s': State)
    requires QueueOk(s) && s'.boot == s.boot && s'.scheduled == s.scheduled
    requires s'.procs.Keys == s.procs.Keys && s'.frames.Keys == s.frames.Keys
    requires forall t :: t in s.procs ==> s'.procs[t].task.status == s.procs[t].task.status
    requires forall f :: f in s.frames && s'.frames[f] != s.frames[f] ==> s'.frames[f].phase.Dispatching?
    ensures QueueOk(s')
  {
  }

  /** A tool section changes no set, and no frame but its own, which stays in dispatch. */
  lemma ToolStepKeepsSets(s: State, op: Op)
    requires IsTool(op)
    ensures var s' := StepTool(s, op);
            && s'.boot == s.boot && s'.scheduled == s.scheduled && s'.wakes == s.wakes && s'.failing == s.failing
            && s'.procs.Keys == s.procs.Keys && s'.frames.Keys == s.frames.Keys
            && (forall f :: f in s.frames && s'.frames[f] != s.frames[f] ==>
                  s'.frames[f].phase.Dispatching? && s'.frames[f].task == s.frames[f].task)
  {
  }

  lemma FrameStepKeepsCover(s: State, op: Op)
    requires ProcsOk(s) && FramesOk(s) && QueueOk(s) && IsFrame(op) && ProcsOk(StepFrame(s, op))
    ensures RecoveryCovers(StepFrame(s, op))
  {
    var s' := StepFrame(s, op);
    FrameStepKeepsScheduled(s, op, "");
    if s.boot.Requeueing? {
      forall t | t in s'.procs && s'.procs[t].task.status == Queued
        ensures t in s'.boot.remaining || t in s'.scheduled
      {
        assert ProcessOk(s'.procs[t]);
        FrameStepKeepsCoverOf(s, op, t);
      }
    }
  }

  lemma FrameStepKeepsCoverOf(s: State, op: Op, t: TaskId)
    requires ProcsOk(s) && FramesOk(s) && QueueOk(s) && IsFrame(op) && s.boot.Requeueing?
    requires t in StepFrame(s, op).procs && StepFrame(s, op).procs[t].task.status == Queued
    requires ProcessOk(StepFrame(s, op).procs[t])
    ensures t in s.boot.remaining || t in StepFrame(s, op).scheduled
  {
    FrameStepQueuesNone(s, op, t);
    FrameStepKeepsScheduled(s, op, t);
  }

  lemma FrameStepQueuesNone(s: State, op: Op, t: TaskId)
    requires ProcsOk(s) && FramesOk(s) && IsFrame(op) && t in StepFrame(s, op).procs
    requires StepFrame(s, op).procs[t].task.status == Queued && ProcessOk(StepFrame(s, op).procs[t])
    ensures t in s.procs && s.procs[t].task.status == Queued
  {
    FrameStepKeepsTasks(s, op);
    FramesQueueNothing(s, op, t);
    WasQueued(s.procs[t], StepFrame(s, op).procs[t]);
  }

  lemma WasQueued(p: Process, q: Process)
    requires ProcessOk(p) && ProcessOk(q) && QueuesNothingNew(p, q) && q.task.status == Queued
    ensures p.task.status == Queued
  {
  }

  lemma FrameStepKeepsTasks(s: State, op: Op)
    requires IsFrame(op)
    ensures StepFrame(s, op).procs.Keys == s.procs.Keys
  {
  }

  /** A frame section drops a task from the scheduled set only by forgetting its leaving frame. */
  lemma FrameStepKeepsScheduled(s: State, op: Op, t: TaskId)
    requires IsFrame(op)
    ensures var s' := StepFrame(s, op);
            && s'.boot == s.boot && s'.wakes == s.wakes && s'.failing == s.failing
            && (t in s.scheduled && t !in s'.scheduled ==>
                  op.Forget? && op.frame in s.frames && s.frames[op.frame] == Frame(t, Leaving))
  {
  }

  lemma CrashKeepsQueue(s: State)
    ensures QueueOk(DoCrash(s))
  {
  }

  lemma RequeueKeepsQueue(s: State, t: TaskId, verdict: RecoveryVerdict)
    requires Inv(s) && QueueOk(s)
    ensures QueueOk(DoRequeue(s, t, verdict))
  {
    if s.boot.Requeueing? && t in s.boot.remaining && t in s.procs {
      var s0 := s.(boot := Requeueing(s.boot.remaining - {t}));
      assert ProcessOk(s.procs[t]);
      FailRecoveryCovers(s, t);
      ScheduleCovers(s, t);
      assert DoRequeue(s, t, verdict) == FailRecovery(s0, t) || DoRequeue(s, t, verdict) == Schedule(s0, t);
    }
  }

  lemma FailRecoveryCovers(s: State, t: TaskId)
    requires QueueOk(s) && s.boot.Requeueing? && t in s.procs && ProcessOk(s.procs[t])
    ensures QueueOk(FailRecovery(s.(boot := Requeueing(s.boot.remaining - {t})), t))
  {
    RecoveryOk(s.procs[t]);
  }

  lemma ScheduleCovers(s: State, t: TaskId)
    requires FramesOk(s) && QueueOk(s) && s.boot.Requeueing? && t in s.procs
    ensures QueueOk(Schedule(s.(boot := Requeueing(s.boot.remaining - {t})), t))
  {
  }

  lemma RestartKeepsQueue(s: State, op: Op)
    requires Inv(s) && QueueOk(s) && IsRestart(op)
    ensures QueueOk(StepRestart(s, op))
  {
    match op
    case Crash => CrashKeepsQueue(s);
    case Requeue(t, verdict) => RequeueKeepsQueue(s, t, verdict);
    case _ =>
  }

  lemma StepKeepsQueue(s: State, op: Op)
    requires Inv(s) && QueueOk(s)
    ensures QueueOk(Step(s, op))
  {
    StepKeepsInv(s, op);
    if IsRequest(op) {
      RequestsKeepServing(s, op);
    } else if IsRestart(op) {
      RestartKeepsQueue(s, op);
    } else if IsTool(op) {
      ToolStepKeepsQueue(s, op);
    } else {
      FrameStepKeepsCover(s, op);
      FrameStepKeepsLeaving(s, op);
    }
  }

  lemma RequestsKeepServing(s: State, op: Op)
    requires IsRequest(op)
    ensures Step(s, op).boot == s.boot && (!s.boot.Serving? ==> Step(s, op) == s)
  {
  }

  lemma {:induction false} RunKeepsQueue(s: State, ops: seq<Op>)
    requires Inv(s) && QueueOk(s)
    ensures QueueOk(Run(s, ops))
    decreases |ops|
  {
    if ops != [] {
      StepKeepsQueue(s, ops[0]);
      StepKeepsInv(s, ops[0]);
      RunKeepsQueue(Step(s, ops[0]), ops[1..]);
    }
  }

  /** Recovery loses no queued task: each one is still to be requeued or already has its frame. */
  lemma RestartLosesNothing(ops: seq<Op>, t: TaskId)
    requires Reached(ops).boot.Requeueing? && t in Reached(ops).procs && Reached(ops).procs[t].task.status == Queued
    ensures t in Reached(ops).boot.remaining || exists f :: f in Reached(ops).frames && Reached(ops).frames[f].task == t
  {
    ReachedInv(ops);
    InitialInv();
    RunKeepsQueue(INITIAL, ops);
    if t in Reached(ops).scheduled {
      assert HasFrame(Reached(ops), t);
    }
  }

  // ----- the one step that loses a wake-up -------------------------------------------------

  /** A task that a request queues has its wake under way. */
  lemma QueuedByRequestIsWoken(s: State, op: Op, t: TaskId)
    requires ProcsOk(s) && IsRequest(op)
    requires t in StepRequest(s, op).procs && StepRequest(s, op).procs[t].task.status == Queued
    requires ProcessOk(StepRequest(s, op).procs[t])
    requires t !in s.procs || s.procs[t].task.status != Queued
    ensures t in StepRequest(s, op).wakes
  {
    if op.CancelTask? || op.RecordWakeFailure? {
      ControlIsNotQueueing(s, op, t);
    } else {
      AcceptanceWakes(s, op, t);
    }
  }

  lemma AcceptanceWakes(s: State, op: Op, t: TaskId)
    requires IsRequest(op) && !op.CancelTask? && !op.RecordWakeFailure?
    requires t in StepRequest(s, op).procs && StepRequest(s, op).procs[t].task.status == Queued
    requires t !in s.procs || s.procs[t].task.status != Queued
    ensures t in StepRequest(s, op).wakes
  {
    if op.AcceptTask? {
      AcceptOk(op.thread, None, 1, op.queue, s.nextSerial);
    } else if op.AcceptRetry? {
      if op.source in s.procs {
        AcceptOk(op.thread, Some(op.source), s.procs[op.source].task.attempt + 1, op.queue, s.nextSerial);
      }
    }
  }

  lemma ControlIsNotQueueing(s: State, op: Op, t: TaskId)
    requires op.CancelTask? || op.RecordWakeFailure?
    requires t in StepRequest(s, op).procs && ProcessOk(StepRequest(s, op).procs[t])
    requires StepRequest(s, op).procs[t].task.status == Queued
    ensures t in s.procs && (ProcessOk(s.procs[t]) ==> s.procs[t].task.status == Queued)
  {
    if t in s.procs {
      CancellationQueuesNothing(s.procs[t], t in s.active, op.RecordWakeFailure? && op.retryable);
    }
  }

  /** A request takes no queued task out of hand: a wake becomes a frame or a failure to be recorded. */
  lemma RequestKeepsInHand(s: State, op: Op, t: TaskId)
    requires s.active <= s.scheduled && IsRequest(op)
    requires t in s.procs && ProcessOk(s.procs[t]) && t in StepRequest(s, op).procs
    requires t in s.scheduled + s.wakes + s.failing && StepRequest(s, op).procs[t].task.status == Queued
    ensures var s' := StepRequest(s, op); t in s'.scheduled + s'.wakes + s'.failing
  {
    if op.RecordWakeFailure? {
      FailureOk(s.procs[t], op.retryable);
    }
  }

  /**
  A task loses its way to a worker in one way only: its leaving frame is forgotten while it is queued,
  after the wake of its continuation met that frame.
  */
  lemma OnlyForgetStrands(s: State, op: Op, t: TaskId)
    requires Inv(s) && QueueOk(s) && !Stranded(s, t) && Stranded(Step(s, op), t)
    ensures op.Forget? && op.frame in s.frames && s.frames[op.frame] == Frame(t, Leaving)
    ensures t in s.procs && s.procs[t].task.status == Queued && t !in s.wakes + s.failing
  {
    StepKeepsInv(s, op);
    if IsRequest(op) {
      RequestsKeepServing(s, op);
      if t !in s.procs || s.procs[t].task.status != Queued {
        QueuedByRequestIsWoken(s, op, t);
      } else {
        RequestKeepsInHand(s, op, t);
      }
      assert false;
    } else {
      OnlyRequestsQueue(s, op, t);
      if IsRestart(op) {
        RestartStrandsNothing(s, op, t);
        assert false;
      } else if IsTool(op) {
        ToolsStrandNothing(s, op, t);
        assert false;
      } else {
        FrameStepKeepsScheduled(s, op, t);
      }
    }
  }

  lemma RestartStrandsNothing(s: State, op: Op, t: TaskId)
    requires QueueOk(s) && IsRestart(op) && t in s.procs && s.procs[t].task.status == Queued
    requires !Stranded(s, t)
    ensures !Stranded(StepRestart(s, op), t)
  {
    if StepRestart(s, op).boot.Serving? {
      RestartServesOnlyAfterRequeueing(s, op);
    }
  }

  lemma RestartServesOnlyAfterRequeueing(s: State, op: Op)
    requires IsRestart(op) && StepRestart(s, op).boot.Serving?
    ensures StepRestart(s, op) == s || (s.boot == Requeueing({}) && StepRestart(s, op) == s.(boot := Serving))
  {
  }

  lemma ToolsStrandNothing(s: State, op: Op, t: TaskId)
    requires IsTool(op) && t in s.procs && s.procs[t].task.status == Queued && !Stranded(s, t)
    ensures !Stranded(StepTool(s, op), t)
  {
  }

  // ----- steps take effect -----------------------------------------------------------------

  /** A cancellation takes effect: requested while a worker holds the running task, done at once otherwise. */
  lemma CancelTakesEffect(s: State, t: TaskId)
    requires Inv(s) && s.boot.Serving? && t in s.procs && !IsTerminal(s.procs[t].task.status)
    ensures var was, q := s.procs[t].task.status, Step(s, CancelTask(t)).procs[t];
            var held :=
              was == Running && exists f :: f in s.frames && s.frames[f].task == t && Holds(s.frames[f].phase);
            && q.task.status == (if was == CancelRequested || held then CancelRequested else Canceled)
            && (q.task.status == Canceled ==> L.Closed(q.ledger) && q.queued.None? && q.pending.None?)
  {
    CancellationAnswers(s.procs[t], t in s.active);
    InactiveHasNoneRunning(s, t);
    ActiveIffHeld(s, t);
  }

  lemma ActiveIffHeld(s: State, t: TaskId)
    requires FramesOk(s)
    ensures t in s.active <==> exists f :: f in s.frames && s.frames[f].task == t && Holds(s.frames[f].phase)
  {
    forall f | f in s.frames
      ensures s.frames[f].task in s.active <==> Holds(s.frames[f].phase)
    {
      assert FrameOk(s, f);
    }
    if t in s.active {
      assert HasFrame(s, t);
    }
  }

  /** Recording takes effect: the outcome of the slice becomes the row of its task, and the frame leaves. */
  lemma RecordTakesEffect(s: State, f: nat, fallbackRetryable: bool)
    requires ProcsOk(s) && Live(s, f) && s.frames[f].phase.Reporting? && ProcOf(s, f).task.status == Running
    ensures var t, outcome := s.frames[f].task, s.frames[f].phase.outcome;
            var s' := Step(s, Record(f, fallbackRetryable));
            && f in s'.frames && s'.frames[f] == Frame(t, Leaving)
            && (outcome.Finished? ==> Ok(s'.procs[t]) == RecordResult(s.procs[t], outcome.result))
            && (outcome.Crashed? ==>
                  s'.procs[t].task.status == Failed && s'.procs[t].task.errorRetryable == outcome.retryable)
  {
    assert ProcessOk(ProcOf(s, f));
    OutcomeAnswers(ProcOf(s, f), s.frames[f].phase.outcome, fallbackRetryable);
  }

  /** A frame that enters with its task queued runs it; with the task gone from the queue it is refused. */
  lemma ClaimTakesEffect(s: State, f: nat)
    requires ProcsOk(s) && Live(s, f) && s.frames[f].phase.Entered?
    ensures var t, s' := s.frames[f].task, Step(s, ClaimCommand(f));
            && f in s'.frames && t in s'.procs
            && (s.procs[t].task.status == Queued ==>
                  s'.procs[t].task.status == Running && s'.frames[f].phase == Dispatching(multiset{}))
            && (s.procs[t].task.status != Queued ==> s'.procs == s.procs && s'.frames[f].phase.Refused?)
  {
    ClaimOk(ProcOf(s, f));
  }

  /** Recovery takes effect: an interrupted task is failed and may be retried. */
  lemma RecoveryTakesEffect(s: State, t: TaskId)
    requires ProcsOk(s) && s.boot.FailingInterrupted? && t in s.procs
    requires s.procs[t].task.status in {Running, CancelRequested}
    ensures var q := Step(s, FailInterrupted(t)).procs[t];
            q.task.status == Failed && q.task.errorRetryable && L.Closed(q.ledger)
  {
    RecoveryOk(s.procs[t]);
    assert ProcessOk(s.procs[t]);
  }

  /** Requeueing takes effect: with a worker that accepts it, a remaining task gets its frame. */
  lemma RequeueTakesEffect(s: State, t: TaskId)
    requires Inv(s) && s.boot.Requeueing? && t in s.boot.remaining
    ensures var s' := Step(s, Requeue(t, Submits));
            && s'.procs == s.procs && t in s'.scheduled
            && exists f :: f in s'.frames && s'.frames[f] == Frame(t, Scheduled)
  {
    assert ProcessOk(s.procs[t]);
    var s' := Step(s, Requeue(t, Submits));
    NotActiveWhenRemaining(s, t);
    assert s'.frames[s.nextFrame] == Frame(t, Scheduled);
  }

  lemma NotActiveWhenRemaining(s: State, t: TaskId)
    requires FramesOk(s) && VolatileOk(s) && s.boot.Requeueing? && t in s.boot.remaining
    ensures t !in s.active && t !in s.scheduled && t in s.procs && s.procs[t].task.status == Queued
  {
  }
}

/**
Where each node of the agent loop leads, by what the model, the gate, the ledger and the operator
answered. Together with the invariant these say not only what the loop never does but what it does.
*/
module AgentLoopRouting {
  import opened Prelude
  import opened AgentLoop

  // ----- the model node --------------------------------------------------------------------

  /** No limit stops the model node, before or after the request. */
  ghost predicate MayAsk(c: Config, s: LoopState, i: Input) {
    && !i.canceled && !i.elapsed && !i.canceledLater && !i.elapsedLater
    && s.modelCalls < c.policy.maxModelCalls && s.failures < c.policy.maxFailures
  }

  /**
  Within its limits the node sends one request and follows the reply: text ends the run with that
  answer, tool calls go to the permission node as the calls of the turn, an error leaves the graph.
  */
  lemma ModelReplyDecides(c: Config, s: LoopState, i: Input)
    requires LoopInv(c, s) && s.at.CallModel? && MayAsk(c, s, i)
    ensures var next := Step(c, s, i);
            && next.invocations == s.invocations + 1
            && (i.reply.ProviderError? ==> next.at.Aborted?)
            && (i.reply.Reply? && i.reply.calls != [] ==>
                  next.at.CheckPermission? && LatestCalls(next.messages) == i.reply.calls
                  && next.modelCalls == s.modelCalls + 1)
            && (i.reply.Reply? && i.reply.calls == [] && i.reply.declaresCall ==> next.at.Aborted?)
            && (i.reply.Reply? && i.reply.calls == [] && !i.reply.declaresCall ==>
                  next.at.End? && next.finalAnswer == Some(i.reply.content) && next.stop == Some(Completed)
                  && next.modelCalls == s.modelCalls + 1)
  {
  }

  /** Past a limit the run ends with that limit as its reason; no request is sent when it shows before. */
  lemma ModelLimitStops(c: Config, s: LoopState, i: Input)
    requires LoopInv(c, s) && s.at.CallModel? && !MayAsk(c, s, i)
    ensures var next := Step(c, s, i);
            && next.at.End? && next.finalAnswer.None?
            && (i.canceled ==> next.stop == Some(Canceled) && next.invocations == s.invocations)
            && (!i.canceled && i.elapsed ==> next.stop == Some(ElapsedLimit) && next.invocations == s.invocations)
            && (!i.canceled && !i.elapsed && s.modelCalls >= c.policy.maxModelCalls ==>
                  next.stop == Some(BudgetExhausted) && next.invocations == s.invocations)
            && (!i.canceled && !i.elapsed && s.modelCalls < c.policy.maxModelCalls ==>
                  next.stop == Some(if i.canceledLater then Canceled else ElapsedLimit)
                  && next.invocations == s.invocations + 1)
  {
  }

  // ----- the permission node ---------------------------------------------------------------

  /** Some call of the turn is one the ledger will not replay. */
  ghost predicate SomeBlocked(c: Config, calls: seq<Call>, i: Input) {
    c.hasRecorder && exists k :: 0 <= k < |calls| && i.prepared(k).Some? && i.prepared(k).value.blocked
  }

  ghost predicate SomeVerdict(c: Config, calls: seq<Call>, verdict: Verdict) {
    c.gate.Some? && exists k :: 0 <= k < |calls| && c.gate.value(calls[k]) == verdict
  }

  /** The turn gets as far as its decisions. */
  ghost predicate MayDecide(c: Config, s: LoopState, i: Input) {
    var calls := LatestCalls(s.messages);
    !i.canceled && !AsksUser(calls) && !i.elapsed && s.toolCalls + |calls| <= c.policy.maxToolCalls
  }

  /**
  The gate's verdicts decide: a denial or a blocked replay rejects the whole turn, otherwise a call that
  needs approval asks for it, and only a turn whose calls are all allowed goes straight to the tools.
  Without a gate every turn does.
  */
  lemma GateDecides(c: Config, s: LoopState, i: Input)
    requires LoopInv(c, s) && s.at.CheckPermission? && MayDecide(c, s, i)
    ensures var next := Step(c, s, i);
            var calls := LatestCalls(s.messages);
            var rejected := SomeVerdict(c, calls, Deny) || (c.gate.Some? && SomeBlocked(c, calls, i));
            && (next.at.RejectTool? <==> rejected)
            && (next.at == AwaitApproval(0) <==> !rejected && SomeVerdict(c, calls, NeedsApproval))
            && (next.at.Tools? <==> !rejected && !SomeVerdict(c, calls, NeedsApproval))
  {
    var calls := LatestCalls(s.messages);
    var ds := Decisions(c, calls, i.prepared);
    assert calls != [];
    DeniedIff(c, calls, ds, i);
    if c.gate.Some? && !HasStatus(ds, IsDenied) {
      NoneBlockedIfNoneDenied(c, calls, ds, i);
      AskedIff(c, calls, ds, i);
    }
  }

  lemma DeniedIff(c: Config, calls: seq<Call>, ds: seq<Decision>, i: Input)
    requires ds == Decisions(c, calls, i.prepared)
    ensures HasStatus(ds, IsDenied) <==> SomeVerdict(c, calls, Deny) || SomeBlocked(c, calls, i)
  {
    if HasStatus(ds, IsDenied) {
      var k :| 0 <= k < |ds| && ds[k].status == IsDenied;
      assert ds[k] == Decide(c, calls[k], i.prepared(k));
    }
    if SomeVerdict(c, calls, Deny) {
      var k :| 0 <= k < |calls| && c.gate.value(calls[k]) == Deny;
      assert ds[k] == Decide(c, calls[k], i.prepared(k));
    }
    if SomeBlocked(c, calls, i) {
      var k :| 0 <= k < |calls| && i.prepared(k).Some? && i.prepared(k).value.blocked;
      assert ds[k] == Decide(c, calls[k], i.prepared(k));
    }
  }

  lemma NoneBlockedIfNoneDenied(c: Config, calls: seq<Call>, ds: seq<Decision>, i: Input)
    requires ds == Decisions(c, calls, i.prepared) && !HasStatus(ds, IsDenied)
    ensures !SomeBlocked(c, calls, i)
  {
    DeniedIff(c, calls, ds, i);
  }

  lemma AskedIff(c: Config, calls: seq<Call>, ds: seq<Decision>, i: Input)
    requires ds == Decisions(c, calls, i.prepared) && !SomeBlocked(c, calls, i)
    ensures HasStatus(ds, IsApprovalRequired) <==> SomeVerdict(c, calls, NeedsApproval)
  {
    if HasStatus(ds, IsApprovalRequired) {
      var k :| 0 <= k < |ds| && ds[k].status == IsApprovalRequired;
      assert ds[k] == Decide(c, calls[k], i.prepared(k));
    }
    if SomeVerdict(c, calls, NeedsApproval) {
      var k :| 0 <= k < |calls| && c.gate.value(calls[k]) == NeedsApproval;
      assert ds[k] == Decide(c, calls[k], i.prepared(k));
    }
  }

  /** Cancellation, a question to the user and the tool budget come first, in this order. */
  lemma PermissionStopsFirst(c: Config, s: LoopState, i: Input)
    requires LoopInv(c, s) && s.at.CheckPermission? && !MayDecide(c, s, i)
    ensures var next := Step(c, s, i);
            var calls := LatestCalls(s.messages);
            && (i.canceled ==> next.at.End? && next.stop == Some(Canceled))
            && (!i.canceled && AsksUser(calls) ==> next.at.AwaitUserInput?)
            && (!i.canceled && !AsksUser(calls) && i.elapsed ==> next.at.End? && next.stop == Some(ElapsedLimit))
            && (!i.canceled && !AsksUser(calls) && !i.elapsed ==> next.at.End? && next.stop == Some(BudgetExhausted))
            && next.executions == s.executions
  {
    assert LatestCalls(s.messages) != [];
  }

  // ----- answers of the operator -----------------------------------------------------------

  /**
  Each resume records its answer on the call that was asked about; a no rejects the turn at once, a yes
  asks the next question, and the yes to the last question leads to the tools.
  */
  lemma ApprovalDecides(c: Config, s: LoopState, i: Input)
    requires LoopInv(c, s) && s.at.AwaitApproval?
    ensures var next := Step(c, s, i);
            var asks := ToApprove(DecisionsOf(s));
            && s.at.asked < |asks|
            && next.answers == s.answers + [Answer(s.loopIndex, asks[s.at.asked].call, i.approved)]
            && (!i.approved <==> next.at.RejectTool?)
            && (i.approved && s.at.asked + 1 < |asks| <==> next.at == AwaitApproval(s.at.asked + 1))
            && (i.approved && s.at.asked + 1 == |asks| <==> next.at.Tools?)
  {
  }

  /** The questions are exactly the calls of the turn that need approval, in their order. */
  lemma {:induction false} QuestionsAreTheApprovals(ds: seq<Decision>)
    ensures forall d :: d in ToApprove(ds) <==> d in ds && d.status == IsApprovalRequired
    ensures multiset(ToApprove(ds)) <= multiset(ds)
    decreases |ds|
  {
    if ds != [] {
      QuestionsAreTheApprovals(ds[1..]);
      assert ds == [ds[0]] + ds[1..];
    }
  }

  /** A rejected turn ends the run as blocked by policy, with a final answer and nothing executed. */
  lemma RejectionEnds(c: Config, s: LoopState, i: Input)
    requires LoopInv(c, s) && s.at.RejectTool?
    ensures var next := Step(c, s, i);
            && next.at.End? && next.stop == Some(PolicyBlocked) && next.finalAnswer.Some?
            && next.executions == s.executions
  {
  }

  /** The user's input answers every call of the turn, executes none, and the loop goes on. */
  lemma UserInputAnswersTheTurn(c: Config, s: LoopState, i: Input)
    requires LoopInv(c, s) && s.at.AwaitUserInput? && s.permission.Some?
    ensures var next := Step(c, s, i);
            && next.at.IncrementLoop? && next.stop.None?
            && next.executions == s.executions && next.toolCalls == s.toolCalls
            && s.messages <= next.messages && |next.messages| == |s.messages| + |s.permission.value.calls|
            && (forall k :: |s.messages| <= k < |next.messages| ==> next.messages[k].Tool?)
  {
  }

  /** The next loop step starts, with its permission reset, exactly while nothing stopped and steps are left. */
  lemma LoopGoesOnIff(c: Config, s: LoopState, i: Input)
    requires LoopInv(c, s) && s.at.IncrementLoop?
    ensures var next := Step(c, s, i);
            && next.loopIndex == s.loopIndex + 1 && next.permission.None?
            && (next.at.CallModel? <==> s.stop.None? && !i.elapsed && s.loopIndex < c.policy.maxLoopSteps)
            && (!next.at.CallModel? ==> next.at.End?)
  {
  }

  // ----- execution -------------------------------------------------------------------------

  /** The calls of a turn that are executed. */
  ghost function ExecutedCalls(c: Config, ds: seq<Decision>, calls: seq<Call>, tool: nat -> ToolEvent): set<nat> {
    set k: nat | k < |calls| && Executes(c, ds, calls[k], tool(k))
  }

  lemma OneMoreCall(c: Config, ds: seq<Decision>, calls: seq<Call>, tool: nat -> ToolEvent)
    requires calls != []
    ensures var last := |calls| - 1;
            var prior := ExecutedCalls(c, ds, calls[..last], tool);
            && last !in prior
            && ExecutedCalls(c, ds, calls, tool)
               == prior + (if Executes(c, ds, calls[last], tool(last)) then {last} else {})
  {
    var last := |calls| - 1;
    assert forall k: nat :: k < last ==> calls[..last][k] == calls[k];
  }

  /** A call the ledger keeps no record of, such as a read-only tool's, is executed unless it was canceled. */
  lemma UnrecordedCallExecutesIff(c: Config, s: LoopState, call: Call, e: ToolEvent)
    requires !c.hasRecorder || (ReferenceFor(DecisionsOf(s), call).None? && e.latePrepare.None?)
    ensures Executes(c, DecisionsOf(s), call, e) <==> !e.canceledFirst
  {
  }

  /** The history counts every executed call, and only those. */
  lemma {:induction false} ExecutionsAreCounted(c: Config, ds: seq<Decision>, calls: seq<Call>, tool: nat -> ToolEvent)
    ensures CountExecutions(c, ds, calls, tool) == |ExecutedCalls(c, ds, calls, tool)|
    decreases |calls|
  {
    if calls != [] {
      var last := |calls| - 1;
      var prior := calls[..last];
      ExecutionsAreCounted(c, ds, prior, tool);
      OneMoreCall(c, ds, calls, tool);
    } else {
      assert ExecutedCalls(c, ds, calls, tool) == {};
    }
  }

  /**
  With a gate and distinct calls, what the ledger answers for a call decides: under its own reference a
  call of the turn is executed if and only if it was not canceled and the ledger granted it.
  */
  lemma GrantDecidesExecution(c: Config, s: LoopState, k: nat, e: ToolEvent)
    requires LoopInv(c, s) && s.at.Tools? && k < |DecisionsOf(s)|
    requires c.gate.Some? && c.hasRecorder && DistinctCalls(LatestCalls(s.messages))
    requires DecisionsOf(s)[k].reference.Some?
    ensures Executes(c, DecisionsOf(s), DecisionsOf(s)[k].call, e)
            <==> !e.canceledFirst && !e.canceledSecond && e.granted
  {
    var ds := DecisionsOf(s);
    forall j | 0 <= j < k
      ensures !SameCall(ds[j].call, ds[k].call)
    {
      assert ds[j].call == LatestCalls(s.messages)[j] && ds[k].call == LatestCalls(s.messages)[k];
    }
    ReferenceIsOwn(ds, k);
    assert ds[k].status != IsDenied;
  }

  /** The tools node executes those calls, answers each call once in order, and leaves the graph on an exception. */
  lemma ToolsAnswerEveryCall(c: Config, s: LoopState, i: Input)
    requires LoopInv(c, s) && s.at.Tools?
    ensures var next := Step(c, s, i);
            var calls, ds := LatestCalls(s.messages), DecisionsOf(s);
            && next.executions == s.executions + |ExecutedCalls(c, ds, calls, i.tool)|
            && (next.at.Aborted? <==> exists k: nat :: k in ExecutedCalls(c, ds, calls, i.tool) && i.tool(k).raises)
            && (!next.at.Aborted? ==>
                  && next.at.RecordToolMessages? && |next.messages| == |s.messages| + |calls|
                  && s.messages <= next.messages
                  && forall k :: 0 <= k < |calls| ==>
                       next.messages[|s.messages| + k]
                       == Tool(if k in ExecutedCalls(c, ds, calls, i.tool) then i.tool(k).outcome else ExecutionError))
  {
    var calls, ds := LatestCalls(s.messages), DecisionsOf(s);
    ExecutionsAreCounted(c, ds, calls, i.tool);
    if SomeRaise(c, ds, calls, i.tool) {
      var k :| 0 <= k < |calls| && Executes(c, ds, calls[k], i.tool(k)) && i.tool(k).raises;
      assert k in ExecutedCalls(c, ds, calls, i.tool);
    }
  }
}

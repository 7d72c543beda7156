/**
After-commit notification of task-event subscribers: the process-local version counters, and the race
between committing writers, their pending notifies and subscribers that observe, list and block.
*/
module Notifications {

  type TaskId = string

  function Version(versions: map<TaskId, nat>, t: TaskId): nat {
    if t in versions then versions[t] else 0
  }

  /** `notify_all` wakes every waiter; the counter alone says whose task changed. */
  function Notified(versions: map<TaskId, nat>, t: TaskId): map<TaskId, nat> {
    versions[t := Version(versions, t) + 1]
  }

  function AllNotified(versions: map<TaskId, nat>, ts: seq<TaskId>): map<TaskId, nat> {
    if ts == [] then versions else Notified(AllNotified(versions, ts[..|ts| - 1]), ts[|ts| - 1])
  }

  // ----- the notifier ----------------------------------------------------------------------

  class InProcessTaskEventNotifier {
    var versions: map<TaskId, nat>

    constructor ()
      ensures versions == map[]
    {
      versions := map[];
    }

    method Observe(t: TaskId) returns (version: nat)
      ensures version == Version(versions, t)
    {
      version := if t in versions then versions[t] else 0;
    }

    method Notify(t: TaskId)
      modifies this
      ensures versions == Notified(old(versions), t)
    {
      var current := Observe(t);
      versions := versions[t := current + 1];
    }

    /**
    `wait_for_change`. `meanwhile` is what other threads notify while the condition is released, up to
    the first wake-up or the timeout. The caller never sleeps through a change it has not observed.
    */
    method WaitForChange(t: TaskId, observed: nat, timed: bool, meanwhile: seq<TaskId>) returns (version: nat)
      modifies this
      ensures version == Version(versions, t)
      ensures Version(old(versions), t) > observed || !timed ==> versions == old(versions)
      ensures Version(old(versions), t) <= observed && timed ==> versions == AllNotified(old(versions), meanwhile)
    {
      var current := Observe(t);
      if timed && current <= observed {
        for k := 0 to |meanwhile|
          invariant versions == AllNotified(old(versions), meanwhile[..k])
        {
          assert meanwhile[..k + 1][..k] == meanwhile[..k];
          Notify(meanwhile[k]);
        }
        assert meanwhile[..|meanwhile|] == meanwhile;
      }
      version := Observe(t);
    }
  }

  lemma {:induction false} VersionsOnlyGrow(versions: map<TaskId, nat>, ts: seq<TaskId>, t: TaskId)
    ensures Version(versions, t) <= Version(AllNotified(versions, ts), t)
    ensures t in ts <==> Version(versions, t) < Version(AllNotified(versions, ts), t)
    decreases |ts|
  {
    if ts != [] {
      VersionsOnlyGrow(versions, ts[..|ts| - 1], t);
      assert ts == ts[..|ts| - 1] + [ts[|ts| - 1]];
    }
  }

  // ----- writers, notifies and subscribers -------------------------------------------------

  /** Where a subscriber stands inside `wait_for_task_events`. */
  datatype Phase =
    | Idle
    | Observed(version: nat)   // about to list
    | Blocked(version: nat)    // listed nothing past its cursor, waiting on the condition
    | Returned(upTo: nat)      // got events; upTo is the last event id it saw

  datatype Subscriber = Subscriber(task: TaskId, cursor: nat, phase: Phase)

  datatype State = State(
    log: seq<TaskId>,                 // committed events; the event at index i has id i + 1
    pending: set<nat>,                // ids whose after-commit notify has not run yet
    versions: map<TaskId, nat>,
    subscribers: map<nat, Subscriber>
  )

  datatype Op =
    | Commit(tasks: seq<TaskId>)      // one outermost transaction with these events
    | RunNotify(id: nat)              // its callbacks run later, one by one
    | Subscribe(who: nat, task: TaskId, cursor: nat)
    | ObserveVersion(who: nat)
    | List(who: nat)
    | WakeUp(who: nat)                // notified or timed out: read the version again
    | Leave(who: nat)

  predicate HasNews(s: State, t: TaskId, cursor: nat) {
    exists i :: cursor <= i < |s.log| && s.log[i] == t
  }

  /** Consecutive ids, as the event table assigns them. */
  function NewIds(first: nat, count: nat): (ids: set<nat>)
    ensures forall id: nat :: id in ids <==> first <= id < first + count
  {
    if count == 0 then {} else NewIds(first, count - 1) + {first + count - 1}
  }

  function Move(s: State, who: nat, phase: Phase): State
    requires who in s.subscribers
  {
    s.(subscribers := s.subscribers[who := s.subscribers[who].(phase := phase)])
  }

  function Step(s: State, op: Op): State {
    match op
    case Commit(tasks) =>
      s.(log := s.log + tasks, pending := s.pending + NewIds(|s.log| + 1, |tasks|))
    case RunNotify(id) =>
      if id !in s.pending || id == 0 || id > |s.log| then s
      else s.(pending := s.pending - {id}, versions := Notified(s.versions, s.log[id - 1]))
    case Subscribe(who, task, cursor) =>
      if who in s.subscribers then s
      else s.(subscribers := s.subscribers[who := Subscriber(task, cursor, Idle)])
    case ObserveVersion(who) =>
      if who !in s.subscribers || !s.subscribers[who].phase.Idle? then s
      else Move(s, who, Observed(Version(s.versions, s.subscribers[who].task)))
    case List(who) =>
      if who !in s.subscribers || !s.subscribers[who].phase.Observed? then s
      else
        var sub := s.subscribers[who];
        if HasNews(s, sub.task, sub.cursor) then Move(s, who, Returned(|s.log|))
        else Move(s, who, Blocked(sub.phase.version))
    case WakeUp(who) =>
      if who !in s.subscribers || !s.subscribers[who].phase.Blocked? then s
      else Move(s, who, Observed(Version(s.versions, s.subscribers[who].task)))
    case Leave(who) => s.(subscribers := s.subscribers - {who})
  }

  function Run(s: State, ops: seq<Op>): State
    decreases |ops|
  {
    if ops == [] then s else Run(Step(s, ops[0]), ops[1..])
  }

  const INITIAL := State([], {}, map[], map[])

  /** Every committed event of the task past the cursor still has its notify ahead of it. */
  ghost predicate AllNewsPending(s: State, t: TaskId, cursor: nat) {
    forall i :: cursor <= i < |s.log| && s.log[i] == t ==> i + 1 in s.pending
  }

  ghost predicate SubscriberOk(s: State, sub: Subscriber) {
    match sub.phase
    case Observed(v) => v <= Version(s.versions, sub.task)
    case Blocked(v) =>
      && v <= Version(s.versions, sub.task)
      && (v == Version(s.versions, sub.task) ==> AllNewsPending(s, sub.task, sub.cursor))
    case _ => true
  }

  ghost predicate Inv(s: State) {
    forall who :: who in s.subscribers ==> SubscriberOk(s, s.subscribers[who])
  }

  lemma CommitKeeps(s: State, tasks: seq<TaskId>, sub: Subscriber)
    requires SubscriberOk(s, sub)
    ensures SubscriberOk(Step(s, Commit(tasks)), sub)
  {
  }

  lemma NotifyKeeps(s: State, id: nat, sub: Subscriber)
    requires SubscriberOk(s, sub)
    ensures SubscriberOk(Step(s, RunNotify(id)), sub)
  {
  }

  lemma StepKeepsInv(s: State, op: Op)
    requires Inv(s)
    ensures Inv(Step(s, op))
  {
    var s' := Step(s, op);
    forall who | who in s'.subscribers
      ensures SubscriberOk(s', s'.subscribers[who])
    {
      match op
      case Commit(tasks) => CommitKeeps(s, tasks, s.subscribers[who]);
      case RunNotify(id) => NotifyKeeps(s, id, s.subscribers[who]);
      case _ =>
        if who in s.subscribers {
          assert SubscriberOk(s, s.subscribers[who]);
        }
    }
  }

  lemma {:induction false} RunKeepsInv(s: State, ops: seq<Op>)
    requires Inv(s)
    ensures Inv(Run(s, ops))
    decreases |ops|
  {
    if ops != [] {
      StepKeepsInv(s, ops[0]);
      RunKeepsInv(Step(s, ops[0]), ops[1..]);
    }
  }

  /**
  No lost wake-up, under every interleaving: while a subscriber is blocked on version `v` and the
  current version is still `v`, every committed event past its cursor has its notify still pending.
  */
  lemma NoLostWakeUp(ops: seq<Op>, who: nat)
    requires var s := Run(INITIAL, ops);
             && who in s.subscribers && s.subscribers[who].phase.Blocked?
             && s.subscribers[who].phase.version == Version(s.versions, s.subscribers[who].task)
    ensures var s := Run(INITIAL, ops);
            forall i :: s.subscribers[who].cursor <= i < |s.log| && s.log[i] == s.subscribers[who].task ==>
              i + 1 in s.pending
  {
    RunKeepsInv(INITIAL, ops);
    var s := Run(INITIAL, ops);
    assert SubscriberOk(s, s.subscribers[who]);
  }

  /**
  ... so a blocked subscriber with news is released: running any of those notifies changes its version,
  and it then finds the news.
  */
  lemma NewsReleasesSubscriber(ops: seq<Op>, who: nat, i: nat)
    requires var s := Run(INITIAL, ops);
             && who in s.subscribers && s.subscribers[who].phase.Blocked?
             && s.subscribers[who].cursor <= i < |s.log| && s.log[i] == s.subscribers[who].task
    ensures var s := Run(INITIAL, ops);
            var v := s.subscribers[who].phase.version;
            var t := s.subscribers[who].task;
            && (v < Version(s.versions, t) || v < Version(Step(s, RunNotify(i + 1)).versions, t))
            && Step(Step(s, WakeUp(who)), List(who)).subscribers[who].phase == Returned(|s.log|)
  {
    RunKeepsInv(INITIAL, ops);
    var s := Run(INITIAL, ops);
    assert SubscriberOk(s, s.subscribers[who]);
    assert HasNews(s, s.subscribers[who].task, s.subscribers[who].cursor);
    assert HasNews(Step(s, WakeUp(who)), s.subscribers[who].task, s.subscribers[who].cursor);
  }

  // ----- the two reads in the other order --------------------------------------------------

  /** A reader that lists first: with nothing to return it goes on to observe. */
  function ListFirst(s: State, who: nat): State
    requires who in s.subscribers
  {
    if HasNews(s, s.subscribers[who].task, s.subscribers[who].cursor) then Move(s, who, Returned(|s.log|)) else s
  }

  /** ... and then blocks on the version it finds. */
  function ObserveAndBlock(s: State, who: nat): State
    requires who in s.subscribers
  {
    Move(s, who, Blocked(Version(s.versions, s.subscribers[who].task)))
  }

  /**
  From every state in which its first list finds nothing, a commit and its notify that slip in before
  the second read leave such a reader blocked on the current version, with an undelivered event and no
  notify of it to come: exactly what `NoLostWakeUp` excludes for the order of the program.
  */
  lemma ListThenObserveLosesWakeUp(s: State, who: nat)
    requires who in s.subscribers && s.subscribers[who].cursor <= |s.log|
    requires !HasNews(s, s.subscribers[who].task, s.subscribers[who].cursor)
    ensures var t, id := s.subscribers[who].task, |s.log| + 1;
            var listed := ListFirst(s, who);
            var s' := ObserveAndBlock(Step(Step(listed, Commit([t])), RunNotify(id)), who);
            var sub := s'.subscribers[who];
            && sub.phase == Blocked(Version(s'.versions, t))
            && HasNews(s', t, sub.cursor) && s'.log[id - 1] == t && sub.cursor <= id - 1
            && id !in s'.pending && !SubscriberOk(s', sub)
  {
    var t, id := s.subscribers[who].task, |s.log| + 1;
    var committed := Step(s, Commit([t]));
    assert committed.log[id - 1] == t && id in committed.pending;
    var notified := Step(committed, RunNotify(id));
    assert notified.log == committed.log;
    var s' := ObserveAndBlock(notified, who);
    assert s'.log[id - 1] == t;
  }
}

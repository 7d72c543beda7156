/**
Replaying and following one task's durable event log from a cursor: the adapter's batches and the
route's loop, against a log that grows between any two reads.
*/
module Resubscription {
  import opened Prelude
  import opened Lifecycle
  import P = Processes

  datatype Kind = StatusChange | Artifact(stored: bool) | Audit | Foreign

  /** A committed event of the task. Ids are assigned by the event table and shared with other tasks. */
  datatype LogEvent = LogEvent(id: nat, kind: Kind, status: Option<TaskStatus>)

  type Log = seq<LogEvent>

  datatype Projection = Delivered | Hidden | Unclassified

  /** `_project_classified_main_agent_task_event`. */
  function Project(e: LogEvent): Projection {
    if e.kind == Artifact(true) || e.status.Some? then Delivered
    else if e.kind == Audit then Hidden
    else Unclassified
  }

  ghost predicate Increasing(log: Log) {
    forall i, j :: 0 <= i < j < |log| ==> log[i].id < log[j].id
  }

  /** `list_task_events`. */
  function EventsAfter(log: Log, cursor: nat): Log {
    if log == [] then []
    else EventsAfter(log[..|log| - 1], cursor) + (if log[|log| - 1].id > cursor then [log[|log| - 1]] else [])
  }

  /** The ids of the events a client is shown. */
  function Shown(log: Log): seq<nat> {
    if log == [] then []
    else Shown(log[..|log| - 1]) + (if Project(log[|log| - 1]) == Delivered then [log[|log| - 1].id] else [])
  }

  ghost predicate AllClassified(log: Log) {
    forall i :: 0 <= i < |log| ==> Project(log[i]) != Unclassified
  }

  /** The greatest id seen, starting from the cursor. */
  function LastId(log: Log, cursor: nat): nat {
    if log == [] then cursor
    else if log[|log| - 1].id > cursor then log[|log| - 1].id
    else cursor
  }

  /** The status a log ends with: every status change of a task is logged in the same transaction. */
  function StatusAt(log: Log): TaskStatus {
    if log == [] then Created
    else if log[|log| - 1].status.Some? then log[|log| - 1].status.value
    else StatusAt(log[..|log| - 1])
  }

  predicate IsEndState(status: TaskStatus) {
    status in {Completed, Failed, Canceled, InputRequired, AuthRequired}
  }

  /** A stream ends where the task does, or where it waits for its operator. */
  lemma EndStates(status: TaskStatus)
    ensures IsEndState(status) <==> IsTerminal(status) || status in {InputRequired, AuthRequired}
  {
  }

  // ----- one batch -------------------------------------------------------------------------

  datatype Batch = Batch(lastId: nat, shown: seq<nat>)

  /** `A2AAdapter.wait_for_task_events`: an event without a projection fails the whole batch. */
  method ProjectBatch(events: Log, cursor: nat) returns (batch: Result<Batch>)
    requires Increasing(events)
    ensures batch.Ok? <==> AllClassified(events)
    ensures batch.Ok? ==> batch.value.shown == Shown(events)
    ensures batch.Ok? ==> batch.value.lastId == (if events == [] then cursor else events[|events| - 1].id)
  {
    var shown: seq<nat> := [];
    var last := cursor;
    for k := 0 to |events|
      invariant shown == Shown(events[..k])
      invariant AllClassified(events[..k])
      invariant last == if k == 0 then cursor else events[k - 1].id
    {
      assert events[..k + 1][..k] == events[..k];
      match Project(events[k]) {
        case Delivered => shown := shown + [events[k].id];
        case Hidden =>
        case Unclassified => return Raised;
      }
      last := if k == 0 || events[k].id > last then events[k].id else last;
    }
    assert events[..|events|] == events;
    return Ok(Batch(last, shown));
  }

  // ----- the loop --------------------------------------------------------------------------

  /**
  What one iteration of the loop meets: the committed log when the batch was listed, when the task was
  read, and when the trailing batch was listed.
  */
  datatype Round = Round(disconnected: bool, atBatch: Log, atTask: Log, atTrailing: Log)

  /** The log only grows, and its ids are increasing. */
  ghost predicate Grows(before: Log, rounds: seq<Round>)
    decreases |rounds|
  {
    rounds == [] ||
    (&& before <= rounds[0].atBatch <= rounds[0].atTask <= rounds[0].atTrailing
     && Increasing(rounds[0].atTrailing)
     && Grows(rounds[0].atTrailing, rounds[1..]))
  }

  datatype Ending = StillOpen | Disconnected | ClosedOn(status: TaskStatus) | ProjectionFailed

  /** What a subscriber that started past `after` has been shown once it saw the log `seen`. */
  ghost predicate UpToDate(shown: seq<nat>, cursor: nat, seen: Log, after: nat) {
    Increasing(seen) && shown == Shown(EventsAfter(seen, after)) && cursor == LastId(seen, after)
  }

  /** One read: list past the cursor, project, deliver, move the cursor. */
  method Follow(shown: seq<nat>, cursor: nat, seen: Log, now: Log, after: nat)
    returns (ok: bool, shown': seq<nat>, cursor': nat)
    requires UpToDate(shown, cursor, seen, after) && seen <= now && Increasing(now)
    ensures ok <==> AllClassified(EventsAfter(now, cursor))
    ensures ok ==> UpToDate(shown', cursor', now, after)
    ensures !ok ==> shown' == shown && cursor' == cursor
  {
    NextBatch(seen, now, after);
    var batch := ProjectBatch(EventsAfter(now, cursor), cursor);
    if batch.Raised? {
      return false, shown, cursor;
    }
    shown' := shown + batch.value.shown;
    cursor' := if batch.value.lastId > cursor then batch.value.lastId else cursor;
    ok := true;
  }

  /** Some read of the subscription met an event that has no projection. */
  ghost predicate MetUnclassified(rounds: seq<Round>, cursor: nat) {
    exists k :: 0 <= k < |rounds| &&
      !(&& AllClassified(EventsAfter(rounds[k].atBatch, cursor))
        && AllClassified(EventsAfter(rounds[k].atTrailing, cursor)))
  }

  /** The status was read from the task, in a state that the delivered log includes. */
  ghost predicate StatusWasRead(rounds: seq<Round>, status: TaskStatus, seen: Log) {
    exists k :: 0 <= k < |rounds| && status == StatusAt(rounds[k].atTask) && rounds[k].atTask <= seen
  }

  /**
  `_rpc_subscribe_task_events` after its parameter checks. `seen` is the committed log as of the last
  batch that was delivered in full.
  */
  method Subscribe(rounds: seq<Round>, after: nat) returns (shown: seq<nat>, cursor: nat, ending: Ending, seen: Log)
    requires Grows([], rounds)
    ensures UpToDate(shown, cursor, seen, after)
    ensures ending.ClosedOn? ==> IsEndState(ending.status) && StatusWasRead(rounds, ending.status, seen)
    ensures ending.ProjectionFailed? ==> MetUnclassified(rounds, cursor)
    ensures ending.StillOpen? && rounds != [] ==> seen == rounds[|rounds| - 1].atBatch
    ensures ending.StillOpen? ==>
              forall k :: 0 <= k < |rounds| ==> !rounds[k].disconnected && !IsEndState(StatusAt(rounds[k].atTask))
    ensures ending.Disconnected? ==> exists k :: 0 <= k < |rounds| && rounds[k].disconnected
  {
    shown, cursor, seen := [], after, [];
    var k := 0;
    var ok: bool;
    while k < |rounds|
      invariant 0 <= k <= |rounds| && Grows(seen, rounds[k..])
      invariant UpToDate(shown, cursor, seen, after)
      invariant k > 0 ==> seen == rounds[k - 1].atBatch
      invariant forall j :: 0 <= j < k ==> !rounds[j].disconnected && !IsEndState(StatusAt(rounds[j].atTask))
    {
      var round := rounds[k];
      assert rounds[k..][0] == round && rounds[k..][1..] == rounds[k + 1..];
      if round.disconnected {
        return shown, cursor, Disconnected, seen;
      }
      PrefixIncreases(round.atBatch, round.atTrailing);
      ok, shown, cursor := Follow(shown, cursor, seen, round.atBatch, after);
      if !ok {
        return shown, cursor, ProjectionFailed, seen;
      }
      seen := round.atBatch;
      if IsEndState(StatusAt(round.atTask)) {
        ok, shown, cursor := Follow(shown, cursor, seen, round.atTrailing, after);
        if !ok {
          return shown, cursor, ProjectionFailed, seen;
        }
        return shown, cursor, ClosedOn(StatusAt(round.atTask)), round.atTrailing;
      }
      GrowsFromEarlier(round.atTrailing, round.atBatch, rounds[k + 1..]);
      k := k + 1;
    }
    return shown, cursor, StillOpen, seen;
  }

  lemma GrowsFromEarlier(later: Log, earlier: Log, rounds: seq<Round>)
    requires Grows(later, rounds) && earlier <= later
    ensures Grows(earlier, rounds)
  {
  }

  // ----- lists -----------------------------------------------------------------------------

  lemma {:induction false} ShownConcat(a: Log, b: Log)
    ensures Shown(a + b) == Shown(a) + Shown(b)
    decreases |b|
  {
    if b == [] {
      assert a + b == a;
    } else {
      assert (a + b)[..|a + b| - 1] == a + b[..|b| - 1];
      ShownConcat(a, b[..|b| - 1]);
    }
  }

  lemma PrefixIncreases(a: Log, b: Log)
    requires a <= b && Increasing(b)
    ensures Increasing(a)
  {
  }

  /** Listing from the last id seen yields exactly what the log gained past the cursor. */
  lemma {:induction false} EventsSince(a: Log, b: Log, after: nat)
    requires a <= b && Increasing(b)
    ensures EventsAfter(b, after) == EventsAfter(a, after) + EventsAfter(b, LastId(a, after))
    decreases |b|
  {
    if |b| == |a| {
      assert a == b;
      NothingAfterLast(b, after);
    } else {
      var b', last := b[..|b| - 1], b[|b| - 1];
      PrefixIncreases(b', b);
      EventsSince(a, b', after);
      NothingSkipped(a, b, after);
      var tail := if last.id > after then [last] else [];
      assert EventsAfter(b, after) == EventsAfter(b', after) + tail;
      assert EventsAfter(b, LastId(a, after)) == EventsAfter(b', LastId(a, after)) + tail;
    }
  }

  lemma NothingSkipped(a: Log, b: Log, after: nat)
    requires a <= b && |a| < |b| && Increasing(b)
    ensures b[|b| - 1].id > after <==> b[|b| - 1].id > LastId(a, after)
  {
  }

  lemma {:induction false} NothingAfterLast(b: Log, after: nat)
    requires Increasing(b)
    ensures EventsAfter(b, LastId(b, after)) == []
  {
    NothingAfterBound(b, LastId(b, after));
  }

  lemma {:induction false} NothingAfterBound(b: Log, cursor: nat)
    requires forall i :: 0 <= i < |b| ==> b[i].id <= cursor
    ensures EventsAfter(b, cursor) == []
    decreases |b|
  {
    if b != [] {
      NothingAfterBound(b[..|b| - 1], cursor);
    }
  }

  lemma {:induction false} EventsAfterIncreases(b: Log, cursor: nat)
    requires Increasing(b)
    ensures Increasing(EventsAfter(b, cursor))
    ensures EventsAfter(b, cursor) != [] ==> EventsAfter(b, cursor)[|EventsAfter(b, cursor)| - 1] == b[|b| - 1]
    decreases |b|
  {
    if b != [] {
      var b', last := b[..|b| - 1], b[|b| - 1];
      EventsAfterIncreases(b', cursor);
      EventsAfterMeans(b', cursor);
      var prior := EventsAfter(b', cursor);
      if last.id <= cursor {
        NothingAfterBound(b', cursor);
      } else {
        forall i | 0 <= i < |prior|
          ensures prior[i].id < last.id
        {
          assert prior[i] in prior;
        }
      }
    }
  }

  /** `list_task_events` keeps exactly the events past the cursor. */
  lemma {:induction false} EventsAfterMeans(b: Log, cursor: nat)
    ensures forall e :: e in EventsAfter(b, cursor) <==> e in b && e.id > cursor
    decreases |b|
  {
    if b != [] {
      EventsAfterMeans(b[..|b| - 1], cursor);
      assert b == b[..|b| - 1] + [b[|b| - 1]];
    }
  }

  /** One read of the loop, from the log last seen to a later one. */
  lemma NextBatch(seen: Log, now: Log, after: nat)
    requires seen <= now && Increasing(now)
    ensures var cursor := LastId(seen, after);
            var batch := EventsAfter(now, cursor);
            && Increasing(batch)
            && Shown(EventsAfter(now, after)) == Shown(EventsAfter(seen, after)) + Shown(batch)
            && LastId(now, after) == LastId(batch, cursor)
  {
    var cursor := LastId(seen, after);
    EventsSince(seen, now, after);
    EventsAfterIncreases(now, cursor);
    ShownConcat(EventsAfter(seen, after), EventsAfter(now, cursor));
    BatchEndsTheLog(seen, now, after);
  }

  lemma BatchEndsTheLog(seen: Log, now: Log, after: nat)
    requires seen <= now && Increasing(now)
    ensures LastId(now, after) == LastId(EventsAfter(now, LastId(seen, after)), LastId(seen, after))
  {
    var cursor := LastId(seen, after);
    EventsAfterIncreases(now, cursor);
    EventsAfterMeans(now, cursor);
    if EventsAfter(now, cursor) == [] {
      if now != [] {
        var last := now[|now| - 1];
        assert last in now;
        assert last !in EventsAfter(now, cursor);
      }
      PrefixIncreases(seen, now);
    } else {
      var batch := EventsAfter(now, cursor);
      assert batch[|batch| - 1] in batch;
    }
  }

  // ----- the log of a local task ------------------------------------------------------------

  /** The projection class of the events that task transactions append. */
  function KindOf(kind: P.EventKind): Kind {
    match kind
    case Lifecycle => StatusChange
    case ArtifactCreated => Artifact(true)
    case ArtifactUpdated => Artifact(true)
    case _ => Audit
  }

  /** A task's events under the ids the event table gave them. */
  function Stamped(events: seq<P.Event>, ids: seq<nat>): Log
    requires |ids| == |events|
  {
    seq(|events|, i requires 0 <= i < |events| => LogEvent(ids[i], KindOf(events[i].kind), events[i].status))
  }

  lemma {:induction false} StampedStatus(events: seq<P.Event>, ids: seq<nat>)
    requires |ids| == |events|
    ensures StatusAt(Stamped(events, ids)) == P.StatusOf(events)
    decreases |events|
  {
    if events != [] {
      var n := |events| - 1;
      assert Stamped(events, ids)[..n] == Stamped(events[..n], ids[..n]);
      StampedStatus(events[..n], ids[..n]);
    }
  }

  /**
  What a subscriber of a local task relies on: its log opens with a status, tells the record's status,
  and always projects.
  */
  lemma TaskLogProjects(p: P.Process, ids: seq<nat>)
    requires P.LogTellsStatus(p) && |ids| == |p.events|
    ensures var log := Stamped(p.events, ids);
            && log != [] && log[0].status.Some? && StatusAt(log) == p.task.status && AllClassified(log)
            && forall i :: 0 <= i < |log| ==>
                 (Project(log[i]) == Hidden <==>
                    p.events[i].kind in {P.TaskResumed, P.InputSubmitted, P.RetryRequested, P.Retried})
  {
    P.HistoryEndsAtStatus(p.events, p.task.status, p.task.revision);
    StampedStatus(p.events, ids);
    P.HistoryOpens(p.events, p.task.status, p.task.revision);
  }

  // ----- what the client gets --------------------------------------------------------------

  /** Exactly the visible events past the cursor, each once, in increasing id order. */
  lemma {:induction false} ShownIsExact(log: Log)
    requires Increasing(log)
    ensures forall i, j :: 0 <= i < j < |Shown(log)| ==> Shown(log)[i] < Shown(log)[j]
    ensures forall id :: id in Shown(log) <==> exists e :: e in log && e.id == id && Project(e) == Delivered
    ensures Shown(log) != [] ==> log != [] && Shown(log)[|Shown(log)| - 1] <= log[|log| - 1].id
    decreases |log|
  {
    if log != [] {
      var prior, last := log[..|log| - 1], log[|log| - 1];
      ShownIsExact(prior);
      assert log == prior + [last];
      forall id
        ensures id in Shown(log) <==> exists e :: e in log && e.id == id && Project(e) == Delivered
      {
        if id in Shown(prior) {
          var e :| e in prior && e.id == id && Project(e) == Delivered;
          assert e in log;
        } else if Project(last) == Delivered && id == last.id {
          assert last in log;
        }
      }
    }
  }

  /** The event that produced the status a log ends with: the last one that carries a status. */
  ghost predicate Produces(log: Log, k: nat) {
    && k < |log| && log[k].status == Some(StatusAt(log))
    && forall j :: k < j < |log| ==> log[j].status.None?
  }

  lemma {:induction false} StatusHasItsEvent(log: Log) returns (k: nat)
    requires exists i :: 0 <= i < |log| && log[i].status.Some?
    ensures Produces(log, k)
    decreases |log|
  {
    if log[|log| - 1].status.Some? {
      k := |log| - 1;
    } else {
      var i :| 0 <= i < |log| && log[i].status.Some?;
      var prior := log[..|log| - 1];
      assert prior[i] == log[i];
      k := StatusHasItsEvent(prior);
    }
  }

  /**
  A subscription delivers exactly the non-internal events past its cursor, once each and in increasing
  id order, up to the log it last saw.
  */
  lemma UpToDateIsExact(shown: seq<nat>, cursor: nat, seen: Log, after: nat)
    requires UpToDate(shown, cursor, seen, after)
    ensures forall i, j :: 0 <= i < j < |shown| ==> shown[i] < shown[j]
    ensures forall id :: id in shown <==> exists e :: e in seen && e.id == id && id > after && Project(e) == Delivered
  {
    var events := EventsAfter(seen, after);
    EventsAfterIncreases(seen, after);
    EventsAfterMeans(seen, after);
    ShownIsExact(events);
    forall id
      ensures id in shown <==> exists e :: e in seen && e.id == id && id > after && Project(e) == Delivered
    {
      if id in shown {
        var e :| e in events && e.id == id && Project(e) == Delivered;
        assert e in seen;
      }
      if e :| e in seen && e.id == id && id > after && Project(e) == Delivered {
        assert e in events;
      }
    }
  }

  /**
  When a subscription closes on an end state, the client has the very event that produced that state in
  the log the task was read at: it was delivered, unless it lies at or before the client's cursor.
  */
  lemma ClosingStateWasDelivered(rounds: seq<Round>, shown: seq<nat>, cursor: nat, seen: Log, after: nat,
                                 status: TaskStatus)
    returns (r: nat, k: nat)
    requires UpToDate(shown, cursor, seen, after) && StatusWasRead(rounds, status, seen)
    requires forall i :: 0 <= i < |rounds| ==> rounds[i].atTask != [] && rounds[i].atTask[0].status.Some?
    ensures r < |rounds| && rounds[r].atTask <= seen && StatusAt(rounds[r].atTask) == status
    ensures Produces(rounds[r].atTask, k)
    ensures rounds[r].atTask[k].id <= after || rounds[r].atTask[k].id in shown
  {
    r :| 0 <= r < |rounds| && status == StatusAt(rounds[r].atTask) && rounds[r].atTask <= seen;
    k := StatusHasItsEvent(rounds[r].atTask);
    UpToDateIsExact(shown, cursor, seen, after);
    assert rounds[r].atTask[k] == seen[k] && seen[k] in seen;
  }
}

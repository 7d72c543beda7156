/**
The web client's view of one task: how the reducer merges status events, artifact events, snapshots
and durable reads into the projection it shows, against the task's event log in the backend.
*/
module ClientProjection {
  import opened Prelude
  import L = Lifecycle
  import P = Processes

  // ----- client records --------------------------------------------------------------------

  datatype ShownStatus = Created | Queued | Running | CancelRequested | Interrupted | Completed | Canceled | Failed

  datatype A2AState = Submitted | Working | NeedsInput | NeedsAuth | StateCompleted | StateCanceled | StateFailed

  /** A JavaScript property that may be absent, null or set. */
  datatype Field<T> = Undefined | Null | Has(value: T)

  datatype Metadata = Metadata(
    lifecycleRevision: Option<nat>,
    localStatus: Option<L.TaskStatus>,
    inputRequest: Option<string>,
    errorCode: Option<string>
  )

  datatype AgentTask = AgentTask(
    revision: Option<nat>,
    threadId: string,
    a2a: Option<A2AState>,
    local: Option<L.TaskStatus>,
    status: ShownStatus,
    finalAnswer: Option<string>,
    error: Field<string>,
    streamError: Field<string>,
    updatedAt: Option<int>,
    metadata: Metadata
  )

  /** A parsed status-update or artifact-update. */
  datatype TaskEvent = TaskEvent(
    revision: Option<nat>,
    a2a: Option<A2AState>,
    local: Option<L.TaskStatus>,
    status: Option<ShownStatus>,
    createdAt: Option<int>,
    metadata: Metadata
  )

  datatype Snapshot = Snapshot(state: A2AState, timestamp: Option<int>, threadId: string, metadata: Metadata)

  // ----- projections -----------------------------------------------------------------------

  /** `normalizeStatus` on a local status. */
  function Normalize(status: L.TaskStatus): ShownStatus {
    match status
    case Created => Created
    case Queued => Queued
    case Running => Running
    case CancelRequested => CancelRequested
    case InputRequired => Interrupted
    case AuthRequired => Interrupted
    case Completed => Completed
    case Canceled => Canceled
    case Failed => Failed
  }

  function A2AFromLocal(status: L.TaskStatus): A2AState {
    match status
    case Created => Submitted
    case Queued => Submitted
    case Running => Working
    case CancelRequested => Working
    case InputRequired => NeedsInput
    case AuthRequired => NeedsAuth
    case Completed => StateCompleted
    case Canceled => StateCanceled
    case Failed => StateFailed
  }

  function LocalFromA2A(state: A2AState): L.TaskStatus {
    match state
    case Submitted => L.Queued
    case Working => L.Running
    case NeedsInput => L.InputRequired
    case NeedsAuth => L.AuthRequired
    case StateCompleted => L.Completed
    case StateCanceled => L.Canceled
    case StateFailed => L.Failed
  }

  function Or<T>(a: Option<T>, b: Option<T>): Option<T> {
    if a.Some? then a else b
  }

  function OrField<T>(a: Field<T>, b: Field<T>): Field<T> {
    if a.Has? then a else b
  }

  function StateProjection(a2a: Option<A2AState>, metadata: Metadata, fallback: Option<L.TaskStatus>)
    : (Option<A2AState>, Option<L.TaskStatus>)
  {
    var local := Or(Or(metadata.localStatus, fallback), if a2a.Some? then Some(LocalFromA2A(a2a.value)) else None);
    (Or(a2a, if local.Some? then Some(A2AFromLocal(local.value)) else None), local)
  }

  function Overlay(base: Metadata, top: Metadata): Metadata {
    Metadata(Or(top.lifecycleRevision, base.lifecycleRevision), Or(top.localStatus, base.localStatus),
             Or(top.inputRequest, base.inputRequest), Or(top.errorCode, base.errorCode))
  }

  predicate IsTerminalShown(status: ShownStatus) {
    status in {Completed, Failed, Canceled}
  }

  /** `taskLifecycleRevision`. */
  function RevisionOf(t: AgentTask): Option<nat> {
    if t.revision.Some? && t.revision.value >= 1 then t.revision
    else if t.metadata.lifecycleRevision.Some? && t.metadata.lifecycleRevision.value >= 1 then
      t.metadata.lifecycleRevision
    else None
  }

  // ----- merging ---------------------------------------------------------------------------

  function MergeAccepted(current: AgentTask, incoming: AgentTask): AgentTask {
    var metadata := Overlay(current.metadata, incoming.metadata);
    incoming.(
      threadId := if incoming.threadId != "" then incoming.threadId else current.threadId,
      finalAnswer := Or(incoming.finalAnswer, current.finalAnswer),
      error := if incoming.error.Undefined? then current.error else incoming.error,
      streamError :=
        if !incoming.streamError.Undefined? then incoming.streamError
        else if IsTerminalShown(incoming.status) then Null
        else current.streamError,
      metadata := if incoming.status != Interrupted then metadata.(inputRequest := None) else metadata)
  }

  predicate SameLifecycle(current: AgentTask, incoming: AgentTask) {
    && incoming.status == current.status
    && (incoming.a2a.None? || incoming.a2a == current.a2a)
    && (incoming.local.None? || incoming.local == current.local)
  }

  function MergeEqual(current: AgentTask, incoming: AgentTask): AgentTask {
    var same := SameLifecycle(current, incoming);
    var added :=
      if same then incoming.metadata
      else incoming.metadata.(localStatus := None, inputRequest := None, errorCode := None);
    var metadata := Overlay(added, current.metadata);
    var waiting := if current.status != Interrupted then metadata.(inputRequest := None) else metadata;
    current.(
      threadId := if current.threadId != "" then current.threadId else incoming.threadId,
      finalAnswer := Or(current.finalAnswer, incoming.finalAnswer),
      error := if same then OrField(current.error, incoming.error) else current.error,
      streamError := if same then OrField(current.streamError, incoming.streamError) else current.streamError,
      metadata := if current.status != Failed then waiting.(errorCode := None) else waiting)
  }

  /** `mergeTaskProjection`: revisions decide when both sides have one, timestamps otherwise. */
  function Merge(current: AgentTask, incoming: AgentTask): AgentTask {
    var c, i := RevisionOf(current), RevisionOf(incoming);
    if c.Some? && i.Some? then
      if i.value < c.value then current
      else if i.value == c.value then MergeEqual(current, incoming)
      else MergeAccepted(current, incoming)
    else if current.updatedAt.Some? && incoming.updatedAt.Some?
            && incoming.updatedAt.value < current.updatedAt.value then current
    else MergeAccepted(current, incoming)
  }

  function ErrorOf(metadata: Metadata): Field<string> {
    if metadata.errorCode.Some? then Has(metadata.errorCode.value) else Null
  }

  /** The candidate that `applyTaskEvent` builds on the current projection. */
  function EventCandidate(current: AgentTask, e: TaskEvent, finalAnswer: Option<string>): AgentTask {
    var status := if e.status.Some? then e.status.value else current.status;
    var (a2a, local) := StateProjection(e.a2a, e.metadata, Or(e.local, current.local));
    current.(
      revision := e.revision, a2a := a2a, local := local, status := status,
      finalAnswer := Or(finalAnswer, current.finalAnswer),
      updatedAt := e.createdAt,
      error :=
        if e.status == Some(Failed) then OrField(ErrorOf(e.metadata), current.error)
        else if e.status.Some? then Null
        else current.error,
      streamError := if IsTerminalShown(status) then Null else current.streamError,
      metadata := Overlay(current.metadata, e.metadata))
  }

  function ApplyEvent(current: AgentTask, e: TaskEvent, finalAnswer: Option<string>): AgentTask {
    Merge(current, EventCandidate(current, e, finalAnswer))
  }

  /** The candidate that `mergeTaskWithA2ASnapshot` builds. */
  function SnapshotCandidate(current: AgentTask, s: Snapshot): AgentTask {
    var status := Normalize(
      if s.metadata.localStatus.Some? then s.metadata.localStatus.value else LocalFromA2A(s.state));
    var (a2a, local) := StateProjection(Some(s.state), s.metadata, current.local);
    current.(
      revision := s.metadata.lifecycleRevision,
      threadId := if s.threadId != "" then s.threadId else current.threadId,
      a2a := a2a, local := local, status := status,
      updatedAt := Or(s.timestamp, current.updatedAt),
      error := if status == Failed then OrField(ErrorOf(s.metadata), current.error) else Null,
      streamError := if IsTerminalShown(status) then Null else current.streamError,
      metadata := s.metadata)
  }

  function ApplySnapshot(current: AgentTask, s: Snapshot): AgentTask {
    Merge(current, SnapshotCandidate(current, s))
  }

  // ----- the backend -----------------------------------------------------------------------

  /** The backend's status at a revision: the last one logged up to it. */
  function StatusAt(log: seq<P.Event>, revision: nat): L.TaskStatus {
    if log == [] then L.Created
    else
      var last := log[|log| - 1];
      if last.status.Some? && last.revision <= revision then last.status.value
      else StatusAt(log[..|log| - 1], revision)
  }

  /** The events that reach a client: internal audit facts have no projection. */
  predicate Visible(e: P.Event) {
    e.status.Some? || e.kind == P.ArtifactCreated || e.kind == P.ArtifactUpdated
  }

  /** What the backend sends for an event: an artifact update carries no status at all. */
  function Sent(e: P.Event, at: Option<int>, request: Option<string>, error: Option<string>): TaskEvent {
    match e.status
    case None => TaskEvent(Some(e.revision), None, None, None, at, Metadata(Some(e.revision), None, None, None))
    case Some(s) =>
      TaskEvent(Some(e.revision), Some(A2AFromLocal(s)), Some(s), Some(Normalize(s)), at,
                Metadata(Some(e.revision), Some(s), request, error))
  }

  /** A read of the task at some revision, past or present, as the snapshot endpoint projects it. */
  function SnapshotAt(log: seq<P.Event>, revision: nat, at: Option<int>, thread: string, request: Option<string>,
                      error: Option<string>)
    : Snapshot
  {
    var s := StatusAt(log, revision);
    Snapshot(A2AFromLocal(s), at, thread, Metadata(Some(revision), Some(s), request, error))
  }

  /** A task row read at some revision, as the conversation view upserts it. */
  ghost predicate ReadAt(log: seq<P.Event>, t: AgentTask) {
    && t.revision.Some? && t.revision.value >= 1
    && ShowsBackend(log, t, t.revision.value)
    && !t.error.Undefined? && (t.error.Has? ==> t.status == Failed)
  }

  /** The projection says what the backend said at this revision. */
  ghost predicate ShowsBackend(log: seq<P.Event>, t: AgentTask, revision: nat) {
    var s := StatusAt(log, revision);
    t.local == Some(s) && t.status == Normalize(s) && t.a2a == Some(A2AFromLocal(s))
  }

  ghost predicate RevisionsOk(log: seq<P.Event>) {
    && (forall i :: 0 <= i < |log| ==> 1 <= log[i].revision)
    && (forall i, j :: 0 <= i < j < |log| && log[j].status.Some? ==> log[i].revision < log[j].revision)
  }

  /** The revision discipline is what the store's history invariant gives. */
  lemma HistoryHasRevisions(log: seq<P.Event>, status: L.TaskStatus, limit: nat)
    requires P.History(log, status, limit)
    ensures RevisionsOk(log)
    ensures StatusAt(log, limit) == status
  {
    P.HistoryMeans(log, status, limit);
    P.HistoryEndsAtStatus(log, status, limit);
    StatusAtLimit(log, limit);
  }

  lemma {:induction false} StatusAtLimit(log: seq<P.Event>, limit: nat)
    requires forall i :: 0 <= i < |log| ==> log[i].revision <= limit
    ensures StatusAt(log, limit) == P.StatusOf(log)
    decreases |log|
  {
    if log != [] && log[|log| - 1].status.None? {
      StatusAtLimit(log[..|log| - 1], limit);
    }
  }

  /** Two revisions with no status change between them have the same status. */
  lemma {:induction false} SameStatusBetween(log: seq<P.Event>, low: nat, high: nat)
    requires low <= high
    requires forall i :: 0 <= i < |log| && log[i].status.Some? ==> log[i].revision <= low || log[i].revision > high
    ensures StatusAt(log, low) == StatusAt(log, high)
    decreases |log|
  {
    if log != [] {
      SameStatusBetween(log[..|log| - 1], low, high);
    }
  }

  /** A status event is the backend's status at its own revision. */
  lemma {:induction false} StatusAtOwnRevision(log: seq<P.Event>, k: nat)
    requires RevisionsOk(log) && k < |log| && log[k].status.Some?
    ensures StatusAt(log, log[k].revision) == log[k].status.value
    decreases |log|
  {
    if k < |log| - 1 {
      StatusAtOwnRevision(log[..|log| - 1], k);
    }
  }

  // ----- the client's invariant ------------------------------------------------------------

  /**
  After the first `k` events of the log have been offered, the client is at least at the revision of
  every visible one, shows the backend's status at its own revision, and shows an input request or an
  error only in the status they belong to.
  */
  ghost predicate ClientOk(log: seq<P.Event>, t: AgentTask, k: nat) {
    && k <= |log|
    && t.revision.Some? && t.revision.value >= 1
    && ShowsBackend(log, t, t.revision.value)
    && (forall i :: 0 <= i < k && Visible(log[i]) ==> log[i].revision <= t.revision.value)
    && (t.metadata.inputRequest.Some? ==> t.status == Interrupted)
    && (t.error.Has? ==> t.status == Failed)
  }

  /** No merge goes back to an older revision or loses the final answer. */
  ghost predicate NotBehind(before: AgentTask, after: AgentTask) {
    && before.revision.Some? && after.revision.Some?
    && before.revision.value <= after.revision.value
    && (before.finalAnswer.Some? ==> after.finalAnswer.Some?)
  }

  /** Merging any projection that shows the backend at its revision keeps the client right. */
  lemma MergeKeepsClient(log: seq<P.Event>, t: AgentTask, k: nat, incoming: AgentTask)
    requires ClientOk(log, t, k)
    requires incoming.revision.Some? && incoming.revision.value >= 1
    requires incoming.revision.value > t.revision.value ==> ShowsBackend(log, incoming, incoming.revision.value)
    requires incoming.error.Has? ==> incoming.status == Failed
    requires incoming.error.Undefined? ==> incoming.status == t.status || !t.error.Has?
    ensures ClientOk(log, Merge(t, incoming), k)
    ensures NotBehind(t, Merge(t, incoming))
    ensures incoming.revision.value <= Merge(t, incoming).revision.value
  {
  }

  lemma EventKeepsClient(log: seq<P.Event>, t: AgentTask, k: nat, j: nat, at: Option<int>,
                         request: Option<string>, error: Option<string>, answer: Option<string>)
    requires RevisionsOk(log) && ClientOk(log, t, k) && j <= k && j < |log| && Visible(log[j])
    ensures var t' := ApplyEvent(t, Sent(log[j], at, request, error), answer);
            ClientOk(log, t', if j == k then k + 1 else k) && NotBehind(t, t')
  {
    var e := Sent(log[j], at, request, error);
    var candidate := EventCandidate(t, e, answer);
    var c, r := t.revision.value, log[j].revision;
    if r > c {
      assert j == k;
      if log[j].status.Some? {
        StatusAtOwnRevision(log, j);
      } else {
        forall i | 0 <= i < |log| && log[i].status.Some?
          ensures log[i].revision <= c || log[i].revision > r
        {
        }
        SameStatusBetween(log, c, r);
      }
    }
    MergeKeepsClient(log, t, k, candidate);
  }

  lemma SnapshotKeepsClient(log: seq<P.Event>, t: AgentTask, k: nat, revision: nat, at: Option<int>,
                            thread: string, request: Option<string>, error: Option<string>)
    requires ClientOk(log, t, k) && revision >= 1
    ensures var t' := ApplySnapshot(t, SnapshotAt(log, revision, at, thread, request, error));
            ClientOk(log, t', k) && NotBehind(t, t')
  {
    MergeKeepsClient(log, t, k, SnapshotCandidate(t, SnapshotAt(log, revision, at, thread, request, error)));
  }

  // ----- whole deliveries ------------------------------------------------------------------

  /** What can reach the reducer for a task it already holds. */
  datatype Delivery =
    | Offer(index: nat, at: Option<int>, request: Option<string>, failure: Option<string>, answer: Option<string>)
    | Read(revision: nat, at: Option<int>, thread: string, request: Option<string>, failure: Option<string>)
    | Upsert(task: AgentTask)
    | StreamError(message: string)

  /** The event stream is in log order, possibly repeated from an earlier cursor; reads are arbitrarily stale. */
  ghost predicate Arrives(log: seq<P.Event>, k: nat, d: Delivery) {
    match d
    case Offer(index, _, _, _, _) => index <= k && index < |log|
    case Read(revision, _, _, _, _) => revision >= 1
    case Upsert(task) => ReadAt(log, task)
    case StreamError(_) => true
  }

  function Receive(log: seq<P.Event>, t: AgentTask, d: Delivery): AgentTask
    requires d.Offer? ==> d.index < |log|
  {
    match d
    case Offer(j, at, request, failure, answer) =>
      if Visible(log[j]) then ApplyEvent(t, Sent(log[j], at, request, failure), answer) else t
    case Read(revision, at, thread, request, failure) =>
      ApplySnapshot(t, SnapshotAt(log, revision, at, thread, request, failure))
    case Upsert(task) => Merge(t, task)
    case StreamError(message) => t.(streamError := Has(message))
  }

  function Progress(k: nat, d: Delivery): nat {
    if d.Offer? && d.index == k then k + 1 else k
  }

  ghost predicate AllArrive(log: seq<P.Event>, k: nat, ds: seq<Delivery>)
    decreases |ds|
  {
    ds == [] || (Arrives(log, k, ds[0]) && AllArrive(log, Progress(k, ds[0]), ds[1..]))
  }

  ghost function ReceiveAll(log: seq<P.Event>, t: AgentTask, k: nat, ds: seq<Delivery>): AgentTask
    requires AllArrive(log, k, ds)
    decreases |ds|
  {
    if ds == [] then t else ReceiveAll(log, Receive(log, t, ds[0]), Progress(k, ds[0]), ds[1..])
  }

  lemma ReceiveKeepsClient(log: seq<P.Event>, t: AgentTask, k: nat, d: Delivery)
    requires RevisionsOk(log) && ClientOk(log, t, k) && Arrives(log, k, d)
    ensures ClientOk(log, Receive(log, t, d), Progress(k, d))
    ensures NotBehind(t, Receive(log, t, d))
  {
    match d
    case Offer(j, at, request, failure, answer) =>
      if Visible(log[j]) {
        EventKeepsClient(log, t, k, j, at, request, failure, answer);
      }
    case Read(revision, at, thread, request, failure) =>
      SnapshotKeepsClient(log, t, k, revision, at, thread, request, failure);
    case Upsert(task) => MergeKeepsClient(log, t, k, task);
    case StreamError(_) =>
  }

  /**
  With the event stream offered in log order and arbitrarily stale or repeated events and reads in
  between, the shown revision never falls and the shown status is always the backend's status at it.
  */
  lemma {:induction false} ClientNeverRegresses(log: seq<P.Event>, t: AgentTask, k: nat, ds: seq<Delivery>)
    requires RevisionsOk(log) && ClientOk(log, t, k) && AllArrive(log, k, ds)
    ensures var t' := ReceiveAll(log, t, k, ds);
            && NotBehind(t, t')
            && ShowsBackend(log, t', t'.revision.value)
            && (t'.metadata.inputRequest.Some? ==> t'.status == Interrupted)
            && (t'.error.Has? ==> t'.status == Failed)
    decreases |ds|
  {
    if ds != [] {
      ReceiveKeepsClient(log, t, k, ds[0]);
      ClientNeverRegresses(log, Receive(log, t, ds[0]), Progress(k, ds[0]), ds[1..]);
    }
  }

  /** The same, against the log of any task that satisfies the store's history invariant. */
  lemma ClientShowsTheProcess(p: P.Process, t: AgentTask, k: nat, ds: seq<Delivery>)
    requires P.LogTellsStatus(p) && ClientOk(p.events, t, k) && AllArrive(p.events, k, ds)
    ensures var t' := ReceiveAll(p.events, t, k, ds);
            && NotBehind(t, t')
            && ShowsBackend(p.events, t', t'.revision.value)
            && (t'.revision.value == p.task.revision ==> t'.status == Normalize(p.task.status))
  {
    HistoryHasRevisions(p.events, p.task.status, p.task.revision);
    ClientNeverRegresses(p.events, t, k, ds);
  }

  /**
  Reads without a revision are outside that guarantee. When one shows another status than the client
  does, the client keeps its revision, still shows the backend's status at it if and only if the read
  is older by timestamp, and otherwise shows the wrong status through every later read up to it.
  */
  lemma UnrevisionedReadRegressesIff(log: seq<P.Event>, t: AgentTask, k: nat, stale: Snapshot, later: Snapshot)
    requires ClientOk(log, t, k) && t.metadata.lifecycleRevision == t.revision
    requires stale.metadata.lifecycleRevision.None? && stale.metadata.localStatus.Some?
    requires Normalize(stale.metadata.localStatus.value) != t.status
    requires later.metadata.lifecycleRevision.Some? && 1 <= later.metadata.lifecycleRevision.value <= t.revision.value
    ensures var t' := ApplySnapshot(t, stale);
            var older := t.updatedAt.Some? && stale.timestamp.Some? && stale.timestamp.value < t.updatedAt.value;
            && RevisionOf(t') == t.revision
            && (ShowsBackend(log, t', t.revision.value) <==> older)
            && ApplySnapshot(t', later).status == t'.status
  {
  }

  // ----- what an event shows ---------------------------------------------------------------

  /**
  A final answer that comes with an event is shown, to a client that has none yet, if and only if the
  event is not older than what the client shows: an artifact event that a newer snapshot overtook brings
  no answer.
  */
  lemma AnswerIsShownIff(t: AgentTask, e: P.Event, at: Option<int>, answer: string)
    requires RevisionOf(t).Some? && t.finalAnswer.None? && e.revision >= 1
    ensures ApplyEvent(t, Sent(e, at, None, None), Some(answer)).finalAnswer == Some(answer)
            <==> RevisionOf(t).value <= e.revision
  {
  }

  /** A newer status event shows its status, its input request while the task waits, and its error when it failed. */
  lemma NewStatusIsShown(t: AgentTask, e: P.Event, at: Option<int>, request: Option<string>, error: string)
    requires RevisionOf(t).Some? && e.status.Some? && RevisionOf(t).value < e.revision
    ensures var t' := ApplyEvent(t, Sent(e, at, request, Some(error)), None);
            && t'.revision == Some(e.revision) && t'.status == Normalize(e.status.value)
            && t'.a2a == Some(A2AFromLocal(e.status.value)) && t'.local == e.status
            && (t'.status == Interrupted && request.Some? ==> t'.metadata.inputRequest == request)
            && (t'.status == Failed ==> t'.error == Has(error))
            && (t'.status != Failed ==> t'.error == Null)
            && (IsTerminalShown(t'.status) ==> t'.streamError == Null)
  {
  }

  /** A newer artifact event moves the revision and leaves the status alone. */
  lemma NewArtifactKeepsStatus(t: AgentTask, e: P.Event, at: Option<int>, answer: Option<string>)
    requires RevisionOf(t).Some? && e.status.None? && RevisionOf(t).value < e.revision && t.local.Some?
    ensures var t' := ApplyEvent(t, Sent(e, at, None, None), answer);
            && t'.revision == Some(e.revision) && t'.status == t.status && t'.local == t.local && t'.error == t.error
            && t'.finalAnswer == Or(answer, t.finalAnswer)
  {
  }

  /** A newer snapshot shows its status and revision. */
  lemma NewSnapshotIsShown(t: AgentTask, log: seq<P.Event>, revision: nat, at: Option<int>, thread: string,
                           request: Option<string>, error: Option<string>)
    requires RevisionOf(t).Some? && RevisionOf(t).value < revision
    ensures var t' := ApplySnapshot(t, SnapshotAt(log, revision, at, thread, request, error));
            && t'.revision == Some(revision) && t'.status == Normalize(StatusAt(log, revision))
            && (thread != "" ==> t'.threadId == thread) && t'.finalAnswer == t.finalAnswer
            && (t'.status == Failed && error.Some? ==> t'.error == Has(error.value))
            && (t'.status != Failed ==> t'.error == Null)
  {
  }

  /** A stale event or snapshot changes nothing at all. */
  lemma StaleIsIgnored(t: AgentTask, incoming: AgentTask)
    requires RevisionOf(t).Some? && RevisionOf(incoming).Some? && RevisionOf(incoming).value < RevisionOf(t).value
    ensures Merge(t, incoming) == t
  {
  }
}

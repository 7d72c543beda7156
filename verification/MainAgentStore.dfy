/**
The durable store as the source writes it: one table per kind of row, updated step by step inside
transactions that roll back when a step raises. Every transaction is proved to realize, on the rows
of its task, the process function of the same name, and to leave every other task's rows alone.
*/
module MainAgentStores {
  import opened Prelude
  import opened Lifecycle
  import opened Processes
  import L = Ledger

  /** One row of the event table; its id is its position plus one. */
  datatype EventRow = EventRow(task: TaskId, event: Event)

  datatype Tables = Tables(
    tasks: map<TaskId, TaskRecord>,
    queued: map<TaskId, Command>,
    pending: map<TaskId, InputRequest>,
    invocations: map<TaskId, L.Records>,
    artifacts: map<TaskId, map<ArtifactId, Text>>,
    events: seq<EventRow>,
    nextSerial: nat
  )

  function Lookup<T>(table: map<TaskId, T>, t: TaskId): Option<T> {
    if t in table then Some(table[t]) else None
  }

  function EventsOf(events: seq<EventRow>, t: TaskId): seq<Event> {
    if events == [] then []
    else
      var last := events[|events| - 1];
      EventsOf(events[..|events| - 1], t) + (if last.task == t then [last.event] else [])
  }

  /** All rows of one task, gathered from the tables. */
  function Rows(db: Tables, t: TaskId): Process
    requires t in db.tasks
  {
    Process(db.tasks[t], Lookup(db.queued, t), Lookup(db.pending, t),
            if t in db.invocations then db.invocations[t] else [],
            if t in db.artifacts then db.artifacts[t] else map[],
            EventsOf(db.events, t))
  }

  /** Only the rows of `t` differ, and the event log was only appended to. */
  ghost predicate Touches(a: Tables, b: Tables, t: TaskId) {
    && b.tasks.Keys == a.tasks.Keys
    && a.events <= b.events
    && a.nextSerial <= b.nextSerial
    && forall u :: u in a.tasks && u != t ==> Rows(b, u) == Rows(a, u)
  }

  /** The transaction did to the rows of `t` what the function says, or raised and left no trace. */
  ghost predicate Realizes(a: Tables, b: Tables, t: TaskId, result: Result<Process>, raised: bool)
    requires t in a.tasks
  {
    match result
    case Raised => raised && b == a
    case Ok(p) => !raised && Touches(a, b, t) && Rows(b, t) == p
  }

  lemma TouchesIsTransitive(a: Tables, b: Tables, c: Tables, t: TaskId)
    requires Touches(a, b, t) && Touches(b, c, t)
    ensures Touches(a, c, t)
  {
    forall u | u in a.tasks && u != t
      ensures Rows(c, u) == Rows(a, u)
    {
      assert Rows(b, u) == Rows(a, u);
    }
  }

  /** Foreign keys: no row of any table mentions an unknown task. */
  ghost predicate NoRows(db: Tables, t: TaskId) {
    && t !in db.tasks && t !in db.queued && t !in db.pending && t !in db.invocations && t !in db.artifacts
    && EventsOf(db.events, t) == []
  }

  /** One task was added; the rows of every other are as they were. */
  ghost predicate Adds(a: Tables, b: Tables, t: TaskId) {
    && b.tasks.Keys == a.tasks.Keys + {t}
    && a.events <= b.events
    && a.nextSerial <= b.nextSerial
    && forall u :: u in a.tasks && u != t ==> Rows(b, u) == Rows(a, u)
  }

  lemma AddsThenTouches(a: Tables, b: Tables, c: Tables, t: TaskId)
    requires Adds(a, b, t) && Touches(b, c, t)
    ensures Adds(a, c, t)
  {
    forall u | u in a.tasks && u != t
      ensures Rows(c, u) == Rows(a, u)
    {
      assert Rows(b, u) == Rows(a, u);
    }
  }

  lemma AppendedEvent(events: seq<EventRow>, row: EventRow, t: TaskId)
    ensures EventsOf(events + [row], t) == EventsOf(events, t) + (if row.task == t then [row.event] else [])
  {
    assert (events + [row])[..|events + [row]| - 1] == events;
  }

  class MainAgentStore {
    var db: Tables

    constructor ()
      ensures db == Tables(map[], map[], map[], map[], map[], [], 0)
    {
      db := Tables(map[], map[], map[], map[], map[], [], 0);
    }

    // ----- row writes ----------------------------------------------------------------------

    method UpdateTask(t: TaskId, record: TaskRecord)
      requires t in db.tasks
      modifies this
      ensures Touches(old(db), db, t) && Rows(db, t) == Rows(old(db), t).(task := record)
      ensures db.nextSerial == old(db).nextSerial
    {
      db := db.(tasks := db.tasks[t := record]);
      assert forall u :: u in old(db).tasks && u != t ==> Rows(db, u) == Rows(old(db), u);
    }

    method AppendTaskEvent(t: TaskId, kind: EventKind, status: Option<TaskStatus>)
      requires t in db.tasks
      modifies this
      ensures Touches(old(db), db, t) && db.nextSerial == old(db).nextSerial
      ensures var p := Rows(old(db), t);
              Rows(db, t) == p.(events := p.events + [Event(kind, status, p.task.revision)])
    {
      var row := EventRow(t, Event(kind, status, db.tasks[t].revision));
      forall u | u in db.tasks
        ensures EventsOf(db.events + [row], u) == EventsOf(db.events, u) + (if row.task == u then [row.event] else [])
      {
        AppendedEvent(db.events, row, u);
      }
      db := db.(events := db.events + [row]);
      assert forall u :: u in old(db).tasks && u != t ==> Rows(db, u) == Rows(old(db), u);
    }

    method ClearQueuedExecution(t: TaskId)
      requires t in db.tasks
      modifies this
      ensures Touches(old(db), db, t) && Rows(db, t) == Rows(old(db), t).(queued := None)
      ensures db.nextSerial == old(db).nextSerial
    {
      db := db.(queued := db.queued - {t});
      assert forall u :: u in old(db).tasks && u != t ==> Rows(db, u) == Rows(old(db), u);
    }

    method SetPendingContinuation(t: TaskId, request: InputRequest)
      requires t in db.tasks
      modifies this
      ensures Touches(old(db), db, t) && Rows(db, t) == Rows(old(db), t).(pending := Some(request))
      ensures db.nextSerial == old(db).nextSerial
    {
      db := db.(pending := db.pending[t := request]);
      assert forall u :: u in old(db).tasks && u != t ==> Rows(db, u) == Rows(old(db), u);
    }

    method ClearPendingContinuation(t: TaskId)
      requires t in db.tasks
      modifies this
      ensures Touches(old(db), db, t) && Rows(db, t) == Rows(old(db), t).(pending := None)
      ensures db.nextSerial == old(db).nextSerial
    {
      db := db.(pending := db.pending - {t});
      assert forall u :: u in old(db).tasks && u != t ==> Rows(db, u) == Rows(old(db), u);
    }

    method SetInvocations(t: TaskId, records: L.Records)
      requires t in db.tasks
      modifies this
      ensures Touches(old(db), db, t) && Rows(db, t) == Rows(old(db), t).(ledger := records)
      ensures db.nextSerial == old(db).nextSerial
    {
      db := db.(invocations := db.invocations[t := records]);
      assert forall u :: u in old(db).tasks && u != t ==> Rows(db, u) == Rows(old(db), u);
    }

    // ----- store transactions --------------------------------------------------------------

    /** `transition_local_task`. */
    method TransitionLocalTask(t: TaskId, target: TaskStatus, retryable: bool) returns (raised: bool)
      requires t in db.tasks
      modifies this
      ensures Realizes(old(db), db, t, Transition(Rows(old(db), t), target, retryable), raised)
      ensures db.nextSerial == old(db).nextSerial
    {
      var task := db.tasks[t];
      var verdict := ValidateTransition(task.status, target);
      if verdict.Raised? {
        return true;
      }
      if !verdict.value {
        return false;
      }
      ghost var start := db;
      UpdateTask(t, task.(status := target, errorRetryable := retryable, revision := task.revision + 1));
      ghost var moved := db;
      AppendTaskEvent(t, EventKind.Lifecycle, Some(target));
      TouchesIsTransitive(start, moved, db, t);
      return false;
    }

    method UpsertTaskArtifact(t: TaskId, id: ArtifactId, content: Text)
      requires t in db.tasks
      modifies this
      ensures Touches(old(db), db, t) && Rows(db, t) == UpsertArtifact(Rows(old(db), t), id, content)
      ensures db.nextSerial == old(db).nextSerial
    {
      var current := if t in db.artifacts then db.artifacts[t] else map[];
      if id in current && current[id] == content {
        return;
      }
      db := db.(artifacts := db.artifacts[t := current[id := content]],
                tasks := db.tasks[t := db.tasks[t].(revision := db.tasks[t].revision + 1)]);
      assert forall u :: u in old(db).tasks && u != t ==> Rows(db, u) == Rows(old(db), u);
    }

    method SetTaskOutput(t: TaskId, message: Text)
      requires t in db.tasks
      modifies this
      ensures Touches(old(db), db, t) && Rows(db, t) == SetOutput(Rows(old(db), t), message)
      ensures db.nextSerial == old(db).nextSerial
    {
      if db.tasks[t].output == Some(message) {
        return;
      }
      UpdateTask(t, db.tasks[t].(output := Some(message), revision := db.tasks[t].revision + 1));
    }

    /** `create_local_task`: the record and its first lifecycle event. */
    method CreateLocalTask(t: TaskId, thread: ThreadId, retryOf: Option<TaskId>, attempt: nat)
      requires NoRows(db, t)
      modifies this
      ensures Adds(old(db), db, t) && Rows(db, t) == CreateTask(thread, retryOf, attempt)
      ensures db.nextSerial == old(db).nextSerial
    {
      ghost var start := db;
      db := db.(tasks := db.tasks[t := TaskRecord(Created, thread, retryOf, attempt, None, false, 1)]);
      ghost var created := db;
      assert Adds(start, created, t);
      AppendTaskEvent(t, EventKind.Lifecycle, Some(Created));
      AddsThenTouches(start, created, db, t);
    }

    /** `accept_local_task_from_message`, for the task's own rows; a taken id violates the primary key. */
    method AcceptLocalTask(t: TaskId, thread: ThreadId, retryOf: Option<TaskId>, attempt: nat, queue: bool)
      returns (raised: bool)
      requires t in db.tasks || NoRows(db, t)
      modifies this
      ensures raised <==> t in old(db).tasks
      ensures raised ==> db == old(db)
      ensures !raised ==> Adds(old(db), db, t)
      ensures !raised ==> Ok(Rows(db, t)) == Accept(thread, retryOf, attempt, queue, old(db).nextSerial)
    {
      if t in db.tasks {
        return true;
      }
      ghost var start := db;
      CreateLocalTask(t, thread, retryOf, attempt);
      ghost var created := db;
      if !queue {
        return false;
      }
      raised := TransitionLocalTask(t, Queued, false);
      ghost var moved := db;
      raised := EnqueueTaskExecution(t, Initial, thread);
      TouchesIsTransitive(created, moved, db, t);
      AddsThenTouches(start, created, db, t);
    }

    /** `complete_tool_invocation_success`: the artifact, its event and the status commit together. */
    method CompleteToolInvocation(t: TaskId, key: L.CallKey, content: Text) returns (raised: bool)
      requires t in db.tasks
      modifies this
      ensures Realizes(old(db), db, t, ToolSucceed(Rows(old(db), t), key, content), raised)
    {
      var records := if t in db.invocations then db.invocations[t] else [];
      var done := L.Succeed(records, key);
      if done.Raised? {
        return true;
      }
      if done.value.None? {
        return false;
      }
      ghost var start := db;
      UpsertTaskArtifact(t, ToolResult(key), content);
      ghost var stored := db;
      AppendTaskEvent(t, ArtifactCreated, None);
      TouchesIsTransitive(start, stored, db, t);
      ghost var noted := db;
      SetInvocations(t, done.value.value);
      TouchesIsTransitive(start, noted, db, t);
      return false;
    }

    /** `enqueue_task_execution`: a second identical command is the first one. */
    method EnqueueTaskExecution(t: TaskId, payload: Payload, thread: ThreadId) returns (raised: bool)
      requires t in db.tasks
      modifies this
      ensures Realizes(old(db), db, t, Enqueue(Rows(old(db), t), Command(payload, thread, old(db).nextSerial)), raised)
    {
      var task := db.tasks[t];
      if task.status != Queued || task.thread != thread {
        return true;
      }
      if t in db.queued {
        return db.queued[t].payload != payload || db.queued[t].thread != thread;
      }
      db := db.(queued := db.queued[t := Command(payload, thread, db.nextSerial)], nextSerial := db.nextSerial + 1);
      assert forall u :: u in old(db).tasks && u != t ==> Rows(db, u) == Rows(old(db), u);
      return false;
    }

    /** `claim_queued_task_execution`: consuming the command and starting the task commit together. */
    method ClaimQueuedTaskExecution(t: TaskId) returns (claimed: Result<Option<Command>>)
      requires t in db.tasks
      modifies this
      ensures match Claim(Rows(old(db), t))
              case Raised => claimed.Raised? && db == old(db)
              case Ok(None) => claimed == Ok(None) && db == old(db)
              case Ok(Some(v)) => claimed == Ok(Some(v.1)) && Touches(old(db), db, t) && Rows(db, t) == v.0
    {
      var saved := db;
      if db.tasks[t].status != Queued || t !in db.queued {
        return Ok(None);
      }
      var command := db.queued[t];
      if command.thread != db.tasks[t].thread {
        return Raised;
      }
      ClearQueuedExecution(t);
      ghost var cleared := db;
      var raised := TransitionLocalTask(t, Running, false);
      if raised {
        db := saved;
        return Raised;
      }
      TouchesIsTransitive(saved, cleared, db, t);
      return Ok(Some(command));
    }

    /** `resolve_pending_tool_invocation_approval`. */
    method ResolveApproval(t: TaskId, binding: Binding, approved: bool) returns (raised: bool)
      requires t in db.tasks
      modifies this
      ensures var p := Rows(old(db), t);
              match ResolveBinding(p.ledger, binding, approved)
              case Raised => raised && db == old(db)
              case Ok(l) => !raised && Touches(old(db), db, t) && Rows(db, t) == p.(ledger := l)
      ensures db.nextSerial == old(db).nextSerial
    {
      match binding {
        case Unbound => return false;
        case Malformed => return true;
        case Bound(key, tool, digest) =>
          var records := if t in db.invocations then db.invocations[t] else [];
          var resolved := L.Resolve(records, key, tool, digest, approved);
          if resolved.Raised? {
            return true;
          }
          SetInvocations(t, resolved.value);
          return false;
      }
    }
  }
}

/**
Ref-counted entries per runtime thread id, and the two objects built on them: the task runner's
per-thread locks with their closing protocol, and the registry of cancellation signals. Every method
is one guarded section, so a sequence of calls is an interleaving of the threads that make them.
*/
module ThreadEntries {

  type ThreadId = string
  type User = nat      // one call in flight
  type EntryId = nat   // an entry object: a lock, or a cancellation signal

  /** Which entry a call in flight holds a count on. */
  datatype Hold = Hold(thread: ThreadId, entry: EntryId)

  datatype Entries = Entries(
    table: map<ThreadId, EntryId>,
    counts: map<EntryId, nat>,
    holds: map<User, Hold>,
    next: EntryId
  )

  const NO_ENTRIES := Entries(map[], map[], map[], 0)

  function UsersOf(holds: map<User, Hold>, e: EntryId): set<User> {
    set u | u in holds && holds[u].entry == e
  }

  /** Every call on a thread id shares that id's one entry, and the count says how many there are. */
  ghost predicate EntriesOk(s: Entries) {
    && (forall u :: u in s.holds ==> s.holds[u].thread in s.table && s.table[s.holds[u].thread] == s.holds[u].entry)
    && (forall t :: t in s.table ==> s.table[t] < s.next && s.table[t] in s.counts && s.counts[s.table[t]] >= 1)
    && (forall t, r :: t in s.table && r in s.table && s.table[t] == s.table[r] ==> t == r)
    && CountsOk(s)
  }

  ghost predicate CountsOk(s: Entries) {
    forall e :: e in s.counts ==> s.counts[e] == |UsersOf(s.holds, e)| && e < s.next
  }

  /** The entry found or created for a thread id. */
  function EntryFor(s: Entries, t: ThreadId): EntryId {
    if t in s.table then s.table[t] else s.next
  }

  function Join(s: Entries, u: User, t: ThreadId): Entries {
    var e := EntryFor(s, t);
    var count := if t in s.table && e in s.counts then s.counts[e] else 0;
    Entries(s.table[t := e], s.counts[e := count + 1], s.holds[u := Hold(t, e)],
            if t in s.table then s.next else s.next + 1)
  }

  /** The last user removes the entry, if the table still holds that very entry. */
  function Leave(s: Entries, u: User): Entries
    requires u in s.holds
  {
    var Hold(t, e) := s.holds[u];
    var left := if e in s.counts && s.counts[e] >= 1 then s.counts[e] - 1 else 0;
    Entries(if left == 0 && t in s.table && s.table[t] == e then s.table - {t} else s.table,
            s.counts[e := left], s.holds - {u}, s.next)
  }

  lemma JoinCounts(holds: map<User, Hold>, u: User, h: Hold, e: EntryId)
    requires u !in holds
    ensures |UsersOf(holds[u := h], e)| == |UsersOf(holds, e)| + (if h.entry == e then 1 else 0)
  {
    if h.entry == e {
      assert UsersOf(holds[u := h], e) == UsersOf(holds, e) + {u};
    } else {
      assert UsersOf(holds[u := h], e) == UsersOf(holds, e);
    }
  }

  lemma LeaveCounts(holds: map<User, Hold>, u: User, e: EntryId)
    requires u in holds
    ensures |UsersOf(holds - {u}, e)| == |UsersOf(holds, e)| - (if holds[u].entry == e then 1 else 0)
  {
    if holds[u].entry == e {
      assert UsersOf(holds, e) == UsersOf(holds - {u}, e) + {u};
    } else {
      assert UsersOf(holds - {u}, e) == UsersOf(holds, e);
    }
  }

  lemma FreshEntryHasNoUsers(s: Entries)
    requires EntriesOk(s)
    ensures UsersOf(s.holds, s.next) == {}
  {
  }

  lemma JoinKeeps(s: Entries, u: User, t: ThreadId)
    requires EntriesOk(s) && u !in s.holds
    ensures EntriesOk(Join(s, u, t))
  {
    JoinKeepsCounts(s, u, t);
  }

  lemma JoinKeepsCounts(s: Entries, u: User, t: ThreadId)
    requires EntriesOk(s) && u !in s.holds
    ensures CountsOk(Join(s, u, t))
  {
    var e, s' := EntryFor(s, t), Join(s, u, t);
    FreshEntryHasNoUsers(s);
    forall x | x in s'.counts
      ensures s'.counts[x] == |UsersOf(s'.holds, x)| && x < s'.next
    {
      JoinCounts(s.holds, u, Hold(t, e), x);
    }
  }

  lemma HoldIsCounted(s: Entries, u: User)
    requires EntriesOk(s) && u in s.holds
    ensures s.holds[u].entry in s.counts && s.counts[s.holds[u].entry] >= 1
  {
  }

  lemma LeaveKeepsCounts(s: Entries, u: User)
    requires EntriesOk(s) && u in s.holds
    ensures CountsOk(Leave(s, u))
  {
    HoldIsCounted(s, u);
    var s' := Leave(s, u);
    forall x | x in s'.counts
      ensures s'.counts[x] == |UsersOf(s'.holds, x)| && x < s'.next
    {
      LeaveCounts(s.holds, u, x);
    }
  }

  lemma LeaveKeeps(s: Entries, u: User)
    requires EntriesOk(s) && u in s.holds
    ensures EntriesOk(Leave(s, u))
  {
    HoldIsCounted(s, u);
    var Hold(t, e) := s.holds[u];
    var s' := Leave(s, u);
    LeaveKeepsCounts(s, u);
    forall v | v in s'.holds
      ensures s'.holds[v].thread in s'.table && s'.table[s'.holds[v].thread] == s'.holds[v].entry
    {
      if s'.holds[v].entry == e {
        assert v in UsersOf(s'.holds, e);
      }
    }
  }

  /** A thread id is in the table exactly while some call is in flight on it. */
  lemma InTableIffInUse(s: Entries, t: ThreadId)
    requires EntriesOk(s)
    ensures t in s.table <==> exists u :: u in s.holds && s.holds[u].thread == t
  {
    if t in s.table {
      var e := s.table[t];
      assert UsersOf(s.holds, e) != {};
      var u :| u in UsersOf(s.holds, e);
      assert s.holds[u].thread == t;
    }
  }

  lemma NoTableNoCalls(s: Entries)
    requires EntriesOk(s) && s.table == map[]
    ensures s.holds == map[]
  {
  }

  // ----- per-thread locks ------------------------------------------------------------------

  /** The runner's thread locks: a call first counts itself on the entry, then waits for its lock. */
  class LocalTaskRunner {
    var entries: Entries
    var locked: map<EntryId, User>     // who holds an entry's lock
    var closed: bool
    var runtimeClosed: bool

    ghost predicate Valid()
      reads this
    {
      && EntriesOk(entries)
      && (forall e :: e in locked ==> locked[e] in entries.holds && entries.holds[locked[e]].entry == e)
      && (runtimeClosed ==> closed && entries.table == map[])
    }

    constructor ()
      ensures Valid() && !closed && !runtimeClosed && entries == NO_ENTRIES && locked == map[]
    {
      entries, locked, closed, runtimeClosed := NO_ENTRIES, map[], false, false;
    }

    /** Entry to `_acquire_thread`: refused once the runner is closed. */
    method CountIn(u: User, t: ThreadId) returns (raised: bool)
      requires Valid() && u !in entries.holds
      modifies this`entries
      ensures Valid() && raised == closed
      ensures entries == if closed then old(entries) else Join(old(entries), u, t)
    {
      if closed {
        return true;
      }
      JoinKeeps(entries, u, t);
      entries := Join(entries, u, t);
      return false;
    }

    /** Taking the entry's lock; it blocks while another call holds it. */
    method TakeLock(u: User) returns (taken: bool)
      requires Valid() && u in entries.holds
      modifies this`locked
      ensures Valid()
      ensures taken <==> entries.holds[u].entry !in old(locked)
      ensures locked == if taken then old(locked)[entries.holds[u].entry := u] else old(locked)
    {
      var e := entries.holds[u].entry;
      if e in locked {
        return false;
      }
      locked := locked[e := u];
      return true;
    }

    /** Leaving `_acquire_thread`: release the lock if held, then count out. */
    method CountOut(u: User)
      requires Valid() && u in entries.holds
      modifies this`entries, this`locked
      ensures Valid() && entries == Leave(old(entries), u)
      ensures var e := old(entries).holds[u].entry;
              locked == if e in old(locked) && old(locked)[e] == u then old(locked) - {e} else old(locked)
    {
      var e := entries.holds[u].entry;
      if e in locked && locked[e] == u {
        locked := locked - {e};
      }
      assert u !in locked.Values;
      LeaveKeeps(entries, u);
      entries := Leave(entries, u);
    }

    /** `close`, before it waits. */
    method StartClosing()
      requires Valid()
      modifies this`closed
      ensures Valid() && closed
    {
      closed := true;
    }

    /** `close`, after its wait: the runtime is reached only with no call in flight. */
    method FinishClosing() returns (done: bool)
      requires Valid() && closed
      modifies this`runtimeClosed
      ensures Valid() && runtimeClosed == (old(runtimeClosed) || done)
      ensures done <==> entries.table == map[]
      ensures done ==> entries.holds == map[]
    {
      done := |entries.table| == 0;
      if done {
        runtimeClosed := true;
        NoTableNoCalls(entries);
      }
    }

    /** Two calls in flight on one runtime thread id. */
    ghost predicate SameThread(u: User, v: User)
      reads this
    {
      u in entries.holds && v in entries.holds && entries.holds[u].thread == entries.holds[v].thread
    }

    /** What `Valid` means for callers. */
    lemma LocksExclude()
      requires Valid()
      ensures forall u, v :: SameThread(u, v) ==> entries.holds[u].entry == entries.holds[v].entry
      ensures forall e, f :: e in locked && f in locked && SameThread(locked[e], locked[f]) ==> e == f
      ensures runtimeClosed ==> entries.holds == map[]
    {
      if runtimeClosed {
        NoTableNoCalls(entries);
      }
    }
  }

  // ----- cancellation signals --------------------------------------------------------------

  /** The registry that makes a cancellation visible to the calls of one active execution. */
  class ExecutionContextRegistry {
    var entries: Entries
    var requested: set<EntryId>      // signals that were raised

    ghost predicate Valid()
      reads this
    {
      EntriesOk(entries) && forall e :: e in requested ==> e < entries.next
    }

    constructor ()
      ensures Valid() && entries == NO_ENTRIES && requested == {}
    {
      entries, requested := NO_ENTRIES, {};
    }

    /** Entering `activate`. A first user gets a signal nobody has ever raised. */
    method Activate(u: User, t: ThreadId) returns (raised: bool)
      requires Valid() && u !in entries.holds
      modifies this`entries
      ensures Valid() && raised == (t == "")
      ensures entries == if raised then old(entries) else Join(old(entries), u, t)
      ensures !raised && t !in old(entries).table ==> entries.holds[u].entry !in requested
    {
      if t == "" {
        return true;
      }
      JoinKeeps(entries, u, t);
      entries := Join(entries, u, t);
      return false;
    }

    method Deactivate(u: User)
      requires Valid() && u in entries.holds
      modifies this`entries
      ensures Valid() && entries == Leave(old(entries), u)
    {
      LeaveKeeps(entries, u);
      entries := Leave(entries, u);
    }

    /** `request_cancellation`: reaches exactly the calls now active on the thread. */
    method RequestCancellation(t: ThreadId) returns (signaled: bool)
      requires Valid()
      modifies this`requested
      ensures Valid()
      ensures signaled <==> exists u :: u in entries.holds && entries.holds[u].thread == t
      ensures requested == if signaled then old(requested) + {entries.table[t]} else old(requested)
    {
      InTableIffInUse(entries, t);
      if t !in entries.table || entries.counts[entries.table[t]] == 0 {
        return false;
      }
      requested := requested + {entries.table[t]};
      return true;
    }

    /** `cancellation_requested`. */
    method CancellationRequested(t: ThreadId) returns (r: bool)
      requires Valid()
      ensures r <==>
                exists u :: u in entries.holds && entries.holds[u].thread == t && entries.holds[u].entry in requested
    {
      InTableIffInUse(entries, t);
      r := t in entries.table && entries.table[t] in requested;
      if r {
        ghost var u :| u in entries.holds && entries.holds[u].thread == t;
        assert entries.holds[u].entry in requested;
      }
    }
  }

  // ----- every run of joins and leaves -----------------------------------------------------

  datatype EntryOp = JoinOp(user: User, thread: ThreadId) | LeaveOp(user: User)

  /** A user joins once at a time and leaves only what it holds. */
  function ApplyOp(s: Entries, op: EntryOp): Entries {
    match op
    case JoinOp(u, t) => if u in s.holds then s else Join(s, u, t)
    case LeaveOp(u) => if u in s.holds then Leave(s, u) else s
  }

  function RunOps(s: Entries, ops: seq<EntryOp>): Entries
    decreases |ops|
  {
    if ops == [] then s else RunOps(ApplyOp(s, ops[0]), ops[1..])
  }

  /** The entry was created and its last user has left. */
  ghost predicate Retired(s: Entries, e: EntryId) {
    && e < s.next
    && (forall t :: t in s.table ==> s.table[t] != e)
    && (forall u :: u in s.holds ==> s.holds[u].entry != e)
  }

  lemma LastLeaveRetires(s: Entries, u: User)
    requires EntriesOk(s) && u in s.holds && UsersOf(s.holds, s.holds[u].entry) == {u}
    ensures EntriesOk(Leave(s, u)) && Retired(Leave(s, u), s.holds[u].entry)
  {
    LeaveKeeps(s, u);
    HoldIsCounted(s, u);
    var e, s' := s.holds[u].entry, Leave(s, u);
    forall v | v in s'.holds
      ensures s'.holds[v].entry != e
    {
      assert v in UsersOf(s.holds, s'.holds[v].entry);
    }
  }

  lemma RetiredStays(s: Entries, op: EntryOp, e: EntryId)
    requires EntriesOk(s) && Retired(s, e)
    ensures EntriesOk(ApplyOp(s, op)) && Retired(ApplyOp(s, op), e)
  {
    match op
    case JoinOp(u, t) =>
      if u !in s.holds {
        JoinKeeps(s, u, t);
      }
    case LeaveOp(u) =>
      if u in s.holds {
        LeaveKeeps(s, u);
      }
  }

  lemma {:induction false} RetiredForever(s: Entries, ops: seq<EntryOp>, e: EntryId)
    requires EntriesOk(s) && Retired(s, e)
    ensures EntriesOk(RunOps(s, ops)) && Retired(RunOps(s, ops), e)
    decreases |ops|
  {
    if ops != [] {
      RetiredStays(s, ops[0], e);
      RetiredForever(ApplyOp(s, ops[0]), ops[1..], e);
    }
  }

  /**
  After its last user left, an entry is never handed out again, whatever joins and leaves follow: a
  lock is not shared across the gap and a raised signal cannot reach a later activation.
  */
  lemma EntriesAreNotReused(s: Entries, u: User, ops: seq<EntryOp>, v: User)
    requires EntriesOk(s) && u in s.holds && UsersOf(s.holds, s.holds[u].entry) == {u}
    requires v in RunOps(Leave(s, u), ops).holds
    ensures RunOps(Leave(s, u), ops).holds[v].entry != s.holds[u].entry
  {
    LastLeaveRetires(s, u);
    RetiredForever(Leave(s, u), ops, s.holds[u].entry);
  }
}

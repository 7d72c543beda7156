/**
The store's nested transactions and after-commit callbacks, for every well-nested program of writes,
registrations, nested scopes, local effects and raised or caught errors.
*/
module Transactions {

  type Row = string

  /** A registered after-commit action; one that raises is logged and swallowed. */
  datatype Callback = Callback(name: string, raises: bool)

  /** A process-local effect that runs on the spot and may raise. */
  datatype Action = Action(name: string, raises: bool)

  datatype Program =
    | Skip
    | Write(row: Row)
    | Register(callback: Callback)
    | Act(action: Action)
    | Raise
    | Then(first: Program, second: Program)
    | Catch(body: Program)
    | Txn(body: Program, commitFails: bool)

  /** What an observer outside the store sees, in order. */
  datatype Effect = Committed(rows: seq<Row>) | CalledBack(callback: Callback) | Acted(action: Action)

  // ----- flat meaning ----------------------------------------------------------------------

  /** What a program does under an open transaction: it only collects. Nested scopes are transparent. */
  datatype Collected = Collected(rows: seq<Row>, callbacks: seq<Callback>, acts: seq<Effect>, ok: bool)

  function Inside(p: Program): Collected {
    match p
    case Skip => Collected([], [], [], true)
    case Write(row) => Collected([row], [], [], true)
    case Register(callback) => Collected([], [callback], [], true)
    case Act(action) => Collected([], [], [Acted(action)], !action.raises)
    case Raise => Collected([], [], [], false)
    case Then(first, second) =>
      var a := Inside(first);
      if !a.ok then a
      else
        var b := Inside(second);
        Collected(a.rows + b.rows, a.callbacks + b.callbacks, a.acts + b.acts, b.ok)
    case Catch(body) => Inside(body).(ok := true)
    case Txn(body, _) => Inside(body)
  }

  function Calls(callbacks: seq<Callback>): (r: seq<Effect>)
    ensures |r| == |callbacks|
    ensures forall k :: 0 <= k < |r| ==> r[k] == CalledBack(callbacks[k])
  {
    seq(|callbacks|, k requires 0 <= k < |callbacks| => CalledBack(callbacks[k]))
  }

  /** The flat meaning of a program with no transaction open: the effects it has, and how it ends. */
  function Outside(p: Program): (seq<Effect>, bool) {
    match p
    case Skip => ([], true)
    case Write(row) => ([Committed([row])], true)
    case Register(callback) => ([CalledBack(callback)], true)
    case Act(action) => ([Acted(action)], !action.raises)
    case Raise => ([], false)
    case Then(first, second) =>
      var a := Outside(first);
      if !a.1 then a else (a.0 + Outside(second).0, Outside(second).1)
    case Catch(body) => (Outside(body).0, true)
    case Txn(body, commitFails) =>
      var c := Inside(body);
      if c.ok && !commitFails then (c.acts + [Committed(c.rows)] + Calls(c.callbacks), true)
      else (c.acts, false)
  }

  /** The rows that a sequence of effects made durable. */
  function RowsOf(effects: seq<Effect>): seq<Row> {
    if effects == [] then []
    else RowsOf(effects[..|effects| - 1]) + (match effects[|effects| - 1] case Committed(rows) => rows case _ => [])
  }

  // ----- the store -------------------------------------------------------------------------

  class AgentStore {
    var durable: seq<Row>
    var working: seq<Row>            // what the connection sees
    var depth: nat
    var callbacks: seq<Callback>
    var trace: seq<Effect>

    ghost predicate Valid()
      reads this
    {
      && durable <= working
      && (depth == 0 ==> working == durable && callbacks == [])
      && RowsOf(trace) == durable
    }

    constructor ()
      ensures Valid() && depth == 0 && durable == [] && trace == []
    {
      durable, working, depth, callbacks, trace := [], [], 0, [], [];
    }

    method Commit(rows: seq<Row>)
      requires working == durable + rows && RowsOf(trace) == durable
      modifies this`durable, this`trace
      ensures durable == working && trace == old(trace) + [Committed(rows)] && RowsOf(trace) == durable
    {
      RowsOfOne(trace, Committed(rows));
      durable := working;
      trace := trace + [Committed(rows)];
    }

    /** An effect that makes no row durable. */
    method Note(effect: Effect)
      requires !effect.Committed?
      modifies this`trace
      ensures trace == old(trace) + [effect] && RowsOf(trace) == RowsOf(old(trace))
    {
      RowsOfOne(trace, effect);
      trace := trace + [effect];
    }

    /** `execute`. */
    method Execute(row: Row)
      requires Valid()
      modifies this
      ensures Valid() && depth == old(depth) && callbacks == old(callbacks) && working == old(working) + [row]
      ensures depth == 0 ==> trace == old(trace) + [Committed([row])]
      ensures depth > 0 ==> trace == old(trace) && durable == old(durable)
    {
      working := working + [row];
      if depth == 0 {
        Commit([row]);
      }
    }

    /** `_run_after_commit_callbacks`: in order, whether or not they raise. */
    method RunAfterCommitCallbacks(committed: seq<Callback>)
      modifies this`trace
      ensures trace == old(trace) + Calls(committed) && RowsOf(trace) == RowsOf(old(trace))
      ensures committed == [] ==> trace == old(trace)
    {
      for k := 0 to |committed|
        invariant trace == old(trace) + Calls(committed)[..k]
        invariant RowsOf(trace) == RowsOf(old(trace))
      {
        assert Calls(committed)[..k + 1] == Calls(committed)[..k] + [CalledBack(committed[k])];
        Note(CalledBack(committed[k]));
      }
      assert Calls(committed)[..|committed|] == Calls(committed);
    }

    /** `register_after_commit`. */
    method RegisterAfterCommit(callback: Callback)
      requires Valid()
      modifies this`callbacks, this`trace
      ensures Valid()
      ensures depth == 0 ==> callbacks == old(callbacks) && trace == old(trace) + [CalledBack(callback)]
      ensures depth > 0 ==> callbacks == old(callbacks) + [callback] && trace == old(trace)
    {
      if depth > 0 {
        callbacks := callbacks + [callback];
      } else {
        RunAfterCommitCallbacks([callback]);
      }
    }

    /** Any program: at depth 0 it has its flat meaning, under an open transaction it only collects. */
    method Exec(p: Program) returns (ok: bool)
      requires Valid()
      modifies this
      ensures Valid() && depth == old(depth)
      ensures depth == 0 ==> trace == old(trace) + Outside(p).0 && ok == Outside(p).1
      ensures depth > 0 ==>
                && durable == old(durable)
                && working == old(working) + Inside(p).rows
                && callbacks == old(callbacks) + Inside(p).callbacks
                && trace == old(trace) + Inside(p).acts
                && ok == Inside(p).ok
      decreases p, 1
    {
      match p
      case Skip => ok := true;
      case Raise => ok := false;
      case Write(row) => Execute(row); ok := true;
      case Register(callback) => RegisterAfterCommit(callback); ok := true;
      case Act(action) => Note(Acted(action)); ok := !action.raises;
      case Then(first, second) =>
        ok := Sequence(first, second);
      case Catch(body) =>
        var inner := Exec(body);
        ok := true;
      case Txn(body, commitFails) => ok := Transaction(body, commitFails);
    }

    /** One program after another: an error in the first keeps the second from running. */
    method Sequence(first: Program, second: Program) returns (ok: bool)
      requires Valid()
      modifies this
      ensures Valid() && depth == old(depth)
      ensures depth == 0 ==>
                var (effects, succeeds) := Outside(Then(first, second));
                trace == old(trace) + effects && ok == succeeds
      ensures depth > 0 ==>
                var c := Inside(Then(first, second));
                && durable == old(durable) && working == old(working) + c.rows
                && callbacks == old(callbacks) + c.callbacks && trace == old(trace) + c.acts && ok == c.ok
      decreases Then(first, second), 0
    {
      ok := Exec(first);
      if !ok {
        return;
      }
      ok := Exec(second);
      var a, b := Inside(first), Inside(second);
      Assoc(old(working), a.rows, b.rows);
      Assoc(old(callbacks), a.callbacks, b.callbacks);
      Assoc(old(trace), a.acts, b.acts);
      Assoc(old(trace), Outside(first).0, Outside(second).0);
    }

    /** `transaction`: only the outermost scope commits, rolls back and runs callbacks. */
    method Transaction(body: Program, commitFails: bool) returns (ok: bool)
      requires Valid()
      modifies this
      ensures Valid() && depth == old(depth)
      ensures depth == 0 ==>
                var (effects, succeeds) := Outside(Txn(body, commitFails));
                trace == old(trace) + effects && ok == succeeds
      ensures depth > 0 ==>
                && durable == old(durable)
                && working == old(working) + Inside(body).rows
                && callbacks == old(callbacks) + Inside(body).callbacks
                && trace == old(trace) + Inside(body).acts
                && ok == Inside(body).ok
      decreases body, 4
    {
      if depth == 0 {
        ok := OutermostTransaction(body, commitFails);
      } else {
        depth := depth + 1;
        ok := Exec(body);
        depth := depth - 1;
      }
    }

    method OutermostTransaction(body: Program, commitFails: bool) returns (ok: bool)
      requires Valid() && depth == 0
      modifies this
      ensures Valid() && depth == 0
      ensures trace == old(trace) + Outside(Txn(body, commitFails)).0 && ok == Outside(Txn(body, commitFails)).1
      decreases body, 3
    {
      var c := Inside(body);
      ok := RunScope(body);
      var committed: seq<Callback>;
      ok, committed := Settle(ok && !commitFails, c.rows);
      callbacks := [];
      TxnMeans(body, commitFails);
      if !ok {
        return;
      }
      assert committed == c.callbacks && trace == old(trace) + c.acts + [Committed(c.rows)];
      RunAfterCommitCallbacks(committed);
      OneTail(old(trace), c.acts, [Committed(c.rows)], Calls(c.callbacks));
    }

    /** The body of the outermost scope, before its connection settles. */
    method RunScope(body: Program) returns (ok: bool)
      requires Valid() && depth == 0
      modifies this
      ensures depth == 0 && durable == old(durable) && working == durable + Inside(body).rows
      ensures callbacks == Inside(body).callbacks && ok == Inside(body).ok
      ensures trace == old(trace) + Inside(body).acts && RowsOf(trace) == durable
      decreases body, 2
    {
      callbacks := [];
      depth := 1;
      ok := Exec(body);
      depth := 0;
      assert [] + Inside(body).callbacks == Inside(body).callbacks;
    }

    /** Leaving the connection's own scope: commit, or roll back on any error. */
    method Settle(commits: bool, rows: seq<Row>) returns (ok: bool, committed: seq<Callback>)
      requires working == durable + rows && RowsOf(trace) == durable
      modifies this`durable, this`working, this`trace
      ensures ok == commits && working == durable && RowsOf(trace) == durable
      ensures committed == if ok then callbacks else []
      ensures ok ==> trace == old(trace) + [Committed(rows)]
      ensures !ok ==> trace == old(trace)
    {
      ok, committed := commits, [];
      if commits {
        Commit(rows);
        committed := callbacks;
      } else {
        working := durable;
      }
    }

    /** `LifecycleTransactionRunner.execute`: one transaction, then one named local effect. */
    method ExecuteLifecycle(workflow: Program, commitFails: bool, effect: Action) returns (ok: bool)
      requires Valid()
      modifies this
      ensures Valid() && depth == old(depth)
      ensures depth == 0 ==> trace == old(trace) + Outside(Lifecycle(workflow, commitFails, effect)).0
      ensures depth == 0 ==> ok == Outside(Lifecycle(workflow, commitFails, effect)).1
      ensures depth > 0 ==>
                var c := Inside(Lifecycle(workflow, commitFails, effect));
                && durable == old(durable) && working == old(working) + c.rows
                && callbacks == old(callbacks) + c.callbacks && trace == old(trace) + c.acts && ok == c.ok
    {
      ok := Exec(Lifecycle(workflow, commitFails, effect));
    }
  }

  function Lifecycle(workflow: Program, commitFails: bool, effect: Action): Program {
    Then(Txn(workflow, commitFails), Act(effect))
  }

  lemma TxnMeans(body: Program, commitFails: bool)
    ensures var c := Inside(body);
            Outside(Txn(body, commitFails))
            == if c.ok && !commitFails then (c.acts + [Committed(c.rows)] + Calls(c.callbacks), true)
               else (c.acts, false)
  {
  }

  lemma Assoc<T>(a: seq<T>, b: seq<T>, c: seq<T>)
    ensures a + b + c == a + (b + c)
  {
  }

  lemma OneTail(a: seq<Effect>, b: seq<Effect>, c: seq<Effect>, d: seq<Effect>)
    ensures a + b + c + d == a + (b + c + d)
  {
  }

  lemma RowsOfOne(effects: seq<Effect>, e: Effect)
    ensures RowsOf(effects + [e]) == RowsOf(effects) + (match e case Committed(rows) => rows case _ => [])
  {
    assert (effects + [e])[..|effects + [e]| - 1] == effects;
  }

  // ----- what the flat meaning says --------------------------------------------------------

  /** A program without its nested scopes. */
  function Flatten(p: Program): Program {
    match p
    case Then(first, second) => Then(Flatten(first), Flatten(second))
    case Catch(body) => Catch(Flatten(body))
    case Txn(body, _) => Flatten(body)
    case _ => p
  }

  lemma {:induction false} FlattenKeepsInside(p: Program)
    ensures Inside(Flatten(p)) == Inside(p)
  {
    match p
    case Then(first, second) => FlattenKeepsInside(first); FlattenKeepsInside(second);
    case Catch(body) => FlattenKeepsInside(body);
    case Txn(body, _) => FlattenKeepsInside(body);
    case _ =>
  }

  /** However scopes are nested, an outermost transaction means the same as one flat scope. */
  lemma NestedScopesAreFlat(p: Program, commitFails: bool)
    ensures Outside(Txn(p, commitFails)) == Outside(Txn(Flatten(p), commitFails))
  {
    FlattenKeepsInside(p);
  }

  lemma {:induction false} ActsMakeNoRows(p: Program)
    ensures forall k :: 0 <= k < |Inside(p).acts| ==> Inside(p).acts[k].Acted?
  {
    match p
    case Then(first, second) => ActsMakeNoRows(first); ActsMakeNoRows(second);
    case Catch(body) => ActsMakeNoRows(body);
    case Txn(body, _) => ActsMakeNoRows(body);
    case _ =>
  }

  lemma {:induction false} RowlessEffects(effects: seq<Effect>, tail: seq<Effect>)
    requires forall k :: 0 <= k < |tail| ==> !tail[k].Committed?
    ensures RowsOf(effects + tail) == RowsOf(effects)
    decreases |tail|
  {
    if tail == [] {
      assert effects + tail == effects;
    } else {
      var last := |tail| - 1;
      assert effects + tail == (effects + tail[..last]) + [tail[last]];
      RowsOfOne(effects + tail[..last], tail[last]);
      RowlessEffects(effects, tail[..last]);
    }
  }

  lemma ActsAreRowless(p: Program)
    ensures RowsOf(Inside(p).acts) == []
  {
    ActsMakeNoRows(p);
    RowlessEffects([], Inside(p).acts);
    assert [] + Inside(p).acts == Inside(p).acts;
  }

  /** Before its commit an outermost transaction shows at most local actions. */
  ghost predicate OnlyActs(effects: seq<Effect>) {
    forall k :: 0 <= k < |effects| ==> effects[k].Acted?
  }

  /**
  All or nothing: a committed outermost transaction makes exactly the rows it wrote durable, in one
  commit, and then runs each callback it registered once and in order; any other outcome makes
  nothing durable and runs no callback at all.
  */
  lemma AllOrNothing(p: Program, commitFails: bool)
    ensures var c := Inside(p);
            var (effects, ok) := Outside(Txn(p, commitFails));
            && (ok <==> c.ok && !commitFails)
            && RowsOf(effects) == (if ok then c.rows else [])
            && OnlyActs(c.acts)
            && effects == (if ok then c.acts + [Committed(c.rows)] + Calls(c.callbacks) else c.acts)
  {
    var c := Inside(p);
    ActsMakeNoRows(p);
    ActsAreRowless(p);
    if c.ok && !commitFails {
      RowsOfOne(c.acts, Committed(c.rows));
      RowlessEffects(c.acts + [Committed(c.rows)], Calls(c.callbacks));
    }
  }

  /** Nested scopes are not savepoints: a caught error keeps what its scope had written and registered. */
  lemma CaughtScopeKeepsItsWork(p: Program, commitFails: bool, nestedFails: bool)
    requires !Inside(p).ok
    ensures Inside(Catch(Txn(p, nestedFails))) == Inside(p).(ok := true)
    ensures Outside(Txn(Catch(Txn(p, nestedFails)), false)).1
    ensures RowsOf(Outside(Txn(Catch(Txn(p, nestedFails)), false)).0) == Inside(p).rows
  {
    AllOrNothing(Catch(Txn(p, nestedFails)), false);
  }

  /** The post-commit effect runs only after its facts are durable, and never takes them back. */
  lemma LifecycleEffectFollowsCommit(workflow: Program, commitFails: bool, effect: Action)
    ensures var c := Inside(workflow);
            var (before, committed) := Outside(Txn(workflow, commitFails));
            var (effects, ok) := Outside(Lifecycle(workflow, commitFails, effect));
            && committed == (c.ok && !commitFails)
            && RowsOf(effects) == RowsOf(before) == (if committed then c.rows else [])
            && effects == (if committed then before + [Acted(effect)] else c.acts)
            && ok == (committed && !effect.raises)
  {
    AllOrNothing(workflow, commitFails);
    RowsOfOne(Outside(Txn(workflow, commitFails)).0, Acted(effect));
  }

  /**
  ... which holds only outermost: under an open transaction every completed workflow's effect runs
  before the commit, which may then fail and take the facts back.
  */
  lemma NestedLifecycleActsEarly(workflow: Program, nestedFails: bool, effect: Action, outerFails: bool)
    requires Inside(workflow).ok
    ensures var c := Inside(workflow);
            var early := c.acts + [Acted(effect)];
            var (effects, ok) := Outside(Txn(Lifecycle(workflow, nestedFails, effect), outerFails));
            && OnlyActs(early)
            && ok == (!effect.raises && !outerFails)
            && effects == (if ok then early + [Committed(c.rows)] + Calls(c.callbacks) else early)
            && RowsOf(effects) == (if ok then c.rows else [])
  {
    LifecycleCollects(workflow, nestedFails, effect);
    AllOrNothing(Lifecycle(workflow, nestedFails, effect), outerFails);
  }

  lemma LifecycleCollects(workflow: Program, nestedFails: bool, effect: Action)
    requires Inside(workflow).ok
    ensures var c := Inside(workflow);
            Inside(Lifecycle(workflow, nestedFails, effect))
            == Collected(c.rows, c.callbacks, c.acts + [Acted(effect)], !effect.raises)
  {
    var c := Inside(workflow);
    assert Inside(Txn(workflow, nestedFails)) == c;
    assert Inside(Act(effect)) == Collected([], [], [Acted(effect)], !effect.raises);
    assert c.rows + [] == c.rows && c.callbacks + [] == c.callbacks;
  }

  // ----- programs as lists of writes and registrations -------------------------------------

  function WriteAll(rows: seq<Row>): Program {
    if rows == [] then Skip else Then(Write(rows[0]), WriteAll(rows[1..]))
  }

  function RegisterAll(callbacks: seq<Callback>): Program {
    if callbacks == [] then Skip else Then(Register(callbacks[0]), RegisterAll(callbacks[1..]))
  }

  lemma {:induction false} WriteAllCollects(rows: seq<Row>)
    ensures Inside(WriteAll(rows)) == Collected(rows, [], [], true)
    decreases |rows|
  {
    if rows != [] {
      WriteAllCollects(rows[1..]);
      assert [rows[0]] + rows[1..] == rows;
    }
  }

  lemma {:induction false} RegisterAllCollects(callbacks: seq<Callback>)
    ensures Inside(RegisterAll(callbacks)) == Collected([], callbacks, [], true)
    decreases |callbacks|
  {
    if callbacks != [] {
      RegisterAllCollects(callbacks[1..]);
      assert [callbacks[0]] + callbacks[1..] == callbacks;
    }
  }

  /** A transaction commits its writes in their order, at once, and then calls back in the order of registration. */
  lemma CommitsItsWrites(rows: seq<Row>, callbacks: seq<Callback>)
    ensures Outside(Txn(Then(WriteAll(rows), RegisterAll(callbacks)), false))
            == ([Committed(rows)] + Calls(callbacks), true)
  {
    WriteAllCollects(rows);
    RegisterAllCollects(callbacks);
    assert rows + [] == rows && [] + callbacks == callbacks;
    assert Inside(Then(WriteAll(rows), RegisterAll(callbacks))) == Collected(rows, callbacks, [], true);
    assert [] + [Committed(rows)] + Calls(callbacks) == [Committed(rows)] + Calls(callbacks);
  }

  /** An error stops the rest of the program and takes everything back. */
  lemma ErrorTakesEverythingBack(rows: seq<Row>, callbacks: seq<Callback>, rest: Program, commitFails: bool)
    ensures var p := Then(WriteAll(rows), Then(RegisterAll(callbacks), Then(Raise, rest)));
            Outside(Txn(p, commitFails)) == ([], false)
  {
    WriteAllCollects(rows);
    RegisterAllCollects(callbacks);
    assert Inside(Then(Raise, rest)) == Collected([], [], [], false);
    var tail := Then(RegisterAll(callbacks), Then(Raise, rest));
    assert Inside(tail).acts == [] && !Inside(tail).ok;
    assert Inside(Then(WriteAll(rows), tail)).acts == [] && !Inside(Then(WriteAll(rows), tail)).ok;
  }

  /** Without a transaction each write is durable on its own. */
  lemma {:induction false} BareWritesCommitOneByOne(rows: seq<Row>)
    ensures var (effects, ok) := Outside(WriteAll(rows));
            && ok && |effects| == |rows|
            && forall k :: 0 <= k < |rows| ==> effects[k] == Committed([rows[k]])
    decreases |rows|
  {
    if rows != [] {
      BareWritesCommitOneByOne(rows[1..]);
    }
  }
}

/**
 * A replica that restarts.  Its objects persist, but its Raft node starts again with nothing applied
 * (src/raft/node.rs:63-68), so the apply loop feeds the log from entry 1 into stores that already hold
 * its outcome (src/apiserver/raft_glue.rs:196-224).
 */
module Restarts {
  import opened Options
  import opened ObjectStore
  import opened StoreHistory

  // ---- replaying commands ----

  lemma {:induction false} RefusedStays(s: Store, cmds: seq<StoreCommand>, j: nat)
    requires j <= |cmds| && forall i :: 0 <= i < j ==> !Apply(s, cmds[i]).outcome.Ok?
    ensures StateAt(s, cmds, j) == s
  {
    if j > 0 {
      RefusedStays(s, cmds, j - 1);
      ApplyShape(s, cmds[j - 1]);
      hide Apply, Target;
    }
  }

  lemma WriteMovesCounter(s: Store, cmd: StoreCommand)
    requires Apply(s, cmd).outcome.Ok? && s.counter < U64_MAX
    ensures Apply(s, cmd).store.counter == s.counter + 1
  {
    ApplyShape(s, cmd);
    hide Apply, Target;
  }

  /** The first command that is accepted moves the counter for good. */
  lemma {:induction false} AcceptedMoves(s: Store, cmds: seq<StoreCommand>, i: nat)
    requires i < |cmds| && Apply(s, cmds[i]).outcome.Ok? && Consistent(s) && s.counter < U64_MAX
    ensures StateAt(s, cmds, |cmds|) != s
  {
    if f :| 0 <= f < i && Apply(s, cmds[f]).outcome.Ok? {
      AcceptedMoves(s, cmds, f);
    } else {
      hide Apply, Consistent;
      RefusedStays(s, cmds, i);
      WriteMovesCounter(s, cmds[i]);
      CounterMonotone(s, cmds, i + 1, |cmds|);
    }
  }

  /** Replaying commands leaves a store alone exactly if it refuses every one of them as it is. */
  lemma {:induction false} ReplayIsHarmlessIff(s: Store, cmds: seq<StoreCommand>)
    requires Consistent(s) && s.counter < U64_MAX
    ensures StateAt(s, cmds, |cmds|) == s <==> forall i :: 0 <= i < |cmds| ==> !Apply(s, cmds[i]).outcome.Ok?
  {
    hide Apply, Consistent, StateAt;
    if forall i :: 0 <= i < |cmds| ==> !Apply(s, cmds[i]).outcome.Ok? {
      RefusedStays(s, cmds, |cmds|);
    } else {
      var i :| 0 <= i < |cmds| && Apply(s, cmds[i]).outcome.Ok?;
      AcceptedMoves(s, cmds, i);
    }
  }

  // ---- which commands a store refuses ----

  /** Every object a command of the log asked to create is there. */
  predicate CreatedAreThere(s: Store, cmds: seq<StoreCommand>) {
    forall i :: 0 <= i < |cmds| && cmds[i].op.CreateOp? && Target(cmds[i]).Some? ==> Target(cmds[i]).value in s.objects
  }

  /** No conditional command echoes the version its key has now. */
  predicate NoneEchoesNow(s: Store, cmds: seq<StoreCommand>) {
    forall i :: 0 <= i < |cmds| && !cmds[i].op.CreateOp? && Target(cmds[i]).Some? && Provided(cmds[i]).Some?
      ==> !HasVersion(s, Target(cmds[i]).value, Provided(cmds[i]).value)
  }

  /** Which commands pass on a store as it is. */
  lemma Passes(s: Store, cmd: StoreCommand)
    ensures Apply(s, cmd).outcome.Ok? <==>
      && Target(cmd).Some?
      && if cmd.op.CreateOp? then Target(cmd).value !in s.objects
         else Provided(cmd).Some? && HasVersion(s, Target(cmd).value, Provided(cmd).value)
  {
    ApplyShape(s, cmd);
    if Target(cmd).Some? && !cmd.op.CreateOp? {
      GatePasses(s, cmd);
      hide Apply, Target;
    }
  }

  /** So a log is harmless exactly if everything it created is there and none of it echoes a current version. */
  lemma {:induction false} RestartIsHarmlessIff(s: Store, cmds: seq<StoreCommand>)
    requires Consistent(s) && s.counter < U64_MAX
    ensures StateAt(s, cmds, |cmds|) == s <==> CreatedAreThere(s, cmds) && NoneEchoesNow(s, cmds)
  {
    hide Apply, Consistent, StateAt, Target, Provided, HasVersion;
    ReplayIsHarmlessIff(s, cmds);
    forall i | 0 <= i < |cmds|
      ensures Apply(s, cmds[i]).outcome.Ok? <==>
        && Target(cmds[i]).Some?
        && if cmds[i].op.CreateOp? then Target(cmds[i]).value !in s.objects
           else Provided(cmds[i]).Some? && HasVersion(s, Target(cmds[i]).value, Provided(cmds[i]).value)
    {
      Passes(s, cmds[i]);
    }
  }

  /** Command `m` echoes a version its key had when a client read it, at some earlier step. */
  ghost predicate EchoesRead(s: Store, cmds: seq<StoreCommand>, m: nat)
    requires m < |cmds|
  {
    Target(cmds[m]).Some? && !cmds[m].op.CreateOp? && Provided(cmds[m]).Some? ==>
      exists i :: 0 <= i <= m && HasVersion(StateAt(s, cmds, i), Target(cmds[m]).value, Provided(cmds[m]).value)
  }

  /** Replayed at the end, such a command is refused: it has used up the version it echoes. */
  lemma {:induction false} EchoIsUsedUp(s: Store, cmds: seq<StoreCommand>, m: nat)
    requires m < |cmds| && Consistent(s) && StateAt(s, cmds, |cmds|).counter < U64_MAX
    requires Target(cmds[m]).Some? && !cmds[m].op.CreateOp? && EchoesRead(s, cmds, m)
    ensures !Apply(StateAt(s, cmds, |cmds|), cmds[m]).outcome.Ok?
  {
    var cmd, end := cmds[m], StateAt(s, cmds, |cmds|);
    GatePasses(end, cmd);
    if Provided(cmd).Some? {
      var k, r := Target(cmd).value, Provided(cmd).value;
      var i :| 0 <= i <= m && HasVersion(StateAt(s, cmds, i), k, r);
      VersionBound(s, cmds, i, k, r);
      CounterMonotone(s, cmds, i, |cmds|);
      hide Apply, Target, StateAt, Consistent;
      NoLostUpdate(s, cmds, i, |cmds|, cmd, r);
      NoLostUpdate(s, cmds, i, m, cmd, r);
      if Untouched(s, cmds, i, |cmds|, k) {
        ApplyShape(StateAt(s, cmds, m), cmd);
      }
    }
  }

  /**
   * With clients that echo only versions they read, a whole log is harmless to the store it led to if
   * and only if every object it ever created is still there.
   */
  lemma {:induction false} HonestRestartIff(s: Store, cmds: seq<StoreCommand>)
    requires Consistent(s) && StateAt(s, cmds, |cmds|).counter < U64_MAX
    requires forall m :: 0 <= m < |cmds| ==> EchoesRead(s, cmds, m)
    ensures var end := StateAt(s, cmds, |cmds|);
      NoneEchoesNow(end, cmds) && (StateAt(end, cmds, |cmds|) == end <==> CreatedAreThere(end, cmds))
  {
    hide Apply, Consistent, StateAt, EchoesRead, Target, Provided, HasVersion, CreatedAreThere;
    var end := StateAt(s, cmds, |cmds|);
    RunConsistent(s, cmds, |cmds|);
    RestartIsHarmlessIff(end, cmds);
    forall m | 0 <= m < |cmds| && !cmds[m].op.CreateOp? && Target(cmds[m]).Some? && Provided(cmds[m]).Some?
      ensures !HasVersion(end, Target(cmds[m]).value, Provided(cmds[m]).value)
    {
      EchoIsUsedUp(s, cmds, m);
      Passes(end, cmds[m]);
    }
  }

  // ---- an input ----

  /** An object created and deleted comes back: the replay creates it again, and the delete is refused. */
  lemma {:induction false} RestartRevivesDeleted(kind: Kind, o: Object)
    ensures var cmds := [CreateCommand(kind, o), DeleteCommand(kind, o.meta.name, 1)];
      var end := StateAt(EMPTY, cmds, 2);
      && end == Store(map[], 2)
      && StateAt(end, cmds, 2) == Store(map[Key(kind, o.meta.name) := Stamped(o, 3)], 3)
  {
    TreeKeysApart(Key(kind, ""), Key(kind, ""));
    hide KindOf, Prefix;
    var create, delete, key := CreateCommand(kind, o), DeleteCommand(kind, o.meta.name, 1), Key(kind, o.meta.name);
    var cmds := [create, delete];
    assert map[key := Stamped(o, 1)] - {key} == map[];
    assert Apply(EMPTY, create).store == Store(map[key := Stamped(o, 1)], 1);
    assert Apply(Store(map[key := Stamped(o, 1)], 1), delete).store == Store(map[], 2);
    assert Apply(Store(map[], 2), create).store == Store(map[key := Stamped(o, 3)], 3);
    assert Apply(Store(map[key := Stamped(o, 3)], 3), delete).store == Store(map[key := Stamped(o, 3)], 3);
    hide Apply;
    TwoStates(EMPTY, cmds);
    TwoStates(Store(map[], 2), cmds);
  }

  lemma {:induction false} TwoStates(s: Store, cmds: seq<StoreCommand>)
    requires |cmds| == 2
    ensures StateAt(s, cmds, 2) == Apply(Apply(s, cmds[0]).store, cmds[1]).store
  {
    assert StateAt(s, cmds, 1) == Apply(StateAt(s, cmds, 0), cmds[0]).store;
  }
}

/**
 * Many controllers adopting pods at the same time.  Each reads a pod, sees no controller, and
 * writes it back with itself as controller (src/controller/replicaset.rs:144-155).  The version
 * check of the store is all that keeps one adopter from overwriting another (`ControllerSticks`);
 * that a pod never has two controllers at once takes only that each write-back is whole
 * (`NeverTwoControllers`).
 */
module Adoption {
  import opened Options
  import opened ObjectStore
  import opened StoreHistory
  import opened ReplicaSets

  predicate OneController(o: Object) {
    forall i, j :: 0 <= i < j < |o.meta.owners| ==> !(o.meta.owners[i].controller && o.meta.owners[j].controller)
  }

  predicate PodsHaveOne(s: Store) {
    forall k :: k in s.objects && k.kind == Pods ==> OneController(s.objects[k])
  }

  /** A write-back of a pod as it was read: an adoption by some ReplicaSet, or a change of something else. */
  ghost predicate WriteBack(was: Object, o: Object) {
    && o.meta.version == was.meta.version
    && (o.meta.owners == was.meta.owners || AdoptsFrom(was, o))
  }

  ghost predicate AdoptsFrom(was: Object, o: Object) {
    exists rs: Object :: rs.spec.ReplicaSetSpec? && CanAdopt(was, rs) && o == WithOwner(was, rs)
  }

  /** What clients may do to pods: replacements start from what step `read` of the run showed. */
  ghost predicate Polite(s: Store, cmds: seq<StoreCommand>, m: nat, read: nat)
    requires m < |cmds|
  {
    var target := Target(cmds[m]);
    target.Some? && target.value.kind == Pods ==>
      match cmds[m].op
      case CreateOp(obj) => OneController(obj.value)
      case ReplaceSpecOp(_, obj) =>
        && read <= m && target.value in StateAt(s, cmds, read).objects
        && WriteBack(StateAt(s, cmds, read).objects[target.value], obj.value)
      case ReplaceStatusOp(_, _, _) => true
      case DeleteOp(_, _) => true
  }

  // ---- no adoption is overwritten ----

  /** Where the owners of a written object come from. */
  lemma OwnersAfter(s: Store, cmd: StoreCommand)
    requires Target(cmd).Some? && Apply(s, cmd).outcome.Ok?
    ensures cmd.op.CreateOp? ==> Target(cmd).value !in s.objects && Apply(s, cmd).outcome.obj.meta.owners == cmd.op.obj.value.meta.owners
    ensures cmd.op.ReplaceSpecOp? ==> Apply(s, cmd).outcome.obj.meta.owners == cmd.op.obj.value.meta.owners
    ensures cmd.op.ReplaceStatusOp? ==>
      Target(cmd).value in s.objects && Apply(s, cmd).outcome.obj.meta.owners == s.objects[Target(cmd).value].meta.owners
    ensures cmd.op.DeleteOp? <==> Target(cmd).value !in Apply(s, cmd).store.objects
  {
  }

  /** A replacement that passes was made from the object that is still stored. */
  lemma {:induction false} ReadIsCurrent(s: Store, cmds: seq<StoreCommand>, m: nat, read: nat, k: Key, r: nat)
    requires m <= |cmds| && read <= m && Consistent(s) && r < U64_MAX
    requires HasVersion(StateAt(s, cmds, read), k, r) && HasVersion(StateAt(s, cmds, m), k, r)
    ensures StateAt(s, cmds, m).objects[k] == StateAt(s, cmds, read).objects[k]
  {
    hide StateAt, Consistent, Untouched;
    VersionIsWitness(s, cmds, read, m, k, r);
  }

  /** The version a replacement echoes is not the last one the counter can take. */
  predicate Echoes(cmd: StoreCommand) {
    cmd.op.ReplaceSpecOp? && cmd.op.obj.Some? && cmd.op.obj.value.meta.version.Some?
    ==> cmd.op.obj.value.meta.version.value < U64_MAX
  }

  lemma SpecGate(s: Store, cmd: StoreCommand)
    requires Target(cmd).Some? && cmd.op.ReplaceSpecOp? && Apply(s, cmd).outcome.Ok?
    ensures cmd.op.obj.value.meta.version.Some?
    ensures HasVersion(s, Target(cmd).value, cmd.op.obj.value.meta.version.value)
  {
  }

  lemma NoAdoption(was: Object, o: Object)
    requires WriteBack(was, o) && HasController(was)
    ensures o.meta.owners == was.meta.owners && o.meta.version == was.meta.version
  {
  }

  lemma WriteBackVersion(was: Object, o: Object)
    requires WriteBack(was, o)
    ensures o.meta.version == was.meta.version
  {
  }

  /** A pod with a controller keeps its owners in every step that does not delete it. */
  lemma {:induction false} StepKeepsOwners(s: Store, cmds: seq<StoreCommand>, m: nat, read: nat, k: Key)
    requires m < |cmds| && Consistent(s) && Polite(s, cmds, m, read) && Echoes(cmds[m]) && k.kind == Pods
    requires k in StateAt(s, cmds, m).objects && HasController(StateAt(s, cmds, m).objects[k])
    requires !(Writes(StateAt(s, cmds, m), cmds[m], k) && cmds[m].op.DeleteOp?)
    ensures var t := Apply(StateAt(s, cmds, m), cmds[m]).store;
      k in t.objects && t.objects[k].meta.owners == StateAt(s, cmds, m).objects[k].meta.owners
  {
    var t, cmd := StateAt(s, cmds, m), cmds[m];
    ApplyShape(t, cmd);
    hide Apply, WriteBack, HasController, StateAt, KindOf, Consistent;
    if Writes(t, cmd, k) {
      OwnersAfter(t, cmd);
      if cmd.op.ReplaceSpecOp? {
        var o, was := cmd.op.obj.value, StateAt(s, cmds, read).objects[k];
        SpecGate(t, cmd);
        WriteBackVersion(was, o);
        ReadIsCurrent(s, cmds, m, read, k, o.meta.version.value);
        NoAdoption(was, o);
      }
    }
  }

  /**
   * An adoption is never overwritten: once a pod has a controller, no interleaving of adopters and
   * other clients changes its owners until the pod is deleted.
   */
  lemma {:induction false} ControllerSticks(s: Store, cmds: seq<StoreCommand>, seen: seq<nat>, i: nat, j: nat, k: Key)
    requires i <= j <= |cmds| == |seen| && Consistent(s) && k.kind == Pods
    requires forall m :: 0 <= m < |cmds| ==> Polite(s, cmds, m, seen[m]) && Echoes(cmds[m])
    requires k in StateAt(s, cmds, i).objects && HasController(StateAt(s, cmds, i).objects[k])
    requires forall m :: i <= m < j ==> !(Writes(StateAt(s, cmds, m), cmds[m], k) && cmds[m].op.DeleteOp?)
    ensures k in StateAt(s, cmds, j).objects
    ensures StateAt(s, cmds, j).objects[k].meta.owners == StateAt(s, cmds, i).objects[k].meta.owners
    decreases j
  {
    hide Polite, Echoes, Apply, Writes, Consistent;
    if i < j {
      ControllerSticks(s, cmds, seen, i, j - 1, k);
      StepKeepsOwners(s, cmds, j - 1, seen[j - 1], k);
    }
  }

  /**
   * Why the echoed version must not be the last one: there the second of any two adopters that saw
   * a pod without a controller takes it over from the first, and both were told they succeeded.
   */
  lemma SaturationStealsPods(s: Store, pod: Object, first: Object, second: Object)
    requires s.counter == U64_MAX && pod.meta.version == Some(U64_MAX)
    requires Key(Pods, pod.meta.name) in s.objects && s.objects[Key(Pods, pod.meta.name)] == pod
    ensures var mid := Apply(s, ReplaceCommand(Pods, WithOwner(pod, first))); var end := Apply(mid.store, ReplaceCommand(Pods, WithOwner(pod, second)));
      && mid.outcome.Ok? && mid.outcome.obj.meta.owners == pod.meta.owners + [OwnerOf(first)]
      && end.outcome.Ok? && end.outcome.obj.meta.owners == pod.meta.owners + [OwnerOf(second)]
  {
    TreeKeysApart(Key(Pods, ""), Key(Pods, ""));
    hide KindOf, Prefix, OwnerOf;
  }

  // ---- never two controllers ----

  lemma NewOwners(o: Object, was: Object)
    requires WriteBack(was, o) && OneController(was)
    ensures OneController(o)
  {
    if o.meta.owners != was.meta.owners {
      var rs: Object :| rs.spec.ReplicaSetSpec? && CanAdopt(was, rs) && o == WithOwner(was, rs);
      assert forall i :: 0 <= i < |was.meta.owners| ==> was.meta.owners[i] in was.meta.owners;
    }
  }

  lemma SameOwners(a: Object, b: Object)
    requires a.meta.owners == b.meta.owners && OneController(a)
    ensures OneController(b)
  {
  }

  lemma {:induction false} StepKeepsOne(s: Store, cmds: seq<StoreCommand>, m: nat, read: nat)
    requires m < |cmds| && Polite(s, cmds, m, read)
    requires PodsHaveOne(StateAt(s, cmds, m)) && (read <= m ==> PodsHaveOne(StateAt(s, cmds, read)))
    ensures PodsHaveOne(Apply(StateAt(s, cmds, m), cmds[m]).store)
  {
    var t, cmd := StateAt(s, cmds, m), cmds[m];
    ApplyShape(t, cmd);
    hide Apply, OneController, WriteBack, StateAt, KindOf;
    if Target(cmd).Some? && Target(cmd).value.kind == Pods && Apply(t, cmd).outcome.Ok? {
      var k, stored := Target(cmd).value, Apply(t, cmd).outcome.obj;
      OwnersAfter(t, cmd);
      if cmd.op.CreateOp? {
        SameOwners(cmd.op.obj.value, stored);
      } else if cmd.op.ReplaceSpecOp? {
        NewOwners(cmd.op.obj.value, StateAt(s, cmds, read).objects[k]);
        SameOwners(cmd.op.obj.value, stored);
      } else if cmd.op.ReplaceStatusOp? {
        SameOwners(t.objects[k], stored);
      }
    }
  }

  /**
   * However reads and writes of any number of adopters, kubelets and other clients interleave, no
   * pod ever has two controllers.
   */
  lemma {:induction false} NeverTwoControllers(s: Store, cmds: seq<StoreCommand>, seen: seq<nat>, j: nat)
    requires j <= |cmds| == |seen| && PodsHaveOne(s)
    requires forall m :: 0 <= m < |cmds| ==> Polite(s, cmds, m, seen[m])
    ensures forall i :: 0 <= i <= j ==> PodsHaveOne(StateAt(s, cmds, i))
  {
    hide Polite, PodsHaveOne, Apply;
    if j > 0 {
      NeverTwoControllers(s, cmds, seen, j - 1);
      StepKeepsOne(s, cmds, j - 1, seen[j - 1]);
    }
  }
}

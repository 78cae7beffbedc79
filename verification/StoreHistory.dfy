/**
 * Whole runs of the object store: any interleaving of commands, from any clients, over all kinds.
 * Versions are unique, and a conditional write passes exactly when its key was not written since
 * the read that returned the version.
 */
module StoreHistory {
  import opened Options
  import opened ObjectStore

  /** The store after the first `i` commands. */
  function StateAt(s: Store, cmds: seq<StoreCommand>, i: nat): Store
    requires i <= |cmds|
  {
    if i == 0 then s else Apply(StateAt(s, cmds, i - 1), cmds[i - 1]).store
  }

  /** The key a command is about, if its kind is known and its payload decodes. */
  function Target(cmd: StoreCommand): Option<Key> {
    var kind := KindOf(cmd.kind);
    if kind.None? then None
    else
      match cmd.op
      case CreateOp(obj) => if obj.None? then None else Some(Key(kind.value, obj.value.meta.name))
      case ReplaceSpecOp(name, obj) => if obj.None? then None else Some(Key(kind.value, name))
      case ReplaceStatusOp(name, _, _) => Some(Key(kind.value, name))
      case DeleteOp(name, _) => Some(Key(kind.value, name))
  }

  /** The version a conditional command echoes; a create echoes none. */
  function Provided(cmd: StoreCommand): Option<nat> {
    match cmd.op
    case CreateOp(_) => None
    case ReplaceSpecOp(_, obj) => if obj.None? then None else obj.value.meta.version
    case ReplaceStatusOp(_, version, _) => Some(version)
    case DeleteOp(_, version) => Some(version)
  }

  predicate Writes(s: Store, cmd: StoreCommand, k: Key) {
    Apply(s, cmd).event.Some? && Target(cmd) == Some(k)
  }

  /**
   * Every stored object has a version between one and the counter, and a version of its own: only
   * the last value of the counter, which it never leaves, can be shared.
   */
  predicate Consistent(s: Store) {
    && s.counter <= U64_MAX
    && (forall k :: k in s.objects ==> s.objects[k].meta.version.Some?
                                       && 1 <= s.objects[k].meta.version.value <= s.counter)
    && (forall k, l :: k in s.objects && l in s.objects && k != l
                       && s.objects[k].meta.version == s.objects[l].meta.version
                       ==> s.objects[k].meta.version == Some(U64_MAX))
  }

  /** The two stores hold the same objects, except perhaps at `k`. */
  ghost predicate OnlyAt(s: Store, t: Store, k: Key) {
    forall l :: l != k ==>
      (l in t.objects <==> l in s.objects) && (l in s.objects ==> t.objects[l] == s.objects[l])
  }

  lemma InView(s: Store, kind: Kind, n: string)
    ensures n in View(s, kind) <==> Key(kind, n) in s.objects
    ensures n in View(s, kind) ==> View(s, kind)[n] == s.objects[Key(kind, n)]
  {
  }

  lemma ViewStays(s: Store, t: Store, k: Key, kind: Kind)
    requires OnlyAt(s, t, k) && kind != k.kind
    ensures View(t, kind) == View(s, kind)
  {
    hide View;
    forall n: string
      ensures n in View(t, kind) <==> n in View(s, kind)
      ensures n in View(t, kind) && n in View(s, kind) ==> View(t, kind)[n] == View(s, kind)[n]
    {
      InView(s, kind, n);
      InView(t, kind, n);
    }
  }

  lemma ViewGains(s: Store, t: Store, k: Key)
    requires OnlyAt(s, t, k) && k in t.objects
    ensures View(t, k.kind) == View(s, k.kind)[k.name := t.objects[k]]
  {
    hide View;
    var v, w := View(t, k.kind), View(s, k.kind)[k.name := t.objects[k]];
    forall n: string
      ensures n in v <==> n in w
      ensures n in v && n in w ==> v[n] == w[n]
    {
      InView(s, k.kind, n);
      InView(t, k.kind, n);
    }
  }

  lemma ViewLoses(s: Store, t: Store, k: Key)
    requires OnlyAt(s, t, k) && k !in t.objects
    ensures View(t, k.kind) == View(s, k.kind) - {k.name}
  {
    hide View;
    var v, w := View(t, k.kind), View(s, k.kind) - {k.name};
    forall n: string
      ensures n in v <==> n in w
      ensures n in v && n in w ==> v[n] == w[n]
    {
      InView(s, k.kind, n);
      InView(t, k.kind, n);
    }
  }

  /** What a write at `k` does to the view of each kind. */
  lemma ViewOfWrite(s: Store, t: Store, k: Key, kind: Kind)
    requires OnlyAt(s, t, k)
    ensures kind != k.kind ==> View(t, kind) == View(s, kind)
    ensures kind == k.kind && k in t.objects ==> View(t, kind) == View(s, kind)[k.name := t.objects[k]]
    ensures kind == k.kind && k !in t.objects ==> View(t, kind) == View(s, kind) - {k.name}
  {
    hide View, OnlyAt;
    if kind != k.kind {
      ViewStays(s, t, k, kind);
    } else if k in t.objects {
      ViewGains(s, t, k);
    } else {
      ViewLoses(s, t, k);
    }
  }

  /** `w` did nothing at all, or wrote one key with a version that is the bumped counter. */
  ghost predicate WriteShape(s: Store, k: Key, w: Written) {
    && (w.event.Some? <==> w.outcome.Ok?)
    && (w.event.None? ==> w.store == s)
    && (w.event.Some? ==>
          && w.store.counter == Bump(s.counter)
          && w.outcome.obj == w.event.value.obj
          && w.event.value.kind == k.kind
          && w.event.value.obj.meta.version == Some(w.store.counter)
          && OnlyAt(s, w.store, k)
          && (k in w.store.objects <==> !w.event.value.change.Deleted?)
          && (k in w.store.objects ==> w.store.objects[k] == w.event.value.obj))
  }

  lemma CreateShape(s: Store, kind: Kind, o: Object)
    ensures WriteShape(s, Key(kind, o.meta.name), Create(s, kind, o))
  {
  }

  lemma ReplaceSpecShape(s: Store, kind: Kind, name: string, o: Object)
    ensures WriteShape(s, Key(kind, name), ReplaceSpec(s, kind, name, o))
  {
  }

  lemma ReplaceStatusShape(s: Store, kind: Kind, name: string, expected: nat, status: Option<Payload>)
    ensures WriteShape(s, Key(kind, name), ReplaceStatus(s, kind, name, expected, status))
  {
  }

  lemma DeleteShape(s: Store, kind: Kind, name: string, expected: nat)
    ensures WriteShape(s, Key(kind, name), Delete(s, kind, name, expected))
  {
  }

  /**
   * What any command can do: nothing at all, or one key written or removed with a bump of the
   * counter that becomes the version of the object stored and of the event.
   */
  lemma ApplyShape(s: Store, cmd: StoreCommand)
    ensures var w := Apply(s, cmd);
      if Target(cmd).Some? then WriteShape(s, Target(cmd).value, w)
      else w.event.None? && !w.outcome.Ok? && w.store == s
  {
    hide WriteShape;
    if Target(cmd).Some? {
      var kind := KindOf(cmd.kind).value;
      match cmd.op
      case CreateOp(obj) => CreateShape(s, kind, obj.value);
      case ReplaceSpecOp(name, obj) => ReplaceSpecShape(s, kind, name, obj.value);
      case ReplaceStatusOp(name, version, status) => ReplaceStatusShape(s, kind, name, version, status);
      case DeleteOp(name, version) => DeleteShape(s, kind, name, version);
    }
  }

  // ---- commands as clients send them ----

  function CreateCommand(kind: Kind, o: Object): StoreCommand {
    StoreCommand(0, Prefix(kind), CreateOp(Some(o)))
  }

  function DeleteCommand(kind: Kind, name: string, version: nat): StoreCommand {
    StoreCommand(0, Prefix(kind), DeleteOp(name, version))
  }

  function ReplaceCommand(kind: Kind, o: Object): StoreCommand {
    StoreCommand(0, Prefix(kind), ReplaceSpecOp(o.meta.name, Some(o)))
  }

  // ---- versions over a run ----

  /** A conditional command passes exactly on an echo of the stored version. */
  lemma GatePasses(s: Store, cmd: StoreCommand)
    requires Target(cmd).Some? && !cmd.op.CreateOp?
    ensures Apply(s, cmd).outcome.Ok?
            <==> Target(cmd).value in s.objects && VersionMatches(s.objects[Target(cmd).value], Provided(cmd))
  {
  }

  /** The counter goes up by one until it has reached 2^64 - 1, where it stays. */
  lemma CounterSaturates(counter: nat)
    ensures counter < 18446744073709551615 ==> Bump(counter) == counter + 1
    ensures counter >= 18446744073709551615 ==> Bump(counter) == 18446744073709551615
  {
  }

  /** Which texts name a kind. */
  lemma KindTexts(text: string)
    ensures KindOf("pods/") == Some(Pods) && KindOf("replicasets/") == Some(ReplicaSets) && KindOf("nodes/") == Some(Nodes)
    ensures KindOf("services/") == Some(Services) && KindOf("endpoints/") == Some(Endpoints)
    ensures text !in {"pods/", "replicasets/", "nodes/", "services/", "endpoints/"} ==> KindOf(text) == None
  {
    assert "pods/"[0] == 'p' && "replicasets/"[0] == 'r' && "nodes/"[0] == 'n' && "services/"[0] == 's' && "endpoints/"[0] == 'e';
  }

  /**
   * The verdict on any command.  One that names no kind or does not decode fails inside; a create of a
   * name that is there is refused, any other is announced as added; every other command is refused
   * with not found if the name is missing, with the stored and the echoed version if they differ,
   * and is otherwise announced as deleted or modified.
   */
  lemma CommandVerdict(s: Store, cmd: StoreCommand)
    ensures var w := Apply(s, cmd); var k := Target(cmd);
      if k.None? then w == Written(s, Internal, None)
      else
        var there := k.value in s.objects;
        if cmd.op.CreateOp? then
          && (there ==> w == Written(s, AlreadyExists(k.value.name), None))
          && (!there ==> w.outcome.Ok? && w.event == Some(Event(Added, k.value.kind, w.outcome.obj)))
        else if !there then w == Written(s, NotFound(k.value.name), None)
        else
          var now := s.objects[k.value].meta.version;
          && (Provided(cmd).None? || Provided(cmd) != now ==> w == Written(s, Conflict(now, Provided(cmd)), None))
          && (Provided(cmd).Some? && Provided(cmd) == now ==>
                w.outcome.Ok? && w.event == Some(Event(if cmd.op.DeleteOp? then Deleted else Modified, k.value.kind, w.outcome.obj)))
  {
  }

  lemma StepConsistent(s: Store, cmd: StoreCommand)
    requires Consistent(s)
    ensures Consistent(Apply(s, cmd).store) && s.counter <= Apply(s, cmd).store.counter
  {
    hide Apply, Target;
    ApplyShape(s, cmd);
  }

  /** Over any run versions stay between one and the counter and, but for the last one, distinct. */
  lemma {:induction false} RunConsistent(s: Store, cmds: seq<StoreCommand>, j: nat)
    requires j <= |cmds| && Consistent(s)
    ensures Consistent(StateAt(s, cmds, j))
  {
    hide Consistent, Apply;
    if j > 0 {
      RunConsistent(s, cmds, j - 1);
      StepConsistent(StateAt(s, cmds, j - 1), cmds[j - 1]);
    }
  }

  /** So below saturation they are pairwise distinct. */
  lemma {:induction false} VersionsDistinct(s: Store, cmds: seq<StoreCommand>, j: nat, k: Key, l: Key)
    requires j <= |cmds| && Consistent(s) && StateAt(s, cmds, j).counter < U64_MAX && k != l
    requires k in StateAt(s, cmds, j).objects && l in StateAt(s, cmds, j).objects
    ensures StateAt(s, cmds, j).objects[k].meta.version != StateAt(s, cmds, j).objects[l].meta.version
  {
    RunConsistent(s, cmds, j);
  }

  lemma {:induction false} CounterMonotone(s: Store, cmds: seq<StoreCommand>, i: nat, j: nat)
    requires i <= j <= |cmds| && Consistent(s)
    ensures StateAt(s, cmds, i).counter <= StateAt(s, cmds, j).counter
    decreases j
  {
    hide Consistent, Apply;
    if i < j {
      CounterMonotone(s, cmds, i, j - 1);
      RunConsistent(s, cmds, j - 1);
      StepConsistent(StateAt(s, cmds, j - 1), cmds[j - 1]);
    }
  }

  /** The event of command `i` of a run. */
  function EventAt(s: Store, cmds: seq<StoreCommand>, i: nat): Option<Event>
    requires i < |cmds|
  {
    Apply(StateAt(s, cmds, i), cmds[i]).event
  }

  lemma EventVersion(s: Store, cmds: seq<StoreCommand>, i: nat)
    requires i < |cmds| && EventAt(s, cmds, i).Some?
    ensures EventAt(s, cmds, i).value.obj.meta.version == Some(Bump(StateAt(s, cmds, i).counter))
    ensures StateAt(s, cmds, i + 1).counter == Bump(StateAt(s, cmds, i).counter)
  {
    hide Apply, Target;
    ApplyShape(StateAt(s, cmds, i), cmds[i]);
  }

  /** Writes of a run, to whatever keys and kinds, carry rising versions, until the last value is reached. */
  lemma WritesHaveOwnVersions(s: Store, cmds: seq<StoreCommand>, i: nat, j: nat)
    requires i < j < |cmds| && Consistent(s)
    requires EventAt(s, cmds, i).Some? && EventAt(s, cmds, j).Some?
    ensures var a, b := EventAt(s, cmds, i).value.obj.meta.version, EventAt(s, cmds, j).value.obj.meta.version;
            a.Some? && b.Some? && (a.value < b.value || a.value == b.value == U64_MAX)
  {
    CounterBound(s, cmds, j);
    hide EventAt, StateAt, Consistent;
    EventVersion(s, cmds, i);
    EventVersion(s, cmds, j);
    CounterMonotone(s, cmds, i + 1, j);
  }

  lemma {:induction false} CounterBound(s: Store, cmds: seq<StoreCommand>, j: nat)
    requires j <= |cmds| && Consistent(s)
    ensures StateAt(s, cmds, j).counter <= U64_MAX
  {
    RunConsistent(s, cmds, j);
  }

  /** No command among those from `i` up to `j` wrote key `k`. */
  predicate Untouched(s: Store, cmds: seq<StoreCommand>, i: nat, j: nat, k: Key)
    requires i <= j <= |cmds|
  {
    forall m :: i <= m < j ==> !Writes(StateAt(s, cmds, m), cmds[m], k)
  }

  lemma UntouchedNone(s: Store, cmds: seq<StoreCommand>, i: nat, k: Key)
    requires i <= |cmds|
    ensures Untouched(s, cmds, i, i, k)
  {
  }

  lemma UntouchedStep(s: Store, cmds: seq<StoreCommand>, i: nat, j: nat, k: Key)
    requires i < j <= |cmds|
    ensures Untouched(s, cmds, i, j, k)
            <==> Untouched(s, cmds, i, j - 1, k) && !Writes(StateAt(s, cmds, j - 1), cmds[j - 1], k)
  {
    hide Writes, StateAt;
  }

  /** What one command does to the version of one key. */
  lemma VersionStep(s: Store, cmd: StoreCommand, k: Key)
    ensures var t := Apply(s, cmd).store;
      && (!Writes(s, cmd, k) ==> (k in t.objects <==> k in s.objects) && (k in s.objects ==> t.objects[k] == s.objects[k]))
      && (Writes(s, cmd, k) && k in t.objects ==> t.objects[k].meta.version == Some(Bump(s.counter)))
  {
    hide Apply, Target;
    ApplyShape(s, cmd);
  }

  lemma {:induction false} VersionBound(s: Store, cmds: seq<StoreCommand>, i: nat, k: Key, r: nat)
    requires i <= |cmds| && Consistent(s)
    requires k in StateAt(s, cmds, i).objects && StateAt(s, cmds, i).objects[k].meta.version == Some(r)
    ensures r <= StateAt(s, cmds, i).counter <= U64_MAX
  {
    RunConsistent(s, cmds, i);
  }

  /** Key `k` is stored with version `r`. */
  predicate HasVersion(s: Store, k: Key, r: nat) {
    k in s.objects && s.objects[k].meta.version == Some(r)
  }

  lemma NextState(s: Store, cmds: seq<StoreCommand>, j: nat)
    requires 0 < j <= |cmds|
    ensures StateAt(s, cmds, j) == Apply(StateAt(s, cmds, j - 1), cmds[j - 1]).store
  {
  }

  /** A write leaves an older version behind for good, unless the counter is used up. */
  lemma WitnessStep(u: Store, cmd: StoreCommand, k: Key, r: nat)
    requires r <= u.counter <= U64_MAX
    ensures var t := Apply(u, cmd).store;
      && (!Writes(u, cmd, k) ==> (k in t.objects <==> k in u.objects) && (k in u.objects ==> t.objects[k] == u.objects[k]))
      && (Writes(u, cmd, k) ==> (HasVersion(t, k, r) <==> r == U64_MAX && k in t.objects))
  {
    hide Apply, Writes;
    VersionStep(u, cmd, k);
  }

  /**
   * The heart of optimistic concurrency.  A key read at step `i` with version `r` still has that
   * version at step `j` exactly when nothing wrote it in between; deleting it and creating it again
   * never brings the version back.  The last version of the counter is the one exception: it is
   * never left again, so it only tells whether the key is there.
   */
  lemma {:induction false} VersionIsWitness(s: Store, cmds: seq<StoreCommand>, i: nat, j: nat, k: Key, r: nat)
    requires i <= j <= |cmds| && Consistent(s) && HasVersion(StateAt(s, cmds, i), k, r)
    ensures HasVersion(StateAt(s, cmds, j), k, r)
            <==> if r < U64_MAX then Untouched(s, cmds, i, j, k) else k in StateAt(s, cmds, j).objects
    ensures Untouched(s, cmds, i, j, k)
            ==> k in StateAt(s, cmds, j).objects && StateAt(s, cmds, j).objects[k] == StateAt(s, cmds, i).objects[k]
    decreases j
  {
    hide Apply, Target, Consistent, Untouched, Writes, StateAt;
    VersionBound(s, cmds, i, k, r);
    if i == j {
      UntouchedNone(s, cmds, i, k);
    } else {
      VersionIsWitness(s, cmds, i, j - 1, k, r);
      CounterMonotone(s, cmds, i, j - 1);
      CounterBound(s, cmds, j - 1);
      NextState(s, cmds, j);
      WitnessStep(StateAt(s, cmds, j - 1), cmds[j - 1], k, r);
      UntouchedStep(s, cmds, i, j, k);
    }
  }

  /**
   * No lost update, over every interleaving of commands: a conditional command that echoes the
   * version `r` read at step `i` passes at step `j` if and only if its key was not written in
   * between, for every `r` below the last value of the counter; an echo of that last value passes
   * if and only if the key is there.
   */
  lemma {:induction false} NoLostUpdate(s: Store, cmds: seq<StoreCommand>, i: nat, j: nat, cmd: StoreCommand, r: nat)
    requires i <= j <= |cmds| && Consistent(s)
    requires Target(cmd).Some? && !cmd.op.CreateOp? && Provided(cmd) == Some(r)
    requires HasVersion(StateAt(s, cmds, i), Target(cmd).value, r)
    ensures Apply(StateAt(s, cmds, j), cmd).outcome.Ok?
            <==> if r < U64_MAX then Untouched(s, cmds, i, j, Target(cmd).value)
                 else Target(cmd).value in StateAt(s, cmds, j).objects
  {
    hide Apply, Target, StateAt, Untouched, Consistent;
    GatePasses(StateAt(s, cmds, j), cmd);
    VersionIsWitness(s, cmds, i, j, Target(cmd).value, r);
  }

  /**
   * The exact condition under which an update is lost, that is, an echo passes although its key was
   * written since the read: the version read was the last value of the counter and the key is there.
   */
  lemma {:induction false} LostUpdateIff(s: Store, cmds: seq<StoreCommand>, i: nat, j: nat, cmd: StoreCommand, r: nat)
    requires i <= j <= |cmds| && Consistent(s)
    requires Target(cmd).Some? && !cmd.op.CreateOp? && Provided(cmd) == Some(r)
    requires HasVersion(StateAt(s, cmds, i), Target(cmd).value, r)
    requires !Untouched(s, cmds, i, j, Target(cmd).value)
    ensures Apply(StateAt(s, cmds, j), cmd).outcome.Ok?
            <==> r == U64_MAX && Target(cmd).value in StateAt(s, cmds, j).objects
  {
    VersionBound(s, cmds, i, Target(cmd).value, r);
    hide Apply, Target, StateAt, Untouched, Consistent;
    NoLostUpdate(s, cmds, i, j, cmd, r);
  }

  /** An input that shows it: at saturation the second of any two conditional writers overwrites the first. */
  lemma SaturationLosesUpdates(s: Store, first: StoreCommand, second: StoreCommand)
    requires s.counter == U64_MAX && Target(first).Some? && Target(second) == Target(first)
    requires HasVersion(s, Target(first).value, U64_MAX)
    requires first.op.ReplaceSpecOp? || first.op.ReplaceStatusOp?
    requires !second.op.CreateOp? && Provided(first) == Some(U64_MAX) == Provided(second)
    ensures Writes(s, first, Target(first).value)
    ensures Apply(Apply(s, first).store, second).outcome.Ok?
  {
    hide Apply, Target;
    GatePasses(s, first);
    ApplyShape(s, first);
    KeptUnlessDeleted(s, first);
    GatePasses(Apply(s, first).store, second);
  }

  lemma KeptUnlessDeleted(s: Store, cmd: StoreCommand)
    requires !cmd.op.DeleteOp?
    ensures Apply(s, cmd).event.Some? ==> !Apply(s, cmd).event.value.change.Deleted?
  {
  }

  /** A created object is the one submitted, with its version and nothing else changed. */
  lemma CreateStoresSubmitted(s: Store, cmd: StoreCommand)
    requires Apply(s, cmd).outcome.Ok? && cmd.op.CreateOp?
    ensures var sent, now := cmd.op.obj.value, Apply(s, cmd).outcome.obj;
      && Target(cmd).value !in s.objects
      && now == sent.(meta := sent.meta.(version := now.meta.version))
  {
  }

  /**
   * What a write to an existing object keeps and what it takes from the command: a spec write takes
   * everything but identity, creation time, generation and status; a status write takes the status
   * if it decodes and the kind has one; a delete reports the object as it was.
   */
  lemma ReplaceKeeps(s: Store, cmd: StoreCommand)
    requires Apply(s, cmd).outcome.Ok? && !cmd.op.CreateOp?
    ensures var was, now := s.objects[Target(cmd).value], Apply(s, cmd).outcome.obj;
      && now.meta.uid == was.meta.uid && now.meta.created == was.meta.created
      && (cmd.op.ReplaceSpecOp? ==> var sent := cmd.op.obj.value;
            && now.spec == sent.spec && now.meta.name == sent.meta.name
            && now.meta.labels == sent.meta.labels && now.meta.owners == sent.meta.owners
            && now.status == (if Target(cmd).value.kind in {Pods, ReplicaSets, Nodes} then was.status else sent.status)
            && now.meta.generation == Some((if was.meta.generation.Some? then was.meta.generation.value else 0) + 1))
      && (cmd.op.ReplaceStatusOp? ==>
            && now.spec == was.spec && now.meta == was.meta.(version := now.meta.version)
            && now.status == (if Target(cmd).value.kind in {Pods, ReplicaSets, Nodes} && cmd.op.status.Some? then cmd.op.status else was.status))
      && (cmd.op.DeleteOp? ==> now == was.(meta := was.meta.(version := now.meta.version)))
  {
  }

  /** One command keeps the identity of an object it does not delete. */
  lemma IdentityStep(s: Store, cmd: StoreCommand, k: Key)
    requires k in s.objects && !(Writes(s, cmd, k) && cmd.op.DeleteOp?)
    ensures var t := Apply(s, cmd).store;
      && k in t.objects && t.objects[k].meta.uid == s.objects[k].meta.uid
      && t.objects[k].meta.created == s.objects[k].meta.created
  {
    ApplyShape(s, cmd);
    if Writes(s, cmd, k) {
      KeptUnlessDeleted(s, cmd);
      if cmd.op.CreateOp? {
        CreateStoresSubmitted(s, cmd);
        assert false;
      } else {
        ReplaceKeeps(s, cmd);
      }
    }
  }

  /** Over any run an object keeps its uid and creation time for as long as it is not deleted. */
  lemma {:induction false} IdentitySticks(s: Store, cmds: seq<StoreCommand>, i: nat, j: nat, k: Key)
    requires i <= j <= |cmds| && k in StateAt(s, cmds, i).objects
    requires forall m :: i <= m < j ==> !(Writes(StateAt(s, cmds, m), cmds[m], k) && cmds[m].op.DeleteOp?)
    ensures var was, now := StateAt(s, cmds, i), StateAt(s, cmds, j);
      && k in now.objects && now.objects[k].meta.uid == was.objects[k].meta.uid
      && now.objects[k].meta.created == was.objects[k].meta.created
    decreases j
  {
    hide Writes, Apply;
    if i < j {
      IdentitySticks(s, cmds, i, j - 1, k);
      IdentityStep(StateAt(s, cmds, j - 1), cmds[j - 1], k);
    }
  }
}

/**
 * The object store of the API server (src/apiserver/storage.rs): five kinds of objects in one
 * tree, one version counter for all of them, optimistic concurrency on every change.
 * Versions are numbers; the store itself never looks into specs and statuses.
 */
module ObjectStore {
  import opened Options
  import opened Texts

  const U64_MAX: nat := 0xFFFF_FFFF_FFFF_FFFF

  datatype Kind = Pods | ReplicaSets | Nodes | Services | Endpoints

  datatype OwnerRef = OwnerRef(kind: string, name: string, uid: string, controller: bool)

  datatype Meta = Meta(
    name: string,
    uid: Option<string>,
    version: Option<nat>,
    generation: Option<nat>,
    created: Option<string>,
    labels: map<string, string>,
    owners: seq<OwnerRef>)

  /** A spec or a status; only controllers read the shapes they know. */
  datatype Payload =
    | Opaque(text: string)
    | ReplicaSetSpec(replicas: nat, selector: map<string, string>, templateLabels: map<string, string>, template: string)
    | ReplicaSetStatus(total: nat, ready: nat, observed: nat)
    | PodStatus(running: bool, containersReady: seq<bool>)

  datatype Object = Object(meta: Meta, spec: Payload, status: Option<Payload>)

  datatype Key = Key(kind: Kind, name: string)

  datatype Change = Added | Modified | Deleted
  datatype Event = Event(change: Change, kind: Kind, obj: Object)

  /** `Internal` only arises in the applier: an unknown kind or a payload that does not decode. */
  datatype Outcome =
    | Ok(obj: Object)
    | NotFound(name: string)
    | AlreadyExists(name: string)
    | Conflict(current: Option<nat>, provided: Option<nat>)
    | Internal

  /** The database: the objects and the counter behind every version. */
  datatype Store = Store(objects: map<Key, Object>, counter: nat)

  const EMPTY: Store := Store(map[], 0)

  /** What a transaction leaves: the new store, its outcome and the event it emits afterwards. */
  datatype Written = Written(store: Store, outcome: Outcome, event: Option<Event>)

  // ---- keys ----

  const COUNTER_KEY: string := "rv_counter"

  function Prefix(k: Kind): string {
    match k
    case Pods => "pods/"
    case ReplicaSets => "replicasets/"
    case Nodes => "nodes/"
    case Services => "services/"
    case Endpoints => "endpoints/"
  }

  /** The key under which the tree holds an object. */
  function TreeKey(k: Key): string {
    Prefix(k.kind) + k.name
  }

  /** Which store a command names; any other text is no kind at all. */
  function KindOf(text: string): Option<Kind> {
    if text == Prefix(Pods) then Some(Pods)
    else if text == Prefix(ReplicaSets) then Some(ReplicaSets)
    else if text == Prefix(Nodes) then Some(Nodes)
    else if text == Prefix(Services) then Some(Services)
    else if text == Prefix(Endpoints) then Some(Endpoints)
    else None
  }

  /**
   * One tree can hold all kinds: tree keys are injective, never the counter's key, and a scan by
   * the prefix of a kind finds the objects of that kind and no others.
   */
  lemma TreeKeysApart(a: Key, b: Key)
    ensures TreeKey(a) == TreeKey(b) ==> a == b
    ensures TreeKey(a) != COUNTER_KEY
    ensures Prefix(b.kind) <= TreeKey(a) <==> a.kind == b.kind
    ensures KindOf(Prefix(a.kind)) == Some(a.kind)
  {
    assert TreeKey(a)[0] == Prefix(a.kind)[0] && TreeKey(b)[0] == Prefix(b.kind)[0];
    assert Prefix(Pods)[0] == 'p' && Prefix(ReplicaSets)[0] == 'r' && Prefix(Nodes)[0] == 'n';
    assert Prefix(Services)[0] == 's' && Prefix(Endpoints)[0] == 'e';
    assert Prefix(ReplicaSets)[1] == 'e' && TreeKey(Key(ReplicaSets, a.name))[1] == 'e' && COUNTER_KEY[1] == 'v';
    if a.kind == b.kind {
      assert TreeKey(a)[|Prefix(a.kind)|..] == a.name && TreeKey(b)[|Prefix(b.kind)|..] == b.name;
    }
  }

  // ---- the transactions ----

  /** The counter saturates instead of wrapping. */
  function Bump(counter: nat): nat {
    if counter < U64_MAX then counter + 1 else U64_MAX
  }

  function Stamped(o: Object, version: nat): Object {
    o.(meta := o.meta.(version := Some(version)))
  }

  predicate VersionMatches(current: Object, provided: Option<nat>) {
    provided.Some? && provided == current.meta.version
  }

  predicate HasStatus(kind: Kind) {
    kind.Pods? || kind.ReplicaSets? || kind.Nodes?
  }

  function Create(s: Store, kind: Kind, o: Object): Written {
    var key := Key(kind, o.meta.name);
    if key in s.objects then Written(s, AlreadyExists(o.meta.name), None)
    else
      var version := Bump(s.counter);
      var stored := Stamped(o, version);
      Written(Store(s.objects[key := stored], version), Ok(stored), Some(Event(Added, kind, stored)))
  }

  /** A replaced object keeps uid, creation time and status, and its generation goes up. */
  function Respec(kind: Kind, current: Object, o: Object, version: nat): Object {
    var m := o.meta.(uid := current.meta.uid, created := current.meta.created,
                     generation := Some((if current.meta.generation.Some? then current.meta.generation.value else 0) + 1),
                     version := Some(version));
    Object(m, o.spec, if HasStatus(kind) then current.status else o.status)
  }

  function ReplaceSpec(s: Store, kind: Kind, name: string, o: Object): Written {
    var key := Key(kind, name);
    if key !in s.objects then Written(s, NotFound(name), None)
    else if !VersionMatches(s.objects[key], o.meta.version) then
      Written(s, Conflict(s.objects[key].meta.version, o.meta.version), None)
    else
      var version := Bump(s.counter);
      var stored := Respec(kind, s.objects[key], o, version);
      Written(Store(s.objects[key := stored], version), Ok(stored), Some(Event(Modified, kind, stored)))
  }

  /** `status` is None when it does not decode for the kind; the write still happens. */
  function Restatus(kind: Kind, current: Object, status: Option<Payload>): Object {
    if HasStatus(kind) && status.Some? then current.(status := status) else current
  }

  function ReplaceStatus(s: Store, kind: Kind, name: string, expected: nat, status: Option<Payload>): Written {
    var key := Key(kind, name);
    if key !in s.objects then Written(s, NotFound(name), None)
    else if !VersionMatches(s.objects[key], Some(expected)) then
      Written(s, Conflict(s.objects[key].meta.version, Some(expected)), None)
    else
      var version := Bump(s.counter);
      var stored := Stamped(Restatus(kind, s.objects[key], status), version);
      Written(Store(s.objects[key := stored], version), Ok(stored), Some(Event(Modified, kind, stored)))
  }

  function Delete(s: Store, kind: Kind, name: string, expected: nat): Written {
    var key := Key(kind, name);
    if key !in s.objects then Written(s, NotFound(name), None)
    else if !VersionMatches(s.objects[key], Some(expected)) then
      Written(s, Conflict(s.objects[key].meta.version, Some(expected)), None)
    else
      var version := Bump(s.counter);
      var removed := Stamped(s.objects[key], version);
      Written(Store(s.objects - {key}, version), Ok(removed), Some(Event(Deleted, kind, removed)))
  }

  // ---- reading ----

  /** The objects of one kind, by name: what a client of the stream wants to know. */
  function View(s: Store, kind: Kind): map<string, Object> {
    map n | n in (set k | k in s.objects && k.kind == kind :: k.name) :: s.objects[Key(kind, n)]
  }

  /** `items` lists every object of the kind once, in any order. */
  predicate Enumerates(items: seq<Object>, s: Store, kind: Kind) {
    && (forall i, j :: 0 <= i < j < |items| ==> items[i].meta.name != items[j].meta.name)
    && (forall i :: 0 <= i < |items| ==> items[i].meta.name in View(s, kind) && View(s, kind)[items[i].meta.name] == items[i])
    && (forall n :: n in View(s, kind) ==> View(s, kind)[n] in items)
  }

  /** `items` are the entries of the view under `names`, in ascending order of name. */
  ghost predicate InNameOrder(names: seq<string>, items: seq<Object>, view: map<string, Object>) {
    && |names| == |items|
    && (forall i, j :: 0 <= i < j < |names| ==> names[i] != names[j] && TextLe(names[i], names[j]))
    && (forall i :: 0 <= i < |names| ==> names[i] in view && view[names[i]] == items[i])
    && (forall n :: n in view ==> n in names)
  }

  /** What a scan finds: every object of the kind once, in the order of the tree. */
  ghost predicate Scanned(items: seq<Object>, s: Store, kind: Kind) {
    exists names :: InNameOrder(names, items, View(s, kind))
  }

  /** A scan over a view. */
  method Scan(view: map<string, Object>) returns (items: seq<Object>, ghost names: seq<string>)
    ensures InNameOrder(names, items, view)
  {
    items, names := [], [];
    var rest := view.Keys;
    while rest != {}
      invariant rest <= view.Keys && |names| == |items|
      invariant forall i, j :: 0 <= i < j < |names| ==> names[i] != names[j] && TextLe(names[i], names[j])
      invariant forall i :: 0 <= i < |names| ==> names[i] in view && names[i] !in rest && view[names[i]] == items[i]
      invariant forall i, m :: 0 <= i < |names| && m in rest ==> TextLe(names[i], m)
      invariant forall n :: n in view && n !in rest ==> n in names
      decreases rest
    {
      ghost var first := HasFirst(rest);
      var n :| n in rest && forall m :: m in rest ==> TextLe(n, m);
      rest := rest - {n};
      items, names := items + [view[n]], names + [n];
    }
  }

  /** Where objects are stored under their own names a scan tells them apart. */
  lemma ScannedEnumerates(items: seq<Object>, s: Store, kind: Kind)
    requires NamesMatch(s) && Scanned(items, s, kind)
    ensures Enumerates(items, s, kind)
  {
    var names :| InNameOrder(names, items, View(s, kind));
    forall i | 0 <= i < |items|
      ensures items[i].meta.name == names[i]
    {
      assert Key(kind, names[i]) in s.objects;
    }
    forall n | n in View(s, kind)
      ensures View(s, kind)[n] in items
    {
      var i :| 0 <= i < |names| && names[i] == n;
      assert items[i] == View(s, kind)[n];
    }
  }

  /** Every object is stored under its own name. */
  predicate NamesMatch(s: Store) {
    forall k :: k in s.objects ==> s.objects[k].meta.name == k.name
  }

  // ---- commands (src/apiserver/command.rs, applier.rs) ----

  /** A payload that does not decode for its kind is None. */
  datatype Op =
    | CreateOp(obj: Option<Object>)
    | ReplaceSpecOp(name: string, obj: Option<Object>)
    | ReplaceStatusOp(name: string, version: nat, status: Option<Payload>)
    | DeleteOp(name: string, version: nat)

  datatype StoreCommand = StoreCommand(id: nat, kind: string, op: Op)

  function ApplyOp(s: Store, kind: Kind, op: Op): Written {
    match op
    case CreateOp(obj) => if obj.None? then Written(s, Internal, None) else Create(s, kind, obj.value)
    case ReplaceSpecOp(name, obj) =>
      if obj.None? then Written(s, Internal, None) else ReplaceSpec(s, kind, name, obj.value)
    case ReplaceStatusOp(name, version, status) => ReplaceStatus(s, kind, name, version, status)
    case DeleteOp(name, version) => Delete(s, kind, name, version)
  }

  function Apply(s: Store, cmd: StoreCommand): Written {
    var kind := KindOf(cmd.kind);
    if kind.None? then Written(s, Internal, None) else ApplyOp(s, kind.value, cmd.op)
  }

  // ---- the store as the source has it: an object whose methods change it ----

  class Database {
    var objects: map<Key, Object>
    var counter: nat
    /** Everything sent to the watch channels, in order. */
    var sent: seq<Event>

    ghost function State(): Store
      reads this
    {
      Store(objects, counter)
    }

    /** The database and the channels after a transaction, as `w` says. */
    ghost predicate After(w: Written, before: seq<Event>, r: Outcome)
      reads this
    {
      State() == w.store && r == w.outcome
      && sent == before + (if w.event.Some? then [w.event.value] else [])
    }

    constructor ()
      ensures State() == EMPTY && sent == []
    {
      objects, counter, sent := map[], 0, [];
    }

    method BumpVersion() returns (next: nat)
      modifies this`counter
      ensures next == counter == Bump(old(counter))
    {
      if counter < U64_MAX {
        counter := counter + 1;
      } else {
        counter := U64_MAX;
      }
      next := counter;
    }

    /** The gate of every conditional write: only an echo of the current version passes. */
    method CheckVersion(current: Object, provided: Option<nat>) returns (conflict: Option<Outcome>)
      ensures conflict.None? <==> VersionMatches(current, provided)
      ensures conflict.Some? ==> conflict.value == Conflict(current.meta.version, provided)
    {
      match provided {
        case Some(p) =>
          if current.meta.version == Some(p) {
            return None;
          }
          return Some(Conflict(current.meta.version, provided));
        case None => return Some(Conflict(current.meta.version, None));
      }
    }

    method Emit(change: Change, kind: Kind, obj: Object)
      modifies this`sent
      ensures sent == old(sent) + [Event(change, kind, obj)]
    {
      sent := sent + [Event(change, kind, obj)];
    }

    /** The first half of a list: every object of the kind once, in the order of the tree. */
    method ScanKind(kind: Kind) returns (items: seq<Object>)
      ensures Scanned(items, State(), kind)
    {
      var view := View(Store(objects, counter), kind);
      ghost var names;
      items, names := Scan(view);
    }

    /** The second half: the counter as it is then. */
    method CurrentVersion() returns (version: nat)
      ensures version == counter
    {
      version := counter;
    }

    /** The two halves one after the other; what may happen between them is the subject of `Watch`. */
    method List(kind: Kind) returns (items: seq<Object>, version: nat)
      ensures Scanned(items, State(), kind) && version == counter
    {
      items := ScanKind(kind);
      version := CurrentVersion();
    }

    method CreatePrestamped(kind: Kind, obj: Object) returns (r: Outcome)
      modifies this
      ensures After(Create(old(State()), kind, obj), old(sent), r)
    {
      var key := Key(kind, obj.meta.name);
      if key in objects {
        return AlreadyExists(obj.meta.name);
      }
      var version := BumpVersion();
      var o := obj.(meta := obj.meta.(version := Some(version)));
      objects := objects[key := o];
      Emit(Added, kind, o);
      return Ok(o);
    }

    method ReplaceSpecOf(kind: Kind, name: string, obj: Object) returns (r: Outcome)
      modifies this
      ensures After(ReplaceSpec(old(State()), kind, name, obj), old(sent), r)
    {
      var key := Key(kind, name);
      if key !in objects {
        return NotFound(name);
      }
      var current := objects[key];
      var conflict := CheckVersion(current, obj.meta.version);
      if conflict.Some? {
        return conflict.value;
      }
      var version := BumpVersion();
      var generation := if current.meta.generation.Some? then current.meta.generation.value else 0;
      var o := obj.(meta := obj.meta.(uid := current.meta.uid, created := current.meta.created,
                                      generation := Some(generation + 1), version := Some(version)));
      if HasStatus(kind) {
        o := o.(status := current.status);
      }
      objects := objects[key := o];
      Emit(Modified, kind, o);
      return Ok(o);
    }

    method ReplaceStatusOf(kind: Kind, name: string, expected: nat, status: Option<Payload>) returns (r: Outcome)
      modifies this
      ensures After(ReplaceStatus(old(State()), kind, name, expected, status), old(sent), r)
    {
      var key := Key(kind, name);
      if key !in objects {
        return NotFound(name);
      }
      var current := objects[key];
      var conflict := CheckVersion(current, Some(expected));
      if conflict.Some? {
        return conflict.value;
      }
      var version := BumpVersion();
      if HasStatus(kind) && status.Some? {
        current := current.(status := status);
      }
      current := current.(meta := current.meta.(version := Some(version)));
      objects := objects[key := current];
      Emit(Modified, kind, current);
      return Ok(current);
    }

    method Remove(kind: Kind, name: string, expected: nat) returns (r: Outcome)
      modifies this
      ensures After(Delete(old(State()), kind, name, expected), old(sent), r)
    {
      var key := Key(kind, name);
      if key !in objects {
        return NotFound(name);
      }
      var current := objects[key];
      var conflict := CheckVersion(current, Some(expected));
      if conflict.Some? {
        return conflict.value;
      }
      var version := BumpVersion();
      current := current.(meta := current.meta.(version := Some(version)));
      objects := objects - {key};
      Emit(Deleted, kind, current);
      return Ok(current);
    }

    /** The replicated state machine: one committed command. */
    method ApplyCommand(cmd: StoreCommand) returns (r: Outcome)
      modifies this
      ensures After(Apply(old(State()), cmd), old(sent), r)
    {
      var kind := KindOf(cmd.kind);
      if kind.None? {
        return Internal;
      }
      match cmd.op {
        case CreateOp(obj) =>
          if obj.None? {
            return Internal;
          }
          r := CreatePrestamped(kind.value, obj.value);
        case ReplaceSpecOp(name, obj) =>
          if obj.None? {
            return Internal;
          }
          r := ReplaceSpecOf(kind.value, name, obj.value);
        case ReplaceStatusOp(name, version, status) => r := ReplaceStatusOf(kind.value, name, version, status);
        case DeleteOp(name, version) => r := Remove(kind.value, name, version);
      }
    }
  }
}

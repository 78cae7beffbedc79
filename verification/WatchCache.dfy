/**
 * What a client makes of a watch stream (src/apiserver/watch.rs): a cache by name into which it
 * replays events, what events leave about a name, and what of a scan and of the events passes the
 * resume point and the filter of the request.
 */
module WatchCache {
  import opened Options
  import opened ObjectStore
  import opened StoreHistory

  /** What a client asks for: one kind, objects newer than its resume point, and those it wants to see. */
  datatype Query = Query(kind: Kind, from: nat, keep: Object -> bool)

  /** The version of an object, 0 if it has none. */
  function VersionOf(o: Object): nat {
    if o.meta.version.Some? then o.meta.version.value else 0
  }

  // ---- the cache ----

  function Absorb(m: map<string, Object>, e: Event): map<string, Object> {
    if e.change.Deleted? then m - {e.obj.meta.name} else m[e.obj.meta.name := e.obj]
  }

  /** What a client that holds `m` holds after replaying `events`. */
  function Replay(m: map<string, Object>, events: seq<Event>): map<string, Object> {
    if events == [] then m else Absorb(Replay(m, events[..|events| - 1]), events[|events| - 1])
  }

  lemma {:induction false} ReplayConcat(m: map<string, Object>, a: seq<Event>, b: seq<Event>)
    ensures Replay(m, a + b) == Replay(Replay(m, a), b)
    decreases |b|
  {
    if b == [] {
      assert a + b == a;
    } else {
      var k := |b| - 1;
      assert (a + b)[..|a| + k] == a + b[..k];
      ReplayConcat(m, a, b[..k]);
    }
  }

  lemma {:induction false} ReplayNone(m: map<string, Object>)
    ensures Replay(m, []) == m
  {
  }

  lemma {:induction false} ReplayOne(m: map<string, Object>, e: Event)
    ensures Replay(m, [e]) == Absorb(m, e)
  {
    assert [e][..0] == [];
    assert Replay(m, [e][..0]) == m;
  }

  // ---- one name ----

  function Entry(m: map<string, Object>, n: string): Option<Object> {
    if n in m then Some(m[n]) else None
  }

  lemma SameEverywhere(m: map<string, Object>, v: map<string, Object>)
    ensures m == v <==> forall n: string :: Entry(m, n) == Entry(v, n)
  {
    if forall n: string :: Entry(m, n) == Entry(v, n) {
      forall n: string
        ensures n in m <==> n in v
        ensures n in m && n in v ==> m[n] == v[n]
      {
        assert Entry(m, n) == Entry(v, n);
      }
      assert m.Keys == v.Keys;
    }
  }

  /** What an event leaves under its name. */
  function Leaves(e: Event): Option<Object> {
    if e.change.Deleted? then None else Some(e.obj)
  }

  /** The last event about a name, if there is one. */
  function Last(events: seq<Event>, n: string): Option<Event> {
    if events == [] then None
    else
      var k := |events| - 1;
      if events[k].obj.meta.name == n then Some(events[k]) else Last(events[..k], n)
  }

  predicate Mentions(events: seq<Event>, n: string) {
    Last(events, n).Some?
  }

  lemma {:induction false} LastIs(events: seq<Event>, n: string)
    ensures Last(events, n).Some? ==> Last(events, n).value in events && Last(events, n).value.obj.meta.name == n
    ensures forall i :: 0 <= i < |events| && events[i].obj.meta.name == n ==> Last(events, n).Some?
  {
    if events != [] {
      var k := |events| - 1;
      LastIs(events[..k], n);
      assert forall i :: 0 <= i < k ==> events[..k][i] == events[i];
    }
  }

  /** Of all events about a name the last one decides, and names that are not mentioned stay. */
  lemma {:induction false} ReplayEntry(m: map<string, Object>, events: seq<Event>, n: string)
    ensures Entry(Replay(m, events), n) == if Last(events, n).Some? then Leaves(Last(events, n).value) else Entry(m, n)
  {
    if events != [] {
      ReplayEntry(m, events[..|events| - 1], n);
    }
  }

  // ---- what passes ----

  /** The events of the kind newer than `c`. */
  function Recent(kind: Kind, c: nat, events: seq<Event>): seq<Event> {
    if events == [] then []
    else
      var k := |events| - 1;
      Recent(kind, c, events[..k])
      + (if events[k].kind == kind && VersionOf(events[k].obj) > c then [events[k]] else [])
  }

  /** The events whose object the client wants to see. */
  function Kept(q: Query, events: seq<Event>): seq<Event> {
    if events == [] then []
    else
      var k := |events| - 1;
      Kept(q, events[..k]) + (if q.keep(events[k].obj) then [events[k]] else [])
  }

  lemma {:induction false} RecentConcat(kind: Kind, c: nat, a: seq<Event>, b: seq<Event>)
    ensures Recent(kind, c, a + b) == Recent(kind, c, a) + Recent(kind, c, b)
    decreases |b|
  {
    if b == [] {
      assert a + b == a;
    } else {
      var k := |b| - 1;
      assert (a + b)[..|a| + k] == a + b[..k];
      RecentConcat(kind, c, a, b[..k]);
    }
  }

  lemma {:induction false} RecentOne(kind: Kind, c: nat, e: Event)
    ensures Recent(kind, c, [e]) == if e.kind == kind && VersionOf(e.obj) > c then [e] else []
  {
    assert [e][..0] == [];
    assert Recent(kind, c, [e][..0]) == [];
  }

  lemma {:induction false} RecentMembers(kind: Kind, c: nat, events: seq<Event>)
    ensures forall e :: e in Recent(kind, c, events) <==> e in events && e.kind == kind && VersionOf(e.obj) > c
  {
    if events != [] {
      var k := |events| - 1;
      RecentMembers(kind, c, events[..k]);
      assert events == events[..k] + [events[k]];
    }
  }

  predicate UpTo(events: seq<Event>, counter: nat) {
    forall i :: 0 <= i < |events| ==> VersionOf(events[i].obj) <= counter
  }

  lemma {:induction false} NothingRecent(kind: Kind, c: nat, events: seq<Event>)
    requires UpTo(events, c)
    ensures Recent(kind, c, events) == []
  {
    if events != [] {
      NothingRecent(kind, c, events[..|events| - 1]);
    }
  }

  lemma {:induction false} KeptConcat(q: Query, a: seq<Event>, b: seq<Event>)
    ensures Kept(q, a + b) == Kept(q, a) + Kept(q, b)
    decreases |b|
  {
    if b == [] {
      assert a + b == a;
    } else {
      var k := |b| - 1;
      assert (a + b)[..|a| + k] == a + b[..k];
      KeptConcat(q, a, b[..k]);
    }
  }

  lemma {:induction false} KeptMembers(q: Query, events: seq<Event>)
    ensures forall e :: e in Kept(q, events) <==> e in events && q.keep(e.obj)
  {
    if events != [] {
      var k := |events| - 1;
      KeptMembers(q, events[..k]);
      assert events == events[..k] + [events[k]];
    }
  }

  /** A filter that lets everything through changes nothing. */
  lemma {:induction false} KeptAll(q: Query, events: seq<Event>)
    requires forall o: Object :: q.keep(o)
    ensures Kept(q, events) == events
  {
    if events != [] {
      var k := |events| - 1;
      KeptAll(q, events[..k]);
      assert events == events[..k] + [events[k]];
    }
  }

  /** What a stream with snapshot version `c` forwards of the events it receives. */
  function Forwarded(q: Query, c: nat, events: seq<Event>): seq<Event> {
    Kept(q, Recent(q.kind, c, events))
  }

  lemma ForwardedConcat(q: Query, c: nat, a: seq<Event>, b: seq<Event>)
    ensures Forwarded(q, c, a + b) == Forwarded(q, c, a) + Forwarded(q, c, b)
  {
    RecentConcat(q.kind, c, a, b);
    KeptConcat(q, Recent(q.kind, c, a), Recent(q.kind, c, b));
    hide Recent, Kept;
  }

  lemma ForwardedOne(q: Query, c: nat, e: Event)
    ensures Forwarded(q, c, [e]) == if e.kind == q.kind && VersionOf(e.obj) > c && q.keep(e.obj) then [e] else []
  {
    RecentOne(q.kind, c, e);
    assert [e][..0] == [];
    assert Kept(q, [e][..0]) == [];
  }

  // ---- a scan replayed ----

  predicate Wanted(q: Query, o: Object) {
    VersionOf(o) > q.from && q.keep(o)
  }

  /** What the catch-up replays of a scan. */
  function Chosen(q: Query, items: seq<Object>): seq<Object> {
    if items == [] then []
    else (if Wanted(q, items[0]) then [items[0]] else []) + Chosen(q, items[1..])
  }

  lemma {:induction false} ChosenMembers(q: Query, items: seq<Object>)
    ensures forall x :: x in Chosen(q, items) <==> x in items && Wanted(q, x)
  {
    if items != [] {
      ChosenMembers(q, items[1..]);
      assert items == [items[0]] + items[1..];
    }
  }

  function Additions(kind: Kind, items: seq<Object>): (r: seq<Event>)
    ensures |r| == |items| && forall i :: 0 <= i < |r| ==> r[i] == Event(Added, kind, items[i])
  {
    seq(|items|, i requires 0 <= i < |items| => Event(Added, kind, items[i]))
  }

  lemma {:induction false} LastAddition(kind: Kind, items: seq<Object>, n: string)
    ensures var l := Last(Additions(kind, items), n);
      && (l.Some? ==> l.value.change.Added? && l.value.obj in items && l.value.obj.meta.name == n)
      && (forall x :: x in items && x.meta.name == n ==> l.Some?)
  {
    var es := Additions(kind, items);
    hide Last;
    LastIs(es, n);
    forall x | x in items && x.meta.name == n
      ensures Last(es, n).Some?
    {
      var i :| 0 <= i < |items| && items[i] == x;
      assert es[i].obj.meta.name == n;
    }
  }

  /** What a client that held `m` holds of a scan: the wanted objects, and what it held of all others. */
  lemma {:induction false} ScanEntry(q: Query, m: map<string, Object>, items: seq<Object>, s: Store, n: string)
    requires Enumerates(items, s, q.kind) && NamesMatch(s)
    ensures Entry(Replay(m, Additions(q.kind, Chosen(q, items))), n)
            == if n in View(s, q.kind) && Wanted(q, View(s, q.kind)[n]) then Some(View(s, q.kind)[n]) else Entry(m, n)
  {
    var v := View(s, q.kind);
    hide Replay, Additions, Chosen, Last, Wanted;
    ChosenMembers(q, items);
    LastAddition(q.kind, Chosen(q, items), n);
    ReplayEntry(m, Additions(q.kind, Chosen(q, items)), n);
    if n in v {
      InView(s, q.kind, n);
    }
  }

  // ---- what the client ought to hold ----

  function KeptEntry(q: Query, o: Option<Object>): Option<Object> {
    if o.Some? && q.keep(o.value) then o else None
  }

  /** The objects of the kind the client wants to see: what its cache should be. */
  function Matching(q: Query, s: Store): map<string, Object> {
    map n | n in View(s, q.kind) && q.keep(View(s, q.kind)[n]) :: View(s, q.kind)[n]
  }

  lemma MatchingEntry(q: Query, s: Store, n: string)
    ensures Entry(Matching(q, s), n) == KeptEntry(q, Entry(View(s, q.kind), n))
    ensures n in Matching(q, s) <==> n in View(s, q.kind) && q.keep(View(s, q.kind)[n])
  {
    hide View;
  }

  /**
   * The cache `m` can be brought up to date from the resume point: it holds nothing newer, and
   * whatever is stored, wanted and not newer is in it as it is stored.
   */
  predicate Resumes(m: map<string, Object>, q: Query, s: Store) {
    && q.from <= s.counter
    && (forall n :: n in m ==> 1 <= VersionOf(m[n]) <= q.from)
    && (forall n :: n in Matching(q, s) && VersionOf(Matching(q, s)[n]) <= q.from ==> n in m && m[n] == Matching(q, s)[n])
  }

  /** So the catch-up is right about every object it finds and says nothing about the others. */
  lemma {:induction false} CatchUpEntry(q: Query, m: map<string, Object>, items: seq<Object>, s: Store, n: string)
    requires Enumerates(items, s, q.kind) && NamesMatch(s) && Resumes(m, q, s)
    ensures Entry(Replay(m, Additions(q.kind, Chosen(q, items))), n)
            == if n in Matching(q, s) then Some(Matching(q, s)[n]) else Entry(m, n)
  {
    hide Replay, Additions, Chosen, Enumerates, View, NamesMatch;
    ScanEntry(q, m, items, s, n);
    MatchingEntry(q, s, n);
  }

  // ---- what a commit does to the view ----

  /** The HTTP layer rejects a replacement whose body names another object. */
  predicate WellNamed(cmd: StoreCommand) {
    cmd.op.ReplaceSpecOp? && cmd.op.obj.Some? ==> cmd.op.obj.value.meta.name == cmd.op.name
  }

  predicate Sane(s: Store) {
    Consistent(s) && NamesMatch(s)
  }

  /** The event a command emits for the kind, if any. */
  function Emitted(s: Store, cmd: StoreCommand, kind: Kind): (r: seq<Event>)
    ensures |r| <= 1
  {
    var e := Apply(s, cmd).event;
    if e.Some? && e.value.kind == kind then [e.value] else []
  }

  lemma EventNames(s: Store, cmd: StoreCommand)
    requires NamesMatch(s) && WellNamed(cmd)
    ensures Apply(s, cmd).event.Some? ==> Target(cmd).Some? && Apply(s, cmd).event.value.obj.meta.name == Target(cmd).value.name
  {
  }

  /** All there is to know about the event a command emits. */
  lemma EmittedIs(s: Store, cmd: StoreCommand, kind: Kind)
    requires NamesMatch(s) && WellNamed(cmd)
    ensures var e := Apply(s, cmd).event; var r := Emitted(s, cmd, kind);
      && (e.Some? ==> VersionOf(e.value.obj) == Apply(s, cmd).store.counter == Bump(s.counter))
      && (r == [] <==> e.None? || e.value.kind != kind)
      && (r != [] ==>
            && r == [e.value] && Target(cmd) == Some(Key(kind, e.value.obj.meta.name))
            && WriteShape(s, Target(cmd).value, Apply(s, cmd)))
  {
    EventNames(s, cmd);
    ApplyShape(s, cmd);
    hide Apply, Target, WellNamed, OnlyAt;
  }

  lemma NamesStay(s: Store, cmd: StoreCommand)
    requires NamesMatch(s) && WellNamed(cmd)
    ensures NamesMatch(Apply(s, cmd).store)
  {
    EventNames(s, cmd);
    ApplyShape(s, cmd);
    hide Apply, Target, WellNamed;
  }

  lemma StaysSane(s: Store, cmd: StoreCommand)
    requires Sane(s) && WellNamed(cmd)
    ensures Sane(Apply(s, cmd).store) && s.counter <= Apply(s, cmd).store.counter
  {
    hide Consistent, NamesMatch, Apply, WellNamed;
    NamesStay(s, cmd);
    StepConsistent(s, cmd);
  }

  lemma SaneParts(s: Store)
    requires Sane(s)
    ensures NamesMatch(s) && s.counter <= U64_MAX
  {
  }

  /** A committed event does to the view what it does to a cache; other kinds leave it alone. */
  lemma CommitView(s: Store, cmd: StoreCommand, kind: Kind)
    requires NamesMatch(s) && WellNamed(cmd)
    ensures View(Apply(s, cmd).store, kind) == Replay(View(s, kind), Emitted(s, cmd, kind))
  {
    EmittedIs(s, cmd, kind);
    ApplyShape(s, cmd);
    hide Apply, Target, WellNamed, View, OnlyAt, NamesMatch;
    var w := Apply(s, cmd);
    if w.event.Some? {
      ViewOfWrite(s, w.store, Target(cmd).value, kind);
      if w.event.value.kind == kind {
        ReplayOne(View(s, kind), w.event.value);
      }
    }
  }

  /** The stored version of a name of the kind, if it is stored. */
  lemma ViewVersion(s: Store, kind: Kind, n: string)
    requires Sane(s) && n in View(s, kind)
    ensures 1 <= VersionOf(View(s, kind)[n]) <= s.counter
  {
    InView(s, kind, n);
  }
}

/**
 * Inputs on which a watch stream leaves its client wrong (src/apiserver/watch.rs:46-51 promises that
 * nothing slips through): a write between scan and counter read, two writers whose events overtake
 * each other, a delete while the client was away, a write after which an object no longer matches.
 * Each is a run of `Watch` in which the stream is caught up.
 */
module WatchFailures {
  import opened Options
  import opened ObjectStore
  import opened StoreHistory
  import opened WatchCache
  import opened Watch
  import opened WatchPromises

  // ---- single steps ----

  /** The step is enabled in `s` and leads to `t`. */
  ghost predicate Leads(s: System, q: Query, step: Step, t: System) {
    Enabled(s, q, step) && Next(s, q, step) == t
  }

  lemma Subscribes(q: Query, s: Store)
    ensures Leads(System(s, [], Idle, [], false, []), q, Subscribe, System(s, [], Subscribed, [], false, []))
  {
  }

  lemma ScansNothing(q: Query, counter: nat)
    ensures var s := Store(map[], counter);
      Leads(System(s, [], Subscribed, [], false, []), q, Scan([]), System(s, [], Watch.Scanned([]), [], false, []))
  {
    ViewOfNone(q.kind, counter);
    hide Enumerates;
  }

  lemma Reads(q: Query, s: Store, channel: seq<Event>)
    ensures Leads(System(s, [], Watch.Scanned([]), channel, false, []), q, ReadCounter,
                  System(s, [], CatchingUp([], s.counter), channel, false, []))
  {
  }

  lemma GoesLive(q: Query, s: Store, c: nat, channel: seq<Event>)
    ensures Leads(System(s, [], CatchingUp([], c), channel, false, []), q, CatchUp, System(s, [], Live(c), channel, false, []))
  {
  }

  lemma Commits(q: Query, s: Store, cmd: StoreCommand, t: Store, e: Event, pending: seq<Event>, p: Phase, y: seq<Event>)
    requires WellNamed(cmd) && Apply(s, cmd).store == t && Apply(s, cmd).event == Some(e)
    ensures Leads(System(s, pending, p, [], false, y), q, Commit(cmd), System(t, pending + [e], p, [], false, y))
  {
    hide Apply, WellNamed;
  }

  lemma Emits(q: Query, s: Store, pending: seq<Event>, i: nat, p: Phase, channel: seq<Event>, y: seq<Event>)
    requires i < |pending| && pending[i].kind == q.kind && |channel| < CAPACITY
    ensures Leads(System(s, pending, p, channel, false, y), q, Emit(i),
                  System(s, Without(pending, i), p, if p.Idle? || p.Failed? then channel else channel + [pending[i]], false, y))
  {
  }

  lemma Receives(q: Query, s: Store, c: nat, e: Event, channel: seq<Event>, y: seq<Event>)
    ensures Leads(System(s, [], Live(c), [e] + channel, false, y), q, Receive,
                  System(s, [], Live(c), channel, false, if VersionOf(e.obj) > c && q.keep(e.obj) then y + [e] else y))
  {
    assert ([e] + channel)[1..] == channel;
  }

  lemma IsRunFrom(run: seq<System>, steps: seq<Step>, q: Query)
    requires |run| == |steps| + 1 && run[0] == System(EMPTY, [], Idle, [], false, [])
    requires forall k :: 0 <= k < |steps| ==> Leads(run[k], q, steps[k], run[k + 1])
    ensures IsRun(run, steps, q)
  {
    hide Enabled, Next;
    forall k | 0 <= k < |steps|
      ensures Enabled(run[k], q, steps[k]) && run[k + 1] == Next(run[k], q, steps[k])
    {
      assert Leads(run[k], q, steps[k], run[k + 1]);
    }
  }

  // ---- the commands ----

  /** A store with one object. */
  function Holding(kind: Kind, o: Object, counter: nat): Store {
    Store(map[Key(kind, o.meta.name) := o], counter)
  }

  lemma AfterCreate(kind: Kind, o: Object)
    ensures WellNamed(CreateCommand(kind, o))
    ensures var w := Apply(EMPTY, CreateCommand(kind, o)); var stored := Stamped(o, 1);
      w.store == Holding(kind, stored, 1) && w.event == Some(Event(Added, kind, stored))
  {
    TreeKeysApart(Key(kind, ""), Key(kind, ""));
    hide KindOf, Prefix;
  }

  lemma AfterDelete(kind: Kind, o: Object)
    ensures WellNamed(DeleteCommand(kind, o.meta.name, 1))
    ensures var w := Apply(Holding(kind, Stamped(o, 1), 1), DeleteCommand(kind, o.meta.name, 1));
      w.store == Store(map[], 2) && w.event == Some(Event(Deleted, kind, Stamped(o, 2)))
  {
    TreeKeysApart(Key(kind, ""), Key(kind, ""));
    hide KindOf, Prefix;
    var s, key := Holding(kind, Stamped(o, 1), 1), Key(kind, o.meta.name);
    assert s.objects - {key} == map[];
  }

  lemma AfterReplace(kind: Kind, o: Object, p: Object)
    requires p.meta.name == o.meta.name && p.meta.version == Some(1)
    ensures WellNamed(ReplaceCommand(kind, p))
    ensures var w := Apply(Holding(kind, Stamped(o, 1), 1), ReplaceCommand(kind, p)); var stored := Respec(kind, Stamped(o, 1), p, 2);
      w.store == Holding(kind, stored, 2) && w.event == Some(Event(Modified, kind, stored))
  {
    TreeKeysApart(Key(kind, ""), Key(kind, ""));
    hide KindOf, Prefix;
  }

  lemma ViewOfOne(kind: Kind, o: Object, counter: nat)
    ensures View(Holding(kind, o, counter), kind) == map[o.meta.name := o]
  {
    var s := Holding(kind, o, counter);
    forall n: string
      ensures n in View(s, kind) <==> n == o.meta.name
      ensures n in View(s, kind) ==> View(s, kind)[n] == o
    {
      InView(s, kind, n);
    }
    assert View(s, kind).Keys == map[o.meta.name := o].Keys;
  }

  lemma ViewOfNone(kind: Kind, counter: nat)
    ensures View(Store(map[], counter), kind) == map[] && Enumerates([], Store(map[], counter), kind)
  {
    var s := Store(map[], counter);
    assert View(s, kind).Keys == {};
  }

  lemma Bits(e: Event)
    ensures [] + [e] == [e] == [e] + [] && Without([e], 0) == []
  {
  }

  // ---- the four inputs ----

  /**
   * A write in the gap is lost.  The stream scans an empty store, `o` is created and announced, the
   * stream reads the counter: the announcement is not newer, and a client that started with nothing
   * never hears of `o`.
   */
  lemma GapLosesWrite(q: Query, o: Object) returns (run: seq<System>, steps: seq<Step>)
    requires q.from == 0 && forall x: Object :: q.keep(x)
    ensures steps == [Subscribe, Scan([]), Commit(CreateCommand(q.kind, o)), Emit(0), ReadCounter, CatchUp, Receive]
    ensures Lists(run, steps, q, 1, 4) && |run| == 8 && CaughtUp(run[7], q) && run[4].store.counter == 1
    ensures run[7].yielded == [] && Replay(map[], run[7].yielded) == map[]
    ensures View(run[7].store, q.kind) == map[o.meta.name := Stamped(o, 1)]
  {
    hide Leads, View, CreateCommand, Apply, WellNamed, Replay;
    ReplayNone(map[]);
    var cmd, e, s := CreateCommand(q.kind, o), Event(Added, q.kind, Stamped(o, 1)), Holding(q.kind, Stamped(o, 1), 1);
    AfterCreate(q.kind, o);
    ViewOfOne(q.kind, Stamped(o, 1), 1);
    Subscribes(q, EMPTY);
    ScansNothing(q, 0);
    Commits(q, EMPTY, cmd, s, e, [], Watch.Scanned([]), []);
    Emits(q, s, [e], 0, Watch.Scanned([]), [], []);
    Reads(q, s, [e]);
    GoesLive(q, s, 1, [e]);
    Receives(q, s, 1, e, [], []);
    steps := [Subscribe, Scan([]), Commit(cmd), Emit(0), ReadCounter, CatchUp, Receive];
    run := [System(EMPTY, [], Idle, [], false, []),
            System(EMPTY, [], Subscribed, [], false, []),
            System(EMPTY, [], Watch.Scanned([]), [], false, []),
            System(s, [e], Watch.Scanned([]), [], false, []),
            System(s, [], Watch.Scanned([]), [e], false, []),
            System(s, [], CatchingUp([], 1), [e], false, []),
            System(s, [], Live(1), [e], false, []),
            System(s, [], Live(1), [], false, [])];
    Bits(e);
    IsRunFrom(run, steps, q);
  }

  /**
   * With two writers events may overtake each other.  One writer creates `o`, another deletes it, and
   * the delete is announced first: the client ends with an object that is not in the store.
   */
  lemma OvertakingLeavesDeleted(q: Query, o: Object) returns (run: seq<System>, steps: seq<Step>)
    requires q.from == 0 && forall x: Object :: q.keep(x)
    ensures steps == [Subscribe, Scan([]), ReadCounter, CatchUp, Commit(CreateCommand(q.kind, o)),
                      Commit(DeleteCommand(q.kind, o.meta.name, 1)), Emit(1), Emit(0), Receive, Receive]
    ensures Lists(run, steps, q, 1, 2) && |run| == 11 && CaughtUp(run[10], q) && run[2].store.counter == 0
    ensures run[10].yielded == [Event(Deleted, q.kind, Stamped(o, 2)), Event(Added, q.kind, Stamped(o, 1))]
    ensures o.meta.name in Replay(map[], run[10].yielded) && View(run[10].store, q.kind) == map[]
  {
    hide View, IsRun, CreateCommand, DeleteCommand, Replay, Apply;
    var e, f := Event(Added, q.kind, Stamped(o, 1)), Event(Deleted, q.kind, Stamped(o, 2));
    AfterCreate(q.kind, o);
    AfterDelete(q.kind, o);
    ViewOfNone(q.kind, 2);
    run, steps := OvertakingRun(q, Holding(q.kind, Stamped(o, 1), 1), Store(map[], 2), e, f,
                                CreateCommand(q.kind, o), DeleteCommand(q.kind, o.meta.name, 1));
    LastOfTwo(f, e);
    ReplayEntry(map[], [f, e], o.meta.name);
  }

  lemma OvertakingRun(q: Query, s: Store, t: Store, e: Event, f: Event, first: StoreCommand, second: StoreCommand)
    returns (run: seq<System>, steps: seq<Step>)
    requires WellNamed(first) && Apply(EMPTY, first).store == s && Apply(EMPTY, first).event == Some(e)
    requires WellNamed(second) && Apply(s, second).store == t && Apply(s, second).event == Some(f)
    requires e.kind == f.kind == q.kind && VersionOf(e.obj) > 0 && VersionOf(f.obj) > 0 && q.keep(e.obj) && q.keep(f.obj)
    ensures steps == [Subscribe, Scan([]), ReadCounter, CatchUp, Commit(first), Commit(second), Emit(1), Emit(0), Receive, Receive]
    ensures IsRun(run, steps, q) && |run| == 11 && run[2].store == EMPTY && run[10] == System(t, [], Live(0), [], false, [f, e])
  {
    hide Leads, WellNamed, Apply, VersionOf, Without, IsRun;
    Subscribes(q, EMPTY);
    ScansNothing(q, 0);
    Reads(q, EMPTY, []);
    GoesLive(q, EMPTY, 0, []);
    Commits(q, EMPTY, first, s, e, [], Live(0), []);
    Commits(q, s, second, t, f, [e], Live(0), []);
    Emits(q, t, [e, f], 1, Live(0), [], []);
    Emits(q, t, [e], 0, Live(0), [f], []);
    Receives(q, t, 0, f, [e], []);
    Receives(q, t, 0, e, [], [f]);
    Bits(e);
    Bits(f);
    Pairs(e, f);
    steps := [Subscribe, Scan([]), ReadCounter, CatchUp, Commit(first), Commit(second), Emit(1), Emit(0), Receive, Receive];
    run := [System(EMPTY, [], Idle, [], false, []),
            System(EMPTY, [], Subscribed, [], false, []),
            System(EMPTY, [], Watch.Scanned([]), [], false, []),
            System(EMPTY, [], CatchingUp([], 0), [], false, []),
            System(EMPTY, [], Live(0), [], false, []),
            System(s, [e], Live(0), [], false, []),
            System(t, [e, f], Live(0), [], false, []),
            System(t, [e], Live(0), [f], false, []),
            System(t, [], Live(0), [f, e], false, []),
            System(t, [], Live(0), [e], false, [f]),
            System(t, [], Live(0), [], false, [f, e])];
    IsRunFrom(run, steps, q);
  }

  lemma Pairs(e: Event, f: Event)
    ensures [e] + [f] == [e, f] && Without([e, f], 1) == [e] && [f] + [e] == [f, e]
  {
  }

  lemma {:induction false} LastOfTwo(e: Event, f: Event)
    ensures Last([e, f], f.obj.meta.name) == Some(f)
  {
  }

  /**
   * A delete while the client was away is never reported.  The client knew `o` and resumes from its
   * version; the stream has nothing to say about it, and the client keeps it.
   */
  lemma ResumeMissesDelete(q: Query, o: Object) returns (run: seq<System>, steps: seq<Step>)
    requires q.from == 1 && forall x: Object :: q.keep(x)
    ensures steps == [Commit(CreateCommand(q.kind, o)), Emit(0), Commit(DeleteCommand(q.kind, o.meta.name, 1)), Emit(0),
                      Subscribe, Scan([]), ReadCounter, CatchUp]
    ensures Lists(run, steps, q, 5, 6) && |run| == 9 && CaughtUp(run[8], q) && run[6].store.counter == 2
    ensures View(run[2].store, q.kind) == map[o.meta.name := Stamped(o, 1)] && run[2].store.counter == q.from
    ensures run[8].yielded == [] && View(run[8].store, q.kind) == map[]
    ensures Replay(View(run[2].store, q.kind), run[8].yielded) != View(run[8].store, q.kind)
  {
    hide View, IsRun, CreateCommand, DeleteCommand, Apply;
    AfterCreate(q.kind, o);
    AfterDelete(q.kind, o);
    ViewOfOne(q.kind, Stamped(o, 1), 1);
    ViewOfNone(q.kind, 2);
    var held := map[o.meta.name := Stamped(o, 1)];
    ReplayNone(held);
    assert o.meta.name in held;
    run, steps := AwayRun(q, Holding(q.kind, Stamped(o, 1), 1), Event(Added, q.kind, Stamped(o, 1)), Event(Deleted, q.kind, Stamped(o, 2)),
                          CreateCommand(q.kind, o), DeleteCommand(q.kind, o.meta.name, 1));
  }

  lemma AwayRun(q: Query, s: Store, e: Event, f: Event, first: StoreCommand, second: StoreCommand)
    returns (run: seq<System>, steps: seq<Step>)
    requires WellNamed(first) && Apply(EMPTY, first).store == s && Apply(EMPTY, first).event == Some(e)
    requires WellNamed(second) && Apply(s, second).store == Store(map[], 2) && Apply(s, second).event == Some(f)
    requires e.kind == f.kind == q.kind
    ensures steps == [Commit(first), Emit(0), Commit(second), Emit(0), Subscribe, Scan([]), ReadCounter, CatchUp]
    ensures IsRun(run, steps, q) && |run| == 9 && run[2].store == s && run[6].store == Store(map[], 2)
    ensures run[8] == System(Store(map[], 2), [], Live(2), [], false, [])
  {
    hide Leads, WellNamed, Apply, VersionOf, Without, IsRun;
    var t := Store(map[], 2);
    Commits(q, EMPTY, first, s, e, [], Idle, []);
    Emits(q, s, [e], 0, Idle, [], []);
    Commits(q, s, second, t, f, [], Idle, []);
    Emits(q, t, [f], 0, Idle, [], []);
    Subscribes(q, t);
    ScansNothing(q, 2);
    Reads(q, t, []);
    GoesLive(q, t, 2, []);
    Bits(e);
    Bits(f);
    steps := [Commit(first), Emit(0), Commit(second), Emit(0), Subscribe, Scan([]), ReadCounter, CatchUp];
    run := [System(EMPTY, [], Idle, [], false, []),
            System(s, [e], Idle, [], false, []),
            System(s, [], Idle, [], false, []),
            System(t, [f], Idle, [], false, []),
            System(t, [], Idle, [], false, []),
            System(t, [], Subscribed, [], false, []),
            System(t, [], Watch.Scanned([]), [], false, []),
            System(t, [], CatchingUp([], 2), [], false, []),
            System(t, [], Live(2), [], false, [])];
    IsRunFrom(run, steps, q);
  }

  /**
   * A write after which an object no longer matches is held back by the filter, so the client keeps
   * the object as it last matched.
   */
  lemma FilterKeepsStale(q: Query, o: Object, p: Object) returns (run: seq<System>, steps: seq<Step>)
    requires q.from == 0 && p.meta.name == o.meta.name && p.meta.version == Some(1)
    requires q.keep(Stamped(o, 1)) && !q.keep(Respec(q.kind, Stamped(o, 1), p, 2))
    ensures steps == [Subscribe, Scan([]), ReadCounter, CatchUp, Commit(CreateCommand(q.kind, o)), Emit(0), Receive,
                      Commit(ReplaceCommand(q.kind, p)), Emit(0), Receive]
    ensures Lists(run, steps, q, 1, 2) && |run| == 11 && CaughtUp(run[10], q) && run[2].store.counter == 0
    ensures run[10].yielded == [Event(Added, q.kind, Stamped(o, 1))]
    ensures o.meta.name in Replay(map[], run[10].yielded) && o.meta.name !in Matching(q, run[10].store)
  {
    hide View, IsRun, CreateCommand, ReplaceCommand, Respec, Apply, Matching, Replay;
    var stored := Respec(q.kind, Stamped(o, 1), p, 2);
    var e := Event(Added, q.kind, Stamped(o, 1));
    AfterCreate(q.kind, o);
    AfterReplace(q.kind, o, p);
    ViewOfOne(q.kind, stored, 2);
    MatchingEntry(q, Holding(q.kind, stored, 2), o.meta.name);
    run, steps := HeldBackRun(q, Holding(q.kind, Stamped(o, 1), 1), Holding(q.kind, stored, 2), e, Event(Modified, q.kind, stored),
                              CreateCommand(q.kind, o), ReplaceCommand(q.kind, p));
    ReplayOne(map[], e);
  }

  lemma HeldBackRun(q: Query, s: Store, t: Store, e: Event, f: Event, first: StoreCommand, second: StoreCommand)
    returns (run: seq<System>, steps: seq<Step>)
    requires WellNamed(first) && Apply(EMPTY, first).store == s && Apply(EMPTY, first).event == Some(e)
    requires WellNamed(second) && Apply(s, second).store == t && Apply(s, second).event == Some(f)
    requires e.kind == f.kind == q.kind && VersionOf(e.obj) > 0 && q.keep(e.obj) && !q.keep(f.obj)
    ensures steps == [Subscribe, Scan([]), ReadCounter, CatchUp, Commit(first), Emit(0), Receive, Commit(second), Emit(0), Receive]
    ensures IsRun(run, steps, q) && |run| == 11 && run[2].store == EMPTY && run[10] == System(t, [], Live(0), [], false, [e])
  {
    hide Leads, WellNamed, Apply, VersionOf, Without, IsRun;
    Subscribes(q, EMPTY);
    ScansNothing(q, 0);
    Reads(q, EMPTY, []);
    GoesLive(q, EMPTY, 0, []);
    Commits(q, EMPTY, first, s, e, [], Live(0), []);
    Emits(q, s, [e], 0, Live(0), [], []);
    Receives(q, s, 0, e, [], []);
    Commits(q, s, second, t, f, [], Live(0), [e]);
    Emits(q, t, [f], 0, Live(0), [], [e]);
    Receives(q, t, 0, f, [], [e]);
    Bits(e);
    Bits(f);
    steps := [Subscribe, Scan([]), ReadCounter, CatchUp, Commit(first), Emit(0), Receive, Commit(second), Emit(0), Receive];
    run := [System(EMPTY, [], Idle, [], false, []),
            System(EMPTY, [], Subscribed, [], false, []),
            System(EMPTY, [], Watch.Scanned([]), [], false, []),
            System(EMPTY, [], CatchingUp([], 0), [], false, []),
            System(EMPTY, [], Live(0), [], false, []),
            System(s, [e], Live(0), [], false, []),
            System(s, [], Live(0), [e], false, []),
            System(s, [], Live(0), [], false, [e]),
            System(t, [f], Live(0), [], false, [e]),
            System(t, [], Live(0), [f], false, [e]),
            System(t, [], Live(0), [], false, [e])];
    IsRunFrom(run, steps, q);
  }
}

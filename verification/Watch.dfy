/**
 * The list-then-watch stream (src/apiserver/watch.rs) against a store that is being written.
 * Any number of writers each commit a command and then emit its event, so events may be emitted in
 * another order than they were committed.  The stream subscribes, scans the store, reads the counter,
 * replays the scan and forwards newer events, both as far as its query wants them.  All of these
 * steps interleave freely; in particular any number of commands may land between the scan and the
 * counter read, which are two separate steps of `list` (src/apiserver/storage.rs:128-139).
 */
module Watch {
  import opened Options
  import opened ObjectStore
  import opened StoreHistory
  import opened WatchCache

  /** Events a receiver may fall behind before the channel drops the oldest. */
  const CAPACITY: nat := 256

  datatype Phase =
    | Idle
    | Subscribed
    | Scanned(items: seq<Object>)
    | CatchingUp(todo: seq<Object>, snapshot: nat)
    | Live(snapshot: nat)
    | Failed

  /** `pending` is committed but not yet emitted, in order of commit; `channel` is emitted but not yet received. */
  datatype System = System(
    store: Store,
    pending: seq<Event>,
    phase: Phase,
    channel: seq<Event>,
    lagged: bool,
    yielded: seq<Event>)

  datatype Step =
    | Commit(cmd: StoreCommand)
    | Emit(index: nat)
    | Subscribe
    | Scan(items: seq<Object>)
    | ReadCounter
    | CatchUp
    | Receive

  predicate Enabled(s: System, q: Query, step: Step) {
    match step
    case Commit(cmd) => WellNamed(cmd)
    case Emit(i) => i < |s.pending|
    case Subscribe => s.phase.Idle?
    case Scan(items) => s.phase.Subscribed? && Enumerates(items, s.store, q.kind)
    case ReadCounter => s.phase.Scanned?
    case CatchUp => s.phase.CatchingUp?
    case Receive => s.phase.Live? && (s.lagged || s.channel != [])
  }

  /** Sending to a full channel drops the oldest event and the receiver will notice. */
  function Push(s: System, e: Event): System {
    if |s.channel| < CAPACITY then s.(channel := s.channel + [e])
    else s.(channel := s.channel[1..] + [e], lagged := true)
  }

  predicate Listening(s: System) {
    !s.phase.Idle? && !s.phase.Failed?
  }

  function Committed(s: Store, cmd: StoreCommand): seq<Event> {
    var e := Apply(s, cmd).event;
    if e.Some? then [e.value] else []
  }

  function Without(events: seq<Event>, i: nat): seq<Event>
    requires i < |events|
  {
    events[..i] + events[i + 1..]
  }

  function Next(s: System, q: Query, step: Step): System
    requires Enabled(s, q, step)
  {
    match step
    case Commit(cmd) => s.(store := Apply(s.store, cmd).store, pending := s.pending + Committed(s.store, cmd))
    case Emit(i) =>
      var rest := s.(pending := Without(s.pending, i));
      if s.pending[i].kind == q.kind && Listening(s) then Push(rest, s.pending[i]) else rest
    case Subscribe => s.(phase := Subscribed)
    case Scan(items) => s.(phase := Scanned(items))
    case ReadCounter => s.(phase := CatchingUp(s.phase.items, s.store.counter))
    case CatchUp =>
      if s.phase.todo == [] then s.(phase := Live(s.phase.snapshot))
      else
        var o := s.phase.todo[0];
        s.(phase := CatchingUp(s.phase.todo[1..], s.phase.snapshot),
           yielded := if Wanted(q, o) then s.yielded + [Event(Added, q.kind, o)] else s.yielded)
    case Receive =>
      if s.lagged then s.(phase := Failed)
      else
        var e := s.channel[0];
        s.(channel := s.channel[1..],
           yielded := if VersionOf(e.obj) > s.phase.snapshot && q.keep(e.obj) then s.yielded + [e] else s.yielded)
  }

  ghost predicate Init(s: System) {
    Sane(s.store) && s.pending == [] && s.phase.Idle? && s.channel == [] && !s.lagged && s.yielded == []
  }

  ghost predicate IsRun(run: seq<System>, steps: seq<Step>, q: Query) {
    && |run| == |steps| + 1 && Init(run[0])
    && forall k :: 0 <= k < |steps| ==> Enabled(run[k], q, steps[k]) && run[k + 1] == Next(run[k], q, steps[k])
  }

  lemma RunStep(run: seq<System>, steps: seq<Step>, q: Query, k: nat)
    requires IsRun(run, steps, q) && k < |steps|
    ensures |run| == |steps| + 1 && Enabled(run[k], q, steps[k]) && run[k + 1] == Next(run[k], q, steps[k])
  {
  }

  lemma RunLength(run: seq<System>, steps: seq<Step>, q: Query)
    requires IsRun(run, steps, q)
    ensures |run| == |steps| + 1
  {
  }

  lemma InitParts(run: seq<System>, steps: seq<Step>, q: Query)
    requires IsRun(run, steps, q)
    ensures |run| == |steps| + 1 && Init(run[0])
  {
  }

  /** Nobody waits for anybody: writers commit and emit whenever they like, and the stream takes its next
      step whatever the writers are doing. */
  lemma FreeToInterleave(s: System, q: Query)
    ensures forall cmd :: WellNamed(cmd) ==> Enabled(s, q, Commit(cmd))
    ensures forall i: nat :: i < |s.pending| ==> Enabled(s, q, Emit(i))
    ensures s.phase.Idle? ==> Enabled(s, q, Subscribe)
    ensures s.phase.Subscribed? ==> forall items :: Enumerates(items, s.store, q.kind) ==> Enabled(s, q, Scan(items))
    ensures s.phase.Scanned? ==> Enabled(s, q, ReadCounter)
    ensures s.phase.CatchingUp? ==> Enabled(s, q, CatchUp)
    ensures s.phase.Live? && (s.lagged || s.channel != []) ==> Enabled(s, q, Receive)
  {
  }

  // ---- what a run wrote and what it sent ----

  /** The events of the kind that steps `i` up to `j` committed, in order. */
  function Changes(run: seq<System>, steps: seq<Step>, i: nat, j: nat, kind: Kind): seq<Event>
    requires i <= j <= |steps| < |run|
  {
    if i == j then []
    else
      Changes(run, steps, i, j - 1, kind)
      + (if steps[j - 1].Commit? then Emitted(run[j - 1].store, steps[j - 1].cmd, kind) else [])
  }

  /** The events that step `j` emitted. */
  function SentBy(s: System, step: Step): seq<Event> {
    if step.Emit? && step.index < |s.pending| then [s.pending[step.index]] else []
  }

  /** The events that steps `i` up to `j` emitted, in the order in which they were emitted. */
  function Sent(run: seq<System>, steps: seq<Step>, i: nat, j: nat): seq<Event>
    requires i <= j <= |steps| < |run|
  {
    if i == j then [] else Sent(run, steps, i, j - 1) + SentBy(run[j - 1], steps[j - 1])
  }

  lemma StepStore(s: System, q: Query, step: Step)
    requires Enabled(s, q, step)
    ensures !step.Commit? ==> Next(s, q, step).store == s.store
    ensures step.Commit? ==> Next(s, q, step).store == Apply(s.store, step.cmd).store && WellNamed(step.cmd)
  {
    hide Apply, WellNamed, Enumerates;
  }

  lemma {:induction false} RunSane(run: seq<System>, steps: seq<Step>, q: Query, k: nat)
    requires IsRun(run, steps, q) && k < |run|
    ensures Sane(run[k].store)
  {
    if k == 0 {
      InitParts(run, steps, q);
    } else {
      hide Sane, Next, Enabled, IsRun, Apply;
      RunLength(run, steps, q);
      RunSane(run, steps, q, k - 1);
      RunStep(run, steps, q, k - 1);
      StepStore(run[k - 1], q, steps[k - 1]);
      if steps[k - 1].Commit? {
        StaysSane(run[k - 1].store, steps[k - 1].cmd);
      }
    }
  }

  lemma {:induction false} CounterGrows(run: seq<System>, steps: seq<Step>, q: Query, i: nat, k: nat)
    requires IsRun(run, steps, q) && i <= k < |run|
    ensures run[i].store.counter <= run[k].store.counter
    decreases k
  {
    hide Sane, Next, Enabled, IsRun, Apply;
    if i < k {
      RunLength(run, steps, q);
      CounterGrows(run, steps, q, i, k - 1);
      RunSane(run, steps, q, k - 1);
      RunStep(run, steps, q, k - 1);
      StepStore(run[k - 1], q, steps[k - 1]);
      if steps[k - 1].Commit? {
        StaysSane(run[k - 1].store, steps[k - 1].cmd);
      }
    }
  }

  /** The view at any moment is the view at an earlier one with the events written since replayed. */
  lemma {:induction false} ViewIsReplay(run: seq<System>, steps: seq<Step>, q: Query, i: nat, j: nat)
    requires IsRun(run, steps, q) && i <= j < |run|
    ensures |run| == |steps| + 1
    ensures View(run[j].store, q.kind) == Replay(View(run[i].store, q.kind), Changes(run, steps, i, j, q.kind))
    decreases j
  {
    hide View, Sane, NamesMatch, Next, Enabled, IsRun, Apply, Replay, Emitted;
    RunLength(run, steps, q);
    if i == j {
      ReplayNone(View(run[i].store, q.kind));
    } else {
      ViewIsReplay(run, steps, q, i, j - 1);
      RunSane(run, steps, q, j - 1);
      SaneParts(run[j - 1].store);
      RunStep(run, steps, q, j - 1);
      var step, before := steps[j - 1], Changes(run, steps, i, j - 1, q.kind);
      StepStore(run[j - 1], q, step);
      assert before + [] == before;
      if step.Commit? {
        CommitView(run[j - 1].store, step.cmd, q.kind);
        ReplayConcat(View(run[i].store, q.kind), before, Emitted(run[j - 1].store, step.cmd, q.kind));
      }
    }
  }

  // ---- which names a stretch of the run changed ----

  /** Every event of a stretch carries a version of its own, above the counter at its start. */
  lemma {:induction false} WrittenVersions(run: seq<System>, steps: seq<Step>, q: Query, i: nat, j: nat, x: nat)
    requires IsRun(run, steps, q) && i <= j < |run| && run[j].store.counter < U64_MAX
    requires x < |Changes(run, steps, i, j, q.kind)|
    ensures var es := Changes(run, steps, i, j, q.kind);
      && run[i].store.counter < VersionOf(es[x].obj) <= run[j].store.counter
      && forall y :: 0 <= y < x ==> VersionOf(es[y].obj) < VersionOf(es[x].obj)
    decreases j
  {
    hide Sane, NamesMatch, Next, Enabled, IsRun, Apply, Emitted;
    RunLength(run, steps, q);
    CounterGrows(run, steps, q, i, j - 1);
    CounterGrows(run, steps, q, j - 1, j);
    RunSane(run, steps, q, j - 1);
    SaneParts(run[j - 1].store);
    RunStep(run, steps, q, j - 1);
    var early := Changes(run, steps, i, j - 1, q.kind);
    StepStore(run[j - 1], q, steps[j - 1]);
    if x < |early| {
      WrittenVersions(run, steps, q, i, j - 1, x);
    } else {
      EmittedIs(run[j - 1].store, steps[j - 1].cmd, q.kind);
      forall y | 0 <= y < x
        ensures VersionOf(early[y].obj) <= run[j - 1].store.counter
      {
        WrittenVersions(run, steps, q, i, j - 1, y);
      }
    }
  }

  /** A name a stretch wrote, if it is stored afterwards, has a version from within the stretch. */
  lemma {:induction false} WrittenIsNew(run: seq<System>, steps: seq<Step>, q: Query, i: nat, j: nat, n: string)
    requires IsRun(run, steps, q) && i <= j < |run| && run[j].store.counter < U64_MAX
    ensures |run| == |steps| + 1
    ensures var v, w, es := View(run[i].store, q.kind), View(run[j].store, q.kind), Changes(run, steps, i, j, q.kind);
      && (!Mentions(es, n) ==> Entry(w, n) == Entry(v, n))
      && (Mentions(es, n) && n in w ==> run[i].store.counter < VersionOf(w[n]))
  {
    hide Changes, Last, View, Replay, Sane, IsRun, VersionOf;
    RunLength(run, steps, q);
    var v, w, es := View(run[i].store, q.kind), View(run[j].store, q.kind), Changes(run, steps, i, j, q.kind);
    ViewIsReplay(run, steps, q, i, j);
    ReplayEntry(v, es, n);
    if Mentions(es, n) && n in w {
      LastIs(es, n);
      var x :| 0 <= x < |es| && es[x] == Last(es, n).value;
      WrittenVersions(run, steps, q, i, j, x);
    }
  }

  /**
   * A stretch of the run leaves a name as it was exactly when it did not write it, or when the name
   * is absent at both ends (created and deleted again).
   */
  lemma {:induction false} StretchKeeps(run: seq<System>, steps: seq<Step>, q: Query, i: nat, j: nat, n: string)
    requires IsRun(run, steps, q) && i <= j < |run| && run[j].store.counter < U64_MAX
    ensures |run| == |steps| + 1
    ensures var v, w := View(run[i].store, q.kind), View(run[j].store, q.kind);
      Entry(v, n) == Entry(w, n) <==> !Mentions(Changes(run, steps, i, j, q.kind), n) || (n !in v && n !in w)
  {
    hide Changes, Mentions, View, Sane, IsRun, VersionOf;
    WrittenIsNew(run, steps, q, i, j, n);
    if n in View(run[i].store, q.kind) {
      RunSane(run, steps, q, i);
      ViewVersion(run[i].store, q.kind, n);
    }
  }

  // ---- the phases come in order ----

  function Rank(p: Phase): nat {
    match p
    case Idle => 0
    case Subscribed => 1
    case Scanned(_) => 2
    case CatchingUp(_, _) => 3
    case Live(_) => 4
    case Failed => 5
  }

  lemma RankStep(s: System, q: Query, step: Step)
    requires Enabled(s, q, step)
    ensures Rank(s.phase) <= Rank(Next(s, q, step).phase)
    ensures s.phase.Scanned? && !step.ReadCounter? ==> Next(s, q, step).phase == s.phase
  {
    hide Apply, WellNamed, Enumerates;
  }

  lemma {:induction false} RanksRise(run: seq<System>, steps: seq<Step>, q: Query, i: nat, j: nat)
    requires IsRun(run, steps, q) && i <= j < |run|
    ensures Rank(run[i].phase) <= Rank(run[j].phase)
    decreases j
  {
    hide Next, Enabled, IsRun, Rank;
    if i < j {
      RunLength(run, steps, q);
      RanksRise(run, steps, q, i, j - 1);
      RunStep(run, steps, q, j - 1);
      RankStep(run[j - 1], q, steps[j - 1]);
    }
  }

  /** Between the scan and the counter read the stream does nothing but hold what it scanned. */
  lemma {:induction false} HoldsScan(run: seq<System>, steps: seq<Step>, q: Query, a: nat, j: nat)
    requires IsRun(run, steps, q) && a < j < |run| && steps[a].Scan? && run[j].phase.Scanned?
    ensures run[j].phase.items == steps[a].items
    decreases j
  {
    hide IsRun, Enabled, Next;
    RunLength(run, steps, q);
    ScanPhase(run, steps, q, a);
    if a + 1 < j {
      RanksRise(run, steps, q, a + 1, j - 1);
      RanksRise(run, steps, q, j - 1, j);
      RunStep(run, steps, q, j - 1);
      ReadLeaves(run[j - 1], q, steps[j - 1]);
      HoldsScan(run, steps, q, a, j - 1);
      RankStep(run[j - 1], q, steps[j - 1]);
    }
  }

  lemma ScanPhase(run: seq<System>, steps: seq<Step>, q: Query, a: nat)
    requires IsRun(run, steps, q) && a < |steps| && steps[a].Scan?
    ensures a + 1 < |run| && run[a].phase.Subscribed? && run[a + 1].phase == Scanned(steps[a].items)
  {
    RunStep(run, steps, q, a);
  }

  lemma ReadLeaves(s: System, q: Query, step: Step)
    requires Enabled(s, q, step)
    ensures step.ReadCounter? ==> s.phase.Scanned? && !Next(s, q, step).phase.Scanned?
  {
    hide Apply, WellNamed, Enumerates;
  }

  /** A stream has one scan and one counter read after it. */
  lemma ScanThenRead(run: seq<System>, steps: seq<Step>, q: Query, a: nat, r: nat)
    requires IsRun(run, steps, q) && a < |steps| && r < |steps| && steps[a].Scan? && steps[r].ReadCounter?
    ensures a < r && run[r].phase == Scanned(steps[a].items)
  {
    hide IsRun, Enabled, Next;
    RunLength(run, steps, q);
    ScanPhase(run, steps, q, a);
    RunStep(run, steps, q, r);
    ReadLeaves(run[r], q, steps[r]);
    RankStep(run[r], q, steps[r]);
    if r < a {
      RanksRise(run, steps, q, r + 1, a);
    }
    HoldsScan(run, steps, q, a, r);
  }

  /** A stream that is live has scanned and read the counter, in that order. */
  lemma {:induction false} LiveHasListed(run: seq<System>, steps: seq<Step>, q: Query, k: nat) returns (a: nat, r: nat)
    requires IsRun(run, steps, q) && k < |run| && Rank(run[k].phase) >= 2
    ensures a < k && a < |steps| && steps[a].Scan?
    ensures Rank(run[k].phase) >= 3 ==> a < r < k && r < |steps| && steps[r].ReadCounter?
    decreases k
  {
    hide IsRun, Next, Enabled, Rank;
    InitRank(run, steps, q);
    RunStep(run, steps, q, k - 1);
    RankMoves(run[k - 1], q, steps[k - 1]);
    a, r := 0, 0;
    if Rank(run[k - 1].phase) < 2 {
      a := k - 1;
    } else {
      a, r := LiveHasListed(run, steps, q, k - 1);
      if Rank(run[k].phase) >= 3 && Rank(run[k - 1].phase) < 3 {
        r := k - 1;
      }
    }
  }

  lemma InitRank(run: seq<System>, steps: seq<Step>, q: Query)
    requires IsRun(run, steps, q)
    ensures |run| == |steps| + 1 && Rank(run[0].phase) == 0
  {
  }

  /** Only a scan leads to the second rank and only a counter read to the third. */
  lemma RankMoves(s: System, q: Query, step: Step)
    requires Enabled(s, q, step)
    ensures Rank(s.phase) < 2 <= Rank(Next(s, q, step).phase) ==> step.Scan? && Rank(Next(s, q, step).phase) == 2
    ensures Rank(s.phase) < 3 <= Rank(Next(s, q, step).phase) ==> step.ReadCounter?
  {
    hide Apply, WellNamed, Enumerates;
  }

  // ---- nothing on its way is ahead of the counter ----

  predicate OfKind(events: seq<Event>, kind: Kind) {
    forall i :: 0 <= i < |events| ==> events[i].kind == kind
  }

  predicate Behind(s: System, q: Query) {
    UpTo(s.channel, s.store.counter) && UpTo(s.pending, s.store.counter) && OfKind(s.channel, q.kind)
  }

  lemma CommitBehind(s: System, q: Query, cmd: StoreCommand)
    requires Enabled(s, q, Commit(cmd)) && Sane(s.store) && Behind(s, q)
    ensures Behind(Next(s, q, Commit(cmd)), q)
  {
    StaysSane(s.store, cmd);
    SaneParts(s.store);
    EmittedIs(s.store, cmd, q.kind);
    hide Apply, WellNamed, Sane, NamesMatch, WriteShape, Emitted;
  }

  lemma EmitBehind(s: System, q: Query, i: nat)
    requires Enabled(s, q, Emit(i)) && Behind(s, q)
    ensures Behind(Next(s, q, Emit(i)), q)
  {
  }

  lemma StepBehind(s: System, q: Query, step: Step)
    requires Enabled(s, q, step) && Sane(s.store) && Behind(s, q)
    ensures Behind(Next(s, q, step), q)
  {
    if step.Commit? {
      CommitBehind(s, q, step.cmd);
    } else if step.Emit? {
      EmitBehind(s, q, step.index);
    }
    hide Apply, WellNamed, Sane, Enumerates, Push;
  }

  lemma {:induction false} RunBehind(run: seq<System>, steps: seq<Step>, q: Query, k: nat)
    requires IsRun(run, steps, q) && k < |run|
    ensures Behind(run[k], q)
  {
    if k == 0 {
      InitParts(run, steps, q);
    } else {
      hide Sane, Behind, Next, Enabled, IsRun;
      RunLength(run, steps, q);
      RunBehind(run, steps, q, k - 1);
      RunSane(run, steps, q, k - 1);
      RunStep(run, steps, q, k - 1);
      StepBehind(run[k - 1], q, steps[k - 1]);
    }
  }

  /**
   * A receiver may fall 256 events behind and no further: the channel never holds more, and the stream
   * lags exactly from the moment one more is sent to it than it holds.
   */
  lemma LagStep(s: System, q: Query, step: Step)
    requires Enabled(s, q, step) && |s.channel| <= 256
    ensures var t := Next(s, q, step);
      && |t.channel| <= 256
      && (t.lagged <==> s.lagged || (|s.channel| == 256 && Listening(s) && step.Emit? && s.pending[step.index].kind == q.kind))
      && (t.phase.Failed? <==> s.phase.Failed? || (s.lagged && step.Receive?))
  {
    hide Apply, WellNamed, Enumerates, Committed, Without;
  }

  /** So a stream that keeps up is never ended. */
  lemma {:induction false} KeepsUp(run: seq<System>, steps: seq<Step>, q: Query, k: nat)
    requires IsRun(run, steps, q) && k < |run| && forall i :: 0 <= i < k ==> |run[i].channel| < 256
    ensures !run[k].lagged && !run[k].phase.Failed? && |run[k].channel| <= 256
  {
    if k == 0 {
      InitParts(run, steps, q);
    } else {
      hide IsRun, Enabled, Next;
      RunLength(run, steps, q);
      KeepsUp(run, steps, q, k - 1);
      RunStep(run, steps, q, k - 1);
      LagStep(run[k - 1], q, steps[k - 1]);
    }
  }

  // ---- every event is sent once ----

  lemma {:induction false} TakeOut(kind: Kind, c: nat, events: seq<Event>, i: nat)
    requires i < |events|
    ensures multiset(Recent(kind, c, events)) == multiset(Recent(kind, c, Without(events, i))) + multiset(Recent(kind, c, [events[i]]))
    ensures i == 0 ==> Recent(kind, c, events) == Recent(kind, c, [events[0]]) + Recent(kind, c, Without(events, 0))
  {
    hide Recent;
    var a, e, b := events[..i], [events[i]], events[i + 1..];
    assert events == (a + e) + b;
    RecentConcat(kind, c, a + e, b);
    RecentConcat(kind, c, a, e);
    RecentConcat(kind, c, a, b);
    if i == 0 {
      assert a + e == e && a + b == b;
    }
  }

  /** Every event committed since `c` was read has been emitted or still waits to be. */
  predicate Balanced(sent: seq<Event>, pending: seq<Event>, written: seq<Event>, kind: Kind, c: nat) {
    multiset(Recent(kind, c, sent)) + multiset(Recent(kind, c, pending)) == multiset(written)
  }

  /** The same, in order. */
  predicate Aligned(sent: seq<Event>, pending: seq<Event>, written: seq<Event>, kind: Kind, c: nat) {
    Recent(kind, c, sent) + Recent(kind, c, pending) == written
  }

  /** What a commit adds to the pending events is what it wrote, as far as it is of the kind. */
  lemma {:induction false} CommitRecent(s: Store, cmd: StoreCommand, kind: Kind, c: nat)
    requires NamesMatch(s) && WellNamed(cmd) && c <= s.counter && c < U64_MAX
    ensures Recent(kind, c, Committed(s, cmd)) == Emitted(s, cmd, kind)
  {
    EmittedIs(s, cmd, kind);
    hide Apply, WellNamed, NamesMatch, Emitted, Recent, WriteShape;
    if Apply(s, cmd).event.Some? {
      RecentOne(kind, c, Apply(s, cmd).event.value);
    } else {
      NothingRecent(kind, c, []);
    }
  }

  lemma {:induction false} CommitMoves(s: System, q: Query, cmd: StoreCommand, c: nat)
    requires Enabled(s, q, Commit(cmd)) && Sane(s.store) && c <= s.store.counter && c < U64_MAX
    ensures Recent(q.kind, c, Next(s, q, Commit(cmd)).pending) == Recent(q.kind, c, s.pending) + Emitted(s.store, cmd, q.kind)
  {
    StepPending(s, q, Commit(cmd));
    SaneParts(s.store);
    CommitEnabled(s, q, cmd);
    hide Next, Enabled, Sane, NamesMatch, Recent, Emitted, Committed;
    CommitRecent(s.store, cmd, q.kind, c);
    RecentConcat(q.kind, c, s.pending, Committed(s.store, cmd));
  }

  lemma BagGains(x: seq<Event>, p: seq<Event>, w: seq<Event>, e: seq<Event>)
    requires multiset(x) + multiset(p) == multiset(w)
    ensures multiset(x) + multiset(p + e) == multiset(w + e)
  {
    assert multiset(p + e) == multiset(p) + multiset(e) && multiset(w + e) == multiset(w) + multiset(e);
  }

  lemma BagMoves(x: seq<Event>, p: seq<Event>, w: seq<Event>, e: seq<Event>, rest: seq<Event>)
    requires multiset(x) + multiset(p) == multiset(w) && multiset(p) == multiset(rest) + multiset(e)
    ensures multiset(x + e) + multiset(rest) == multiset(w)
  {
    assert multiset(x + e) == multiset(x) + multiset(e);
  }

  /** A commit makes its event pending, an emit takes one from there. */
  lemma StepBalanced(s: System, q: Query, step: Step, c: nat, sent: seq<Event>, written: seq<Event>)
    requires Enabled(s, q, step) && Sane(s.store) && c <= s.store.counter && c < U64_MAX
    requires Balanced(sent, s.pending, written, q.kind, c)
    ensures Balanced(sent + SentBy(s, step), Next(s, q, step).pending,
                     written + (if step.Commit? then Emitted(s.store, step.cmd, q.kind) else []), q.kind, c)
  {
    StepPending(s, q, step);
    hide Next, Enabled, Sane, Recent, Emitted, Committed, Without, SentBy;
    assert sent + [] == sent && written + [] == written;
    if step.Commit? {
      CommitMoves(s, q, step.cmd, c);
      BagGains(Recent(q.kind, c, sent), Recent(q.kind, c, s.pending), written, Emitted(s.store, step.cmd, q.kind));
    } else if step.Emit? {
      RecentConcat(q.kind, c, sent, SentBy(s, step));
      TakeOut(q.kind, c, s.pending, step.index);
      BagMoves(Recent(q.kind, c, sent), Recent(q.kind, c, s.pending), written, Recent(q.kind, c, SentBy(s, step)),
               Recent(q.kind, c, Without(s.pending, step.index)));
    }
  }

  lemma CommitEnabled(s: System, q: Query, cmd: StoreCommand)
    requires Enabled(s, q, Commit(cmd))
    ensures WellNamed(cmd)
  {
  }

  lemma StepPending(s: System, q: Query, step: Step)
    requires Enabled(s, q, step)
    ensures step.Commit? ==> Next(s, q, step).pending == s.pending + Committed(s.store, step.cmd) && SentBy(s, step) == []
    ensures step.Emit? ==>
      step.index < |s.pending| && Next(s, q, step).pending == Without(s.pending, step.index) && SentBy(s, step) == [s.pending[step.index]]
    ensures !step.Commit? && !step.Emit? ==> Next(s, q, step).pending == s.pending && SentBy(s, step) == []
  {
    hide Apply, WellNamed, Enumerates, Committed, Without;
  }

  lemma StepAligned(s: System, q: Query, step: Step, c: nat, sent: seq<Event>, written: seq<Event>)
    requires Enabled(s, q, step) && Sane(s.store) && c <= s.store.counter && c < U64_MAX
    requires Aligned(sent, s.pending, written, q.kind, c) && (step.Emit? ==> step.index == 0)
    ensures Aligned(sent + SentBy(s, step), Next(s, q, step).pending,
                    written + (if step.Commit? then Emitted(s.store, step.cmd, q.kind) else []), q.kind, c)
  {
    StepPending(s, q, step);
    hide Next, Enabled, Sane, Recent, Emitted, Committed, Without, SentBy;
    assert sent + [] == sent && written + [] == written;
    if step.Commit? {
      CommitMoves(s, q, step.cmd, c);
      Regroup(Recent(q.kind, c, sent), Recent(q.kind, c, s.pending), Emitted(s.store, step.cmd, q.kind));
    } else if step.Emit? {
      RecentConcat(q.kind, c, sent, SentBy(s, step));
      TakeOut(q.kind, c, s.pending, 0);
      Regroup(Recent(q.kind, c, sent), Recent(q.kind, c, SentBy(s, step)), Recent(q.kind, c, Without(s.pending, 0)));
    }
  }

  /** From moment `r` on: every event written since has been sent or is pending, and no other recent one. */
  lemma {:induction false} RunBalanced(run: seq<System>, steps: seq<Step>, q: Query, r: nat, k: nat)
    requires IsRun(run, steps, q) && r <= k < |run| && run[r].store.counter < U64_MAX
    ensures |run| == |steps| + 1
    ensures Balanced(Sent(run, steps, r, k), run[k].pending, Changes(run, steps, r, k, q.kind), q.kind, run[r].store.counter)
    decreases k
  {
    hide Balanced, Next, Enabled, IsRun, Sane, Emitted, SentBy, Behind;
    RunLength(run, steps, q);
    if r == k {
      StartBalanced(run, steps, q, r);
    } else {
      RunStep(run, steps, q, k - 1);
      RunSane(run, steps, q, k - 1);
      CounterGrows(run, steps, q, r, k - 1);
      RunBalanced(run, steps, q, r, k - 1);
      StepBalanced(run[k - 1], q, steps[k - 1], run[r].store.counter, Sent(run, steps, r, k - 1), Changes(run, steps, r, k - 1, q.kind));
    }
  }

  lemma StartBalanced(run: seq<System>, steps: seq<Step>, q: Query, r: nat)
    requires IsRun(run, steps, q) && r < |run|
    ensures Balanced([], run[r].pending, [], q.kind, run[r].store.counter)
    ensures Aligned([], run[r].pending, [], q.kind, run[r].store.counter)
  {
    RunBehind(run, steps, q, r);
    hide Recent, IsRun;
    NothingRecent(q.kind, run[r].store.counter, []);
    NothingRecent(q.kind, run[r].store.counter, run[r].pending);
  }

  /** From step `r` up to `k` events are emitted in the order in which they were committed. */
  predicate EmitsInOrder(steps: seq<Step>, r: nat, k: nat)
    requires r <= k <= |steps|
  {
    forall i :: r <= i < k && steps[i].Emit? ==> steps[i].index == 0
  }

  lemma {:induction false} RunAligned(run: seq<System>, steps: seq<Step>, q: Query, r: nat, k: nat)
    requires IsRun(run, steps, q) && r <= k < |run| && run[r].store.counter < U64_MAX
    requires k <= |steps| && EmitsInOrder(steps, r, k)
    ensures |run| == |steps| + 1
    ensures Aligned(Sent(run, steps, r, k), run[k].pending, Changes(run, steps, r, k, q.kind), q.kind, run[r].store.counter)
    decreases k
  {
    hide Aligned, Next, Enabled, IsRun, Sane, Emitted, SentBy, Behind;
    RunLength(run, steps, q);
    if r == k {
      StartBalanced(run, steps, q, r);
    } else {
      RunStep(run, steps, q, k - 1);
      RunSane(run, steps, q, k - 1);
      CounterGrows(run, steps, q, r, k - 1);
      RunAligned(run, steps, q, r, k - 1);
      StepAligned(run[k - 1], q, steps[k - 1], run[r].store.counter, Sent(run, steps, r, k - 1), Changes(run, steps, r, k - 1, q.kind));
    }
  }

  /** One writer, that emits each event before it commits again, emits in order. */
  lemma {:induction false} OneWriterInOrder(run: seq<System>, steps: seq<Step>, q: Query, k: nat)
    requires IsRun(run, steps, q) && k <= |steps|
    requires forall i :: 0 <= i < k && steps[i].Commit? ==> run[i].pending == []
    ensures |run| == |steps| + 1 && |run[k].pending| <= 1 && EmitsInOrder(steps, 0, k)
    decreases k
  {
    hide Next, Enabled, IsRun, Apply;
    InitParts(run, steps, q);
    if k > 0 {
      OneWriterInOrder(run, steps, q, k - 1);
      RunStep(run, steps, q, k - 1);
      StepPending(run[k - 1], q, steps[k - 1]);
    }
  }

  // ---- the story the stream tells ----

  /** The counter has been read. */
  predicate Listed(s: System) {
    s.phase.CatchingUp? || s.phase.Live?
  }

  /** What the stream has yielded or will yield of its scan. */
  function Told(s: System, q: Query): seq<Event> {
    if s.phase.CatchingUp? then s.yielded + Additions(q.kind, Chosen(q, s.phase.todo)) else s.yielded
  }

  /** Everything the stream has yielded or will yield if nothing more is emitted. */
  function Story(s: System, q: Query): seq<Event>
    requires Listed(s)
  {
    Told(s, q) + Forwarded(q, s.phase.snapshot, s.channel)
  }

  lemma Regroup(a: seq<Event>, b: seq<Event>, c: seq<Event>)
    ensures a + (b + c) == (a + b) + c
  {
  }

  /** Before the counter is read nothing is yielded. */
  lemma {:induction false} SilentBefore(run: seq<System>, steps: seq<Step>, q: Query, k: nat)
    requires IsRun(run, steps, q) && k < |run| && Rank(run[k].phase) <= 2
    ensures run[k].yielded == []
  {
    if k == 0 {
      InitParts(run, steps, q);
    } else {
      hide IsRun, Enabled, Next;
      RunLength(run, steps, q);
      RanksRise(run, steps, q, k - 1, k);
      SilentBefore(run, steps, q, k - 1);
      RunStep(run, steps, q, k - 1);
      SilentStep(run[k - 1], q, steps[k - 1]);
    }
  }

  lemma SilentStep(s: System, q: Query, step: Step)
    requires Enabled(s, q, step) && Rank(s.phase) <= 2
    ensures Next(s, q, step).yielded == s.yielded
  {
    hide Apply, WellNamed, Enumerates;
  }

  /** Emitting extends the story by the event if the stream forwards it, or makes the stream lag. */
  lemma EmitStory(s: System, q: Query, i: nat)
    requires Listed(s) && Enabled(s, q, Emit(i))
    ensures var t := Next(s, q, Emit(i));
      && t.phase == s.phase && t.yielded == s.yielded && (s.lagged ==> t.lagged)
      && (!t.lagged ==> Story(t, q) == Story(s, q) + Forwarded(q, s.phase.snapshot, [s.pending[i]]))
  {
    hide Forwarded, Additions, Chosen;
    var t, c, e := Next(s, q, Emit(i)), s.phase.snapshot, s.pending[i];
    ForwardedOne(q, c, e);
    if !t.lagged {
      if e.kind == q.kind {
        ForwardedConcat(q, c, s.channel, [e]);
        Regroup(Told(s, q), Forwarded(q, c, s.channel), Forwarded(q, c, [e]));
      } else {
        assert Story(s, q) + [] == Story(s, q);
      }
    }
  }

  lemma CatchUpStory(s: System, q: Query)
    requires Enabled(s, q, CatchUp)
    ensures var t := Next(s, q, CatchUp);
      && Listed(t) && t.phase.snapshot == s.phase.snapshot && t.lagged == s.lagged && t.channel == s.channel
      && Told(t, q) == Told(s, q)
  {
    var todo := s.phase.todo;
    if todo == [] {
      assert s.yielded + Additions(q.kind, Chosen(q, todo)) == s.yielded;
    } else {
      ChosenStep(q, todo);
      hide Additions, Chosen;
      var rest := Additions(q.kind, Chosen(q, todo[1..]));
      if Wanted(q, todo[0]) {
        Regroup(s.yielded, [Event(Added, q.kind, todo[0])], rest);
      }
    }
  }

  lemma {:induction false} ChosenStep(q: Query, items: seq<Object>)
    requires items != []
    ensures Additions(q.kind, Chosen(q, items))
            == (if Wanted(q, items[0]) then [Event(Added, q.kind, items[0])] else []) + Additions(q.kind, Chosen(q, items[1..]))
  {
  }

  lemma ReceiveStory(s: System, q: Query)
    requires Enabled(s, q, Receive) && !s.lagged && OfKind(s.channel, q.kind)
    ensures var t := Next(s, q, Receive); t.phase == s.phase && !t.lagged && Story(t, q) == Story(s, q)
  {
    var t := Next(s, q, Receive);
    var e, c := s.channel[0], s.phase.snapshot;
    hide Forwarded;
    assert s.channel == [e] + t.channel;
    ForwardedConcat(q, c, [e], t.channel);
    ForwardedOne(q, c, e);
    assert s.yielded + [] == s.yielded;
    Regroup(s.yielded, Forwarded(q, c, [e]), Forwarded(q, c, t.channel));
  }

  /**
   * The invariant after the counter read: with `scan` the items scanned and `sent` the events emitted
   * since, the story is what the query wants of the scan and then of those events, and what was
   * yielded is a prefix of that.
   */
  ghost predicate Tells(s: System, q: Query, c: nat, scan: seq<Object>, sent: seq<Event>) {
    var told, more := Additions(q.kind, Chosen(q, scan)), Forwarded(q, c, sent);
    && Rank(s.phase) >= 3
    && (Listed(s) ==> s.phase.snapshot == c)
    && (s.phase.CatchingUp? ==> Told(s, q) == told)
    && (Listed(s) && !s.lagged ==> Story(s, q) == told + more)
    && s.yielded <= told + more
  }

  lemma ReadTells(s: System, q: Query)
    requires Enabled(s, q, ReadCounter) && Behind(s, q) && s.yielded == []
    ensures Tells(Next(s, q, ReadCounter), q, s.store.counter, s.phase.items, [])
  {
    NothingForwarded(q, s.store.counter, s.channel);
    NothingForwarded(q, s.store.counter, []);
    hide Additions, Chosen, Forwarded;
    var t := Next(s, q, ReadCounter);
    assert [] + Additions(q.kind, Chosen(q, s.phase.items)) == Additions(q.kind, Chosen(q, s.phase.items));
  }

  lemma NothingForwarded(q: Query, c: nat, events: seq<Event>)
    requires UpTo(events, c)
    ensures Forwarded(q, c, events) == []
  {
    hide Recent;
    NothingRecent(q.kind, c, events);
  }

  lemma PrefixGrows(y: seq<Event>, a: seq<Event>, more: seq<Event>)
    requires y <= a
    ensures y <= a + more
  {
  }

  lemma CommitTells(s: System, q: Query, cmd: StoreCommand, c: nat, scan: seq<Object>, sent: seq<Event>)
    requires Tells(s, q, c, scan, sent) && Enabled(s, q, Commit(cmd))
    ensures Tells(Next(s, q, Commit(cmd)), q, c, scan, sent)
  {
    hide Apply, WellNamed, Forwarded, Additions, Chosen;
  }

  lemma EmitTells(s: System, q: Query, i: nat, c: nat, scan: seq<Object>, sent: seq<Event>)
    requires Tells(s, q, c, scan, sent) && Enabled(s, q, Emit(i))
    ensures Tells(Next(s, q, Emit(i)), q, c, scan, sent + [s.pending[i]])
  {
    hide Forwarded, Additions, Chosen, Story, Told, Without;
    var told, more, e := Additions(q.kind, Chosen(q, scan)), Forwarded(q, c, sent), [s.pending[i]];
    EmitTold(s, q, i);
    ForwardedConcat(q, c, sent, e);
    Regroup(told, more, Forwarded(q, c, e));
    PrefixGrows(s.yielded, told + more, Forwarded(q, c, e));
    if Listed(s) {
      EmitStory(s, q, i);
    }
  }

  lemma EmitTold(s: System, q: Query, i: nat)
    requires Enabled(s, q, Emit(i))
    ensures var t := Next(s, q, Emit(i)); t.phase == s.phase && t.yielded == s.yielded && Told(t, q) == Told(s, q)
  {
    hide Additions, Chosen, Without;
  }

  lemma CatchUpTells(s: System, q: Query, c: nat, scan: seq<Object>, sent: seq<Event>)
    requires Tells(s, q, c, scan, sent) && Enabled(s, q, CatchUp)
    ensures Tells(Next(s, q, CatchUp), q, c, scan, sent)
  {
    hide Forwarded, Told, Additions, Chosen, Next, Enabled;
    CatchUpPhase(s, q);
    CatchUpStory(s, q);
    var t := Next(s, q, CatchUp);
    YieldedIsTold(t, q);
    PrefixGrows(t.yielded, Additions(q.kind, Chosen(q, scan)), Forwarded(q, c, sent));
  }

  lemma CatchUpPhase(s: System, q: Query)
    requires Enabled(s, q, CatchUp)
    ensures s.phase.CatchingUp? && Listed(Next(s, q, CatchUp))
  {
  }

  lemma YieldedIsTold(s: System, q: Query)
    ensures s.yielded <= Told(s, q)
  {
  }

  lemma ReceiveTells(s: System, q: Query, c: nat, scan: seq<Object>, sent: seq<Event>)
    requires Tells(s, q, c, scan, sent) && Enabled(s, q, Receive) && OfKind(s.channel, q.kind)
    ensures Tells(Next(s, q, Receive), q, c, scan, sent)
  {
    hide Forwarded, Additions, Chosen;
    if !s.lagged {
      ReceiveStory(s, q);
      assert Next(s, q, Receive).yielded <= Story(Next(s, q, Receive), q);
    }
  }

  /** Every step after the counter read keeps the invariant, an emit with its event. */
  lemma StepTells(s: System, q: Query, step: Step, c: nat, scan: seq<Object>, sent: seq<Event>)
    requires Tells(s, q, c, scan, sent) && Enabled(s, q, step) && OfKind(s.channel, q.kind)
    ensures Tells(Next(s, q, step), q, c, scan, sent + SentBy(s, step))
  {
    TellsPhase(s, q, step, c, scan, sent);
    hide Tells, Enabled, Next, OfKind;
    assert sent + [] == sent;
    match step
    case Commit(cmd) => CommitTells(s, q, cmd, c, scan, sent);
    case Emit(i) => EmitTells(s, q, i, c, scan, sent);
    case CatchUp => CatchUpTells(s, q, c, scan, sent);
    case Receive => ReceiveTells(s, q, c, scan, sent);
  }

  lemma TellsPhase(s: System, q: Query, step: Step, c: nat, scan: seq<Object>, sent: seq<Event>)
    requires Tells(s, q, c, scan, sent) && Enabled(s, q, step)
    ensures step.Commit? || (step.Emit? && step.index < |s.pending|) || step.CatchUp? || step.Receive?
  {
    hide Story, Told, Enumerates, WellNamed, Forwarded, Additions, Chosen;
  }

  lemma StartTells(run: seq<System>, steps: seq<Step>, q: Query, a: nat, r: nat)
    requires IsRun(run, steps, q) && a < |steps| && r < |steps| && steps[a].Scan? && steps[r].ReadCounter?
    ensures |run| == |steps| + 1
    ensures Tells(run[r + 1], q, run[r].store.counter, steps[a].items, Sent(run, steps, r, r + 1))
  {
    RunStep(run, steps, q, r);
    hide Tells, IsRun, Behind, Enumerates, WellNamed, Apply;
    ScanThenRead(run, steps, q, a, r);
    SilentBefore(run, steps, q, r);
    RunBehind(run, steps, q, r);
    ReadTells(run[r], q);
    assert Sent(run, steps, r, r) + [] == [];
  }

  lemma ChannelKind(s: System, q: Query)
    requires Behind(s, q)
    ensures OfKind(s.channel, q.kind)
  {
  }

  /** Over every run: from the counter read on the stream tells of its scan and then of what was emitted since. */
  lemma {:induction false} RunTells(run: seq<System>, steps: seq<Step>, q: Query, a: nat, r: nat, k: nat)
    requires IsRun(run, steps, q) && a < |steps| && r < k < |run| && steps[a].Scan? && steps[r].ReadCounter?
    ensures |run| == |steps| + 1
    ensures Tells(run[k], q, run[r].store.counter, steps[a].items, Sent(run, steps, r, k))
    decreases k
  {
    hide Tells, Enabled, Next, IsRun, Behind, SentBy, OfKind;
    RunLength(run, steps, q);
    RunStep(run, steps, q, k - 1);
    if k == r + 1 {
      StartTells(run, steps, q, a, r);
    } else {
      RunTells(run, steps, q, a, r, k - 1);
      RunBehind(run, steps, q, k - 1);
      ChannelKind(run[k - 1], q);
      StepTells(run[k - 1], q, steps[k - 1], run[r].store.counter, steps[a].items, Sent(run, steps, r, k - 1));
    }
  }
}

/**
 * What a client of a watch stream can rely on, for every run: exactly which names it is right about,
 * for any number of writers, any resume point and any filter; what that comes to for one writer; and
 * an input for each way in which it can go wrong.
 */
module WatchPromises {
  import opened Options
  import opened ObjectStore
  import opened StoreHistory
  import opened WatchCache
  import opened Watch

  /** A run in which step `a` scans and step `r` reads the counter. */
  ghost predicate Lists(run: seq<System>, steps: seq<Step>, q: Query, a: nat, r: nat) {
    IsRun(run, steps, q) && a < |steps| && r < |steps| && steps[a].Scan? && steps[r].ReadCounter?
  }

  lemma ListsParts(run: seq<System>, steps: seq<Step>, q: Query, a: nat, r: nat)
    requires Lists(run, steps, q, a, r)
    ensures IsRun(run, steps, q) && |run| == |steps| + 1 && a < r < |steps| && steps[a].Scan? && steps[r].ReadCounter?
  {
    ScanThenRead(run, steps, q, a, r);
  }

  /** The stream is live, was never too slow, and has received every event of the kind. */
  predicate CaughtUp(s: System, q: Query) {
    s.phase.Live? && s.channel == [] && !s.lagged && forall i :: 0 <= i < |s.pending| ==> s.pending[i].kind != q.kind
  }

  lemma {:induction false} NoneOfKind(kind: Kind, c: nat, events: seq<Event>)
    requires forall i :: 0 <= i < |events| ==> events[i].kind != kind
    ensures Recent(kind, c, events) == []
  {
    if events != [] {
      NoneOfKind(kind, c, events[..|events| - 1]);
    }
  }

  /** What the stream forwards of the events emitted since the counter read. */
  function Delivered(run: seq<System>, steps: seq<Step>, q: Query, r: nat, k: nat): seq<Event>
    requires r <= k <= |steps| < |run|
  {
    Forwarded(q, run[r].store.counter, Sent(run, steps, r, k))
  }

  /** What the stream makes of its scan. */
  function CaughtUpWith(q: Query, items: seq<Object>): seq<Event> {
    Additions(q.kind, Chosen(q, items))
  }

  // ---- nothing twice ----

  /** The recent events sent are events written, each at most once; all of them if none is pending. */
  lemma {:induction false} SentIsWritten(run: seq<System>, steps: seq<Step>, q: Query, r: nat, k: nat)
    requires IsRun(run, steps, q) && r <= k < |run| && run[r].store.counter < U64_MAX
    ensures |run| == |steps| + 1
    ensures var sent, written := Recent(q.kind, run[r].store.counter, Sent(run, steps, r, k)), Changes(run, steps, r, k, q.kind);
      && multiset(sent) <= multiset(written)
      && (CaughtUp(run[k], q) ==> multiset(sent) == multiset(written))
  {
    RunBalanced(run, steps, q, r, k);
    hide Recent, Sent, Changes, IsRun;
    if CaughtUp(run[k], q) {
      NoneOfKind(q.kind, run[r].store.counter, run[k].pending);
    }
  }

  /**
   * Nothing is delivered twice, by any number of writers: what a stream has yielded, even one that
   * later fails, is a prefix of what it makes of its scan and then of the events emitted since the
   * counter read, and those are events written since, each at most once.
   */
  lemma {:induction false} NothingTwice(run: seq<System>, steps: seq<Step>, q: Query, a: nat, r: nat, k: nat)
    requires Lists(run, steps, q, a, r) && r < k < |run|
    ensures |run| == |steps| + 1
    ensures run[k].yielded <= CaughtUpWith(q, steps[a].items) + Delivered(run, steps, q, r, k)
    ensures run[r].store.counter < U64_MAX ==>
      multiset(Recent(q.kind, run[r].store.counter, Sent(run, steps, r, k))) <= multiset(Changes(run, steps, r, k, q.kind))
  {
    ListsParts(run, steps, q, a, r);
    RunTells(run, steps, q, a, r, k);
    hide Told, Story, Additions, Changes, Forwarded, Lists, IsRun;
    if run[r].store.counter < U64_MAX {
      SentIsWritten(run, steps, q, r, k);
    }
  }

  /** Only events of the kind and objects the client wants are delivered, none up to its resume point. */
  lemma NothingOld(run: seq<System>, steps: seq<Step>, q: Query, a: nat, r: nat, k: nat)
    requires Lists(run, steps, q, a, r) && r < k < |run| && q.from <= run[r].store.counter
    ensures forall e :: e in run[k].yielded ==> e.kind == q.kind && q.keep(e.obj) && VersionOf(e.obj) > q.from
  {
    hide Lists, Recent, Kept, Chosen, Sent, VersionOf, IsRun;
    ListsParts(run, steps, q, a, r);
    NothingTwice(run, steps, q, a, r, k);
    var scan, live := CaughtUpWith(q, steps[a].items), Delivered(run, steps, q, r, k);
    ChosenMembers(q, steps[a].items);
    KeptMembers(q, Recent(q.kind, run[r].store.counter, Sent(run, steps, r, k)));
    RecentMembers(q.kind, run[r].store.counter, Sent(run, steps, r, k));
    assert forall i :: 0 <= i < |scan| ==> Chosen(q, steps[a].items)[i] in Chosen(q, steps[a].items);
    assert forall e :: e in scan + live <==> e in scan || e in live;
    assert forall i :: 0 <= i < |run[k].yielded| ==> run[k].yielded[i] == (scan + live)[i];
  }

  predicate OwnVersions(events: seq<Event>) {
    forall i, j :: 0 <= i < j < |events| ==> VersionOf(events[i].obj) != VersionOf(events[j].obj)
  }

  lemma {:induction false} OnceInOwn(events: seq<Event>, e: Event)
    requires OwnVersions(events)
    ensures multiset(events)[e] <= 1
  {
    if events != [] {
      var k := |events| - 1;
      OnceInOwn(events[..k], e);
      assert events == events[..k] + [events[k]];
      if e == events[k] {
        assert e !in events[..k];
      }
    }
  }

  lemma TwiceCounts(events: seq<Event>, i: nat, j: nat)
    requires i < j < |events| && events[i] == events[j]
    ensures multiset(events)[events[i]] >= 2
  {
    var a, b := events[..j], events[j..];
    assert events == a + b && a[i] == events[i] && b[0] == events[i];
    assert events[i] in multiset(a) && events[i] in multiset(b);
  }

  /** Part of a sequence with versions of their own has versions of its own, in any order. */
  lemma SomeOfOwn(some: seq<Event>, all: seq<Event>)
    requires multiset(some) <= multiset(all) && OwnVersions(all)
    ensures OwnVersions(some)
  {
    forall i, j | 0 <= i < j < |some|
      ensures VersionOf(some[i].obj) != VersionOf(some[j].obj)
    {
      assert some[i] in multiset(some) && some[j] in multiset(some);
      assert some[i] in all && some[j] in all;
      if some[i] == some[j] {
        TwiceCounts(some, i, j);
        OnceInOwn(all, some[i]);
      }
    }
  }

  lemma {:induction false} KeptIsSome(q: Query, events: seq<Event>)
    ensures multiset(Kept(q, events)) <= multiset(events)
  {
    if events != [] {
      var k := |events| - 1;
      KeptIsSome(q, events[..k]);
      assert events == events[..k] + [events[k]];
    }
  }

  lemma {:induction false} ChosenIsOwn(q: Query, items: seq<Object>, c: nat)
    requires forall i, j :: 0 <= i < j < |items| ==> VersionOf(items[i]) != VersionOf(items[j])
    requires forall i :: 0 <= i < |items| ==> VersionOf(items[i]) <= c
    ensures OwnVersions(CaughtUpWith(q, items)) && UpTo(CaughtUpWith(q, items), c)
  {
    if items != [] {
      hide Additions, Chosen;
      var rest := Chosen(q, items[1..]);
      ChosenIsOwn(q, items[1..], c);
      ChosenStep(q, items);
      ChosenMembers(q, items[1..]);
      forall i | 0 <= i < |rest|
        ensures VersionOf(rest[i]) != VersionOf(items[0])
      {
        assert rest[i] in items[1..];
      }
    }
  }

  /** The objects of a scan are stored at one moment, so below saturation their versions differ. */
  lemma ScanVersions(items: seq<Object>, s: Store, kind: Kind)
    requires Sane(s) && Enumerates(items, s, kind) && s.counter < U64_MAX
    ensures forall i :: 0 <= i < |items| ==> VersionOf(items[i]) <= s.counter
    ensures forall i, j :: 0 <= j < i < |items| ==> VersionOf(items[j]) != VersionOf(items[i])
  {
    forall i | 0 <= i < |items|
      ensures Key(kind, items[i].meta.name) in s.objects && s.objects[Key(kind, items[i].meta.name)] == items[i]
    {
      InView(s, kind, items[i].meta.name);
    }
    hide View;
    forall i, j | 0 <= j < i < |items|
      ensures VersionOf(items[j]) != VersionOf(items[i])
    {
      assert Key(kind, items[j].meta.name) != Key(kind, items[i].meta.name);
    }
  }

  lemma {:induction false} WrittenIsOwn(run: seq<System>, steps: seq<Step>, q: Query, r: nat, k: nat)
    requires IsRun(run, steps, q) && r <= k < |run| && run[k].store.counter < U64_MAX
    ensures |run| == |steps| + 1
    ensures OwnVersions(Changes(run, steps, r, k, q.kind))
    ensures forall i :: 0 <= i < |Changes(run, steps, r, k, q.kind)| ==> run[r].store.counter < VersionOf(Changes(run, steps, r, k, q.kind)[i].obj)
  {
    hide IsRun, Changes;
    RunLength(run, steps, q);
    var es := Changes(run, steps, r, k, q.kind);
    forall i | 0 <= i < |es|
      ensures run[r].store.counter < VersionOf(es[i].obj)
      ensures forall j :: 0 <= j < i ==> VersionOf(es[j].obj) < VersionOf(es[i].obj)
    {
      WrittenVersions(run, steps, q, r, k, i);
    }
  }

  lemma OwnConcat(a: seq<Event>, b: seq<Event>, c: nat)
    requires OwnVersions(a) && UpTo(a, c) && OwnVersions(b) && forall i :: 0 <= i < |b| ==> c < VersionOf(b[i].obj)
    ensures OwnVersions(a + b)
  {
  }

  lemma OwnPrefix(a: seq<Event>, b: seq<Event>)
    requires a <= b && OwnVersions(b)
    ensures OwnVersions(a)
  {
  }

  /** What is delivered comes from what was written. */
  lemma DeliveredIsOwn(run: seq<System>, steps: seq<Step>, q: Query, r: nat, k: nat)
    requires IsRun(run, steps, q) && r <= k < |run| && run[k].store.counter < U64_MAX
    ensures |run| == |steps| + 1
    ensures OwnVersions(Delivered(run, steps, q, r, k))
    ensures forall i :: 0 <= i < |Delivered(run, steps, q, r, k)| ==> run[r].store.counter < VersionOf(Delivered(run, steps, q, r, k)[i].obj)
  {
    hide IsRun, Changes, Sent, OwnVersions, Recent, Kept;
    RunLength(run, steps, q);
    CounterGrows(run, steps, q, r, k);
    SentIsWritten(run, steps, q, r, k);
    WrittenIsOwn(run, steps, q, r, k);
    var d, sent, written := Delivered(run, steps, q, r, k), Recent(q.kind, run[r].store.counter, Sent(run, steps, r, k)), Changes(run, steps, r, k, q.kind);
    KeptIsSome(q, sent);
    SomeOfOwn(d, written);
    forall i | 0 <= i < |d|
      ensures run[r].store.counter < VersionOf(d[i].obj)
    {
      assert d[i] in multiset(d);
      assert d[i] in written;
    }
  }

  /** So below saturation no version is ever delivered twice. */
  lemma YieldedVersions(run: seq<System>, steps: seq<Step>, q: Query, a: nat, r: nat, k: nat)
    requires Lists(run, steps, q, a, r) && r < k < |run| && run[k].store.counter < U64_MAX
    ensures OwnVersions(run[k].yielded)
  {
    hide *;
    ListsParts(run, steps, q, a, r);
    NothingTwice(run, steps, q, a, r, k);
    ScanIsOwn(run, steps, q, a, r, k);
    DeliveredIsOwn(run, steps, q, r, k);
    OwnConcat(CaughtUpWith(q, steps[a].items), Delivered(run, steps, q, r, k), run[r].store.counter);
    OwnPrefix(run[k].yielded, CaughtUpWith(q, steps[a].items) + Delivered(run, steps, q, r, k));
  }

  lemma ScanIsOwn(run: seq<System>, steps: seq<Step>, q: Query, a: nat, r: nat, k: nat)
    requires IsRun(run, steps, q) && a < r < k < |run| && a < |steps| && steps[a].Scan? && run[k].store.counter < U64_MAX
    ensures OwnVersions(CaughtUpWith(q, steps[a].items)) && UpTo(CaughtUpWith(q, steps[a].items), run[r].store.counter)
  {
    RunStep(run, steps, q, a);
    hide IsRun, Sane, Next, Enumerates, CaughtUpWith, OwnVersions, UpTo;
    RunSane(run, steps, q, a);
    CounterGrows(run, steps, q, a, r);
    CounterGrows(run, steps, q, r, k);
    ScanVersions(steps[a].items, run[a].store, q.kind);
    ChosenIsOwn(q, steps[a].items, run[r].store.counter);
  }

  // ---- what the client holds ----

  /** What a client that held `m` holds about a name after the catch-up. */
  function AtScan(m: map<string, Object>, q: Query, s: Store, n: string): Option<Object> {
    if n in Matching(q, s) then Some(Matching(q, s)[n]) else Entry(m, n)
  }

  lemma CaughtUpYields(run: seq<System>, steps: seq<Step>, q: Query, a: nat, r: nat, k: nat)
    requires Lists(run, steps, q, a, r) && r < k < |run| && CaughtUp(run[k], q)
    ensures |run| == |steps| + 1
    ensures run[k].yielded == CaughtUpWith(q, steps[a].items) + Delivered(run, steps, q, r, k)
  {
    ListsParts(run, steps, q, a, r);
    RunTells(run, steps, q, a, r, k);
    NothingForwarded(q, run[r].store.counter, []);
    hide Additions, Forwarded, Lists, IsRun, Sent;
    assert run[k].yielded + [] == run[k].yielded;
  }

  lemma {:induction false} ScannedEntry(run: seq<System>, steps: seq<Step>, q: Query, m: map<string, Object>, a: nat, n: string)
    requires IsRun(run, steps, q) && a < |steps| && a < |run| && steps[a].Scan? && Resumes(m, q, run[a].store)
    ensures Entry(Replay(m, CaughtUpWith(q, steps[a].items)), n) == AtScan(m, q, run[a].store, n)
  {
    RunStep(run, steps, q, a);
    RunSane(run, steps, q, a);
    SaneParts(run[a].store);
    hide Replay, Additions, Chosen, Sane, Next, Resumes, NamesMatch, Matching;
    CatchUpEntry(q, m, steps[a].items, run[a].store, n);
  }

  /** What a client of a caught-up stream holds about a name. */
  lemma {:induction false} ClientHolds(run: seq<System>, steps: seq<Step>, q: Query, m: map<string, Object>, a: nat, r: nat, k: nat, n: string)
    requires Lists(run, steps, q, a, r) && r < k < |run| && CaughtUp(run[k], q) && a < |run| && Resumes(m, q, run[a].store)
    ensures |run| == |steps| + 1
    ensures var d := Last(Delivered(run, steps, q, r, k), n);
      Entry(Replay(m, run[k].yielded), n) == if d.Some? then Leaves(d.value) else AtScan(m, q, run[a].store, n)
  {
    hide *;
    ListsParts(run, steps, q, a, r);
    CaughtUpYields(run, steps, q, a, r, k);
    ScannedEntry(run, steps, q, m, a, n);
    var scan, d := CaughtUpWith(q, steps[a].items), Delivered(run, steps, q, r, k);
    ReplayConcat(m, scan, d);
    ReplayEntry(Replay(m, scan), d, n);
  }

  /** What it ought to hold. */
  lemma {:induction false} OughtToHold(run: seq<System>, steps: seq<Step>, q: Query, r: nat, k: nat, n: string)
    requires IsRun(run, steps, q) && r <= k < |run|
    ensures |run| == |steps| + 1
    ensures var w := Last(Changes(run, steps, r, k, q.kind), n);
      Entry(Matching(q, run[k].store), n)
      == if w.Some? then KeptEntry(q, Leaves(w.value)) else Entry(Matching(q, run[r].store), n)
  {
    hide *;
    ViewIsReplay(run, steps, q, r, k);
    ReplayEntry(View(run[r].store, q.kind), Changes(run, steps, r, k, q.kind), n);
    MatchingEntry(q, run[k].store, n);
    MatchingEntry(q, run[r].store, n);
  }

  // ---- the catch-up and the gap ----

  /**
   * The catch-up leaves the client wrong about a name: the client held it and it was deleted or
   * stopped matching while the client was away; or it was written between the scan and the counter
   * read and matches at one of the two.
   */
  predicate Missed(run: seq<System>, steps: seq<Step>, q: Query, m: map<string, Object>, a: nat, r: nat, n: string)
    requires a <= r <= |steps| < |run|
  {
    || (n in m && n !in Matching(q, run[a].store))
    || (Mentions(Changes(run, steps, a, r, q.kind), n) && (n in Matching(q, run[a].store) || n in Matching(q, run[r].store)))
  }

  /** A name that matches at the counter read and not at the scan was written between. */
  lemma {:induction false} NewMatch(run: seq<System>, steps: seq<Step>, q: Query, a: nat, r: nat, n: string)
    requires IsRun(run, steps, q) && a <= r < |run| && run[r].store.counter < U64_MAX
    ensures |run| == |steps| + 1
    ensures var v, w, gap := Matching(q, run[a].store), Matching(q, run[r].store), Mentions(Changes(run, steps, a, r, q.kind), n);
      && (!gap ==> Entry(v, n) == Entry(w, n))
      && (gap && n in w ==> run[a].store.counter < VersionOf(w[n]))
      && (n in v ==> VersionOf(v[n]) <= run[a].store.counter)
  {
    hide IsRun, Changes, Mentions, View, Sane, VersionOf;
    WrittenIsNew(run, steps, q, a, r, n);
    RunSane(run, steps, q, a);
    MatchingEntry(q, run[a].store, n);
    MatchingEntry(q, run[r].store, n);
    if n in Matching(q, run[a].store) {
      ViewVersion(run[a].store, q.kind, n);
    }
  }

  lemma ResumesParts(m: map<string, Object>, q: Query, s: Store)
    requires Resumes(m, q, s)
    ensures q.from <= s.counter && forall n :: n in m ==> 1 <= VersionOf(m[n]) <= q.from
  {
  }

  lemma MissedIff(run: seq<System>, steps: seq<Step>, q: Query, m: map<string, Object>, a: nat, r: nat, n: string)
    requires IsRun(run, steps, q) && a <= r < |run| && run[r].store.counter < U64_MAX && Resumes(m, q, run[a].store)
    ensures |run| == |steps| + 1
    ensures r <= |steps| && (AtScan(m, q, run[a].store, n) == Entry(Matching(q, run[r].store), n) <==> !Missed(run, steps, q, m, a, r, n))
  {
    hide IsRun, Changes, Mentions, Matching, Resumes, VersionOf;
    RunLength(run, steps, q);
    NewMatch(run, steps, q, a, r, n);
    ResumesParts(m, q, run[a].store);
  }

  /**
   * At the counter read, with any number of commands since the scan: the client has been told the
   * truth if and only if no name was missed.
   */
  lemma {:induction false} TwoStepListMisses(run: seq<System>, steps: seq<Step>, q: Query, m: map<string, Object>, a: nat, r: nat)
    requires Lists(run, steps, q, a, r) && a < |run| && Resumes(m, q, run[a].store) && r < |run| && run[r].store.counter < U64_MAX
    ensures a < r && |run| == |steps| + 1
    ensures Replay(m, CaughtUpWith(q, steps[a].items)) == Matching(q, run[r].store)
            <==> forall n: string :: !Missed(run, steps, q, m, a, r, n)
  {
    hide *;
    ListsParts(run, steps, q, a, r);
    var c, v := Replay(m, CaughtUpWith(q, steps[a].items)), Matching(q, run[r].store);
    forall n: string
      ensures Entry(c, n) == Entry(v, n) <==> !Missed(run, steps, q, m, a, r, n)
    {
      ScannedEntry(run, steps, q, m, a, n);
      MissedIff(run, steps, q, m, a, r, n);
    }
    SameEverywhere(c, v);
  }

  // ---- the promise, exactly ----

  /**
   * When a client is right about a name.  If nothing wrote the name after the counter read: the
   * catch-up did not miss it.  If writes did but none was delivered (the filter held all of them
   * back): the client did not hold the name.  Else: the last event delivered about it leaves what
   * the last one written leaves, as far as the client wants to see that.
   */
  predicate Right(run: seq<System>, steps: seq<Step>, q: Query, m: map<string, Object>, a: nat, r: nat, k: nat, n: string)
    requires a <= r <= k <= |steps| < |run|
  {
    var w, d := Last(Changes(run, steps, r, k, q.kind), n), Last(Delivered(run, steps, q, r, k), n);
    if w.None? then !Missed(run, steps, q, m, a, r, n)
    else if d.None? then n !in Matching(q, run[a].store) && n !in m
    else Leaves(d.value) == KeptEntry(q, Leaves(w.value))
  }

  /** Delivered events were written; a written event that was not delivered is one the filter held back. */
  lemma {:induction false} DeliveredAbout(run: seq<System>, steps: seq<Step>, q: Query, r: nat, k: nat, n: string)
    requires IsRun(run, steps, q) && r <= k < |run| && run[r].store.counter < U64_MAX && CaughtUp(run[k], q)
    ensures |run| == |steps| + 1
    ensures var w, d := Last(Changes(run, steps, r, k, q.kind), n), Last(Delivered(run, steps, q, r, k), n);
      && (d.Some? ==> w.Some?)
      && (w.Some? && d.None? ==> !q.keep(w.value.obj))
  {
    hide Recent, Sent, Changes, IsRun, Last, CaughtUp, Kept;
    SentIsWritten(run, steps, q, r, k);
    var sent, written := Recent(q.kind, run[r].store.counter, Sent(run, steps, r, k)), Changes(run, steps, r, k, q.kind);
    var w, d := Last(written, n), Last(Delivered(run, steps, q, r, k), n);
    KeptMembers(q, sent);
    LastIs(written, n);
    LastIs(Kept(q, sent), n);
    if d.Some? {
      assert d.value in multiset(sent);
      assert d.value in written;
    }
    if w.Some? && q.keep(w.value.obj) {
      assert w.value in multiset(written);
      assert w.value in sent;
      assert w.value in Kept(q, sent);
    }
  }

  lemma {:induction false} ClientRightAt(run: seq<System>, steps: seq<Step>, q: Query, m: map<string, Object>, a: nat, r: nat, k: nat, n: string)
    requires Lists(run, steps, q, a, r) && r < k < |run| && CaughtUp(run[k], q) && a < |run| && Resumes(m, q, run[a].store)
    requires run[r].store.counter < U64_MAX
    ensures a < r && |run| == |steps| + 1
    ensures Entry(Replay(m, run[k].yielded), n) == Entry(Matching(q, run[k].store), n) <==> Right(run, steps, q, m, a, r, k, n)
  {
    hide Lists, CaughtUp, Resumes, Changes, Delivered, Last, Missed, IsRun, Replay, Matching;
    ListsParts(run, steps, q, a, r);
    ClientHolds(run, steps, q, m, a, r, k, n);
    OughtToHold(run, steps, q, r, k, n);
    DeliveredAbout(run, steps, q, r, k, n);
    MissedIff(run, steps, q, m, a, r, n);
  }

  /**
   * Watch and store, exactly.  For every run, with any number of commands anywhere, any number of
   * writers, any resume point and any filter: a client that has replayed everything holds exactly the
   * objects it asked for if and only if it is right about every name.
   */
  lemma {:induction false} WatchIsRightIff(run: seq<System>, steps: seq<Step>, q: Query, m: map<string, Object>, a: nat, r: nat, k: nat)
    requires Lists(run, steps, q, a, r) && r < k < |run| && CaughtUp(run[k], q) && a < |run| && Resumes(m, q, run[a].store)
    requires run[r].store.counter < U64_MAX
    ensures a < r && |run| == |steps| + 1
    ensures Replay(m, run[k].yielded) == Matching(q, run[k].store)
            <==> forall n: string :: Right(run, steps, q, m, a, r, k, n)
  {
    hide *;
    ListsParts(run, steps, q, a, r);
    var c, v := Replay(m, run[k].yielded), Matching(q, run[k].store);
    forall n: string
      ensures Entry(c, n) == Entry(v, n) <==> Right(run, steps, q, m, a, r, k, n)
    {
      ClientRightAt(run, steps, q, m, a, r, k, n);
    }
    SameEverywhere(c, v);
  }

  // ---- one writer ----

  /** If events are emitted in order, what is delivered is what was written, as far as it matches. */
  lemma {:induction false} DeliveredInOrder(run: seq<System>, steps: seq<Step>, q: Query, r: nat, k: nat)
    requires IsRun(run, steps, q) && r <= k < |run| && run[r].store.counter < U64_MAX && CaughtUp(run[k], q)
    requires k <= |steps| && EmitsInOrder(steps, r, k)
    ensures |run| == |steps| + 1 && Delivered(run, steps, q, r, k) == Kept(q, Changes(run, steps, r, k, q.kind))
  {
    RunAligned(run, steps, q, r, k);
    hide Recent, Sent, Changes, IsRun, Kept, EmitsInOrder;
    NoneOfKind(q.kind, run[r].store.counter, run[k].pending);
    var sent := Recent(q.kind, run[r].store.counter, Sent(run, steps, r, k));
    assert sent + [] == sent;
  }

  /** The last event about a name, if it is kept, is the last one kept. */
  lemma {:induction false} LastKept(q: Query, events: seq<Event>, n: string)
    requires Last(events, n).Some? && q.keep(Last(events, n).value.obj)
    ensures Last(Kept(q, events), n) == Last(events, n)
  {
    var k := |events| - 1;
    var front := Kept(q, events[..k]);
    if events[k].obj.meta.name == n {
      assert Kept(q, events) == front + [events[k]];
    } else {
      LastKept(q, events[..k], n);
      if q.keep(events[k].obj) {
        assert Kept(q, events)[..|front|] == front;
      } else {
        assert Kept(q, events) == front;
      }
    }
  }

  /**
   * When a client of a filtered stream is right about a name, if events are emitted in order: if the
   * last write after the counter read matches; if it does not, when the client does not hold the
   * name, because the last matching write deleted it or there was none and it was not held before.
   */
  predicate RightInOrder(run: seq<System>, steps: seq<Step>, q: Query, m: map<string, Object>, a: nat, r: nat, k: nat, n: string)
    requires a <= r <= k <= |steps| < |run|
  {
    var written := Changes(run, steps, r, k, q.kind);
    var w, d := Last(written, n), Last(Kept(q, written), n);
    if w.None? then !Missed(run, steps, q, m, a, r, n)
    else
      || q.keep(w.value.obj)
      || (if d.None? then n !in Matching(q, run[a].store) && n !in m else d.value.change.Deleted?)
  }

  lemma {:induction false} RightInOrderIff(run: seq<System>, steps: seq<Step>, q: Query, m: map<string, Object>, a: nat, r: nat, k: nat, n: string)
    requires a <= r <= k <= |steps| < |run| && Delivered(run, steps, q, r, k) == Kept(q, Changes(run, steps, r, k, q.kind))
    ensures Right(run, steps, q, m, a, r, k, n) <==> RightInOrder(run, steps, q, m, a, r, k, n)
  {
    hide Changes, Delivered, Last, Missed, Kept, Matching;
    var written := Changes(run, steps, r, k, q.kind);
    var w := Last(written, n);
    if w.Some? && q.keep(w.value.obj) {
      LastKept(q, written, n);
    }
  }

  /**
   * A filtered stream with events emitted in order: the client holds exactly the matching objects if
   * and only if no object it holds was left by a write that no longer matches.
   */
  lemma {:induction false} FilteredAgreesIff(run: seq<System>, steps: seq<Step>, q: Query, m: map<string, Object>, a: nat, r: nat, k: nat)
    requires Lists(run, steps, q, a, r) && r < k < |run| && CaughtUp(run[k], q) && a < |run| && Resumes(m, q, run[a].store)
    requires run[r].store.counter < U64_MAX && k <= |steps| && EmitsInOrder(steps, r, k)
    ensures a < r && |run| == |steps| + 1
    ensures Replay(m, run[k].yielded) == Matching(q, run[k].store)
            <==> forall n: string :: RightInOrder(run, steps, q, m, a, r, k, n)
  {
    hide *;
    ListsParts(run, steps, q, a, r);
    WatchIsRightIff(run, steps, q, m, a, r, k);
    DeliveredInOrder(run, steps, q, r, k);
    forall n: string
      ensures Right(run, steps, q, m, a, r, k, n) <==> RightInOrder(run, steps, q, m, a, r, k, n)
    {
      RightInOrderIff(run, steps, q, m, a, r, k, n);
    }
  }

  /**
   * Without a filter and with events emitted in order: the client agrees with the store if and only
   * if every name the catch-up missed was written again afterwards.
   */
  lemma {:induction false} WatchAgreesIff(run: seq<System>, steps: seq<Step>, q: Query, m: map<string, Object>, a: nat, r: nat, k: nat)
    requires Lists(run, steps, q, a, r) && r < k < |run| && CaughtUp(run[k], q) && a < |run| && Resumes(m, q, run[a].store)
    requires run[r].store.counter < U64_MAX && k <= |steps| && EmitsInOrder(steps, r, k)
    requires forall o: Object :: q.keep(o)
    ensures a < r && |run| == |steps| + 1
    ensures Replay(m, run[k].yielded) == View(run[k].store, q.kind)
            <==> forall n: string :: Missed(run, steps, q, m, a, r, n) ==> Mentions(Changes(run, steps, r, k, q.kind), n)
  {
    hide *;
    MatchesAll(q, run[k].store);
    ListsParts(run, steps, q, a, r);
    FilteredAgreesIff(run, steps, q, m, a, r, k);
    forall n: string
      ensures RightInOrder(run, steps, q, m, a, r, k, n)
              <==> (Missed(run, steps, q, m, a, r, n) ==> Mentions(Changes(run, steps, r, k, q.kind), n))
    {
      RightUnfiltered(run, steps, q, m, a, r, k, n);
    }
  }

  lemma {:induction false} RightUnfiltered(run: seq<System>, steps: seq<Step>, q: Query, m: map<string, Object>, a: nat, r: nat, k: nat, n: string)
    requires a <= r <= k <= |steps| < |run| && forall o: Object :: q.keep(o)
    ensures RightInOrder(run, steps, q, m, a, r, k, n)
            <==> (Missed(run, steps, q, m, a, r, n) ==> Mentions(Changes(run, steps, r, k, q.kind), n))
  {
    hide Changes, Last, Missed, Matching, Kept;
  }

  lemma MatchesAll(q: Query, s: Store)
    requires forall o: Object :: q.keep(o)
    ensures Matching(q, s) == View(s, q.kind)
  {
    hide View;
  }

  /**
   * Watch agrees with the store: in every interleaving in which events are emitted in order, if no
   * command in the gap wrote the kind and nothing the client held vanished while it was away, a
   * client that has replayed everything holds exactly the objects of the kind.
   */
  lemma {:induction false} WatchAgrees(run: seq<System>, steps: seq<Step>, q: Query, m: map<string, Object>, a: nat, r: nat, k: nat)
    requires Lists(run, steps, q, a, r) && a < r < k < |run| && CaughtUp(run[k], q) && Resumes(m, q, run[a].store)
    requires run[r].store.counter < U64_MAX && k <= |steps| < |run| && EmitsInOrder(steps, r, k)
    requires forall o: Object :: q.keep(o)
    requires Changes(run, steps, a, r, q.kind) == [] && m.Keys <= View(run[a].store, q.kind).Keys
    ensures Replay(m, run[k].yielded) == View(run[k].store, q.kind)
  {
    hide Lists, CaughtUp, Resumes, IsRun, Replay, Matching, View, EmitsInOrder;
    MatchesAll(q, run[a].store);
    WatchAgreesIff(run, steps, q, m, a, r, k);
  }

  // ---- many writers ----

  /** The last event emitted about a name leaves what the last one committed leaves. */
  predicate LastStands(run: seq<System>, steps: seq<Step>, q: Query, r: nat, k: nat, n: string)
    requires r <= k <= |steps| < |run|
  {
    var w, s := Last(Changes(run, steps, r, k, q.kind), n), Last(Recent(q.kind, run[r].store.counter, Sent(run, steps, r, k)), n);
    w.Some? && s.Some? && Leaves(s.value) == Leaves(w.value)
  }

  lemma {:induction false} RightManyWriters(run: seq<System>, steps: seq<Step>, q: Query, m: map<string, Object>, a: nat, r: nat, k: nat, n: string)
    requires IsRun(run, steps, q) && a <= r <= k < |run| && run[r].store.counter < U64_MAX && CaughtUp(run[k], q)
    requires forall o: Object :: q.keep(o)
    ensures |run| == |steps| + 1
    ensures Right(run, steps, q, m, a, r, k, n)
            <==> if Mentions(Changes(run, steps, r, k, q.kind), n) then LastStands(run, steps, q, r, k, n)
                 else !Missed(run, steps, q, m, a, r, n)
  {
    hide IsRun, CaughtUp, Changes, Last, Missed, Matching, Sent, Recent, Kept;
    DeliveredAbout(run, steps, q, r, k, n);
    KeptAll(q, Recent(q.kind, run[r].store.counter, Sent(run, steps, r, k)));
  }

  /**
   * Without a filter and with any number of writers: the client agrees with the store if and only if
   * for every name written after the counter read the last event emitted leaves what the last one
   * committed leaves, and no other name was missed.
   */
  lemma {:induction false} ManyWritersAgreeIff(run: seq<System>, steps: seq<Step>, q: Query, m: map<string, Object>, a: nat, r: nat, k: nat)
    requires Lists(run, steps, q, a, r) && r < k < |run| && CaughtUp(run[k], q) && a < |run| && Resumes(m, q, run[a].store)
    requires run[r].store.counter < U64_MAX && forall o: Object :: q.keep(o)
    ensures a < r && |run| == |steps| + 1
    ensures Replay(m, run[k].yielded) == View(run[k].store, q.kind)
            <==> forall n: string ::
                   if Mentions(Changes(run, steps, r, k, q.kind), n) then LastStands(run, steps, q, r, k, n)
                   else !Missed(run, steps, q, m, a, r, n)
  {
    hide *;
    MatchesAll(q, run[k].store);
    ListsParts(run, steps, q, a, r);
    WatchIsRightIff(run, steps, q, m, a, r, k);
    forall n: string
      ensures Right(run, steps, q, m, a, r, k, n)
              <==> if Mentions(Changes(run, steps, r, k, q.kind), n) then LastStands(run, steps, q, r, k, n)
                   else !Missed(run, steps, q, m, a, r, n)
    {
      RightManyWriters(run, steps, q, m, a, r, k, n);
    }
  }

  /** Two events about one name: the later one decides, so the order is immaterial only if both leave the same. */
  lemma EntryOfTwo(m: map<string, Object>, e: Event, f: Event, n: string)
    ensures Entry(Absorb(Absorb(m, e), f), n)
            == if f.obj.meta.name == n then Leaves(f) else if e.obj.meta.name == n then Leaves(e) else Entry(m, n)
  {
  }

  lemma SwappedIff(m: map<string, Object>, e: Event, f: Event)
    ensures Absorb(Absorb(m, f), e) == Absorb(Absorb(m, e), f) <==> e.obj.meta.name != f.obj.meta.name || Leaves(e) == Leaves(f)
  {
    hide Absorb;
    var x, y := Absorb(Absorb(m, f), e), Absorb(Absorb(m, e), f);
    forall n: string
      ensures Entry(x, n) == Entry(y, n) <==> n != e.obj.meta.name || n != f.obj.meta.name || Leaves(e) == Leaves(f)
    {
      EntryOfTwo(m, e, f, n);
      EntryOfTwo(m, f, e, n);
    }
    SameEverywhere(x, y);
    if e.obj.meta.name == f.obj.meta.name && Leaves(e) != Leaves(f) {
      assert Entry(x, e.obj.meta.name) != Entry(y, e.obj.meta.name);
    }
  }

  /** The two writes in order: what the store ends up with, and the two events. */
  lemma TwoWrites(s: Store, first: StoreCommand, second: StoreCommand, kind: Kind)
    requires NamesMatch(s) && WellNamed(first) && WellNamed(second)
    requires Emitted(s, first, kind) != [] && Emitted(Apply(s, first).store, second, kind) != []
    ensures var mid := Apply(s, first).store;
            var e, f := Emitted(s, first, kind)[0], Emitted(mid, second, kind)[0];
      && View(Apply(mid, second).store, kind) == Absorb(Absorb(View(s, kind), e), f)
      && Target(first) == Some(Key(kind, e.obj.meta.name)) && Target(second) == Some(Key(kind, f.obj.meta.name))
      && VersionOf(e.obj) == mid.counter == Bump(s.counter) && VersionOf(f.obj) == Bump(mid.counter)
  {
    var mid := Apply(s, first).store;
    hide Apply, WellNamed, NamesMatch, View, Target, Emitted;
    NamesStay(s, first);
    EmittedIs(s, first, kind);
    EmittedIs(mid, second, kind);
    CommitView(s, first, kind);
    CommitView(mid, second, kind);
    ReplayOne(View(s, kind), Emitted(s, first, kind)[0]);
    ReplayOne(View(mid, kind), Emitted(mid, second, kind)[0]);
  }

  /** What is deleted cannot be deleted again at once. */
  lemma NotDeletedTwice(s: Store, first: StoreCommand, second: StoreCommand, kind: Kind)
    requires NamesMatch(s) && WellNamed(first) && WellNamed(second) && Target(second) == Target(first)
    requires Emitted(s, first, kind) != [] && Emitted(Apply(s, first).store, second, kind) != []
    ensures !(Emitted(s, first, kind)[0].change.Deleted? && Emitted(Apply(s, first).store, second, kind)[0].change.Deleted?)
  {
    EmittedIs(s, first, kind);
    if Emitted(Apply(s, first).store, second, kind)[0].change.Deleted? {
      DeleteNeedsObject(Apply(s, first).store, second);
    }
  }

  lemma DeleteNeedsObject(s: Store, cmd: StoreCommand)
    requires Apply(s, cmd).event.Some? && Apply(s, cmd).event.value.change.Deleted?
    ensures Target(cmd).Some? && Target(cmd).value in s.objects
  {
  }

  /**
   * For two writers that follow each other: if their emits swap, a client that replays them ends with
   * the final view if and only if the two commands have different targets, deletes included, or both
   * left the very same object there.  The latter takes a saturated counter, as two writes below
   * saturation never leave the same version.
   */
  lemma SwappedEmitsDiverge(s: Store, first: StoreCommand, second: StoreCommand, kind: Kind)
    requires NamesMatch(s) && WellNamed(first) && WellNamed(second)
    requires Emitted(s, first, kind) != [] && Emitted(Apply(s, first).store, second, kind) != []
    ensures var mid := Apply(s, first).store;
            var e, f := Emitted(s, first, kind)[0], Emitted(mid, second, kind)[0];
            var final := View(Apply(mid, second).store, kind);
      && Absorb(Absorb(View(s, kind), e), f) == final
      && (Absorb(Absorb(View(s, kind), f), e) == final
          <==> Target(second) != Target(first) || (Leaves(e).Some? && Leaves(e) == Leaves(f)))
      && (Leaves(e).Some? && Leaves(e) == Leaves(f) ==> s.counter + 1 >= U64_MAX)
  {
    TwoWrites(s, first, second, kind);
    if Target(second) == Target(first) {
      NotDeletedTwice(s, first, second, kind);
    }
    var mid := Apply(s, first).store;
    hide Apply, WellNamed, NamesMatch, View, Target, Emitted, Absorb;
    SwappedIff(View(s, kind), Emitted(s, first, kind)[0], Emitted(mid, second, kind)[0]);
  }

  // ---- a used-up counter ----

  lemma {:induction false} SentUpTo(run: seq<System>, steps: seq<Step>, q: Query, r: nat, k: nat)
    requires IsRun(run, steps, q) && r <= k < |run|
    ensures |run| == |steps| + 1 && UpTo(Sent(run, steps, r, k), U64_MAX)
    decreases k
  {
    hide IsRun, Sane;
    RunLength(run, steps, q);
    if r < k {
      SentUpTo(run, steps, q, r, k - 1);
      RunBehind(run, steps, q, k - 1);
      RunSane(run, steps, q, k - 1);
      SaneParts(run[k - 1].store);
    }
  }

  /**
   * With the counter used up at the counter read nothing passes the filter any more: the client keeps
   * what the catch-up left for ever.
   */
  lemma {:induction false} SaturatedStreamIsFrozen(run: seq<System>, steps: seq<Step>, q: Query, m: map<string, Object>, a: nat, r: nat, k: nat, n: string)
    requires Lists(run, steps, q, a, r) && r < k < |run| && CaughtUp(run[k], q) && a < |run| && Resumes(m, q, run[a].store)
    requires run[r].store.counter == U64_MAX
    ensures Entry(Replay(m, run[k].yielded), n) == AtScan(m, q, run[a].store, n)
  {
    hide Lists, CaughtUp, Resumes, IsRun, Replay, Matching, Forwarded;
    ListsParts(run, steps, q, a, r);
    ClientHolds(run, steps, q, m, a, r, k, n);
    SentUpTo(run, steps, q, r, k);
    NothingForwarded(q, U64_MAX, Sent(run, steps, r, k));
  }

  // ---- where a client may resume ----

  /** A client that holds nothing may start from 0. */
  lemma NothingResumes(q: Query, s: Store)
    requires Sane(s) && q.from == 0
    ensures Resumes(map[], q, s)
  {
    hide Sane, View;
    forall n | n in Matching(q, s)
      ensures VersionOf(Matching(q, s)[n]) >= 1
    {
      MatchingEntry(q, s, n);
      ViewVersion(s, q.kind, n);
    }
  }

  /**
   * A client that was right at moment `o` may resume from the highest version it holds, or from any
   * version from there up to the counter at that moment.
   */
  lemma ResumePoint(run: seq<System>, steps: seq<Step>, q: Query, o: nat, a: nat)
    requires IsRun(run, steps, q) && o <= a < |run| && run[a].store.counter < U64_MAX
    requires q.from <= run[o].store.counter
    requires forall n :: n in Matching(q, run[o].store) ==> VersionOf(Matching(q, run[o].store)[n]) <= q.from
    ensures Resumes(Matching(q, run[o].store), q, run[a].store)
  {
    hide IsRun, Matching, View, Sane, Changes, Mentions;
    CounterGrows(run, steps, q, o, a);
    RunSane(run, steps, q, o);
    forall n | n in Matching(q, run[o].store)
      ensures VersionOf(Matching(q, run[o].store)[n]) >= 1
    {
      MatchingEntry(q, run[o].store, n);
      ViewVersion(run[o].store, q.kind, n);
    }
    forall n | n in Matching(q, run[a].store) && VersionOf(Matching(q, run[a].store)[n]) <= q.from
      ensures Entry(Matching(q, run[o].store), n) == Entry(Matching(q, run[a].store), n)
    {
      NewMatch(run, steps, q, o, a, n);
    }
  }
}

/** Availability: from every reachable state any majority, on its own and by nothing but ticks and
    deliveries, can elect a leader, repair its logs, and commit and apply a new command. */
module RaftProgress {
  import opened Options
  import opened RaftTypes
  import opened RaftLogs
  import opened RaftCore
  import opened RaftStorages
  import opened RaftBallots
  import opened RaftSim
  import opened RaftDurability
  import opened RaftCluster
  import opened RaftSafety
  import opened RaftRepair
  import opened RaftRules

  /** A run so far. */
  datatype Course = Course(run: seq<Cluster>, acts: seq<Action>)

  ghost predicate Reachable(h: Course) {
    IsRun(h.run, h.acts)
  }

  function Now(h: Course): Cluster
    requires h.run != []
  {
    h.run[|h.run| - 1]
  }

  lemma HasNow(h: Course)
    requires Reachable(h)
    ensures h.run != [] && |h.run| == |h.acts| + 1
  {}

  /** `g` goes on from `h` with nothing but events at the nodes of `q`. */
  ghost predicate Onward(h: Course, g: Course, q: set<NodeId>) {
    && Reachable(g) && h.run != [] && g.run != [] && h.run <= g.run && h.acts <= g.acts
    && (forall i :: |h.acts| <= i < |g.acts| ==> g.acts[i].Handle? && g.acts[i].id in q)
    && Now(g).nodes.Keys == Now(h).nodes.Keys && Now(h).net <= Now(g).net
  }

  lemma Stay(h: Course, q: set<NodeId>)
    requires Reachable(h)
    ensures Onward(h, h, q)
  {}

  lemma Further(h: Course, g: Course, f: Course, q: set<NodeId>)
    requires Onward(h, g, q) && Onward(g, f, q)
    ensures Onward(h, f, q)
  {
    hide Reachable;
  }

  lemma OnwardParts(h: Course, g: Course, q: set<NodeId>)
    requires Onward(h, g, q)
    ensures Reachable(g) && h.run != [] && g.run != []
    ensures Now(g).nodes.Keys == Now(h).nodes.Keys && Now(h).net <= Now(g).net
  {
    hide Reachable;
  }

  // ---- what holds of a node in every reachable state ------------------------------------------

  /** A leader keeps count of every peer. */
  predicate Tracks(n: Node) {
    n.role.Leader? ==> forall p :: p in n.peers ==> p in n.role.nextIndex && p in n.role.matchIndex
  }

  lemma StepTracks(n: Node, e: Event)
    requires Tracks(n)
    ensures Tracks(Step(n, e).node)
  {
    hide BroadcastAppend, ScanEntries, CommitTarget, Applies, MajorityOf, VoteRequests;
  }

  lemma {:induction false} RunTracks(run: seq<Cluster>, acts: seq<Action>, k: nat)
    requires IsRun(run, acts) && k < |run|
    ensures forall x :: x in run[k].nodes ==> Tracks(run[k].nodes[x])
  {
    if k > 0 {
      RunTracks(run, acts, k - 1);
      hide RaftCore.Step, Exec;
      var c, a := run[k - 1], acts[k - 1];
      assert Enabled(c, a) && run[k] == Next(c, a);
      if a.Handle? { StepTracks(c.nodes[a.id], a.event); }
    }
  }

  ghost predicate Settled(ids: set<NodeId>, x: NodeId, n: Node) {
    && n.id == x && PeersOk(ids, n) && Tracks(n) && Indexed(n.log) && n.commitIndex <= |n.log|
    && (n.role.Leader? ==> forall p :: p in n.role.nextIndex ==> n.role.nextIndex[p] <= |n.log| + 1)
  }

  lemma Here(h: Course, x: NodeId)
    requires Reachable(h) && h.run != [] && x in Now(h).nodes
    ensures var c := Now(h); Settled(c.nodes.Keys, x, c.nodes[x]) && x in c.disks && x in c.streams
  {
    var k := |h.run| - 1;
    RunTracks(h.run, h.acts, k);
    StreamIsGapless(h.run, h.acts, k, x);
    hide IsRun, Tracks;
    var b := RunRelated(h.run, h.acts, k);
    NodeLogVouched(b, Now(h), x);
    VouchedIndexed(b.lead, Now(h).nodes[x].log);
    PlaceParts(b, Now(h), x);
  }

  lemma PlaceParts(b: Ballots, c: Cluster, x: NodeId)
    requires Related(b, c) && x in c.nodes
    ensures var n := c.nodes[x];
      && n.id == x && PeersOk(c.nodes.Keys, n) && x in c.disks && x in c.streams
      && (n.role.Leader? ==> forall p :: p in n.role.nextIndex ==> n.role.nextIndex[p] <= |n.log| + 1)
  {
    hide Inv, HardOk, CommitOk, MsgOk, EntryOk, Synced, PeersOk;
    assert PlaceOk(b, c, x);
  }

  // ---- one event ------------------------------------------------------------------------------

  /** Node x handles an event: it alone changes, and everything it sends arrives. */
  lemma Do(h: Course, q: set<NodeId>, x: NodeId, e: Event) returns (g: Course)
    requires Reachable(h) && h.run != [] && x in q && x in Now(h).nodes
    requires e.Receive? ==> Packet(e.from, x, e.msg) in Now(h).net
    ensures Onward(h, g, q)
    ensures var r := Step(Now(h).nodes[x], e);
      && Now(g).nodes == Now(h).nodes[x := r.node]
      && forall f :: f in r.effects && f.Send? ==> Packet(x, f.to, f.msg) in Now(g).net
  {
    hide IsRun, Possible, Enabled, Next, Settled, RaftCore.Step, Onward;
    Here(h, x);
    HasNow(h);
    CanHandle(Now(h), x, e);
    var k := |h.run| - 1;
    assert h.run[..k + 1] == h.run && h.acts[..k] == h.acts;
    HandledRun(h.run, h.acts, k, x, e);
    g := Course(h.run + [Next(Now(h), Handle(x, e))], h.acts + [Handle(x, e)]);
    NetGains(Now(h), x, e, 0, 0);
    HandledNodes(Now(h), x, e);
    NextNow(h, Next(Now(h), Handle(x, e)), Handle(x, e), q);
  }

  lemma CanHandle(c: Cluster, x: NodeId, e: Event)
    requires x in c.nodes && Settled(c.nodes.Keys, x, c.nodes[x]) && x in c.disks && x in c.streams
    requires e.Receive? ==> Packet(e.from, x, e.msg) in c.net
    ensures Possible(c, x, e) && Enabled(c, Handle(x, e))
  {}

  lemma HandledNodes(c: Cluster, x: NodeId, e: Event)
    requires Possible(c, x, e)
    ensures Next(c, Handle(x, e)).nodes == c.nodes[x := Step(c.nodes[x], e).node]
  {
    hide RaftCore.Step, Exec;
  }

  lemma NextNow(h: Course, c: Cluster, a: Action, q: set<NodeId>)
    requires h.run != [] && IsRun(h.run + [c], h.acts + [a]) && a.Handle? && a.id in q
    requires c.nodes.Keys == Now(h).nodes.Keys && Now(h).net <= c.net
    ensures Onward(h, Course(h.run + [c], h.acts + [a]), q) && Now(Course(h.run + [c], h.acts + [a])) == c
  {
    hide IsRun;
  }

  // ---- heartbeats -----------------------------------------------------------------------------

  /** The current append of leader x for p has been sent. */
  predicate Probed(c: Cluster, x: NodeId, p: NodeId)
    requires x in c.nodes
  {
    Packet(x, p, AppendMessage(c.nodes[x], p)) in c.net
  }

  lemma SameAppend(n: Node, p: NodeId, ticks: nat)
    ensures AppendMessage(n.(ticks := ticks), p) == AppendMessage(n, p)
  {}

  lemma BeatStep(n: Node)
    requires n.role.Leader? && n.ticks + 1 >= HEARTBEAT_TICKS
    ensures Step(n, Tick).node == n.(ticks := 0)
    ensures forall p :: p in n.peers ==> Send(p, AppendMessage(n, p)) in Step(n, Tick).effects
  {
    var z := n.(ticks := 0);
    BroadcastIs(z);
    hide BroadcastAppend, AppendMessage;
    forall p | p in n.peers ensures Send(p, AppendMessage(n, p)) in BroadcastAppend(z) {
      var i :| 0 <= i < |n.peers| && n.peers[i] == p;
      SameAppend(n, p, 0);
      assert BroadcastAppend(z)[i] == Send(p, AppendMessage(z, p));
    }
  }

  /** A leader that ticks sends every peer its current append. */
  lemma {:induction false} Beat(h: Course, q: set<NodeId>, x: NodeId) returns (g: Course)
    requires Reachable(h) && h.run != [] && x in q && x in Now(h).nodes && Now(h).nodes[x].role.Leader?
    ensures Onward(h, g, q)
    ensures Now(g).nodes == Now(h).nodes[x := Now(h).nodes[x].(ticks := 0)]
    ensures forall p :: p in Now(h).nodes[x].peers ==> Probed(Now(g), x, p)
    decreases HEARTBEAT_TICKS - Now(h).nodes[x].ticks
  {
    hide Reachable, Onward, AppendMessage;
    var n := Now(h).nodes[x];
    var f := Do(h, q, x, Tick);
    OnwardParts(h, f, q);
    if n.ticks + 1 >= HEARTBEAT_TICKS {
      BeatStep(n);
      hide RaftCore.Step;
      g := f;
      forall p | p in n.peers ensures Probed(Now(g), x, p) { SameAppend(n, p, 0); }
    } else {
      assert Step(n, Tick).node == n.(ticks := n.ticks + 1);
      hide RaftCore.Step;
      g := Beat(f, q, x);
      Further(h, f, g, q);
    }
  }

  // ---- elections ------------------------------------------------------------------------------

  function Ask(n: Node): Message {
    RequestVote(n.currentTerm, n.id, |n.log|, LastTerm(n.log))
  }

  /** x has asked every peer for its vote in its present term. */
  predicate Asked(c: Cluster, x: NodeId)
    requires x in c.nodes
  {
    forall p :: p in c.nodes[x].peers ==> Packet(x, p, Ask(c.nodes[x])) in c.net
  }

  /** What x's timeout makes of it. */
  predicate Campaigns(ids: set<NodeId>, n: Node, c: Node) {
    && c.log == n.log && c.id == n.id && c.peers == n.peers && c.currentTerm > n.currentTerm
    && (if |ids| == 1 then c.role.Leader? else c.role == Candidate({n.id}))
  }

  lemma CampaignStep(ids: set<NodeId>, n: Node)
    requires PeersOk(ids, n) && !n.role.Leader? && n.ticks + 1 >= n.timeout
    ensures var r := Step(n, Tick);
      && Campaigns(ids, n, r.node)
      && forall p :: p in n.peers ==> Send(p, Ask(r.node)) in r.effects
  {
    TimeoutRule(n);
    LoneWinRule(ids, n);
    hide RaftCore.Step;
    var r := Step(n, Tick);
    forall p | p in n.peers ensures Send(p, Ask(r.node)) in r.effects {
      var i :| 0 <= i < |n.peers| && n.peers[i] == p;
      assert r.effects[1 + i] == Send(p, Ask(r.node));
    }
  }

  lemma WaitStep(n: Node)
    requires !n.role.Leader? && n.ticks + 1 < n.timeout
    ensures Step(n, Tick).node == n.(ticks := n.ticks + 1)
  {
    TimeoutRule(n);
  }

  /** A node that does not lead and only ticks campaigns in the end. */
  lemma {:induction false} Campaign(h: Course, q: set<NodeId>, x: NodeId) returns (g: Course)
    requires Reachable(h) && h.run != [] && x in q && x in Now(h).nodes && !Now(h).nodes[x].role.Leader?
    ensures Onward(h, g, q) && x in Now(g).nodes
    ensures Now(g).nodes == Now(h).nodes[x := Now(g).nodes[x]]
    ensures Campaigns(Now(h).nodes.Keys, Now(h).nodes[x], Now(g).nodes[x]) && Asked(Now(g), x)
    decreases Now(h).nodes[x].timeout - Now(h).nodes[x].ticks
  {
    hide Reachable, Onward, RaftCore.Step, PeersOk, Indexed, Tracks;
    var n := Now(h).nodes[x];
    Here(h, x);
    var f := Do(h, q, x, Tick);
    OnwardParts(h, f, q);
    if n.ticks + 1 >= n.timeout {
      CampaignStep(Now(h).nodes.Keys, n);
      g := f;
    } else {
      WaitStep(n);
      g := Campaign(f, q, x);
      Further(h, f, g, q);
      OnwardParts(f, g, q);
    }
  }

  /** And again, until its term is past any bound; a cluster of one needs only one campaign. */
  lemma {:induction false} Overtake(h: Course, q: set<NodeId>, x: NodeId, bound: nat) returns (g: Course)
    requires Reachable(h) && h.run != [] && x in q && x in Now(h).nodes && !Now(h).nodes[x].role.Leader?
    ensures Onward(h, g, q) && x in Now(g).nodes
    ensures Now(g).nodes == Now(h).nodes[x := Now(g).nodes[x]]
    ensures Campaigns(Now(h).nodes.Keys, Now(h).nodes[x], Now(g).nodes[x]) && Asked(Now(g), x)
    ensures |Now(h).nodes.Keys| > 1 ==> Now(g).nodes[x].currentTerm > bound
    decreases bound - Now(h).nodes[x].currentTerm
  {
    hide Reachable, Onward, Asked;
    var f := Campaign(h, q, x);
    OnwardParts(h, f, q);
    if |Now(h).nodes.Keys| == 1 || Now(f).nodes[x].currentTerm > bound {
      g := f;
    } else {
      g := Overtake(f, q, x, bound);
      Further(h, f, g, q);
      OnwardParts(f, g, q);
    }
  }

  /** x's log is at least as up to date as y's. */
  predicate AtLeast(l: Log, m: Log) {
    LastTerm(l) > LastTerm(m) || (LastTerm(l) == LastTerm(m) && |l| >= |m|)
  }

  lemma VoteGranted(n: Node, from: NodeId, c: Node)
    requires n.currentTerm < c.currentTerm && AtLeast(c.log, n.log) && c.id == from
    ensures var r := Step(n, Receive(from, Ask(c)));
      && r.node.currentTerm == c.currentTerm && r.node.log == n.log && !r.node.role.Leader?
      && Send(from, RequestVoteResp(c.currentTerm, true)) in r.effects
  {
    VoteRule(n, from, Ask(c));
    hide RaftCore.Step;
    var es := Step(n, Receive(from, Ask(c))).effects;
    assert es[|es| - 1] in es;
  }

  /** x leads, or counts at least the votes `v` and has no majority yet. */
  predicate Gathering(ids: set<NodeId>, n: Node, v: set<NodeId>) {
    n.role.Leader? || (n.role.Candidate? && v <= n.role.votes && 2 * |n.role.votes| <= |ids|)
  }

  lemma VoteCounted(ids: set<NodeId>, n: Node, from: NodeId, v: set<NodeId>)
    requires PeersOk(ids, n) && Gathering(ids, n, v)
    ensures var r := Step(n, Receive(from, RequestVoteResp(n.currentTerm, true))).node;
      r.log == n.log && r.currentTerm == n.currentTerm && r.id == n.id && r.peers == n.peers && Gathering(ids, r, v + {from})
  {
    WinRule(ids, n, from, RequestVoteResp(n.currentTerm, true));
    hide RaftCore.Step;
  }

  /** The members of `s` are asked and answer, one after the other. */
  lemma {:induction false} Canvass(h: Course, q: set<NodeId>, x: NodeId, s: set<NodeId>, v: set<NodeId>) returns (g: Course)
    requires Reachable(h) && h.run != [] && x in q && s <= q && x !in s && q <= Now(h).nodes.Keys
    requires Asked(Now(h), x) && Gathering(Now(h).nodes.Keys, Now(h).nodes[x], v)
    requires forall p :: p in s ==> Now(h).nodes[p].currentTerm < Now(h).nodes[x].currentTerm
    requires forall p :: p in s ==> AtLeast(Now(h).nodes[x].log, Now(h).nodes[p].log)
    ensures Onward(h, g, q) && x in Now(g).nodes && s <= Now(g).nodes.Keys
    ensures Gathering(Now(h).nodes.Keys, Now(g).nodes[x], v + s)
    ensures Now(g).nodes[x].log == Now(h).nodes[x].log && Now(g).nodes[x].currentTerm == Now(h).nodes[x].currentTerm
    ensures forall p :: p in s ==> Now(g).nodes[p].currentTerm == Now(h).nodes[x].currentTerm
    ensures forall p :: p in Now(h).nodes && p != x && p !in s ==> Now(g).nodes[p] == Now(h).nodes[p]
    decreases |s|
  {
    hide Reachable, Onward, RaftCore.Step, PeersOk, Indexed, Tracks, AtLeast, Gathering;
    Here(h, x);
    if s == {} {
      Stay(h, q);
      assert v + s == v;
      g := h;
    } else {
      var p :| p in s;
      var n := Now(h).nodes[x];
      InPeers(Now(h).nodes.Keys, n, p);
      var h1 := Do(h, q, p, Receive(x, Ask(n)));
      OnwardParts(h, h1, q);
      VoteGranted(Now(h).nodes[p], x, n);
      var h2 := Do(h1, q, x, Receive(p, RequestVoteResp(n.currentTerm, true)));
      OnwardParts(h1, h2, q);
      Further(h, h1, h2, q);
      VoteCounted(Now(h).nodes.Keys, n, p, v);
      g := Canvass(h2, q, x, s - {p}, v + {p});
      Further(h, h2, g, q);
      OnwardParts(h2, g, q);
      assert (v + {p}) + (s - {p}) == v + s;
    }
  }

  lemma InPeers(ids: set<NodeId>, n: Node, p: NodeId)
    requires PeersOk(ids, n) && p in ids && p != n.id
    ensures p in n.peers
  {}

  // ---- someone to lead ------------------------------------------------------------------------

  lemma {:induction false} MostAdvanced(c: Cluster, q: set<NodeId>) returns (x: NodeId)
    requires q != {} && q <= c.nodes.Keys
    ensures x in q && forall p :: p in q ==> AtLeast(c.nodes[x].log, c.nodes[p].log)
  {
    x :| x in q;
    if q != {x} {
      var y := MostAdvanced(c, q - {x});
      assert forall p :: p in q ==> p == x || p in q - {x};
      if !AtLeast(c.nodes[x].log, c.nodes[y].log) { x := y; }
    }
  }

  lemma {:induction false} TermBound(c: Cluster, q: set<NodeId>) returns (bound: nat)
    requires q <= c.nodes.Keys
    ensures forall p :: p in q ==> c.nodes[p].currentTerm <= bound
  {
    if q == {} {
      bound := 0;
    } else {
      var x :| x in q;
      bound := TermBound(c, q - {x});
      if bound < c.nodes[x].currentTerm { bound := c.nodes[x].currentTerm; }
      assert forall p :: p in q ==> p == x || p in q - {x};
    }
  }

  /** x leads and everyone else in q is in its term. */
  predicate Led(c: Cluster, q: set<NodeId>, x: NodeId) {
    && x in q && q <= c.nodes.Keys && c.nodes[x].role.Leader?
    && forall p :: p in q ==> c.nodes[p].currentTerm == c.nodes[x].currentTerm
  }

  lemma MajorityGathered(ids: set<NodeId>, n: Node, q: set<NodeId>)
    requires Gathering(ids, n, q) && 2 * |q| > |ids|
    ensures n.role.Leader?
  {
    if n.role.Candidate? { SubsetCard(q, n.role.votes); }
  }

  lemma LoneMajority(ids: set<NodeId>, q: set<NodeId>, x: NodeId)
    requires q <= ids && x in q && |ids| == 1
    ensures q == {x}
  {
    OneMember(ids, x);
  }

  lemma FreshCandidate(ids: set<NodeId>, n: Node, c: Node)
    requires Campaigns(ids, n, c) && n.id in ids && |ids| > 1
    ensures Gathering(ids, c, {n.id})
  {}

  /** A most advanced node that does not lead wins an election. */
  lemma Elected(h: Course, q: set<NodeId>, x: NodeId) returns (g: Course)
    requires Reachable(h) && h.run != [] && q <= Now(h).nodes.Keys && 2 * |q| > |Now(h).nodes.Keys|
    requires x in q && !Now(h).nodes[x].role.Leader?
    requires forall p :: p in q ==> AtLeast(Now(h).nodes[x].log, Now(h).nodes[p].log)
    ensures Onward(h, g, q) && Led(Now(g), q, x)
  {
    hide Reachable, Onward, Asked, AtLeast, Gathering, PeersOk, Indexed, Tracks;
    var ids := Now(h).nodes.Keys;
    Here(h, x);
    var bound := TermBound(Now(h), q);
    var f := Overtake(h, q, x, bound);
    OnwardParts(h, f, q);
    if |ids| == 1 {
      LoneMajority(ids, q, x);
      g := f;
    } else {
      NotEmpty(ids, x);
      InIds(ids, Now(h).nodes[x]);
      FreshCandidate(ids, Now(h).nodes[x], Now(f).nodes[x]);
      g := Canvass(f, q, x, q - {x}, {x});
      Further(h, f, g, q);
      OnwardParts(f, g, q);
      assert {x} + (q - {x}) == q;
      MajorityGathered(ids, Now(g).nodes[x], q);
    }
  }

  lemma NotEmpty(ids: set<NodeId>, x: NodeId)
    requires x in ids && |ids| != 1
    ensures |ids| > 1
  {}

  lemma InIds(ids: set<NodeId>, n: Node)
    requires PeersOk(ids, n)
    ensures n.id in ids
  {}

  /** A leader that hears of a newer term steps down. */
  lemma SteppedDown(h: Course, q: set<NodeId>, x: NodeId, y: NodeId) returns (g: Course)
    requires Reachable(h) && h.run != [] && x in q && y in q && q <= Now(h).nodes.Keys && Now(h).nodes[x].role.Leader?
    requires Now(h).nodes[x].currentTerm < Now(h).nodes[y].currentTerm
    ensures Onward(h, g, q) && x in Now(g).nodes && Now(g).nodes == Now(h).nodes[x := Now(g).nodes[x]]
    ensures Now(g).nodes[x].log == Now(h).nodes[x].log && !Now(g).nodes[x].role.Leader?
  {
    hide Reachable, Onward, RaftCore.Step, PeersOk, Indexed, Tracks, AppendMessage;
    Here(h, x);
    Here(h, y);
    var n, o := Now(h).nodes[x], Now(h).nodes[y];
    InPeers(Now(h).nodes.Keys, n, y);
    var h1 := Beat(h, q, x);
    OnwardParts(h, h1, q);
    var l := Now(h1).nodes[x];
    var m := AppendMessage(l, y);
    OutdatedAppend(o, x, l);
    var h2 := Do(h1, q, y, Receive(x, m));
    OnwardParts(h1, h2, q);
    Further(h, h1, h2, q);
    var reply := AppendEntriesResp(o.currentTerm, false, 0);
    OutdatedLeader(l, y, reply);
    g := Do(h2, q, x, Receive(y, reply));
    Further(h, h2, g, q);
    OnwardParts(h2, g, q);
  }

  lemma OutdatedAppend(o: Node, x: NodeId, l: Node)
    requires l.currentTerm < o.currentTerm
    ensures var r := Step(o, Receive(x, AppendMessage(l, o.id)));
      r.node == o && Send(x, AppendEntriesResp(o.currentTerm, false, 0)) in r.effects
  {
    AppendRule(o, x, AppendMessage(l, o.id));
    hide RaftCore.Step, AppendMessage;
    var es := Step(o, Receive(x, AppendMessage(l, o.id))).effects;
    assert es[|es| - 1] in es;
  }

  lemma OutdatedLeader(l: Node, y: NodeId, m: Message)
    requires m.AppendEntriesResp? && m.term > l.currentTerm
    ensures var r := Step(l, Receive(y, m)).node; r.log == l.log && !r.role.Leader?
  {}

  lemma HailedStep(n: Node, x: NodeId, l: Node)
    requires n.currentTerm <= l.currentTerm
    ensures Step(n, Receive(x, AppendMessage(l, n.id))).node.currentTerm == l.currentTerm
  {
    AppendRule(n, x, AppendMessage(l, n.id));
  }

  /** The members of `s` hear from the leader and join its term. */
  lemma {:induction false} Hail(h: Course, q: set<NodeId>, x: NodeId, s: set<NodeId>) returns (g: Course)
    requires Reachable(h) && h.run != [] && x in q && s <= q && x !in s && q <= Now(h).nodes.Keys
    requires forall p :: p in s ==> Probed(Now(h), x, p) && Now(h).nodes[p].currentTerm <= Now(h).nodes[x].currentTerm
    ensures Onward(h, g, q) && q <= Now(g).nodes.Keys
    ensures forall p :: p in s ==> Now(g).nodes[p].currentTerm == Now(h).nodes[x].currentTerm
    ensures forall p :: p in Now(h).nodes && p !in s ==> Now(g).nodes[p] == Now(h).nodes[p]
    decreases |s|
  {
    hide Reachable, Onward, RaftCore.Step, PeersOk, Indexed, Tracks, AppendMessage;
    if s == {} {
      Stay(h, q);
      g := h;
    } else {
      var p :| p in s;
      Here(h, p);
      var f := Do(h, q, p, Receive(x, AppendMessage(Now(h).nodes[x], p)));
      OnwardParts(h, f, q);
      HailedStep(Now(h).nodes[p], x, Now(h).nodes[x]);
      g := Hail(f, q, x, s - {p});
      Further(h, f, g, q);
      OnwardParts(f, g, q);
    }
  }

  /** The leader there is, if no one in q is past its term. */
  lemma Joined(h: Course, q: set<NodeId>, x: NodeId) returns (g: Course)
    requires Reachable(h) && h.run != [] && x in q && q <= Now(h).nodes.Keys && Now(h).nodes[x].role.Leader?
    requires forall p :: p in q ==> Now(h).nodes[p].currentTerm <= Now(h).nodes[x].currentTerm
    ensures Onward(h, g, q) && Led(Now(g), q, x)
  {
    hide Reachable, Onward, PeersOk, Indexed, Tracks, Probed;
    Here(h, x);
    var f := Beat(h, q, x);
    OnwardParts(h, f, q);
    forall p | p in q - {x} ensures Probed(Now(f), x, p) { InPeers(Now(h).nodes.Keys, Now(h).nodes[x], p); }
    g := Hail(f, q, x, q - {x});
    Further(h, f, g, q);
    OnwardParts(f, g, q);
  }

  /** From any reachable state a majority can come to have a leader, all in one term. */
  lemma AnyMajorityCanElect(h: Course, q: set<NodeId>) returns (g: Course, x: NodeId)
    requires Reachable(h) && h.run != [] && q <= Now(h).nodes.Keys && 2 * |q| > |Now(h).nodes.Keys|
    ensures Onward(h, g, q) && Led(Now(g), q, x)
  {
    hide Reachable, Onward, AtLeast, Led;
    x := MostAdvanced(Now(h), q);
    if !Now(h).nodes[x].role.Leader? {
      g := Elected(h, q, x);
    } else if y :| y in q && Now(h).nodes[x].currentTerm < Now(h).nodes[y].currentTerm {
      var f := SteppedDown(h, q, x, y);
      OnwardParts(h, f, q);
      g := Elected(f, q, x);
      Further(h, f, g, q);
    } else {
      g := Joined(h, q, x);
    }
  }

  // ---- repair -----------------------------------------------------------------------------------

  lemma ReplySent(f: Node, from: NodeId, m: Message)
    requires m.AppendEntries?
    ensures var es := Step(f, Receive(from, m)).effects; Send(from, ReplyOf(es)) in es && ReplyOf(es).AppendEntriesResp?
  {
    AppendRule(f, from, m);
    hide RaftCore.Step;
    var es := Step(f, Receive(from, m)).effects;
    assert es[|es| - 1] in es;
  }

  /** A lossless round is what the two handlers make of the probe and of its reply. */
  lemma RoundIs(l: Node, f: Node)
    ensures var r := Step(f, Receive(l.id, AppendMessage(l, f.id)));
      Round(Pair(l, f)) == Pair(Step(l, Receive(f.id, ReplyOf(r.effects))).node, r.node)
  {
    var r := Step(f, Receive(l.id, AppendMessage(l, f.id)));
    ReplySent(f, l.id, AppendMessage(l, f.id));
    assert r == OnAppendEntries(f, l.id, AppendMessage(l, f.id));
    hide OnAppendEntries, OnAppendEntriesResp, AppendMessage;
  }

  /** What p's part in a repair leaves of the leader's knowledge of others. */
  predicate KeepsOthers(n: Node, m: Node, p: NodeId)
    requires n.role.Leader? && m.role.Leader?
  {
    forall o :: o != p && o in n.role.matchIndex ==> o in m.role.matchIndex && m.role.matchIndex[o] == n.role.matchIndex[o]
  }

  /** The follower accepts exactly if it holds the entry before the probe. */
  lemma RoundReply(l: Node, f: Node)
    requires Repairable(Pair(l, f)) && f.id in l.role.nextIndex
    ensures var r := Step(f, Receive(l.id, AppendMessage(l, f.id))); var reply := ReplyOf(r.effects);
      && reply.AppendEntriesResp? && reply.term == l.currentTerm && (reply.success <==> Accepts(Pair(l, f)))
      && r.node.currentTerm == f.currentTerm && r.node.id == f.id
  {
    AppendMessageIs(l, f.id);
    AppendRule(f, l.id, AppendMessage(l, f.id));
    hide RaftCore.Step, AppendMessage, Indexed, TermsTell;
  }

  /** The leader after a round: same term and log, and only what it knows of f has changed. */
  lemma RoundLeader(ids: set<NodeId>, l: Node, p: NodeId, reply: Message)
    requires PeersOk(ids, l) && Tracks(l) && p in ids && p != l.id && l.role.Leader?
    requires reply.AppendEntriesResp? && reply.term == l.currentTerm
    ensures var s := Step(l, Receive(p, reply));
      && s.node.role.Leader? && s.node.log == l.log && s.node.currentTerm == l.currentTerm && s.node.id == l.id
      && KeepsOthers(l, s.node, p)
      && (reply.success ==> CommitsAllItCan(ids, l.(role := s.node.role), s.node))
      && (!reply.success ==> s.node.commitIndex == l.commitIndex && Send(p, AppendMessage(s.node, p)) in s.effects)
  {
    InPeers(ids, l, p);
    AckRule(l, p, reply);
    if reply.success {
      AckCommits(ids, l, p, reply);
    } else {
      RejectionResends(l, p, reply);
    }
    hide RaftCore.Step, AppendMessage, PeersOk, CommitsAllItCan;
  }

  lemma RejectionResends(l: Node, p: NodeId, m: Message)
    requires l.role.Leader? && m.AppendEntriesResp? && m.term == l.currentTerm && !m.success
    ensures var s := Step(l, Receive(p, m)); Send(p, AppendMessage(s.node, p)) in s.effects
  {
    var s := Step(l, Receive(p, m));
    assert s.effects == [] + [AppendFor(WalkBack(l, p), p)];
    assert s.effects[0] == Send(p, AppendMessage(s.node, p));
  }

  /** What an exchange between leader x and p brings about. */
  ghost predicate Brought(c: Cluster, d: Cluster, x: NodeId, p: NodeId) {
    && x in c.nodes && p in c.nodes && x in d.nodes && p in d.nodes
    && d.nodes == c.nodes[p := d.nodes[p]][x := d.nodes[x]]
    && var n, m := c.nodes[x], d.nodes[x];
    && n.role.Leader? && m.role.Leader? && m.log == n.log && m.currentTerm == n.currentTerm && m.id == n.id
    && KeepsOthers(n, m, p) && d.nodes[p].currentTerm == n.currentTerm
    && InStep(Pair(m, d.nodes[p]), n.log) && m.commitIndex >= n.commitIndex
    && (forall k :: 1 <= k <= |n.log| && n.log[k - 1].term == n.currentTerm && 2 * |KnownHolders(c.nodes.Keys, m, k)| > |c.nodes.Keys|
          ==> k <= m.commitIndex)
  }

  lemma {:induction false} Exchange(h: Course, q: set<NodeId>, x: NodeId, p: NodeId) returns (g: Course)
    requires Reachable(h) && h.run != [] && x in q && p in q && x != p && q <= Now(h).nodes.Keys && Now(h).nodes[x].role.Leader?
    requires Now(h).nodes[p].currentTerm == Now(h).nodes[x].currentTerm && Probed(Now(h), x, p)
    ensures Onward(h, g, q) && Brought(Now(h), Now(g), x, p)
    decreases NextFor(Now(h).nodes[x], p)
  {
    hide Onward, RaftCore.Step, PeersOk, Indexed, Tracks, AppendMessage, Repairable, Accepts, IsRun, InStep, CommitsAllItCan, KeepsOthers, Round;
    Here(h, x);
    Here(h, p);
    var ids, l, f := Now(h).nodes.Keys, Now(h).nodes[x], Now(h).nodes[p];
    RepairableInRun(h.run, h.acts, |h.run| - 1, x, p);
    var m := AppendMessage(l, p);
    AppendIsAppend(l, p);
    var reply := ReplyOf(Step(f, Receive(x, m)).effects);
    ReplySent(f, x, m);
    RoundIs(l, f);
    InPeers(ids, l, p);
    TracksPeer(l, p);
    RoundReply(l, f);
    RoundLeader(ids, l, p, reply);
    var h1 := Do(h, q, p, Receive(x, m));
    OnwardParts(h, h1, q);
    var h2 := Do(h1, q, x, Receive(p, reply));
    OnwardParts(h1, h2, q);
    Further(h, h1, h2, q);
    if Accepts(Pair(l, f)) {
      AcceptedRound(Pair(l, f));
      g := h2;
      BroughtNow(Now(h), Now(g), x, p);
    } else {
      RejectedRound(Pair(l, f));
      g := Exchange(h2, q, x, p);
      Further(h, h2, g, q);
      OnwardParts(h2, g, q);
      BroughtLater(Now(h), Now(h2), Now(g), x, p);
    }
  }

  lemma TracksPeer(n: Node, p: NodeId)
    requires Tracks(n) && n.role.Leader? && p in n.peers
    ensures p in n.role.nextIndex && p in n.role.matchIndex
  {}

  lemma AppendIsAppend(l: Node, p: NodeId)
    ensures AppendMessage(l, p).AppendEntries?
  {}

  lemma BroughtNow(c: Cluster, d: Cluster, x: NodeId, p: NodeId)
    requires x in c.nodes && p in c.nodes && x in d.nodes && p in d.nodes && x != p
    requires d.nodes == c.nodes[p := d.nodes[p]][x := d.nodes[x]] && c.nodes[x].role.Leader? && d.nodes[x].role.Leader?
    requires d.nodes[x].log == c.nodes[x].log && d.nodes[x].currentTerm == c.nodes[x].currentTerm && d.nodes[x].id == c.nodes[x].id
    requires KeepsOthers(c.nodes[x], d.nodes[x], p) && d.nodes[p].currentTerm == c.nodes[x].currentTerm
    requires InStep(Pair(d.nodes[x], d.nodes[p]), c.nodes[x].log)
    requires CommitsAllItCan(c.nodes.Keys, c.nodes[x].(role := d.nodes[x].role), d.nodes[x])
    ensures Brought(c, d, x, p)
  {
    var n, m := c.nodes[x], d.nodes[x];
    forall k | 1 <= k <= |n.log| && n.log[k - 1].term == n.currentTerm && 2 * |KnownHolders(c.nodes.Keys, m, k)| > |c.nodes.Keys|
      ensures k <= m.commitIndex
    {
      assert KnownHolders(c.nodes.Keys, n.(role := m.role), k) == KnownHolders(c.nodes.Keys, m, k);
    }
    hide InStep, KeepsOthers, KnownHolders;
  }

  /** A rejected round first makes no difference. */
  lemma BroughtLater(c: Cluster, d: Cluster, e: Cluster, x: NodeId, p: NodeId)
    requires Brought(d, e, x, p) && x != p && x in c.nodes && p in c.nodes && c.nodes.Keys == d.nodes.Keys
    requires d.nodes == c.nodes[p := d.nodes[p]][x := d.nodes[x]] && c.nodes[x].role.Leader?
    requires d.nodes[x].log == c.nodes[x].log && d.nodes[x].currentTerm == c.nodes[x].currentTerm && d.nodes[x].id == c.nodes[x].id
    requires KeepsOthers(c.nodes[x], d.nodes[x], p) && d.nodes[x].commitIndex >= c.nodes[x].commitIndex
    ensures Brought(c, e, x, p)
  {
    hide InStep, KnownHolders;
  }

  lemma BeatKeeps(ids: set<NodeId>, c: Cluster, d: Cluster, x: NodeId, p: NodeId)
    requires x in c.nodes && c.nodes[x].role.Leader? && d.nodes == c.nodes[x := c.nodes[x].(ticks := 0)]
    requires PeersOk(ids, c.nodes[x]) && p in ids && p != c.nodes[x].id
    requires forall o :: o in c.nodes[x].peers ==> Probed(d, x, o)
    ensures Probed(d, x, p)
  {
    InPeers(ids, c.nodes[x], p);
    hide PeersOk, Probed;
  }

  /** The members of `s` hold everything the leader holds, and the leader knows. */
  ghost predicate InLine(c: Cluster, q: set<NodeId>, x: NodeId, s: set<NodeId>, log: Log, term: Term) {
    && q <= c.nodes.Keys && x in q && s <= q
    && c.nodes[x].role.Leader? && c.nodes[x].log == log && c.nodes[x].currentTerm == term
    && (forall p :: p in q ==> c.nodes[p].currentTerm == term)
    && (forall p :: p in s ==> log <= c.nodes[p].log && p in c.nodes[x].role.matchIndex && |log| <= c.nodes[x].role.matchIndex[p])
  }

  lemma OneMoreInLine(c: Cluster, b: Cluster, d: Cluster, q: set<NodeId>, x: NodeId, s: set<NodeId>, p: NodeId, log: Log, term: Term)
    requires InLine(c, q, x, s, log, term) && p in q && p != x && p !in s
    requires b.nodes == c.nodes[x := c.nodes[x].(ticks := 0)] && Brought(b, d, x, p) && d.nodes[p].id == p
    ensures InLine(d, q, x, s + {p}, log, term)
  {
    hide KnownHolders;
  }

  lemma LastCommits(b: Cluster, d: Cluster, q: set<NodeId>, x: NodeId, s: set<NodeId>, p: NodeId, log: Log, term: Term)
    requires Brought(b, d, x, p) && InLine(d, q, x, s, log, term) && b.nodes[x].log == log && b.nodes[x].currentTerm == term
    requires d.nodes[x].id == x && log != [] && log[|log| - 1].term == term && 2 * |s + {x}| > |b.nodes.Keys| && b.nodes.Keys == d.nodes.Keys
    ensures d.nodes[x].commitIndex >= |log|
  {
    var held := KnownHolders(b.nodes.Keys, d.nodes[x], |log|);
    assert s + {x} <= held;
    SubsetCard(s + {x}, held);
  }

  lemma {:induction false} BringAll(h: Course, q: set<NodeId>, x: NodeId, s: set<NodeId>, log: Log, term: Term) returns (g: Course)
    requires Reachable(h) && h.run != [] && InLine(Now(h), q, x, {}, log, term) && s <= q && x !in s
    ensures Onward(h, g, q) && InLine(Now(g), q, x, s, log, term)
    ensures Now(g).nodes[x].commitIndex >= Now(h).nodes[x].commitIndex
    ensures s != {} && log != [] && log[|log| - 1].term == term && 2 * |s + {x}| > |Now(h).nodes.Keys| ==> Now(g).nodes[x].commitIndex >= |log|
    decreases |s|
  {
    hide Reachable, Onward, RaftCore.Step, PeersOk, Indexed, Tracks, AppendMessage, Probed, InStep, KnownHolders, KeepsOthers;
    if s == {} {
      Stay(h, q);
      g := h;
    } else {
      var p :| p in s;
      var f := BringAll(h, q, x, s - {p}, log, term);
      OnwardParts(h, f, q);
      Here(f, x);
      var b := Beat(f, q, x);
      OnwardParts(f, b, q);
      Further(h, f, b, q);
      BeatKeeps(Now(f).nodes.Keys, Now(f), Now(b), x, p);
      g := Exchange(b, q, x, p);
      OnwardParts(b, g, q);
      Further(h, b, g, q);
      Here(g, p);
      OneMoreInLine(Now(f), Now(b), Now(g), q, x, s - {p}, p, log, term);
      assert (s - {p}) + {p} == s;
      Here(g, x);
      if log != [] && log[|log| - 1].term == term && 2 * |s + {x}| > |Now(h).nodes.Keys| {
        LastCommits(Now(b), Now(g), q, x, s, p, log, term);
      }
    }
  }

  // ---- commit news ------------------------------------------------------------------------------

  lemma PrefixTerm(l: Log, m: Log, i: nat)
    requires l <= m && i <= |l|
    ensures TermAt(m, i) == TermAt(l, i)
  {}

  lemma Informed(l: Node, f: Node)
    requires Repairable(Pair(l, f)) && l.log <= f.log && l.commitIndex >= |l.log| && f.id in l.role.nextIndex
    ensures var r := Step(f, Receive(l.id, AppendMessage(l, f.id))).node;
      l.log <= r.log && r.commitIndex >= |l.log| && r.currentTerm == l.currentTerm
  {
    var m := AppendMessage(l, f.id);
    AppendMessageIs(l, f.id);
    AppendRule(f, l.id, m);
    PrefixTerm(l.log, f.log, m.prevLogIndex);
    ProbeIs(l, f);
    SuffixStored(f, l.log, m.prevLogIndex);
    AcceptReplies(f, l.id, m);
    hide RaftCore.Step, AppendMessage, StoreScan, OnAppendEntries, Indexed, TermsTell;
  }

  /** The members of `s` hear the leader's commit index and apply up to it. */
  lemma {:induction false} Inform(h: Course, q: set<NodeId>, x: NodeId, s: set<NodeId>, log: Log, term: Term) returns (g: Course)
    requires Reachable(h) && h.run != [] && InLine(Now(h), q, x, s, log, term) && x !in s
    requires Now(h).nodes[x].commitIndex >= |log| && forall p :: p in s ==> Probed(Now(h), x, p)
    ensures Onward(h, g, q) && q <= Now(g).nodes.Keys
    ensures forall p :: p in s ==> log <= Now(g).nodes[p].log && Now(g).nodes[p].commitIndex >= |log|
    ensures forall p :: p in Now(h).nodes && p !in s ==> Now(g).nodes[p] == Now(h).nodes[p]
    decreases |s|
  {
    hide IsRun, Onward, RaftCore.Step, PeersOk, Indexed, Tracks, AppendMessage, Repairable;
    if s == {} {
      Stay(h, q);
      g := h;
    } else {
      var p :| p in s;
      var l, f := Now(h).nodes[x], Now(h).nodes[p];
      Here(h, x);
      Here(h, p);
      InPeers(Now(h).nodes.Keys, l, p);
      TracksPeer(l, p);
      RepairableInRun(h.run, h.acts, |h.run| - 1, x, p);
      Informed(l, f);
      var h1 := Do(h, q, p, Receive(x, AppendMessage(l, p)));
      OnwardParts(h, h1, q);
      g := Inform(h1, q, x, s - {p}, log, term);
      Further(h, h1, g, q);
      OnwardParts(h1, g, q);
    }
  }

  // ---- the promise ------------------------------------------------------------------------------

  /** Every member of q has applied entry e. */
  predicate AppliedBy(c: Cluster, q: set<NodeId>, e: LogEntry) {
    forall p :: p in q ==> p in c.streams && 1 <= e.index <= |c.streams[p]| && c.streams[p][e.index - 1] == e
  }

  lemma NowApplied(h: Course, p: NodeId, log: Log)
    requires Reachable(h) && h.run != [] && p in Now(h).nodes && log != [] && Indexed(log)
    requires log <= Now(h).nodes[p].log && Now(h).nodes[p].commitIndex >= |log|
    ensures AppliedBy(Now(h), {p}, log[|log| - 1])
  {
    Here(h, p);
    hide IsRun;
    PlaceInRun(h.run, h.acts, |h.run| - 1, p, Tick);
  }

  /** A leader takes a proposal. */
  lemma Proposed(h: Course, q: set<NodeId>, x: NodeId, command: Command) returns (g: Course, e: LogEntry)
    requires Reachable(h) && h.run != [] && Led(Now(h), q, x)
    ensures Onward(h, g, q) && x in Now(h).nodes && e == LogEntry(Now(h).nodes[x].currentTerm, |Now(h).nodes[x].log| + 1, command)
    ensures InLine(Now(g), q, x, {}, Now(h).nodes[x].log + [e], Now(h).nodes[x].currentTerm)
    ensures |Now(h).nodes.Keys| == 1 ==> Now(g).nodes[x].commitIndex == |Now(g).nodes[x].log|
  {
    hide Reachable, Onward, PeersOk, Indexed, Tracks, CommitsAllItCan, AppendTo;
    Here(h, x);
    var n := Now(h).nodes[x];
    e := LogEntry(n.currentTerm, |n.log| + 1, command);
    ProposeRule(Now(h).nodes.Keys, n, command);
    hide RaftCore.Step;
    g := Do(h, q, x, Propose(command));
    OnwardParts(h, g, q);
  }

  lemma AlmostAll(ids: set<NodeId>, q: set<NodeId>, x: NodeId)
    requires q <= ids && x in q && 2 * |q| > |ids| && q - {x} == {}
    ensures |ids| == 1
  {
    assert q == {x};
    SubsetCard(q, ids);
  }

  /** A leader brings its members in line and commits what it took. */
  lemma Committing(h: Course, q: set<NodeId>, x: NodeId, log: Log, term: Term) returns (g: Course)
    requires Reachable(h) && h.run != [] && InLine(Now(h), q, x, {}, log, term) && log != [] && log[|log| - 1].term == term
    requires 2 * |q| > |Now(h).nodes.Keys| && (|Now(h).nodes.Keys| == 1 ==> Now(h).nodes[x].commitIndex == |log|)
    ensures Onward(h, g, q) && InLine(Now(g), q, x, q - {x}, log, term) && Now(g).nodes[x].commitIndex >= |log|
  {
    g := BringAll(h, q, x, q - {x}, log, term);
    hide Reachable, Onward;
    if q - {x} == {} { AlmostAll(Now(h).nodes.Keys, q, x); }
    assert (q - {x}) + {x} == q;
  }

  /** And tells them. */
  lemma Replicated(h: Course, q: set<NodeId>, x: NodeId, log: Log, term: Term) returns (g: Course)
    requires Reachable(h) && h.run != [] && InLine(Now(h), q, x, {}, log, term) && log != [] && log[|log| - 1].term == term
    requires 2 * |q| > |Now(h).nodes.Keys| && (|Now(h).nodes.Keys| == 1 ==> Now(h).nodes[x].commitIndex == |log|)
    ensures Onward(h, g, q) && q <= Now(g).nodes.Keys && Now(g).nodes[x].role.Leader? && Now(g).nodes[x].currentTerm == term
    ensures forall p :: p in q ==> log <= Now(g).nodes[p].log && Now(g).nodes[p].commitIndex >= |log|
  {
    hide Reachable, Onward, PeersOk, Indexed, Tracks, Probed;
    var h3 := Committing(h, q, x, log, term);
    OnwardParts(h, h3, q);
    Here(h3, x);
    var h4 := Beat(h3, q, x);
    OnwardParts(h3, h4, q);
    Further(h, h3, h4, q);
    forall p | p in q - {x} ensures Probed(Now(h4), x, p) { BeatKeeps(Now(h).nodes.Keys, Now(h3), Now(h4), x, p); }
    g := Inform(h4, q, x, q - {x}, log, term);
    OnwardParts(h4, g, q);
    Further(h, h4, g, q);
  }

  /**
   * Availability.  In every reachable state, whatever was lost or crashed before, any majority `q`
   * can, by ticks of its clocks and deliveries among its members alone, come to a leader that
   * takes a new command and to a state in which every member has applied it.
   */
  lemma AnyMajorityCanCommit(h: Course, q: set<NodeId>, command: Command) returns (g: Course, x: NodeId, e: LogEntry)
    requires Reachable(h) && h.run != [] && q <= Now(h).nodes.Keys && 2 * |q| > |Now(h).nodes.Keys|
    ensures Onward(h, g, q) && x in q && q <= Now(g).nodes.Keys && Now(g).nodes[x].role.Leader?
    ensures e.command == command && e.term == Now(g).nodes[x].currentTerm && AppliedBy(Now(g), q, e)
  {
    hide Reachable, Onward, PeersOk, Tracks;
    var h1: Course, h2: Course;
    h1, x := AnyMajorityCanElect(h, q);
    OnwardParts(h, h1, q);
    h2, e := Proposed(h1, q, x, command);
    OnwardParts(h1, h2, q);
    Further(h, h1, h2, q);
    var log := Now(h2).nodes[x].log;
    Here(h2, x);
    g := Replicated(h2, q, x, log, e.term);
    OnwardParts(h2, g, q);
    Further(h, h2, g, q);
    hide Indexed;
    forall p | p in q ensures AppliedBy(Now(g), {p}, e) { NowApplied(g, p, log); }
  }
}

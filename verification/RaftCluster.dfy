/** A whole cluster: nodes, their disks, a network that may lose, duplicate and
    reorder, crashes between any two effects, restarts from disk. */
module RaftCluster {
  import opened Options
  import opened RaftTypes
  import opened RaftLogs
  import opened RaftCore
  import opened RaftStorages
  import opened RaftBallots
  import opened RaftSim
  import opened RaftDurability

  datatype Packet = Packet(from: NodeId, to: NodeId, msg: Message)

  datatype Cluster = Cluster(
    nodes: map<NodeId, Node>,
    disks: map<NodeId, Disk>,
    net: set<Packet>,                        // everything ever sent; delivery never removes
    applied: set<LogEntry>,                  // every entry any node ever applied
    streams: map<NodeId, seq<LogEntry>>)     // what each node applied since it last started

  datatype Action =
    | Handle(id: NodeId, event: Event)
    | Crash(id: NodeId, event: Event, done: nat, timeout: nat)
    | Restart(id: NodeId, timeout: nat)
    | Rearm(id: NodeId, timeout: nat)

  ghost predicate Init(c: Cluster) {
    && c.disks.Keys == c.nodes.Keys && c.streams.Keys == c.nodes.Keys
    && c.net == {} && c.applied == {}
    && (forall i :: i in c.nodes ==>
          && c.nodes[i] == NewNode(i, c.nodes[i].peers, c.nodes[i].timeout)
          && PeersOk(c.nodes.Keys, c.nodes[i])
          && c.disks[i] == BLANK && c.streams[i] == [])
  }

  predicate Possible(c: Cluster, i: NodeId, e: Event) {
    i in c.nodes && i in c.disks && i in c.streams && (e.Receive? ==> Packet(e.from, i, e.msg) in c.net)
  }

  predicate Enabled(c: Cluster, a: Action) {
    match a
    case Handle(i, e) => Possible(c, i, e)
    case Crash(i, e, done, _) => Possible(c, i, e) && done <= |Step(c.nodes[i], e).effects|
    case Restart(i, _) => i in c.nodes && i in c.disks && i in c.streams
    case Rearm(i, _) => i in c.nodes
  }

  /** Node i's step, cut off after `done` effects. */
  function Effected(c: Cluster, i: NodeId, e: Event, done: nat): Io
    requires Possible(c, i, e) && done <= |Step(c.nodes[i], e).effects|
  {
    var r := Step(c.nodes[i], e);
    Exec(Start(c.disks[i]), r.node, r.effects[..done])
  }

  function Post(i: NodeId, sent: seq<(NodeId, Message)>): set<Packet> {
    set x | x in sent :: Packet(i, x.0, x.1)
  }

  function Next(c: Cluster, a: Action): Cluster
    requires Enabled(c, a)
  {
    match a
    case Handle(i, e) =>
      var r := Step(c.nodes[i], e);
      var io := Effected(c, i, e, |r.effects|);
      Cluster(c.nodes[i := r.node], c.disks[i := io.disk], c.net + Post(i, io.sent),
              c.applied + (set x | x in io.applied), c.streams[i := c.streams[i] + io.applied])
    case Crash(i, e, done, timeout) =>
      var io := Effected(c, i, e, done);
      Cluster(c.nodes[i := Recover(i, c.nodes[i].peers, timeout, io.disk)], c.disks[i := io.disk],
              c.net + Post(i, io.sent), c.applied + (set x | x in io.applied), c.streams[i := []])
    case Restart(i, timeout) =>
      c.(nodes := c.nodes[i := Recover(i, c.nodes[i].peers, timeout, c.disks[i])], streams := c.streams[i := []])
    case Rearm(i, timeout) =>
      c.(nodes := c.nodes[i := c.nodes[i].(timeout := timeout)])
  }

  /** The network holds exactly what it held and every message of the effects that ran; nothing sent is
      withheld, whether the step completes or a crash cuts it off. */
  lemma NetGains(c: Cluster, i: NodeId, e: Event, done: nat, timeout: nat)
    requires Possible(c, i, e) && done <= |Step(c.nodes[i], e).effects|
    ensures var es := Step(c.nodes[i], e).effects;
      && Next(c, Handle(i, e)).net == c.net + (set f | f in es && f.Send? :: Packet(i, f.to, f.msg))
      && Next(c, Crash(i, e, done, timeout)).net == c.net + (set f | f in es[..done] && f.Send? :: Packet(i, f.to, f.msg))
  {
    hide RaftCore.Step, Exec, SentOf;
    var r := Step(c.nodes[i], e);
    assert r.effects[..|r.effects|] == r.effects;
    ExecSends(Start(c.disks[i]), r.node, r.effects);
    ExecSends(Start(c.disks[i]), r.node, r.effects[..done]);
    SentMembers(r.effects);
    SentMembers(r.effects[..done]);
    PostIs(i, r.effects);
    PostIs(i, r.effects[..done]);
  }

  lemma {:induction false} PostIs(i: NodeId, es: seq<Effect>)
    ensures Post(i, SentOf(es)) == set f | f in es && f.Send? :: Packet(i, f.to, f.msg)
  {
    SentMembers(es);
    hide SentOf;
    var left, right := Post(i, SentOf(es)), set f | f in es && f.Send? :: Packet(i, f.to, f.msg);
    forall p | p in left ensures p in right {
      var x :| x in SentOf(es) && p == Packet(i, x.0, x.1);
      assert Send(x.0, x.1) in es;
    }
    forall p | p in right ensures p in left {
      var f :| f in es && f.Send? && p == Packet(i, f.to, f.msg);
      assert f == Send(f.to, f.msg) && (f.to, f.msg) in SentOf(es);
    }
  }

  /** A run: an initial cluster, then any enabled actions in any order. */
  ghost predicate IsRun(run: seq<Cluster>, acts: seq<Action>) {
    && |run| == |acts| + 1 && Init(run[0])
    && forall k :: 0 <= k < |acts| ==> Enabled(run[k], acts[k]) && run[k + 1] == Next(run[k], acts[k])
  }

  /** Any node may crash after any number of the effects of any event it may get, and restart or be
      given another timeout at any time; a packet once sent may arrive at any later time, any number of times. */
  lemma FreeToFail(c: Cluster, i: NodeId, timeout: nat)
    requires i in c.nodes && i in c.disks && i in c.streams
    ensures Enabled(c, Restart(i, timeout)) && Enabled(c, Rearm(i, timeout)) && Enabled(c, Handle(i, Tick))
    ensures forall command :: Enabled(c, Handle(i, Propose(command)))
    ensures forall p :: p in c.net && p.to == i ==> Enabled(c, Handle(i, Receive(p.from, p.msg)))
    ensures forall e: Event, done: nat :: Enabled(c, Handle(i, e)) && done <= |Step(c.nodes[i], e).effects|
              ==> Enabled(c, Crash(i, e, done, timeout))
    ensures forall p :: p in c.net ==> p in Next(c, Restart(i, timeout)).net && p in Next(c, Rearm(i, timeout)).net
  {
    hide RaftCore.Step;
  }

  // ---- the running shell is a place in the cluster ----------------------------------------

  /** A node and everything it has done so far are node i's part of the cluster. */
  predicate InPlace(c: Cluster, i: NodeId, n: Node, io: Io) {
    && i in c.nodes && i in c.disks && i in c.streams
    && n == c.nodes[i] && io.disk == c.disks[i] && io.applied == c.streams[i] && Post(i, io.sent) <= c.net
  }

  /** One turn of the loop: the event is handled, and a new candidate's timeout re-armed. */
  function AfterTurn(c: Cluster, i: NodeId, e: Event, timeout: nat): Cluster
    requires Possible(c, i, e)
  {
    var d := Next(c, Handle(i, e));
    if !c.nodes[i].role.Candidate? && d.nodes[i].role.Candidate? then Next(d, Rearm(i, timeout)) else d
  }

  lemma {:induction false} ExecFrom(io: Io, n: Node, es: seq<Effect>)
    ensures var x := Exec(Start(io.disk), n, es);
      Exec(io, n, es) == Io(x.disk, io.sent + x.sent, io.applied + x.applied)
  {
    if es != [] { ExecFrom(io, n, es[..|es| - 1]); }
  }

  lemma PostJoin(i: NodeId, a: seq<(NodeId, Message)>, b: seq<(NodeId, Message)>)
    ensures Post(i, a + b) == Post(i, a) + Post(i, b)
  {}

  /** What a turn of the shell does to its node, disk and channels is what the cluster does. */
  lemma {:induction false} TurnIsClusterStep(c: Cluster, i: NodeId, e: Event, timeout: nat, io: Io)
    requires Possible(c, i, e) && InPlace(c, i, c.nodes[i], io)
    ensures var n := c.nodes[i]; var r := Step(n, e);
      InPlace(AfterTurn(c, i, e, timeout), i, Rearmed(n, r.node, timeout), Exec(io, r.node, r.effects))
  {
    hide RaftCore.Step, Exec;
    var r := Step(c.nodes[i], e);
    assert r.effects[..|r.effects|] == r.effects;
    ExecFrom(io, r.node, r.effects);
    PostJoin(i, io.sent, Exec(Start(io.disk), r.node, r.effects).sent);
  }

  /** A shell that is node i of a cluster still is after a turn, with the cluster one or two actions further. */
  method TurnInCluster(shell: RaftShell, ghost c: Cluster, i: NodeId, e: Event, timeout: nat) returns (ghost d: Cluster)
    requires Possible(c, i, e) && InPlace(c, i, shell.node.State(), shell.Outside())
    modifies shell, shell.storage, shell.node, shell.node.log
    ensures d == AfterTurn(c, i, e, timeout) && InPlace(d, i, shell.node.State(), shell.Outside())
  {
    TurnIsClusterStep(c, i, e, timeout, shell.Outside());
    d := AfterTurn(c, i, e, timeout);
    var _ := shell.Turn(e, timeout);
  }

  /** And a shell built from node i's disk is node i after a restart; what it sent before is on the network. */
  method RestartInCluster(ghost c: Cluster, i: NodeId, storage: RaftStorage, peers: seq<NodeId>, timeout: nat)
    returns (shell: RaftShell, ghost d: Cluster)
    requires i in c.nodes && i in c.disks && i in c.streams
    requires c.nodes[i].peers == peers && storage.Contents() == c.disks[i]
    ensures d == Next(c, Restart(i, timeout)) && shell.storage == storage
    ensures InPlace(d, i, shell.node.State(), shell.Outside())
  {
    shell := new RaftShell(i, peers, storage, timeout);
    d := Next(c, Restart(i, timeout));
  }

  // ---- the relation to ballots -------------------------------------------------------------

  ghost predicate PlaceOk(b: Ballots, c: Cluster, i: NodeId) {
    && i in c.nodes && i in c.disks && i in c.streams
    && c.nodes[i].id == i && NodeOk(b, c.nodes[i]) && Synced(c.nodes[i], c.disks[i])
    && c.nodes[i].lastApplied <= |c.nodes[i].log|
    && c.streams[i] == c.nodes[i].log[..c.nodes[i].lastApplied]
  }

  ghost predicate Related(b: Ballots, c: Cluster) {
    && Inv(b) && b.ids == c.nodes.Keys
    && (forall i :: i in c.nodes ==> PlaceOk(b, c, i))
    && (forall x :: x in c.net ==> MsgOk(b, x.from, x.to, x.msg))
    && (forall e :: e in c.applied ==> EntryOk(b, e))
  }

  function Blank(ids: set<NodeId>): Ballots {
    Ballots(ids, map i | i in ids :: 0, map i | i in ids :: [], map[], map[], map[], map[], map[])
  }

  lemma BlankInv(ids: set<NodeId>)
    ensures Inv(Blank(ids))
  {}

  lemma BlankNode(ids: set<NodeId>, n: Node)
    requires n == NewNode(n.id, n.peers, n.timeout) && PeersOk(ids, n)
    ensures NodeOk(Blank(ids), n) && Synced(n, BLANK)
  {}

  lemma InitRelated(c: Cluster)
    requires Init(c)
    ensures Related(Blank(c.nodes.Keys), c)
  {
    hide Inv, NodeOk, Synced, PeersOk;
    var b := Blank(c.nodes.Keys);
    BlankInv(c.nodes.Keys);
    forall i | i in c.nodes ensures PlaceOk(b, c, i) {
      assert c.nodes[i] == NewNode(i, c.nodes[i].peers, c.nodes[i].timeout);
      BlankNode(c.nodes.Keys, c.nodes[i]);
    }
  }

  /** Everyone but the acting node keeps its place. */
  lemma OthersOk(b: Ballots, d: Ballots, c: Cluster, c': Cluster, i: NodeId)
    requires Related(b, c) && Evolves(b, d, i) && c'.nodes.Keys == c.nodes.Keys
    requires forall j :: j in c.nodes && j != i ==>
      j in c'.disks && j in c'.streams && c'.nodes[j] == c.nodes[j] && c'.disks[j] == c.disks[j] && c'.streams[j] == c.streams[j]
    ensures forall j :: j in c'.nodes && j != i ==> PlaceOk(d, c', j)
  {
    hide Inv, Evolves, NodeOk, Synced;
    forall j | j in c'.nodes && j != i ensures PlaceOk(d, c', j) {
      assert PlaceOk(b, c, j);
      BystanderOk(b, d, c.nodes[j], i);
    }
  }

  /** Old packets and applied entries stay true; new ones come from good effects. */
  lemma OutputsOk(b: Ballots, d: Ballots, c: Cluster, i: NodeId, e: Event, done: nat)
    requires Related(b, c) && Possible(c, i, e) && done <= |Step(c.nodes[i], e).effects| && History(b, d)
    requires EffectsOk(d, i, Step(c.nodes[i], e).effects[..done])
    ensures var io := Effected(c, i, e, done);
      && (forall x :: x in c.net + Post(i, io.sent) ==> MsgOk(d, x.from, x.to, x.msg))
      && (forall x :: x in c.applied + (set y | y in io.applied) ==> EntryOk(d, x))
  {
    hide Inv, MsgOk, EntryOk, RaftCore.Step, Exec;
    var r, io := Step(c.nodes[i], e), Effected(c, i, e, done);
    ExecSound(c.disks[i], r.node, r.effects[..done]);
    forall x | x in c.net + Post(i, io.sent) ensures MsgOk(d, x.from, x.to, x.msg) {
      if x in c.net { MsgStays(b, d, x.from, x.to, x.msg); }
      else { assert EffectOk(d, i, Send(x.to, x.msg)); }
    }
    forall x | x in c.applied + (set y | y in io.applied) ensures EntryOk(d, x) {
      if x in c.applied { EntryStays(b, d, x); } else { assert EffectOk(d, i, Apply(x)); }
    }
  }

  lemma ReadyHere(b: Ballots, c: Cluster, i: NodeId, e: Event)
    requires Related(b, c) && Possible(c, i, e)
    ensures Ready(b, c.nodes[i], e, c.disks[i]) && c.nodes[i].id == i && PlaceOk(b, c, i)
  {
    hide Inv, MsgOk, NodeOk, Synced;
    assert PlaceOk(b, c, i);
  }

  /** The stream grows by exactly what the step applied. */
  lemma StreamOk(b: Ballots, d: Ballots, c: Cluster, i: NodeId, e: Event)
    requires Related(b, c) && Possible(c, i, e) && Inv(d) && History(b, d) && NodeOk(d, Step(c.nodes[i], e).node)
    ensures var r := Step(c.nodes[i], e); var io := Effected(c, i, e, |r.effects|);
      r.node.lastApplied <= |r.node.log| && c.streams[i] + io.applied == r.node.log[..r.node.lastApplied]
  {
    hide Related, Inv, NodeOk, CommitOk, Shape, LeadsSafe, History, RaftCore.Step, Exec, Effected, AppliesGap, AppliedOf, Agree;
    StreamParts(b, d, c, i, e);
    var n, r := c.nodes[i], Step(c.nodes[i], e);
    StepGap(n, e);
    GapParts(n, r);
    AppliedStays(b, d, n, r.node);
    EffectedApplies(c, i, e);
    Appended(c.streams[i], AppliedOf(r.effects), n.log, r.node.log, n.lastApplied, r.node.lastApplied);
  }

  lemma GapParts(n: Node, r: Outcome)
    requires AppliesGap(n, r)
    ensures n.lastApplied <= r.node.lastApplied
    ensures r.node.lastApplied <= |r.node.log| ==> AppliedOf(r.effects) == r.node.log[n.lastApplied..r.node.lastApplied]
  {}

  lemma Appended(s: seq<LogEntry>, more: seq<LogEntry>, l: Log, m: Log, lo: nat, hi: nat)
    requires lo <= hi <= |m| && lo <= |l| && s == l[..lo] && Agree(l, m, lo) && more == m[lo..hi]
    ensures s + more == m[..hi]
  {
    assert l[..lo] == m[..lo];
  }

  lemma StreamParts(b: Ballots, d: Ballots, c: Cluster, i: NodeId, e: Event)
    requires Related(b, c) && Possible(c, i, e) && Inv(d) && NodeOk(d, Step(c.nodes[i], e).node)
    ensures CommitOk(b, c.nodes[i]) && CommitOk(d, Step(c.nodes[i], e).node) && Shape(d) && LeadsSafe(d)
    ensures c.nodes[i].lastApplied <= |c.nodes[i].log| && c.streams[i] == c.nodes[i].log[..c.nodes[i].lastApplied]
    ensures Step(c.nodes[i], e).node.lastApplied <= |Step(c.nodes[i], e).node.log|
  {
    hide Shape, LogsOk, VotesOk, AcksOk, HoldsSafe, BallotsSafe, LeadsSafe, RaftCore.Step, HardOk, PeersOk, RoleOk, MsgOk, EntryOk, Synced;
    assert PlaceOk(b, c, i);
  }

  lemma EffectedApplies(c: Cluster, i: NodeId, e: Event)
    requires Possible(c, i, e)
    ensures var r := Step(c.nodes[i], e); Effected(c, i, e, |r.effects|).applied == AppliedOf(r.effects)
  {
    hide RaftCore.Step, Exec;
    var r := Step(c.nodes[i], e);
    assert r.effects[..|r.effects|] == r.effects;
    ExecApplied(c.disks[i], r.node, r.effects);
  }

  lemma HandleRelated(b: Ballots, c: Cluster, i: NodeId, e: Event) returns (d: Ballots)
    requires Related(b, c) && Possible(c, i, e)
    ensures Related(d, Next(c, Handle(i, e))) && History(b, d)
  {
    hide Inv, Evolves, History, RaftCore.Step, NodeOk, MsgOk, EntryOk, EffectsOk, Synced, Exec;
    var n, r := c.nodes[i], Step(c.nodes[i], e);
    ReadyHere(b, c, i, e);
    d := StepSim(b, n, e);
    EvolvesIsHistory(b, d, i);
    var c' := Next(c, Handle(i, e));
    assert r.effects[..|r.effects|] == r.effects;
    OthersOk(b, d, c, c', i);
    OutputsOk(b, d, c, i, e, |r.effects|);
    StreamOk(b, d, c, i, e);
    var p := StepHasShape(n, e);
    FinalSynced(b, n, e, c.disks[i], p, |r.effects|);
    EvolvesIds(b, d, i);
    assert PlaceOk(d, c', i);
  }

  lemma EvolvesIds(b: Ballots, d: Ballots, i: NodeId)
    requires Evolves(b, d, i)
    ensures b.ids == d.ids
  {}

  lemma CrashRelated(b: Ballots, c: Cluster, i: NodeId, e: Event, done: nat, timeout: nat) returns (d: Ballots)
    requires Related(b, c) && Enabled(c, Crash(i, e, done, timeout))
    ensures Related(d, Next(c, Crash(i, e, done, timeout))) && History(b, d)
    ensures Persisted(Step(c.nodes[i], e).effects, done) ==> CommitOk(d, Step(c.nodes[i], e).node)
  {
    hide Persisted, Inv, Evolves, History, RaftCore.Step, MsgOk, EntryOk, EffectsOk, Synced, Exec, HardOk, RoleOk, CommitOk, PeersOk;
    var n := c.nodes[i];
    ReadyHere(b, c, i, e);
    var x: Node;
    d, x := CrashSim(b, n, e, c.disks[i], done);
    EvolvesIsHistory(b, d, i);
    EvolvesIds(b, d, i);
    var c' := Next(c, Crash(i, e, done, timeout));
    OthersOk(b, d, c, c', i);
    OutputsOk(b, d, c, i, e, done);
    RecoverOk(d, x, n, timeout, c'.disks[i]);
    FreshPlace(d, c', i);
  }

  lemma FreshPlace(d: Ballots, c: Cluster, i: NodeId)
    requires i in c.nodes && i in c.disks && i in c.streams && c.streams[i] == [] && c.nodes[i].id == i
    requires NodeOk(d, c.nodes[i]) && Synced(c.nodes[i], c.disks[i]) && c.nodes[i].lastApplied == 0
    ensures PlaceOk(d, c, i)
  {}

  lemma RestartRelated(b: Ballots, c: Cluster, i: NodeId, timeout: nat)
    requires Related(b, c) && Enabled(c, Restart(i, timeout))
    ensures Related(b, Next(c, Restart(i, timeout)))
  {
    hide Inv, Evolves, MsgOk, EntryOk, Synced, HardOk, RoleOk, CommitOk, PeersOk;
    var c' := Next(c, Restart(i, timeout));
    assert PlaceOk(b, c, i);
    EvolvesRefl(b, i);
    OthersOk(b, b, c, c', i);
    RecoverOk(b, c.nodes[i], c.nodes[i], timeout, c.disks[i]);
    FreshPlace(b, c', i);
  }

  lemma RearmNode(b: Ballots, n: Node, timeout: nat, d: Disk)
    requires NodeOk(b, n) && Synced(n, d)
    ensures NodeOk(b, n.(timeout := timeout)) && Synced(n.(timeout := timeout), d)
  {}

  lemma RearmRelated(b: Ballots, c: Cluster, i: NodeId, timeout: nat)
    requires Related(b, c) && Enabled(c, Rearm(i, timeout))
    ensures Related(b, Next(c, Rearm(i, timeout)))
  {
    hide Inv, Evolves, MsgOk, EntryOk, NodeOk, Synced;
    var c' := Next(c, Rearm(i, timeout));
    assert PlaceOk(b, c, i);
    EvolvesRefl(b, i);
    OthersOk(b, b, c, c', i);
    RearmNode(b, c.nodes[i], timeout, c.disks[i]);
    assert PlaceOk(b, c', i);
  }

  /** Every action of the cluster is matched by ballot actions. */
  lemma NextRelated(b: Ballots, c: Cluster, a: Action) returns (d: Ballots)
    requires Related(b, c) && Enabled(c, a)
    ensures Related(d, Next(c, a)) && History(b, d)
  {
    hide Related, Next;
    HistoryRefl(b);
    match a
    case Handle(i, e) => d := HandleRelated(b, c, i, e);
    case Crash(i, e, done, timeout) => d := CrashRelated(b, c, i, e, done, timeout);
    case Restart(i, timeout) => RestartRelated(b, c, i, timeout); d := b;
    case Rearm(i, timeout) => RearmRelated(b, c, i, timeout); d := b;
  }

  lemma HistoryRefl(b: Ballots)
    ensures History(b, b)
  {}

  /** Ballots for the state at k extend to ballots for any later state. */
  lemma {:induction false} RunExtends(run: seq<Cluster>, acts: seq<Action>, k: nat, j: nat, b: Ballots) returns (d: Ballots)
    requires IsRun(run, acts) && k <= j < |run| && Related(b, run[k])
    ensures Related(d, run[j]) && History(b, d)
    decreases j - k
  {
    hide Related, Next, History;
    if k == j {
      HistoryRefl(b);
      d := b;
    } else {
      var m := NextRelated(b, run[k], acts[k]);
      d := RunExtends(run, acts, k + 1, j, m);
      HistoryTrans(b, m, d);
    }
  }

  lemma RunRelated(run: seq<Cluster>, acts: seq<Action>, j: nat) returns (d: Ballots)
    requires IsRun(run, acts) && j < |run|
    ensures Related(d, run[j])
  {
    hide Related;
    InitRelated(run[0]);
    d := RunExtends(run, acts, 0, j, Blank(run[0].nodes.Keys));
  }
}

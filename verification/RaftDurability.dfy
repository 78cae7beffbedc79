/** Effect order is crash safety: persists come first, so whatever prefix of a
    step's effects runs before a crash, every promise sent is already on disk. */
module RaftDurability {
  import opened Options
  import opened RaftTypes
  import opened RaftLogs
  import opened RaftCore
  import opened RaftStorages
  import opened RaftBallots
  import opened RaftSim

  /** The disk holds exactly the node's term, vote and log. */
  ghost predicate Synced(n: Node, d: Disk) {
    Hard(d) == HardState(n.currentTerm, n.votedFor) && Represents(d.tree, n.log)
  }

  predicate IsPersist(e: Effect) { e.Persist? || e.PersistEntries? || e.PersistTruncate? }

  /** The first p effects persist and none of the others do. */
  ghost predicate PersistsFirst(es: seq<Effect>, p: nat) {
    && p <= |es|
    && (forall i :: 0 <= i < p ==> IsPersist(es[i]))
    && (forall i :: p <= i < |es| ==> !IsPersist(es[i]))
  }

  /** Past the k-th effect nothing is left to persist. */
  predicate Persisted(es: seq<Effect>, k: nat) { forall i :: k <= i < |es| ==> !IsPersist(es[i]) }

  // ---- execution of prefixes ---------------------------------------------------------

  function Start(d: Disk): Io { Io(d, [], []) }

  lemma {:induction false} ExecSound(d: Disk, n: Node, es: seq<Effect>)
    ensures forall x :: x in Exec(Start(d), n, es).sent ==> Send(x.0, x.1) in es
    ensures forall x :: x in Exec(Start(d), n, es).applied ==> Apply(x) in es
  {
    if es != [] { ExecSound(d, n, es[..|es| - 1]); }
  }

  lemma {:induction false} ExecQuiet(d: Disk, n: Node, es: seq<Effect>)
    requires forall i :: 0 <= i < |es| ==> IsPersist(es[i])
    ensures Exec(Start(d), n, es) == Start(Exec(Start(d), n, es).disk)
  {
    if es != [] { ExecQuiet(d, n, es[..|es| - 1]); }
  }

  lemma {:induction false} ExecDiskDone(d: Disk, n: Node, es: seq<Effect>, p: nat)
    requires PersistsFirst(es, p)
    ensures Exec(Start(d), n, es).disk == Exec(Start(d), n, es[..p]).disk
  {
    if p == |es| {
      assert es[..p] == es;
    } else {
      var r := es[..|es| - 1];
      assert r[..p] == es[..p];
      ExecDiskDone(d, n, r, p);
    }
  }

  lemma {:induction false} ExecJoin(io: Io, n: Node, es: seq<Effect>, fs: seq<Effect>)
    ensures Exec(io, n, es + fs) == Exec(Exec(io, n, es), n, fs)
  {
    if fs == [] {
      assert es + fs == es;
    } else {
      var f := fs[..|fs| - 1];
      assert (es + fs)[..|es + fs| - 1] == es + f;
      ExecJoin(io, n, es, f);
    }
  }

  lemma {:induction false} ExecPersists(d: Disk, n: Node, es: seq<Effect>)
    requires forall i :: 0 <= i < |es| ==> es[i] == Persist
    ensures Exec(Start(d), n, es).disk ==
      (if es == [] then d else d.(hard := Some(HardState(n.currentTerm, n.votedFor))))
  {
    if es != [] { ExecPersists(d, n, es[..|es| - 1]); }
  }

  // ---- the log tree ------------------------------------------------------------------

  lemma {:induction false} StoreRepresents(tree: map<LogIndex, LogEntry>, l: Log, es: Log)
    requires Represents(tree, l) && forall i :: 0 <= i < |es| ==> es[i].index == |l| + 1 + i
    ensures Represents(StoreEntries(tree, es), l + es)
  {
    if es == [] {
      assert l + es == l;
    } else {
      var r := es[..|es| - 1];
      StoreRepresents(tree, l, r);
      assert l + es == (l + r) + [es[|es| - 1]];
    }
  }

  lemma CutRepresents(tree: map<LogIndex, LogEntry>, l: Log, j: nat)
    requires Represents(tree, l) && j <= |l|
    ensures Represents(CutTree(tree, j + 1), l[..j])
  {}

  // ---- the three shapes of a step's effects --------------------------------------------

  predicate SameHard(n: Node, m: Node) { n.currentTerm == m.currentTerm && n.votedFor == m.votedFor }

  /** Only term and vote are persisted. */
  ghost predicate HardShape(n: Node, r: Outcome, p: nat) {
    && p <= |r.effects| && r.node.log == n.log && (forall i :: 0 <= i < p ==> r.effects[i] == Persist)
    && (p == 0 ==> SameHard(n, r.node))
  }

  /** A proposal: one entry is persisted. */
  ghost predicate ProposeShape(n: Node, r: Outcome, p: nat) {
    && p == 1 <= |r.effects| && SameHard(n, r.node) && |r.node.log| == |n.log| + 1 && r.node.log[..|n.log|] == n.log
    && r.node.log[|n.log|].index == |n.log| + 1
    && r.effects[..1] == [PersistEntries([r.node.log[|n.log|]])]
  }

  /** An accepted append: the term, then what storing the entries left. */
  ghost predicate StoreShape(n: Node, e: Event, r: Outcome, p: nat) {
    && e.Receive? && e.msg.AppendEntries?
    && var m := e.msg;
       var d := StepDown(n, m.term);
       var s := StoreScan(d.node, m.entries);
       && m.term == d.node.currentTerm && TermAt(n.log, m.prevLogIndex) == Some(m.prevLogTerm)
       && SameHard(d.node, r.node) && r.node.log == s.node.log
       && p <= |r.effects| && r.effects[..p] == d.effects + s.effects
  }

  ghost predicate StepShape(n: Node, e: Event, p: nat) {
    var r := Step(n, e);
    && PersistsFirst(r.effects, p)
    && (HardShape(n, r, p) || ProposeShape(n, r, p) || StoreShape(n, e, r, p))
  }

  lemma BroadcastQuiet(n: Node)
    ensures forall i :: 0 <= i < |BroadcastAppend(n)| ==> BroadcastAppend(n)[i].Send?
  {}

  lemma {:induction false} RequestsQuiet(peers: seq<NodeId>, m: Message)
    ensures forall i :: 0 <= i < |VoteRequests(peers, m)| ==> VoteRequests(peers, m)[i].Send?
  {
    if peers != [] { RequestsQuiet(peers[..|peers| - 1], m); }
  }

  lemma {:induction false} AppliesQuiet(l: Log, lo: LogIndex, hi: LogIndex)
    ensures forall i :: 0 <= i < |Applies(l, lo, hi)| ==> Applies(l, lo, hi)[i].Apply?
  {
    if lo < hi { AppliesQuiet(l, lo, hi - 1); }
  }

  lemma TryCommitQuiet(n: Node)
    ensures var r := TryCommit(n);
      SameHard(n, r.node) && r.node.log == n.log && PersistsFirst(r.effects, 0)
  {
    if n.role.Leader? { AppliesQuiet(n.log, n.lastApplied, CommitTarget(n, |n.log|)); }
  }

  lemma ElectionShape(n: Node)
    ensures var r := StartElection(n); PersistsFirst(r.effects, 1) && HardShape(n, r, 1)
  {
    var c := Campaigner(n);
    var req := RequestVote(c.currentTerm, c.id, |c.log|, LastTerm(c.log));
    RequestsQuiet(c.peers, req);
    BroadcastQuiet(TryWin(c).node);
  }

  lemma AcceptShape(n: Node, from: NodeId, m: Message)
    requires m.AppendEntries?
    ensures var r, s := Accept(n, from, m), StoreScan(n, m.entries);
      && PersistsFirst(r.effects, |s.effects|) && r.effects[..|s.effects|] == s.effects
      && SameHard(n, r.node) && r.node.log == s.node.log
  {
    var s := StoreScan(n, m.entries);
    StorePersists(n, m.entries);
    forall i | 0 <= i < |s.effects| ensures IsPersist(s.effects[i]) { assert s.effects[i] in s.effects; }
    var c := if m.leaderCommit < |s.node.log| then m.leaderCommit else |s.node.log|;
    AppliesQuiet(s.node.log, s.node.lastApplied, c);
  }

  lemma TickShape(n: Node) returns (p: nat)
    ensures StepShape(n, Tick, p)
  {
    var m := n.(ticks := n.ticks + 1);
    BroadcastQuiet(m.(ticks := 0));
    if !m.role.Leader? && m.ticks >= m.timeout {
      ElectionShape(m);
      p := 1;
    } else {
      p := 0;
    }
  }

  lemma ProposalShape(n: Node, command: Command) returns (p: nat)
    ensures StepShape(n, Propose(command), p)
  {
    if n.role.Leader? {
      BroadcastQuiet(Proposer(n, command));
      TryCommitQuiet(Proposer(n, command));
      p := 1;
    } else {
      p := 0;
    }
  }

  lemma VoteShape(n: Node, from: NodeId, m: Message) returns (p: nat)
    requires m.RequestVote? || m.RequestVoteResp?
    ensures StepShape(n, Receive(from, m), p)
  {
    var d := StepDown(n, m.term);
    p := |d.effects|;
    if m.RequestVote? {
      if Grants(d.node, m) { p := p + 1; }
    } else if d.node.role.Candidate? {
      BroadcastQuiet(TryWin(d.node.(role := Candidate(d.node.role.votes + {from}))).node);
    }
  }

  lemma BookkeepingKeeps(n: Node, from: NodeId, k: LogIndex)
    requires n.role.Leader?
    ensures SameHard(n, RecordAck(n, from, k)) && RecordAck(n, from, k).log == n.log
    ensures SameHard(n, WalkBack(n, from)) && WalkBack(n, from).log == n.log
    ensures !IsPersist(AppendFor(WalkBack(n, from), from))
  {}

  lemma AckShape(n: Node, from: NodeId, m: Message) returns (p: nat)
    requires m.AppendEntriesResp?
    ensures StepShape(n, Receive(from, m), p)
  {
    hide TryCommit, RecordAck, WalkBack, AppendFor;
    var d := StepDown(n, m.term);
    p := |d.effects|;
    if d.node.role.Leader? {
      BookkeepingKeeps(d.node, from, m.matchIndex);
      TryCommitQuiet(RecordAck(d.node, from, m.matchIndex));
    }
  }

  lemma AppendShape(n: Node, from: NodeId, m: Message) returns (p: nat)
    requires m.AppendEntries?
    ensures StepShape(n, Receive(from, m), p)
  {
    hide Accept, ScanEntries;
    var d := StepDown(n, m.term);
    var f, r := Heard(d.node, m.leaderId), Step(n, Receive(from, m));
    p := |d.effects|;
    if m.term == d.node.currentTerm && TermAt(f.log, m.prevLogIndex) == Some(m.prevLogTerm) {
      var s := StoreScan(f, m.entries);
      AcceptShape(f, from, m);
      p := p + |s.effects|;
      assert r.effects == d.effects + Accept(f, from, m).effects;
      assert r.effects[..p] == d.effects + s.effects;
    }
  }

  /** Every step persists first, in one of the three shapes. */
  lemma StepHasShape(n: Node, e: Event) returns (p: nat)
    ensures StepShape(n, e, p)
  {
    hide StepShape;
    match e
    case Tick => p := TickShape(n);
    case Propose(command) => p := ProposalShape(n, command);
    case Receive(from, m) =>
      if m.AppendEntries? { p := AppendShape(n, from, m); }
      else if m.AppendEntriesResp? { p := AckShape(n, from, m); }
      else { p := VoteShape(n, from, m); }
  }

  // ---- what is on disk after each prefix -----------------------------------------------

  /** Storing a repair on disk: cut, then append, ends with the repaired log; the
      state between the two is the agreed prefix. */
  lemma RepairOnDisk(d: Disk, nn: Node, l: Log, m: Log, j: nat, q: nat)
    requires Represents(d.tree, l) && Departs(l, m, j, q) && j < q && Indexed(m)
    ensures var cut := Exec(Start(d), nn, [PersistTruncate(j + 1)]).disk;
      cut.hard == d.hard && (j < |l| ==> Represents(cut.tree, l[..j]))
    ensures var es := (if j < |l| then [PersistTruncate(j + 1)] else []) + [PersistEntries(m[j..q])];
      var done := Exec(Start(d), nn, es).disk;
      done.hard == d.hard && Represents(done.tree, m[..q])
  {
    hide Exec, StoreEntries, CutTree;
    var base := if j < |l| then CutTree(d.tree, j + 1) else d.tree;
    ExecRepair(d, nn, j < |l|, m[j..q], j);
    if j < |l| {
      CutRepresents(d.tree, l, j);
    } else {
      assert l[..j] == l;
    }
    hide Represents;
    StoreRepresents(base, l[..j], m[j..q]);
    assert l[..j] + m[j..q] == m[..q];
  }

  /** The two effects of a repair, on the tree. */
  lemma {:induction false} ExecRepair(d: Disk, nn: Node, conflict: bool, more: Log, j: nat)
    ensures Exec(Start(d), nn, [PersistTruncate(j + 1)]).disk == d.(tree := CutTree(d.tree, j + 1))
    ensures var es := (if conflict then [PersistTruncate(j + 1)] else []) + [PersistEntries(more)];
      Exec(Start(d), nn, es).disk == d.(tree := StoreEntries(if conflict then CutTree(d.tree, j + 1) else d.tree, more))
  {
    hide StoreEntries, CutTree;
    var es := (if conflict then [PersistTruncate(j + 1)] else []) + [PersistEntries(more)];
    var trunc := [PersistTruncate(j + 1)];
    assert trunc[..0] == [] && trunc[..|trunc| - 1] == [];
    assert Exec(Start(d), nn, trunc) == ExecOne(Start(d), nn, trunc[0]);
    assert es[..|es| - 1] == if conflict then trunc else [];
  }

  lemma {:induction false} StoreEffectsAre(n: Node, es: seq<LogEntry>, m: Log, j: nat, q: nat)
    requires Departs(n.log, m, j, q) && ScanEntries(n.log, es) == Repaired(n.log, m, j, q)
    ensures StoreScan(n, es).effects ==
      (if j == q then []
       else (if j < |n.log| then [PersistTruncate(j + 1)] else []) + [PersistEntries(m[j..q])])
  {}

  /** After all of an accepted append's storing, the disk has the new log. */
  lemma {:induction false} StoreDisk(b: Ballots, n: Node, from: NodeId, m: Message, d: Disk, nn: Node)
    requires Shape(b) && LogsOk(b) && HardOk(b, n) && m.AppendEntries? && AppendOk(b, from, m)
    requires m.term == n.currentTerm && TermAt(n.log, m.prevLogIndex) == Some(m.prevLogTerm)
    requires Represents(d.tree, n.log)
    ensures var s := StoreScan(n, m.entries); var done := Exec(Start(d), nn, s.effects).disk;
      done.hard == d.hard && Represents(done.tree, s.node.log)
  {
    hide Shape, LogsOk, HardOk, ScanEntries, CanAdopt, Represents, Repaired;
    var q, l := m.prevLogIndex + |m.entries|, b.lead[m.term];
    var j := StoreDoes(b, n, from, m);
    StoreEffectsAre(n, m.entries, l, j, q);
    if j < q { RepairOnDisk(d, nn, n.log, l, j, q); }
  }

  /** Between the cut and the append, the disk has the prefix both logs share,
      which is itself a state the ballots allow. */
  lemma CutDisk(b: Ballots, n: Node, from: NodeId, m: Message, d: Disk, nn: Node) returns (j: nat)
    requires Shape(b) && LogsOk(b) && HardOk(b, n) && m.AppendEntries? && AppendOk(b, from, m)
    requires m.term == n.currentTerm && TermAt(n.log, m.prevLogIndex) == Some(m.prevLogTerm)
    requires Represents(d.tree, n.log) && |StoreScan(n, m.entries).effects| == 2
    ensures CanAdopt(b, n.id, m.term, j, j)
    ensures var es := StoreScan(n, m.entries).effects[..1]; var cut := Exec(Start(d), nn, es).disk;
      cut.hard == d.hard && Represents(cut.tree, b.lead[m.term][..j])
    ensures |StoreScan(n, m.entries).effects| == 2
  {
    hide Shape, LogsOk, HardOk, ScanEntries, StoreScan, CanAdopt, Represents, Exec, Repaired, Departs, Agree, Indexed;
    var q, l := m.prevLogIndex + |m.entries|, b.lead[m.term];
    j := StoreDoes(b, n, from, m);
    TwoEffects(n, m.entries, l, j, q);
    CutOnDisk(d, nn, n.log, l, j, q);
  }

  lemma {:induction false} TwoEffects(n: Node, es: seq<LogEntry>, m: Log, j: nat, q: nat)
    requires Departs(n.log, m, j, q) && ScanEntries(n.log, es) == Repaired(n.log, m, j, q)
    requires |StoreScan(n, es).effects| == 2
    ensures j < q && j < |n.log| && StoreScan(n, es).effects[..1] == [PersistTruncate(j + 1)]
  {
    StoreEffectsAre(n, es, m, j, q);
  }

  lemma CutOnDisk(d: Disk, nn: Node, l: Log, m: Log, j: nat, q: nat)
    requires Represents(d.tree, l) && Departs(l, m, j, q) && j < q && j < |l| && Indexed(m)
    ensures var cut := Exec(Start(d), nn, [PersistTruncate(j + 1)]).disk;
      cut.hard == d.hard && j <= |m| && Represents(cut.tree, m[..j])
  {
    hide Represents, Exec;
    RepairOnDisk(d, nn, l, m, j, q);
    assert l[..j] == m[..j];
  }

  /** The disk after the first k effects of handling e. */
  function DiskAfter(n: Node, e: Event, d: Disk, k: nat): Disk
    requires k <= |Step(n, e).effects|
  {
    Exec(Start(d), Step(n, e).node, Step(n, e).effects[..k]).disk
  }

  lemma HardImage(n: Node, e: Event, d: Disk, p: nat, k: nat)
    requires Synced(n, d) && k <= p && HardShape(n, Step(n, e), p)
    ensures Synced(if k == 0 then n else Step(n, e).node, DiskAfter(n, e, d, k))
    ensures p == 0 ==> Synced(Step(n, e).node, DiskAfter(n, e, d, k))
  {
    hide RaftCore.Step, Represents;
    ExecPersists(d, Step(n, e).node, Step(n, e).effects[..k]);
  }

  lemma ProposeImage(n: Node, e: Event, d: Disk, k: nat)
    requires Synced(n, d) && k <= 1 && ProposeShape(n, Step(n, e), 1)
    ensures Synced(if k == 0 then n else Step(n, e).node, DiskAfter(n, e, d, k))
  {
    hide RaftCore.Step;
    var r := Step(n, e);
    if k == 1 {
      var x := r.node.log[|n.log|];
      StoreRepresents(d.tree, n.log, [x]);
      assert n.log + [x] == r.node.log;
      var es := r.effects[..1];
      assert es[..|es| - 1] == [];
      assert Exec(Start(d), r.node, es) == ExecOne(Start(d), r.node, es[0]);
    }
  }

  /** The term persisted, nothing stored yet. */
  lemma {:induction false} TermImage(n: Node, t: Term, d: Disk, nn: Node)
    requires Synced(n, d) && SameHard(StepDown(n, t).node, nn)
    ensures var d1 := Exec(Start(d), nn, StepDown(n, t).effects).disk;
      Synced(StepDown(n, t).node, d1) && d1.tree == d.tree
      && Exec(Start(d), nn, StepDown(n, t).effects) == Start(d1)
  {
    hide Represents;
    var es := StepDown(n, t).effects;
    ExecPersists(d, nn, es);
    ExecQuiet(d, nn, es);
  }

  /** A related node, an enabled event, and a disk in step with the node. */
  ghost predicate Ready(b: Ballots, n: Node, e: Event, d: Disk) {
    Inv(b) && NodeOk(b, n) && (e.Receive? ==> MsgOk(b, e.from, n.id, e.msg)) && Synced(n, d)
  }

  lemma StoreFinal(b: Ballots, n: Node, e: Event, d: Disk, p: nat)
    requires Ready(b, n, e, d) && StoreShape(n, e, Step(n, e), p)
    ensures Synced(Step(n, e).node, DiskAfter(n, e, d, p))
  {
    hide RaftCore.Step, StoreScan, Basic, Evolves, Safe, Represents, EffectsOk;
    var m, r := e.msg, Step(n, e);
    var dn := StepDown(n, m.term);
    var b1 := StepDownSim(b, n, m.term);
    assert History(b, b1) by { EvolvesIsHistory(b, b1, n.id); }
    MsgStays(b, b1, e.from, n.id, m);
    TermImage(n, m.term, d, r.node);
    var d1 := Exec(Start(d), r.node, dn.effects).disk;
    BasicParts(b1);
    StoreDisk(b1, dn.node, e.from, m, d1, r.node);
    ExecJoin(Start(d), r.node, dn.effects, StoreScan(dn.node, m.entries).effects);
  }

  lemma BasicParts(b: Ballots)
    requires Basic(b)
    ensures Shape(b) && LogsOk(b)
  {}

  /** Crash between the cut and the append: ballots in which the node had only
      adopted the shared prefix. */
  lemma CutImage(b: Ballots, n: Node, from: NodeId, m: Message, d: Disk, nn: Node) returns (c: Ballots, x: Node)
    requires Inv(b) && NodeOk(b, n) && m.AppendEntries? && MsgOk(b, from, n.id, m) && Synced(n, d)
    requires m.term == n.currentTerm && TermAt(n.log, m.prevLogIndex) == Some(m.prevLogTerm)
    requires |StoreScan(n, m.entries).effects| > 1
    ensures Inv(c) && Evolves(b, c, n.id) && HardOk(c, x) && x.id == n.id
    ensures |StoreScan(n, m.entries).effects| == 2
    ensures Synced(x, Exec(Start(d), nn, StoreScan(n, m.entries).effects[..1]).disk)
  {
    hide StoreScan, Evolves, Safe, Shape, LogsOk, VotesOk, AcksOk, Represents, RoleOk, PeersOk, CommitOk;
    StoreEffectCount(b, n, from, m);
    var j := CutDisk(b, n, from, m, d, nn);
    c := Adopt(b, n.id, m.term, j);
    AdoptKeepsInv(b, n.id, m.term, j, j);
    x := n.(log := b.lead[m.term][..j]);
  }

  /** Crash during storing: the disk is what the term check alone, or the cut
      alone, would have left. */
  lemma StoreMid(b: Ballots, n: Node, e: Event, d: Disk, p: nat, k: nat) returns (c: Ballots, x: Node)
    requires Ready(b, n, e, d) && StoreShape(n, e, Step(n, e), p) && 0 < k < p
    requires k >= |StepDown(n, e.msg.term).effects|
    ensures Inv(c) && Evolves(b, c, n.id) && HardOk(c, x) && x.id == n.id && Synced(x, DiskAfter(n, e, d, k))
  {
    hide RaftCore.Step, StoreScan, Inv, Evolves, Represents, EffectsOk, MsgOk, HardOk, PeersOk, RoleOk, CommitOk;
    var m, r := e.msg, Step(n, e);
    var dn, s := StepDown(n, m.term), StoreScan(StepDown(n, m.term).node, m.entries);
    var b1 := StepDownSim(b, n, m.term);
    TermImage(n, m.term, d, r.node);
    var d1 := Exec(Start(d), r.node, dn.effects).disk;
    var i := k - |dn.effects|;
    assert r.effects[..k] == dn.effects + s.effects[..i];
    if i == 0 {
      assert dn.effects + s.effects[..0] == dn.effects;
      return b1, dn.node;
    }
    EvolvesIsHistory(b, b1, n.id);
    MsgStays(b, b1, e.from, n.id, m);
    c, x := CutImage(b1, dn.node, e.from, m, d1, r.node);
    ExecJoin(Start(d), r.node, dn.effects, s.effects[..1]);
    EvolvesVia(b, b1, c, n.id);
  }

  lemma EvolvesVia(b: Ballots, c: Ballots, d: Ballots, id: NodeId)
    requires Inv(b) && Inv(c) && Evolves(b, c, id) && Evolves(c, d, id)
    ensures Evolves(b, d, id)
  {
    hide Evolves;
    EvolvesTrans(b, c, d, id);
  }

  lemma StoreEffectCount(b: Ballots, n: Node, from: NodeId, m: Message)
    requires Shape(b) && LogsOk(b) && HardOk(b, n) && m.AppendEntries? && AppendOk(b, from, m)
    requires m.term == n.currentTerm && TermAt(n.log, m.prevLogIndex) == Some(m.prevLogTerm)
    ensures |StoreScan(n, m.entries).effects| <= 2
  {
    hide Shape, LogsOk, ScanEntries, StoreScan, CanAdopt;
    var j := StoreDoes(b, n, from, m);
    StoreEffectsAre(n, m.entries, b.lead[m.term], j, m.prevLogIndex + |m.entries|);
  }

  // ---- crashing anywhere --------------------------------------------------------------

  /** Once the persists are done, the disk is the node's new durable state. */
  lemma FinalSynced(b: Ballots, n: Node, e: Event, d: Disk, p: nat, k: nat)
    requires Ready(b, n, e, d) && StepShape(n, e, p) && p <= k <= |Step(n, e).effects|
    ensures Synced(Step(n, e).node, DiskAfter(n, e, d, k))
  {
    hide RaftCore.Step, Inv, NodeOk, MsgOk, Synced, Exec;
    var r := Step(n, e);
    assert r.effects[..k][..p] == r.effects[..p];
    ExecDiskDone(d, r.node, r.effects[..k], p);
    if HardShape(n, r, p) { HardImage(n, e, d, p, p); }
    else if ProposeShape(n, r, p) { ProposeImage(n, e, d, p); }
    else { StoreFinal(b, n, e, d, p); }
  }

  lemma PersistPrefixOk(b: Ballots, id: NodeId, es: seq<Effect>, p: nat, k: nat)
    requires PersistsFirst(es, p) && k <= p
    ensures EffectsOk(b, id, es[..k])
  {
    forall i | 0 <= i < k ensures EffectOk(b, id, es[..k][i]) { assert IsPersist(es[i]); }
  }

  lemma EffectsPrefixOk(b: Ballots, id: NodeId, es: seq<Effect>, k: nat)
    requires EffectsOk(b, id, es) && k <= |es|
    ensures EffectsOk(b, id, es[..k])
  {}

  /** Whatever prefix of its effects a node executes before it crashes, the disk is
      one the ballots account for, and so is everything it sent and applied. */
  lemma CrashSim(b: Ballots, n: Node, e: Event, d: Disk, k: nat) returns (c: Ballots, x: Node)
    requires Ready(b, n, e, d) && k <= |Step(n, e).effects|
    ensures Inv(c) && Evolves(b, c, n.id) && HardOk(c, x) && x.id == n.id
    ensures Synced(x, DiskAfter(n, e, d, k)) && EffectsOk(c, n.id, Step(n, e).effects[..k])
    ensures Persisted(Step(n, e).effects, k) ==> CommitOk(c, Step(n, e).node)
  {
    hide RaftCore.Step, Inv, Evolves, MsgOk, EffectsOk, Synced, Exec, HardOk, RoleOk, CommitOk;
    var r := Step(n, e);
    var p := StepHasShape(n, e);
    assert k < p ==> IsPersist(r.effects[k]);
    var done := StepSim(b, n, e);
    if k >= p {
      FinalSynced(b, n, e, d, p, k);
      EffectsPrefixOk(done, n.id, r.effects, k);
      c, x := done, r.node;
    } else if k == 0 {
      BeforeAnything(b, n, e, d);
      c, x := b, n;
    } else {
      if HardShape(n, r, p) {
        HardImage(n, e, d, p, k);
        c, x := done, r.node;
      } else {
        StepDownEffects(n, e);
        c, x := StoreMid(b, n, e, d, p, k);
      }
      PersistPrefixOk(c, n.id, r.effects, p, k);
    }
  }

  lemma BeforeAnything(b: Ballots, n: Node, e: Event, d: Disk)
    requires Synced(n, d)
    ensures Evolves(b, b, n.id) && Synced(n, DiskAfter(n, e, d, 0)) && EffectsOk(b, n.id, Step(n, e).effects[..0])
  {
    hide RaftCore.Step;
    assert Step(n, e).effects[..0] == [];
  }

  lemma StepDownEffects(n: Node, e: Event)
    ensures e.Receive? ==> |StepDown(n, e.msg.term).effects| <= 1
  {}

  /** Restarting from a disk the ballots account for gives a related node. */
  lemma RecoverOk(b: Ballots, x: Node, n: Node, timeout: nat, d: Disk)
    requires HardOk(b, x) && Synced(x, d) && PeersOk(b.ids, n) && x.id == n.id
    ensures var r := Recover(n.id, n.peers, timeout, d); NodeOk(b, r) && Synced(r, d)
  {
    LoadReturnsStored(d.tree, x.log);
  }

  // ---- persist before promise ------------------------------------------------------------

  /** What a message promises is on the disk already. */
  ghost predicate Backed(d: Disk, id: NodeId, to: NodeId, m: Message, e: Event) {
    var hs, l := Hard(d), InKeyOrder(d.tree);
    && hs.currentTerm == m.term
    && match m
       case RequestVote(_, c, i, lt) => c == id && hs.votedFor == Some(id) && i == |l| && lt == LastTerm(l)
       case RequestVoteResp(_, granted) => granted ==> hs.votedFor == Some(to)
       case AppendEntries(_, _, prev, pt, es, _) =>
         prev + |es| <= |l| && l[prev..prev + |es|] == es && TermAt(l, prev) == Some(pt)
       case AppendEntriesResp(_, success, k) =>
         success ==>
           && e.Receive? && e.msg.AppendEntries? && k <= |l|
           && k == e.msg.prevLogIndex + |e.msg.entries| && l[e.msg.prevLogIndex..k] == e.msg.entries
           && TermAt(l, e.msg.prevLogIndex) == Some(e.msg.prevLogTerm)
  }

  /** What kind of message a step may send, from the node it leaves behind. */
  ghost predicate SendFits(n: Node, e: Event, r: Node, m: Message) {
    && m.term == r.currentTerm
    && (m.RequestVote? ==> r.votedFor == Some(r.id) && m == RequestVote(r.currentTerm, r.id, |r.log|, LastTerm(r.log)))
    && (m.AppendEntries? ==> r.role.Leader?)
    && (m.AppendEntriesResp? && m.success ==>
          && e.Receive? && e.msg.AppendEntries? && m.matchIndex == e.msg.prevLogIndex + |e.msg.entries|
          && TermAt(n.log, e.msg.prevLogIndex) == Some(e.msg.prevLogTerm)
          && e.msg.term == StepDown(n, e.msg.term).node.currentTerm
          && r.log == StoreScan(StepDown(n, e.msg.term).node, e.msg.entries).node.log)
  }

  ghost predicate SendsFit(n: Node, e: Event, r: Outcome) {
    forall i :: 0 <= i < |r.effects| && r.effects[i].Send? ==> SendFits(n, e, r.node, r.effects[i].msg)
  }

  lemma {:induction false} RequestsAre(peers: seq<NodeId>, m: Message)
    ensures forall i :: 0 <= i < |VoteRequests(peers, m)| ==> VoteRequests(peers, m)[i].Send? && VoteRequests(peers, m)[i].msg == m
  {
    if peers != [] { RequestsAre(peers[..|peers| - 1], m); }
  }

  lemma ElectionFits(n: Node, e: Event)
    ensures SendsFit(n, e, StartElection(n))
  {
    var c := Campaigner(n);
    RequestsAre(c.peers, RequestVote(c.currentTerm, c.id, |c.log|, LastTerm(c.log)));
  }

  lemma TryCommitFits(n: Node)
    ensures var r := TryCommit(n); r.node.role == n.role && forall i :: 0 <= i < |r.effects| ==> !r.effects[i].Send?
  {
    if n.role.Leader? { AppliesQuiet(n.log, n.lastApplied, CommitTarget(n, |n.log|)); }
  }

  lemma AcceptFits(n: Node, from: NodeId, m: Message)
    requires m.AppendEntries?
    ensures var r, s := Accept(n, from, m), StoreScan(n, m.entries);
      && SameHard(n, r.node) && r.node.log == s.node.log
      && forall i :: 0 <= i < |r.effects| && r.effects[i].Send? ==>
           r.effects[i].msg == AppendEntriesResp(n.currentTerm, true, m.prevLogIndex + |m.entries|)
  {
    var s := StoreScan(n, m.entries);
    StorePersists(n, m.entries);
    var c := if m.leaderCommit < |s.node.log| then m.leaderCommit else |s.node.log|;
    AppliesQuiet(s.node.log, s.node.lastApplied, c);
    forall i | 0 <= i < |s.effects| ensures !s.effects[i].Send? { assert s.effects[i] in s.effects; }
  }

  lemma AppendFits(n: Node, from: NodeId, m: Message)
    requires m.AppendEntries?
    ensures SendsFit(n, Receive(from, m), OnAppendEntries(n, from, m))
  {
    hide Accept, ScanEntries;
    AcceptFits(Heard(StepDown(n, m.term).node, m.leaderId), from, m);
  }

  lemma AckFits(n: Node, from: NodeId, m: Message)
    requires m.AppendEntriesResp?
    ensures SendsFit(n, Receive(from, m), OnAppendEntriesResp(n, from, m))
  {
    hide TryCommit;
    var d := StepDown(n, m.term);
    if d.node.role.Leader? {
      TryCommitFits(RecordAck(d.node, from, m.matchIndex));
      TryCommitQuiet(RecordAck(d.node, from, m.matchIndex));
    }
  }

  lemma ProposeFits(n: Node, command: Command)
    ensures SendsFit(n, Propose(command), OnPropose(n, command))
  {
    hide TryCommit;
    TryCommitFits(Proposer(n, command));
    TryCommitQuiet(Proposer(n, command));
  }

  lemma StepFits(n: Node, e: Event)
    ensures SendsFit(n, e, Step(n, e))
  {
    match e
    case Tick => ElectionFits(n.(ticks := n.ticks + 1), e);
    case Propose(command) => ProposeFits(n, command);
    case Receive(from, m) =>
      if m.AppendEntries? { AppendFits(n, from, m); }
      else if m.AppendEntriesResp? { AckFits(n, from, m); }
  }

  /** The acknowledged entries are in the log the step leaves. */
  lemma AckHeld(b: Ballots, n: Node, from: NodeId, m: Message)
    requires Inv(b) && NodeOk(b, n) && m.AppendEntries? && MsgOk(b, from, n.id, m)
    requires m.term == StepDown(n, m.term).node.currentTerm && TermAt(n.log, m.prevLogIndex) == Some(m.prevLogTerm)
    ensures var l, k := StoreScan(StepDown(n, m.term).node, m.entries).node.log, m.prevLogIndex + |m.entries|;
      k <= |l| && l[m.prevLogIndex..k] == m.entries && TermAt(l, m.prevLogIndex) == Some(m.prevLogTerm)
  {
    hide Safe, Evolves, StoreScan, RoleOk, PeersOk, CommitOk, Shape, LogsOk, VotesOk, AcksOk, EffectsOk, CanAdopt;
    var b1 := StepDownSim(b, n, m.term);
    EvolvesIsHistory(b, b1, n.id);
    MsgStays(b, b1, from, n.id, m);
    var j := StoreCases(b1, StepDown(n, m.term).node, from, m);
  }

  lemma AppendBacked(b: Ballots, n: Node, to: NodeId, m: Message)
    requires NodeOk(b, n) && n.role.Leader? && m.AppendEntries? && m.term == n.currentTerm && MsgOk(b, n.id, to, m)
    ensures m.prevLogIndex + |m.entries| <= |n.log|
    ensures n.log[m.prevLogIndex..m.prevLogIndex + |m.entries|] == m.entries
    ensures TermAt(n.log, m.prevLogIndex) == Some(m.prevLogTerm)
  {}

  lemma {:induction false} QuietPrefix(d: Disk, n: Node, es: seq<Effect>, p: nat, k: nat)
    requires PersistsFirst(es, p) && k <= |es|
    ensures k <= p ==> Exec(Start(d), n, es[..k]).sent == []
  {
    if k <= p {
      forall i | 0 <= i < k ensures IsPersist(es[..k][i]) { assert IsPersist(es[i]); }
      ExecQuiet(d, n, es[..k]);
    }
  }

  /** Persist before promise: at every prefix of a step's effects, everything sent
      so far is backed by what the disk holds at that point. */
  lemma PromiseBacked(b: Ballots, n: Node, e: Event, d: Disk, k: nat, to: NodeId, m: Message)
    requires Ready(b, n, e, d) && k <= |Step(n, e).effects|
    requires (to, m) in Exec(Start(d), Step(n, e).node, Step(n, e).effects[..k]).sent
    ensures Backed(DiskAfter(n, e, d, k), n.id, to, m, e)
  {
    hide RaftCore.Step, Inv, Evolves, MsgOk, HardShape, ProposeShape, StoreShape, Exec, StoreScan;
    var r := Step(n, e);
    var p := StepHasShape(n, e);
    QuietPrefix(d, r.node, r.effects, p, k);
    if k > p {
      FinalSynced(b, n, e, d, p, k);
      LoadReturnsStored(DiskAfter(n, e, d, k).tree, r.node.log);
      ExecSound(d, r.node, r.effects[..k]);
      var i :| 0 <= i < k && r.effects[i] == Send(to, m);
      StepFits(n, e);
      var c := StepSim(b, n, e);
      assert EffectOk(c, n.id, r.effects[i]);
      SentBacked(b, c, n, e, to, m);
    }
  }

  lemma SentBacked(b: Ballots, c: Ballots, n: Node, e: Event, to: NodeId, m: Message)
    requires Inv(b) && NodeOk(b, n) && (e.Receive? ==> MsgOk(b, e.from, n.id, e.msg))
    requires NodeOk(c, Step(n, e).node) && Step(n, e).node.id == n.id && MsgOk(c, n.id, to, m)
    requires SendFits(n, e, Step(n, e).node, m)
    ensures var r := Step(n, e).node; forall d: Disk ::
      Hard(d) == HardState(r.currentTerm, r.votedFor) && InKeyOrder(d.tree) == r.log ==> Backed(d, n.id, to, m, e)
  {
    hide RaftCore.Step, Inv, StoreScan;
    var r := Step(n, e).node;
    if m.AppendEntries? { AppendBacked(c, r, to, m); }
    if m.AppendEntriesResp? && m.success { AckHeld(b, n, e.from, e.msg); }
  }

  // ---- what a step applies --------------------------------------------------------------

  /** The entries handed to the state machine, in order. */
  function AppliedOf(es: seq<Effect>): seq<LogEntry> {
    if es == [] then []
    else AppliedOf(es[..|es| - 1]) + (if es[|es| - 1].Apply? then [es[|es| - 1].entry] else [])
  }

  lemma {:induction false} ExecApplied(d: Disk, n: Node, es: seq<Effect>)
    ensures Exec(Start(d), n, es).applied == AppliedOf(es)
  {
    if es != [] { ExecApplied(d, n, es[..|es| - 1]); }
  }

  /** The messages a step sends, in order. */
  function SentOf(es: seq<Effect>): seq<(NodeId, Message)> {
    if es == [] then []
    else SentOf(es[..|es| - 1]) + (if es[|es| - 1].Send? then [(es[|es| - 1].to, es[|es| - 1].msg)] else [])
  }

  /** Executing effects sends exactly their messages and applies exactly their entries, in their order. */
  lemma {:induction false} ExecSends(io: Io, n: Node, es: seq<Effect>)
    ensures Exec(io, n, es).sent == io.sent + SentOf(es)
    ensures Exec(io, n, es).applied == io.applied + AppliedOf(es)
  {
    if es != [] { ExecSends(io, n, es[..|es| - 1]); }
  }

  lemma {:induction false} SentMembers(es: seq<Effect>)
    ensures forall to: NodeId, m: Message :: (to, m) in SentOf(es) <==> Send(to, m) in es
  {
    if es != [] {
      SentMembers(es[..|es| - 1]);
      assert es == es[..|es| - 1] + [es[|es| - 1]];
    }
  }

  lemma {:induction false} AppliedJoin(es: seq<Effect>, fs: seq<Effect>)
    ensures AppliedOf(es + fs) == AppliedOf(es) + AppliedOf(fs)
  {
    if fs == [] {
      assert es + fs == es;
    } else {
      assert (es + fs)[..|es + fs| - 1] == es + fs[..|fs| - 1];
      AppliedJoin(es, fs[..|fs| - 1]);
    }
  }

  lemma {:induction false} AppliedNone(es: seq<Effect>)
    requires forall i :: 0 <= i < |es| ==> !es[i].Apply?
    ensures AppliedOf(es) == []
  {
    if es != [] { AppliedNone(es[..|es| - 1]); }
  }

  lemma {:induction false} AppliedRange(l: Log, lo: LogIndex, hi: LogIndex)
    requires lo <= hi <= |l|
    ensures AppliedOf(Applies(l, lo, hi)) == l[lo..hi]
  {
    if lo < hi {
      AppliedRange(l, lo, hi - 1);
      AppliedJoin(Applies(l, lo, hi - 1), [Apply(l[hi - 1])]);
      assert AppliedOf([Apply(l[hi - 1])]) == [l[hi - 1]];
    }
  }

  /** The step applied exactly the entries between the two last_applied marks. */
  ghost predicate AppliesGap(n: Node, r: Outcome) {
    && n.lastApplied <= r.node.lastApplied
    && (r.node.lastApplied <= |r.node.log| ==>
          AppliedOf(r.effects) == r.node.log[n.lastApplied..r.node.lastApplied])
  }

  lemma AdvanceGap(n: Node)
    ensures AppliesGap(n, AdvanceApplied(n))
  {
    if n.lastApplied < n.commitIndex <= |n.log| { AppliedRange(n.log, n.lastApplied, n.commitIndex); }
  }

  lemma GapAround(n: Node, m: Node, pre: seq<Effect>, r: Outcome, post: seq<Effect>)
    requires AppliesGap(m, r) && n.lastApplied == m.lastApplied
    requires (forall i :: 0 <= i < |pre| ==> !pre[i].Apply?) && (forall i :: 0 <= i < |post| ==> !post[i].Apply?)
    ensures AppliesGap(n, Outcome(r.node, pre + r.effects + post))
  {
    AppliedNone(pre);
    AppliedNone(post);
    AppliedJoin(pre, r.effects);
    AppliedJoin(pre + r.effects, post);
  }

  lemma AcceptGap(n: Node, from: NodeId, m: Message)
    requires m.AppendEntries?
    ensures AppliesGap(n, Accept(n, from, m))
  {
    hide ScanEntries;
    var s := StoreScan(n, m.entries);
    var c := LearnCommit(s.node, m.leaderCommit);
    if m.leaderCommit > s.node.commitIndex {
      AdvanceGap(s.node.(commitIndex := if m.leaderCommit < |s.node.log| then m.leaderCommit else |s.node.log|));
    }
    assert AppliesGap(s.node, c);
    StorePersists(n, m.entries);
    forall i | 0 <= i < |s.effects| ensures !s.effects[i].Apply? { assert s.effects[i] in s.effects; }
    GapAround(n, s.node, s.effects, c,
              [Send(from, AppendEntriesResp(c.node.currentTerm, true, m.prevLogIndex + |m.entries|))]);
  }

  lemma TryCommitGap(n: Node)
    ensures AppliesGap(n, TryCommit(n))
  {
    if n.role.Leader? { AdvanceGap(n.(commitIndex := CommitTarget(n, |n.log|))); }
  }

  lemma AppendGap(n: Node, from: NodeId, m: Message)
    requires m.AppendEntries?
    ensures AppliesGap(n, OnAppendEntries(n, from, m))
  {
    hide Accept, AppliesGap;
    var d := StepDown(n, m.term);
    var f := Heard(d.node, m.leaderId);
    AcceptGap(f, from, m);
    GapAround(n, f, d.effects, Accept(f, from, m), []);
    assert d.effects + Accept(f, from, m).effects + [] == d.effects + Accept(f, from, m).effects;
    SilentGap(n, OnAppendEntries(n, from, m));
  }

  /** A step with no Apply effect that leaves last_applied alone. */
  lemma SilentGap(n: Node, r: Outcome)
    ensures r.node.lastApplied == n.lastApplied && (forall i :: 0 <= i < |r.effects| ==> !r.effects[i].Apply?)
      ==> AppliesGap(n, r)
  {
    if forall i :: 0 <= i < |r.effects| ==> !r.effects[i].Apply? { AppliedNone(r.effects); }
  }

  lemma AckGap(n: Node, from: NodeId, m: Message)
    requires m.AppendEntriesResp?
    ensures AppliesGap(n, OnAppendEntriesResp(n, from, m))
  {
    hide TryCommit, AppliesGap;
    var d := StepDown(n, m.term);
    SilentGap(n, OnAppendEntriesResp(n, from, m));
    if d.node.role.Leader? && m.success {
      var a := RecordAck(d.node, from, m.matchIndex);
      TryCommitGap(a);
      GapAround(n, a, d.effects, TryCommit(a), []);
      assert d.effects + TryCommit(a).effects + [] == d.effects + TryCommit(a).effects;
    }
  }

  lemma ProposeGap(n: Node, command: Command)
    ensures AppliesGap(n, OnPropose(n, command))
  {
    hide TryCommit, AppliesGap;
    var a := Proposer(n, command);
    var pre := [PersistEntries([LogEntry(n.currentTerm, |n.log| + 1, command)])] + BroadcastAppend(a);
    TryCommitGap(a);
    GapAround(n, a, pre, TryCommit(a), []);
    assert pre + TryCommit(a).effects + [] == pre + TryCommit(a).effects;
    SilentGap(n, OnPropose(n, command));
  }

  lemma QuietGap(n: Node, e: Event)
    requires e.Tick? || (e.Receive? && (e.msg.RequestVote? || e.msg.RequestVoteResp?))
    ensures AppliesGap(n, Step(n, e))
  {
    hide AppliesGap;
    if e.Tick? {
      var c := Campaigner(n.(ticks := n.ticks + 1));
      RequestsAre(c.peers, RequestVote(c.currentTerm, c.id, |c.log|, LastTerm(c.log)));
    }
    SilentGap(n, Step(n, e));
  }

  lemma StepGap(n: Node, e: Event)
    ensures AppliesGap(n, Step(n, e))
  {
    hide AppliesGap;
    if e.Propose? { ProposeGap(n, e.command); }
    else if e.Receive? && e.msg.AppendEntries? { AppendGap(n, e.from, e.msg); }
    else if e.Receive? && e.msg.AppendEntriesResp? { AckGap(n, e.from, e.msg); }
    else { QuietGap(n, e); }
  }

  /** Committed entries are never revised, so what was applied stays a prefix. */
  lemma AppliedStays(b: Ballots, c: Ballots, n: Node, m: Node)
    requires Shape(c) && LeadsSafe(c) && History(b, c) && CommitOk(b, n) && CommitOk(c, m)
    requires n.lastApplied <= m.lastApplied
    ensures Agree(n.log, m.log, n.lastApplied)
  {
    CommittedPrefixStays(b, c, n.log, n.commitIndex, n.currentTerm);
    CommittedAgree(c, n.log, n.commitIndex, m.log, m.commitIndex, n.currentTerm, m.currentTerm);
  }
}

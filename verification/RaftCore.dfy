/** Every handler of the Raft core as a function from a node to the node
    afterwards and its ordered effects. The class in RaftNode computes these
    step by step; the safety proof reasons about them. */
module RaftCore {
  import opened Options
  import opened RaftTypes
  import opened RaftLogs

  const HEARTBEAT_TICKS: nat := 3

  function NewNode(id: NodeId, peers: seq<NodeId>, timeout: nat): Node {
    Node(id, peers, Follower, 0, None, [], 0, 0, 0, timeout, None)
  }

  function DivCeil(a: nat, b: nat): nat
    requires b > 0
  {
    if a % b == 0 then a / b else a / b + 1
  }

  function MajorityOf(n: Node): nat { DivCeil(|n.peers|, 2) + 1 }

  // ---- elections ------------------------------------------------------------

  function StepDown(n: Node, term: Term): Outcome {
    if term <= n.currentTerm then Outcome(n, [])
    else Outcome(n.(currentTerm := term, votedFor := None, role := Follower, ticks := 0), [Persist])
  }

  function VoteRequests(peers: seq<NodeId>, m: Message): seq<Effect> {
    if peers == [] then [] else VoteRequests(peers[..|peers| - 1], m) + [Send(peers[|peers| - 1], m)]
  }

  function StartElection(n: Node): Outcome {
    var c := n.(currentTerm := n.currentTerm + 1, votedFor := Some(n.id), role := Candidate({n.id}),
                ticks := 0, leaderHint := None);
    var req := RequestVote(c.currentTerm, c.id, |c.log|, LastTerm(c.log));
    var w := TryWin(c);
    Outcome(w.node, [Persist] + VoteRequests(c.peers, req) + w.effects)
  }

  function TryWin(n: Node): Outcome {
    if !n.role.Candidate? || |n.role.votes| < MajorityOf(n) then Outcome(n, [])
    else
      var l := n.(role := Leader(map p | p in n.peers :: |n.log| + 1, map p | p in n.peers :: 0),
                  leaderHint := Some(n.id), ticks := 0);
      Outcome(l, BroadcastAppend(l))
  }

  function OnTick(n: Node): Outcome {
    var m := n.(ticks := n.ticks + 1);
    if m.role.Leader? then
      if m.ticks >= HEARTBEAT_TICKS then
        var z := m.(ticks := 0);
        Outcome(z, BroadcastAppend(z))
      else Outcome(m, [])
    else if m.ticks >= m.timeout then StartElection(m)
    else Outcome(m, [])
  }

  /** (a, b) >= (c, d) on pairs, as Rust compares tuples. */
  predicate LexGeq(a: nat, b: nat, c: nat, d: nat) { a > c || (a == c && b >= d) }

  predicate Grants(n: Node, m: Message)
    requires m.RequestVote?
  {
    && m.term == n.currentTerm
    && LexGeq(m.lastLogTerm, m.lastLogIndex, LastTerm(n.log), |n.log|)
    && (n.votedFor == None || n.votedFor == Some(m.candidateId))
  }

  function OnRequestVote(n: Node, from: NodeId, m: Message): Outcome
    requires m.RequestVote?
  {
    var d := StepDown(n, m.term);
    if Grants(d.node, m) then
      var v := d.node.(votedFor := Some(m.candidateId), ticks := 0);
      Outcome(v, d.effects + [Persist, Send(from, RequestVoteResp(v.currentTerm, true))])
    else
      Outcome(d.node, d.effects + [Send(from, RequestVoteResp(d.node.currentTerm, false))])
  }

  function OnRequestVoteResp(n: Node, from: NodeId, m: Message): Outcome
    requires m.RequestVoteResp?
  {
    var d := StepDown(n, m.term);
    if d.node.role.Candidate? && m.term == d.node.currentTerm && m.granted then
      var w := TryWin(d.node.(role := Candidate(d.node.role.votes + {from})));
      Outcome(w.node, d.effects + w.effects)
    else d
  }

  // ---- replication, leader side -----------------------------------------------

  function NextFor(n: Node, peer: NodeId): NextIndex {
    if n.role.Leader? && peer in n.role.nextIndex then n.role.nextIndex[peer] else |n.log| + 1
  }

  /** Everything from the peer's next_index on, so never less than the whole suffix. */
  function AppendMessage(n: Node, peer: NodeId): Message {
    var next := NextFor(n, peer);
    var t := TermAt(n.log, next - 1);
    AppendEntries(n.currentTerm, n.id, next - 1, if t.Some? then t.value else 0,
                  EntriesFrom(n.log, next), n.commitIndex)
  }

  function AppendFor(n: Node, peer: NodeId): Effect { Send(peer, AppendMessage(n, peer)) }

  function BroadcastAppend(n: Node): seq<Effect> {
    seq(|n.peers|, i requires 0 <= i < |n.peers| => AppendFor(n, n.peers[i]))
  }

  function OnPropose(n: Node, command: Command): Outcome {
    if !n.role.Leader? then Outcome(n, [ProposeRejected(n.leaderHint)])
    else
      var e := LogEntry(n.currentTerm, |n.log| + 1, command);
      var a := n.(log := n.log + [e]);
      var c := TryCommit(a);
      Outcome(c.node, [PersistEntries([e])] + BroadcastAppend(a) + c.effects)
  }

  /** How many of the peers have match_index at least k. */
  function Matching(peers: seq<NodeId>, matchIndex: map<NodeId, LogIndex>, k: LogIndex): nat {
    if peers == [] then 0
    else
      var p := peers[|peers| - 1];
      Matching(peers[..|peers| - 1], matchIndex, k) +
      (if (if p in matchIndex then matchIndex[p] else 0) >= k then 1 else 0)
  }

  /** Index k is of the leader's own term and on a majority. */
  predicate Commits(n: Node, k: LogIndex)
    requires n.role.Leader?
  {
    TermAt(n.log, k) == Some(n.currentTerm) &&
    1 + Matching(n.peers, n.role.matchIndex, k) >= MajorityOf(n)
  }

  /** The largest index in (commitIndex, k] that commits, else commitIndex. */
  function CommitTarget(n: Node, k: LogIndex): LogIndex
    requires n.role.Leader?
  {
    if k <= n.commitIndex then n.commitIndex
    else if Commits(n, k) then k
    else CommitTarget(n, k - 1)
  }

  function TryCommit(n: Node): Outcome {
    if !n.role.Leader? then Outcome(n, [])
    else
      var k := CommitTarget(n, |n.log|);
      if k > n.commitIndex then AdvanceApplied(n.(commitIndex := k)) else Outcome(n, [])
  }

  /** A successful ack: match_index never regresses, next_index follows it. */
  function RecordAck(n: Node, from: NodeId, k: LogIndex): Node
    requires n.role.Leader?
  {
    var next, mat := n.role.nextIndex, n.role.matchIndex;
    var prior := if from in mat then mat[from] else 0;
    var best := if prior > k then prior else k;
    n.(role := Leader(next[from := best + 1], mat[from := best]))
  }

  /** A rejection: one step back, never below 1. */
  function WalkBack(n: Node, from: NodeId): Node
    requires n.role.Leader?
  {
    var next, mat := n.role.nextIndex, n.role.matchIndex;
    var ni: NextIndex := if from in next then next[from] else 2;
    n.(role := Leader(next[from := if ni > 1 then ni - 1 else 1], mat))
  }

  function OnAppendEntriesResp(n: Node, from: NodeId, m: Message): Outcome
    requires m.AppendEntriesResp?
  {
    var d := StepDown(n, m.term);
    if m.term < d.node.currentTerm || !d.node.role.Leader? then d
    else if m.success then
      var c := TryCommit(RecordAck(d.node, from, m.matchIndex));
      Outcome(c.node, d.effects + c.effects)
    else
      var l := WalkBack(d.node, from);
      Outcome(l, d.effects + [AppendFor(l, from)])
  }

  // ---- replication, follower side ---------------------------------------------

  datatype Scan = Scan(log: Log, toAppend: Log, effects: seq<Effect>)

  function ScanOne(s: Scan, e: LogEntry): Scan {
    match TermAt(s.log, e.index)
    case Some(t) =>
      if t == e.term then s
      else Scan(TruncateFrom(s.log, e.index), s.toAppend + [e], s.effects + [PersistTruncate(e.index)])
    case None => s.(toAppend := s.toAppend + [e])
  }

  /** The conflict scan: skip what matches, cut at the first conflict, collect the rest. */
  function ScanEntries(l: Log, es: seq<LogEntry>): Scan {
    if es == [] then Scan(l, [], []) else ScanOne(ScanEntries(l, es[..|es| - 1]), es[|es| - 1])
  }

  /** Apply effects for the entries in (lo, hi], in order. */
  function Applies(l: Log, lo: LogIndex, hi: LogIndex): seq<Effect> {
    if hi <= lo then []
    else Applies(l, lo, hi - 1) + (if Get(l, hi).Some? then [Apply(Get(l, hi).value)] else [])
  }

  function AdvanceApplied(n: Node): Outcome {
    Outcome(n.(lastApplied := if n.lastApplied < n.commitIndex then n.commitIndex else n.lastApplied),
            Applies(n.log, n.lastApplied, n.commitIndex))
  }

  /** Raise commit to min(leaderCommit, last index), then apply. */
  function LearnCommit(n: Node, leaderCommit: LogIndex): Outcome {
    if leaderCommit > n.commitIndex then
      AdvanceApplied(n.(commitIndex := if leaderCommit < |n.log| then leaderCommit else |n.log|))
    else Outcome(n, [])
  }

  /** The scan's result put into the log, and what it leaves to persist. */
  function StoreScan(n: Node, es: seq<LogEntry>): Outcome {
    var s := ScanEntries(n.log, es);
    Outcome(n.(log := s.log + s.toAppend),
            s.effects + (if s.toAppend != [] then [PersistEntries(s.toAppend)] else []))
  }

  /** Everything after the consistency check has passed. */
  function Accept(n: Node, from: NodeId, m: Message): Outcome
    requires m.AppendEntries?
  {
    var s := StoreScan(n, m.entries);
    var c := LearnCommit(s.node, m.leaderCommit);
    var ack := AppendEntriesResp(c.node.currentTerm, true, m.prevLogIndex + |m.entries|);
    Outcome(c.node, s.effects + c.effects + [Send(from, ack)])
  }

  /** A candidate yields to the leader of its term; the timer restarts. */
  function Heard(n: Node, leaderId: NodeId): Node {
    n.(role := if n.role.Candidate? then Follower else n.role, ticks := 0, leaderHint := Some(leaderId))
  }

  function OnAppendEntries(n: Node, from: NodeId, m: Message): Outcome
    requires m.AppendEntries?
  {
    var d := StepDown(n, m.term);
    if m.term < d.node.currentTerm then
      Outcome(d.node, d.effects + [Send(from, AppendEntriesResp(d.node.currentTerm, false, 0))])
    else
      var f := Heard(d.node, m.leaderId);
      if TermAt(f.log, m.prevLogIndex) != Some(m.prevLogTerm) then
        Outcome(f, d.effects + [Send(from, AppendEntriesResp(f.currentTerm, false, 0))])
      else
        var a := Accept(f, from, m);
        Outcome(a.node, d.effects + a.effects)
  }

  function Step(n: Node, e: Event): Outcome {
    match e
    case Tick => OnTick(n)
    case Propose(command) => OnPropose(n, command)
    case Receive(from, m) =>
      match m
      case RequestVote(_, _, _, _) => OnRequestVote(n, from, m)
      case RequestVoteResp(_, _) => OnRequestVoteResp(n, from, m)
      case AppendEntries(_, _, _, _, _, _) => OnAppendEntries(n, from, m)
      case AppendEntriesResp(_, _, _) => OnAppendEntriesResp(n, from, m)
  }
}

/** Log repair: a leader and a follower of its term exchanging AppendEntries and
    replies without loss bring the follower's log in line, in boundedly many rounds. */
module RaftRepair {
  import opened Options
  import opened RaftTypes
  import opened RaftLogs
  import opened RaftCore
  import opened RaftBallots
  import opened RaftSim
  import opened RaftDurability
  import opened RaftCluster
  import opened RaftSafety

  datatype Pair = Pair(leader: Node, follower: Node)

  /** The reply an AppendEntries handler ends with. */
  function ReplyOf(es: seq<Effect>): Message {
    if es != [] && es[|es| - 1].Send? then es[|es| - 1].msg else AppendEntriesResp(0, false, 0)
  }

  /** One lossless round: probe, reply, and the leader handling the reply. */
  function Round(p: Pair): Pair {
    var l, f := p.leader, p.follower;
    var r := OnAppendEntries(f, l.id, AppendMessage(l, f.id));
    var reply := ReplyOf(r.effects);
    if reply.AppendEntriesResp? then Pair(OnAppendEntriesResp(l, f.id, reply).node, r.node) else p
  }

  function Rounds(p: Pair, k: nat): Pair
    decreases k
  {
    if k == 0 then p else Rounds(Round(p), k - 1)
  }

  /** A leader and a non-leader of its term whose logs satisfy Log Matching. */
  ghost predicate Repairable(p: Pair) {
    var l, f := p.leader, p.follower;
    && l.role.Leader? && !f.role.Leader? && l.id != f.id && f.currentTerm == l.currentTerm
    && Indexed(l.log) && TermsTell(f.log, l.log) && NextFor(l, f.id) <= |l.log| + 1
  }

  predicate Accepts(p: Pair) {
    var prev := NextFor(p.leader, p.follower.id) - 1;
    prev <= |p.leader.log| && TermAt(p.follower.log, prev) == TermAt(p.leader.log, prev)
  }

  /** The follower's log starts with the leader's, and the leader knows it. */
  ghost predicate InStep(p: Pair, log: Log) {
    && p.leader.log == log && p.leader.role.Leader? && log <= p.follower.log
    && p.follower.id in p.leader.role.matchIndex && |log| <= p.leader.role.matchIndex[p.follower.id]
  }

  /** A rejected probe changes neither log and strictly lowers next_index; the
      probe at (0, 0) cannot be rejected. */
  lemma RejectedRound(p: Pair)
    requires Repairable(p) && !Accepts(p)
    ensures var q := Round(p);
      && Repairable(q) && q.leader.log == p.leader.log && q.follower.log == p.follower.log
      && q.follower.id == p.follower.id
      && 1 <= NextFor(q.leader, p.follower.id) < NextFor(p.leader, p.follower.id)
  {
    var l, f := p.leader, p.follower;
    var m := AppendMessage(l, f.id);
    var r := OnAppendEntries(f, l.id, m);
    assert ReplyOf(r.effects) == AppendEntriesResp(f.currentTerm, false, 0);
    assert Round(p).leader == WalkBack(l, f.id);
  }

  lemma AcceptReplies(f: Node, from: NodeId, m: Message)
    requires m.AppendEntries? && m.term == f.currentTerm && TermAt(f.log, m.prevLogIndex) == Some(m.prevLogTerm)
    ensures var r := OnAppendEntries(f, from, m);
      && ReplyOf(r.effects) == AppendEntriesResp(f.currentTerm, true, m.prevLogIndex + |m.entries|)
      && r.node.log == StoreScan(f, m.entries).node.log && r.node.id == f.id
  {
    hide ScanEntries;
    AcceptedStep(f, from, m);
    AcceptFits(Heard(f, m.leaderId), from, m);
    var es := Accept(Heard(f, m.leaderId), from, m).effects;
    assert es[|es| - 1].Send?;
  }

  lemma ProbeIs(l: Node, f: Node)
    requires Repairable(Pair(l, f)) && Accepts(Pair(l, f))
    ensures var m := AppendMessage(l, f.id);
      && TermAt(f.log, m.prevLogIndex) == Some(m.prevLogTerm)
      && m.prevLogIndex <= |f.log| && m.prevLogIndex + |m.entries| == |l.log|
      && m.entries == l.log[m.prevLogIndex..]
      && Agree(f.log, l.log, m.prevLogIndex)
  {
    var m := AppendMessage(l, f.id);
    if m.prevLogIndex > 0 {
      assert f.log[m.prevLogIndex - 1].term == l.log[m.prevLogIndex - 1].term;
    }
  }

  /** What an accepted whole-suffix append leaves in the follower's log. */
  lemma SuffixStored(f: Node, log: Log, prev: nat)
    requires Indexed(log) && TermsTell(f.log, log) && prev <= |log| && Agree(f.log, log, prev)
    ensures log <= StoreScan(f, log[prev..]).node.log
  {
    hide ScanEntries;
    var j := ScanRepairs(f.log, log, prev, log[prev..]);
    if j < |log| { assert f.log[..j] + log[j..|log|] == log; }
  }

  lemma AcceptedRound(p: Pair)
    requires Repairable(p) && Accepts(p)
    ensures InStep(Round(p), p.leader.log) && Round(p).follower.id == p.follower.id
  {
    hide StoreScan, OnAppendEntries, TryCommit, EntriesFrom, Accepts;
    var l, f := p.leader, p.follower;
    var m := AppendMessage(l, f.id);
    ProbeIs(l, f);
    SuffixStored(f, l.log, m.prevLogIndex);
    AcceptReplies(f, l.id, m);
    TryCommitFits(RecordAck(l, f.id, |l.log|));
    TryCommitQuiet(RecordAck(l, f.id, |l.log|));
  }

  /** Within next_index rounds the follower's log starts with the leader's. */
  lemma {:induction false} RepairTerminates(p: Pair) returns (k: nat)
    requires Repairable(p)
    ensures 1 <= k <= NextFor(p.leader, p.follower.id)
    ensures InStep(Rounds(p, k), p.leader.log)
    decreases NextFor(p.leader, p.follower.id)
  {
    hide Repairable, Accepts, InStep, Round, NextFor;
    if Accepts(p) {
      AcceptedRound(p);
      k := 1;
      assert Rounds(p, 1) == Rounds(Round(p), 0);
    } else {
      RejectedRound(p);
      var j := RepairTerminates(Round(p));
      k := j + 1;
    }
  }

  /** The premises hold in every reachable state for every leader and every other
      member of its term. */
  lemma RepairableInRun(run: seq<Cluster>, acts: seq<Action>, k: nat, x: NodeId, y: NodeId)
    requires IsRun(run, acts) && k < |run| && x in run[k].nodes && y in run[k].nodes && x != y
    requires run[k].nodes[x].role.Leader? && run[k].nodes[x].currentTerm == run[k].nodes[y].currentTerm
    ensures Repairable(Pair(run[k].nodes[x], run[k].nodes[y]))
  {
    hide IsRun, Safe, LogsOk, VotesOk, AcksOk, HardOk, PeersOk, CommitOk, MsgOk, EntryOk, Synced, Vouched;
    var b := RunRelated(run, acts, k);
    if run[k].nodes[y].role.Leader? { ElectionSafety(run, acts, k, k, x, y); }
    NodeLogVouched(b, run[k], x);
    NodeLogVouched(b, run[k], y);
    VouchedTermsTell(b.lead, run[k].nodes[y].log, run[k].nodes[x].log);
    VouchedIndexed(b.lead, run[k].nodes[x].log);
    assert PlaceOk(b, run[k], x) && PlaceOk(b, run[k], y);
  }
}

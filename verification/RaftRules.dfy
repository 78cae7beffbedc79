/** What each handler of the core does, said of the fields of the node and of the message
    alone: when a vote is granted, an election won, an append accepted, an index committed,
    and what is sent to whom. */
module RaftRules {
  import opened Options
  import opened RaftTypes
  import opened RaftLogs
  import opened RaftCore
  import opened RaftBallots
  import opened RaftSim

  /** The members that a leader of cluster `ids` knows to hold index k: itself and every peer
      that acknowledged as much. */
  function KnownHolders(ids: set<NodeId>, n: Node, k: LogIndex): set<NodeId>
    requires n.role.Leader?
  {
    set i | i in ids && (i == n.id || (i in n.role.matchIndex && n.role.matchIndex[i] >= k))
  }

  predicate Same(n: Node, m: Node) {
    n.id == m.id && n.peers == m.peers && n.log == m.log && n.timeout == m.timeout
  }

  // ---- votes ----------------------------------------------------------------------------

  /** A vote is granted exactly to a candidate of a newer term, or of this term if the vote is free
      or already its own, whose last entry is of a higher term or of the same term and no
      earlier.  The reply carries the newer term, and only a grant records a vote. */
  lemma VoteRule(n: Node, from: NodeId, m: Message)
    requires m.RequestVote?
    ensures var r := Step(n, Receive(from, m));
      var term := if m.term > n.currentTerm then m.term else n.currentTerm;
      var last := if n.log == [] then 0 else n.log[|n.log| - 1].term;
      var free := m.term > n.currentTerm || (m.term == n.currentTerm && (n.votedFor == None || n.votedFor == Some(m.candidateId)));
      var granted := free && (m.lastLogTerm > last || (m.lastLogTerm == last && m.lastLogIndex >= |n.log|));
      && r.effects != [] && r.effects[|r.effects| - 1] == Send(from, RequestVoteResp(term, granted))
      && (forall i :: 0 <= i < |r.effects| - 1 ==> r.effects[i] == Persist)
      && (m.term > n.currentTerm || granted ==> |r.effects| > 1)
      && r.node.votedFor == (if granted then Some(m.candidateId) else if m.term > n.currentTerm then None else n.votedFor)
      && r.node.currentTerm == term && Same(n, r.node)
      && r.node.role == (if m.term > n.currentTerm then Follower else n.role)
      && r.node.ticks == (if granted || m.term > n.currentTerm then 0 else n.ticks)
      && r.node.commitIndex == n.commitIndex && r.node.leaderHint == n.leaderHint
  {}

  // ---- elections --------------------------------------------------------------------------

  lemma {:induction false} RequestsAll(peers: seq<NodeId>, m: Message)
    ensures |VoteRequests(peers, m)| == |peers|
    ensures forall i :: 0 <= i < |peers| ==> VoteRequests(peers, m)[i] == Send(peers[i], m)
  {
    if peers != [] { RequestsAll(peers[..|peers| - 1], m); }
  }

  lemma {:induction false} AskedInOrder(peers: seq<NodeId>, m: Message, more: seq<Effect>)
    ensures var es := [Persist] + VoteRequests(peers, m) + more;
      |es| >= 1 + |peers| && es[0] == Persist && forall i :: 0 <= i < |peers| ==> es[1 + i] == Send(peers[i], m)
  {
    RequestsAll(peers, m);
    hide VoteRequests;
  }

  /** A node that does not lead campaigns on the tick that reaches its timeout and not before: it
      moves to the next term, votes for itself, persists that first and asks every peer. */
  lemma TimeoutRule(n: Node)
    requires !n.role.Leader?
    ensures var r := Step(n, Tick);
      if n.ticks + 1 < n.timeout then r == Outcome(n.(ticks := n.ticks + 1), [])
      else
        var ask := RequestVote(n.currentTerm + 1, n.id, |n.log|, if n.log == [] then 0 else n.log[|n.log| - 1].term);
        && r.node.currentTerm == n.currentTerm + 1 && r.node.votedFor == Some(n.id) && r.node.ticks == 0 && Same(n, r.node)
        && r.node.commitIndex == n.commitIndex && (r.node.role.Candidate? ==> r.node.leaderHint == None)
        && |r.effects| >= 1 + |n.peers| && r.effects[0] == Persist
        && forall i :: 0 <= i < |n.peers| ==> r.effects[1 + i] == Send(n.peers[i], ask)
  {
    if n.ticks + 1 >= n.timeout {
      var c := n.(ticks := 0, currentTerm := n.currentTerm + 1, votedFor := Some(n.id), role := Candidate({n.id}), leaderHint := None);
      var ask := RequestVote(c.currentTerm, c.id, |c.log|, LastTerm(c.log));
      assert Step(n, Tick) == Outcome(TryWin(c).node, [Persist] + VoteRequests(c.peers, ask) + TryWin(c).effects);
      hide TryWin, VoteRequests, RaftCore.Step;
      AskedInOrder(c.peers, ask, TryWin(c).effects);
      TryWinSame(c);
    }
  }

  lemma TryWinSame(n: Node)
    ensures var r := TryWin(n).node;
      r.currentTerm == n.currentTerm && r.votedFor == n.votedFor && Same(n, r) && r.commitIndex == n.commitIndex
      && (r.role.Candidate? ==> r == n) && (n.ticks == 0 ==> r.ticks == 0)
  {}

  /** What a new leader starts with: it probes every peer at its own end, and announces itself. */
  ghost predicate NewlyLeads(n: Node, r: Node, es: seq<Effect>) {
    && r.role.Leader? && r.leaderHint == Some(n.id) && r.ticks == 0
    && (forall p :: p in n.peers <==> p in r.role.nextIndex)
    && (forall p :: p in n.peers <==> p in r.role.matchIndex)
    && (forall p :: p in n.peers ==> r.role.nextIndex[p] == |n.log| + 1 && r.role.matchIndex[p] == 0)
    && |es| == |n.peers|
    && (forall i :: 0 <= i < |es| ==>
          es[i] == Send(n.peers[i], AppendEntries(n.currentTerm, n.id, |n.log|, if n.log == [] then 0 else n.log[|n.log| - 1].term,
                                                  [], n.commitIndex)))
  }

  lemma MajorityCounts(ids: set<NodeId>, n: Node, k: nat)
    requires PeersOk(ids, n)
    ensures k >= MajorityOf(n) <==> 2 * k > |ids|
  {
    NoDupsCard(n.peers);
    assert Elems(n.peers) == ids - {n.id};
    assert |ids| == |n.peers| + 1;
  }

  lemma TryWinRule(ids: set<NodeId>, n: Node)
    requires PeersOk(ids, n) && n.role.Candidate?
    ensures var r := TryWin(n);
      if 2 * |n.role.votes| > |ids| then NewlyLeads(n, r.node, r.effects) && Same(n, r.node) && r.node.currentTerm == n.currentTerm
      else r == Outcome(n, [])
  {
    MajorityCounts(ids, n, |n.role.votes|);
    hide MajorityOf;
  }

  /** A granted vote of the candidate's own term is counted once, and more than half of the cluster
      makes a leader; any other reply of no newer term changes nothing. */
  lemma WinRule(ids: set<NodeId>, n: Node, from: NodeId, m: Message)
    requires PeersOk(ids, n) && m.RequestVoteResp? && m.term <= n.currentTerm
    ensures var r := Step(n, Receive(from, m));
      if n.role.Candidate? && m.term == n.currentTerm && m.granted then
        var c := n.(role := Candidate(n.role.votes + {from}));
        if 2 * |n.role.votes + {from}| > |ids| then NewlyLeads(c, r.node, r.effects) && Same(n, r.node) && r.node.currentTerm == n.currentTerm
        else r == Outcome(c, [])
      else r == Outcome(n, [])
  {
    if n.role.Candidate? && m.term == n.currentTerm && m.granted {
      var c := n.(role := Candidate(n.role.votes + {from}));
      TryWinRule(ids, c);
      hide TryWin;
      assert [] + TryWin(c).effects == TryWin(c).effects;
    }
  }

  /** An election won alone: the timeout itself makes a leader exactly in a cluster of one. */
  lemma LoneWinRule(ids: set<NodeId>, n: Node)
    requires PeersOk(ids, n) && !n.role.Leader? && n.ticks + 1 >= n.timeout
    ensures var r := Step(n, Tick).node; if |ids| == 1 then r.role.Leader? else r.role == Candidate({n.id})
  {
    var c := n.(ticks := 0, currentTerm := n.currentTerm + 1, votedFor := Some(n.id), role := Candidate({n.id}), leaderHint := None);
    TryWinRule(ids, c);
    hide TryWin, VoteRequests;
    assert {n.id} <= ids;
    SubsetCard({n.id}, ids);
  }

  // ---- appends: the leader's side -----------------------------------------------------------

  /** The append for a peer: everything from its next index on, with the entry before it. */
  predicate AppendTo(n: Node, p: NodeId, m: Message) {
    && m.AppendEntries? && m.term == n.currentTerm && m.leaderId == n.id && m.leaderCommit == n.commitIndex
    && n.role.Leader? && p in n.role.nextIndex
    && m.prevLogIndex + 1 == n.role.nextIndex[p]
    && (m.prevLogIndex == 0 ==> m.prevLogTerm == 0)
    && (1 <= m.prevLogIndex <= |n.log| ==> m.prevLogTerm == n.log[m.prevLogIndex - 1].term)
    && (m.prevLogIndex <= |n.log| ==> m.entries == n.log[m.prevLogIndex..])
  }

  lemma AppendMessageIs(n: Node, p: NodeId)
    requires n.role.Leader? && p in n.role.nextIndex
    ensures AppendTo(n, p, AppendMessage(n, p))
  {}

  lemma BroadcastIs(n: Node)
    ensures |BroadcastAppend(n)| == |n.peers|
    ensures forall i :: 0 <= i < |n.peers| ==> BroadcastAppend(n)[i] == Send(n.peers[i], AppendMessage(n, n.peers[i]))
  {}

  /** A leader sends an append to every peer on every third tick and nothing in between. */
  lemma HeartbeatRule(n: Node)
    requires n.role.Leader? && forall p :: p in n.peers ==> p in n.role.nextIndex
    ensures var r := Step(n, Tick);
      if n.ticks + 1 < 3 then r == Outcome(n.(ticks := n.ticks + 1), [])
      else
        && r.node == n.(ticks := 0) && |r.effects| == |n.peers|
        && forall i :: 0 <= i < |n.peers| ==> r.effects[i].Send? && r.effects[i].to == n.peers[i] && AppendTo(n, n.peers[i], r.effects[i].msg)
  {
    if n.ticks + 1 >= 3 {
      var z := n.(ticks := 0);
      BroadcastIs(z);
      forall p | p in n.peers ensures AppendTo(n, p, AppendMessage(z, p)) { AppendMessageIs(z, p); }
      hide BroadcastAppend, AppendMessage;
    }
  }

  /** What the leader knows of a peer, 0 if nothing, and where the next append starts, 2 if it lost count. */
  function KnownOf(n: Node, p: NodeId): LogIndex
    requires n.role.Leader?
  {
    if p in n.role.matchIndex then n.role.matchIndex[p] else 0
  }

  function StartOf(n: Node, p: NodeId): nat
    requires n.role.Leader?
  {
    if p in n.role.nextIndex then n.role.nextIndex[p] else 2
  }

  /** An acknowledgement of this term raises what the leader knows of the peer and never lowers it, and
      the next append starts behind it; a rejection goes one back, never below the first entry, and
      is answered with an append from there.  A reply of an older term changes nothing. */
  lemma AckRule(n: Node, from: NodeId, m: Message)
    requires n.role.Leader? && m.AppendEntriesResp? && m.term <= n.currentTerm
    ensures var r := Step(n, Receive(from, m));
      if m.term < n.currentTerm then r == Outcome(n, [])
      else
        && Same(n, r.node) && r.node.currentTerm == n.currentTerm && r.node.votedFor == n.votedFor && r.node.role.Leader?
        && (forall p :: p != from ==> (p in r.node.role.nextIndex <==> p in n.role.nextIndex) && (p in r.node.role.matchIndex <==> p in n.role.matchIndex))
        && (forall p :: p != from ==> KnownOf(r.node, p) == KnownOf(n, p) && StartOf(r.node, p) == StartOf(n, p))
        && (if m.success then
              var best := if m.matchIndex > KnownOf(n, from) then m.matchIndex else KnownOf(n, from);
              KnownOf(r.node, from) == best && StartOf(r.node, from) == best + 1
              && from in r.node.role.nextIndex && from in r.node.role.matchIndex
            else
              && r.node == n.(role := r.node.role) && r.node.role.matchIndex == n.role.matchIndex && from in r.node.role.nextIndex
              && StartOf(r.node, from) == (if StartOf(n, from) > 1 then StartOf(n, from) - 1 else 1)
              && |r.effects| == 1 && r.effects[0].Send? && r.effects[0].to == from && AppendTo(r.node, from, r.effects[0].msg))
  {
    if m.term == n.currentTerm {
      if m.success {
        CommitSame(RecordAck(n, from, m.matchIndex));
        hide TryCommit;
      } else {
        AppendMessageIs(WalkBack(n, from), from);
        hide AppendMessage;
      }
    }
  }

  lemma CommitSame(n: Node)
    requires n.role.Leader?
    ensures var r := TryCommit(n).node;
      r == n.(commitIndex := r.commitIndex, lastApplied := r.lastApplied) && r.commitIndex >= n.commitIndex
  {
    CommitTargetIs(n, |n.log|);
  }

  // ---- commitment -----------------------------------------------------------------------------

  lemma CommitsRule(ids: set<NodeId>, n: Node, k: LogIndex)
    requires PeersOk(ids, n) && n.role.Leader? && 1 <= k <= |n.log|
    ensures Commits(n, k) <==> n.log[k - 1].term == n.currentTerm && 2 * |KnownHolders(ids, n, k)| > |ids|
  {
    var held := MatchingSet(n.peers, n.role.matchIndex, k);
    MatchingCard(n.peers, n.role.matchIndex, k);
    MajorityCounts(ids, n, 1 + Matching(n.peers, n.role.matchIndex, k));
    hide Matching, MajorityOf;
    assert KnownHolders(ids, n, k) == held + {n.id};
    assert n.id !in held;
  }

  /** Commitment from both sides: the commit index never falls; where it rises it stands at an entry of
      the leader's own term that more than half of the cluster holds; and no later entry of that
      kind is left uncommitted. */
  ghost predicate CommitsAllItCan(ids: set<NodeId>, n: Node, r: Node)
    requires n.role.Leader?
  {
    && n.commitIndex <= r.commitIndex
    && (r.commitIndex > n.commitIndex ==>
          r.commitIndex <= |n.log| && n.log[r.commitIndex - 1].term == n.currentTerm && 2 * |KnownHolders(ids, n, r.commitIndex)| > |ids|)
    && (forall k :: n.commitIndex < k <= |n.log| && n.log[k - 1].term == n.currentTerm && 2 * |KnownHolders(ids, n, k)| > |ids|
          ==> k <= r.commitIndex)
  }

  lemma CommitRule(ids: set<NodeId>, n: Node)
    requires PeersOk(ids, n) && n.role.Leader?
    ensures CommitsAllItCan(ids, n, TryCommit(n).node)
  {
    CommitTargetIs(n, |n.log|);
    forall k | 1 <= k <= |n.log|
      ensures Commits(n, k) <==> n.log[k - 1].term == n.currentTerm && 2 * |KnownHolders(ids, n, k)| > |ids|
    {
      CommitsRule(ids, n, k);
    }
    hide Commits, CommitTarget, KnownHolders;
  }

  /** So an acknowledgement commits everything it completes a majority for. */
  lemma AckCommits(ids: set<NodeId>, n: Node, from: NodeId, m: Message)
    requires PeersOk(ids, n) && n.role.Leader? && m.AppendEntriesResp? && m.success && m.term == n.currentTerm
    ensures var r := Step(n, Receive(from, m)).node; r.role.Leader? && CommitsAllItCan(ids, n.(role := r.role), r)
  {
    var a := RecordAck(n, from, m.matchIndex);
    AckRule(n, from, m);
    CommitRule(ids, a);
    CommitSame(a);
    hide TryCommit, CommitsAllItCan, RecordAck;
  }

  /** A proposal is appended by a leader, persisted first, sent to every peer, and commits what it can:
      itself, in a cluster of one.  Anyone else refuses it with its idea of the leader. */
  lemma ProposeRule(ids: set<NodeId>, n: Node, command: Command)
    requires PeersOk(ids, n)
    ensures var r := Step(n, Propose(command)); var e := LogEntry(n.currentTerm, |n.log| + 1, command);
      if !n.role.Leader? then r == Outcome(n, [ProposeRejected(n.leaderHint)])
      else
        var a := n.(log := n.log + [e]);
        && r.node == a.(commitIndex := r.node.commitIndex, lastApplied := r.node.lastApplied)
        && CommitsAllItCan(ids, a, r.node)
        && (|ids| == 1 && n.commitIndex <= |n.log| ==> r.node.commitIndex == |n.log| + 1)
        && |r.effects| >= 1 + |n.peers| && r.effects[0] == PersistEntries([e])
        && forall i :: 0 <= i < |n.peers| && n.peers[i] in n.role.nextIndex ==>
             r.effects[1 + i].Send? && r.effects[1 + i].to == n.peers[i] && AppendTo(a, n.peers[i], r.effects[1 + i].msg)
  {
    if n.role.Leader? {
      var e := LogEntry(n.currentTerm, |n.log| + 1, command);
      var a := n.(log := n.log + [e]);
      assert Step(n, Propose(command)) == Outcome(TryCommit(a).node, [PersistEntries([e])] + BroadcastAppend(a) + TryCommit(a).effects);
      hide TryCommit, BroadcastAppend, AppendMessage, AppendTo, CommitsAllItCan, RaftCore.Step, PeersOk;
      AppendedInOrder(a, [PersistEntries([e])], TryCommit(a).effects);
      ProposalCommits(ids, n, a);
    }
  }

  lemma ProposalCommits(ids: set<NodeId>, n: Node, a: Node)
    requires PeersOk(ids, n) && n.role.Leader? && |a.log| == |n.log| + 1 && a == n.(log := a.log) && a.log[|n.log|].term == n.currentTerm
    ensures var r := TryCommit(a).node;
      && r == a.(commitIndex := r.commitIndex, lastApplied := r.lastApplied) && CommitsAllItCan(ids, a, r)
      && (|ids| == 1 && n.commitIndex <= |n.log| ==> r.commitIndex == |n.log| + 1)
  {
    CommitRule(ids, a);
    CommitSame(a);
    hide TryCommit, CommitsAllItCan;
    if |ids| == 1 && n.commitIndex <= |n.log| { LoneCommit(ids, a, TryCommit(a).node); }
  }

  lemma AppendedInOrder(a: Node, first: seq<Effect>, more: seq<Effect>)
    requires a.role.Leader? && |first| == 1
    ensures var es := first + BroadcastAppend(a) + more;
      && |es| >= 1 + |a.peers| && es[0] == first[0]
      && forall i :: 0 <= i < |a.peers| && a.peers[i] in a.role.nextIndex ==>
           es[1 + i].Send? && es[1 + i].to == a.peers[i] && AppendTo(a, a.peers[i], es[1 + i].msg)
  {
    BroadcastIs(a);
    forall p | p in a.peers && p in a.role.nextIndex ensures AppendTo(a, p, AppendMessage(a, p)) { AppendMessageIs(a, p); }
    hide BroadcastAppend, AppendMessage, AppendTo;
  }

  lemma LoneCommit(ids: set<NodeId>, n: Node, r: Node)
    requires n.role.Leader? && CommitsAllItCan(ids, n, r) && n.id in ids && |ids| == 1
    requires n.commitIndex < |n.log| && n.log[|n.log| - 1].term == n.currentTerm
    ensures r.commitIndex == |n.log|
  {
    OneMember(ids, n.id);
    assert KnownHolders(ids, n, |n.log|) == {n.id};
  }

  lemma OneMember(ids: set<NodeId>, x: NodeId)
    requires x in ids && |ids| == 1
    ensures ids == {x}
  {
    assert |ids - {x}| == 0;
  }

  // ---- appends: the follower's side ----------------------------------------------------------

  /** An append is accepted exactly if it is of no older term and the follower holds the entry before
      it; the acknowledgement is for the last entry of the message.  Any append of no older term
      resets the timer and tells who leads. */
  lemma AppendRule(n: Node, from: NodeId, m: Message)
    requires m.AppendEntries?
    ensures var r := Step(n, Receive(from, m));
      var term := if m.term > n.currentTerm then m.term else n.currentTerm;
      var accepted := && m.term >= n.currentTerm
                      && if m.prevLogIndex == 0 then m.prevLogTerm == 0
                         else m.prevLogIndex <= |n.log| && n.log[m.prevLogIndex - 1].term == m.prevLogTerm;
      && r.effects != []
      && r.effects[|r.effects| - 1] == Send(from, AppendEntriesResp(term, accepted, if accepted then m.prevLogIndex + |m.entries| else 0))
      && r.node.currentTerm == term && r.node.id == n.id && r.node.peers == n.peers && r.node.timeout == n.timeout
      && r.node.votedFor == (if m.term > n.currentTerm then None else n.votedFor)
      && (m.term < n.currentTerm ==> r.node == n)
      && (m.term >= n.currentTerm ==>
            && r.node.ticks == 0 && r.node.leaderHint == Some(m.leaderId)
            && r.node.role == (if m.term > n.currentTerm || n.role.Candidate? then Follower else n.role))
      && (!accepted ==> r.node.log == n.log && r.node.commitIndex == n.commitIndex)
      && (accepted && m.leaderCommit > n.commitIndex ==>
            r.node.commitIndex == if m.leaderCommit < |r.node.log| then m.leaderCommit else |r.node.log|)
      && (accepted && m.leaderCommit <= n.commitIndex ==> r.node.commitIndex == n.commitIndex)
  {
    hide ScanEntries;
    var d := StepDown(n, m.term);
    var f := Heard(d.node, m.leaderId);
    if m.term >= n.currentTerm && TermAt(f.log, m.prevLogIndex) == Some(m.prevLogTerm) {
      var a := Accept(f, from, m);
      assert a.effects != [] && (d.effects + a.effects)[|d.effects + a.effects| - 1] == a.effects[|a.effects| - 1];
    }
  }
}

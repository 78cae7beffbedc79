/** The node as the program runs it: fields updated in place, three loops, effects
    collected in order. Each method is proved to compute its RaftCore function. */
module RaftNodes {
  import opened Options
  import opened RaftTypes
  import opened RaftLogs
  import opened RaftCore

  class RaftNode {
    const id: NodeId
    const peers: seq<NodeId>
    var role: Role
    var currentTerm: Term
    var votedFor: Option<NodeId>
    var log: RaftLog
    var commitIndex: LogIndex
    var lastApplied: LogIndex
    var ticksSinceReset: nat
    var electionTimeout: nat
    var leaderHint: Option<NodeId>

    /** The node as a value. */
    ghost function State(): Node
      reads this, log
    {
      Node(id, peers, role, currentTerm, votedFor, log.entries, commitIndex, lastApplied,
           ticksSinceReset, electionTimeout, leaderHint)
    }

    constructor (id: NodeId, peers: seq<NodeId>, timeout: nat)
      ensures State() == NewNode(id, peers, timeout) && fresh(log)
      ensures State() == Node(id, peers, Follower, 0, None, [], 0, 0, 0, timeout, None)
    {
      this.id, this.peers, role, currentTerm, votedFor := id, peers, Follower, 0, None;
      log := new RaftLog.FromEntries([]);
      commitIndex, lastApplied, ticksSinceReset, electionTimeout, leaderHint := 0, 0, 0, timeout, None;
    }

    method SetElectionTimeout(ticks: nat)
      modifies this
      ensures log == old(log) && State() == old(State()).(timeout := ticks)
    {
      electionTimeout := ticks;
    }

    method HandleStep(event: Event) returns (effects: seq<Effect>)
      modifies this, log
      ensures log == old(log) && Outcome(State(), effects) == Step(old(State()), event)
    {
      match event
      case Tick => effects := HandleTick();
      case Propose(command) => effects := HandlePropose(command);
      case Receive(from, m) =>
        match m
        case RequestVote(_, _, _, _) => effects := HandleRequestVote(from, m);
        case RequestVoteResp(_, _) => effects := HandleRequestVoteResp(from, m);
        case AppendEntries(_, _, _, _, _, _) => effects := HandleAppendEntries(from, m);
        case AppendEntriesResp(_, _, _) => effects := HandleAppendEntriesResp(from, m);
    }

    method HandleTick() returns (effects: seq<Effect>)
      modifies this
      ensures log == old(log) && Outcome(State(), effects) == OnTick(old(State()))
    {
      ticksSinceReset := ticksSinceReset + 1;
      if role.Leader? {
        if ticksSinceReset >= HEARTBEAT_TICKS {
          ticksSinceReset := 0;
          effects := Broadcast();
          return;
        }
        return [];
      }
      if ticksSinceReset >= electionTimeout {
        effects := Elect();
        return;
      }
      return [];
    }

    method Elect() returns (effects: seq<Effect>)
      modifies this
      ensures log == old(log) && Outcome(State(), effects) == StartElection(old(State()))
    {
      hide TryWin, VoteRequests;
      currentTerm := currentTerm + 1;
      votedFor := Some(id);
      role := Candidate({id});
      ticksSinceReset := 0;
      leaderHint := None;

      effects := [Persist];
      var asks := AskAll(RequestVote(currentTerm, id, |log.entries|, LastTerm(log.entries)));
      effects := effects + asks;
      var won := Win();
      effects := effects + won;
    }

    /** The loop that sends one request to every peer. */
    method AskAll(req: Message) returns (effects: seq<Effect>)
      ensures effects == VoteRequests(peers, req)
    {
      effects := [];
      for i := 0 to |peers|
        invariant effects == VoteRequests(peers[..i], req)
      {
        assert peers[..i + 1][..i] == peers[..i];
        effects := effects + [Send(peers[i], req)];
      }
      assert peers[..|peers|] == peers;
    }

    /** Returns the Persist effect, if the message's term is newer. */
    method MaybeStepDown(term: Term) returns (effects: seq<Effect>)
      modifies this
      ensures log == old(log) && Outcome(State(), effects) == StepDown(old(State()), term)
    {
      if term <= currentTerm { return []; }
      currentTerm := term;
      votedFor := None;
      role := Follower;
      ticksSinceReset := 0;
      return [Persist];
    }

    method HandleRequestVote(from: NodeId, req: Message) returns (effects: seq<Effect>)
      requires req.RequestVote?
      modifies this
      ensures log == old(log) && Outcome(State(), effects) == OnRequestVote(old(State()), from, req)
    {
      effects := MaybeStepDown(req.term);
      var logOk := LexGeq(req.lastLogTerm, req.lastLogIndex, LastTerm(log.entries), |log.entries|);
      var canVote := votedFor == None || votedFor == Some(req.candidateId);
      var grant := req.term == currentTerm && logOk && canVote;
      if grant {
        votedFor := Some(req.candidateId);
        ticksSinceReset := 0;
        effects := effects + [Persist];
      }
      effects := effects + [Send(from, RequestVoteResp(currentTerm, grant))];
    }

    method HandleRequestVoteResp(from: NodeId, resp: Message) returns (effects: seq<Effect>)
      requires resp.RequestVoteResp?
      modifies this
      ensures log == old(log) && Outcome(State(), effects) == OnRequestVoteResp(old(State()), from, resp)
    {
      effects := MaybeStepDown(resp.term);
      if role.Candidate? && resp.term == currentTerm && resp.granted {
        role := Candidate(role.votes + {from});
        var won := Win();
        effects := effects + won;
      }
    }

    method Win() returns (effects: seq<Effect>)
      modifies this
      ensures log == old(log) && Outcome(State(), effects) == TryWin(old(State()))
    {
      if !role.Candidate? { return []; }
      if |role.votes| < DivCeil(|peers|, 2) + 1 { return []; }
      role := Leader(map p | p in peers :: |log.entries| + 1, map p | p in peers :: 0);
      leaderHint := Some(id);
      ticksSinceReset := 0;
      effects := Broadcast();
    }

    method MakeAppend(peer: NodeId) returns (effect: Effect)
      ensures effect == AppendFor(State(), peer)
    {
      var next: NextIndex :=
        if role.Leader? && peer in role.nextIndex then role.nextIndex[peer] else |log.entries| + 1;
      var prevTerm := TermAt(log.entries, next - 1);
      effect := Send(peer, AppendEntries(currentTerm, id, next - 1,
                                         if prevTerm.Some? then prevTerm.value else 0,
                                         EntriesFrom(log.entries, next), commitIndex));
    }

    method Broadcast() returns (effects: seq<Effect>)
      ensures effects == BroadcastAppend(State())
    {
      effects := [];
      for i := 0 to |peers|
        invariant |effects| == i
        invariant forall k :: 0 <= k < i ==> effects[k] == AppendFor(State(), peers[k])
      {
        var e := MakeAppend(peers[i]);
        effects := effects + [e];
      }
    }

    method HandleAppendEntries(from: NodeId, req: Message) returns (effects: seq<Effect>)
      requires req.AppendEntries?
      modifies this, log
      ensures log == old(log) && Outcome(State(), effects) == OnAppendEntries(old(State()), from, req)
    {
      effects := MaybeStepDown(req.term);
      if req.term < currentTerm {
        effects := effects + [Send(from, AppendEntriesResp(currentTerm, false, 0))];
        return;
      }
      if role.Candidate? { role := Follower; }
      ticksSinceReset := 0;
      leaderHint := Some(req.leaderId);
      if TermAt(log.entries, req.prevLogIndex) != Some(req.prevLogTerm) {
        effects := effects + [Send(from, AppendEntriesResp(currentTerm, false, 0))];
        return;
      }
      var accepted := AcceptAppend(from, req);
      effects := effects + accepted;
    }

    /** The rest of on_append_entries, once prev_log matches. */
    method AcceptAppend(from: NodeId, req: Message) returns (effects: seq<Effect>)
      requires req.AppendEntries?
      modifies this, log
      ensures log == old(log) && Outcome(State(), effects) == Accept(old(State()), from, req)
    {
      var newMatch := req.prevLogIndex + |req.entries|;
      var stored := Store(req.entries);
      effects := stored;
      assert Outcome(State(), effects) == StoreScan(old(State()), req.entries);
      if req.leaderCommit > commitIndex {
        commitIndex := if req.leaderCommit < |log.entries| then req.leaderCommit else |log.entries|;
        var applied := Advance();
        effects := effects + applied;
      }
      effects := effects + [Send(from, AppendEntriesResp(currentTerm, true, newMatch))];
    }

    /** The conflict loop of on_append_entries and the persist effects it leaves. */
    method Store(entries: seq<LogEntry>) returns (effects: seq<Effect>)
      modifies log
      ensures var s := ScanEntries(old(log.entries), entries);
        log.entries == s.log + s.toAppend &&
        effects == s.effects + (if s.toAppend != [] then [PersistEntries(s.toAppend)] else [])
    {
      effects := [];
      var toAppend: Log := [];
      for i := 0 to |entries|
        invariant Scan(log.entries, toAppend, effects) == ScanEntries(old(log.entries), entries[..i])
      {
        assert entries[..i + 1][..i] == entries[..i];
        var entry := entries[i];
        var t := TermAt(log.entries, entry.index);
        if t.Some? {
          if t.value != entry.term {
            log.Truncate(entry.index);
            effects := effects + [PersistTruncate(entry.index)];
            toAppend := toAppend + [entry];
          }
        } else {
          toAppend := toAppend + [entry];
        }
      }
      assert entries[..|entries|] == entries;
      if toAppend != [] {
        effects := effects + [PersistEntries(toAppend)];
        log.AppendEntries(toAppend);
      }
    }

    method HandlePropose(command: Command) returns (effects: seq<Effect>)
      modifies this, log
      ensures log == old(log) && Outcome(State(), effects) == OnPropose(old(State()), command)
    {
      if !role.Leader? { return [ProposeRejected(leaderHint)]; }
      var index := log.Append(currentTerm, command);
      effects := [PersistEntries([log.entries[index - 1]])];
      var sends := Broadcast();
      var applied := Commit();
      effects := effects + sends + applied;
    }

    method Advance() returns (effects: seq<Effect>)
      modifies this
      ensures log == old(log) && Outcome(State(), effects) == AdvanceApplied(old(State()))
    {
      effects := [];
      while lastApplied < commitIndex
        invariant log == old(log)
        invariant old(lastApplied) <= lastApplied
        invariant old(lastApplied) < lastApplied ==> lastApplied <= commitIndex
        invariant State() == old(State()).(lastApplied := lastApplied)
        invariant effects == Applies(log.entries, old(lastApplied), lastApplied)
      {
        lastApplied := lastApplied + 1;
        var entry := Get(log.entries, lastApplied);
        if entry.Some? { effects := effects + [Apply(entry.value)]; }
      }
    }

    method HandleAppendEntriesResp(from: NodeId, resp: Message) returns (effects: seq<Effect>)
      requires resp.AppendEntriesResp?
      modifies this
      ensures log == old(log) && Outcome(State(), effects) == OnAppendEntriesResp(old(State()), from, resp)
    {
      effects := MaybeStepDown(resp.term);
      if resp.term < currentTerm { return; }
      if !role.Leader? { return; }
      if resp.success {
        var m := if from in role.matchIndex then role.matchIndex[from] else 0;
        m := if m > resp.matchIndex then m else resp.matchIndex;
        role := Leader(role.nextIndex[from := m + 1], role.matchIndex[from := m]);
        var applied := Commit();
        effects := effects + applied;
      } else {
        var ni: NextIndex := if from in role.nextIndex then role.nextIndex[from] else 2;
        ni := if ni > 1 then ni - 1 else 1;
        role := Leader(role.nextIndex[from := ni], role.matchIndex);
        var probe := MakeAppend(from);
        effects := effects + [probe];
      }
    }

    /** try_commit: scan down for the highest own-term index a majority holds. */
    method Commit() returns (effects: seq<Effect>)
      modifies this
      ensures log == old(log) && Outcome(State(), effects) == TryCommit(old(State()))
    {
      if !role.Leader? { return []; }
      var found := commitIndex;
      var n: nat := |log.entries|;
      while n > commitIndex
        invariant unchanged(this) && unchanged(log) && found == commitIndex
        invariant n <= |log.entries|
        invariant CommitTarget(State(), |log.entries|) == CommitTarget(State(), n)
      {
        if TermAt(log.entries, n) == Some(currentTerm) {
          var holders := CountHolders(n);
          if holders >= DivCeil(|peers|, 2) + 1 {
            found := n;
            break;
          }
        }
        n := n - 1;
      }
      if found > commitIndex {
        commitIndex := found;
        effects := Advance();
      } else {
        effects := [];
      }
    }

    method CountHolders(n: LogIndex) returns (holders: nat)
      requires role.Leader?
      ensures holders == 1 + Matching(peers, role.matchIndex, n)
    {
      holders := 1;
      for i := 0 to |peers|
        invariant holders == 1 + Matching(peers[..i], role.matchIndex, n)
      {
        assert peers[..i + 1][..i] == peers[..i];
        if (if peers[i] in role.matchIndex then role.matchIndex[peers[i]] else 0) >= n {
          holders := holders + 1;
        }
      }
      assert peers[..|peers|] == peers;
    }
  }
}

/** Each handler of the core is a short run of ballot actions by its own node. */
module RaftSim {
  import opened Options
  import opened RaftTypes
  import opened RaftLogs
  import opened RaftCore
  import opened RaftBallots

  // ---- how a node and a message relate to the ballots ---------------------------

  /** Term, vote and log: the durable part. */
  ghost predicate HardOk(b: Ballots, n: Node) {
    && n.id in b.ids && n.id in b.term && n.id in b.log
    && b.term[n.id] == n.currentTerm && b.log[n.id] == n.log
    && n.votedFor == VoteOf(b, n.id, n.currentTerm)
  }

  ghost function VoteOf(b: Ballots, q: NodeId, t: Term): Option<NodeId> {
    if (q, t) in b.votes then Some(b.votes[(q, t)]) else None
  }

  ghost predicate NoDups(s: seq<NodeId>) {
    forall i, j :: 0 <= i < j < |s| ==> s[i] != s[j]
  }

  /** The peers are all the other members, each listed once. */
  ghost predicate PeersOk(ids: set<NodeId>, n: Node) {
    n.id in ids && NoDups(n.peers) && forall p :: p in n.peers <==> p in ids && p != n.id
  }

  ghost predicate RoleOk(b: Ballots, n: Node) {
    var t := n.currentTerm;
    match n.role
    case Follower => true
    case Candidate(votes) =>
      && votes <= Supporters(b, t, n.id)
      && (t, n.id) in b.cand && b.cand[(t, n.id)] == n.log
      && (t in b.owner ==> b.owner[t] != n.id)
    case Leader(next, mat) =>
      && t in b.lead && t in b.owner && b.owner[t] == n.id && b.lead[t] == n.log
      && (forall p :: p in next ==> next[p] <= |n.log| + 1)
      && (forall p :: p in mat && mat[p] > 0 ==> Acked(b, p, t, mat[p]))
      && (forall k :: OwnEntry(b, t, k) ==> Acked(b, n.id, t, k))
  }

  ghost predicate CommitOk(b: Ballots, n: Node) {
    n.lastApplied == n.commitIndex && CommittedPrefix(b, n.log, n.commitIndex, n.currentTerm)
  }

  ghost predicate NodeOk(b: Ballots, n: Node) {
    HardOk(b, n) && PeersOk(b.ids, n) && RoleOk(b, n) && CommitOk(b, n)
  }

  /** What an AppendEntries of term t says is true of the term-t log, and its
      leader_commit never exceeds what the message itself vouches for. */
  ghost predicate AppendOk(b: Ballots, from: NodeId, m: Message)
    requires m.AppendEntries?
  {
    && m.term in b.lead && m.term in b.owner && b.owner[m.term] == from
    && m.prevLogIndex + |m.entries| <= |b.lead[m.term]|
    && (forall i :: 0 <= i < |m.entries| ==> m.entries[i] == b.lead[m.term][m.prevLogIndex + i])
    && TermAt(b.lead[m.term], m.prevLogIndex) == Some(m.prevLogTerm)
    && m.leaderCommit <= m.prevLogIndex + |m.entries|
    && CommittedPrefix(b, b.lead[m.term], m.leaderCommit, m.term)
  }

  ghost predicate MsgOk(b: Ballots, from: NodeId, to: NodeId, m: Message) {
    && from != to && from in b.ids && to in b.ids
    && match m
       case RequestVote(t, c, i, lt) =>
         c == from && (t, c) in b.cand && i == |b.cand[(t, c)]| && lt == LastTerm(b.cand[(t, c)])
       case RequestVoteResp(t, granted) => granted ==> VoteOf(b, from, t) == Some(to)
       case AppendEntries(_, _, _, _, _, _) => AppendOk(b, from, m)
       case AppendEntriesResp(t, success, k) => success ==> Acked(b, from, t, k)
  }

  /** The entry is part of a committed prefix. */
  ghost predicate EntryOk(b: Ballots, e: LogEntry) {
    exists t: Term, n: nat :: Committed(b, t, n) && 1 <= e.index <= n && b.lead[t][e.index - 1] == e
  }

  ghost predicate EffectOk(b: Ballots, id: NodeId, e: Effect) {
    match e
    case Send(to, m) => MsgOk(b, id, to, m)
    case Apply(entry) => EntryOk(b, entry)
    case _ => true
  }

  ghost predicate EffectsOk(b: Ballots, id: NodeId, es: seq<Effect>) {
    forall i :: 0 <= i < |es| ==> EffectOk(b, id, es[i])
  }

  /** What simulating one handler delivers. */
  ghost predicate Simulates(b: Ballots, c: Ballots, r: Outcome) {
    Inv(c) && Evolves(b, c, r.node.id) && NodeOk(c, r.node) && EffectsOk(c, r.node.id, r.effects)
  }

  // ---- history keeps everything true ------------------------------------------------

  lemma EvolvesRefl(b: Ballots, id: NodeId)
    ensures Evolves(b, b, id)
  {}

  lemma AppendStays(b: Ballots, c: Ballots, from: NodeId, m: Message)
    requires m.AppendEntries? && History(b, c) && AppendOk(b, from, m)
    ensures AppendOk(c, from, m)
  {
    var l, l' := b.lead[m.term], c.lead[m.term];
    CommittedPrefixStays(b, c, l, m.leaderCommit, m.term);
    CommittedPrefixAlong(c, l, l', m.leaderCommit, m.term);
  }

  lemma CommittedPrefixAlong(b: Ballots, l: Log, m: Log, k: nat, bound: Term)
    requires CommittedPrefix(b, l, k, bound) && Agree(l, m, k)
    ensures CommittedPrefix(b, m, k, bound)
  {
    if k > 0 {
      var t: Term, n: nat :| Committed(b, t, n) && t <= bound && k <= n && Agree(l, b.lead[t], k);
      assert Agree(m, b.lead[t], k);
    }
  }

  lemma MsgStays(b: Ballots, c: Ballots, from: NodeId, to: NodeId, m: Message)
    requires History(b, c) && MsgOk(b, from, to, m)
    ensures MsgOk(c, from, to, m)
  {
    if m.AppendEntries? { AppendStays(b, c, from, m); }
  }

  lemma EntryStays(b: Ballots, c: Ballots, e: LogEntry)
    requires History(b, c) && EntryOk(b, e)
    ensures EntryOk(c, e)
  {
    var t: Term, n: nat :| Committed(b, t, n) && 1 <= e.index <= n && b.lead[t][e.index - 1] == e;
    CommittedStays(b, c, t, n);
  }

  lemma EffectsStay(b: Ballots, c: Ballots, id: NodeId, es: seq<Effect>)
    requires History(b, c) && EffectsOk(b, id, es)
    ensures EffectsOk(c, id, es)
  {
    forall i | 0 <= i < |es| ensures EffectOk(c, id, es[i]) {
      if es[i].Send? { MsgStays(b, c, id, es[i].to, es[i].msg); }
      if es[i].Apply? { EntryStays(b, c, es[i].entry); }
    }
  }

  /** A node that did not act is unaffected by another node's actions. */
  lemma BystanderRole(b: Ballots, c: Ballots, n: Node, id: NodeId)
    requires Shape(b) && Evolves(b, c, id) && n.id != id && HardOk(b, n) && RoleOk(b, n)
    ensures HardOk(c, n) && RoleOk(c, n)
  {
    assert VoteOf(c, n.id, n.currentTerm) == VoteOf(b, n.id, n.currentTerm);
    if n.role.Leader? {
      assert forall k :: OwnEntry(c, n.currentTerm, k) ==> OwnEntry(b, n.currentTerm, k);
    }
  }

  lemma BystanderOk(b: Ballots, c: Ballots, n: Node, id: NodeId)
    requires Inv(b) && Evolves(b, c, id) && n.id != id && NodeOk(b, n)
    ensures NodeOk(c, n)
  {
    BystanderRole(b, c, n, id);
    CommittedPrefixStays(b, c, n.log, n.commitIndex, n.currentTerm);
  }

  // ---- counting ----------------------------------------------------------------------

  ghost function Elems(s: seq<NodeId>): set<NodeId> { set x | x in s }

  lemma {:induction false} NoDupsCard(s: seq<NodeId>)
    requires NoDups(s)
    ensures |Elems(s)| == |s|
  {
    if s != [] {
      var r := s[..|s| - 1];
      NoDupsCard(r);
      assert Elems(s) == Elems(r) + {s[|s| - 1]};
    }
  }

  lemma MajorityIsMajority(b: Ballots, n: Node)
    requires PeersOk(b.ids, n)
    ensures MajorityOf(n) == Majority(|b.ids|)
  {
    NoDupsCard(n.peers);
    assert Elems(n.peers) == b.ids - {n.id};
  }

  ghost function MatchingSet(peers: seq<NodeId>, mat: map<NodeId, LogIndex>, k: LogIndex): set<NodeId> {
    set p | p in peers && (if p in mat then mat[p] else 0) >= k
  }

  lemma {:induction false} MatchingCard(peers: seq<NodeId>, mat: map<NodeId, LogIndex>, k: LogIndex)
    requires NoDups(peers)
    ensures |MatchingSet(peers, mat, k)| == Matching(peers, mat, k)
  {
    if peers != [] {
      var r, p := peers[..|peers| - 1], peers[|peers| - 1];
      MatchingCard(r, mat, k);
      MatchingSetStep(r, p, mat, k);
      assert peers == r + [p];
      hide MatchingSet;
    }
  }

  lemma MatchingSetStep(r: seq<NodeId>, p: NodeId, mat: map<NodeId, LogIndex>, k: LogIndex)
    requires p !in r
    ensures p !in MatchingSet(r, mat, k)
    ensures MatchingSet(r + [p], mat, k) ==
      MatchingSet(r, mat, k) + (if (if p in mat then mat[p] else 0) >= k then {p} else {})
  {}

  // ---- step down --------------------------------------------------------------------

  lemma CommittedPrefixWeaken(b: Ballots, l: Log, k: nat, t: Term, u: Term)
    requires CommittedPrefix(b, l, k, t) && t <= u
    ensures CommittedPrefix(b, l, k, u)
  {}

  lemma BumpNode(b: Ballots, n: Node, t: Term)
    requires Shape(b) && VotesOk(b) && NodeOk(b, n) && t > n.currentTerm
    ensures NodeOk(Bump(b, n.id, t), StepDown(n, t).node)
  {
    var c := Bump(b, n.id, t);
    assert (n.id, t) !in b.votes;
    CommittedPrefixStays(b, c, n.log, n.commitIndex, n.currentTerm);
    CommittedPrefixWeaken(c, n.log, n.commitIndex, n.currentTerm, t);
  }

  lemma StepDownSim(b: Ballots, n: Node, t: Term) returns (c: Ballots)
    requires Inv(b) && NodeOk(b, n)
    ensures Simulates(b, c, StepDown(n, t))
  {
    if t <= n.currentTerm {
      EvolvesRefl(b, n.id);
      c := b;
    } else {
      c := Bump(b, n.id, t);
      BumpKeepsInv(b, n.id, t);
      BumpNode(b, n, t);
    }
  }

  lemma EffectsJoin(b: Ballots, c: Ballots, id: NodeId, es: seq<Effect>, fs: seq<Effect>)
    requires History(b, c) && EffectsOk(b, id, es) && EffectsOk(c, id, fs)
    ensures EffectsOk(c, id, es + fs)
  {
    EffectsStay(b, c, id, es);
  }

  /** Running one handler's simulation after another's. */
  lemma Compose(b: Ballots, c: Ballots, d: Ballots, r: Outcome, s: Outcome)
    requires Inv(b) && Simulates(b, c, r) && Simulates(c, d, s) && r.node.id == s.node.id
    ensures Simulates(b, d, Outcome(s.node, r.effects + s.effects))
  {
    EvolvesTrans(b, c, d, r.node.id);
    EffectsJoin(c, d, r.node.id, r.effects, s.effects);
  }

  // ---- append messages -----------------------------------------------------------------

  lemma AppendMessageOk(b: Ballots, n: Node, peer: NodeId)
    requires NodeOk(b, n) && n.role.Leader? && peer in b.ids && peer != n.id
    ensures MsgOk(b, n.id, peer, AppendMessage(n, peer))
  {
    CommittedPrefixBound(b, n.log, n.commitIndex, n.currentTerm);
  }

  lemma CommittedPrefixBound(b: Ballots, l: Log, k: nat, bound: Term)
    requires CommittedPrefix(b, l, k, bound)
    ensures k <= |l|
  {}

  lemma BroadcastOk(b: Ballots, n: Node)
    requires NodeOk(b, n) && n.role.Leader?
    ensures EffectsOk(b, n.id, BroadcastAppend(n))
  {
    forall i | 0 <= i < |n.peers| ensures EffectOk(b, n.id, BroadcastAppend(n)[i]) {
      AppendMessageOk(b, n, n.peers[i]);
    }
  }

  // ---- winning ----------------------------------------------------------------------

  lemma WinEnabled(b: Ballots, n: Node)
    requires Inv(b) && NodeOk(b, n) && n.role.Candidate? && |n.role.votes| >= MajorityOf(n)
    ensures CanWin(b, n.id, n.currentTerm)
  {
    var t, s := n.currentTerm, Supporters(b, n.currentTerm, n.id);
    MajorityIsMajority(b, n);
    SubsetCard(n.role.votes, s);
    if t in b.lead {
      var q := QuorumsMeet(b.ids, s, Supporters(b, t, b.owner[t]));
      assert false;
    }
  }

  lemma TryWinSim(b: Ballots, n: Node) returns (c: Ballots)
    requires Inv(b) && NodeOk(b, n)
    ensures Simulates(b, c, TryWin(n))
  {
    EvolvesRefl(b, n.id);
    if !n.role.Candidate? || |n.role.votes| < MajorityOf(n) { return b; }
    var t, r := n.currentTerm, TryWin(n);
    WinEnabled(b, n);
    c := Win(b, n.id, t);
    WinKeepsInv(b, n.id, t);
    CommittedPrefixStays(b, c, n.log, n.commitIndex, t);
    WinnerRole(b, n);
    BroadcastOk(c, r.node);
  }

  lemma WinnerRole(b: Ballots, n: Node)
    requires Inv(b) && NodeOk(b, n) && n.role.Candidate? && CanWin(b, n.id, n.currentTerm)
    requires |n.role.votes| >= MajorityOf(n)
    ensures var c := Win(b, n.id, n.currentTerm); HardOk(c, TryWin(n).node) && RoleOk(c, TryWin(n).node)
  {
    var c := Win(b, n.id, n.currentTerm);
    assert TermsBelow(n.log, n.currentTerm);
    assert forall k :: !OwnEntry(c, n.currentTerm, k);
  }

  // ---- votes -------------------------------------------------------------------------

  /** A role survives actions that change neither owners nor their logs. */
  lemma RoleKept(b: Ballots, c: Ballots, n: Node)
    requires Shape(b) && History(b, c) && b.lead == c.lead && b.owner == c.owner && RoleOk(b, n)
    ensures RoleOk(c, n)
  {
    assert forall k :: OwnEntry(c, n.currentTerm, k) ==> OwnEntry(b, n.currentTerm, k);
  }

  lemma GrantSim(b: Ballots, n: Node, from: NodeId, m: Message) returns (c: Ballots)
    requires Inv(b) && NodeOk(b, n) && m.RequestVote? && MsgOk(b, from, n.id, m) && Grants(n, m)
    ensures Inv(c) && Evolves(b, c, n.id) && NodeOk(c, n.(votedFor := Some(m.candidateId), ticks := 0))
    ensures VoteOf(c, n.id, n.currentTerm) == Some(from)
  {
    assert CanVote(b, n.id, from);
    c := Vote(b, n.id, from);
    VoteKeepsInv(b, n.id, from);
    RoleKept(b, c, n);
    CommittedPrefixStays(b, c, n.log, n.commitIndex, n.currentTerm);
  }

  // From here on handlers run after the term check: the message is not newer.

  lemma VoteReplyOk(b: Ballots, n: Node, from: NodeId, m: Message)
    requires m.RequestVote? && m.term <= n.currentTerm && from != n.id && from in b.ids && n.id in b.ids
    requires Grants(n, m) ==> VoteOf(b, n.id, n.currentTerm) == Some(from)
    ensures EffectsOk(b, n.id, OnRequestVote(n, from, m).effects)
  {}

  lemma RequestVoteSim(b: Ballots, n: Node, from: NodeId, m: Message) returns (c: Ballots)
    requires Inv(b) && NodeOk(b, n) && m.RequestVote? && MsgOk(b, from, n.id, m) && m.term <= n.currentTerm
    ensures Simulates(b, c, OnRequestVote(n, from, m))
  {
    if Grants(n, m) {
      c := GrantSim(b, n, from, m);
    } else {
      EvolvesRefl(b, n.id);
      c := b;
    }
    VoteReplyOk(c, n, from, m);
  }

  lemma CountVote(b: Ballots, n: Node, from: NodeId, m: Message)
    requires NodeOk(b, n) && m.RequestVoteResp? && MsgOk(b, from, n.id, m)
    requires n.role.Candidate? && m.term == n.currentTerm && m.granted
    ensures NodeOk(b, n.(role := Candidate(n.role.votes + {from})))
  {}

  lemma RequestVoteRespSim(b: Ballots, n: Node, from: NodeId, m: Message) returns (c: Ballots)
    requires Inv(b) && NodeOk(b, n) && m.RequestVoteResp? && MsgOk(b, from, n.id, m) && m.term <= n.currentTerm
    ensures Simulates(b, c, OnRequestVoteResp(n, from, m))
  {
    if n.role.Candidate? && m.term == n.currentTerm && m.granted {
      CountVote(b, n, from, m);
      c := TryWinSim(b, n.(role := Candidate(n.role.votes + {from})));
    } else {
      EvolvesRefl(b, n.id);
      c := b;
    }
  }

  lemma {:induction false} VoteRequestsOk(b: Ballots, id: NodeId, peers: seq<NodeId>, m: Message)
    requires forall p :: p in peers ==> MsgOk(b, id, p, m)
    ensures EffectsOk(b, id, VoteRequests(peers, m))
  {
    if peers != [] {
      VoteRequestsOk(b, id, peers[..|peers| - 1], m);
      assert peers[|peers| - 1] in peers;
    }
  }

  function Campaigner(n: Node): Node {
    n.(currentTerm := n.currentTerm + 1, votedFor := Some(n.id), role := Candidate({n.id}),
       ticks := 0, leaderHint := None)
  }

  lemma CampaignCommit(b: Ballots, n: Node)
    requires Shape(b) && HardOk(b, n) && CommitOk(b, n)
    ensures CommitOk(Campaign(b, n.id, n.currentTerm + 1), Campaigner(n))
  {
    var t := n.currentTerm + 1;
    var c := Campaign(b, n.id, t);
    if n.commitIndex > 0 {
      var u: Term, k: nat :| Committed(b, u, k) && u <= n.currentTerm && n.commitIndex <= k
                             && Agree(n.log, b.lead[u], n.commitIndex);
      assert Ackers(c, u, k) == Ackers(b, u, k);
      assert Committed(c, u, k);
    }
  }

  lemma CampaignNode(b: Ballots, n: Node)
    requires Shape(b) && VotesOk(b) && NodeOk(b, n)
    ensures NodeOk(Campaign(b, n.id, n.currentTerm + 1), Campaigner(n))
  {
    var t := n.currentTerm + 1;
    CampaignCommit(b, n);
    assert n.id in Supporters(Campaign(b, n.id, t), t, n.id);
    assert t in b.owner ==> (t, b.owner[t]) in b.cand && t <= b.term[b.owner[t]];
  }

  lemma CampaignEffects(b: Ballots, n: Node)
    requires Shape(b) && NodeOk(b, n)
    ensures var req := RequestVote(n.currentTerm + 1, n.id, |n.log|, LastTerm(n.log));
      EffectsOk(Campaign(b, n.id, n.currentTerm + 1), n.id, [Persist] + VoteRequests(n.peers, req))
  {
    var t := n.currentTerm + 1;
    VoteRequestsOk(Campaign(b, n.id, t), n.id, n.peers, RequestVote(t, n.id, |n.log|, LastTerm(n.log)));
  }

  lemma CampaignSim(b: Ballots, n: Node)
    requires Inv(b) && NodeOk(b, n)
    ensures var req := RequestVote(n.currentTerm + 1, n.id, |n.log|, LastTerm(n.log));
      Simulates(b, Campaign(b, n.id, n.currentTerm + 1),
                Outcome(Campaigner(n), [Persist] + VoteRequests(n.peers, req)))
  {
    var t := n.currentTerm + 1;
    CampaignNode(b, n);
    CampaignEffects(b, n);
    CampaignKeepsInv(b, n.id, t);
  }

  lemma ElectionSim(b: Ballots, n: Node) returns (c: Ballots)
    requires Inv(b) && NodeOk(b, n)
    ensures Simulates(b, c, StartElection(n))
  {
    var req := RequestVote(n.currentTerm + 1, n.id, |n.log|, LastTerm(n.log));
    var b1 := Campaign(b, n.id, n.currentTerm + 1);
    CampaignSim(b, n);
    c := TryWinSim(b1, Campaigner(n));
    Compose(b, b1, c, Outcome(Campaigner(n), [Persist] + VoteRequests(n.peers, req)), TryWin(Campaigner(n)));
  }

  lemma BeatOk(b: Ballots, n: Node, ticks: nat)
    requires NodeOk(b, n)
    ensures NodeOk(b, n.(ticks := ticks))
  {}

  lemma QuietTick(b: Ballots, n: Node)
    requires NodeOk(b, n) && (n.role.Leader? || n.ticks + 1 < n.timeout)
    ensures NodeOk(b, OnTick(n).node) && EffectsOk(b, n.id, OnTick(n).effects)
  {
    BeatOk(b, n, n.ticks + 1);
    BeatOk(b, n, 0);
    if n.role.Leader? { BroadcastOk(b, n.(ticks := 0)); }
  }

  lemma TickSim(b: Ballots, n: Node) returns (c: Ballots)
    requires Inv(b) && NodeOk(b, n)
    ensures Simulates(b, c, OnTick(n))
  {
    if !n.role.Leader? && n.ticks + 1 >= n.timeout {
      BeatOk(b, n, n.ticks + 1);
      c := ElectionSim(b, n.(ticks := n.ticks + 1));
    } else {
      EvolvesRefl(b, n.id);
      c := b;
      QuietTick(b, n);
    }
  }

  // ---- committing --------------------------------------------------------------------

  /** advance_applied emits exactly the entries in (lo, hi], in order. */
  lemma {:induction false} AppliesAre(l: Log, lo: LogIndex, hi: LogIndex)
    requires lo <= hi <= |l|
    ensures |Applies(l, lo, hi)| == hi - lo
    ensures forall i :: 0 <= i < hi - lo ==> Applies(l, lo, hi)[i] == Apply(l[lo + i])
  {
    if lo < hi { AppliesAre(l, lo, hi - 1); }
  }

  lemma {:induction false} AppliesOk(b: Ballots, id: NodeId, l: Log, lo: LogIndex, hi: LogIndex, bound: Term)
    requires lo <= hi && Vouched(b.lead, l) && CommittedPrefix(b, l, hi, bound)
    ensures EffectsOk(b, id, Applies(l, lo, hi))
  {
    AppliesAre(l, lo, hi);
    if hi > 0 {
      var t: Term, n: nat :| Committed(b, t, n) && t <= bound && hi <= n && Agree(l, b.lead[t], hi);
      forall i | 0 <= i < hi - lo ensures EffectOk(b, id, Applies(l, lo, hi)[i]) {
        assert VouchedAt(b.lead, l, lo + i);
        assert 1 <= l[lo + i].index <= n && b.lead[t][l[lo + i].index - 1] == l[lo + i];
      }
    }
  }

  /** try_commit finds the largest own-term index above commit that a majority
      holds, and moves nowhere if there is none. */
  lemma {:induction false} CommitTargetIs(n: Node, k: LogIndex)
    requires n.role.Leader?
    ensures var r := CommitTarget(n, k);
      && r >= n.commitIndex
      && (r > n.commitIndex ==> r <= k && Commits(n, r))
      && (forall j :: r < j <= k ==> !Commits(n, j))
  {
    if k > n.commitIndex && !Commits(n, k) { CommitTargetIs(n, k - 1); }
  }

  /** A majority of match indexes, plus the leader itself, is a majority of acks. */
  lemma CommitsIsCommitted(b: Ballots, n: Node, k: LogIndex)
    requires NodeOk(b, n) && n.role.Leader? && 1 <= k && Commits(n, k)
    ensures Committed(b, n.currentTerm, k)
  {
    var mat, t := n.role.matchIndex, n.currentTerm;
    var held := MatchingSet(n.peers, mat, k);
    MatchingCard(n.peers, mat, k);
    MajorityIsMajority(b, n);
    assert OwnEntry(b, t, k);
    assert held + {n.id} <= Ackers(b, t, k);
    SubsetCard(held + {n.id}, Ackers(b, t, k));
  }

  lemma TryCommitOk(b: Ballots, n: Node)
    requires NodeOk(b, n) && Vouched(b.lead, n.log)
    ensures NodeOk(b, TryCommit(n).node) && EffectsOk(b, n.id, TryCommit(n).effects)
  {
    if n.role.Leader? {
      var k := CommitTarget(n, |n.log|);
      CommitTargetIs(n, |n.log|);
      if k > n.commitIndex {
        CommitsIsCommitted(b, n, k);
        assert CommittedPrefix(b, n.log, k, n.currentTerm);
        AppliesOk(b, n.id, n.log, n.lastApplied, k, n.currentTerm);
      }
    }
  }

  // ---- proposing -----------------------------------------------------------------------

  function Proposer(n: Node, command: Command): Node {
    n.(log := n.log + [LogEntry(n.currentTerm, |n.log| + 1, command)])
  }

  lemma ExtendRole(b: Ballots, n: Node, e: LogEntry)
    requires Shape(b) && AcksOk(b) && HardOk(b, n) && RoleOk(b, n) && n.role.Leader?
    requires e.term == n.currentTerm && e.index == |n.log| + 1
    ensures CanExtend(b, n.id, e)
    ensures var c := Extend(b, n.id, e); HardOk(c, n.(log := n.log + [e])) && RoleOk(c, n.(log := n.log + [e]))
  {
    var c := Extend(b, n.id, e);
    assert forall k: nat :: OwnEntry(c, n.currentTerm, k) ==> k <= |n.log| + 1;
  }

  lemma ExtendCommit(b: Ballots, n: Node, e: LogEntry)
    requires Shape(b) && AcksOk(b) && CommitOk(b, n) && CanExtend(b, n.id, e)
    ensures CommitOk(Extend(b, n.id, e), n.(log := n.log + [e]))
  {
    hide Shape, AcksOk, CommittedPrefix;
    var c := Extend(b, n.id, e);
    ExtendEvolves(b, n.id, e);
    EvolvesIsHistory(b, c, n.id);
    hide Evolves, CanExtend;
    CommittedPrefixStays(b, c, n.log, n.commitIndex, n.currentTerm);
    CommittedPrefixAlong(c, n.log, n.log + [e], n.commitIndex, n.currentTerm);
  }

  lemma ExtendOk(b: Ballots, n: Node, e: LogEntry)
    requires Shape(b) && AcksOk(b) && NodeOk(b, n) && n.role.Leader?
    requires e.term == n.currentTerm && e.index == |n.log| + 1
    ensures CanExtend(b, n.id, e) && NodeOk(Extend(b, n.id, e), n.(log := n.log + [e]))
  {
    ExtendRole(b, n, e);
    ExtendCommit(b, n, e);
  }

  lemma ProposeEffects(b: Ballots, n: Node, command: Command)
    requires NodeOk(b, Proposer(n, command)) && n.role.Leader? && Vouched(b.lead, Proposer(n, command).log)
    ensures NodeOk(b, OnPropose(n, command).node) && EffectsOk(b, n.id, OnPropose(n, command).effects)
  {
    BroadcastOk(b, Proposer(n, command));
    TryCommitOk(b, Proposer(n, command));
  }

  lemma ProposeOk(b: Ballots, n: Node, command: Command)
    requires Shape(b) && AcksOk(b) && NodeOk(b, n) && n.role.Leader? && Vouched(b.lead, n.log)
    ensures var e := LogEntry(n.currentTerm, |n.log| + 1, command);
      && CanExtend(b, n.id, e)
      && NodeOk(Extend(b, n.id, e), OnPropose(n, command).node)
      && EffectsOk(Extend(b, n.id, e), n.id, OnPropose(n, command).effects)
  {
    var e := LogEntry(n.currentTerm, |n.log| + 1, command);
    ExtendOk(b, n, e);
    ExtendVouched(b.lead, n.log, e);
    ProposeEffects(Extend(b, n.id, e), n, command);
  }

  lemma ProposeSim(b: Ballots, n: Node, command: Command) returns (c: Ballots)
    requires Inv(b) && NodeOk(b, n)
    ensures Simulates(b, c, OnPropose(n, command))
  {
    if n.role.Leader? {
      hide Safe, VotesOk, EffectsOk, AppendOk, PeersOk, CommitOk, RoleOk;
      var e := LogEntry(n.currentTerm, |n.log| + 1, command);
      ProposeOk(b, n, command);
      c := Extend(b, n.id, e);
      ExtendKeepsInv(b, n.id, e);
    } else {
      EvolvesRefl(b, n.id);
      c := b;
    }
  }

  // ---- append responses ----------------------------------------------------------------

  lemma RecordAckOk(b: Ballots, n: Node, from: NodeId, k: LogIndex)
    requires Shape(b) && AcksOk(b) && NodeOk(b, n) && n.role.Leader? && Acked(b, from, n.currentTerm, k)
    ensures NodeOk(b, RecordAck(n, from, k))
  {}

  lemma WalkBackOk(b: Ballots, n: Node, from: NodeId)
    requires NodeOk(b, n) && n.role.Leader?
    ensures NodeOk(b, WalkBack(n, from))
  {}

  lemma AckedOk(b: Ballots, n: Node, from: NodeId, k: LogIndex)
    requires Shape(b) && AcksOk(b) && NodeOk(b, n) && Vouched(b.lead, n.log)
    requires n.role.Leader? && Acked(b, from, n.currentTerm, k)
    ensures var r := TryCommit(RecordAck(n, from, k)); NodeOk(b, r.node) && EffectsOk(b, n.id, r.effects)
  {
    RecordAckOk(b, n, from, k);
    TryCommitOk(b, RecordAck(n, from, k));
  }

  lemma AppendRespOk(b: Ballots, n: Node, from: NodeId, m: Message)
    requires Shape(b) && AcksOk(b) && NodeOk(b, n) && Vouched(b.lead, n.log)
    requires m.AppendEntriesResp? && MsgOk(b, from, n.id, m) && m.term <= n.currentTerm
    ensures var r := OnAppendEntriesResp(n, from, m); NodeOk(b, r.node) && EffectsOk(b, n.id, r.effects)
  {
    hide Shape, AcksOk, Vouched, RoleOk, PeersOk, CommitOk, HardOk, TryCommit, AppendOk;
    if m.term == n.currentTerm && n.role.Leader? {
      if m.success {
        AckedOk(b, n, from, m.matchIndex);
      } else {
        WalkBackOk(b, n, from);
        AppendMessageOk(b, WalkBack(n, from), from);
      }
    }
  }

  lemma AppendRespSim(b: Ballots, n: Node, from: NodeId, m: Message) returns (c: Ballots)
    requires Inv(b) && NodeOk(b, n) && m.AppendEntriesResp? && MsgOk(b, from, n.id, m) && m.term <= n.currentTerm
    ensures Simulates(b, c, OnAppendEntriesResp(n, from, m))
  {
    c := b;
    EvolvesRefl(b, n.id);
    AppendRespOk(b, n, from, m);
  }

  // ---- append entries -------------------------------------------------------------------

  /** Where two logs have the same term, they agree (a form of Log Matching). */
  ghost predicate TermsTell(l: Log, m: Log) {
    forall i :: 0 <= i < |l| && i < |m| && l[i].term == m[i].term ==> Agree(l, m, i + 1)
  }

  lemma VouchedTermsTell(lead: map<Term, Log>, l: Log, m: Log)
    requires Vouched(lead, l) && Vouched(lead, m)
    ensures TermsTell(l, m)
  {
    forall i | 0 <= i < |l| && i < |m| && l[i].term == m[i].term ensures Agree(l, m, i + 1) {
      assert VouchedAt(lead, l, i) && VouchedAt(lead, m, i);
    }
  }

  /** j is where l first departs from m within [0, q], or q if it does not. */
  ghost predicate Departs(l: Log, m: Log, j: nat, q: nat) {
    && j <= q <= |m| && Agree(l, m, j)
    && (j < q ==> j == |l| || l[j].term != m[j].term)
  }

  ghost function Repaired(l: Log, m: Log, j: nat, q: nat): Scan
    requires Departs(l, m, j, q)
  {
    if j == q then Scan(l, [], [])
    else Scan(l[..j], m[j..q], if j < |l| then [PersistTruncate(j + 1)] else [])
  }

  /** One iteration while nothing has departed yet. */
  lemma ScanAtFront(l: Log, m: Log, j: nat) returns (k: nat)
    requires j < |m| && Agree(l, m, j) && TermsTell(l, m) && m[j].index == j + 1
    ensures j <= k && Departs(l, m, k, j + 1)
    ensures ScanOne(Scan(l, [], []), m[j]) == Repaired(l, m, k, j + 1)
  {
    k := if j < |l| && l[j].term == m[j].term then j + 1 else j;
    assert j == |l| ==> l[..j] == l;
    assert m[j..j + 1] == [m[j]];
  }

  /** One iteration after the departure: the log is already cut, so just collect. */
  lemma ScanBehind(l: Log, m: Log, j: nat, q: nat)
    requires j < q < |m| && Departs(l, m, j, q) && m[q].index == q + 1
    ensures Departs(l, m, j, q + 1)
    ensures ScanOne(Repaired(l, m, j, q), m[q]) == Repaired(l, m, j, q + 1)
  {
    assert m[j..q + 1] == m[j..q] + [m[q]];
  }

  lemma IndexIs(m: Log, q: nat)
    requires Indexed(m) && q < |m|
    ensures m[q].index == q + 1
  {}

  lemma ScanClean(l: Log, m: Log, q: nat)
    requires Departs(l, m, q, q)
    ensures Agree(l, m, q) && Repaired(l, m, q, q) == Scan(l, [], [])
  {}

  lemma ScanPast(l: Log, m: Log, j: nat, q: nat)
    requires Departs(l, m, j, q) && j != q
    ensures j < q
  {}

  /** The conflict loop, on a well-formed message: find the departure, cut at most
      once, append the rest. */
  lemma {:induction false} ScanRepairs(l: Log, m: Log, p: nat, es: seq<LogEntry>) returns (j: nat)
    requires p + |es| <= |m| && Agree(l, m, p) && TermsTell(l, m) && Indexed(m)
    requires forall i :: 0 <= i < |es| ==> es[i] == m[p + i]
    ensures Departs(l, m, j, p + |es|) && p <= j
    ensures ScanEntries(l, es) == Repaired(l, m, j, p + |es|)
  {
    if es == [] { return p; }
    hide TermsTell, Indexed, Departs, Repaired, ScanOne;
    var q := p + |es| - 1;
    IndexIs(m, q);
    j := ScanRepairs(l, m, p, es[..|es| - 1]);
    if j == q { ScanClean(l, m, q); j := ScanAtFront(l, m, j); } else { ScanPast(l, m, j, q); ScanBehind(l, m, j, q); }
  }

  // The follower after the consistency check, at each point a crash can leave it.

  /** The follower's log agrees with the sender's through prev_log_index. */
  lemma CheckedAgree(b: Ballots, l: Log, from: NodeId, m: Message)
    requires m.AppendEntries? && AppendOk(b, from, m) && TermsTell(l, b.lead[m.term])
    requires TermAt(l, m.prevLogIndex) == Some(m.prevLogTerm)
    ensures Agree(l, b.lead[m.term], m.prevLogIndex)
  {
    if m.prevLogIndex > 0 { assert l[m.prevLogIndex - 1].term == b.lead[m.term][m.prevLogIndex - 1].term; }
  }

  /** A follower never loses a committed entry to a repair. */
  lemma RepairKeepsCommitted(b: Ballots, n: Node, t: Term, j: nat, k: nat)
    requires Shape(b) && LeadsSafe(b) && CommitOk(b, n) && n.currentTerm == t
    requires CanAdopt(b, n.id, t, j, k) && b.log[n.id] == n.log
    ensures n.commitIndex <= k && CommittedPrefix(b, b.lead[t][..k], n.commitIndex, t)
  {
    CommittedInLead(b, n.log, n.commitIndex, t, t);
    AdoptKeepsShared(b, n.id, t, j, k, n.commitIndex);
    CommittedPrefixAlong(b, n.log, b.lead[t][..k], n.commitIndex, t);
  }

  lemma AdoptSim(b: Ballots, n: Node, t: Term, j: nat, k: nat) returns (c: Ballots)
    requires Inv(b) && NodeOk(b, n) && n.role.Follower? && n.currentTerm == t && CanAdopt(b, n.id, t, j, k)
    ensures c == Adopt(b, n.id, t, k) && Inv(c) && Evolves(b, c, n.id)
    ensures NodeOk(c, n.(log := b.lead[t][..k]))
  {
    AdoptParts(b, n, t, j, k);
    hide Basic, Safe, Evolves, NodeOk, CanAdopt, Adopt, CommitOk, CommittedPrefix;
    c := Adopt(b, n.id, t, k);
    AdoptKeepsInv(b, n.id, t, j, k);
    AdoptedNode(b, n, t, j, k);
  }

  lemma AdoptParts(b: Ballots, n: Node, t: Term, j: nat, k: nat)
    requires Inv(b) && NodeOk(b, n) && CanAdopt(b, n.id, t, j, k)
    ensures Shape(b) && LeadsSafe(b) && CommitOk(b, n) && b.log[n.id] == n.log
  {
    hide Shape, LogsOk, VotesOk, AcksOk, LeadsSafe, HoldsSafe, BallotsSafe, CommitOk, RoleOk, PeersOk;
  }

  /** The follower with the repaired log. */
  lemma AdoptedNode(b: Ballots, n: Node, t: Term, j: nat, k: nat)
    requires Shape(b) && LeadsSafe(b) && NodeOk(b, n) && n.role.Follower? && n.currentTerm == t && CanAdopt(b, n.id, t, j, k)
    requires Evolves(b, Adopt(b, n.id, t, k), n.id)
    ensures NodeOk(Adopt(b, n.id, t, k), n.(log := b.lead[t][..k]))
  {
    AdoptedHard(b, n, t, j, k);
    AdoptedCommit(b, n, t, j, k);
    hide Evolves, CommitOk, HardOk, Shape, LeadsSafe, CanAdopt;
  }

  lemma AdoptedHard(b: Ballots, n: Node, t: Term, j: nat, k: nat)
    requires HardOk(b, n) && CanAdopt(b, n.id, t, j, k)
    ensures HardOk(Adopt(b, n.id, t, k), n.(log := b.lead[t][..k]))
  {}

  lemma AdoptedCommit(b: Ballots, n: Node, t: Term, j: nat, k: nat)
    requires Shape(b) && LeadsSafe(b) && HardOk(b, n) && CommitOk(b, n) && n.currentTerm == t && CanAdopt(b, n.id, t, j, k)
    requires Evolves(b, Adopt(b, n.id, t, k), n.id)
    ensures CommitOk(Adopt(b, n.id, t, k), n.(log := b.lead[t][..k]))
  {
    hide Evolves, CommittedPrefix, LeadsSafe, History, Shape, Adopt;
    RepairKeepsCommitted(b, n, t, j, k);
    EvolvesIsHistory(b, Adopt(b, n.id, t, k), n.id);
    CommittedPrefixStays(b, Adopt(b, n.id, t, k), b.lead[t][..k], n.commitIndex, t);
  }

  lemma EvolvesIsHistory(b: Ballots, c: Ballots, id: NodeId)
    requires Evolves(b, c, id)
    ensures History(b, c)
  {}

  lemma AckSim(b: Ballots, n: Node, t: Term, k: nat) returns (c: Ballots)
    requires Inv(b) && NodeOk(b, n) && n.role.Follower? && n.currentTerm == t && CanAck(b, n.id, t, k)
    ensures c == Acknowledge(b, n.id, t, k) && Inv(c) && Evolves(b, c, n.id) && NodeOk(c, n)
    ensures Acked(c, n.id, t, k)
  {
    c := Acknowledge(b, n.id, t, k);
    AckKeepsInv(b, n.id, t, k);
    CommittedPrefixStays(b, c, n.log, n.commitIndex, t);
  }

  /** The cap at last_index never bites: leader_commit is within what the message
      vouched for, so what gets committed is the sender's committed prefix. */
  lemma LearnCommitOk(b: Ballots, n: Node, from: NodeId, m: Message)
    requires NodeOk(b, n) && Vouched(b.lead, n.log) && n.role.Follower? && m.AppendEntries? && m.term == n.currentTerm
    requires AppendOk(b, from, m) && Agree(n.log, b.lead[m.term], m.prevLogIndex + |m.entries|)
    ensures var r := LearnCommit(n, m.leaderCommit);
      NodeOk(b, r.node) && EffectsOk(b, n.id, r.effects) &&
      r.node.commitIndex == (if m.leaderCommit > n.commitIndex then m.leaderCommit else n.commitIndex)
  {
    if m.leaderCommit > n.commitIndex {
      CommittedPrefixAlong(b, b.lead[m.term], n.log, m.leaderCommit, m.term);
      AppliesOk(b, n.id, n.log, n.lastApplied, m.leaderCommit, m.term);
    }
  }

  /** What storing the entries of a vouched message amounts to. */
  lemma StoreDoes(b: Ballots, n: Node, from: NodeId, m: Message) returns (j: nat)
    requires Shape(b) && LogsOk(b) && HardOk(b, n) && m.AppendEntries? && AppendOk(b, from, m)
    requires m.term == n.currentTerm && TermAt(n.log, m.prevLogIndex) == Some(m.prevLogTerm)
    ensures var q, l := m.prevLogIndex + |m.entries|, b.lead[m.term];
      && Departs(n.log, l, j, q) && ScanEntries(n.log, m.entries) == Repaired(n.log, l, j, q) && Indexed(l)
      && StoreScan(n, m.entries).node == n.(log := if j == q then n.log else l[..q])
      && (j < q ==> CanAdopt(b, n.id, m.term, j, q) && CanAdopt(b, n.id, m.term, j, j))
  {
    LogsVouched(b, n, from, m);
    hide Shape, LogsOk, HardOk, Vouched, CommittedPrefix, ScanEntries, StoreScan, CanAdopt, Departs, Repaired, Indexed, TermsTell;
    var q, l := m.prevLogIndex + |m.entries|, b.lead[m.term];
    VouchedTermsTell(b.lead, n.log, l);
    VouchedIndexed(b.lead, l);
    CheckedAgree(b, n.log, from, m);
    j := ScanRepairs(n.log, l, m.prevLogIndex, m.entries);
    ScanStored(n, m.entries, l, j, q);
    if j < q { DepartsAdopts(b, n, m.term, j, q); }
  }

  lemma LogsVouched(b: Ballots, n: Node, from: NodeId, m: Message)
    requires Shape(b) && LogsOk(b) && HardOk(b, n) && m.AppendEntries? && AppendOk(b, from, m)
    ensures m.term in b.lead && Vouched(b.lead, n.log) && Vouched(b.lead, b.lead[m.term])
  {
    hide Vouched, CommittedPrefix, TermsBelow;
  }

  lemma {:induction false} ScanStored(n: Node, es: seq<LogEntry>, l: Log, j: nat, q: nat)
    requires Departs(n.log, l, j, q) && ScanEntries(n.log, es) == Repaired(n.log, l, j, q)
    ensures StoreScan(n, es).node == n.(log := if j == q then n.log else l[..q])
  {
    hide ScanEntries;
    if j < q { assert n.log[..j] + l[j..q] == l[..q]; } else { assert n.log + [] == n.log; }
  }

  lemma DepartsAdopts(b: Ballots, n: Node, t: Term, j: nat, q: nat)
    requires HardOk(b, n) && t in b.lead && n.currentTerm == t && j < q && Departs(n.log, b.lead[t], j, q)
    ensures CanAdopt(b, n.id, t, j, q) && CanAdopt(b, n.id, t, j, j)
  {}

  lemma VouchedIndexed(lead: map<Term, Log>, l: Log)
    requires Vouched(lead, l)
    ensures Indexed(l)
  {
    forall i | 0 <= i < |l| ensures l[i].index == i + 1 { assert VouchedAt(lead, l, i); }
  }

  lemma StoreCases(b: Ballots, n: Node, from: NodeId, m: Message) returns (j: nat)
    requires Shape(b) && LogsOk(b) && HardOk(b, n) && m.AppendEntries? && AppendOk(b, from, m)
    requires m.term == n.currentTerm && TermAt(n.log, m.prevLogIndex) == Some(m.prevLogTerm)
    ensures var q, s := m.prevLogIndex + |m.entries|, StoreScan(n, m.entries).node;
      if j < q then CanAdopt(b, n.id, m.term, j, q) && s == n.(log := b.lead[m.term][..q])
      else CanAck(b, n.id, m.term, q) && s == n
  {
    j := StoreDoes(b, n, from, m);
  }

  lemma StoreSim(b: Ballots, n: Node, from: NodeId, m: Message) returns (c: Ballots)
    requires Inv(b) && NodeOk(b, n) && n.role.Follower? && m.AppendEntries? && AppendOk(b, from, m)
    requires m.term == n.currentTerm && TermAt(n.log, m.prevLogIndex) == Some(m.prevLogTerm)
    ensures Inv(c) && Evolves(b, c, n.id) && NodeOk(c, StoreScan(n, m.entries).node)
    ensures c.lead == b.lead && CanAck(c, n.id, m.term, m.prevLogIndex + |m.entries|)
  {
    hide Shape, LogsOk, VotesOk, AcksOk, Safe, Evolves, AppendOk, StoreScan, HardOk, PeersOk, CommitOk, RoleOk, CanAdopt, CanAck;
    var q := m.prevLogIndex + |m.entries|;
    var j := StoreCases(b, n, from, m);
    if j < q {
      c := AdoptSim(b, n, m.term, j, q);
      AdoptedCanAck(b, n.id, m.term, j, q);
    } else {
      EvolvesRefl(b, n.id);
      c := b;
    }
  }

  lemma AdoptedCanAck(b: Ballots, q: NodeId, t: Term, j: nat, k: nat)
    requires CanAdopt(b, q, t, j, k)
    ensures CanAck(Adopt(b, q, t, k), q, t, k)
  {}

  lemma AcceptEffects(b: Ballots, n: Node, s: Node, from: NodeId, m: Message)
    requires m.AppendEntries? && s == StoreScan(n, m.entries).node && from in b.ids && n.id in b.ids && from != n.id
    requires LearnCommit(s, m.leaderCommit).node.currentTerm == m.term
    requires EffectsOk(b, n.id, LearnCommit(s, m.leaderCommit).effects)
    requires Acked(b, n.id, m.term, m.prevLogIndex + |m.entries|)
    ensures EffectsOk(b, n.id, Accept(n, from, m).effects)
  {
    StorePersists(n, m.entries);
    var es, fs := StoreScan(n, m.entries).effects, Accept(n, from, m).effects;
    forall i | 0 <= i < |fs| ensures EffectOk(b, n.id, fs[i]) {
      if i < |es| { assert fs[i] in es; }
    }
  }

  lemma {:induction false} ScanPersists(l: Log, es: seq<LogEntry>)
    ensures forall e :: e in ScanEntries(l, es).effects ==> e.PersistTruncate?
  {
    if es != [] { ScanPersists(l, es[..|es| - 1]); }
  }

  /** Storing only ever produces persist effects. */
  lemma StorePersists(n: Node, es: seq<LogEntry>)
    ensures forall e :: e in StoreScan(n, es).effects ==> e.PersistTruncate? || e.PersistEntries?
  {
    ScanPersists(n.log, es);
  }

  lemma AcceptSim(b: Ballots, n: Node, from: NodeId, m: Message) returns (c: Ballots)
    requires Inv(b) && NodeOk(b, n) && n.role.Follower? && m.AppendEntries? && AppendOk(b, from, m)
    requires from in b.ids && from != n.id
    requires m.term == n.currentTerm && TermAt(n.log, m.prevLogIndex) == Some(m.prevLogTerm)
    ensures Simulates(b, c, Accept(n, from, m))
  {
    hide Safe, VotesOk, AcksOk, AppendOk, EffectsOk, RoleOk, PeersOk, CommitOk;
    var s := StoreScan(n, m.entries).node;
    var b1 := StoreSim(b, n, from, m);
    c := AckSim(b1, s, m.term, m.prevLogIndex + |m.entries|);
    EvolvesTrans(b, b1, c, n.id);
    AppendStays(b, c, from, m);
    LearnCommitOk(c, s, from, m);
    AcceptEffects(c, n, s, from, m);
  }

  lemma HeardOk(b: Ballots, n: Node, from: NodeId, m: Message)
    requires NodeOk(b, n) && m.AppendEntries? && AppendOk(b, from, m) && m.term == n.currentTerm && from != n.id
    ensures NodeOk(b, Heard(n, m.leaderId)) && Heard(n, m.leaderId).role.Follower?
  {}

  lemma RejectOk(b: Ballots, n: Node, from: NodeId, m: Message)
    requires NodeOk(b, n) && m.AppendEntries? && MsgOk(b, from, n.id, m) && m.term <= n.currentTerm
    requires m.term == n.currentTerm ==> TermAt(n.log, m.prevLogIndex) != Some(m.prevLogTerm)
    ensures var r := OnAppendEntries(n, from, m); NodeOk(b, r.node) && EffectsOk(b, n.id, r.effects)
  {
    if m.term == n.currentTerm { HeardOk(b, n, from, m); }
  }

  lemma AcceptedStep(n: Node, from: NodeId, m: Message)
    requires m.AppendEntries? && m.term == n.currentTerm && TermAt(n.log, m.prevLogIndex) == Some(m.prevLogTerm)
    ensures OnAppendEntries(n, from, m) == Accept(Heard(n, m.leaderId), from, m)
  {
    assert [] + Accept(Heard(n, m.leaderId), from, m).effects == Accept(Heard(n, m.leaderId), from, m).effects;
  }

  lemma AppendEntriesSim(b: Ballots, n: Node, from: NodeId, m: Message) returns (c: Ballots)
    requires Inv(b) && NodeOk(b, n) && m.AppendEntries? && MsgOk(b, from, n.id, m) && m.term <= n.currentTerm
    ensures Simulates(b, c, OnAppendEntries(n, from, m))
  {
    hide Basic, Safe, Evolves, AppendOk, NodeOk, EffectsOk, Accept, OnAppendEntries;
    StepKeepsIdentity(n, Receive(from, m));
    if m.term == n.currentTerm && TermAt(n.log, m.prevLogIndex) == Some(m.prevLogTerm) {
      HeardOk(b, n, from, m);
      AcceptedStep(n, from, m);
      c := AcceptSim(b, Heard(n, m.leaderId), from, m);
    } else {
      RejectOk(b, n, from, m);
      EvolvesRefl(b, n.id);
      c := b;
    }
  }

  // ---- any event ---------------------------------------------------------------------------

  /** Every message handler is the term check followed by the handler proper. */
  lemma TermCheckFirst(n: Node, from: NodeId, m: Message)
    ensures var d := StepDown(n, m.term);
      var r := Step(d.node, Receive(from, m));
      Step(n, Receive(from, m)) == Outcome(r.node, d.effects + r.effects)
      && m.term <= d.node.currentTerm
  {
    hide Grants, TryWin, Accept, Heard, RecordAck, WalkBack, TryCommit, AppendFor;
    if m.term > n.currentTerm {
      var d := StepDown(n, m.term);
      assert StepDown(d.node, m.term) == Outcome(d.node, []);
      var r := Step(d.node, Receive(from, m));
      assert [] + r.effects == r.effects;
    }
  }

  lemma StepKeepsIdentity(n: Node, e: Event)
    ensures Step(n, e).node.id == n.id && Step(n, e).node.peers == n.peers
    ensures n.currentTerm <= Step(n, e).node.currentTerm
  {}

  lemma HandlerSim(b: Ballots, n: Node, from: NodeId, m: Message) returns (c: Ballots)
    requires Inv(b) && NodeOk(b, n) && MsgOk(b, from, n.id, m) && m.term <= n.currentTerm
    ensures Simulates(b, c, Step(n, Receive(from, m)))
  {
    hide Inv, Evolves, NodeOk, MsgOk, EffectsOk, OnRequestVote, OnRequestVoteResp, OnAppendEntries, OnAppendEntriesResp;
    match m
    case RequestVote(_, _, _, _) => c := RequestVoteSim(b, n, from, m);
    case RequestVoteResp(_, _) => c := RequestVoteRespSim(b, n, from, m);
    case AppendEntries(_, _, _, _, _, _) => c := AppendEntriesSim(b, n, from, m);
    case AppendEntriesResp(_, _, _) => c := AppendRespSim(b, n, from, m);
  }

  lemma ReceiveSim(b: Ballots, n: Node, from: NodeId, m: Message) returns (c: Ballots)
    requires Inv(b) && NodeOk(b, n) && MsgOk(b, from, n.id, m)
    ensures Simulates(b, c, Step(n, Receive(from, m)))
  {
    hide Inv, NodeOk, MsgOk, EffectsOk, RaftCore.Step;
    var d := StepDown(n, m.term);
    var b1 := StepDownSim(b, n, m.term);
    MsgStays(b, b1, from, n.id, m);
    StepKeepsIdentity(d.node, Receive(from, m));
    c := HandlerSim(b1, d.node, from, m);
    Compose(b, b1, c, d, Step(d.node, Receive(from, m)));
    TermCheckFirst(n, from, m);
  }

  /** Any event at a related node is matched by ballot actions of that node alone. */
  lemma StepSim(b: Ballots, n: Node, e: Event) returns (c: Ballots)
    requires Inv(b) && NodeOk(b, n) && (e.Receive? ==> MsgOk(b, e.from, n.id, e.msg))
    ensures Simulates(b, c, Step(n, e)) && Step(n, e).node.id == n.id
  {
    hide Inv, Evolves, MsgOk, NodeOk, EffectsOk, OnTick, OnPropose;
    StepKeepsIdentity(n, e);
    match e
    case Tick => c := TickSim(b, n);
    case Propose(command) => c := ProposeSim(b, n, command);
    case Receive(from, m) => c := ReceiveSim(b, n, from, m);
  }
}

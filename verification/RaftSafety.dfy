/** The promises of Raft, for every run of every cluster. */
module RaftSafety {
  import opened Options
  import opened RaftTypes
  import opened RaftLogs
  import opened RaftCore
  import opened RaftStorages
  import opened RaftBallots
  import opened RaftSim
  import opened RaftDurability
  import opened RaftCluster

  /** Ballots for two moments of a run, the later extending the earlier. */
  lemma TwoMoments(run: seq<Cluster>, acts: seq<Action>, j: nat, k: nat) returns (b: Ballots, d: Ballots)
    requires IsRun(run, acts) && j <= k < |run|
    ensures Related(b, run[j]) && Related(d, run[k]) && History(b, d)
  {
    hide Related, History;
    b := RunRelated(run, acts, j);
    d := RunExtends(run, acts, j, k, b);
  }

  // ---- Election Safety ----------------------------------------------------------------

  /** The ballots know who leads, with which log. */
  lemma LeaderOwns(b: Ballots, c: Cluster, x: NodeId)
    requires Related(b, c) && x in c.nodes && c.nodes[x].role.Leader?
    ensures var n := c.nodes[x];
      n.currentTerm in b.lead && n.currentTerm in b.owner && b.owner[n.currentTerm] == x && b.lead[n.currentTerm] == n.log
  {
    hide Inv, CommitOk, MsgOk, EntryOk, HardOk, PeersOk, Synced;
    assert PlaceOk(b, c, x);
  }

  lemma OwnerStays(b: Ballots, d: Ballots, t: Term)
    requires History(b, d) && t in b.owner
    ensures t in d.owner && d.owner[t] == b.owner[t]
  {}

  /** At most one node ever leads a term, whatever crashed in between. */
  lemma ElectionSafety(run: seq<Cluster>, acts: seq<Action>, j: nat, k: nat, x: NodeId, y: NodeId)
    requires IsRun(run, acts) && j <= k < |run| && x in run[j].nodes && y in run[k].nodes
    requires run[j].nodes[x].role.Leader? && run[k].nodes[y].role.Leader?
    requires run[j].nodes[x].currentTerm == run[k].nodes[y].currentTerm
    ensures x == y
  {
    hide *;
    var b, d := TwoMoments(run, acts, j, k);
    LeaderOwns(b, run[j], x);
    LeaderOwns(d, run[k], y);
    OwnerStays(b, d, run[j].nodes[x].currentTerm);
  }

  lemma SenderOwns(b: Ballots, c: Cluster, p: Packet)
    requires Related(b, c) && p in c.net && p.msg.AppendEntries?
    ensures p.msg.term in b.owner && b.owner[p.msg.term] == p.from
  {
    hide Related, CommittedPrefix;
    PacketOk(b, c, p);
  }

  /** Nor do two nodes ever send appends of one term, so a node that won and crashed
      within one step, and is leader in no state, is covered too. */
  lemma OneSenderPerTerm(run: seq<Cluster>, acts: seq<Action>, j: nat, k: nat, p: Packet, q: Packet)
    requires IsRun(run, acts) && j <= k < |run| && p in run[j].net && q in run[k].net
    requires p.msg.AppendEntries? && q.msg.AppendEntries? && p.msg.term == q.msg.term
    ensures p.from == q.from
  {
    hide *;
    var b, d := TwoMoments(run, acts, j, k);
    SenderOwns(b, run[j], p);
    SenderOwns(d, run[k], q);
    OwnerStays(b, d, p.msg.term);
  }

  /** And whoever sent an append of a term is that term's leader whenever there is one. */
  lemma SenderLeads(run: seq<Cluster>, acts: seq<Action>, j: nat, k: nat, p: Packet, x: NodeId)
    requires IsRun(run, acts) && j < |run| && k < |run| && p in run[j].net && x in run[k].nodes
    requires p.msg.AppendEntries? && run[k].nodes[x].role.Leader? && run[k].nodes[x].currentTerm == p.msg.term
    ensures p.from == x
  {
    hide *;
    if j <= k {
      var b, d := TwoMoments(run, acts, j, k);
      SenderOwns(b, run[j], p);
      LeaderOwns(d, run[k], x);
      OwnerStays(b, d, p.msg.term);
    } else {
      var b, d := TwoMoments(run, acts, k, j);
      LeaderOwns(b, run[k], x);
      SenderOwns(d, run[j], p);
      OwnerStays(b, d, p.msg.term);
    }
  }

  // ---- Log Matching ---------------------------------------------------------------------

  lemma NodeLogVouched(b: Ballots, c: Cluster, x: NodeId)
    requires Related(b, c) && x in c.nodes
    ensures Vouched(b.lead, c.nodes[x].log)
  {
    hide Safe, MsgOk, EntryOk, RoleOk, CommitOk, Synced, PeersOk, VotesOk, AcksOk;
    assert PlaceOk(b, c, x);
  }

  lemma VouchedLater(b: Ballots, d: Ballots, l: Log)
    requires History(b, d) && Vouched(b.lead, l)
    ensures Vouched(d.lead, l)
  {
    VouchedMono(b.lead, d.lead, l);
  }

  /** Two logs of any nodes at any moments that agree on the term at an index
      agree on everything through it. */
  lemma LogsMatch(run: seq<Cluster>, acts: seq<Action>, j: nat, k: nat, x: NodeId, y: NodeId, i: nat)
    requires IsRun(run, acts) && j <= k < |run| && x in run[j].nodes && y in run[k].nodes
    requires i < |run[j].nodes[x].log| && i < |run[k].nodes[y].log|
    requires run[j].nodes[x].log[i].term == run[k].nodes[y].log[i].term
    ensures run[j].nodes[x].log[..i + 1] == run[k].nodes[y].log[..i + 1]
  {
    hide IsRun, Related, History, Vouched;
    var b, d := TwoMoments(run, acts, j, k);
    NodeLogVouched(b, run[j], x);
    NodeLogVouched(d, run[k], y);
    VouchedLater(b, d, run[j].nodes[x].log);
    LogMatching(d.lead, run[j].nodes[x].log, run[k].nodes[y].log, i);
  }

  lemma PacketOk(b: Ballots, c: Cluster, x: Packet)
    requires Related(b, c) && x in c.net
    ensures MsgOk(b, x.from, x.to, x.msg) && Shape(b) && LogsOk(b) && LeadsSafe(b)
  {
    hide MsgOk, EntryOk, PlaceOk, Shape, LogsOk, VotesOk, AcksOk, LeadsSafe, HoldsSafe, BallotsSafe;
  }

  /** A log against a message that speaks for the log of its term. */
  lemma LogMeetsMessage(d: Ballots, l: Log, from: NodeId, m: Message, i: nat)
    requires Vouched(d.lead, l) && Shape(d) && LogsOk(d) && m.AppendEntries? && AppendOk(d, from, m)
    requires i < |m.entries| && m.prevLogIndex + i < |l| && l[m.prevLogIndex + i].term == m.entries[i].term
    ensures l[m.prevLogIndex..m.prevLogIndex + i + 1] == m.entries[..i + 1]
    ensures TermAt(l, m.prevLogIndex) == Some(m.prevLogTerm)
  {
    hide CommittedPrefix;
    var at := m.prevLogIndex + i;
    assert VouchedAt(d.lead, l, at) && VouchedAt(d.lead, d.lead[m.term], at);
    assert Agree(l, d.lead[m.term], at + 1);
  }

  /** A log at one moment and an AppendEntries at another: the same, for the message's
      entries and the entry before them. */
  lemma LogMatchesMessage(run: seq<Cluster>, acts: seq<Action>, j: nat, k: nat, x: NodeId, p: Packet, i: nat)
    requires IsRun(run, acts) && j < |run| && k < |run| && x in run[j].nodes && p in run[k].net && p.msg.AppendEntries?
    requires i < |p.msg.entries| && p.msg.prevLogIndex + i < |run[j].nodes[x].log|
    requires run[j].nodes[x].log[p.msg.prevLogIndex + i].term == p.msg.entries[i].term
    ensures var l, m := run[j].nodes[x].log, p.msg;
      l[m.prevLogIndex..m.prevLogIndex + i + 1] == m.entries[..i + 1]
      && TermAt(l, m.prevLogIndex) == Some(m.prevLogTerm)
  {
    hide *;
    var l := run[j].nodes[x].log;
    if j <= k {
      var b, d := TwoMoments(run, acts, j, k);
      NodeLogVouched(b, run[j], x);
      VouchedLater(b, d, l);
      PacketOk(d, run[k], p);
      AppendIs(d, p.from, p.to, p.msg);
      LogMeetsMessage(d, l, p.from, p.msg, i);
    } else {
      var b, d := TwoMoments(run, acts, k, j);
      NodeLogVouched(d, run[j], x);
      PacketOk(b, run[k], p);
      MsgStays(b, d, p.from, p.to, p.msg);
      AppendIs(d, p.from, p.to, p.msg);
      RelatedLogs(d, run[j]);
      LogMeetsMessage(d, l, p.from, p.msg, i);
    }
  }

  lemma AppendIs(b: Ballots, from: NodeId, to: NodeId, m: Message)
    requires MsgOk(b, from, to, m) && m.AppendEntries?
    ensures AppendOk(b, from, m)
  {
    hide AppendOk;
  }

  lemma RelatedLogs(b: Ballots, c: Cluster)
    requires Related(b, c)
    ensures Shape(b) && LogsOk(b)
  {
    hide PlaceOk, MsgOk, EntryOk, Shape, LogsOk, VotesOk, AcksOk, LeadsSafe, HoldsSafe, BallotsSafe;
  }

  // ---- Leader Completeness ------------------------------------------------------------

  lemma CommitAt(b: Ballots, c: Cluster, x: NodeId)
    requires Related(b, c) && x in c.nodes
    ensures CommitOk(b, c.nodes[x]) && Shape(b) && LeadsSafe(b)
  {
    hide CommitOk, MsgOk, EntryOk, RoleOk, HardOk, PeersOk, Shape, LogsOk, VotesOk, AcksOk, LeadsSafe, HoldsSafe, BallotsSafe, Synced;
    assert PlaceOk(b, c, x);
  }

  /** The log a leader has starts with the log it campaigned with. */
  lemma LeaderWon(b: Ballots, c: Cluster, x: NodeId)
    requires Related(b, c) && x in c.nodes && c.nodes[x].role.Leader?
    ensures var t := c.nodes[x].currentTerm; (t, x) in b.cand && Agree(c.nodes[x].log, b.cand[(t, x)], |b.cand[(t, x)]|)
  {
    LeaderOwns(b, c, x);
    hide PlaceOk, MsgOk, EntryOk, LogsOk, AcksOk, LeadsSafe, HoldsSafe, BallotsSafe;
    assert WonBy(b, c.nodes[x].currentTerm, x);
  }

  lemma RelatedParts(b: Ballots, c: Cluster)
    requires Related(b, c)
    ensures Shape(b) && VotesOk(b) && LeadsSafe(b) && BallotsSafe(b)
  {
    hide PlaceOk, MsgOk, EntryOk, Shape, LogsOk, VotesOk, AcksOk, LeadsSafe, HoldsSafe, BallotsSafe;
  }

  /** The leader comes after the commit. */
  lemma LaterLeader(b: Ballots, d: Ballots, n: Node, c: Cluster, y: NodeId)
    requires CommitOk(b, n) && Related(d, c) && History(b, d) && y in c.nodes
    requires c.nodes[y].role.Leader? && n.currentTerm <= c.nodes[y].currentTerm
    ensures Agree(n.log, c.nodes[y].log, n.commitIndex)
  {
    hide Related, History, Shape, VotesOk, LeadsSafe, BallotsSafe, CommittedPrefix;
    RelatedParts(d, c);
    LeaderOwns(d, c, y);
    CommittedPrefixStays(b, d, n.log, n.commitIndex, n.currentTerm);
    CommittedInLead(d, n.log, n.commitIndex, n.currentTerm, c.nodes[y].currentTerm);
  }

  lemma WonStaysKnown(b: Ballots, d: Ballots, t: Term, q: NodeId)
    requires History(b, d) && (t, q) in b.cand && t in b.lead && t in b.owner && b.owner[t] == q
    ensures t in d.lead && t in d.owner && d.owner[t] == q && (t, q) in d.cand && d.cand[(t, q)] == b.cand[(t, q)]
  {}

  /** The leader came before the commit, in a strictly higher term. */
  lemma EarlierLeader(b: Ballots, d: Ballots, c: Cluster, c': Cluster, n: Node, y: NodeId)
    requires Related(b, c) && Related(d, c') && CommitOk(d, n) && History(b, d) && y in c.nodes
    requires c.nodes[y].role.Leader? && n.currentTerm < c.nodes[y].currentTerm
    ensures Agree(n.log, c.nodes[y].log, n.commitIndex)
  {
    hide Related, History, Shape, VotesOk, LeadsSafe, BallotsSafe, CommittedPrefix;
    var m := c.nodes[y];
    LeaderOwns(b, c, y);
    LeaderWon(b, c, y);
    WonStaysKnown(b, d, m.currentTerm, y);
    RelatedParts(d, c');
    CommittedWhenWon(d, n.log, n.commitIndex, n.currentTerm, m.currentTerm);
  }

  lemma AgreeSlices(l: Log, m: Log, n: nat)
    requires Agree(l, m, n)
    ensures n <= |l| && n <= |m| && m[..n] == l[..n]
  {}

  /** What any node has committed by term t, every leader of a higher term has in
      its log, whether that leader is seen after the commit or was there before
      it; a leader of term t itself has it if it is seen after the commit. */
  lemma LeadersAreComplete(run: seq<Cluster>, acts: seq<Action>, j: nat, k: nat, x: NodeId, y: NodeId)
    requires IsRun(run, acts) && j < |run| && k < |run| && x in run[j].nodes && y in run[k].nodes
    requires run[k].nodes[y].role.Leader?
    requires run[j].nodes[x].currentTerm < run[k].nodes[y].currentTerm
             || (run[j].nodes[x].currentTerm == run[k].nodes[y].currentTerm && j <= k)
    ensures var n, m := run[j].nodes[x], run[k].nodes[y];
      n.commitIndex <= |n.log| && n.commitIndex <= |m.log| && m.log[..n.commitIndex] == n.log[..n.commitIndex]
  {
    hide *;
    if j <= k {
      var b, d := TwoMoments(run, acts, j, k);
      CommitAt(b, run[j], x);
      LaterLeader(b, d, run[j].nodes[x], run[k], y);
    } else {
      var b, d := TwoMoments(run, acts, k, j);
      CommitAt(d, run[j], x);
      EarlierLeader(b, d, run[k], run[j], run[j].nodes[x], y);
    }
    AgreeSlices(run[j].nodes[x].log, run[k].nodes[y].log, run[j].nodes[x].commitIndex);
  }

  lemma CrashStep(run: seq<Cluster>, acts: seq<Action>, j: nat)
    requires IsRun(run, acts) && j < |acts|
    ensures j + 1 < |run| && Enabled(run[j], acts[j]) && run[j + 1] == Next(run[j], acts[j])
  {}

  /** A commit made inside a step that a crash cuts off is in no state of the run.  Once what the
      step persists is on disk it counts all the same: every leader of a higher term, at any moment,
      and every later leader of that term has it. */
  lemma CutCommitsAreComplete(run: seq<Cluster>, acts: seq<Action>, j: nat, k: nat, y: NodeId)
    requires IsRun(run, acts) && j < |acts| && k < |run| && y in run[k].nodes && run[k].nodes[y].role.Leader?
    requires acts[j].Crash? && acts[j].id in run[j].nodes
    requires Persisted(Step(run[j].nodes[acts[j].id], acts[j].event).effects, acts[j].done)
    requires var t := Step(run[j].nodes[acts[j].id], acts[j].event).node.currentTerm;
      t < run[k].nodes[y].currentTerm || (t == run[k].nodes[y].currentTerm && j < k)
    ensures var n, m := Step(run[j].nodes[acts[j].id], acts[j].event).node, run[k].nodes[y];
      n.commitIndex <= |n.log| && n.commitIndex <= |m.log| && m.log[..n.commitIndex] == n.log[..n.commitIndex]
  {
    hide *;
    CrashStep(run, acts, j);
    var a := acts[j];
    var n := Step(run[j].nodes[a.id], a.event).node;
    if j < k {
      var b := RunRelated(run, acts, j);
      var mid := CrashRelated(b, run[j], a.id, a.event, a.done, a.timeout);
      var d := RunExtends(run, acts, j + 1, k, mid);
      LaterLeader(mid, d, n, run[k], y);
    } else {
      var b, mid := TwoMoments(run, acts, k, j);
      var d := CrashRelated(mid, run[j], a.id, a.event, a.done, a.timeout);
      HistoryTrans(b, mid, d);
      EarlierLeader(b, d, run[k], run[j + 1], n, y);
    }
    AgreeSlices(n.log, run[k].nodes[y].log, n.commitIndex);
  }

  // ---- State Machine Safety -----------------------------------------------------------------

  lemma AppliedOk(b: Ballots, c: Cluster, e: LogEntry)
    requires Related(b, c) && e in c.applied
    ensures EntryOk(b, e) && Shape(b) && LeadsSafe(b)
  {
    hide EntryOk, MsgOk, PlaceOk, Shape, LogsOk, VotesOk, AcksOk, LeadsSafe, HoldsSafe, BallotsSafe;
  }

  lemma EntriesAgree(b: Ballots, e: LogEntry, f: LogEntry)
    requires Shape(b) && LeadsSafe(b) && EntryOk(b, e) && EntryOk(b, f) && e.index == f.index
    ensures e == f
  {
    var t: Term, n: nat :| Committed(b, t, n) && 1 <= e.index <= n && b.lead[t][e.index - 1] == e;
    var u: Term, o: nat :| Committed(b, u, o) && 1 <= f.index <= o && b.lead[u][f.index - 1] == f;
    if t < u { LeaderCompleteness(b, t, n, u); }
    if u < t { LeaderCompleteness(b, u, o, t); }
  }

  /** Any two entries applied at the same index, by any nodes, at any moments,
      before or after any crashes, are the same entry. */
  lemma StateMachineSafety(run: seq<Cluster>, acts: seq<Action>, j: nat, k: nat, e: LogEntry, f: LogEntry)
    requires IsRun(run, acts) && j <= k < |run| && e in run[j].applied && f in run[k].applied
    requires e.index == f.index
    ensures e == f
  {
    hide IsRun, Related, History, EntryOk, Shape, LeadsSafe;
    var b, d := TwoMoments(run, acts, j, k);
    AppliedOk(b, run[j], e);
    AppliedOk(d, run[k], f);
    EntryStays(b, d, e);
    EntriesAgree(d, e, f);
  }

  lemma StreamAt(b: Ballots, c: Cluster, x: NodeId)
    requires Related(b, c) && x in c.nodes
    ensures x in c.streams && c.nodes[x].lastApplied == c.nodes[x].commitIndex <= |c.nodes[x].log|
    ensures c.streams[x] == c.nodes[x].log[..c.nodes[x].commitIndex]
  {
    hide Inv, MsgOk, EntryOk, RoleOk, HardOk, PeersOk, Synced;
    assert PlaceOk(b, c, x);
  }

  /** All apply streams, of any nodes at any moments, are prefixes of one another. */
  lemma StreamsArePrefixes(run: seq<Cluster>, acts: seq<Action>, j: nat, k: nat, x: NodeId, y: NodeId)
    requires IsRun(run, acts) && j <= k < |run| && x in run[j].nodes && y in run[k].nodes
    ensures x in run[j].streams && y in run[k].streams
    ensures run[j].streams[x] <= run[k].streams[y] || run[k].streams[y] <= run[j].streams[x]
  {
    hide IsRun, Related, History, Shape, LeadsSafe, CommittedPrefix;
    var n, m := run[j].nodes[x], run[k].nodes[y];
    var b, d := TwoMoments(run, acts, j, k);
    StreamAt(b, run[j], x);
    StreamAt(d, run[k], y);
    CommitAt(b, run[j], x);
    CommitAt(d, run[k], y);
    CommittedPrefixStays(b, d, n.log, n.commitIndex, n.currentTerm);
    if n.commitIndex <= m.commitIndex {
      CommittedAgree(d, n.log, n.commitIndex, m.log, m.commitIndex, n.currentTerm, m.currentTerm);
    } else {
      CommittedAgree(d, m.log, m.commitIndex, n.log, n.commitIndex, m.currentTerm, n.currentTerm);
    }
  }

  /** Each life of a node applies indexes 1, 2, 3, ... with no gap and no repeat,
      and last_applied == commit_index <= last_index at every moment. */
  lemma StreamIsGapless(run: seq<Cluster>, acts: seq<Action>, k: nat, x: NodeId)
    requires IsRun(run, acts) && k < |run| && x in run[k].nodes
    ensures var n := run[k].nodes[x];
      && x in run[k].streams && |run[k].streams[x]| == n.lastApplied == n.commitIndex <= |n.log|
      && forall i :: 0 <= i < |run[k].streams[x]| ==> run[k].streams[x][i].index == i + 1
  {
    hide IsRun, Related, Vouched;
    var b := RunRelated(run, acts, k);
    StreamAt(b, run[k], x);
    NodeLogVouched(b, run[k], x);
    VouchedIndexed(b.lead, run[k].nodes[x].log);
  }

  /** Everything a node applied in the life that a crash cuts off after `done` effects. */
  function Life(c: Cluster, x: NodeId, e: Event, done: nat): seq<LogEntry>
    requires Possible(c, x, e) && done <= |Step(c.nodes[x], e).effects|
  {
    c.streams[x] + Effected(c, x, e, done).applied
  }

  /** A step cut short applied a prefix of what the whole step applies. */
  lemma CutApplies(c: Cluster, x: NodeId, e: Event, done: nat)
    requires Possible(c, x, e) && done <= |Step(c.nodes[x], e).effects|
    ensures Life(c, x, e, done) <= Next(c, Handle(x, e)).streams[x]
  {
    hide RaftCore.Step, Exec;
    var r := Step(c.nodes[x], e);
    ExecApplied(c.disks[x], r.node, r.effects[..done]);
    ExecApplied(c.disks[x], r.node, r.effects[..|r.effects|]);
    assert r.effects[..|r.effects|] == r.effects[..done] + r.effects[done..];
    AppliedJoin(r.effects[..done], r.effects[done..]);
  }

  /** The run up to k, followed by handling an event in full. */
  lemma HandledRun(run: seq<Cluster>, acts: seq<Action>, k: nat, x: NodeId, e: Event)
    requires IsRun(run, acts) && k < |run| && Possible(run[k], x, e)
    ensures IsRun(run[..k + 1] + [Next(run[k], Handle(x, e))], acts[..k] + [Handle(x, e)])
  {
    hide Init, Next;
    var more, did := run[..k + 1] + [Next(run[k], Handle(x, e))], acts[..k] + [Handle(x, e)];
    forall i | 0 <= i < |did| ensures Enabled(more[i], did[i]) && more[i + 1] == Next(more[i], did[i]) {
      if i < k { assert Enabled(run[i], acts[i]) && run[i + 1] == Next(run[i], acts[i]); }
    }
  }

  /** The last applies of a life, those of the step a crash cuts off, leave no gap either. */
  lemma LifeIsGapless(run: seq<Cluster>, acts: seq<Action>, k: nat, x: NodeId, e: Event, done: nat)
    requires IsRun(run, acts) && k < |run| && Possible(run[k], x, e) && done <= |Step(run[k].nodes[x], e).effects|
    ensures var s := Life(run[k], x, e, done); forall i :: 0 <= i < |s| ==> s[i].index == i + 1
  {
    assert |run| == |acts| + 1;
    hide *;
    CutApplies(run[k], x, e, done);
    HandledRun(run, acts, k, x, e);
    HandleKeepsIds(run[k], x, e);
    StreamIsGapless(run[..k + 1] + [Next(run[k], Handle(x, e))], acts[..k] + [Handle(x, e)], k + 1, x);
  }

  lemma HandleKeepsIds(c: Cluster, x: NodeId, e: Event)
    requires Possible(c, x, e)
    ensures Enabled(c, Handle(x, e)) && x in Next(c, Handle(x, e)).nodes
  {
    hide RaftCore.Step, Exec;
  }

  /** And what such a life applied is a prefix of, or extends, every stream seen so far. */
  lemma LifeIsPrefix(run: seq<Cluster>, acts: seq<Action>, j: nat, k: nat, y: NodeId, x: NodeId, e: Event, done: nat)
    requires IsRun(run, acts) && j <= k < |run| && y in run[j].nodes
    requires Possible(run[k], x, e) && done <= |Step(run[k].nodes[x], e).effects|
    ensures y in run[j].streams
    ensures var s := Life(run[k], x, e, done); s <= run[j].streams[y] || run[j].streams[y] <= s
  {
    assert |run| == |acts| + 1;
    hide *;
    CutApplies(run[k], x, e, done);
    HandledRun(run, acts, k, x, e);
    HandleKeepsIds(run[k], x, e);
    StreamsArePrefixes(run[..k + 1] + [Next(run[k], Handle(x, e))], acts[..k] + [Handle(x, e)], j, k + 1, y, x);
  }

  /** Only a step past its persists has applied anything. */
  lemma AppliedMeansPersisted(c: Cluster, x: NodeId, e: Event, done: nat)
    requires Possible(c, x, e) && done <= |Step(c.nodes[x], e).effects| && Effected(c, x, e, done).applied != []
    ensures Persisted(Step(c.nodes[x], e).effects, done)
  {
    hide RaftCore.Step, Exec;
    var r := Step(c.nodes[x], e);
    var p := StepHasShape(c.nodes[x], e);
    ExecSound(c.disks[x], r.node, r.effects[..done]);
    var a := Effected(c, x, e, done).applied[0];
    assert Apply(a) in r.effects[..done];
  }

  /** Leader Completeness for everything ever applied: whatever the life that a crash ends has
      applied is in the log of every leader of a higher term than the node then had, at any moment,
      and of every later leader of that term. */
  lemma LeadersKeepLives(run: seq<Cluster>, acts: seq<Action>, j: nat, k: nat, y: NodeId, x: NodeId, e: Event, done: nat)
    requires IsRun(run, acts) && j < |acts| && k < |run| && y in run[k].nodes && run[k].nodes[y].role.Leader?
    requires j < |run| && Possible(run[j], x, e) && done <= |Step(run[j].nodes[x], e).effects|
    requires acts[j].Crash? && acts[j].id == x && acts[j].event == e && acts[j].done == done
    requires var t := Step(run[j].nodes[x], e).node.currentTerm;
      t < run[k].nodes[y].currentTerm || (t == run[k].nodes[y].currentTerm && j < k)
    ensures Life(run[j], x, e, done) <= run[k].nodes[y].log
  {
    hide *;
    PlaceInRun(run, acts, j, x, e);
    if Effected(run[j], x, e, done).applied == [] {
      StepKeepsIdentity(run[j].nodes[x], e);
      LeadersAreComplete(run, acts, j, k, x, y);
      LifeWithout(run[j], x, e, done);
    } else {
      AppliedMeansPersisted(run[j], x, e, done);
      CutCommitsAreComplete(run, acts, j, k, y);
      CutApplies(run[j], x, e, done);
      HandledStream(run, acts, j, x, e);
    }
  }

  lemma PlaceInRun(run: seq<Cluster>, acts: seq<Action>, j: nat, x: NodeId, e: Event)
    requires IsRun(run, acts) && j < |run| && Possible(run[j], x, e)
    ensures x in run[j].nodes && x in run[j].streams && run[j].nodes[x].commitIndex <= |run[j].nodes[x].log|
    ensures run[j].streams[x] == run[j].nodes[x].log[..run[j].nodes[x].commitIndex]
  {
    hide IsRun, Related;
    var b := RunRelated(run, acts, j);
    StreamAt(b, run[j], x);
  }

  lemma LifeWithout(c: Cluster, x: NodeId, e: Event, done: nat)
    requires Possible(c, x, e) && done <= |Step(c.nodes[x], e).effects| && Effected(c, x, e, done).applied == []
    ensures Life(c, x, e, done) == c.streams[x]
  {
    hide Effected;
  }

  /** What a whole step leaves in the stream is the committed prefix of the node it leaves. */
  lemma HandledStream(run: seq<Cluster>, acts: seq<Action>, k: nat, x: NodeId, e: Event)
    requires IsRun(run, acts) && k < |run| && Possible(run[k], x, e)
    ensures var n := Step(run[k].nodes[x], e).node;
      n.commitIndex <= |n.log| && Next(run[k], Handle(x, e)).streams[x] == n.log[..n.commitIndex]
  {
    hide RaftCore.Step, Exec, IsRun, Related;
    var b := RunRelated(run, acts, k);
    var d := HandleRelated(b, run[k], x, e);
    StreamAt(d, Next(run[k], Handle(x, e)), x);
  }

  /** No step of a live node lowers its commit index or touches a committed entry. */
  lemma CommittedNeverTruncated(run: seq<Cluster>, acts: seq<Action>, k: nat)
    requires IsRun(run, acts) && k < |acts| && acts[k].Handle?
    ensures var x := acts[k].id;
      var n, m := run[k].nodes[x], run[k + 1].nodes[x];
      n.commitIndex <= m.commitIndex && n.commitIndex <= |n.log| && n.commitIndex <= |m.log|
      && m.log[..n.commitIndex] == n.log[..n.commitIndex]
  {
    hide Related, History, Shape, LeadsSafe, CommittedPrefix, RaftCore.Step, Exec, Init;
    var x := acts[k].id;
    var n, m := run[k].nodes[x], run[k + 1].nodes[x];
    var b, d := TwoMoments(run, acts, k, k + 1);
    CommitAt(b, run[k], x);
    CommitAt(d, run[k + 1], x);
    StreamAt(b, run[k], x);
    StreamAt(d, run[k + 1], x);
    StepGap(n, acts[k].event);
    AppliedStays(b, d, n, m);
  }

  // ---- the commit cap ------------------------------------------------------------------------

  /** Every AppendEntries ever sent vouches for at least what it says is committed. */
  lemma CommitWithinMessage(run: seq<Cluster>, acts: seq<Action>, k: nat, p: Packet)
    requires IsRun(run, acts) && k < |run| && p in run[k].net && p.msg.AppendEntries?
    ensures p.msg.leaderCommit <= p.msg.prevLogIndex + |p.msg.entries|
  {
    hide IsRun, Related, Shape, LogsOk, LeadsSafe;
    var b := RunRelated(run, acts, k);
    PacketOk(b, run[k], p);
  }

  /** So capping at the follower's own last index, instead of at the last new
      entry as Figure 2 does, commits exactly what the message says: the cap never
      bites and everything in (prev, leader_commit] is an entry of the message. */
  lemma CommitCapIsSafe(run: seq<Cluster>, acts: seq<Action>, k: nat)
    requires IsRun(run, acts) && k < |acts| && acts[k].Handle? && acts[k].event.Receive?
    requires acts[k].event.msg.AppendEntries?
    requires var n, m := run[k].nodes[acts[k].id], acts[k].event.msg;
      n.currentTerm <= m.term && TermAt(n.log, m.prevLogIndex) == Some(m.prevLogTerm)
    ensures var x, m := acts[k].id, acts[k].event.msg;
      var n, r := run[k].nodes[x], run[k + 1].nodes[x];
      && r.commitIndex == (if m.leaderCommit > n.commitIndex then m.leaderCommit else n.commitIndex)
      && m.leaderCommit <= m.prevLogIndex + |m.entries| <= |r.log|
      && r.log[m.prevLogIndex..m.prevLogIndex + |m.entries|] == m.entries
  {
    hide Inv, NodeOk, MsgOk, EntryOk, Synced, Exec, Init;
    var x, m, from := acts[k].id, acts[k].event.msg, acts[k].event.from;
    var n := run[k].nodes[x];
    var b := RunRelated(run, acts, k);
    ReadyHere(b, run[k], x, acts[k].event);
    CommitWithinMessage(run, acts, k, Packet(from, x, m));
    AckHeld(b, n, from, m);
    AcceptCommits(n, from, m);
  }

  lemma AcceptCommits(n: Node, from: NodeId, m: Message)
    requires m.AppendEntries? && n.currentTerm <= m.term && TermAt(n.log, m.prevLogIndex) == Some(m.prevLogTerm)
    ensures var r, s := OnAppendEntries(n, from, m).node, StoreScan(StepDown(n, m.term).node, m.entries).node;
      && r.log == s.log
      && (m.leaderCommit <= |s.log| ==>
            r.commitIndex == (if m.leaderCommit > n.commitIndex then m.leaderCommit else n.commitIndex))
  {
    hide ScanEntries;
  }

  /** The cap alone would not be safe: on a message that ships less than the
      leader's suffix, this follower would commit a stale entry of its own that
      the message says nothing about. */
  lemma CapNeedsWholeSuffix()
    ensures exists n: Node, m: Message ::
      m.AppendEntries? && m.term == n.currentTerm && TermAt(n.log, m.prevLogIndex) == Some(m.prevLogTerm)
      && OnAppendEntries(n, 2, m).node.commitIndex > m.prevLogIndex + |m.entries|
  {
    var shared, stale := LogEntry(1, 1, []), LogEntry(1, 2, []);
    var n := Node(1, [2, 3], Follower, 2, None, [shared, stale], 0, 0, 0, 10, None);
    var m := AppendEntries(2, 2, 0, 0, [shared], 2);
    assert m.entries[..0] == [];
    assert ScanEntries(n.log, m.entries) == Scan(n.log, [], []);
    assert OnAppendEntries(n, 2, m).node.commitIndex == 2;
  }

  // ---- durability, over runs ----------------------------------------------------------------

  /** At every moment the disk gives back exactly the node's term, vote and log. */
  lemma RecoveryIsExact(run: seq<Cluster>, acts: seq<Action>, k: nat, x: NodeId, timeout: nat)
    requires IsRun(run, acts) && k < |run| && x in run[k].nodes
    ensures x in run[k].disks
    ensures var n, r := run[k].nodes[x], Recover(x, run[k].nodes[x].peers, timeout, run[k].disks[x]);
      r.currentTerm == n.currentTerm && r.votedFor == n.votedFor && r.log == n.log
  {
    hide IsRun, Inv, NodeOk, MsgOk, EntryOk;
    var b := RunRelated(run, acts, k);
    assert PlaceOk(b, run[k], x);
    LoadReturnsStored(run[k].disks[x].tree, run[k].nodes[x].log);
  }

  /** Persist before promise, at every reachable state, for every possible event
      and every prefix of its effects. */
  lemma PersistBeforePromise(run: seq<Cluster>, acts: seq<Action>, k: nat, x: NodeId, e: Event, done: nat, to: NodeId, m: Message)
    requires IsRun(run, acts) && k < |run| && Possible(run[k], x, e)
    requires done <= |Step(run[k].nodes[x], e).effects| && (to, m) in Effected(run[k], x, e, done).sent
    ensures Backed(Effected(run[k], x, e, done).disk, x, to, m, e)
  {
    hide IsRun, Inv, NodeOk, MsgOk, EntryOk, Synced, Exec, RaftCore.Step, Backed;
    var b := RunRelated(run, acts, k);
    ReadyHere(b, run[k], x, e);
    PromiseBacked(b, run[k].nodes[x], e, run[k].disks[x], done, to, m);
  }
}

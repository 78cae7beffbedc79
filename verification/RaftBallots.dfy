/** Raft stripped to what safety rests on. A term is a ballot: it has at most one
    owner, and the owner's log for that term only grows. A node holds a term, a
    log, at most one vote per term and, per term, how far it has acknowledged
    the owner's log. Seven small actions change this state; `Safe` is the
    invariant from which Leader Completeness and State Machine Safety follow. */
module RaftBallots {
  import opened Options
  import opened RaftTypes
  import opened RaftLogs

  datatype Ballots = Ballots(
    ids: set<NodeId>,
    term: map<NodeId, Term>,
    log: map<NodeId, Log>,
    lead: map<Term, Log>,                 // the log of the owner of each won term
    owner: map<Term, NodeId>,
    cand: map<(Term, NodeId), Log>,       // the log a candidate campaigned with
    votes: map<(NodeId, Term), NodeId>,
    acked: map<(NodeId, Term), nat>)

  // ---- vocabulary -----------------------------------------------------------

  /** The two logs hold the same first n entries. */
  ghost predicate Agree(l: Log, m: Log, n: nat) {
    n <= |l| && n <= |m| && forall k :: 0 <= k < n ==> l[k] == m[k]
  }

  function Majority(n: nat): nat { n / 2 + 1 }

  ghost predicate Acked(b: Ballots, q: NodeId, t: Term, n: nat) {
    (q, t) in b.acked && n <= b.acked[(q, t)]
  }

  /** The nodes that have acknowledged n entries of term t, or still could. */
  ghost function Holders(b: Ballots, t: Term, n: nat): set<NodeId> {
    set q | q in b.ids && q in b.term && (b.term[q] <= t || Acked(b, q, t, n))
  }

  ghost predicate Choosable(b: Ballots, t: Term, n: nat) {
    Majority(|b.ids|) <= |Holders(b, t, n)|
  }

  ghost function Ackers(b: Ballots, t: Term, n: nat): set<NodeId> {
    set q | q in b.ids && Acked(b, q, t, n)
  }

  ghost function Supporters(b: Ballots, t: Term, c: NodeId): set<NodeId> {
    set q | q in b.ids && (q, t) in b.votes && b.votes[(q, t)] == c
  }

  /** Entry n of the term-t log was created in term t itself (the Figure 8 guard). */
  ghost predicate OwnEntry(b: Ballots, t: Term, n: nat) {
    t in b.lead && 1 <= n <= |b.lead[t]| && b.lead[t][n - 1].term == t
  }

  /** A majority durably holds the first n entries of term t, the last one its own. */
  ghost predicate Committed(b: Ballots, t: Term, n: nat) {
    OwnEntry(b, t, n) && Majority(|b.ids|) <= |Ackers(b, t, n)|
  }

  /** The first k entries of l are committed by some term up to `bound`. */
  ghost predicate CommittedPrefix(b: Ballots, l: Log, k: nat, bound: Term) {
    k <= |l| &&
    (k == 0 || exists t: Term, n: nat :: Committed(b, t, n) && t <= bound && k <= n && Agree(l, b.lead[t], k))
  }

  /** The vote check of section 5.4.1: (lastTerm, lastIndex) lexicographically. */
  predicate UpToDate(lastTerm: Term, lastIndex: nat, voter: Log) {
    lastTerm > LastTerm(voter) || (lastTerm == LastTerm(voter) && lastIndex >= |voter|)
  }

  // ---- invariant ------------------------------------------------------------

  /** Entry i sits at its own index and everything up to it is what the owner of
      the entry's term had there. This one predicate carries Log Matching. */
  ghost predicate VouchedAt(lead: map<Term, Log>, l: Log, i: nat)
    requires i < |l|
  {
    l[i].index == i + 1 && l[i].term in lead && Agree(l, lead[l[i].term], i + 1)
  }

  ghost predicate Vouched(lead: map<Term, Log>, l: Log) {
    forall i :: 0 <= i < |l| ==> VouchedAt(lead, l, i)
  }

  ghost predicate TermsBelow(l: Log, t: Term) {
    forall i :: 0 <= i < |l| ==> l[i].term < t
  }

  ghost predicate Shape(b: Ballots) {
    && b.ids == b.term.Keys == b.log.Keys
    && b.owner.Keys == b.lead.Keys
    && (forall x :: x in b.votes ==> x.0 in b.ids)
    && (forall x :: x in b.acked ==> x.0 in b.ids)
    && (forall x :: x in b.cand ==> x.1 in b.ids)
  }

  ghost predicate LogsOk(b: Ballots)
    requires Shape(b)
  {
    && (forall q :: q in b.ids ==> Vouched(b.lead, b.log[q]) && TermsBelow(b.log[q], b.term[q] + 1))
    && (forall t :: t in b.lead ==> Vouched(b.lead, b.lead[t]) && TermsBelow(b.lead[t], t + 1))
    && (forall x :: x in b.cand ==> Vouched(b.lead, b.cand[x]) && TermsBelow(b.cand[x], x.0))
  }

  ghost predicate VotesOk(b: Ballots)
    requires Shape(b)
  {
    && (forall x :: x in b.votes ==> x.1 <= b.term[x.0] && (x.1, b.votes[x]) in b.cand)
    && (forall x :: x in b.cand ==> x.0 <= b.term[x.1])
    && (forall t :: t in b.lead ==> WonBy(b, t, b.owner[t]))
  }

  /** Node q won term t: it campaigned, a majority voted for it, and the term's
      log starts with the log it campaigned with. */
  ghost predicate WonBy(b: Ballots, t: Term, q: NodeId)
    requires t in b.lead
  {
    && (t, q) in b.cand && Agree(b.lead[t], b.cand[(t, q)], |b.cand[(t, q)]|)
    && Majority(|b.ids|) <= |Supporters(b, t, q)|
  }

  ghost predicate AcksOk(b: Ballots)
    requires Shape(b)
  {
    forall x :: x in b.acked ==>
      x.1 in b.lead && b.acked[x] <= |b.lead[x.1]| && x.1 <= b.term[x.0]
  }

  /** Leader Completeness, in a form every single action preserves. */
  ghost predicate LeadSafe(b: Ballots, t: Term, u: Term, n: nat) {
    t < u && u in b.lead && OwnEntry(b, t, n) && Choosable(b, t, n) ==> Agree(b.lead[u], b.lead[t], n)
  }

  ghost predicate HoldSafe(b: Ballots, q: NodeId, t: Term, n: nat) {
    (q in b.log && OwnEntry(b, t, n) && Acked(b, q, t, n) && Choosable(b, t, n)) ==>
      Agree(b.log[q], b.lead[t], n)
  }

  ghost predicate VoteSafe(b: Ballots, q: NodeId, u: Term, t: Term, n: nat) {
    ((q, u) in b.votes && (u, b.votes[(q, u)]) in b.cand && t < u && OwnEntry(b, t, n) &&
     Acked(b, q, t, n) && Choosable(b, t, n)) ==>
      Agree(b.cand[(u, b.votes[(q, u)])], b.lead[t], n)
  }

  ghost predicate LeadsSafe(b: Ballots) {
    forall t: Term, u: Term, n: nat :: LeadSafe(b, t, u, n)
  }

  ghost predicate HoldsSafe(b: Ballots) {
    forall q: NodeId, t: Term, n: nat :: HoldSafe(b, q, t, n)
  }

  ghost predicate BallotsSafe(b: Ballots) {
    forall q: NodeId, u: Term, t: Term, n: nat :: VoteSafe(b, q, u, t, n)
  }

  ghost predicate Safe(b: Ballots) {
    LeadsSafe(b) && HoldsSafe(b) && BallotsSafe(b)
  }

  ghost predicate Basic(b: Ballots) {
    Shape(b) && LogsOk(b) && VotesOk(b) && AcksOk(b)
  }

  ghost predicate Inv(b: Ballots) {
    Basic(b) && Safe(b)
  }

  // ---- history only grows ---------------------------------------------------

  /** What any run of actions by node id leaves true of an earlier state. */
  ghost predicate Evolves(b: Ballots, c: Ballots, id: NodeId) {
    && b.ids == c.ids
    && b.term.Keys == c.term.Keys && b.log.Keys == c.log.Keys
    && (forall q :: q in b.term ==> b.term[q] <= c.term[q])
    && (forall q :: q in b.term && q != id ==> b.term[q] == c.term[q])
    && (forall q :: q in b.log && q != id ==> b.log[q] == c.log[q])
    && History(b, c)
    && (forall t :: t in b.lead && t in b.owner && b.owner[t] != id ==> c.lead[t] == b.lead[t])
    && (forall t :: t in c.owner && t !in b.owner ==> c.owner[t] == id)
    && (forall x :: x in c.votes && x !in b.votes ==> x.0 == id)
  }

  /** Owners, owners' logs, votes, campaigns and acknowledgements are never revised. */
  ghost predicate History(b: Ballots, c: Ballots) {
    && b.ids == c.ids
    && (forall t :: t in b.lead ==> t in c.lead && Agree(c.lead[t], b.lead[t], |b.lead[t]|))
    && (forall t :: t in b.owner ==> t in c.owner && c.owner[t] == b.owner[t])
    && (forall x :: x in b.cand ==> x in c.cand && c.cand[x] == b.cand[x])
    && (forall x :: x in b.votes ==> x in c.votes && c.votes[x] == b.votes[x])
    && (forall x :: x in b.acked ==> x in c.acked && b.acked[x] <= c.acked[x])
  }

  lemma EvolvesTrans(b: Ballots, c: Ballots, d: Ballots, id: NodeId)
    requires Shape(b) && Shape(c) && Evolves(b, c, id) && Evolves(c, d, id)
    ensures Evolves(b, d, id)
  {
    HistoryTrans(b, c, d);
  }

  lemma HistoryTrans(b: Ballots, c: Ballots, d: Ballots)
    requires History(b, c) && History(c, d)
    ensures History(b, d)
  {}

  // ---- set arithmetic -------------------------------------------------------

  lemma SubsetCard<T>(a: set<T>, b: set<T>)
    requires a <= b
    ensures |a| <= |b|
  {
    assert b == a + (b - a);
  }

  lemma QuorumsMeet(all: set<NodeId>, a: set<NodeId>, b: set<NodeId>) returns (q: NodeId)
    requires a <= all && b <= all
    requires Majority(|all|) <= |a| && Majority(|all|) <= |b|
    ensures q in a && q in b
  {
    if a * b == {} {
      assert |a + b| == |a| + |b|;
      SubsetCard(a + b, all);
      assert false;
    }
    q :| q in a * b;
  }

  // ---- actions --------------------------------------------------------------

  /** Node q learns of a higher term. */
  function Bump(b: Ballots, q: NodeId, t: Term): Ballots {
    b.(term := b.term[q := t])
  }

  /** Node q starts an election in term t: votes for itself with its current log. */
  function Campaign(b: Ballots, q: NodeId, t: Term): Ballots
    requires q in b.log
  {
    b.(term := b.term[q := t], votes := b.votes[(q, t) := q], cand := b.cand[(t, q) := b.log[q]])
  }

  /** Node q grants c its vote in its current term. */
  function Vote(b: Ballots, q: NodeId, c: NodeId): Ballots
    requires q in b.term
  {
    b.(votes := b.votes[(q, b.term[q]) := c])
  }

  /** Candidate q becomes owner of term t, with the log it campaigned with. */
  function Win(b: Ballots, q: NodeId, t: Term): Ballots
    requires (t, q) in b.cand
  {
    b.(lead := b.lead[t := b.cand[(t, q)]], owner := b.owner[t := q])
  }

  /** Owner q appends one entry of its own term and acknowledges it. */
  function Extend(b: Ballots, q: NodeId, e: LogEntry): Ballots
    requires q in b.log && e.term in b.lead
  {
    b.(log := b.log[q := b.log[q] + [e]],
       lead := b.lead[e.term := b.lead[e.term] + [e]],
       acked := b.acked[(q, e.term) := |b.log[q]| + 1])
  }

  /** Node q replaces its log by the first k entries of term t. */
  function Adopt(b: Ballots, q: NodeId, t: Term, k: nat): Ballots
    requires t in b.lead && k <= |b.lead[t]|
  {
    b.(log := b.log[q := b.lead[t][..k]])
  }

  /** Node q acknowledges holding the first m entries of term t. */
  function Acknowledge(b: Ballots, q: NodeId, t: Term, m: nat): Ballots {
    b.(acked := b.acked[(q, t) := if (q, t) in b.acked && b.acked[(q, t)] > m then b.acked[(q, t)] else m])
  }

  // ---- every action keeps the invariant ---------------------------------------

  lemma HoldersShrink(b: Ballots, c: Ballots, t: Term, n: nat)
    requires b.ids == c.ids && Choosable(c, t, n)
    requires forall q :: q in Holders(c, t, n) ==> q in Holders(b, t, n)
    ensures Choosable(b, t, n)
  {
    SubsetCard(Holders(c, t, n), Holders(b, t, n));
  }

  /** Safety carries over when no log, owner, vote or acknowledgement changed
      except that some choices became impossible. */
  lemma SafeFrame(b: Ballots, c: Ballots)
    requires Safe(b) && b.ids == c.ids && b.lead == c.lead && b.log == c.log
    requires b.cand == c.cand && b.votes == c.votes && b.acked == c.acked
    requires forall q :: q in c.term ==> q in b.term && b.term[q] <= c.term[q]
    ensures Safe(c)
  {
    forall t: Term, n: nat | Choosable(c, t, n) ensures Choosable(b, t, n) { HoldersShrink(b, c, t, n); }
    forall t: Term, u: Term, n: nat ensures LeadSafe(c, t, u, n) { assert LeadSafe(b, t, u, n); }
    forall q: NodeId, t: Term, n: nat ensures HoldSafe(c, q, t, n) { assert HoldSafe(b, q, t, n); }
    forall q: NodeId, u: Term, t: Term, n: nat ensures VoteSafe(c, q, u, t, n) { assert VoteSafe(b, q, u, t, n); }
  }

  /** A term once won stays won by the same node while its log and the votes only grow. */
  lemma WonStays(b: Ballots, c: Ballots, t: Term, q: NodeId)
    requires t in b.lead && t in c.lead && WonBy(b, t, q) && b.ids == c.ids
    requires Agree(c.lead[t], b.lead[t], |b.lead[t]|) && (t, q) in c.cand && c.cand[(t, q)] == b.cand[(t, q)]
    requires forall x :: x in b.votes ==> x in c.votes && c.votes[x] == b.votes[x]
    ensures WonBy(c, t, q)
  {
    SubsetCard(Supporters(b, t, q), Supporters(c, t, q));
  }

  lemma AllWonStay(b: Ballots, c: Ballots)
    requires Shape(b) && VotesOk(b) && b.ids == c.ids && b.lead.Keys == c.lead.Keys && b.owner == c.owner
    requires forall t :: t in b.lead ==> Agree(c.lead[t], b.lead[t], |b.lead[t]|)
    requires forall t :: t in b.lead ==>
      (t, b.owner[t]) in b.cand && (t, b.owner[t]) in c.cand && c.cand[(t, b.owner[t])] == b.cand[(t, b.owner[t])]
    requires forall x :: x in b.votes ==> x in c.votes && c.votes[x] == b.votes[x]
    ensures forall t :: t in c.lead ==> WonBy(c, t, c.owner[t])
  {
    hide WonBy;
    forall t | t in c.lead ensures WonBy(c, t, c.owner[t]) { WonStays(b, c, t, b.owner[t]); }
  }

  lemma WinnersCampaigned(b: Ballots)
    requires Shape(b) && VotesOk(b)
    ensures forall t :: t in b.lead ==> (t, b.owner[t]) in b.cand
  {
    forall t | t in b.lead ensures (t, b.owner[t]) in b.cand { assert WonBy(b, t, b.owner[t]); }
  }

  lemma VouchedMono(lead: map<Term, Log>, wider: map<Term, Log>, l: Log)
    requires Vouched(lead, l)
    requires forall t :: t in lead ==> t in wider && Agree(wider[t], lead[t], |lead[t]|)
    ensures Vouched(wider, l)
  {
    forall i | 0 <= i < |l| ensures VouchedAt(wider, l, i) {
      assert VouchedAt(lead, l, i);
    }
  }

  lemma AllVouchedMono(b: Ballots, wider: map<Term, Log>)
    requires Shape(b) && LogsOk(b)
    requires forall t :: t in b.lead ==> t in wider && Agree(wider[t], b.lead[t], |b.lead[t]|)
    ensures forall q :: q in b.ids ==> Vouched(wider, b.log[q])
    ensures forall t :: t in b.lead ==> Vouched(wider, b.lead[t])
    ensures forall x :: x in b.cand ==> Vouched(wider, b.cand[x])
  {
    forall q | q in b.ids ensures Vouched(wider, b.log[q]) { VouchedMono(b.lead, wider, b.log[q]); }
    forall t | t in b.lead ensures Vouched(wider, b.lead[t]) { VouchedMono(b.lead, wider, b.lead[t]); }
    forall x | x in b.cand ensures Vouched(wider, b.cand[x]) { VouchedMono(b.lead, wider, b.cand[x]); }
  }

  // ---- Bump

  lemma BumpBasic(b: Ballots, q: NodeId, t: Term)
    requires Shape(b) && q in b.ids && b.term[q] < t
    ensures var c := Bump(b, q, t); Shape(c) && (LogsOk(b) ==> LogsOk(c)) && (AcksOk(b) ==> AcksOk(c))
  {}

  lemma BumpVotes(b: Ballots, q: NodeId, t: Term)
    requires Shape(b) && VotesOk(b) && q in b.ids && b.term[q] < t
    ensures VotesOk(Bump(b, q, t))
  {
    hide WonBy;
    WinnersCampaigned(b);
    AllWonStay(b, Bump(b, q, t));
  }

  lemma BumpKeepsInv(b: Ballots, q: NodeId, t: Term)
    requires Inv(b) && q in b.ids && b.term[q] < t
    ensures Inv(Bump(b, q, t)) && Evolves(b, Bump(b, q, t), q)
  {
    BumpBasic(b, q, t);
    BumpVotes(b, q, t);
    SafeFrame(b, Bump(b, q, t));
  }

  // ---- Campaign

  lemma CampaignBasic(b: Ballots, q: NodeId, t: Term)
    requires Shape(b) && q in b.ids && b.term[q] < t
    ensures var c := Campaign(b, q, t); Shape(c) && (AcksOk(b) ==> AcksOk(c))
  {}

  lemma CampaignLogs(b: Ballots, q: NodeId, t: Term)
    requires Shape(b) && LogsOk(b) && q in b.ids && b.term[q] < t
    ensures Shape(Campaign(b, q, t)) && LogsOk(Campaign(b, q, t))
  {}

  lemma CampaignVotes(b: Ballots, q: NodeId, t: Term)
    requires Shape(b) && VotesOk(b) && q in b.ids && b.term[q] < t
    ensures VotesOk(Campaign(b, q, t))
  {
    hide WonBy;
    WinnersCampaigned(b);
    AllWonStay(b, Campaign(b, q, t));
  }

  lemma CampaignEvolves(b: Ballots, q: NodeId, t: Term)
    requires Shape(b) && VotesOk(b) && q in b.ids && b.term[q] < t
    ensures Evolves(b, Campaign(b, q, t), q)
  {}

  lemma CampaignSafe(b: Ballots, q: NodeId, t: Term)
    requires Shape(b) && VotesOk(b) && Safe(b) && q in b.ids && b.term[q] < t
    ensures Safe(Campaign(b, q, t))
  {
    var c := Campaign(b, q, t);
    forall s: Term, n: nat | Choosable(c, s, n) ensures Choosable(b, s, n) { HoldersShrink(b, c, s, n); }
    forall s: Term, u: Term, n: nat ensures LeadSafe(c, s, u, n) { assert LeadSafe(b, s, u, n); }
    forall r: NodeId, s: Term, n: nat ensures HoldSafe(c, r, s, n) { assert HoldSafe(b, r, s, n); }
    forall r: NodeId, u: Term, s: Term, n: nat ensures VoteSafe(c, r, u, s, n) {
      assert VoteSafe(b, r, u, s, n) && HoldSafe(b, r, s, n);
    }
  }

  lemma CampaignKeepsInv(b: Ballots, q: NodeId, t: Term)
    requires Inv(b) && q in b.ids && b.term[q] < t
    ensures Inv(Campaign(b, q, t)) && Evolves(b, Campaign(b, q, t), q)
  {
    CampaignBasic(b, q, t);
    CampaignLogs(b, q, t);
    CampaignVotes(b, q, t);
    CampaignEvolves(b, q, t);
    CampaignSafe(b, q, t);
  }

  // ---- Vote

  ghost predicate CanVote(b: Ballots, q: NodeId, c: NodeId) {
    && q in b.ids && q in b.term && q in b.log
    && (b.term[q], c) in b.cand
    && UpToDate(LastTerm(b.cand[(b.term[q], c)]), |b.cand[(b.term[q], c)]|, b.log[q])
    && ((q, b.term[q]) in b.votes ==> b.votes[(q, b.term[q])] == c)
  }

  lemma VoteBasic(b: Ballots, q: NodeId, c: NodeId)
    requires Shape(b) && CanVote(b, q, c)
    ensures var d := Vote(b, q, c); Shape(d) && (LogsOk(b) ==> LogsOk(d)) && (AcksOk(b) ==> AcksOk(d))
  {}

  lemma VoteVotes(b: Ballots, q: NodeId, c: NodeId)
    requires Shape(b) && VotesOk(b) && CanVote(b, q, c)
    ensures VotesOk(Vote(b, q, c))
  {
    hide WonBy;
    WinnersCampaigned(b);
    AllWonStay(b, Vote(b, q, c));
  }

  lemma VoteEvolves(b: Ballots, q: NodeId, c: NodeId)
    requires Shape(b) && CanVote(b, q, c)
    ensures Evolves(b, Vote(b, q, c), q)
  {}

  /** Why the section 5.4.1 check works: a log at least as up to date as one that
      holds a choosable prefix of term t holds that prefix too. */
  lemma UpToDateCarries(b: Ballots, l: Log, v: Log, t: Term, n: nat)
    requires Shape(b) && LogsOk(b) && Vouched(b.lead, l) && Vouched(b.lead, v)
    requires OwnEntry(b, t, n) && Agree(v, b.lead[t], n)
    requires UpToDate(LastTerm(l), |l|, v)
    requires Choosable(b, t, n) && LeadSafe(b, t, LastTerm(l), n)
    ensures Agree(l, b.lead[t], n)
  {
    assert VouchedAt(b.lead, v, |v| - 1);
    assert v[n - 1].term == t <= LastTerm(v);
    assert VouchedAt(b.lead, l, |l| - 1);
    var u := LastTerm(l);
    if u > LastTerm(v) {
      var i := if |l| < n then |l| - 1 else 0;
      assert b.lead[t][i].term <= t;
    }
  }

  lemma VoteSafeKept(b: Ballots, q: NodeId, c: NodeId)
    requires Inv(b) && CanVote(b, q, c)
    ensures Safe(Vote(b, q, c))
  {
    var d := Vote(b, q, c);
    forall s: Term, n: nat ensures Choosable(d, s, n) == Choosable(b, s, n) { assert Holders(d, s, n) == Holders(b, s, n); }
    forall s: Term, u: Term, n: nat ensures LeadSafe(d, s, u, n) { assert LeadSafe(b, s, u, n); }
    forall r: NodeId, s: Term, n: nat ensures HoldSafe(d, r, s, n) { assert HoldSafe(b, r, s, n); }
    forall r: NodeId, u: Term, s: Term, n: nat ensures VoteSafe(d, r, u, s, n) {
      assert VoteSafe(b, r, u, s, n);
      if r == q && u == b.term[q] && s < u && OwnEntry(b, s, n) && Acked(b, q, s, n) && Choosable(b, s, n) {
        assert HoldSafe(b, q, s, n);
        var l := b.cand[(u, c)];
        assert LeadSafe(b, s, LastTerm(l), n);
        UpToDateCarries(b, l, b.log[q], s, n);
      }
    }
  }

  lemma VoteKeepsInv(b: Ballots, q: NodeId, c: NodeId)
    requires Inv(b) && CanVote(b, q, c)
    ensures Inv(Vote(b, q, c)) && Evolves(b, Vote(b, q, c), q)
  {
    VoteBasic(b, q, c);
    VoteVotes(b, q, c);
    VoteEvolves(b, q, c);
    VoteSafeKept(b, q, c);
  }

  // ---- Win

  ghost predicate CanWin(b: Ballots, q: NodeId, t: Term) {
    (t, q) in b.cand && t !in b.lead && Majority(|b.ids|) <= |Supporters(b, t, q)|
  }

  lemma WinLogs(b: Ballots, q: NodeId, t: Term)
    requires Shape(b) && LogsOk(b) && CanWin(b, q, t)
    ensures var c := Win(b, q, t); Shape(c) && LogsOk(c)
  {
    var c := Win(b, q, t);
    AllVouchedMono(b, c.lead);
  }

  lemma WinVotes(b: Ballots, q: NodeId, t: Term)
    requires Shape(b) && VotesOk(b) && AcksOk(b) && CanWin(b, q, t)
    ensures var c := Win(b, q, t); Shape(c) && VotesOk(c) && AcksOk(c)
  {
    var c := Win(b, q, t);
    forall u | u in c.lead ensures WonBy(c, u, c.owner[u]) {
      assert Supporters(c, u, c.owner[u]) == Supporters(b, u, c.owner[u]);
      if u != t { assert WonBy(b, u, b.owner[u]); }
    }
  }

  lemma WinEvolves(b: Ballots, q: NodeId, t: Term)
    requires Shape(b) && CanWin(b, q, t)
    ensures Evolves(b, Win(b, q, t), q)
  {}

  /** The heart of Leader Completeness: a majority voted for the winner, a
      majority may still hold (s, n), and a node in both carried it over. */
  lemma WinnerHolds(b: Ballots, q: NodeId, t: Term, s: Term, n: nat)
    requires Inv(b) && CanWin(b, q, t) && s < t && OwnEntry(b, s, n) && Choosable(b, s, n)
    ensures Agree(b.cand[(t, q)], b.lead[s], n)
  {
    var r := QuorumsMeet(b.ids, Supporters(b, t, q), Holders(b, s, n));
    assert b.votes[(r, t)] == q && b.term[r] >= t;
    assert VoteSafe(b, r, t, s, n);
  }

  lemma WinChoosable(b: Ballots, q: NodeId, t: Term)
    requires Basic(b) && CanWin(b, q, t)
    ensures forall s: Term, n: nat :: Choosable(Win(b, q, t), s, n) == Choosable(b, s, n)
    ensures forall s: Term, n: nat :: OwnEntry(Win(b, q, t), s, n) ==> s != t && OwnEntry(b, s, n)
  {
    var c := Win(b, q, t);
    forall s: Term, n: nat ensures Choosable(c, s, n) == Choosable(b, s, n) {
      assert Holders(c, s, n) == Holders(b, s, n);
    }
    assert TermsBelow(b.cand[(t, q)], t);
  }

  lemma WinLeadsSafe(b: Ballots, q: NodeId, t: Term)
    requires Inv(b) && CanWin(b, q, t)
    ensures LeadsSafe(Win(b, q, t))
  {
    var c := Win(b, q, t);
    WinChoosable(b, q, t);
    forall s: Term, u: Term, n: nat ensures LeadSafe(c, s, u, n) {
      assert LeadSafe(b, s, u, n);
      if u == t && s < t && OwnEntry(c, s, n) && Choosable(c, s, n) { WinnerHolds(b, q, t, s, n); }
    }
  }

  lemma WinSafe(b: Ballots, q: NodeId, t: Term)
    requires Basic(b) && HoldsSafe(b) && BallotsSafe(b) && CanWin(b, q, t)
    ensures HoldsSafe(Win(b, q, t)) && BallotsSafe(Win(b, q, t))
  {
    var c := Win(b, q, t);
    WinChoosable(b, q, t);
    forall r: NodeId, s: Term, n: nat ensures HoldSafe(c, r, s, n) { assert HoldSafe(b, r, s, n); }
    forall r: NodeId, u: Term, s: Term, n: nat ensures VoteSafe(c, r, u, s, n) { assert VoteSafe(b, r, u, s, n); }
  }

  lemma WinKeepsInv(b: Ballots, q: NodeId, t: Term)
    requires Inv(b) && CanWin(b, q, t)
    ensures Inv(Win(b, q, t)) && Evolves(b, Win(b, q, t), q)
  {
    WinLogs(b, q, t);
    WinVotes(b, q, t);
    WinEvolves(b, q, t);
    WinLeadsSafe(b, q, t);
    WinSafe(b, q, t);
  }

  // ---- Extend

  ghost predicate CanExtend(b: Ballots, q: NodeId, e: LogEntry) {
    && q in b.ids && q in b.term && q in b.log
    && e.term in b.lead && e.term in b.owner && b.owner[e.term] == q && b.term[q] == e.term
    && b.log[q] == b.lead[e.term] && e.index == |b.log[q]| + 1
  }

  lemma ExtendVouched(lead: map<Term, Log>, l: Log, e: LogEntry)
    requires Vouched(lead, l) && e.term in lead && lead[e.term] == l && e.index == |l| + 1
    ensures Vouched(lead[e.term := l + [e]], l + [e])
  {
    var wider := lead[e.term := l + [e]];
    VouchedMono(lead, wider, l);
    forall i | 0 <= i <= |l| ensures VouchedAt(wider, l + [e], i) {
      if i < |l| { assert VouchedAt(wider, l, i); }
    }
  }

  lemma ExtendLogs(b: Ballots, q: NodeId, e: LogEntry)
    requires Shape(b) && LogsOk(b) && CanExtend(b, q, e)
    ensures var c := Extend(b, q, e); Shape(c) && LogsOk(c)
  {
    var c := Extend(b, q, e);
    ExtendVouched(b.lead, b.log[q], e);
    AllVouchedMono(b, c.lead);
  }

  lemma ExtendVotes(b: Ballots, q: NodeId, e: LogEntry)
    requires Shape(b) && VotesOk(b) && CanExtend(b, q, e)
    ensures var c := Extend(b, q, e); Shape(c) && VotesOk(c)
  {
    hide WonBy;
    WinnersCampaigned(b);
    AllWonStay(b, Extend(b, q, e));
  }

  lemma ExtendAcks(b: Ballots, q: NodeId, e: LogEntry)
    requires Shape(b) && AcksOk(b) && CanExtend(b, q, e)
    ensures var c := Extend(b, q, e); Shape(c) && AcksOk(c)
  {}

  lemma ExtendEvolves(b: Ballots, q: NodeId, e: LogEntry)
    requires Shape(b) && AcksOk(b) && CanExtend(b, q, e)
    ensures Evolves(b, Extend(b, q, e), q)
  {}

  /** A new own-term entry cannot be choosable once a later term has been won:
      the later term's voters can no longer acknowledge it. */
  lemma FreshNotChoosable(b: Ballots, t: Term, u: Term, n: nat)
    requires Shape(b) && VotesOk(b) && u in b.lead && t < u
    requires forall r :: r in b.ids && t < b.term[r] ==> !Acked(b, r, t, n)
    ensures !Choosable(b, t, n)
  {
    if Choosable(b, t, n) {
      assert WonBy(b, u, b.owner[u]);
      var r := QuorumsMeet(b.ids, Supporters(b, u, b.owner[u]), Holders(b, t, n));
      assert false;
    }
  }

  lemma ExtendChoosable(b: Ballots, q: NodeId, e: LogEntry)
    requires Shape(b) && CanExtend(b, q, e)
    ensures forall s: Term, n: nat :: Choosable(Extend(b, q, e), s, n) == Choosable(b, s, n)
  {
    var c := Extend(b, q, e);
    forall s: Term, n: nat ensures Choosable(c, s, n) == Choosable(b, s, n) {
      assert Holders(c, s, n) == Holders(b, s, n);
    }
  }

  lemma ExtendOwnEntry(b: Ballots, q: NodeId, e: LogEntry)
    requires CanExtend(b, q, e)
    ensures forall s: Term, n: nat :: OwnEntry(Extend(b, q, e), s, n) ==>
              OwnEntry(b, s, n) || (s == e.term && n == |b.lead[s]| + 1)
  {}

  lemma ExtendLeadsSafe(b: Ballots, q: NodeId, e: LogEntry)
    requires Basic(b) && LeadsSafe(b) && CanExtend(b, q, e)
    ensures LeadsSafe(Extend(b, q, e))
  {
    var c := Extend(b, q, e);
    ExtendChoosable(b, q, e);
    ExtendOwnEntry(b, q, e);
    forall s: Term, u: Term, n: nat ensures LeadSafe(c, s, u, n) {
      assert LeadSafe(b, s, u, n);
      if s == e.term && n == |b.lead[s]| + 1 && s < u && u in b.lead { FreshNotChoosable(b, s, u, n); }
    }
  }

  lemma ExtendHoldsSafe(b: Ballots, q: NodeId, e: LogEntry)
    requires Basic(b) && HoldsSafe(b) && CanExtend(b, q, e)
    ensures HoldsSafe(Extend(b, q, e))
  {
    var c := Extend(b, q, e);
    ExtendChoosable(b, q, e);
    ExtendOwnEntry(b, q, e);
    forall r: NodeId, s: Term, n: nat ensures HoldSafe(c, r, s, n) { assert HoldSafe(b, r, s, n); }
  }

  lemma ExtendBallotsSafe(b: Ballots, q: NodeId, e: LogEntry)
    requires Basic(b) && BallotsSafe(b) && CanExtend(b, q, e)
    ensures BallotsSafe(Extend(b, q, e))
  {
    var c := Extend(b, q, e);
    ExtendChoosable(b, q, e);
    ExtendOwnEntry(b, q, e);
    forall r: NodeId, u: Term, s: Term, n: nat ensures VoteSafe(c, r, u, s, n) { assert VoteSafe(b, r, u, s, n); }
  }

  lemma ExtendKeepsInv(b: Ballots, q: NodeId, e: LogEntry)
    requires Inv(b) && CanExtend(b, q, e)
    ensures Inv(Extend(b, q, e)) && Evolves(b, Extend(b, q, e), q)
  {
    ExtendLogs(b, q, e);
    ExtendVotes(b, q, e);
    ExtendAcks(b, q, e);
    ExtendEvolves(b, q, e);
    ExtendLeadsSafe(b, q, e);
    ExtendHoldsSafe(b, q, e);
    ExtendBallotsSafe(b, q, e);
  }

  // ---- Adopt

  /** j is where q's log first departs from the term-t log, or q's whole length. */
  ghost predicate CanAdopt(b: Ballots, q: NodeId, t: Term, j: nat, k: nat) {
    && q in b.ids && q in b.term && q in b.log && b.term[q] == t && t in b.lead
    && j <= k <= |b.lead[t]| && Agree(b.log[q], b.lead[t], j)
    && (j == |b.log[q]| || (j < |b.lead[t]| && b.log[q][j].term != b.lead[t][j].term))
  }

  lemma AdoptBasic(b: Ballots, q: NodeId, t: Term, j: nat, k: nat)
    requires Shape(b) && LogsOk(b) && CanAdopt(b, q, t, j, k)
    ensures var c := Adopt(b, q, t, k); Shape(c) && LogsOk(c) && Evolves(b, c, q)
  {
    var l := b.lead[t][..k];
    forall i | 0 <= i < |l| ensures VouchedAt(b.lead, l, i) { assert VouchedAt(b.lead, b.lead[t], i); }
  }

  lemma AdoptVotes(b: Ballots, q: NodeId, t: Term, k: nat)
    requires Shape(b) && VotesOk(b) && AcksOk(b) && q in b.ids && t in b.lead && k <= |b.lead[t]|
    ensures var c := Adopt(b, q, t, k); Shape(c) && VotesOk(c) && AcksOk(c)
  {
    hide WonBy;
    WinnersCampaigned(b);
    AllWonStay(b, Adopt(b, q, t, k));
  }

  /** Whatever q shares with the term-t log survives adopting it. */
  lemma AdoptKeepsShared(b: Ballots, q: NodeId, t: Term, j: nat, k: nat, n: nat)
    requires CanAdopt(b, q, t, j, k) && Agree(b.log[q], b.lead[t], n)
    ensures n <= k && Agree(b.lead[t][..k], b.lead[t], n)
  {}

  lemma AdoptSafe(b: Ballots, q: NodeId, t: Term, j: nat, k: nat)
    requires Shape(b) && AcksOk(b) && Safe(b) && CanAdopt(b, q, t, j, k)
    ensures Safe(Adopt(b, q, t, k))
  {
    var c := Adopt(b, q, t, k);
    forall s: Term, n: nat ensures Choosable(c, s, n) == Choosable(b, s, n) { assert Holders(c, s, n) == Holders(b, s, n); }
    forall s: Term, u: Term, n: nat ensures LeadSafe(c, s, u, n) { assert LeadSafe(b, s, u, n); }
    forall r: NodeId, s: Term, n: nat ensures HoldSafe(c, r, s, n) {
      assert HoldSafe(b, r, s, n) && LeadSafe(b, s, t, n);
      if r == q && OwnEntry(b, s, n) && Acked(b, q, s, n) && Choosable(b, s, n) {
        assert Agree(b.log[q], b.lead[t], n);
        AdoptKeepsShared(b, q, t, j, k, n);
      }
    }
    forall r: NodeId, u: Term, s: Term, n: nat ensures VoteSafe(c, r, u, s, n) { assert VoteSafe(b, r, u, s, n); }
  }

  lemma AdoptKeepsInv(b: Ballots, q: NodeId, t: Term, j: nat, k: nat)
    requires Inv(b) && CanAdopt(b, q, t, j, k)
    ensures Inv(Adopt(b, q, t, k)) && Evolves(b, Adopt(b, q, t, k), q)
  {
    AdoptBasic(b, q, t, j, k);
    AdoptVotes(b, q, t, k);
    AdoptSafe(b, q, t, j, k);
  }

  // ---- Acknowledge

  ghost predicate CanAck(b: Ballots, q: NodeId, t: Term, m: nat) {
    q in b.ids && q in b.term && q in b.log && b.term[q] == t && t in b.lead && Agree(b.log[q], b.lead[t], m)
  }

  lemma AckBasic(b: Ballots, q: NodeId, t: Term, m: nat)
    requires Shape(b) && CanAck(b, q, t, m)
    ensures var c := Acknowledge(b, q, t, m); Shape(c) && (LogsOk(b) ==> LogsOk(c)) && (AcksOk(b) ==> AcksOk(c))
  {}

  lemma AckVotes(b: Ballots, q: NodeId, t: Term, m: nat)
    requires Shape(b) && VotesOk(b) && CanAck(b, q, t, m)
    ensures VotesOk(Acknowledge(b, q, t, m))
  {
    hide WonBy;
    WinnersCampaigned(b);
    AllWonStay(b, Acknowledge(b, q, t, m));
  }

  lemma AckEvolves(b: Ballots, q: NodeId, t: Term, m: nat)
    requires Shape(b) && CanAck(b, q, t, m)
    ensures Evolves(b, Acknowledge(b, q, t, m), q)
  {}

  lemma AckSafe(b: Ballots, q: NodeId, t: Term, m: nat)
    requires Shape(b) && VotesOk(b) && Safe(b) && CanAck(b, q, t, m)
    ensures Safe(Acknowledge(b, q, t, m))
  {
    hide LeadsSafe, HoldsSafe, BallotsSafe, VotesOk, Shape, CanAck;
    AckChoosable(b, q, t, m);
    AckLeads(b, q, t, m);
    AckHolds(b, q, t, m);
    AckBallots(b, q, t, m);
  }

  lemma AckChoosable(b: Ballots, q: NodeId, t: Term, m: nat)
    requires CanAck(b, q, t, m)
    ensures forall s: Term, n: nat :: Choosable(Acknowledge(b, q, t, m), s, n) == Choosable(b, s, n)
  {
    var c := Acknowledge(b, q, t, m);
    forall s: Term, n: nat ensures Choosable(c, s, n) == Choosable(b, s, n) { assert Holders(c, s, n) == Holders(b, s, n); }
  }

  lemma AckLeads(b: Ballots, q: NodeId, t: Term, m: nat)
    requires LeadsSafe(b) && CanAck(b, q, t, m)
    requires forall s: Term, n: nat :: Choosable(Acknowledge(b, q, t, m), s, n) == Choosable(b, s, n)
    ensures LeadsSafe(Acknowledge(b, q, t, m))
  {
    hide Choosable;
    var c := Acknowledge(b, q, t, m);
    forall s: Term, u: Term, n: nat ensures LeadSafe(c, s, u, n) { assert LeadSafe(b, s, u, n); }
  }

  lemma AckHolds(b: Ballots, q: NodeId, t: Term, m: nat)
    requires HoldsSafe(b) && CanAck(b, q, t, m)
    requires forall s: Term, n: nat :: Choosable(Acknowledge(b, q, t, m), s, n) == Choosable(b, s, n)
    ensures HoldsSafe(Acknowledge(b, q, t, m))
  {
    hide Choosable;
    var c := Acknowledge(b, q, t, m);
    forall r: NodeId, s: Term, n: nat ensures HoldSafe(c, r, s, n) { assert HoldSafe(b, r, s, n); }
  }

  lemma AckBallots(b: Ballots, q: NodeId, t: Term, m: nat)
    requires Shape(b) && VotesOk(b) && BallotsSafe(b) && CanAck(b, q, t, m)
    requires forall s: Term, n: nat :: Choosable(Acknowledge(b, q, t, m), s, n) == Choosable(b, s, n)
    ensures BallotsSafe(Acknowledge(b, q, t, m))
  {
    hide Choosable, WonBy;
    var c := Acknowledge(b, q, t, m);
    forall r: NodeId, u: Term, s: Term, n: nat ensures VoteSafe(c, r, u, s, n) { assert VoteSafe(b, r, u, s, n); }
  }

  lemma AckKeepsInv(b: Ballots, q: NodeId, t: Term, m: nat)
    requires Inv(b) && CanAck(b, q, t, m)
    ensures Inv(Acknowledge(b, q, t, m)) && Evolves(b, Acknowledge(b, q, t, m), q)
  {
    AckBasic(b, q, t, m);
    AckVotes(b, q, t, m);
    AckEvolves(b, q, t, m);
    AckSafe(b, q, t, m);
  }

  // ---- what the invariant means ---------------------------------------------------

  /** Log Matching: equal terms at a position mean equal logs through it. */
  lemma LogMatching(lead: map<Term, Log>, l: Log, m: Log, i: nat)
    requires Vouched(lead, l) && Vouched(lead, m) && i < |l| && i < |m| && l[i].term == m[i].term
    ensures l[..i + 1] == m[..i + 1]
  {
    assert VouchedAt(lead, l, i) && VouchedAt(lead, m, i);
  }

  lemma CommittedIsChoosable(b: Ballots, t: Term, n: nat)
    requires Shape(b) && Committed(b, t, n)
    ensures Choosable(b, t, n)
  {
    SubsetCard(Ackers(b, t, n), Holders(b, t, n));
  }

  /** Leader Completeness (section 5.4.3). */
  lemma LeaderCompleteness(b: Ballots, t: Term, n: nat, u: Term)
    requires Shape(b) && LeadsSafe(b) && Committed(b, t, n) && t < u && u in b.lead
    ensures Agree(b.lead[u], b.lead[t], n)
  {
    CommittedIsChoosable(b, t, n);
    assert LeadSafe(b, t, u, n);
  }

  /** The same for a leader that won before the commit happened: what is committed
      in term t was in the log a later term was won with. */
  lemma WonWithCommitted(b: Ballots, t: Term, n: nat, u: Term)
    requires Shape(b) && VotesOk(b) && BallotsSafe(b) && Committed(b, t, n) && t < u && u in b.lead
    ensures (u, b.owner[u]) in b.cand && Agree(b.cand[(u, b.owner[u])], b.lead[t], n)
  {
    CommittedIsChoosable(b, t, n);
    assert WonBy(b, u, b.owner[u]);
    var r := QuorumsMeet(b.ids, Supporters(b, u, b.owner[u]), Ackers(b, t, n));
    assert VoteSafe(b, r, u, t, n);
  }

  /** A prefix committed up to a term was in every log a higher term was won with. */
  lemma CommittedWhenWon(b: Ballots, l: Log, k: nat, bound: Term, u: Term)
    requires Shape(b) && VotesOk(b) && BallotsSafe(b) && CommittedPrefix(b, l, k, bound) && bound < u && u in b.lead
    ensures (u, b.owner[u]) in b.cand && Agree(l, b.cand[(u, b.owner[u])], k)
  {
    assert WonBy(b, u, b.owner[u]);
    if k > 0 {
      var t: Term, n: nat :| Committed(b, t, n) && t <= bound && k <= n && Agree(l, b.lead[t], k);
      WonWithCommitted(b, t, n, u);
    }
  }

  /** Any two committed prefixes agree as far as both go. */
  lemma CommittedAgree(b: Ballots, l: Log, j: nat, m: Log, k: nat, x: Term, y: Term)
    requires Shape(b) && LeadsSafe(b) && CommittedPrefix(b, l, j, x) && CommittedPrefix(b, m, k, y) && j <= k
    ensures Agree(l, m, j)
  {
    if j > 0 {
      var t: Term, n: nat :| Committed(b, t, n) && t <= x && j <= n && Agree(l, b.lead[t], j);
      var u: Term, o: nat :| Committed(b, u, o) && u <= y && k <= o && Agree(m, b.lead[u], k);
      if t < u { LeaderCompleteness(b, t, n, u); }
      if u < t { LeaderCompleteness(b, u, o, t); }
    }
  }

  /** A committed prefix is held by every owner of a term from its bound on. */
  lemma CommittedInLead(b: Ballots, l: Log, k: nat, bound: Term, u: Term)
    requires Shape(b) && LeadsSafe(b) && CommittedPrefix(b, l, k, bound) && bound <= u && u in b.lead
    ensures Agree(l, b.lead[u], k)
  {
    if k > 0 {
      var t: Term, n: nat :| Committed(b, t, n) && t <= bound && k <= n && Agree(l, b.lead[t], k);
      if t < u { LeaderCompleteness(b, t, n, u); }
    }
  }

  /** Commitment is never undone. */
  lemma CommittedStays(b: Ballots, c: Ballots, t: Term, n: nat)
    requires History(b, c) && Committed(b, t, n)
    ensures Committed(c, t, n)
  {
    SubsetCard(Ackers(b, t, n), Ackers(c, t, n));
  }

  lemma CommittedPrefixStays(b: Ballots, c: Ballots, l: Log, k: nat, bound: Term)
    requires History(b, c) && CommittedPrefix(b, l, k, bound)
    ensures CommittedPrefix(c, l, k, bound)
  {
    if k > 0 {
      var t: Term, n: nat :| Committed(b, t, n) && t <= bound && k <= n && Agree(l, b.lead[t], k);
      CommittedStays(b, c, t, n);
    }
  }
}

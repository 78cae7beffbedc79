/** Durable state and the shell around the core: a hard-state cell and a log tree
    keyed by index, effects executed strictly in order, recovery from disk. */
module RaftStorages {
  import opened Options
  import opened RaftTypes
  import opened RaftLogs
  import opened RaftCore
  import opened RaftNodes

  datatype HardState = HardState(currentTerm: Term, votedFor: Option<NodeId>)

  datatype Disk = Disk(hard: Option<HardState>, tree: map<LogIndex, LogEntry>)

  const BLANK: Disk := Disk(None, map[])

  function Hard(d: Disk): HardState { if d.hard.Some? then d.hard.value else HardState(0, None) }

  function StoreEntries(tree: map<LogIndex, LogEntry>, es: seq<LogEntry>): map<LogIndex, LogEntry> {
    if es == [] then tree
    else StoreEntries(tree, es[..|es| - 1])[es[|es| - 1].index := es[|es| - 1]]
  }

  function CutTree(tree: map<LogIndex, LogEntry>, from: LogIndex): map<LogIndex, LogEntry> {
    map k | k in tree && k < (if from > 1 then from else 1) :: tree[k]
  }

  predicate IsMin(s: set<nat>, m: nat) { m in s && forall k :: k in s ==> m <= k }

  lemma {:induction false} HasMin(s: set<nat>)
    requires s != {}
    ensures exists m :: IsMin(s, m)
  {
    var x :| x in s;
    if s == {x} {
      assert IsMin(s, x);
    } else {
      HasMin(s - {x});
      var r :| IsMin(s - {x}, r);
      var m := if r < x then r else x;
      forall k | k in s ensures m <= k { assert k == x || k in s - {x}; }
      assert IsMin(s, m);
    }
  }

  function MinKey(s: set<nat>): (m: nat)
    requires s != {}
    ensures m in s && forall k :: k in s ==> m <= k
  {
    HasMin(s);
    var m :| IsMin(s, m) && m in s;
    m
  }

  /** Every stored value, in ascending key order. */
  function InKeyOrder(tree: map<LogIndex, LogEntry>): seq<LogEntry>
    decreases |tree|
  {
    if tree == map[] then []
    else
      var k := MinKey(tree.Keys);
      assert (tree - {k}).Keys == tree.Keys - {k};
      [tree[k]] + InKeyOrder(tree - {k})
  }

  /** The tree holds exactly the entries of l, each under its own index. */
  ghost predicate Represents(tree: map<LogIndex, LogEntry>, l: Log) {
    && (forall k :: k in tree <==> 1 <= k <= |l|)
    && (forall k :: 1 <= k <= |l| ==> tree[k] == l[k - 1])
  }

  lemma {:induction false} KeyOrderFrom(tree: map<LogIndex, LogEntry>, l: Log, s: nat)
    requires s <= |l|
    requires forall k :: k in tree <==> s < k <= |l|
    requires forall k :: s < k <= |l| ==> tree[k] == l[k - 1]
    ensures InKeyOrder(tree) == l[s..]
    decreases |l| - s
  {
    if s < |l| {
      assert s + 1 in tree;
      var k := MinKey(tree.Keys);
      assert k == s + 1;
      KeyOrderFrom(tree - {k}, l, s + 1);
      assert l[s..] == [l[s]] + l[s + 1..];
    } else {
      assert tree.Keys == {};
    }
  }

  /** load_log gives back exactly the log that was stored. */
  lemma {:induction false} LoadReturnsStored(tree: map<LogIndex, LogEntry>, l: Log)
    requires Represents(tree, l)
    ensures InKeyOrder(tree) == l
  {
    KeyOrderFrom(tree, l, 0);
    assert l[0..] == l;
  }

  class RaftStorage {
    var hard: Option<HardState>
    var tree: map<LogIndex, LogEntry>

    ghost function Contents(): Disk
      reads this
    {
      Disk(hard, tree)
    }

    method LoadHardState() returns (hs: HardState)
      ensures hs == Hard(Contents())
    {
      hs := if hard.Some? then hard.value else HardState(0, None);
    }

    method SaveHardState(hs: HardState)
      modifies this
      ensures Contents() == old(Contents()).(hard := Some(hs))
    {
      hard := Some(hs);
    }

    method AppendEntries(entries: seq<LogEntry>)
      modifies this
      ensures Contents() == old(Contents()).(tree := StoreEntries(old(tree), entries))
    {
      for i := 0 to |entries|
        invariant hard == old(hard) && tree == StoreEntries(old(tree), entries[..i])
      {
        assert entries[..i + 1][..i] == entries[..i];
        tree := tree[entries[i].index := entries[i]];
      }
      assert entries[..|entries|] == entries;
    }

    /** Collect the doomed keys, then remove them one by one. */
    method TruncateFrom(from: LogIndex)
      modifies this
      ensures Contents() == old(Contents()).(tree := CutTree(old(tree), from))
    {
      var doomed: set<LogIndex> := set k: LogIndex | k in tree && k >= (if from > 1 then from else 1);
      while doomed != {}
        invariant hard == old(hard)
        invariant forall k :: k in doomed ==> k in old(tree) && k >= (if from > 1 then from else 1)
        invariant forall k :: k in tree ==> k in old(tree) && tree[k] == old(tree)[k]
        invariant forall k :: k in old(tree) && k !in tree ==> k >= (if from > 1 then from else 1)
        invariant forall k :: k in tree && k >= (if from > 1 then from else 1) ==> k in doomed
        decreases |doomed|
      {
        var key: LogIndex :| key in doomed;
        tree := tree - {key};
        doomed := doomed - {key};
      }
      assert tree == CutTree(old(tree), from);
    }

    /** The prefix scan yields keys in ascending order. */
    method LoadLog() returns (entries: seq<LogEntry>)
      ensures entries == InKeyOrder(tree)
    {
      entries := [];
      var rest := tree;
      while rest != map[]
        invariant entries + InKeyOrder(rest) == InKeyOrder(tree)
        decreases |rest|
      {
        var k := MinKey(rest.Keys);
        assert (rest - {k}).Keys == rest.Keys - {k};
        entries := entries + [rest[k]];
        rest := rest - {k};
      }
    }
  }

  // ---- executing effects ------------------------------------------------------

  /** Everything effects touch: the disk, what was sent, what was handed to the applier. */
  datatype Io = Io(disk: Disk, sent: seq<(NodeId, Message)>, applied: seq<LogEntry>)

  /** Persist writes the term and vote the node holds AFTER the step. */
  function ExecOne(io: Io, n: Node, e: Effect): Io {
    match e
    case Persist => io.(disk := io.disk.(hard := Some(HardState(n.currentTerm, n.votedFor))))
    case PersistEntries(es) => io.(disk := io.disk.(tree := StoreEntries(io.disk.tree, es)))
    case PersistTruncate(from) => io.(disk := io.disk.(tree := CutTree(io.disk.tree, from)))
    case Send(to, m) => io.(sent := io.sent + [(to, m)])
    case Apply(entry) => io.(applied := io.applied + [entry])
    case ProposeRejected(_) => io
  }

  function Exec(io: Io, n: Node, es: seq<Effect>): Io {
    if es == [] then io else ExecOne(Exec(io, n, es[..|es| - 1]), n, es[|es| - 1])
  }

  /** The node RaftShell::new builds from a disk. */
  function Recover(id: NodeId, peers: seq<NodeId>, timeout: nat, d: Disk): Node {
    NewNode(id, peers, timeout).(currentTerm := Hard(d).currentTerm, votedFor := Hard(d).votedFor,
                                 log := InKeyOrder(d.tree))
  }

  /** Only term, vote and log survive a restart; everything else starts anew. */
  lemma RecoverForgets(id: NodeId, peers: seq<NodeId>, timeout: nat, d: Disk)
    ensures var n := Recover(id, peers, timeout, d);
      && n == Node(id, peers, Follower, n.currentTerm, n.votedFor, n.log, 0, 0, 0, timeout, None)
      && (d.hard == None ==> n.currentTerm == 0 && n.votedFor == None)
      && (d.hard.Some? ==> n.currentTerm == d.hard.value.currentTerm && n.votedFor == d.hard.value.votedFor)
  {}

  /** A node that has just become a candidate gets a new timeout, any other keeps its own. */
  function Rearmed(before: Node, after: Node, timeout: nat): Node {
    if !before.role.Candidate? && after.role.Candidate? then after.(timeout := timeout) else after
  }

  /** The new timeout is not visible outside: the effects do the same with it. */
  lemma {:induction false} RearmIsInvisible(io: Io, before: Node, after: Node, timeout: nat, es: seq<Effect>)
    ensures Exec(io, Rearmed(before, after, timeout), es) == Exec(io, after, es)
  {
    if es != [] { RearmIsInvisible(io, before, after, timeout, es[..|es| - 1]); }
  }

  class RaftShell {
    const node: RaftNode
    const storage: RaftStorage
    var sent: seq<(NodeId, Message)>
    var applied: seq<LogEntry>
    /** The leader this node tells the outside about. */
    var published: Option<NodeId>

    ghost function Outside(): Io
      reads this, storage
    {
      Io(storage.Contents(), sent, applied)
    }

    constructor (id: NodeId, peers: seq<NodeId>, storage: RaftStorage, timeout: nat)
      ensures this.storage == storage && fresh(node) && fresh(node.log)
      ensures node.State() == Recover(id, peers, timeout, storage.Contents())
      ensures Outside() == Io(old(storage.Contents()), [], []) && published == None
    {
      var n := new RaftNode(id, peers, timeout);
      var hs := storage.LoadHardState();
      n.currentTerm := hs.currentTerm;
      n.votedFor := hs.votedFor;
      var entries := storage.LoadLog();
      n.log := new RaftLog.FromEntries(entries);
      node, this.storage, sent, applied, published := n, storage, [], [], None;
    }

    method Execute(effects: seq<Effect>)
      modifies this, storage
      ensures Outside() == Exec(old(Outside()), node.State(), effects) && published == old(published)
    {
      for i := 0 to |effects|
        invariant Outside() == Exec(old(Outside()), node.State(), effects[..i])
        invariant node.State() == old(node.State()) && published == old(published)
      {
        assert effects[..i + 1][..i] == effects[..i];
        match effects[i]
        case Persist => storage.SaveHardState(HardState(node.currentTerm, node.votedFor));
        case PersistEntries(entries) => storage.AppendEntries(entries);
        case PersistTruncate(from) => storage.TruncateFrom(from);
        case Send(to, m) => sent := sent + [(to, m)];
        case Apply(entry) => applied := applied + [entry];
        case ProposeRejected(_) =>
      }
      assert effects[..|effects|] == effects;
    }

    /** One turn of the event loop: step the core, draw a new election timeout if the step made a
        candidate, execute the effects, then publish the leader; watchers wake if it changed. */
    method Turn(event: Event, timeout: nat) returns (woken: bool)
      modifies this, storage, node, node.log
      ensures node.log == old(node.log)
      ensures var n := old(node.State()); var r := Step(n, event);
        node.State() == Rearmed(n, r.node, timeout) && Outside() == Exec(old(Outside()), r.node, r.effects)
      ensures published == node.leaderHint && (woken <==> published != old(published))
    {
      ghost var n := node.State();
      var wasCandidate := node.role.Candidate?;
      var effects := node.HandleStep(event);
      if !wasCandidate && node.role.Candidate? {
        node.SetElectionTimeout(timeout);
      }
      RearmIsInvisible(old(Outside()), n, Step(n, event).node, timeout, effects);
      Execute(effects);
      woken := published != node.leaderHint;
      if woken {
        published := node.leaderHint;
      }
    }
  }
}

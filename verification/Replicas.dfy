/**
 * The replicated store: every replica feeds the entries its Raft node applies, in order, to its
 * own store (src/apiserver/raft_glue.rs:196-224).  The stores began empty.  Decoding of a log
 * entry is a parameter: every theorem holds for every decoder.
 */
module Replicas {
  import opened Options
  import opened RaftTypes
  import opened RaftCluster
  import RaftSafety
  import Store = ObjectStore
  import opened StoreHistory
  import opened Restarts

  type Decoder = Command -> Option<Store.StoreCommand>

  /** The store after applying `entries` in order; an entry that does not decode is skipped. */
  function Consume(decode: Decoder, s: Store.Store, entries: seq<LogEntry>): Store.Store {
    if entries == [] then s
    else
      var k := |entries| - 1;
      var before := Consume(decode, s, entries[..k]);
      var cmd := decode(entries[k].command);
      if cmd.None? then before else Store.Apply(before, cmd.value).store
  }

  /** The verdict on each entry; None where the entry was skipped. */
  function Verdicts(decode: Decoder, s: Store.Store, entries: seq<LogEntry>): (r: seq<Option<Store.Outcome>>)
    ensures |r| == |entries|
  {
    if entries == [] then []
    else
      var k := |entries| - 1;
      var cmd := decode(entries[k].command);
      Verdicts(decode, s, entries[..k])
      + [if cmd.None? then None else Some(Store.Apply(Consume(decode, s, entries[..k]), cmd.value).outcome)]
  }

  /** The loop that consumes committed entries. */
  method ApplyLoop(decode: Decoder, db: Store.Database, entries: seq<LogEntry>)
    returns (verdicts: seq<Option<Store.Outcome>>)
    modifies db
    ensures db.State() == Consume(decode, old(db.State()), entries)
    ensures verdicts == Verdicts(decode, old(db.State()), entries)
  {
    verdicts := [];
    ghost var s := db.State();
    for i := 0 to |entries|
      invariant db.State() == Consume(decode, s, entries[..i])
      invariant verdicts == Verdicts(decode, s, entries[..i])
    {
      assert entries[..i + 1][..i] == entries[..i];
      var cmd := decode(entries[i].command);
      if cmd.None? {
        verdicts := verdicts + [None];
        continue;
      }
      var outcome := db.ApplyCommand(cmd.value);
      verdicts := verdicts + [Some(outcome)];
    }
    assert entries[..|entries|] == entries;
  }

  lemma {:induction false} ConsumeConcat(decode: Decoder, s: Store.Store, a: seq<LogEntry>, b: seq<LogEntry>)
    ensures Consume(decode, s, a + b) == Consume(decode, Consume(decode, s, a), b)
    ensures Verdicts(decode, s, a + b) == Verdicts(decode, s, a) + Verdicts(decode, Consume(decode, s, a), b)
    decreases |b|
  {
    if b == [] {
      assert a + b == a;
    } else {
      var k := |b| - 1;
      assert (a + b)[..|a + b| - 1] == a + b[..k];
      ConsumeConcat(decode, s, a, b[..k]);
    }
  }

  /** In any run, the first `m` entries that two nodes applied, at any two moments, are the same. */
  lemma SharedPrefix(run: seq<Cluster>, acts: seq<Action>, j: nat, k: nat, x: NodeId, y: NodeId, m: nat)
    requires IsRun(run, acts) && j < |run| && k < |run| && x in run[j].nodes && y in run[k].nodes
    requires x in run[j].streams && y in run[k].streams
    requires m <= |run[j].streams[x]| && m <= |run[k].streams[y]|
    ensures run[j].streams[x][..m] == run[k].streams[y][..m]
  {
    hide *;
    if j <= k {
      RaftSafety.StreamsArePrefixes(run, acts, j, k, x, y);
    } else {
      RaftSafety.StreamsArePrefixes(run, acts, k, j, y, x);
    }
  }

  /**
   * Replica agreement.  Take any two replicas of any run of the cluster, at any two moments, that
   * consumed `m` and `n >= m` applied entries into stores that began empty.  The second store is
   * what the first becomes by applying the entries it has not yet consumed, and every entry both
   * consumed got the same verdict, versions and uids included.
   */
  lemma ReplicasAgree(decode: Decoder, run: seq<Cluster>, acts: seq<Action>, j: nat, k: nat,
                      x: NodeId, y: NodeId, m: nat, n: nat)
    requires IsRun(run, acts) && j < |run| && k < |run| && x in run[j].nodes && y in run[k].nodes
    requires x in run[j].streams && y in run[k].streams
    requires m <= |run[j].streams[x]| && m <= n <= |run[k].streams[y]|
    ensures var mine, theirs := run[j].streams[x][..m], run[k].streams[y][..n];
      && Consume(decode, Store.EMPTY, theirs) == Consume(decode, Consume(decode, Store.EMPTY, mine), theirs[m..])
      && Verdicts(decode, Store.EMPTY, theirs)[..m] == Verdicts(decode, Store.EMPTY, mine)
      && (m == n ==> Consume(decode, Store.EMPTY, theirs) == Consume(decode, Store.EMPTY, mine))
  {
    hide *;
    var mine, theirs := run[j].streams[x][..m], run[k].streams[y][..n];
    SharedPrefix(run, acts, j, k, x, y, m);
    assert theirs == mine + theirs[m..];
    ConsumeConcat(decode, Store.EMPTY, mine, theirs[m..]);
  }

  // ---- conditional writes against a stale replica ----

  /** The commands that actually run. */
  function Decoded(decode: Decoder, entries: seq<LogEntry>): seq<Store.StoreCommand> {
    if entries == [] then []
    else
      var k := |entries| - 1;
      var cmd := decode(entries[k].command);
      Decoded(decode, entries[..k]) + (if cmd.None? then [] else [cmd.value])
  }

  lemma {:induction false} StatePrefix(s: Store.Store, a: seq<Store.StoreCommand>, b: seq<Store.StoreCommand>, i: nat)
    requires i <= |a|
    ensures StateAt(s, a + b, i) == StateAt(s, a, i)
  {
    if i > 0 {
      StatePrefix(s, a, b, i - 1);
    }
  }

  lemma {:induction false} ConsumeIsRun(decode: Decoder, s: Store.Store, entries: seq<LogEntry>)
    ensures Consume(decode, s, entries)
            == StateAt(s, Decoded(decode, entries), |Decoded(decode, entries)|)
  {
    if entries != [] {
      var k := |entries| - 1;
      ConsumeIsRun(decode, s, entries[..k]);
      var cmd := decode(entries[k].command);
      var cmds := Decoded(decode, entries[..k]);
      if cmd.Some? {
        StatePrefix(s, cmds, [cmd.value], |cmds|);
      } else {
        assert cmds + [] == cmds;
      }
    }
  }

  lemma {:induction false} DecodedPrefix(decode: Decoder, entries: seq<LogEntry>, m: nat)
    requires m <= |entries|
    ensures Decoded(decode, entries[..m]) <= Decoded(decode, entries)
  {
    if m < |entries| {
      var k := |entries| - 1;
      DecodedPrefix(decode, entries[..k], m);
      assert entries[..k][..m] == entries[..m];
    } else {
      assert entries[..m] == entries;
    }
  }

  /** The store of the shorter prefix is a state of the run of the longer one. */
  lemma {:induction false} ConsumePrefixState(decode: Decoder, entries: seq<LogEntry>, m: nat)
    requires m <= |entries|
    ensures var cmds, i := Decoded(decode, entries), |Decoded(decode, entries[..m])|;
            i <= |cmds| && StateAt(Store.EMPTY, cmds, i) == Consume(decode, Store.EMPTY, entries[..m])
  {
    DecodedPrefix(decode, entries, m);
    var few, cmds := Decoded(decode, entries[..m]), Decoded(decode, entries);
    ConsumeIsRun(decode, Store.EMPTY, entries[..m]);
    StatePrefix(Store.EMPTY, few, cmds[|few|..], |few|);
    assert few + cmds[|few|..] == cmds;
  }

  lemma {:induction false} VerdictIs(decode: Decoder, s: Store.Store, entries: seq<LogEntry>, n: nat)
    requires n < |entries| && decode(entries[n].command).Some?
    ensures Verdicts(decode, s, entries)[n]
            == Some(Store.Apply(Consume(decode, s, entries[..n]), decode(entries[n].command).value).outcome)
  {
    ConsumeConcat(decode, s, entries[..n + 1], entries[n + 1..]);
    assert entries[..n + 1] + entries[n + 1..] == entries;
    assert entries[..n + 1][..n] == entries[..n];
  }

  /** What a replica holds after the first `m` entries of a stream. */
  function StoreAfter(decode: Decoder, stream: seq<LogEntry>, m: nat): Store.Store
    requires m <= |stream|
  {
    Consume(decode, Store.EMPTY, stream[..m])
  }

  /** No command of entries `m` up to `n` of the stream wrote the key. */
  predicate UntouchedBetween(decode: Decoder, stream: seq<LogEntry>, m: nat, n: nat, k: Store.Key)
    requires m <= n <= |stream|
  {
    var cmds, i := Decoded(decode, stream[..n]), |Decoded(decode, stream[..m])|;
    i <= |cmds| && Untouched(Store.EMPTY, cmds, i, |cmds|, k)
  }

  /** The same on one stream: read after `m` entries, conditional write as entry `n`. */
  lemma {:induction false} WriteBackOnStream(decode: Decoder, stream: seq<LogEntry>, m: nat, n: nat, cmd: Store.StoreCommand, r: nat)
    requires m <= n < |stream| && decode(stream[n].command) == Some(cmd)
    requires Target(cmd).Some? && !cmd.op.CreateOp? && Provided(cmd) == Some(r)
    requires HasVersion(StoreAfter(decode, stream, m), Target(cmd).value, r)
    ensures var v := Verdicts(decode, Store.EMPTY, stream)[n];
      && v.Some?
      && (v.value.Ok? <==> if r < Store.U64_MAX then UntouchedBetween(decode, stream, m, n, Target(cmd).value)
                           else Target(cmd).value in StoreAfter(decode, stream, n).objects)
  {
    hide Untouched, Consistent, Target, Store.Apply, Consume, Decoded, StateAt, Verdicts;
    var entries := stream[..n];
    assert entries[..m] == stream[..m];
    ConsumePrefixState(decode, entries, m);
    ConsumeIsRun(decode, Store.EMPTY, entries);
    VerdictIs(decode, Store.EMPTY, stream, n);
    EmptyConsistent();
    NoLostUpdate(Store.EMPTY, Decoded(decode, entries), |Decoded(decode, entries[..m])|,
                 |Decoded(decode, entries)|, cmd, r);
  }

  /**
   * A read from any replica, however stale, is safe to write back.  Node `x` had consumed `m`
   * entries when a client read version `r` of a key; the client's conditional command was committed
   * as entry `n >= m` (counting from zero) of the stream of any node `y`.  Then its verdict is Ok if
   * and only if no command between the read and the write wrote that key; for the last version the
   * counter can take, if and only if the key is there.
   */
  lemma StaleReadIsSafe(decode: Decoder, run: seq<Cluster>, acts: seq<Action>, j: nat, k: nat,
                        x: NodeId, y: NodeId, m: nat, n: nat, cmd: Store.StoreCommand, r: nat)
    requires IsRun(run, acts) && j < |run| && k < |run| && x in run[j].nodes && y in run[k].nodes
    requires x in run[j].streams && y in run[k].streams
    requires m <= |run[j].streams[x]| && m <= n < |run[k].streams[y]|
    requires decode(run[k].streams[y][n].command) == Some(cmd)
    requires Target(cmd).Some? && !cmd.op.CreateOp? && Provided(cmd) == Some(r)
    requires HasVersion(StoreAfter(decode, run[j].streams[x], m), Target(cmd).value, r)
    ensures var v := Verdicts(decode, Store.EMPTY, run[k].streams[y])[n];
      && v.Some?
      && (v.value.Ok? <==> if r < Store.U64_MAX then UntouchedBetween(decode, run[k].streams[y], m, n, Target(cmd).value)
                           else Target(cmd).value in StoreAfter(decode, run[k].streams[y], n).objects)
  {
    hide IsRun, UntouchedBetween, Target, HasVersion, Consume, Verdicts;
    SharedPrefix(run, acts, j, k, x, y, m);
    WriteBackOnStream(decode, run[k].streams[y], m, n, cmd, r);
  }

  // ---- a replica that restarts ----

  /**
   * In any run of the cluster: a replica has consumed the first `n` entries, restarts with the store
   * it had, and by moment `k` its node has applied `n` entries again.  Consuming those leaves the
   * replica with what every other one holds after `n` entries if and only if every object created
   * among them is still there and no command among them echoes the version its key has by then.
   * If commands echo only versions that were read, the latter never happens.
   */
  lemma RestartedReplicaAgreesIff(decode: Decoder, run: seq<Cluster>, acts: seq<Action>, j: nat, k: nat, x: NodeId, n: nat)
    requires IsRun(run, acts) && j < |run| && k < |run| && x in run[j].nodes && x in run[k].nodes
    requires x in run[j].streams && x in run[k].streams && n <= |run[j].streams[x]| && n <= |run[k].streams[x]|
    requires StoreAfter(decode, run[j].streams[x], n).counter < Store.U64_MAX
    ensures var s, cmds := StoreAfter(decode, run[j].streams[x], n), Decoded(decode, run[j].streams[x][..n]);
      && (Consume(decode, s, run[k].streams[x][..n]) == StoreAfter(decode, run[k].streams[x], n)
          <==> CreatedAreThere(s, cmds) && NoneEchoesNow(s, cmds))
      && ((forall m :: 0 <= m < |cmds| ==> EchoesRead(Store.EMPTY, cmds, m)) ==> NoneEchoesNow(s, cmds))
  {
    hide IsRun, Consume, Decoded, EchoesRead, CreatedAreThere, NoneEchoesNow, Consistent, StateAt;
    SharedPrefix(run, acts, j, k, x, x, n);
    var entries := run[j].streams[x][..n];
    var s, cmds := StoreAfter(decode, run[j].streams[x], n), Decoded(decode, entries);
    EmptyConsistent();
    ConsumeIsRun(decode, Store.EMPTY, entries);
    RunConsistent(Store.EMPTY, cmds, |cmds|);
    ConsumeIsRun(decode, s, entries);
    RestartIsHarmlessIff(s, cmds);
    if forall m :: 0 <= m < |cmds| ==> EchoesRead(Store.EMPTY, cmds, m) {
      HonestRestartIff(Store.EMPTY, cmds);
    }
  }

  lemma EmptyConsistent()
    ensures Consistent(Store.EMPTY)
  {
  }
}

/** The vocabulary of the Raft core: identifiers, log entries, the four RPC
    messages, the events a node consumes and the effects it produces. */
module RaftTypes {
  import opened Options

  type NodeId = nat
  type Term = nat
  /** 1-based; 0 names the position before the first entry. */
  type LogIndex = nat
  /** A next_index is never 0, so prev_index = next - 1 never underflows. */
  type NextIndex = n: nat | 1 <= n witness 1

  newtype Byte = b: int | 0 <= b < 256
  type Command = seq<Byte>

  datatype LogEntry = LogEntry(term: Term, index: LogIndex, command: Command)
  type Log = seq<LogEntry>

  datatype Message =
    | RequestVote(term: Term, candidateId: NodeId, lastLogIndex: LogIndex, lastLogTerm: Term)
    | RequestVoteResp(term: Term, granted: bool)
    | AppendEntries(term: Term, leaderId: NodeId, prevLogIndex: LogIndex, prevLogTerm: Term,
                    entries: seq<LogEntry>, leaderCommit: LogIndex)
    | AppendEntriesResp(term: Term, success: bool, matchIndex: LogIndex)

  datatype Role =
    | Follower
    | Candidate(votes: set<NodeId>)
    | Leader(nextIndex: map<NodeId, NextIndex>, matchIndex: map<NodeId, LogIndex>)

  datatype Event =
    | Tick
    | Receive(from: NodeId, msg: Message)
    | Propose(command: Command)

  datatype Effect =
    | Send(to: NodeId, msg: Message)
    | Persist
    | PersistTruncate(from: LogIndex)
    | PersistEntries(entries: seq<LogEntry>)
    | Apply(entry: LogEntry)
    | ProposeRejected(leaderHint: Option<NodeId>)

  /** The whole state of one node, as a value. */
  datatype Node = Node(
    id: NodeId,
    peers: seq<NodeId>,
    role: Role,
    currentTerm: Term,
    votedFor: Option<NodeId>,
    log: Log,
    commitIndex: LogIndex,
    lastApplied: LogIndex,
    ticks: nat,
    timeout: nat,
    leaderHint: Option<NodeId>)

  /** What one handler returns: the node afterwards and the ordered effects. */
  datatype Outcome = Outcome(node: Node, effects: seq<Effect>)
}

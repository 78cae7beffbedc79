/** The replicated log: 1-based, with the (0, 0) sentinel before the first entry. */
module RaftLogs {
  import opened Options
  import opened RaftTypes

  function LastTerm(l: Log): Term { if l == [] then 0 else l[|l| - 1].term }

  function TermAt(l: Log, i: LogIndex): Option<Term> {
    if i == 0 then Some(0) else if i <= |l| then Some(l[i - 1].term) else None
  }

  function Get(l: Log, i: LogIndex): Option<LogEntry> {
    if 1 <= i <= |l| then Some(l[i - 1]) else None
  }

  function EntriesFrom(l: Log, from: LogIndex): Log {
    if from == 0 || from > |l| then [] else l[from - 1..]
  }

  function TruncateFrom(l: Log, from: LogIndex): Log {
    if from == 0 then [] else if from - 1 <= |l| then l[..from - 1] else l
  }

  /** Entry i carries index i + 1: what `append` establishes and every step keeps. */
  predicate Indexed(l: Log) {
    forall i :: 0 <= i < |l| ==> l[i].index == i + 1
  }

  class RaftLog {
    var entries: Log

    constructor FromEntries(entries: Log)
      ensures this.entries == entries
    {
      this.entries := entries;
    }

    method Append(term: Term, command: Command) returns (index: LogIndex)
      modifies this
      ensures entries == old(entries) + [LogEntry(term, index, command)]
      ensures index == |entries|
      ensures Indexed(old(entries)) ==> Indexed(entries)
    {
      index := |entries| + 1;
      entries := entries + [LogEntry(term, index, command)];
    }

    method Truncate(from: LogIndex)
      modifies this
      ensures entries == TruncateFrom(old(entries), from)
      ensures entries <= old(entries) && forall i :: from <= i && 1 <= i ==> Get(entries, i) == None
    {
      if from == 0 {
        entries := [];
      } else if from - 1 < |entries| {
        entries := entries[..from - 1];
      }
    }

    method AppendEntries(more: Log)
      modifies this
      ensures entries == old(entries) + more
    {
      entries := entries + more;
    }
  }
}

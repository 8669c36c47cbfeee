/** The persisted Raft state of one node: current term, vote and log. */
module RaftStorage {
  import opened Wrappers
  import opened RaftTypes
  import opened RaftLog

  class InMemoryStorage {
    var currentTerm: nat
    var votedFor: Option<NodeId>
    var log: Log

    constructor ()
      ensures currentTerm == 0 && votedFor == None && log == []
    {
      currentTerm, votedFor, log := 0, None, [];
    }

    method SetCurrentTerm(term: nat)
      modifies this`currentTerm
      ensures currentTerm == term
    {
      currentTerm := term;
    }

    method SetVotedFor(candidate: Option<NodeId>)
      modifies this`votedFor
      ensures votedFor == candidate
    {
      votedFor := candidate;
    }

    function LastIndex(): nat
      reads this
    {
      |log|
    }

    /** The stored entry at a 1-based index, if there is one. */
    method Get(index: int) returns (entry: Option<LogEntry>)
      ensures entry == if 1 <= index <= |log| then Some(log[index - 1]) else None
    {
      if index <= 0 || index > |log| {
        return None;
      }
      entry := Some(log[index - 1]);
    }

    method Append(entries: Log)
      modifies this`log
      ensures log == old(log) + entries
    {
      log := log + entries;
    }

    /** Drops the entry at `index` and everything after it; refuses a non-positive index. */
    method TruncateFrom(index: int) returns (ok: bool)
      modifies this`log
      ensures ok <==> index > 0
      ensures log == if ok then old(log)[..Min(index - 1, |old(log)|)] else old(log)
    {
      ok := index > 0;
      if ok {
        log := log[..Min(index - 1, |log|)];
      }
    }
  }
}

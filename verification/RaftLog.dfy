/** The 1-based Raft log: index 0 is an implicit entry of term 0, and a missing index has
    term -1. */
module RaftLog {
  import opened RaftTypes
  import opened LedgerModel

  type Log = seq<LogEntry>

  function LastTerm(log: Log): nat {
    if log == [] then 0 else log[|log| - 1].term
  }

  function TermAt(log: Log, index: int): int {
    if index == 0 then 0
    else if 1 <= index <= |log| then log[index - 1].term
    else -1
  }

  function EntriesFrom(log: Log, index: int): Log {
    if index <= 1 then log else if index <= |log| then log[index - 1..] else []
  }

  /** Is a log with this last index and last term at least as up to date as `log`? */
  predicate UpToDate(log: Log, lastIndex: int, lastTerm: int) {
    if lastTerm != LastTerm(log) then lastTerm > LastTerm(log) else lastIndex >= |log|
  }

  /** The first index of the run of entries of `term` that ends at `index`. */
  function FirstIndexOfTerm(log: Log, term: int, index: int): int
    decreases index
  {
    if index > 0 && TermAt(log, index) == term then FirstIndexOfTerm(log, term, index - 1) else index + 1
  }

  /** Scanning down from `index`: the last index whose entry has `term`, or 0. */
  function LastIndexOfTerm(log: Log, term: int, index: int): int
    decreases index
  {
    if index <= 0 then 0
    else if TermAt(log, index) == term then index
    else if TermAt(log, index) < term then 0
    else LastIndexOfTerm(log, term, index - 1)
  }

  /** A follower's log after the entries of an accepted AppendEntries, from `offset` on,
      were compared with it and the first missing or conflicting one replaced its tail. */
  function Merge(log: Log, prevIndex: nat, entries: Log, offset: nat): Log
    requires offset <= |entries|
    decreases |entries| - offset
  {
    if offset == |entries| then log
    else
      var index := prevIndex + 1 + offset;
      var existing := TermAt(log, index);
      if existing == -1 then log + entries[offset..]
      else if existing != entries[offset].term then log[..index - 1] + entries[offset..]
      else Merge(log, prevIndex, entries, offset + 1)
  }

  function Commands(log: Log): (cs: seq<LedgerEntry>)
    ensures |cs| == |log|
    ensures forall i :: 0 <= i < |log| ==> cs[i] == log[i].command
  {
    seq(|log|, i requires 0 <= i < |log| => log[i].command)
  }
}

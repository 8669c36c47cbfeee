/** Core Raft types: log entries, node roles, the six RPC messages and the envelope
    that carries them.  The replicated command is a ledger entry. */
module RaftTypes {
  import opened LedgerModel

  type NodeId = string

  datatype Role = Follower | Candidate | Leader

  datatype LogEntry = LogEntry(term: nat, index: nat, command: LedgerEntry)

  datatype Message =
    | PreVote(term: nat, candidate: NodeId, lastIndex: int, lastTerm: int)
    | PreVoteReply(term: nat, granted: bool, voter: NodeId)
    | RequestVote(term: nat, candidate: NodeId, lastIndex: int, lastTerm: int)
    | VoteReply(term: nat, granted: bool, voter: NodeId)
    | AppendEntries(term: nat, leader: NodeId, prevIndex: int, prevTerm: int,
                    entries: seq<LogEntry>, leaderCommit: int)
    | AppendReply(term: nat, success: bool, responder: NodeId,
                  matchIndex: int, conflictIndex: int, conflictTerm: int)

  datatype Envelope = Envelope(sender: NodeId, recipient: NodeId, message: Message)
}

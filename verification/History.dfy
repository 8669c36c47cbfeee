/** What a Raft run leaves behind, and what must be true of it.

    The history records, per term, the log of that term's leader (which only grows), the
    votes and candidacies, and how much of the leader's log each node has acknowledged.
    Every invariant below is about the history alone, about one node against the history, or
    about one message against the history; each survives when the history grows. */
module RaftHistory {
  import opened Wrappers
  import opened LedgerModel
  import opened RaftTypes
  import opened RaftLog
  import opened RaftStep

  datatype History = History(
    members: set<NodeId>,
    term: map<NodeId, nat>,                     // each member's current term
    votes: map<(NodeId, nat), NodeId>,          // (voter, term) -> candidate
    cands: map<(NodeId, nat), Log>,             // (candidate, term) -> its log as a candidate
    leader: map<nat, NodeId>,                   // term -> its leader
    llog: map<nat, Log>,                        // term -> the leader's log, as far as it got
    acked: map<(NodeId, nat), nat>)             // (node, term) -> longest acknowledged prefix

  // ---- logs ----

  ghost predicate Agree(a: Log, b: Log, n: int) {
    n <= |a| && n <= |b| && forall k :: 0 <= k < n ==> a[k] == b[k]
  }

  ghost predicate Sorted(log: Log) {
    forall i, j :: 0 <= i <= j < |log| ==> log[i].term <= log[j].term
  }

  ghost predicate TermsAtMost(log: Log, t: int) {
    forall i :: 0 <= i < |log| ==> log[i].term <= t
  }

  ghost predicate Indexed(log: Log) {
    forall i :: 0 <= i < |log| ==> log[i].index == i + 1
  }

  /** Every prefix that ends in an entry of term t is a prefix of the log of t's leader. */
  ghost predicate Backed(h: History, log: Log) {
    forall i :: 0 <= i < |log| ==> BackedAt(h, log, i)
  }

  ghost predicate BackedAt(h: History, log: Log, i: int)
    requires 0 <= i < |log|
  {
    log[i].term in h.llog && Agree(log, h.llog[log[i].term], i + 1)
  }

  ghost predicate GoodLog(h: History, log: Log, maxTerm: int) {
    Backed(h, log) && Sorted(log) && TermsAtMost(log, maxTerm) && Indexed(log)
  }

  // ---- quorums ----

  ghost predicate IsQuorum(members: set<NodeId>, q: set<NodeId>) {
    q <= members && |q| >= |members| / 2 + 1
  }

  ghost predicate AllVotedFor(h: History, q: set<NodeId>, c: NodeId, t: nat) {
    forall v :: v in q ==> (v, t) in h.votes && h.votes[(v, t)] == c
  }

  ghost predicate Elected(h: History, c: NodeId, t: nat) {
    exists q :: IsQuorum(h.members, q) && AllVotedFor(h, q, c, t)
  }

  // ---- acknowledgement and commitment ----

  ghost function Acked(h: History, v: NodeId, t: nat): nat {
    if (v, t) in h.acked then h.acked[(v, t)] else 0
  }

  /** Entry `n` of the leader's log of term `t` was written in that very term. */
  ghost predicate OwnTerm(h: History, t: nat, n: int) {
    t in h.llog && 1 <= n <= |h.llog[t]| && h.llog[t][n - 1].term == t
  }

  ghost predicate AllAcked(h: History, q: set<NodeId>, t: nat, n: int) {
    forall v :: v in q ==> Acked(h, v, t) >= n
  }

  /** A majority holds the own-term entry `n` of term `t`: Raft's commitment condition. */
  ghost predicate Certified(h: History, t: nat, n: int) {
    OwnTerm(h, t, n) && exists q :: IsQuorum(h.members, q) && AllAcked(h, q, t, n)
  }

  ghost predicate NeverAcks(h: History, q: set<NodeId>, t: nat, n: int) {
    forall v :: v in q ==> v in h.term && h.term[v] > t && Acked(h, v, t) < n
  }

  /** A majority has left term `t` without acknowledging entry `n`: it can never be certified. */
  ghost predicate Blocked(h: History, t: nat, n: int) {
    exists q :: IsQuorum(h.members, q) && NeverAcks(h, q, t, n)
  }

  ghost predicate Survives(h: History, log: Log, t: nat, n: int)
    requires t in h.llog
  {
    Agree(log, h.llog[t], n) || Blocked(h, t, n)
  }

  /** `log` holds every own-term entry of earlier terms that could still be committed. */
  ghost predicate Complete(h: History, log: Log, bound: nat) {
    forall t: nat, n :: t < bound && OwnTerm(h, t, n) ==> Survives(h, log, t, n)
  }

  /** The same, for the entries that `v` itself acknowledged. */
  ghost predicate KeepsAcked(h: History, v: NodeId, log: Log, bound: nat) {
    forall t: nat, n :: t < bound && OwnTerm(h, t, n) && n <= Acked(h, v, t) ==> Survives(h, log, t, n)
  }

  /** The first `n` entries of `log` are committed, in a term no later than `bound`. */
  ghost predicate Committed(h: History, log: Log, n: int, bound: nat) {
    n == 0 || exists t: nat, m :: CommittedBy(h, log, n, bound, t, m)
  }

  ghost predicate CommittedBy(h: History, log: Log, n: int, bound: nat, t: nat, m: int) {
    Certified(h, t, m) && t <= bound && n <= m && Agree(log, h.llog[t], n)
  }

  // ---- the history by itself ----

  ghost predicate LeadersShape(term: map<NodeId, nat>, leader: map<nat, NodeId>) {
    forall t :: t in leader ==> leader[t] in term && t <= term[leader[t]]
  }

  ghost predicate VotesShape(term: map<NodeId, nat>, votes: map<(NodeId, nat), NodeId>,
                             cands: map<(NodeId, nat), Log>)
  {
    forall k :: k in votes ==> k.0 in term && k.1 <= term[k.0] && votes[k] in term && (votes[k], k.1) in cands
  }

  ghost predicate CandsShape(term: map<NodeId, nat>, cands: map<(NodeId, nat), Log>) {
    forall k :: k in cands ==> k.0 in term && 0 < k.1 <= term[k.0]
  }

  ghost predicate AcksShape(term: map<NodeId, nat>, llog: map<nat, Log>, acked: map<(NodeId, nat), nat>) {
    forall k :: k in acked ==> k.0 in term && k.1 <= term[k.0] && k.1 in llog && acked[k] <= |llog[k.1]|
  }

  /** Nothing is recorded of a node beyond the term it has reached. */
  ghost predicate HistoryShape(h: History) {
    && h.term.Keys == h.members
    && h.llog.Keys == h.leader.Keys
    && LeadersShape(h.term, h.leader)
    && VotesShape(h.term, h.votes, h.cands)
    && CandsShape(h.term, h.cands)
    && AcksShape(h.term, h.llog, h.acked)
  }

  ghost predicate HistoryLogs(h: History) {
    && (forall t :: t in h.llog ==> GoodLog(h, h.llog[t], t))
    && (forall k :: k in h.cands ==> GoodLog(h, h.cands[k], k.1 - 1))
  }

  ghost predicate HistoryElections(h: History) {
    forall t :: t in h.leader ==> Elected(h, h.leader[t], t)
  }

  ghost predicate LeadersComplete(h: History) {
    forall t :: t in h.llog ==> Complete(h, h.llog[t], t)
  }

  ghost predicate VoteSafe(h: History, v: NodeId, t: nat)
    requires (v, t) in h.votes
  {
    var k := (h.votes[(v, t)], t);
    k in h.cands && KeepsAcked(h, v, h.cands[k], t)
  }

  ghost predicate VotesSafe(h: History) {
    forall v, t :: (v, t) in h.votes ==> VoteSafe(h, v, t)
  }

  ghost predicate HistoryInv(h: History) {
    && HistoryShape(h)
    && HistoryLogs(h)
    && HistoryElections(h)
    && LeadersComplete(h)
    && VotesSafe(h)
  }

  // ---- one node against the history ----

  ghost predicate NoDuplicates(s: seq<NodeId>) {
    forall i, j :: 0 <= i < j < |s| ==> s[i] != s[j]
  }

  /** The static configuration: a node knows every other member exactly once. */
  ghost predicate Configured(members: set<NodeId>, s: Node) {
    s.id in members && s.id !in s.peers && NoDuplicates(s.peers) && members == {s.id} + (set p | p in s.peers)
  }

  ghost predicate CandidateInv(h: History, s: Node) {
    && s.votedFor == Some(s.id)
    && (s.id, s.term) in h.cands && h.cands[(s.id, s.term)] == s.log
    && AllVotedFor(h, s.votes, s.id, s.term)
    && (s.term in h.leader ==> h.leader[s.term] != s.id)
  }

  ghost predicate LeaderInv(h: History, s: Node) {
    && s.term in h.leader && h.leader[s.term] == s.id
    && s.term in h.llog && h.llog[s.term] == s.log
    && Acked(h, s.id, s.term) == |s.log|
    && s.matchIndex.Keys == s.nextIndex.Keys == (set p | p in s.peers)
    && forall p :: p in s.peers ==>
         0 <= s.matchIndex[p] <= Acked(h, p, s.term) && 1 <= s.nextIndex[p] <= |s.log| + 1
  }

  ghost predicate NodeVotes(h: History, s: Node) {
    match s.votedFor
    case None => (s.id, s.term) !in h.votes
    case Some(c) => (s.id, s.term) in h.votes && h.votes[(s.id, s.term)] == c
  }

  ghost predicate NodeAcks(h: History, s: Node) {
    && (s.term in h.llog ==> Agree(s.log, h.llog[s.term], Acked(h, s.id, s.term)))
    && KeepsAcked(h, s.id, s.log, s.term)
  }

  /** The ledger is the fold of a committed prefix at least as long as what this incarnation
      has applied. */
  ghost predicate NodeLedger(h: History, initial: Ledger, s: Node) {
    exists t: nat, m, k :: LedgerAt(h, initial, s, t, m, k)
  }

  ghost predicate LedgerAt(h: History, initial: Ledger, s: Node, t: nat, m: int, k: int) {
    && s.lastApplied <= k
    && if k == 0 then s.ledger == initial
       else Certified(h, t, m) && 0 < k <= m && s.ledger == Fold(initial, Commands(h.llog[t][..k]))
  }

  /** What the node stores: a good log, a committed prefix of it, and the applied ledger. */
  ghost predicate NodeStore(h: History, initial: Ledger, s: Node) {
    && GoodLog(h, s.log, s.term)
    && s.lastApplied == s.commitIndex <= |s.log|
    && Committed(h, s.log, s.commitIndex, s.term)
    && NodeLedger(h, initial, s)
  }

  ghost predicate NodeRole(h: History, s: Node) {
    && (s.role == Candidate ==> CandidateInv(h, s))
    && (s.role == Leader ==> LeaderInv(h, s))
  }

  ghost predicate NodeInv(h: History, initial: Ledger, s: Node) {
    && Configured(h.members, s)
    && s.id in h.term && h.term[s.id] == s.term
    && NodeStore(h, initial, s)
    && NodeVotes(h, s)
    && NodeRole(h, s)
    && NodeAcks(h, s)
  }

  // ---- one message against the history ----

  ghost predicate AppendInv(h: History, e: Envelope)
    requires e.message.AppendEntries?
  {
    var m := e.message;
    && m.leader == e.sender
    && m.term in h.leader && h.leader[m.term] == e.sender
    && m.term in h.llog
    && 0 <= m.prevIndex && m.prevIndex + |m.entries| <= |h.llog[m.term]|
    && m.entries == h.llog[m.term][m.prevIndex..m.prevIndex + |m.entries|]
    && m.prevTerm == TermAt(h.llog[m.term], m.prevIndex)
    && 0 <= m.leaderCommit <= m.prevIndex + |m.entries|
    && Committed(h, h.llog[m.term], m.leaderCommit, m.term)
  }

  ghost predicate AppendReplyInv(h: History, e: Envelope)
    requires e.message.AppendReply?
  {
    var m := e.message;
    && m.responder == e.sender
    && e.sender in h.term && m.term <= h.term[e.sender]
    && if m.success then m.term in h.llog && 0 <= m.matchIndex <= Acked(h, e.sender, m.term)
       else
         || (m.conflictIndex == 0 && m.conflictTerm == -1)
         || (m.term in h.llog && 1 <= m.conflictIndex <= |h.llog[m.term]|)
  }

  ghost predicate MessageInv(h: History, e: Envelope) {
    && e.sender in h.members && e.recipient in h.members && e.sender != e.recipient
    && match e.message
       case PreVote(_, _, _, _) => true
       case PreVoteReply(t, _, v) => v == e.sender && v in h.term && t <= h.term[v]
       case RequestVote(t, c, lastIndex, lastTerm) =>
         c == e.sender && (c, t) in h.cands && lastIndex == |h.cands[(c, t)]| && lastTerm == LastTerm(h.cands[(c, t)])
       case VoteReply(t, granted, v) =>
         && v == e.sender && v in h.term && t <= h.term[v]
         && (granted ==> (v, t) in h.votes && h.votes[(v, t)] == e.recipient)
       case AppendEntries(_, _, _, _, _, _) => AppendInv(h, e)
       case AppendReply(_, _, _, _, _, _) => AppendReplyInv(h, e)
  }

  // ---- growth ----

  /** `h'` may follow `h` by steps of node `n` only. */
  ghost predicate GrowsBy(h: History, h': History, n: NodeId) {
    && Grows(h, h')
    && (forall v :: v in h.members && v != n && v in h.term && v in h'.term ==> h'.term[v] == h.term[v])
    && (forall v, t: nat {:trigger Acked(h', v, t)} :: v != n ==> Acked(h', v, t) == Acked(h, v, t))
    && (forall k :: k in h'.votes && k.0 != n ==> k in h.votes)
    && (forall t :: t in h'.leader && h'.leader[t] != n ==> t in h.leader && h'.llog[t] == h.llog[t])
  }

  ghost predicate Grows(h: History, h': History) {
    && h.term.Keys == h.members && h'.term.Keys == h.members
    && h'.members == h.members
    && h.llog.Keys == h.leader.Keys && h'.llog.Keys == h'.leader.Keys
    && (forall v :: v in h.members ==> h.term[v] <= h'.term[v])
    && RecordsGrow(h, h')
    && AcksGrow(h, h')
  }

  /** Votes, candidacies and leaders are never rewritten, and leaders' logs only extended. */
  ghost predicate RecordsGrow(h: History, h': History) {
    && (forall k :: k in h.votes ==> k in h'.votes && h'.votes[k] == h.votes[k])
    && (forall k :: k in h.cands ==> k in h'.cands && h'.cands[k] == h.cands[k])
    && (forall t :: t in h.leader ==> t in h'.leader && h'.leader[t] == h.leader[t])
    && (forall t :: t in h.llog ==> t in h'.llog && Agree(h.llog[t], h'.llog[t], |h.llog[t]|))
  }

  /** Acknowledgements only rise, and not in terms the node has left. */
  ghost predicate AcksGrow(h: History, h': History) {
    && (forall v, t: nat {:trigger Acked(h', v, t)} :: Acked(h, v, t) <= Acked(h', v, t))
    && (forall v, t: nat {:trigger Acked(h', v, t)} :: v in h.term && t < h.term[v] ==>
        Acked(h', v, t) == Acked(h, v, t))
  }
}

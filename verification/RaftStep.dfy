/** What one call into a Raft node does, as functions on values: the new node and the
    envelopes it handed to the transport, in order.  `now` is the caller's clock and `draw`
    the random election timeout that the call ends up with. */
module RaftStep {
  import opened Wrappers
  import opened LedgerModel
  import opened RaftTypes
  import opened RaftLog

  datatype Node = Node(
    id: NodeId, peers: seq<NodeId>, electionTimeoutMin: real, heartbeatInterval: real,
    // persisted
    term: nat, votedFor: Option<NodeId>, log: Log,
    // volatile
    role: Role, leaderId: Option<NodeId>, commitIndex: nat, lastApplied: nat,
    nextIndex: map<NodeId, int>, matchIndex: map<NodeId, int>,
    votes: set<NodeId>, prevotes: set<NodeId>, prevoteTarget: int,
    electionDeadline: real, heartbeatDeadline: Option<real>, lastLeaderContact: Option<real>,
    // the state machine the committed entries are applied to
    ledger: Ledger)

  datatype Out = Out(node: Node, sent: seq<Envelope>)

  datatype Answer = Answer(node: Node, reply: Message)

  function Majority(s: Node): nat {
    (|s.peers| + 1) / 2 + 1
  }

  function Broadcast(s: Node, m: Message): seq<Envelope> {
    seq(|s.peers|, i requires 0 <= i < |s.peers| => Envelope(s.id, s.peers[i], m))
  }

  // ---- replication ----

  function AppendTo(s: Node, peer: NodeId): Envelope {
    var next := Get(s.nextIndex, peer, |s.log| + 1);
    Envelope(s.id, peer,
             AppendEntries(s.term, s.id, next - 1, TermAt(s.log, next - 1), EntriesFrom(s.log, next), s.commitIndex))
  }

  function Appends(s: Node): seq<Envelope> {
    seq(|s.peers|, i requires 0 <= i < |s.peers| => AppendTo(s, s.peers[i]))
  }

  function BroadcastAppend(s: Node, now: real): Out {
    var s' := s.(heartbeatDeadline := Some(now + s.heartbeatInterval));
    Out(s', Appends(s'))
  }

  function Propose(s: Node, command: LedgerEntry, now: real): Out {
    if s.role != Leader then Out(s, [])
    else BroadcastAppend(s.(log := s.log + [LogEntry(s.term, |s.log| + 1, command)]), now)
  }

  // ---- role changes ----

  function ResetDeadline(s: Node, now: real, draw: real): Node {
    s.(electionDeadline := now + draw)
  }

  function BecomeFollower(s: Node, term: nat, now: real, draw: real): Node {
    ResetDeadline(s.(term := term, votedFor := None, role := Follower, leaderId := None, votes := {}), now, draw)
  }

  /** The new leader, before its authority-establishing heartbeat. */
  function Leadership(s: Node): Node {
    s.(role := Leader, leaderId := Some(s.id),
       nextIndex := map p | p in s.peers :: |s.log| + 1, matchIndex := map p | p in s.peers :: 0)
  }

  function BecomeLeader(s: Node, now: real): Out {
    BroadcastAppend(Leadership(s), now)
  }

  function MaybeBecomeLeader(s: Node, now: real): Out {
    if s.role == Candidate && |s.votes| >= Majority(s) then BecomeLeader(s, now) else Out(s, [])
  }

  /** The candidate itself, before it counts its own vote. */
  function Candidacy(s: Node, now: real, draw: real): Node {
    ResetDeadline(s.(term := s.term + 1, votedFor := Some(s.id), role := Candidate, leaderId := None, votes := {s.id}),
                  now, draw)
  }

  function BecomeCandidate(s: Node, now: real, draw: real): Out {
    var c := Candidacy(s, now, draw);
    var requests := Broadcast(c, RequestVote(c.term, c.id, |c.log|, LastTerm(c.log)));
    var won := MaybeBecomeLeader(c, now);
    Out(won.node, requests + won.sent)
  }

  function MaybeWinPrevote(s: Node, now: real, draw: real): Out {
    if |s.prevotes| >= Majority(s) then BecomeCandidate(s, now, draw) else Out(s, [])
  }

  /** The node with a new prevote round open and only its own grant counted. */
  function PrevoteRound(s: Node, now: real, draw: real): Node {
    ResetDeadline(s.(role := Follower, leaderId := None, prevoteTarget := s.term + 1, prevotes := {s.id}), now, draw)
  }

  function StartPrevote(s: Node, now: real, draw: real): Out {
    var s' := PrevoteRound(s, now, draw);
    var asks := Broadcast(s', PreVote(s'.term + 1, s'.id, |s'.log|, LastTerm(s'.log)));
    var won := MaybeWinPrevote(s', now, draw);
    Out(won.node, asks + won.sent)
  }

  // ---- commit and apply ----

  function ApplyCommitted(s: Node): Node
    requires s.commitIndex <= |s.log|
  {
    if s.lastApplied < s.commitIndex then
      s.(lastApplied := s.commitIndex,
         ledger := Fold(s.ledger, Commands(s.log[s.lastApplied..s.commitIndex])))
    else s
  }

  function InsertDescending(x: int, xs: seq<int>): seq<int> {
    if xs == [] || x >= xs[0] then [x] + xs else [xs[0]] + InsertDescending(x, xs[1..])
  }

  function SortDescending(xs: seq<int>): (r: seq<int>)
    ensures |r| == |xs|
  {
    if xs == [] then []
    else
      InsertionLength(xs[0], SortDescending(xs[1..]));
      InsertDescending(xs[0], SortDescending(xs[1..]))
  }

  lemma InsertionLength(x: int, xs: seq<int>)
    ensures |InsertDescending(x, xs)| == |xs| + 1
  {
  }

  function PeerMatches(peers: seq<NodeId>, m: map<NodeId, int>): (r: seq<int>)
    ensures |r| == |peers|
    ensures forall i :: 0 <= i < |peers| ==> r[i] == Get(m, peers[i], 0)
  {
    if peers == [] then [] else [Get(m, peers[0], 0)] + PeerMatches(peers[1..], m)
  }

  /** The leader's own last index, then the match index of each peer. */
  function MatchIndexes(s: Node): seq<int> {
    [|s.log|] + PeerMatches(s.peers, s.matchIndex)
  }

  /** The index that the sort picks: the majority-th largest. */
  function MajorityMatch(s: Node): int {
    SortDescending(MatchIndexes(s))[Majority(s) - 1]
  }

  function AdvanceCommitIndex(s: Node): Node {
    var n := MajorityMatch(s);
    if n > s.commitIndex && TermAt(s.log, n) == s.term then ApplyCommitted(s.(commitIndex := n)) else s
  }

  // ---- request handlers ----

  /** Does the node count a leader as active at `now`? */
  predicate LeaderActive(s: Node, now: real) {
    s.leaderId.Some? && s.lastLeaderContact.Some? && now - s.lastLeaderContact.value < s.electionTimeoutMin
  }

  /** Would the node grant this prevote request at `now`? */
  predicate WouldGrant(s: Node, m: Message, now: real)
    requires m.PreVote?
  {
    !LeaderActive(s, now) && m.term > s.term && UpToDate(s.log, m.lastIndex, m.lastTerm)
  }

  function HandlePreVote(s: Node, m: Message, now: real): Message
    requires m.PreVote?
  {
    PreVoteReply(s.term, WouldGrant(s, m, now), s.id)
  }

  /** Every request of a higher term is answered in that term. */
  function Adopt(s: Node, term: nat, now: real, draw: real): Node {
    if term > s.term then BecomeFollower(s, term, now, draw) else s
  }

  function HandleRequestVote(s: Node, m: Message, now: real, draw: real): Answer
    requires m.RequestVote?
  {
    var s1 := Adopt(s, m.term, now, draw);
    if m.term < s1.term then
      Answer(s1, VoteReply(s1.term, false, s1.id))
    else if (s1.votedFor.None? || s1.votedFor.value == m.candidate) && UpToDate(s1.log, m.lastIndex, m.lastTerm) then
      Answer(ResetDeadline(s1.(votedFor := Some(m.candidate)), now, draw), VoteReply(s1.term, true, s1.id))
    else
      Answer(s1, VoteReply(s1.term, false, s1.id))
  }

  /** The node once it has recognised the sender as the leader of its current term. */
  function Recognise(s: Node, leader: NodeId, now: real, draw: real): Node {
    ResetDeadline(s.(role := Follower, leaderId := Some(leader), lastLeaderContact := Some(now)), now, draw)
  }

  /** Replaces the tail that conflicts with the leader, then commits as far as the leader has. */
  function Accept(s: Node, m: Message): Node
    requires m.AppendEntries? && m.prevIndex >= 0
  {
    var s1 := s.(log := Merge(s.log, m.prevIndex, m.entries, 0));
    if m.leaderCommit > s1.commitIndex
    then ApplyCommitted(s1.(commitIndex := Min(m.leaderCommit, |s1.log|)))
    else s1
  }

  /** The answer of a node to the leader of its own term. */
  function Follow(s: Node, m: Message): Answer
    requires m.AppendEntries? && m.prevIndex >= 0
  {
    var termAtPrev := TermAt(s.log, m.prevIndex);
    if m.prevIndex > 0 && termAtPrev == -1 then
      Answer(s, AppendReply(s.term, false, s.id, 0, |s.log| + 1, -1))
    else if m.prevIndex > 0 && termAtPrev != m.prevTerm then
      Answer(s, AppendReply(s.term, false, s.id, 0, FirstIndexOfTerm(s.log, termAtPrev, m.prevIndex), termAtPrev))
    else
      Answer(Accept(s, m), AppendReply(s.term, true, s.id, m.prevIndex + |m.entries|, 0, -1))
  }

  function HandleAppendEntries(s: Node, m: Message, now: real, draw: real): Answer
    requires m.AppendEntries? && m.prevIndex >= 0
  {
    var s1 := Adopt(s, m.term, now, draw);
    if m.term < s1.term then Answer(s1, AppendReply(s1.term, false, s1.id, 0, 0, -1))
    else Follow(Recognise(s1, m.leader, now, draw), m)
  }

  // ---- reply handlers ----

  function HandlePreVoteReply(s: Node, m: Message, now: real, draw: real): Out
    requires m.PreVoteReply?
  {
    if m.term > s.term then Out(BecomeFollower(s, m.term, now, draw), [])
    else if s.role != Follower || s.prevoteTarget != s.term + 1 || !m.granted then Out(s, [])
    else MaybeWinPrevote(s.(prevotes := s.prevotes + {m.voter}), now, draw)
  }

  function HandleVoteReply(s: Node, m: Message, now: real, draw: real): Out
    requires m.VoteReply?
  {
    if m.term > s.term then Out(BecomeFollower(s, m.term, now, draw), [])
    else if s.role != Candidate || m.term != s.term || !m.granted then Out(s, [])
    else MaybeBecomeLeader(s.(votes := s.votes + {m.voter}), now)
  }

  function RecordMatch(s: Node, peer: NodeId, matchIndex: int): Node {
    var match' := if matchIndex > Get(s.matchIndex, peer, 0) then s.matchIndex[peer := matchIndex] else s.matchIndex;
    s.(matchIndex := match', nextIndex := s.nextIndex[peer := Get(match', peer, 0) + 1])
  }

  /** Where replication to a peer resumes after it rejected an AppendEntries. */
  function Backtrack(log: Log, conflictIndex: int, conflictTerm: int): int {
    if conflictTerm != -1 then
      var last := LastIndexOfTerm(log, conflictTerm, |log|);
      if last > 0 then last + 1 else conflictIndex
    else Max(1, conflictIndex)
  }

  function HandleAppendReply(s: Node, sender: NodeId, m: Message, now: real, draw: real): Out
    requires m.AppendReply?
  {
    if m.term > s.term then Out(BecomeFollower(s, m.term, now, draw), [])
    else if s.role != Leader || m.term != s.term then Out(s, [])
    else if m.success then Out(AdvanceCommitIndex(RecordMatch(s, sender, m.matchIndex)), [])
    else
      var s' := s.(nextIndex := s.nextIndex[sender := Backtrack(s.log, m.conflictIndex, m.conflictTerm)]);
      Out(s', [AppendTo(s', sender)])
  }

  // ---- the node's entry points ----

  /** `truncate_from` refuses index 0, so the handler expects a real previous index. */
  predicate Receivable(m: Message) {
    m.AppendEntries? ==> m.prevIndex >= 0
  }

  function Receive(s: Node, e: Envelope, now: real, draw: real): Out
    requires Receivable(e.message)
  {
    match e.message
    case PreVote(_, _, _, _) => Out(s, [Envelope(s.id, e.sender, HandlePreVote(s, e.message, now))])
    case RequestVote(_, _, _, _) =>
      var a := HandleRequestVote(s, e.message, now, draw);
      Out(a.node, [Envelope(s.id, e.sender, a.reply)])
    case AppendEntries(_, _, _, _, _, _) =>
      var a := HandleAppendEntries(s, e.message, now, draw);
      Out(a.node, [Envelope(s.id, e.sender, a.reply)])
    case PreVoteReply(_, _, _) => HandlePreVoteReply(s, e.message, now, draw)
    case VoteReply(_, _, _) => HandleVoteReply(s, e.message, now, draw)
    case AppendReply(_, _, _, _, _, _) => HandleAppendReply(s, e.sender, e.message, now, draw)
  }

  function Tick(s: Node, now: real, draw: real): Out {
    if s.role == Leader then
      if s.heartbeatDeadline.Some? && now >= s.heartbeatDeadline.value then BroadcastAppend(s, now) else Out(s, [])
    else if now >= s.electionDeadline then StartPrevote(s, now, draw)
    else Out(s, [])
  }

  /** A fresh node over persisted storage and a surviving state machine; its election timer
      is armed before the first tick. */
  function Boot(id: NodeId, peers: seq<NodeId>, electionTimeoutMin: real, heartbeatInterval: real,
                term: nat, votedFor: Option<NodeId>, log: Log, ledger: Ledger, now: real, draw: real): Node
  {
    Node(id, peers, electionTimeoutMin, heartbeatInterval, term, votedFor, log,
         Follower, None, 0, 0, map[], map[], {}, {}, -1, now + draw, None, None, ledger)
  }

  function Restart(s: Node, now: real, draw: real): Node {
    Boot(s.id, s.peers, s.electionTimeoutMin, s.heartbeatInterval, s.term, s.votedFor, s.log, s.ledger, now, draw)
  }
}

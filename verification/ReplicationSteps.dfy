/** Replication: proposing, accepting AppendEntries, counting acknowledgements and
    committing keep every invariant. */
module RaftReplicationSteps {
  import opened Wrappers
  import opened LedgerModel
  import opened RaftTypes
  import opened RaftLog
  import opened RaftStep
  import opened RaftHistory
  import opened RaftHistoryGrowth
  import opened RaftQuorums
  import opened RaftActions
  import opened RaftApply
  import opened RaftCommitRule
  import opened RaftElectionSteps

  // ---- merging the leader's entries ----

  /** Two logs that share an index and a term agree up to it. */
  ghost predicate Matching(a: Log, b: Log) {
    forall i :: 0 <= i < |a| && i < |b| && a[i].term == b[i].term ==> Agree(a, b, i + 1)
  }

  /** Merging a slice of the leader's log into a log that matches it: the result agrees with
      the leader through the slice, and loses nothing that already agreed. */
  lemma {:induction false} MergeFollowsLeader(log: Log, leader: Log, prev: nat, entries: Log, offset: nat)
    requires offset <= |entries| && prev + |entries| <= |leader| && entries == leader[prev..prev + |entries|]
    requires Agree(log, leader, prev + offset) && Matching(log, leader)
    ensures var r := Merge(log, prev, entries, offset);
            && Agree(r, leader, prev + |entries|)
            && (r == log || r == leader[..prev + |entries|])
            && forall n :: Agree(log, leader, n) ==> Agree(r, leader, n)
    decreases |entries| - offset
  {
    if offset < |entries| {
      var index := prev + offset;
      assert entries[offset] == leader[index];
      if TermAt(log, index + 1) == entries[offset].term {
        assert Agree(log, leader, index + 1);
        MergeFollowsLeader(log, leader, prev, entries, offset + 1);
      } else {
        assert log[..index] == leader[..index];
        assert log[..index] + entries[offset..] == leader[..prev + |entries|];
      }
    }
  }

  lemma BackedLogsMatch(h: History, a: Log, b: Log)
    requires Backed(h, a) && Backed(h, b)
    ensures Matching(a, b)
  {
    forall i | 0 <= i < |a| && i < |b| && a[i].term == b[i].term ensures Agree(a, b, i + 1) {
      LogsMatch(h, a, b, i);
    }
  }

  lemma PrefixIsGood(h: History, log: Log, n: nat, maxTerm: int)
    requires GoodLog(h, log, maxTerm) && n <= |log|
    ensures GoodLog(h, log[..n], maxTerm)
  {
    var p := log[..n];
    forall i | 0 <= i < n ensures BackedAt(h, p, i) {
      assert BackedAt(h, log, i);
    }
  }

  // ---- accepting ----

  /** The follower's log after an accepted AppendEntries is good, and keeps every agreement
      it had with the leader. */
  lemma AcceptedLog(h: History, s: Node, e: Envelope)
    requires HistoryInv(h) && GoodLog(h, s.log, s.term) && e.message.AppendEntries? && AppendInv(h, e)
    requires e.message.term == s.term
    requires e.message.prevIndex > 0 ==> TermAt(s.log, e.message.prevIndex) == e.message.prevTerm
    ensures var m := e.message;
            var leader, r := h.llog[m.term], Merge(s.log, m.prevIndex, m.entries, 0);
            && GoodLog(h, r, s.term)
            && Agree(r, leader, m.prevIndex + |m.entries|)
            && forall n :: Agree(s.log, leader, n) ==> Agree(r, leader, n)
  {
    hide HistoryShape, HistoryElections, LeadersComplete, VotesSafe, Committed, Merge;
    var m := e.message;
    var leader := h.llog[m.term];
    assert GoodLog(h, leader, m.term);
    BackedLogsMatch(h, s.log, leader);
    if m.prevIndex > 0 {
      assert s.log[m.prevIndex - 1].term == leader[m.prevIndex - 1].term;
    }
    MergeFollowsLeader(s.log, leader, m.prevIndex, m.entries, 0);
    PrefixIsGood(h, leader, m.prevIndex + |m.entries|, m.term);
  }

  /** What the node acknowledged in earlier terms outlives the merge. */
  lemma AcceptKeepsAcks(h: History, v: NodeId, log: Log, r: Log, t: nat)
    requires LeadersComplete(h) && t in h.llog && KeepsAcked(h, v, log, t)
    requires forall n :: Agree(log, h.llog[t], n) ==> Agree(r, h.llog[t], n)
    ensures KeepsAcked(h, v, r, t)
  {
    forall u: nat, n | u < t && OwnTerm(h, u, n) && n <= Acked(h, v, u) ensures Survives(h, r, u, n) {
      assert Survives(h, log, u, n);
      assert Complete(h, h.llog[t], t) && Survives(h, h.llog[t], u, n);
      if !Blocked(h, u, n) {
        assert Agree(log, h.llog[t], n);
        assert Agree(r, h.llog[t], n);
      }
    }
  }

  /** No committed entry is truncated: what is committed agrees with the leader of the
      node's current term, so the merge keeps it. */
  lemma AcceptKeepsCommitted(h: History, log: Log, r: Log, n: int, t: nat)
    requires HistoryInv(h) && t in h.llog && Committed(h, log, n, t) && 0 <= n <= |log|
    requires forall k :: Agree(log, h.llog[t], k) ==> Agree(r, h.llog[t], k)
    ensures Agree(log, h.llog[t], n) && Committed(h, r, n, t) && n <= |r| && r[..n] == log[..n]
  {
    hide HistoryInv, Certified;
    if n != 0 {
      var u: nat, m :| CommittedBy(h, log, n, t, u, m);
      CertifiedIsInLaterLogs(h, u, m, t);
      assert Agree(log, h.llog[t], n);
      assert CommittedBy(h, r, n, t, u, m);
    }
  }

  lemma CommittedTransfers(h: History, a: Log, b: Log, n: int, t: nat)
    requires Committed(h, a, n, t) && Agree(a, b, n)
    ensures Committed(h, b, n, t)
  {
    if n != 0 {
      var u: nat, m :| CommittedBy(h, a, n, t, u, m);
      assert CommittedBy(h, b, n, t, u, m);
    }
  }

  /** The stored part of an accepting follower: the min(leaderCommit, last index) rule never
      goes past the slice that was just verified against the leader. */
  lemma AcceptStore(h: History, initial: Ledger, s: Node, e: Envelope)
    requires Ready(h, initial, s) && e.message.AppendEntries? && AppendInv(h, e) && e.message.term == s.term
    requires e.message.prevIndex > 0 ==> TermAt(s.log, e.message.prevIndex) == e.message.prevTerm
    ensures NodeStore(h, initial, Accept(s, e.message))
    ensures Accept(s, e.message).commitIndex == Max(s.commitIndex, e.message.leaderCommit)
  {
    hide HistoryInv, Merge, GoodLog, Committed, NodeLedger, NodeRole, NodeVotes, NodeAcks, Fold;
    var m := e.message;
    var r := Merge(s.log, m.prevIndex, m.entries, 0);
    AcceptedLog(h, s, e);
    AcceptKeepsCommitted(h, s.log, r, s.commitIndex, s.term);
    var s1 := s.(log := r);
    SameLedger(h, initial, s, s1);
    if m.leaderCommit > s.commitIndex {
      CommittedTransfers(h, h.llog[s.term], r, m.leaderCommit, s.term);
      ApplyKeepsStore(h, initial, s1, m.leaderCommit);
    }
  }

  lemma SameLedger(h: History, initial: Ledger, s: Node, s': Node)
    requires NodeLedger(h, initial, s) && s'.ledger == s.ledger && s'.lastApplied == s.lastApplied
    ensures NodeLedger(h, initial, s')
  {
    var t: nat, m, k :| LedgerAt(h, initial, s, t, m, k);
    assert LedgerAt(h, initial, s', t, m, k);
  }

  lemma AcceptStep(h: History, initial: Ledger, s: Node, e: Envelope) returns (h': History)
    requires Ready(h, initial, s) && e.message.AppendEntries? && AppendInv(h, e) && e.message.term == s.term
    requires s.role == Follower
    requires e.message.prevIndex > 0 ==> TermAt(s.log, e.message.prevIndex) == e.message.prevTerm
    ensures StepOk(h, h', initial, s, Out(Accept(s, e.message), []))
    ensures e.message.prevIndex + |e.message.entries| <= Acked(h', s.id, s.term)
    ensures s.term in h'.llog && s.id in h'.term && h'.term[s.id] == s.term
  {
    hide HistoryInv, Grows, NodeStore, NodeAcks, Merge, Fold;
    var m := e.message;
    var n := m.prevIndex + |m.entries|;
    var s' := Accept(s, m);
    h' := Acknowledge(h, s.id, s.term, n);
    Acknowledging(h, s.id, n);
    AcceptStore(h, initial, s, e);
    StoreGrows(h, h', initial, s', s');
    AcceptAcks(h, h', initial, s, e);
    GrowsKeepsMembers(h, h', s.id);
  }

  lemma AcceptAcks(h: History, h': History, initial: Ledger, s: Node, e: Envelope)
    requires Ready(h, initial, s) && e.message.AppendEntries? && AppendInv(h, e) && e.message.term == s.term
    requires e.message.prevIndex > 0 ==> TermAt(s.log, e.message.prevIndex) == e.message.prevTerm
    requires h' == Acknowledge(h, s.id, s.term, e.message.prevIndex + |e.message.entries|) && Grows(h, h')
    ensures NodeAcks(h', Accept(s, e.message))
  {
    hide HistoryShape, HistoryLogs, HistoryElections, LeadersComplete, VotesSafe, GoodLog, Committed;
    hide NodeLedger, NodeRole, NodeVotes, Merge;
    var m := e.message;
    var r := Merge(s.log, m.prevIndex, m.entries, 0);
    AcceptedLog(h, s, e);
    AcceptKeepsAcks(h, s.id, s.log, r, s.term);
    KeepsAckedGrows(h, h', s.id, r, s.term);
    assert Accept(s, m).log == r;
  }

  /** Where a rejection points is inside the leader's log. */
  lemma ConflictBounds(log: Log, term: int, index: int)
    requires 0 <= index
    ensures 1 <= FirstIndexOfTerm(log, term, index) <= index + 1
    ensures index > 0 && TermAt(log, index) == term ==> FirstIndexOfTerm(log, term, index) <= index
    decreases index
  {
    if index > 0 && TermAt(log, index) == term {
      ConflictBounds(log, term, index - 1);
    }
  }

  lemma RejectionOk(h: History, initial: Ledger, s: Node, e: Envelope)
    requires NodeInv(h, initial, s) && e.message.AppendEntries? && MessageInv(h, e) && e.recipient == s.id
    requires e.message.term == s.term && !Follow(s, e.message).reply.success
    ensures Follow(s, e.message).node == s && MessageInv(h, Envelope(s.id, e.sender, Follow(s, e.message).reply))
  {
    hide NodeStore, NodeAcks, NodeRole, NodeVotes, FirstIndexOfTerm, Accept;
    var at := TermAt(s.log, e.message.prevIndex);
    if at != -1 {
      ConflictBounds(s.log, at, e.message.prevIndex);
    }
  }

  lemma FollowStep(h: History, initial: Ledger, s: Node, e: Envelope) returns (h': History)
    requires Ready(h, initial, s) && e.message.AppendEntries? && MessageInv(h, e) && e.recipient == s.id
    requires s.role == Follower && e.message.term == s.term
    ensures StepOk(h, h', initial, s, Out(Follow(s, e.message).node,
                                          [Envelope(s.id, e.sender, Follow(s, e.message).reply)]))
  {
    hide HistoryInv, GrowsBy, Configured, NodeStore, NodeAcks, NodeRole, NodeVotes, Accept, FirstIndexOfTerm;
    var a := Follow(s, e.message);
    if a.reply.success {
      h' := AcceptStep(h, initial, s, e);
      GrowsKeepsMembers(h, h', s.id);
      assert AppendReplyInv(h', Envelope(s.id, e.sender, a.reply));
    } else {
      h' := h;
      Relabel(h, initial, s, s);
      RejectionOk(h, initial, s, e);
    }
  }

  lemma AppendEntriesStep(h: History, initial: Ledger, s: Node, e: Envelope, now: real, draw: real)
    returns (h': History)
    requires Ready(h, initial, s) && e.message.AppendEntries? && MessageInv(h, e) && e.recipient == s.id
    ensures StepOk(h, h', initial, s, Receive(s, e, now, draw))
  {
    hide HistoryInv, Grows, NodeStore, NodeAcks, NodeRole, NodeVotes, Follow, AppendInv;
    var m := e.message;
    var s1 := Adopt(s, m.term, now, draw);
    var h1 := Adopting(h, initial, s, m.term, now, draw);
    MessageGrows(h, h1, e);
    if m.term < s1.term {
      h' := h1;
      assert MessageInv(h', Envelope(s.id, e.sender, AppendReply(s1.term, false, s1.id, 0, 0, -1)));
    } else {
      var s2 := Recognise(s1, m.leader, now, draw);
      Relabel(h1, initial, s1, s2);
      h' := FollowStep(h1, initial, s2, e);
      GrowsByTransitive(h, h1, h', s.id);
    }
  }

  // ---- proposing ----

  lemma ProposedNode(h: History, h': History, initial: Ledger, s: Node, e: LogEntry)
    requires Ready(h, initial, s) && s.role == Leader
    requires e.term == s.term && e.index == |s.log| + 1
    requires h' == Write(h, s.id, s.term, s.log + [e]) && GrowsBy(h, h', s.id)
    ensures NodeInv(h', initial, s.(log := s.log + [e]))
  {
    hide HistoryLogs, HistoryElections, LeadersComplete, VotesSafe, Grows, NodeStore, NodeAcks;
    var s' := s.(log := s.log + [e]);
    ProposedStore(h, h', initial, s, e);
    ProposedAcks(h, h', initial, s, e);
    AckedUpdate(h, h', s.id, s.term, |s'.log|);
    assert LeaderInv(h', s');
  }

  lemma ProposedStore(h: History, h': History, initial: Ledger, s: Node, e: LogEntry)
    requires NodeInv(h, initial, s) && s.role == Leader
    requires e.term == s.term && e.index == |s.log| + 1
    requires h' == Write(h, s.id, s.term, s.log + [e]) && Grows(h, h')
    ensures NodeStore(h', initial, s.(log := s.log + [e]))
  {
    var s' := s.(log := s.log + [e]);
    WrittenLogIsGood(h, h', s, e);
    CommittedGrows(h, h', s.log, s.commitIndex, s.term);
    CommittedTransfers(h', s.log, s'.log, s.commitIndex, s.term);
    LedgerGrows(h, h', initial, s);
    SameLedger(h', initial, s, s');
  }

  lemma ProposedAcks(h: History, h': History, initial: Ledger, s: Node, e: LogEntry)
    requires HistoryShape(h) && NodeInv(h, initial, s) && s.role == Leader
    requires h' == Write(h, s.id, s.term, s.log + [e]) && Grows(h, h')
    ensures NodeAcks(h', s.(log := s.log + [e]))
  {
    var log := s.log + [e];
    KeepsAckedGrows(h, h', s.id, s.log, s.term);
    forall t: nat, n | t < s.term && OwnTerm(h', t, n) && n <= Acked(h', s.id, t) ensures Survives(h', log, t, n) {
      assert Survives(h', s.log, t, n);
    }
    assert Acked(h', s.id, s.term) == |log|;
  }

  lemma ProposeStep(h: History, initial: Ledger, s: Node, command: LedgerEntry, now: real) returns (h': History)
    requires Ready(h, initial, s)
    ensures StepOk(h, h', initial, s, Propose(s, command, now))
  {
    hide HistoryInv, NodeInv, GrowsBy, AllMessagesOk, Appends;
    if s.role != Leader {
      h' := h;
      Relabel(h, initial, s, s);
    } else {
      var e := LogEntry(s.term, |s.log| + 1, command);
      h' := Write(h, s.id, s.term, s.log + [e]);
      LeaderMayWrite(h, initial, s);
      Writing(h, s, e);
      ProposedNode(h, h', initial, s, e);
      BroadcastAppendStep(h', initial, s.(log := s.log + [e]), now);
    }
  }

  lemma LeaderMayWrite(h: History, initial: Ledger, s: Node)
    requires Ready(h, initial, s) && s.role == Leader
    ensures s.id in h.members && s.id in h.term && h.term[s.id] == s.term && LeaderInv(h, s)
  {
    hide HistoryInv, NodeStore, NodeAcks, NodeVotes, LeaderInv;
  }

  // ---- counting acknowledgements ----

  /** What the leader's sort picks, in its own term, a majority really holds. */
  lemma PickedIsCertified(h: History, initial: Ledger, s: Node, n: int)
    requires HistoryShape(h) && NodeInv(h, initial, s) && s.role == Leader
    requires n == MajorityMatch(s) && n > 0 && TermAt(s.log, n) == s.term
    ensures Certified(h, s.term, n)
  {
    hide HistoryShape, NodeStore, NodeAcks, NodeVotes, MajorityMatch;
    var q := Matchers(s, n);
    SortPicksMajority(s, n);
    assert q <= h.members;
    MajorityIsQuorum(h.members, s, q);
    assert AllAcked(h, q, s.term, n);
  }

  lemma RecordedMatch(h: History, initial: Ledger, s: Node, p: NodeId, n: int)
    requires HistoryShape(h) && NodeInv(h, initial, s) && s.role == Leader && p in s.peers && n <= Acked(h, p, s.term)
    ensures NodeInv(h, initial, RecordMatch(s, p, n))
  {
    hide NodeStore, NodeAcks, NodeVotes, VotesShape, CandsShape, LeadersShape, Configured;
    var s' := RecordMatch(s, p, n);
    assert p in s.matchIndex;
    assert (p, s.term) in h.acked ==> h.acked[(p, s.term)] <= |h.llog[s.term]|;
    assert s'.matchIndex.Keys == s.matchIndex.Keys && s'.nextIndex.Keys == s.nextIndex.Keys;
    assert LeaderInv(h, s');
    RelabelNode(h, initial, s, s');
  }

  lemma AdvanceStep(h: History, initial: Ledger, s: Node)
    requires Ready(h, initial, s) && s.role == Leader
    ensures NodeInv(h, initial, AdvanceCommitIndex(s))
  {
    hide HistoryLogs, HistoryElections, LeadersComplete, VotesSafe, MajorityMatch;
    var n := MajorityMatch(s);
    if n > s.commitIndex && TermAt(s.log, n) == s.term {
      PickedIsCertified(h, initial, s, n);
      assert CommittedBy(h, s.log, n, s.term, s.term, n);
      ApplyKeepsStore(h, initial, s, n);
      AdvancedNode(h, initial, s, n);
    }
  }

  lemma AdvancedNode(h: History, initial: Ledger, s: Node, n: nat)
    requires NodeInv(h, initial, s) && n <= |s.log|
    requires NodeStore(h, initial, ApplyCommitted(s.(commitIndex := n)))
    ensures NodeInv(h, initial, ApplyCommitted(s.(commitIndex := n)))
  {
    hide NodeStore;
    var s' := ApplyCommitted(s.(commitIndex := n));
    assert NodeAcks(h, s');
    assert NodeRole(h, s');
  }

  /** A backtracked next index stays within the leader's log. */
  lemma BacktrackBounds(log: Log, conflictIndex: int, conflictTerm: int)
    requires (conflictIndex == 0 && conflictTerm == -1) || 1 <= conflictIndex <= |log|
    ensures 1 <= Backtrack(log, conflictIndex, conflictTerm) <= |log| + 1
  {
    if conflictTerm != -1 {
      LastIndexBounds(log, conflictTerm, |log|);
    }
  }

  lemma {:induction false} LastIndexBounds(log: Log, term: int, index: int)
    requires index <= |log|
    ensures 0 <= LastIndexOfTerm(log, term, index) <= |log|
    decreases index
  {
    if index > 0 && TermAt(log, index) > term {
      LastIndexBounds(log, term, index - 1);
    }
  }

  lemma AppendReplyStep(h: History, initial: Ledger, s: Node, e: Envelope, now: real, draw: real) returns (h': History)
    requires Ready(h, initial, s) && e.message.AppendReply? && MessageInv(h, e) && e.recipient == s.id
    ensures StepOk(h, h', initial, s, Receive(s, e, now, draw))
  {
    hide HistoryShape, HistoryLogs, HistoryElections, LeadersComplete, VotesSafe, Grows, NodeStore, NodeAcks, NodeVotes,
         AdvanceCommitIndex, Backtrack;
    var m := e.message;
    h' := h;
    if m.term > s.term {
      h' := StepDown(h, initial, s, m.term, now, draw);
    } else if s.role != Leader || m.term != s.term {
      Relabel(h, initial, s, s);
    } else {
      assert e.sender in s.peers;
      Relabel(h, initial, s, s);
      if m.success {
        RecordedMatch(h, initial, s, e.sender, m.matchIndex);
        AdvanceStep(h, initial, RecordMatch(s, e.sender, m.matchIndex));
        AdvanceKeepsId(RecordMatch(s, e.sender, m.matchIndex));
      } else {
        RetriedNode(h, initial, s, e.sender, m.conflictIndex, m.conflictTerm);
      }
    }
  }

  lemma AdvanceKeepsId(s: Node)
    ensures AdvanceCommitIndex(s).id == s.id
  {
  }

  lemma RetriedNode(h: History, initial: Ledger, s: Node, p: NodeId, conflictIndex: int, conflictTerm: int)
    requires NodeInv(h, initial, s) && s.role == Leader && p in s.peers
    requires (conflictIndex == 0 && conflictTerm == -1) || 1 <= conflictIndex <= |s.log|
    ensures var s' := s.(nextIndex := s.nextIndex[p := Backtrack(s.log, conflictIndex, conflictTerm)]);
            NodeInv(h, initial, s') && MessageInv(h, AppendTo(s', p))
  {
    hide NodeStore, NodeAcks;
    var s' := s.(nextIndex := s.nextIndex[p := Backtrack(s.log, conflictIndex, conflictTerm)]);
    BacktrackBounds(s.log, conflictIndex, conflictTerm);
    assert s'.nextIndex.Keys == s.nextIndex.Keys;
    assert LeaderInv(h, s');
    RelabelNode(h, initial, s, s');
    AppendToOk(h, initial, s', p);
  }
}

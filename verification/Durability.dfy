/** What one step does to a node's own log and commit index: nothing committed is lost. */
module RaftDurability {
  import opened Wrappers
  import opened LedgerModel
  import opened RaftTypes
  import opened RaftLog
  import opened RaftStep
  import opened RaftHistory
  import opened RaftHistoryGrowth
  import opened RaftElectionSteps
  import opened RaftReplicationSteps
  import opened RaftCluster

  /** The step left the log alone, or the leader extended it; the term did not fall. */
  ghost predicate Kept(s: Node, s': Node) {
    && s'.id == s.id && s'.peers == s.peers && s'.term >= s.term
    && (s'.log == s.log || (s.role == Leader && s'.term == s.term && |s.log| < |s'.log| && s'.log[..|s.log|] == s.log))
  }

  lemma CandidateKeeps(s: Node, now: real, draw: real)
    ensures Kept(s, BecomeCandidate(s, now, draw).node) && BecomeCandidate(s, now, draw).node.log == s.log
    ensures BecomeCandidate(s, now, draw).node.commitIndex == s.commitIndex
    ensures BecomeCandidate(s, now, draw).node.term == s.term + 1
  {
    hide Appends, Broadcast;
  }

  lemma PrevoteKeeps(s: Node, now: real, draw: real)
    ensures Kept(s, MaybeWinPrevote(s, now, draw).node) && MaybeWinPrevote(s, now, draw).node.log == s.log
    ensures MaybeWinPrevote(s, now, draw).node.commitIndex == s.commitIndex
  {
    hide BecomeCandidate;
    CandidateKeeps(s, now, draw);
  }

  lemma ReplyKeeps(s: Node, e: Envelope, now: real, draw: real)
    requires !e.message.AppendEntries?
    ensures Kept(s, Receive(s, e, now, draw).node) && Receive(s, e, now, draw).node.commitIndex >= s.commitIndex
  {
    hide MaybeWinPrevote, MajorityMatch, Backtrack, Fold, Appends, UpToDate, RecordMatch;
    var m := e.message;
    if m.PreVoteReply? {
      PrevoteKeeps(s.(prevotes := s.prevotes + {m.voter}), now, draw);
    } else if m.AppendReply? {
      RecordKeeps(s, e.sender, m.matchIndex);
    }
  }

  lemma RecordKeeps(s: Node, p: NodeId, n: int)
    ensures var r := RecordMatch(s, p, n); r == s.(matchIndex := r.matchIndex, nextIndex := r.nextIndex)
  {
  }

  /** Only a proposal and an AppendEntries can change a log, and only a restart forgets the
      commit index. */
  lemma OtherStepsKeepLog(s: Node, ev: Event)
    requires ev.DeliverEvent? ==> Receivable(ev.e.message) && !ev.e.message.AppendEntries?
    ensures Kept(s, NodeStep(s, ev).node)
    ensures ev.RestartEvent? || NodeStep(s, ev).node.commitIndex >= s.commitIndex
  {
    hide Receive, MaybeWinPrevote, Appends, Broadcast;
    if ev.DeliverEvent? {
      ReplyKeeps(s, ev.e, ev.now, ev.draw);
    } else if ev.TickEvent? {
      PrevoteKeeps(PrevoteRound(s, ev.now, ev.draw), ev.now, ev.draw);
    }
  }

  /** Following a leader of its own term changes nothing about a node's role or tallies. */
  lemma FollowKeepsElection(s: Node, m: Message)
    requires m.AppendEntries? && m.prevIndex >= 0
    ensures var s' := Follow(s, m).node;
            && s'.id == s.id && s'.role == s.role && s'.peers == s.peers && s'.term == s.term
            && s'.electionDeadline == s.electionDeadline && s'.votes == s.votes && s'.votedFor == s.votedFor
            && s'.prevoteTarget == s.prevoteTarget && s'.prevotes == s.prevotes
  {
    hide Merge, Fold, FirstIndexOfTerm;
  }

  /** Within a term a node can only fall back to being a follower, or win as a candidate. */
  lemma RoleStep(s: Node, ev: Event)
    requires ev.DeliverEvent? ==> Receivable(ev.e.message)
    ensures var s' := NodeStep(s, ev).node;
            s'.term > s.term || (s'.term == s.term && (s'.role == s.role || s'.role == Follower || s.role == Candidate))
  {
    hide Follow, MajorityMatch, Backtrack, Fold, Appends, Broadcast, UpToDate, RecordMatch, LastTerm;
    if ev.DeliverEvent? {
      var m := ev.e.message;
      if m.AppendEntries? {
        FollowKeepsElection(Recognise(Adopt(s, m.term, ev.now, ev.draw), m.leader, ev.now, ev.draw), m);
        ReceiveIsNodeStep(s, ev);
      } else if m.AppendReply? {
        RecordKeeps(s, ev.e.sender, m.matchIndex);
      }
    }
  }

  lemma CommittedInLaterTerm(h: History, log: Log, n: int, t: nat, u: nat)
    requires Committed(h, log, n, t) && t <= u
    ensures Committed(h, log, n, u)
  {
    if n != 0 {
      var w: nat, m :| CommittedBy(h, log, n, t, w, m);
      assert CommittedBy(h, log, n, u, w, m);
    }
  }

  /** A committed prefix stays in the log of a node that takes any step, whether or not the
      node still remembers that the prefix is committed. */
  lemma StepKeepsCommittedPrefix(h: History, initial: Ledger, s: Node, ev: Event, n: nat)
    requires Ready(h, initial, s) && Actor(ev) == s.id
    requires ev.DeliverEvent? ==> MessageInv(h, ev.e) && Receivable(ev.e.message)
    requires n <= |s.log| && Committed(h, s.log, n, s.term)
    ensures var s' := NodeStep(s, ev).node;
            && n <= |s'.log| && s'.log[..n] == s.log[..n]
            && s'.term >= s.term && Committed(h, s'.log, n, s'.term)
  {
    hide HistoryInv, NodeInv, MessageInv, NodeStep, Committed;
    var s' := NodeStep(s, ev).node;
    if ev.DeliverEvent? && ev.e.message.AppendEntries? {
      AppendKeepsCommittedPrefix(h, initial, s, ev.e, ev.now, ev.draw, n);
      ReceiveIsNodeStep(s, ev);
    } else {
      OtherStepsKeepLog(s, ev);
      assert s'.log[..n] == s'.log[..|s.log|][..n] == s.log[..n];
      CommittedTransfers(h, s.log, s'.log, n, s.term);
      CommittedInLaterTerm(h, s'.log, n, s.term, s'.term);
    }
  }

  lemma ReceiveIsNodeStep(s: Node, ev: Event)
    requires ev.DeliverEvent? && ev.e.message.AppendEntries? && Receivable(ev.e.message)
    ensures NodeStep(s, ev).node == HandleAppendEntries(s, ev.e.message, ev.now, ev.draw).node
  {
  }

  lemma FollowKeepsCommittedPrefix(h: History, s: Node, e: Envelope, n: nat)
    requires HistoryInv(h) && GoodLog(h, s.log, s.term) && e.message.AppendEntries? && AppendInv(h, e)
    requires e.message.term == s.term
    requires n <= |s.log| && Committed(h, s.log, n, s.term)
    ensures var s' := Follow(s, e.message).node;
            n <= |s'.log| && s'.log[..n] == s.log[..n] && s'.term == s.term && Committed(h, s'.log, n, s.term)
  {
    hide HistoryInv, GoodLog, Merge, Fold, Committed, FirstIndexOfTerm;
    var m := e.message;
    if Follow(s, m).reply.success {
      AcceptedLog(h, s, e);
      AcceptKeepsCommitted(h, s.log, Merge(s.log, m.prevIndex, m.entries, 0), n, m.term);
    }
  }

  lemma AppendKeepsCommittedPrefix(h: History, initial: Ledger, s: Node, e: Envelope, now: real, draw: real, n: nat)
    requires Ready(h, initial, s) && e.message.AppendEntries? && MessageInv(h, e) && e.recipient == s.id
    requires n <= |s.log| && Committed(h, s.log, n, s.term)
    ensures e.message.prevIndex >= 0
    ensures var s' := HandleAppendEntries(s, e.message, now, draw).node;
            && n <= |s'.log| && s'.log[..n] == s.log[..n]
            && s'.term >= s.term && Committed(h, s'.log, n, s'.term)
  {
    hide HistoryInv, Follow, Committed, Backed, Sorted, Indexed, NodeRole, NodeVotes, NodeAcks;
    var m := e.message;
    var s1 := Adopt(s, m.term, now, draw);
    CommittedInLaterTerm(h, s.log, n, s.term, s1.term);
    if m.term == s1.term {
      FollowKeepsCommittedPrefix(h, Recognise(s1, m.leader, now, draw), e, n);
    }
  }

  /** A follower never lowers its commit index, and never raises it past what it verified. */
  lemma AppendRaisesCommit(h: History, initial: Ledger, s: Node, e: Envelope, now: real, draw: real)
    requires Ready(h, initial, s) && e.message.AppendEntries? && MessageInv(h, e) && e.recipient == s.id
    ensures e.message.prevIndex >= 0
    ensures var a := HandleAppendEntries(s, e.message, now, draw);
            a.node.commitIndex == if a.reply.success then Max(s.commitIndex, e.message.leaderCommit) else s.commitIndex
  {
    hide HistoryInv, NodeInv, GrowsBy, AllMessagesOk, Accept, FirstIndexOfTerm;
    var m := e.message;
    var s1 := Adopt(s, m.term, now, draw);
    if m.term == s1.term {
      var s2 := Recognise(s1, m.leader, now, draw);
      if Follow(s2, m).reply.success {
        var h1 := Adopting(h, initial, s, m.term, now, draw);
        GrownAppend(h, h1, s.id, e);
        Relabel(h1, initial, s1, s2);
        AcceptStore(h1, initial, s2, e);
      }
    }
  }

  lemma GrownAppend(h: History, h': History, n: NodeId, e: Envelope)
    requires GrowsBy(h, h', n) && MessageInv(h, e) && e.message.AppendEntries?
    ensures AppendInv(h', e)
  {
    MessageGrows(h, h', e);
  }
}

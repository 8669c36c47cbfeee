/** Elections: every step that changes a term, a vote or a role keeps the invariants of the
    node that takes it, of the history and of the messages it sends. */
module RaftElectionSteps {
  import opened Wrappers
  import opened LedgerModel
  import opened RaftTypes
  import opened RaftLog
  import opened RaftStep
  import opened RaftHistory
  import opened RaftHistoryGrowth
  import opened RaftQuorums
  import opened RaftActions

  ghost predicate Ready(h: History, initial: Ledger, s: Node) {
    HistoryInv(h) && NodeInv(h, initial, s)
  }

  ghost predicate AllMessagesOk(h: History, sent: seq<Envelope>) {
    forall i :: 0 <= i < |sent| ==> MessageInv(h, sent[i])
  }

  /** Node `s` took a step to `out` while the history grew from `h` to `h'`. */
  ghost predicate StepOk(h: History, h': History, initial: Ledger, s: Node, out: Out) {
    && Ready(h', initial, out.node) && GrowsBy(h, h', s.id) && out.node.id == s.id
    && AllMessagesOk(h', out.sent)
  }

  lemma StepsCompose(h: History, h1: History, h2: History, initial: Ledger, s: Node, first: Out, second: Out)
    requires StepOk(h, h1, initial, s, first) && StepOk(h1, h2, initial, first.node, second)
    ensures StepOk(h, h2, initial, s, Out(second.node, first.sent + second.sent))
  {
    GrowsByTransitive(h, h1, h2, s.id);
    forall i | 0 <= i < |first.sent| ensures MessageInv(h2, first.sent[i]) {
      MessageGrows(h1, h2, first.sent[i]);
    }
  }

  /** The fields that the invariant speaks about, apart from the role's own tallies. */
  ghost predicate SameCore(s: Node, s': Node) {
    && s'.id == s.id && s'.peers == s.peers && s'.log == s.log
    && s'.commitIndex == s.commitIndex && s'.lastApplied == s.lastApplied && s'.ledger == s.ledger
  }

  lemma SameStore(h: History, initial: Ledger, s: Node, s': Node)
    requires NodeStore(h, initial, s) && SameCore(s, s') && s'.term == s.term
    ensures NodeStore(h, initial, s')
  {
    var t: nat, m, k :| LedgerAt(h, initial, s, t, m, k);
    assert LedgerAt(h, initial, s', t, m, k);
  }

  lemma RelabelNode(h: History, initial: Ledger, s: Node, s': Node)
    requires NodeInv(h, initial, s) && SameCore(s, s') && s'.term == s.term && s'.votedFor == s.votedFor
    requires NodeRole(h, s')
    ensures NodeInv(h, initial, s')
  {
    SameStore(h, initial, s, s');
    assert NodeAcks(h, s');
  }

  /** Timers, prevote tallies and leader hints are not part of the invariant, and a node may
      always fall back to being a follower of its term. */
  lemma Relabel(h: History, initial: Ledger, s: Node, s': Node)
    requires Ready(h, initial, s) && SameCore(s, s') && s'.term == s.term && s'.votedFor == s.votedFor
    requires s'.role == Follower ||
             (s'.role == s.role && s'.votes == s.votes && s'.nextIndex == s.nextIndex && s'.matchIndex == s.matchIndex)
    ensures StepOk(h, h, initial, s, Out(s', []))
  {
    GrowsByReflexive(h, s.id);
    SameRole(h, s, s');
    RelabelNode(h, initial, s, s');
  }

  lemma SameRole(h: History, s: Node, s': Node)
    requires NodeRole(h, s) && SameCore(s, s') && s'.term == s.term && s'.votedFor == s.votedFor
    requires s'.role == Follower ||
             (s'.role == s.role && s'.votes == s.votes && s'.nextIndex == s.nextIndex && s'.matchIndex == s.matchIndex)
    ensures NodeRole(h, s')
  {
  }

  // ---- adopting a later term ----

  /** A node in a term it has just entered owes nothing to that term yet. */
  lemma EnteredTerm(h: History, h': History, initial: Ledger, s: Node, s': Node)
    requires HistoryShape(h) && NodeInv(h, initial, s) && Grows(h, h') && s.term < s'.term
    requires SameCore(s, s') && h'.llog == h.llog && h'.acked == h.acked
    ensures NodeStore(h', initial, s') && NodeAcks(h', s')
  {
    NotYet(h, s.id, s'.term);
    StoreGrows(h, h', initial, s, s');
    LeavingTerm(h, s, s'.term);
    KeepsAckedFrame(h, h', s.id, s.log, s'.term);
    assert Acked(h', s.id, s'.term) == 0;
  }

  lemma StepDown(h: History, initial: Ledger, s: Node, t: nat, now: real, draw: real) returns (h': History)
    requires Ready(h, initial, s) && t > s.term
    ensures StepOk(h, h', initial, s, Out(BecomeFollower(s, t, now, draw), []))
  {
    hide HistoryLogs, HistoryElections, LeadersComplete, VotesSafe, Grows, NodeStore, NodeAcks;
    h' := RaiseTerm(h, s.id, t);
    RaisingTerm(h, s.id, t);
    NotYet(h, s.id, t);
    EnteredTerm(h, h', initial, s, BecomeFollower(s, t, now, draw));
  }

  lemma Adopting(h: History, initial: Ledger, s: Node, t: nat, now: real, draw: real) returns (h': History)
    requires Ready(h, initial, s)
    ensures StepOk(h, h', initial, s, Out(Adopt(s, t, now, draw), []))
  {
    if t > s.term {
      h' := StepDown(h, initial, s, t, now, draw);
    } else {
      h' := h;
      Relabel(h, initial, s, s);
    }
  }

  // ---- granting a vote ----

  lemma Granting(h: History, initial: Ledger, s: Node, c: NodeId, now: real, draw: real) returns (h': History)
    requires Ready(h, initial, s) && c in h.members && (c, s.term) in h.cands
    requires s.votedFor.None? || s.votedFor.value == c
    requires UpToDate(s.log, |h.cands[(c, s.term)]|, LastTerm(h.cands[(c, s.term)]))
    ensures StepOk(h, h', initial, s, Out(ResetDeadline(s.(votedFor := Some(c)), now, draw), []))
    ensures (s.id, s.term) in h'.votes && h'.votes[(s.id, s.term)] == c
  {
    h' := CastVote(h, s.id, s.term, c);
    CastingVote(h, s, c);
    GrantedNode(h, h', initial, s, c, now, draw);
  }

  lemma GrantedNode(h: History, h': History, initial: Ledger, s: Node, c: NodeId, now: real, draw: real)
    requires HistoryShape(h) && NodeInv(h, initial, s) && h' == CastVote(h, s.id, s.term, c) && GrowsBy(h, h', s.id)
    requires s.votedFor.None? || s.votedFor.value == c
    ensures NodeInv(h', initial, ResetDeadline(s.(votedFor := Some(c)), now, draw))
  {
    var s' := ResetDeadline(s.(votedFor := Some(c)), now, draw);
    StoreGrows(h, h', initial, s, s');
    KeepsAckedFrame(h, h', s.id, s.log, s.term);
    GrantedRole(h, h', s, s', c);
    assert NodeAcks(h', s');
  }

  lemma GrantedRole(h: History, h': History, s: Node, s': Node, c: NodeId)
    requires NodeRole(h, s) && h' == CastVote(h, s.id, s.term, c) && Grows(h, h')
    requires s' == s.(votedFor := Some(c), electionDeadline := s'.electionDeadline)
    requires s.votedFor.None? || s.votedFor.value == c
    ensures NodeRole(h', s')
  {
    assert forall v, t: nat :: Acked(h', v, t) == Acked(h, v, t);
  }

  lemma RequestVoteStep(h: History, initial: Ledger, s: Node, e: Envelope, now: real, draw: real) returns (h': History)
    requires Ready(h, initial, s) && e.message.RequestVote? && MessageInv(h, e) && e.recipient == s.id
    ensures StepOk(h, h', initial, s, Receive(s, e, now, draw))
  {
    hide HistoryInv, Grows, NodeStore, NodeAcks, NodeRole, NodeVotes, Configured, UpToDate;
    var m := e.message;
    var a := HandleRequestVote(s, m, now, draw);
    var s1 := Adopt(s, m.term, now, draw);
    var h1 := Adopting(h, initial, s, m.term, now, draw);
    MessageGrows(h, h1, e);
    h' := h1;
    if m.term == s1.term && a.reply.granted {
      h' := Granting(h1, initial, s1, m.candidate, now, draw);
      GrowsByTransitive(h, h1, h', s.id);
    }
    GrowsKeepsMembers(h, h', s.id);
    assert MessageInv(h', Envelope(s.id, e.sender, a.reply));
  }

  // ---- winning ----

  /** What a leader sends: a slice of its own log that reaches to the end, and a commit index
      that the slice covers. */
  lemma AppendToOk(h: History, initial: Ledger, s: Node, p: NodeId)
    requires NodeInv(h, initial, s) && s.role == Leader && p in s.peers
    ensures MessageInv(h, AppendTo(s, p))
  {
    var e := AppendTo(s, p);
    assert p in s.nextIndex;
    var prev := s.nextIndex[p] - 1;
    assert e.message.entries == s.log[prev..];
    assert e.message.entries == h.llog[s.term][prev..prev + |e.message.entries|];
    assert AppendInv(h, e);
  }

  lemma AppendsOk(h: History, initial: Ledger, s: Node)
    requires NodeInv(h, initial, s) && s.role == Leader
    ensures AllMessagesOk(h, Appends(s))
  {
    forall i | 0 <= i < |s.peers| ensures MessageInv(h, Appends(s)[i]) {
      AppendToOk(h, initial, s, s.peers[i]);
    }
  }

  lemma BroadcastAppendStep(h: History, initial: Ledger, s: Node, now: real)
    requires Ready(h, initial, s) && s.role == Leader
    ensures StepOk(h, h, initial, s, BroadcastAppend(s, now))
  {
    var s' := BroadcastAppend(s, now).node;
    Relabel(h, initial, s, s');
    AppendsOk(h, initial, s');
  }

  lemma BecomeLeaderStep(h: History, initial: Ledger, s: Node, now: real) returns (h': History)
    requires Ready(h, initial, s) && s.role == Candidate && |s.votes| >= Majority(s)
    ensures StepOk(h, h', initial, s, BecomeLeader(s, now))
  {
    assert s.votes <= h.members by {
      forall v | v in s.votes ensures v in h.members {
        assert (v, s.term) in h.votes;
      }
    }
    MajorityIsQuorum(h.members, s, s.votes);
    assert Elected(h, s.id, s.term);
    Leading(h, s);
    h' := Lead(h, s.id, s.term, s.log);
    NewLeaderNode(h, h', initial, s, Leadership(s));
    BroadcastAppendStep(h', initial, Leadership(s), now);
  }

  lemma NewLeaderNode(h: History, h': History, initial: Ledger, s: Node, l: Node)
    requires HistoryShape(h) && NodeInv(h, initial, s) && s.role == Candidate && s.term !in h.llog
    requires h' == Lead(h, s.id, s.term, s.log) && GrowsBy(h, h', s.id)
    requires l == Leadership(s)
    ensures NodeInv(h', initial, l)
  {
    hide NodeStore, Grows, NodeAcks, HistoryShape, LeaderInv;
    StoreGrows(h, h', initial, s, l);
    NewLeaderAcks(h, h', initial, s, l);
    NewLeaderRole(h, h', s, l);
  }

  lemma NewLeaderRole(h: History, h': History, s: Node, l: Node)
    requires h' == Lead(h, s.id, s.term, s.log)
    requires l == Leadership(s)
    ensures LeaderInv(h', l)
  {
    AckedUpdate(h, h', s.id, s.term, |s.log|);
    assert l.matchIndex.Keys == (set p | p in s.peers);
    assert l.nextIndex.Keys == (set p | p in s.peers);
  }

  lemma NewLeaderAcks(h: History, h': History, initial: Ledger, s: Node, l: Node)
    requires HistoryShape(h) && NodeInv(h, initial, s) && Grows(h, h')
    requires h' == Lead(h, s.id, s.term, s.log) && l.id == s.id && l.term == s.term && l.log == s.log
    ensures NodeAcks(h', l)
  {
    hide NodeStore, NodeRole, NodeVotes, HistoryShape;
    KeepsAckedGrows(h, h', s.id, s.log, s.term);
    AckedUpdate(h, h', s.id, s.term, |s.log|);
  }

  lemma MaybeBecomeLeaderStep(h: History, initial: Ledger, s: Node, now: real) returns (h': History)
    requires Ready(h, initial, s)
    ensures StepOk(h, h', initial, s, MaybeBecomeLeader(s, now))
  {
    hide Ready, StepOk, BecomeLeader;
    if s.role == Candidate && |s.votes| >= Majority(s) {
      h' := BecomeLeaderStep(h, initial, s, now);
    } else {
      h' := h;
      Relabel(h, initial, s, s);
    }
  }

  lemma VoteReplyStep(h: History, initial: Ledger, s: Node, e: Envelope, now: real, draw: real) returns (h': History)
    requires Ready(h, initial, s) && e.message.VoteReply? && MessageInv(h, e) && e.recipient == s.id
    ensures StepOk(h, h', initial, s, Receive(s, e, now, draw))
  {
    hide HistoryLogs, HistoryElections, LeadersComplete, VotesSafe, Grows, NodeStore, NodeAcks;
    var m := e.message;
    if m.term > s.term {
      h' := StepDown(h, initial, s, m.term, now, draw);
    } else if s.role != Candidate || m.term != s.term || !m.granted {
      h' := h;
      Relabel(h, initial, s, s);
    } else {
      CountedVote(h, initial, s, m.voter);
      h' := MaybeBecomeLeaderStep(h, initial, s.(votes := s.votes + {m.voter}), now);
    }
  }

  lemma CountedVote(h: History, initial: Ledger, s: Node, v: NodeId)
    requires NodeInv(h, initial, s) && s.role == Candidate && (v, s.term) in h.votes && h.votes[(v, s.term)] == s.id
    ensures NodeInv(h, initial, s.(votes := s.votes + {v}))
  {
    var s' := s.(votes := s.votes + {v});
    assert CandidateInv(h, s');
    RelabelNode(h, initial, s, s');
  }

  // ---- standing ----

  lemma CandidacyStep(h: History, initial: Ledger, s: Node, now: real, draw: real) returns (h': History)
    requires Ready(h, initial, s)
    ensures var c := Candidacy(s, now, draw);
            StepOk(h, h', initial, s, Out(c, Broadcast(c, RequestVote(c.term, c.id, |c.log|, LastTerm(c.log)))))
  {
    hide HistoryLogs, HistoryElections, LeadersComplete, VotesSafe, Grows, GoodLog;
    hide Committed, NodeLedger, NodeAcks, NodeRole;
    h' := Stand(h, s.id, s.term + 1, s.log);
    Standing(h, s);
    var c := Candidacy(s, now, draw);
    CandidateNode(h, h', initial, s, c);
    RequestsOk(h', initial, c);
  }

  lemma RequestsOk(h: History, initial: Ledger, c: Node)
    requires NodeInv(h, initial, c) && c.role == Candidate
    ensures AllMessagesOk(h, Broadcast(c, RequestVote(c.term, c.id, |c.log|, LastTerm(c.log))))
  {
    hide NodeStore, NodeAcks;
    forall i | 0 <= i < |c.peers| ensures c.peers[i] in h.members {
      assert c.peers[i] in (set p | p in c.peers);
    }
  }

  lemma CandidateNode(h: History, h': History, initial: Ledger, s: Node, c: Node)
    requires HistoryShape(h) && NodeInv(h, initial, s) && h' == Stand(h, s.id, s.term + 1, s.log) && Grows(h, h')
    requires SameCore(s, c) && c.term == s.term + 1 && c.votedFor == Some(s.id) && c.role == Candidate
    requires c.votes == {s.id}
    ensures NodeInv(h', initial, c)
  {
    hide Grows, NodeStore, NodeAcks;
    NotYet(h, s.id, c.term);
    EnteredTerm(h, h', initial, s, c);
    assert CandidateInv(h', c);
  }

  lemma BecomeCandidateStep(h: History, initial: Ledger, s: Node, now: real, draw: real) returns (h': History)
    requires Ready(h, initial, s)
    ensures StepOk(h, h', initial, s, BecomeCandidate(s, now, draw))
  {
    hide HistoryInv, NodeInv, GrowsBy, AllMessagesOk, MaybeBecomeLeader;
    var c := Candidacy(s, now, draw);
    var requests := Broadcast(c, RequestVote(c.term, c.id, |c.log|, LastTerm(c.log)));
    var h1 := CandidacyStep(h, initial, s, now, draw);
    h' := MaybeBecomeLeaderStep(h1, initial, c, now);
    StepsCompose(h, h1, h', initial, s, Out(c, requests), MaybeBecomeLeader(c, now));
  }

  // ---- prevotes ----

  lemma MaybeWinPrevoteStep(h: History, initial: Ledger, s: Node, now: real, draw: real) returns (h': History)
    requires Ready(h, initial, s)
    ensures StepOk(h, h', initial, s, MaybeWinPrevote(s, now, draw))
  {
    hide Ready, StepOk, BecomeCandidate;
    if |s.prevotes| >= Majority(s) {
      h' := BecomeCandidateStep(h, initial, s, now, draw);
    } else {
      h' := h;
      Relabel(h, initial, s, s);
    }
  }

  lemma PrevoteRoundStep(h: History, initial: Ledger, s: Node, now: real, draw: real)
    requires Ready(h, initial, s)
    ensures var s' := PrevoteRound(s, now, draw);
            StepOk(h, h, initial, s, Out(s', Broadcast(s', PreVote(s'.term + 1, s'.id, |s'.log|, LastTerm(s'.log)))))
  {
    var s' := PrevoteRound(s, now, draw);
    var m := PreVote(s'.term + 1, s'.id, |s'.log|, LastTerm(s'.log));
    Relabel(h, initial, s, s');
    forall i | 0 <= i < |s.peers| ensures MessageInv(h, Broadcast(s', m)[i]) {
      assert s.peers[i] in (set p | p in s.peers);
    }
  }

  lemma StartPrevoteStep(h: History, initial: Ledger, s: Node, now: real, draw: real) returns (h': History)
    requires Ready(h, initial, s)
    ensures StepOk(h, h', initial, s, StartPrevote(s, now, draw))
  {
    hide NodeInv, HistoryInv, AllMessagesOk, GrowsBy;
    var s' := PrevoteRound(s, now, draw);
    var asks := Broadcast(s', PreVote(s'.term + 1, s'.id, |s'.log|, LastTerm(s'.log)));
    PrevoteRoundStep(h, initial, s, now, draw);
    h' := MaybeWinPrevoteStep(h, initial, s', now, draw);
    StepsCompose(h, h, h', initial, s, Out(s', asks), MaybeWinPrevote(s', now, draw));
  }

  lemma PreVoteReplyStep(h: History, initial: Ledger, s: Node, e: Envelope, now: real, draw: real) returns (h': History)
    requires Ready(h, initial, s) && e.message.PreVoteReply?
    ensures StepOk(h, h', initial, s, Receive(s, e, now, draw))
  {
    hide HistoryInv, NodeInv, GrowsBy, AllMessagesOk, MaybeWinPrevote;
    var m := e.message;
    if m.term > s.term {
      h' := StepDown(h, initial, s, m.term, now, draw);
    } else if s.role != Follower || s.prevoteTarget != s.term + 1 || !m.granted {
      h' := h;
      Relabel(h, initial, s, s);
    } else {
      var s1 := s.(prevotes := s.prevotes + {m.voter});
      Relabel(h, initial, s, s1);
      h' := MaybeWinPrevoteStep(h, initial, s1, now, draw);
    }
  }

  lemma PreVoteStep(h: History, initial: Ledger, s: Node, e: Envelope, now: real, draw: real)
    requires Ready(h, initial, s) && e.message.PreVote? && MessageInv(h, e) && e.recipient == s.id
    ensures StepOk(h, h, initial, s, Receive(s, e, now, draw))
  {
    Relabel(h, initial, s, s);
  }
}

/** PreVote: a minority that hears only from itself cannot drive its terms up, however long
    it stays cut off and however often its nodes time out or restart. */
module RaftPreVoteContainment {
  import opened LedgerModel
  import opened RaftTypes
  import opened RaftLog
  import opened RaftStep
  import opened RaftHistory
  import opened RaftQuorums
  import opened RaftCluster
  import opened RaftDurability
  import opened RaftRunTheorems

  /** No grant from outside `group` is counted in an open prevote round. */
  ghost predicate OnlyInsideGrants(group: set<NodeId>, s: Node) {
    s.prevoteTarget == s.term + 1 ==> s.prevotes <= group
  }

  ghost predicate Contained(group: set<NodeId>, bound: nat, s: Node) {
    s.term <= bound && s.prevoteTarget <= s.term + 1 && OnlyInsideGrants(group, s)
  }

  /** A prevote tally within the group is never a majority. */
  lemma CannotWin(group: set<NodeId>, bound: nat, s: Node, now: real, draw: real)
    requires Contained(group, bound, s) && s.prevotes <= group && |group| < Majority(s)
    ensures MaybeWinPrevote(s, now, draw) == Out(s, [])
  {
    hide BecomeCandidate;
    SubsetSize(s.prevotes, group);
  }

  lemma InsideMessageContained(group: set<NodeId>, bound: nat, s: Node, e: Envelope, now: real, draw: real)
    requires Contained(group, bound, s) && |group| < Majority(s) && Receivable(e.message)
    requires e.message.PreVote? || e.message.term <= bound
    requires e.message.PreVoteReply? ==> e.message.voter in group
    ensures Contained(group, bound, Receive(s, e, now, draw).node)
  {
    hide MaybeWinPrevote, Follow, MajorityMatch, Fold, Backtrack, Appends, UpToDate;
    var m := e.message;
    if m.PreVoteReply? {
      if m.term <= s.term && s.role == Follower && s.prevoteTarget == s.term + 1 && m.granted {
        CannotWin(group, bound, s.(prevotes := s.prevotes + {m.voter}), now, draw);
      }
    } else if m.AppendEntries? {
      FollowKeepsElection(Recognise(Adopt(s, m.term, now, draw), m.leader, now, draw), m);
    }
  }

  lemma StepContained(group: set<NodeId>, bound: nat, s: Node, ev: Event)
    requires Contained(group, bound, s) && |group| < Majority(s) && s.id in group
    requires ev.DeliverEvent? ==>
               && Receivable(ev.e.message)
               && (ev.e.message.PreVote? || ev.e.message.term <= bound)
               && (ev.e.message.PreVoteReply? ==> ev.e.message.voter in group)
    ensures Contained(group, bound, NodeStep(s, ev).node)
  {
    hide Receive, MaybeWinPrevote, Appends, Broadcast;
    if ev.DeliverEvent? {
      InsideMessageContained(group, bound, s, ev.e, ev.now, ev.draw);
    } else if ev.TickEvent? && s.role != Leader && ev.now >= s.electionDeadline {
      CannotWin(group, bound, PrevoteRound(s, ev.now, ev.draw), ev.now, ev.draw);
    }
  }

  /** A node never targets more than the term after its own. */
  lemma TargetStep(s: Node, ev: Event)
    requires s.prevoteTarget <= s.term + 1 && (ev.DeliverEvent? ==> Receivable(ev.e.message))
    ensures NodeStep(s, ev).node.prevoteTarget <= NodeStep(s, ev).node.term + 1
  {
    hide Follow, MajorityMatch, Fold, Backtrack, Appends, Broadcast, UpToDate, RecordMatch;
    if ev.DeliverEvent? {
      var m := ev.e.message;
      if m.AppendEntries? {
        FollowKeepsElection(Recognise(Adopt(s, m.term, ev.now, ev.draw), m.leader, ev.now, ev.draw), m);
      } else if m.AppendReply? {
        RecordKeeps(s, ev.e.sender, m.matchIndex);
      }
    }
  }

  lemma {:induction false} TargetBound(initial: Ledger, cs: seq<Cluster>, evs: seq<Event>, i: nat, n: NodeId)
    requires IsRun(initial, cs, evs) && i < |cs| && n in cs[i].nodes
    ensures cs[i].nodes[n].prevoteTarget <= cs[i].nodes[n].term + 1
  {
    hide NodeStep;
    if i > 0 {
      TargetBound(initial, cs, evs, i - 1, n);
      if Actor(evs[i - 1]) == n {
        TargetStep(cs[i - 1].nodes[n], evs[i - 1]);
      }
    }
  }

  /** Every message but a PreVote request carries a term its sender has reached, and a
      PreVote grant carries its sender's name. */
  lemma MessageFromInside(h: History, initial: Ledger, c: Cluster, e: Envelope)
    requires ClusterInv(h, initial, c) && e in c.sent
    ensures e.sender in c.nodes && e.recipient in c.nodes
    ensures e.message.PreVote? || e.message.term <= c.nodes[e.sender].term
    ensures e.message.PreVoteReply? ==> e.message.voter == e.sender
  {
    hide HistoryLogs, HistoryElections, LeadersComplete, VotesSafe, NodeStore, NodeVotes, NodeRole, NodeAcks, Committed;
    NodeAt(h, initial, c, e.sender);
    var m := e.message;
    assert m.RequestVote? ==> (m.candidate, m.term) in h.cands;
  }

  /** From state `start` on, members of `group` take only messages sent within the group. */
  ghost predicate Isolated(cs: seq<Cluster>, evs: seq<Event>, group: set<NodeId>, start: nat) {
    forall k :: start <= k < |evs| && evs[k].DeliverEvent? && evs[k].e.recipient in group ==> evs[k].e.sender in group
  }

  /** PreVote containment: in a group smaller than a majority that counts no outside grants
      and hears only from itself, no term ever exceeds the largest term it started with. */
  lemma {:induction false} PreVoteContainment(initial: Ledger, cs: seq<Cluster>, evs: seq<Event>, group: set<NodeId>,
                                              bound: nat, start: nat, i: nat)
    requires IsRun(initial, cs, evs) && start <= i < |cs| && group <= cs[start].nodes.Keys
    requires |group| < |cs[start].nodes| / 2 + 1
    requires Isolated(cs, evs, group, start)
    requires forall n :: n in group ==> cs[start].nodes[n].term <= bound && OnlyInsideGrants(group, cs[start].nodes[n])
    ensures group <= cs[i].nodes.Keys
    ensures forall n :: n in group ==> cs[start].nodes[n].term <= cs[i].nodes[n].term <= bound
  {
    hide ClusterInv, Grows, HistoryInv, NodeInv, Initial, NodeStep, Contained;
    var hs := RunHistory(initial, cs, evs);
    forall n | n in group ensures Contained(group, bound, cs[start].nodes[n]) {
      TargetBound(initial, cs, evs, start, n);
      StartContained(group, bound, cs[start].nodes[n]);
    }
    var k := start;
    while k < i
      invariant start <= k <= i && cs[k].nodes.Keys == cs[start].nodes.Keys
      invariant forall n :: n in group ==>
                  Contained(group, bound, cs[k].nodes[n]) && cs[start].nodes[n].term <= cs[k].nodes[n].term
    {
      var ev := evs[k];
      if Actor(ev) in group {
        NodeAt(hs[k], initial, cs[k], Actor(ev));
        ContainedStep(hs[k], initial, cs[k], ev, group, bound);
      }
      k := k + 1;
    }
    forall n | n in group ensures cs[i].nodes[n].term <= bound {
      EndContained(group, bound, cs[i].nodes[n]);
    }
  }

  lemma StartContained(group: set<NodeId>, bound: nat, s: Node)
    requires s.term <= bound && OnlyInsideGrants(group, s) && s.prevoteTarget <= s.term + 1
    ensures Contained(group, bound, s)
  {
  }

  lemma EndContained(group: set<NodeId>, bound: nat, s: Node)
    requires Contained(group, bound, s)
    ensures s.term <= bound
  {
  }

  lemma ContainedStep(h: History, initial: Ledger, c: Cluster, ev: Event, group: set<NodeId>, bound: nat)
    requires ClusterInv(h, initial, c) && Enabled(c, ev) && Actor(ev) in group && group <= c.nodes.Keys
    requires |group| < |c.nodes| / 2 + 1
    requires ev.DeliverEvent? ==> ev.e.sender in group
    requires forall n :: n in group ==> Contained(group, bound, c.nodes[n])
    ensures Contained(group, bound, NodeStep(c.nodes[Actor(ev)], ev).node)
    ensures c.nodes[Actor(ev)].term <= NodeStep(c.nodes[Actor(ev)], ev).node.term
  {
    hide HistoryInv, NodeStore, NodeRole, NodeAcks, NodeVotes, NetworkInv, NodeStep, OnlyInsideGrants;
    var s := c.nodes[Actor(ev)];
    NodeAt(h, initial, c, Actor(ev));
    MajorityIsQuorum(h.members, s, {});
    assert |c.nodes| == |c.nodes.Keys|;
    if ev.DeliverEvent? {
      MessageFromInside(h, initial, c, ev.e);
    }
    StepContained(group, bound, s, ev);
    TermNeverFalls(s, ev);
  }

  lemma TermNeverFalls(s: Node, ev: Event)
    requires ev.DeliverEvent? ==> Receivable(ev.e.message)
    ensures NodeStep(s, ev).node.term >= s.term
  {
    hide Follow, Kept;
    if ev.DeliverEvent? && ev.e.message.AppendEntries? {
      var m := ev.e.message;
      FollowKeepsElection(Recognise(Adopt(s, m.term, ev.now, ev.draw), m.leader, ev.now, ev.draw), m);
      ReceiveIsNodeStep(s, ev);
    } else {
      OtherTermNeverFalls(s, ev);
    }
  }

  lemma OtherTermNeverFalls(s: Node, ev: Event)
    requires ev.DeliverEvent? ==> Receivable(ev.e.message) && !ev.e.message.AppendEntries?
    ensures NodeStep(s, ev).node.term >= s.term
  {
    hide NodeStep;
    OtherStepsKeepLog(s, ev);
  }

  // ---- what a prevote asks, and what it does not prevent ----

  /** A prevote is a rehearsal: for a later term it is granted exactly when no leader counts
      as active and the real vote would be granted; asking changes nothing. */
  lemma PreVoteForeseesVote(s: Node, term: nat, candidate: NodeId, lastIndex: int, lastTerm: int, now: real, draw: real)
    ensures var ask := PreVote(term, candidate, lastIndex, lastTerm);
            var run := RequestVote(term, candidate, lastIndex, lastTerm);
            && (term > s.term ==> (HandlePreVote(s, ask, now).granted <==>
                                   !LeaderActive(s, now) && HandleRequestVote(s, run, now, draw).reply.granted))
            && (term <= s.term ==> !HandlePreVote(s, ask, now).granted)
            && Receive(s, Envelope(candidate, s.id, ask), now, draw).node == s
  {
  }

  predicate RoundOpen(s: Node) {
    s.role == Follower && s.prevoteTarget == s.term + 1
  }

  /** Hearing from a leader ends an open prevote round exactly when that leader's term is
      newer: after an AppendEntries of its own term the node still counts grants, and a
      majority of them still makes it stand against the leader it has just heard. */
  lemma OnlyNewerTermEndsRound(s: Node, m: Message, grant: Message, now: real, later: real, draw: real)
    requires RoundOpen(s) && m.AppendEntries? && m.prevIndex >= 0
    requires grant.PreVoteReply? && grant.granted && grant.term <= s.term
    ensures var s' := HandleAppendEntries(s, m, now, draw).node;
            && (RoundOpen(s') <==> m.term <= s.term)
            && (m.term <= s.term ==>
                 (HandlePreVoteReply(s', grant, later, draw).node.term == s.term + 1 <==>
                  |s.prevotes + {grant.voter}| >= Majority(s)))
  {
    hide Follow, BecomeCandidate;
    var s1 := Adopt(s, m.term, now, draw);
    if m.term == s1.term {
      FollowKeepsElection(Recognise(s1, m.leader, now, draw), m);
    }
    var s' := HandleAppendEntries(s, m, now, draw).node;
    CandidateKeeps(s'.(prevotes := s'.prevotes + {grant.voter}), later, draw);
  }

  /** While a node leads, nothing refreshes its own record of leader contact: it only ages. */
  lemma LeaderContactOnlyAges(s: Node, ev: Event)
    requires s.role == Leader && (ev.DeliverEvent? ==> Receivable(ev.e.message)) && NodeStep(s, ev).node.role == Leader
    ensures NodeStep(s, ev).node.lastLeaderContact == s.lastLeaderContact
  {
    hide MajorityMatch, Backtrack, Fold, Appends, UpToDate, Follow, RecordMatch;
    if ev.DeliverEvent? && ev.e.message.AppendEntries? {
      LeaderFollows(s, ev.e.message, ev.now, ev.draw);
      ReceiveIsNodeStep(s, ev);
    } else if ev.DeliverEvent? && ev.e.message.AppendReply? {
      RecordKeeps(s, ev.e.sender, ev.e.message.matchIndex);
    }
  }
}

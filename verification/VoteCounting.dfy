/** Elections over whole runs: which votes a candidate has counted, and exactly when it becomes
    leader. */
module RaftVoteCounting {
  import opened LedgerModel
  import opened RaftTypes
  import opened RaftLog
  import opened RaftStep
  import opened RaftQuorums
  import opened RaftCluster
  import opened RaftDurability
  import opened RaftLeadership
  import opened RaftPreVoteRounds

  // ---- a candidacy ----

  /** Step `i` made `n` a candidate of a new term. */
  ghost predicate Stood(cs: seq<Cluster>, evs: seq<Event>, n: NodeId, i: nat) {
    && i < |evs| && |cs| == |evs| + 1 && n in cs[i].nodes && n in cs[i + 1].nodes
    && cs[i + 1].nodes[n].term > cs[i].nodes[n].term && cs[i + 1].nodes[n].role == Candidate
  }

  /** The candidacy that began with step `i` still lasts in state `j`. */
  ghost predicate CandidateSince(cs: seq<Cluster>, evs: seq<Event>, n: NodeId, i: nat, j: nat) {
    && i < j < |cs| && Stood(cs, evs, n, i)
    && forall k :: i < k <= j ==>
         n in cs[k].nodes && cs[k].nodes[n].role == Candidate && cs[k].nodes[n].term == cs[i + 1].nodes[n].term
  }

  /** A vote for `n` in term `t` reaches it. */
  predicate VoteFor(ev: Event, n: NodeId, t: nat) {
    && ev.DeliverEvent? && ev.e.recipient == n && ev.e.message.VoteReply?
    && ev.e.message.granted && ev.e.message.term == t
  }

  /** The candidate itself and the voters of the votes delivered to it after step `i`, before
      state `j`. */
  function VoteTally(evs: seq<Event>, n: NodeId, t: nat, i: nat, j: nat): set<NodeId>
    requires j <= |evs|
  {
    if j <= i + 1 then {n}
    else VoteTally(evs, n, t, i, j - 1) + (if VoteFor(evs[j - 1], n, t) then {evs[j - 1].e.message.voter} else {})
  }

  // ---- what one step does to a candidacy ----

  ghost predicate Counting(s: Node) {
    s.role == Candidate && s.id in s.votes && |s.votes| < Majority(s)
  }

  lemma CandidateStep(s: Node, ev: Event)
    requires Counting(s) && Actor(ev) == s.id && (ev.DeliverEvent? ==> Receivable(ev.e.message))
    ensures var s' := NodeStep(s, ev).node;
            var tally := s.votes + (if VoteFor(ev, s.id, s.term) then {ev.e.message.voter} else {});
            && s'.peers == s.peers
            && (s'.role == Leader <==> |tally| >= Majority(s))
            && (s'.role == Leader ==> s'.term == s.term)
            && (s'.role == Candidate ==> s'.term == s.term && Counting(s') && s'.votes == tally)
  {
    hide Follow, MajorityMatch, Backtrack, Fold, Appends, Broadcast, UpToDate, RecordMatch, LastTerm;
    assert s.votes + {} == s.votes;
    if ev.DeliverEvent? {
      var m := ev.e.message;
      if m.AppendEntries? {
        FollowKeepsElection(Recognise(Adopt(s, m.term, ev.now, ev.draw), m.leader, ev.now, ev.draw), m);
      }
    } else if TimesOut(s, ev) {
      SubsetSize({s.id}, s.votes);
      OpeningStep(s, ev);
    }
  }

  lemma StandingStep(s: Node, ev: Event)
    requires ev.DeliverEvent? ==> Receivable(ev.e.message)
    requires NodeStep(s, ev).node.term > s.term && NodeStep(s, ev).node.role == Candidate
    ensures var s' := NodeStep(s, ev).node;
            s'.id == s.id && s'.peers == s.peers && s'.term == s.term + 1 && s'.votes == {s.id} && Counting(s')
  {
    hide Follow, MajorityMatch, Backtrack, Fold, Appends, Broadcast, UpToDate, RecordMatch, LastTerm;
    if ev.DeliverEvent? {
      var m := ev.e.message;
      if m.AppendEntries? {
        FollowKeepsElection(Recognise(Adopt(s, m.term, ev.now, ev.draw), m.leader, ev.now, ev.draw), m);
      } else if m.AppendReply? {
        RecordKeeps(s, ev.e.sender, m.matchIndex);
      }
    }
  }

  // ---- a candidacy over a run ----

  lemma CandidateBefore(cs: seq<Cluster>, evs: seq<Event>, n: NodeId, i: nat, j: nat)
    requires CandidateSince(cs, evs, n, i, j)
    ensures i < j < |cs| == |evs| + 1
    ensures n in cs[j].nodes && n in cs[j - 1].nodes && n in cs[i + 1].nodes && n in cs[i].nodes
    ensures cs[j].nodes[n].role == Candidate && cs[j].nodes[n].term == cs[i + 1].nodes[n].term
    ensures j == i + 1 ==> cs[j].nodes[n].term > cs[j - 1].nodes[n].term
    ensures j > i + 1 ==> CandidateSince(cs, evs, n, i, j - 1) && cs[j - 1].nodes[n].term == cs[j].nodes[n].term
  {
  }

  lemma VoteIsTaken(ev: Event, n: NodeId, t: nat)
    ensures VoteFor(ev, n, t) ==> Actor(ev) == n
  {
  }

  /** While a candidacy lasts the candidate has counted exactly itself and the voters of the
      votes of its term delivered to it since it stood, and they are not yet a majority. */
  lemma {:induction false} CountsDeliveredVotes(initial: Ledger, cs: seq<Cluster>, evs: seq<Event>, n: NodeId,
                                                i: nat, j: nat)
    requires IsRun(initial, cs, evs) && CandidateSince(cs, evs, n, i, j)
    ensures j - 1 < |evs|
    ensures var s := cs[j].nodes[n];
            && s.id == n && s.peers == cs[i].nodes[n].peers && s.term == cs[i].nodes[n].term + 1
            && Counting(s) && s.votes == VoteTally(evs, n, s.term, i, j)
    decreases j
  {
    hide IsRun, CandidateSince, NodeStep, Counting, VoteFor;
    CandidateBefore(cs, evs, n, i, j);
    RunStep(initial, cs, evs, j - 1, n);
    IdAt(initial, cs, evs, j - 1, n);
    IdAt(initial, cs, evs, j, n);
    if j == i + 1 {
      StandingNeedsActor(cs[i].nodes[n], cs[j].nodes[n], Actor(evs[i]) == n);
      StandingStep(cs[i].nodes[n], evs[i]);
    } else {
      CountsDeliveredVotes(initial, cs, evs, n, i, j - 1);
      if Actor(evs[j - 1]) == n {
        CandidateStep(cs[j - 1].nodes[n], evs[j - 1]);
      } else {
        VoteIsTaken(evs[j - 1], n, cs[j].nodes[n].term);
      }
    }
  }

  lemma StandingNeedsActor(s: Node, s': Node, acts: bool)
    requires (!acts ==> s' == s) && s'.term > s.term
    ensures acts
  {
  }

  /** Exactly when a candidacy ends in leadership, for any cluster and any run: the candidate
      leads its term from the very step at which it and the voters of the votes of that term
      delivered since it stood are a majority. */
  lemma LeadsExactlyOnMajority(initial: Ledger, cs: seq<Cluster>, evs: seq<Event>, n: NodeId, i: nat, j: nat)
    requires IsRun(initial, cs, evs) && CandidateSince(cs, evs, n, i, j) && j < |evs|
    ensures var s, s' := cs[j].nodes[n], cs[j + 1].nodes[n];
            && (s'.role == Leader <==> |VoteTally(evs, n, s.term, i, j + 1)| >= Majority(s))
            && (s'.role == Leader ==> s'.term == s.term)
  {
    hide IsRun, CandidateSince, NodeStep, VoteFor;
    CandidateBefore(cs, evs, n, i, j);
    CountsDeliveredVotes(initial, cs, evs, n, i, j);
    RunStep(initial, cs, evs, j, n);
    if Actor(evs[j]) == n {
      CandidateStep(cs[j].nodes[n], evs[j]);
    } else {
      VoteIsTaken(evs[j], n, cs[j].nodes[n].term);
      assert VoteTally(evs, n, cs[j].nodes[n].term, i, j + 1) == cs[j].nodes[n].votes;
    }
  }

  // ---- every leader was elected so ----

  /** A candidate stood at some step and has been one since. */
  lemma {:induction false} CandidacyBegan(initial: Ledger, cs: seq<Cluster>, evs: seq<Event>, n: NodeId, k: nat)
    returns (i: nat)
    requires IsRun(initial, cs, evs) && k < |cs| && n in cs[k].nodes && cs[k].nodes[n].role == Candidate
    ensures CandidateSince(cs, evs, n, i, k)
    decreases k
  {
    hide NodeStep;
    var s := cs[k - 1].nodes[n];
    RunStep(initial, cs, evs, k - 1, n);
    if Actor(evs[k - 1]) == n {
      RoleStep(s, evs[k - 1]);
      if cs[k].nodes[n].term > s.term {
        i := k - 1;
        return;
      }
      OnlyStandingMakesCandidate(s, evs[k - 1]);
    }
    i := CandidacyBegan(initial, cs, evs, n, k - 1);
  }

  lemma OnlyStandingMakesCandidate(s: Node, ev: Event)
    requires ev.DeliverEvent? ==> Receivable(ev.e.message)
    requires NodeStep(s, ev).node.role == Candidate && NodeStep(s, ev).node.term == s.term
    ensures s.role == Candidate
  {
    hide Follow, MajorityMatch, Backtrack, Fold, Appends, Broadcast, UpToDate, RecordMatch, BecomeCandidate;
    if ev.DeliverEvent? {
      var m := ev.e.message;
      if m.AppendEntries? {
        FollowKeepsElection(Recognise(Adopt(s, m.term, ev.now, ev.draw), m.leader, ev.now, ev.draw), m);
      } else if m.PreVoteReply? {
        StandsInNextTerm(s.(prevotes := s.prevotes + {m.voter}), ev.now, ev.draw);
      } else if m.AppendReply? {
        RecordKeeps(s, ev.e.sender, m.matchIndex);
      }
    } else if TimesOut(s, ev) {
      OpeningStep(s, ev);
    }
  }

  /** Every leader with peers won its term: it stood at a step `i`, and a majority of votes of
      that term had been delivered to it by step `k`, from which on it has led. */
  lemma {:induction false} LeaderWasElected(initial: Ledger, cs: seq<Cluster>, evs: seq<Event>, l: NodeId, t: nat,
                                            j: nat)
    returns (i: nat, k: nat)
    requires IsRun(initial, cs, evs) && j < |cs| && Leads(cs[j], l, t) && cs[j].nodes[l].peers != []
    ensures CandidateSince(cs, evs, l, i, k) && k < j && cs[k].nodes[l].term == t
    ensures |VoteTally(evs, l, t, i, k + 1)| >= Majority(cs[k].nodes[l]) && Leads(cs[k + 1], l, t)
    decreases j
  {
    hide NodeStep, VoteTally;
    var s := cs[j - 1].nodes[l];
    RunStep(initial, cs, evs, j - 1, l);
    if Leads(cs[j - 1], l, t) {
      if Actor(evs[j - 1]) == l {
        PeersStay(s, evs[j - 1]);
      }
      i, k := LeaderWasElected(initial, cs, evs, l, t, j - 1);
    } else {
      NewLeaderWasCandidate(s, evs[j - 1]);
      k := j - 1;
      i := CandidacyBegan(initial, cs, evs, l, k);
      LeadsExactlyOnMajority(initial, cs, evs, l, i, k);
    }
  }

  lemma PeersStay(s: Node, ev: Event)
    requires ev.DeliverEvent? ==> Receivable(ev.e.message)
    ensures NodeStep(s, ev).node.peers == s.peers
  {
    hide Follow, MajorityMatch, Backtrack, Fold, Appends, Broadcast, UpToDate, RecordMatch, LastTerm;
    if ev.DeliverEvent? {
      var m := ev.e.message;
      if m.AppendEntries? {
        FollowKeepsElection(Recognise(Adopt(s, m.term, ev.now, ev.draw), m.leader, ev.now, ev.draw), m);
      } else if m.AppendReply? {
        RecordKeeps(s, ev.e.sender, m.matchIndex);
      }
    }
  }

  lemma NewLeaderWasCandidate(s: Node, ev: Event)
    requires ev.DeliverEvent? ==> Receivable(ev.e.message)
    requires NodeStep(s, ev).node.role == Leader && NodeStep(s, ev).node.peers != []
    requires s.role != Leader || NodeStep(s, ev).node.term != s.term
    ensures s.role == Candidate && NodeStep(s, ev).node.term == s.term
  {
    hide Follow, MajorityMatch, Backtrack, Fold, Appends, Broadcast, UpToDate, RecordMatch, LastTerm;
    assert |{s.id}| == 1;
    if ev.DeliverEvent? {
      var m := ev.e.message;
      if m.AppendEntries? {
        FollowKeepsElection(Recognise(Adopt(s, m.term, ev.now, ev.draw), m.leader, ev.now, ev.draw), m);
      } else if m.AppendReply? {
        RecordKeeps(s, ev.e.sender, m.matchIndex);
      }
    }
  }
}

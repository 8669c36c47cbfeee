/** Where later terms come from, and so what it takes to unseat a leader whose term is the
    largest: some node must first stand on a majority of delivered prevote grants. */
module RaftDisruption {
  import opened LedgerModel
  import opened RaftTypes
  import opened RaftLog
  import opened RaftStep
  import opened RaftHistory
  import opened RaftCluster
  import opened RaftDurability
  import opened RaftRunTheorems
  import opened RaftLeadership
  import opened RaftPreVoteContainment
  import opened RaftPreVoteRounds

  // ---- what moves a term ----

  /** A node's term moves by one because it stands, or to the term of a message it takes. */
  lemma TermMoves(s: Node, ev: Event)
    requires ev.DeliverEvent? ==> Receivable(ev.e.message)
    ensures var s' := NodeStep(s, ev).node;
            || s'.term == s.term
            || (s'.term == s.term + 1 && s'.role != Follower)
            || (s'.role == Follower && MovedByMessage(s, ev, s'))
  {
    hide Follow, MajorityMatch, Backtrack, Fold, Appends, Broadcast, UpToDate, RecordMatch, BecomeCandidate;
    if ev.DeliverEvent? {
      var m := ev.e.message;
      if m.AppendEntries? {
        FollowKeepsElection(Recognise(Adopt(s, m.term, ev.now, ev.draw), m.leader, ev.now, ev.draw), m);
      } else if m.PreVoteReply? {
        StandsInNextTerm(s.(prevotes := s.prevotes + {m.voter}), ev.now, ev.draw);
      } else if m.AppendReply? {
        RecordKeeps(s, ev.e.sender, m.matchIndex);
      }
    } else if ev.TickEvent? {
      StandsInNextTerm(PrevoteRound(s, ev.now, ev.draw), ev.now, ev.draw);
    }
  }

  ghost predicate NoneBeyond(c: Cluster, t: nat) {
    forall n :: n in c.nodes ==> c.nodes[n].term <= t
  }

  /** Node `n` leaves term `t` by standing for election in step `k`. */
  ghost predicate StandsAt(cs: seq<Cluster>, evs: seq<Event>, k: nat, n: NodeId, t: nat) {
    && k < |evs| && |cs| == |evs| + 1 && Actor(evs[k]) == n && n in cs[k].nodes && n in cs[k + 1].nodes
    && cs[k].nodes[n].term == t && cs[k + 1].nodes[n].term == t + 1 && cs[k + 1].nodes[n].role != Follower
  }

  /** A term beyond all others is reached by standing only: no message carries it yet. */
  lemma LaterTermsAreStoodFor(initial: Ledger, cs: seq<Cluster>, evs: seq<Event>, i: nat, t: nat)
    requires IsRun(initial, cs, evs) && i < |evs| && NoneBeyond(cs[i], t)
    ensures NoneBeyond(cs[i + 1], t) || StandsAt(cs, evs, i, Actor(evs[i]), t)
  {
    hide NodeStep, Initial, Receivable;
    var n := Actor(evs[i]);
    RunStep(initial, cs, evs, i, n);
    if evs[i].DeliverEvent? {
      NoLaterMessage(initial, cs, evs, i, evs[i].e, t);
    }
    TermMoves(cs[i].nodes[n], evs[i]);
  }

  lemma NoLaterMessage(initial: Ledger, cs: seq<Cluster>, evs: seq<Event>, i: nat, e: Envelope, t: nat)
    requires IsRun(initial, cs, evs) && i < |cs| && e in cs[i].sent && NoneBeyond(cs[i], t)
    ensures e.message.PreVote? || e.message.term <= t
  {
    hide ClusterInv, Grows, HistoryInv, Initial, Next;
    var hs := RunHistory(initial, cs, evs);
    MessageFromInside(hs[i], initial, cs[i], e);
  }

  // ---- nobody stands without a round ----

  lemma TargetMoves(s: Node, ev: Event)
    requires (ev.DeliverEvent? ==> Receivable(ev.e.message)) && !TimesOut(s, ev) && !ev.RestartEvent?
    ensures NodeStep(s, ev).node.prevoteTarget == s.prevoteTarget
  {
    hide Follow, MajorityMatch, Backtrack, Fold, Appends, Broadcast, UpToDate, RecordMatch, LastTerm;
    if ev.DeliverEvent? {
      var m := ev.e.message;
      if m.AppendEntries? {
        FollowKeepsElection(Recognise(Adopt(s, m.term, ev.now, ev.draw), m.leader, ev.now, ev.draw), m);
      } else if m.AppendReply? {
        RecordKeeps(s, ev.e.sender, m.matchIndex);
      }
    }
  }

  /** A node that still counts grants has a round open, which it opened at some step. */
  lemma {:induction false} RoundWasOpened(initial: Ledger, cs: seq<Cluster>, evs: seq<Event>, n: NodeId, k: nat)
    returns (r: nat)
    requires IsRun(initial, cs, evs) && k < |cs| && n in cs[k].nodes
    requires cs[k].nodes[n].prevoteTarget == cs[k].nodes[n].term + 1
    ensures OpenSince(cs, evs, n, r, k)
    decreases k
  {
    hide NodeStep, Initial;
    NotAtFirst(initial, cs, evs, n, k);
    var s, ev, s' := cs[k - 1].nodes[n], evs[k - 1], cs[k].nodes[n];
    RunStep(initial, cs, evs, k - 1, n);
    TargetBound(initial, cs, evs, k - 1, n);
    if Actor(ev) == n {
      TermNeverFalls(s, ev);
      if TimesOut(s, ev) {
        OpeningTarget(s, ev);
        r := k - 1;
        return;
      }
      if ev.RestartEvent? {
        RestartForgetsRound(s, ev);
      } else {
        TargetMoves(s, ev);
      }
    }
    r := RoundWasOpened(initial, cs, evs, n, k - 1);
  }

  lemma NotAtFirst(initial: Ledger, cs: seq<Cluster>, evs: seq<Event>, n: NodeId, k: nat)
    requires IsRun(initial, cs, evs) && k < |cs| && n in cs[k].nodes
    requires cs[k].nodes[n].prevoteTarget == cs[k].nodes[n].term + 1
    ensures k > 0 && n in cs[k - 1].nodes
  {
    hide NodeStep;
  }

  lemma OpeningTarget(s: Node, ev: Event)
    requires TimesOut(s, ev)
    ensures NodeStep(s, ev).node.prevoteTarget == s.term + 1
  {
    hide Appends, Broadcast;
  }

  lemma RestartForgetsRound(s: Node, ev: Event)
    requires ev.RestartEvent?
    ensures NodeStep(s, ev).node.prevoteTarget == -1
  {
  }

  /** A step by which a node with peers stands is one that takes a grant in an open round. */
  lemma StandingNeedsRound(s: Node, ev: Event)
    requires (ev.DeliverEvent? ==> Receivable(ev.e.message)) && s.peers != []
    requires NodeStep(s, ev).node.term == s.term + 1 && NodeStep(s, ev).node.role != Follower
    ensures s.prevoteTarget == s.term + 1
  {
    hide Follow, MajorityMatch, Backtrack, Fold, Appends, Broadcast, UpToDate, RecordMatch, BecomeCandidate;
    if ev.DeliverEvent? {
      var m := ev.e.message;
      if m.AppendEntries? {
        FollowKeepsElection(Recognise(Adopt(s, m.term, ev.now, ev.draw), m.leader, ev.now, ev.draw), m);
      } else if m.AppendReply? {
        RecordKeeps(s, ev.e.sender, m.matchIndex);
      }
    } else if TimesOut(s, ev) {
      OpeningStep(s, ev);
    }
  }

  /** Whenever a node with peers stands, it stands on a majority of grants that were delivered
      to it since it opened its round. */
  lemma StandsOnGrants(initial: Ledger, cs: seq<Cluster>, evs: seq<Event>, k: nat, n: NodeId, t: nat) returns (r: nat)
    requires IsRun(initial, cs, evs) && StandsAt(cs, evs, k, n, t) && cs[k].nodes[n].peers != []
    ensures OpenSince(cs, evs, n, r, k) && |Tally(evs, n, t, r, k + 1)| >= Majority(cs[k].nodes[n])
  {
    hide IsRun, NodeStep;
    RunStep(initial, cs, evs, k, n);
    StandingNeedsRound(cs[k].nodes[n], evs[k]);
    r := RoundWasOpened(initial, cs, evs, n, k);
    StandsExactlyOnMajority(initial, cs, evs, n, r, k);
  }

  // ---- a leader of the largest term ----

  ghost predicate NoRestartOf(evs: seq<Event>, l: NodeId, i: nat, j: nat)
    requires j <= |evs|
  {
    forall k :: i <= k < j ==> !(evs[k].RestartEvent? && evs[k].n == l)
  }

  /** Until somebody stands, a leader of the largest term leads on. */
  lemma {:induction false} FirstToStand(initial: Ledger, cs: seq<Cluster>, evs: seq<Event>, i: nat, j: nat, l: NodeId,
                                        t: nat)
    returns (k: nat)
    requires IsRun(initial, cs, evs) && i <= j < |cs| && Leads(cs[i], l, t) && NoneBeyond(cs[i], t)
    requires NoRestartOf(evs, l, i, j) && !Leads(cs[j], l, t)
    ensures i <= k < j && Leads(cs[k], l, t) && StandsAt(cs, evs, k, Actor(evs[k]), t)
    decreases j - i
  {
    hide IsRun, NoneBeyond, StandsAt;
    RunLength(initial, cs, evs);
    k := i;
    LaterTermsAreStoodFor(initial, cs, evs, i, t);
    if !StandsAt(cs, evs, i, Actor(evs[i]), t) {
      StillLeads(initial, cs, evs, i, l, t);
      k := FirstToStand(initial, cs, evs, i + 1, j, l, t);
    }
  }

  lemma StillLeads(initial: Ledger, cs: seq<Cluster>, evs: seq<Event>, i: nat, l: NodeId, t: nat)
    requires IsRun(initial, cs, evs) && i < |evs| && Leads(cs[i], l, t) && NoneBeyond(cs[i], t)
    requires !(evs[i].RestartEvent? && evs[i].n == l)
    ensures Leads(cs[i + 1], l, t)
  {
    hide IsRun, NoneBeyond;
    RunLength(initial, cs, evs);
    RunStep(initial, cs, evs, i, l);
    UnseatedExactly(initial, cs, evs, i, l, t);
    if evs[i].DeliverEvent? {
      NoLaterMessage(initial, cs, evs, i, evs[i].e, t);
    }
  }

  /** What it takes to unseat a leader whose term is the largest in the cluster, for any run:
      unless the leader itself restarts, some node of its term must first have stood on a
      majority of prevote grants delivered to it since it opened its round, while the leader
      was still leading.  A member already in a later term is the only other way, and that
      can be seen beforehand. */
  lemma UnseatedOnlyByStanding(initial: Ledger, cs: seq<Cluster>, evs: seq<Event>, i: nat, j: nat, l: NodeId, t: nat)
    returns (n: NodeId, r: nat, k: nat)
    requires IsRun(initial, cs, evs) && i <= j < |cs| && Leads(cs[i], l, t) && NoneBeyond(cs[i], t)
    requires NoRestartOf(evs, l, i, j) && !Leads(cs[j], l, t)
    ensures i <= k < j && n != l && Leads(cs[k], l, t) && StandsAt(cs, evs, k, n, t)
    ensures OpenSince(cs, evs, n, r, k) && |Tally(evs, n, t, r, k + 1)| >= Majority(cs[k].nodes[n])
  {
    hide IsRun, NoneBeyond, NodeStep, Tally, OpenSince;
    RunLength(initial, cs, evs);
    k := FirstToStand(initial, cs, evs, i, j, l, t);
    n := Actor(evs[k]);
    RunStep(initial, cs, evs, k, n);
    RoleStepOfLeader(cs[k].nodes[n], evs[k]);
    OthersArePeers(initial, cs, evs, k, n, l);
    r := StandsOnGrants(initial, cs, evs, k, n, t);
  }

  lemma RoleStepOfLeader(s: Node, ev: Event)
    requires ev.DeliverEvent? ==> Receivable(ev.e.message)
    ensures s.role != Leader || NodeStep(s, ev).node.term == s.term || NodeStep(s, ev).node.role == Follower
  {
    hide Follow, MajorityMatch, Backtrack, Fold, Appends, Broadcast, UpToDate, RecordMatch, LastTerm;
    if ev.DeliverEvent? {
      var m := ev.e.message;
      if m.AppendEntries? {
        FollowKeepsElection(Recognise(Adopt(s, m.term, ev.now, ev.draw), m.leader, ev.now, ev.draw), m);
      } else if m.AppendReply? {
        RecordKeeps(s, ev.e.sender, m.matchIndex);
      }
    }
  }

  lemma OthersArePeers(initial: Ledger, cs: seq<Cluster>, evs: seq<Event>, k: nat, n: NodeId, l: NodeId)
    requires IsRun(initial, cs, evs) && k < |cs| && n in cs[k].nodes && l in cs[k].nodes && n != l
    ensures cs[k].nodes[n].peers != []
  {
    hide Grows, HistoryInv, Initial, Next, NodesInv, NetworkInv, NodeStore, NodeRole, NodeAcks, NodeVotes;
    var hs := RunHistory(initial, cs, evs);
    NodeAt(hs[k], initial, cs[k], n);
    assert l in hs[k].members;
  }

  /** The grants that a round of `n`, opened by step `r` and open in state `k`, can still count
      come from too few peers. */
  ghost predicate Harmless(cs: seq<Cluster>, evs: seq<Event>, n: NodeId, r: nat, k: nat)
    requires OpenSince(cs, evs, n, r, k)
  {
    exists granters ::
      && GrantsFrom(cs[r], n, cs[r].nodes[n].term, granters) && OnlyTheseGrant(cs, evs, n, granters, r, k)
      && |{n} + granters| < Majority(cs[r].nodes[n])
  }

  /** When the claim does hold: a leader whose term is the largest leads on for as long as it
      does not restart and every round that is open meanwhile is harmless, whoever reconnects
      and whatever arrives late or twice. */
  lemma LeaderIsSafe(initial: Ledger, cs: seq<Cluster>, evs: seq<Event>, i: nat, j: nat, l: NodeId, t: nat)
    requires IsRun(initial, cs, evs) && i <= j < |cs| && Leads(cs[i], l, t) && NoneBeyond(cs[i], t)
    requires NoRestartOf(evs, l, i, j)
    requires forall n, r, k :: i <= k < j && OpenSince(cs, evs, n, r, k) ==> Harmless(cs, evs, n, r, k)
    ensures Leads(cs[j], l, t)
  {
    hide IsRun, NoneBeyond, Leads, Tally, OpenSince, GrantsFrom, OnlyTheseGrant, MovedByMessage;
    RunLength(initial, cs, evs);
    if !Leads(cs[j], l, t) {
      var n, r, k := UnseatedOnlyByStanding(initial, cs, evs, i, j, l, t);
      assert Harmless(cs, evs, n, r, k);
      OpenBefore(cs, evs, n, r, k);
      var granters :| GrantsFrom(cs[r], n, cs[r].nodes[n].term, granters) && OnlyTheseGrant(cs, evs, n, granters, r, k)
                      && |{n} + granters| < Majority(cs[r].nodes[n]);
      RoundIsHarmless(initial, cs, evs, n, r, k, granters);
    }
  }
}

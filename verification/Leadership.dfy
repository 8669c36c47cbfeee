/** What a leader does over the whole of its leadership: it leads without interruption, its
    match indexes only grow, and it commits exactly when and as far as Figure 2 allows. */
module RaftLeadership {
  import opened Wrappers
  import opened LedgerModel
  import opened RaftTypes
  import opened RaftLog
  import opened RaftStep
  import opened RaftHistory
  import opened RaftCommitRule
  import opened RaftReplicationSteps
  import opened RaftCluster
  import opened RaftDurability
  import opened RaftRunTheorems

  // ---- one uninterrupted leadership ----

  ghost predicate Leads(c: Cluster, l: NodeId, t: nat) {
    l in c.nodes && c.nodes[l].role == Leader && c.nodes[l].term == t
  }

  /** A node that leads a term at two moments leads it at every moment in between: there is no
      way back to a leadership once lost. */
  lemma {:induction false} LeadsThroughout(initial: Ledger, cs: seq<Cluster>, evs: seq<Event>, i: nat, k: nat, j: nat,
                                           l: NodeId, t: nat)
    requires IsRun(initial, cs, evs) && i <= k <= j < |cs| && Leads(cs[i], l, t) && Leads(cs[j], l, t)
    ensures Leads(cs[k], l, t)
    decreases k
  {
    hide NodeStep;
    if k > i {
      LeadsThroughout(initial, cs, evs, i, k - 1, j, l, t);
      if Actor(evs[k - 1]) == l {
        RoleStep(cs[k - 1].nodes[l], evs[k - 1]);
      }
      if !Leads(cs[k], l, t) {
        NoWayBack(initial, cs, evs, k, j, l, t);
      }
    }
  }

  lemma {:induction false} NoWayBack(initial: Ledger, cs: seq<Cluster>, evs: seq<Event>, k: nat, j: nat, l: NodeId,
                                     t: nat)
    requires IsRun(initial, cs, evs) && k <= j < |cs| && l in cs[k].nodes
    requires cs[k].nodes[l].term > t || (cs[k].nodes[l].term == t && cs[k].nodes[l].role == Follower)
    ensures !Leads(cs[j], l, t)
    decreases j - k
  {
    hide NodeStep;
    if k < j {
      if Actor(evs[k]) == l {
        RoleStep(cs[k].nodes[l], evs[k]);
      }
      NoWayBack(initial, cs, evs, k + 1, j, l, t);
    }
  }

  /** The only messages that end a leadership. */
  predicate FromLaterTerm(ev: Event, t: nat) {
    ev.DeliverEvent? && !ev.e.message.PreVote? && ev.e.message.term > t
  }

  lemma LeaderStep(s: Node, ev: Event)
    requires s.role == Leader && (ev.DeliverEvent? ==> Receivable(ev.e.message))
    requires ev.DeliverEvent? && ev.e.message.AppendEntries? ==> ev.e.message.term != s.term
    ensures var s' := NodeStep(s, ev).node;
            s'.role == Leader && s'.term == s.term <==> !ev.RestartEvent? && !FromLaterTerm(ev, s.term)
  {
    hide Follow, MajorityMatch, Backtrack, Fold, Appends, Broadcast, UpToDate, RecordMatch, LastTerm;
    if ev.DeliverEvent? {
      var m := ev.e.message;
      if m.AppendEntries? {
        FollowKeepsElection(Recognise(Adopt(s, m.term, ev.now, ev.draw), m.leader, ev.now, ev.draw), m);
        ReceiveIsNodeStep(s, ev);
      } else if m.AppendReply? {
        RecordKeeps(s, ev.e.sender, m.matchIndex);
      }
    }
  }

  /** Exactly how a leader is unseated, for any cluster and run: it restarts, or it takes a
      message of a later term that is not a prevote request.  An AppendEntries of its own term
      never reaches it. */
  lemma UnseatedExactly(initial: Ledger, cs: seq<Cluster>, evs: seq<Event>, i: nat, l: NodeId, t: nat)
    requires IsRun(initial, cs, evs) && i < |evs| && Leads(cs[i], l, t)
    ensures !Leads(cs[i + 1], l, t) <==> Actor(evs[i]) == l && (evs[i].RestartEvent? || FromLaterTerm(evs[i], t))
  {
    hide IsRun, NodeStep;
    RunStep(initial, cs, evs, i, l);
    if Actor(evs[i]) == l {
      if evs[i].DeliverEvent? && evs[i].e.message.AppendEntries? {
        NoRivalAppends(initial, cs, evs, i, evs[i].e);
      }
      LeaderStep(cs[i].nodes[l], evs[i]);
    }
  }

  /** A term has one leader, so nobody else sends AppendEntries in it. */
  lemma NoRivalAppends(initial: Ledger, cs: seq<Cluster>, evs: seq<Event>, i: nat, e: Envelope)
    requires IsRun(initial, cs, evs) && i < |cs| && e in cs[i].sent && e.message.AppendEntries?
    requires e.recipient in cs[i].nodes
    requires cs[i].nodes[e.recipient].role == Leader
    ensures e.message.term != cs[i].nodes[e.recipient].term
  {
    hide ClusterInv, Grows, HistoryInv, Initial, Next, NodeStore, NodeAcks, NodeVotes, Committed;
    var hs := RunHistory(initial, cs, evs);
    NodeAt(hs[i], initial, cs[i], e.recipient);
    MessageAt(hs[i], initial, cs[i], e);
  }

  // ---- match indexes ----

  /** One step of a node that keeps leading. */
  lemma StepKeepsMatch(s: Node, ev: Event, p: NodeId)
    requires s.role == Leader && p in s.matchIndex && (ev.DeliverEvent? ==> Receivable(ev.e.message))
    requires NodeStep(s, ev).node.role == Leader && NodeStep(s, ev).node.term == s.term
    ensures p in NodeStep(s, ev).node.matchIndex && NodeStep(s, ev).node.matchIndex[p] >= s.matchIndex[p]
  {
    hide MajorityMatch, Backtrack, Fold, Appends, UpToDate, Follow, StartPrevote;
    if ev.DeliverEvent? && ev.e.message.AppendEntries? {
      LeaderFollows(s, ev.e.message, ev.now, ev.draw);
      ReceiveIsNodeStep(s, ev);
    }
  }

  /** Over the whole of a leadership a match index only grows, whatever replies arrive late,
      twice or out of order. */
  lemma {:induction false} MatchIndexOnlyGrows(initial: Ledger, cs: seq<Cluster>, evs: seq<Event>, i: nat, j: nat,
                                               l: NodeId, p: NodeId)
    requires IsRun(initial, cs, evs) && i <= j < |cs| && l in cs[i].nodes && p in cs[i].nodes[l].peers
    requires Leads(cs[i], l, cs[i].nodes[l].term) && Leads(cs[j], l, cs[i].nodes[l].term)
    ensures p in cs[i].nodes[l].matchIndex && p in cs[j].nodes[l].matchIndex
    ensures cs[i].nodes[l].matchIndex[p] <= cs[j].nodes[l].matchIndex[p]
    decreases j
  {
    hide NodeStep;
    if i == j {
      AckSoundness(initial, cs, evs, i, l, p);
    } else {
      LeadsThroughout(initial, cs, evs, i, j - 1, j, l, cs[i].nodes[l].term);
      MatchIndexOnlyGrows(initial, cs, evs, i, j - 1, l, p);
      var ev := evs[j - 1];
      if Actor(ev) == l {
        StepKeepsMatch(cs[j - 1].nodes[l], ev, p);
      }
    }
  }

  // ---- the commit rule ----

  /** A leader of its own term takes the acknowledgement of a successful AppendEntries. */
  ghost predicate TakesAck(c: Cluster, ev: Event) {
    && ev.DeliverEvent? && ev.e.message.AppendReply? && ev.e.message.success && ev.e.recipient in c.nodes
    && Leads(c, ev.e.recipient, ev.e.message.term)
  }

  /** The leader with the acknowledgement recorded, before the commit rule is applied. */
  ghost function Recorded(c: Cluster, ev: Event): Node
    requires TakesAck(c, ev)
  {
    RecordMatch(c.nodes[ev.e.recipient], ev.e.sender, ev.e.message.matchIndex)
  }

  lemma RecordedIsSound(initial: Ledger, cs: seq<Cluster>, evs: seq<Event>, i: nat)
    requires IsRun(initial, cs, evs) && i < |evs| && TakesAck(cs[i], evs[i])
    ensures SoundMatches(Recorded(cs[i], evs[i]))
  {
    hide ClusterInv, Grows, HistoryLogs, HistoryElections, LeadersComplete, VotesSafe, Initial, Next;
    hide NodeStore, NodeAcks, NodeVotes, RecordMatch, SoundMatches;
    var hs := RunHistory(initial, cs, evs);
    var e, h := evs[i].e, hs[i];
    var s := cs[i].nodes[e.recipient];
    NodeAt(h, initial, cs[i], e.recipient);
    MessageAt(h, initial, cs[i], e);
    RecordedMatch(h, initial, s, e.sender, e.message.matchIndex);
    RecordKeeps(s, e.sender, e.message.matchIndex);
    LeaderIsSound(h, initial, Recorded(cs[i], evs[i]));
  }

  lemma LeaderIsSound(h: History, initial: Ledger, s: Node)
    requires HistoryShape(h) && NodeInv(h, initial, s) && s.role == Leader
    ensures SoundMatches(s)
  {
    hide VotesShape, CandsShape, LeadersShape, Committed, NodeLedger, NodeAcks, NodeVotes, Backed, Indexed;
    forall p | p in s.peers ensures Get(s.matchIndex, p, 0) <= |s.log| {
      assert (p, s.term) in h.acked ==> h.acked[(p, s.term)] <= |h.llog[s.term]|;
    }
  }

  /** What taking an acknowledgement records: the match index of its sender becomes the larger
      of the old one and the acknowledged one, replication to it resumes right after that, and
      nothing is recorded of other peers. */
  lemma RecordsAck(initial: Ledger, cs: seq<Cluster>, evs: seq<Event>, i: nat)
    requires IsRun(initial, cs, evs) && i < |evs| && TakesAck(cs[i], evs[i])
    ensures var s, s', p := cs[i].nodes[evs[i].e.recipient], cs[i + 1].nodes[evs[i].e.recipient], evs[i].e.sender;
            && p in s.peers && p in s.matchIndex
            && s'.matchIndex == s.matchIndex[p := Max(s.matchIndex[p], evs[i].e.message.matchIndex)]
            && s'.nextIndex == s.nextIndex[p := s'.matchIndex[p] + 1]
            && s'.id == s.id && s'.peers == s.peers && s'.log == s.log && s'.term == s.term && s'.role == s.role
  {
    hide IsRun, AdvanceCommitIndex;
    var l := evs[i].e.recipient;
    RunStep(initial, cs, evs, i, l);
    SenderIsPeer(initial, cs, evs, i, evs[i].e);
    AckSoundness(initial, cs, evs, i, l, evs[i].e.sender);
    AdvanceFrame(Recorded(cs[i], evs[i]));
  }

  lemma SenderIsPeer(initial: Ledger, cs: seq<Cluster>, evs: seq<Event>, i: nat, e: Envelope)
    requires IsRun(initial, cs, evs) && i < |cs| && e in cs[i].sent && e.recipient in cs[i].nodes
    ensures e.sender in cs[i].nodes[e.recipient].peers
  {
    hide ClusterInv, Grows, HistoryInv, Initial, Next, NodeStore, NodeRole;
    hide NodeAcks, NodeVotes, AppendInv, AppendReplyInv;
    var hs := RunHistory(initial, cs, evs);
    NodeAt(hs[i], initial, cs[i], e.recipient);
    MessageAt(hs[i], initial, cs[i], e);
    assert e.sender in hs[i].members;
  }

  /** On every acknowledgement that a leader takes in any run, the rule of Figure 2 is applied
      to what the leader then has recorded: the commit index becomes the largest N past the old
      one that a majority has matched and whose entry is of the current term, and stays where
      it is exactly when there is none. */
  lemma LeaderCommitIsFigure2(initial: Ledger, cs: seq<Cluster>, evs: seq<Event>, i: nat)
    requires IsRun(initial, cs, evs) && i < |evs| && TakesAck(cs[i], evs[i])
    ensures var s, s' := cs[i].nodes[evs[i].e.recipient], cs[i + 1].nodes[evs[i].e.recipient];
            var r := s'.(commitIndex := s.commitIndex);
            && ((exists n :: MayCommit(r, n)) ==> MayCommit(r, s'.commitIndex))
            && (forall n :: MayCommit(r, n) ==> n <= s'.commitIndex)
            && ((forall n :: !MayCommit(r, n)) <==> s'.commitIndex == s.commitIndex)
  {
    hide IsRun, RecordMatch, MayCommit, SoundMatches, MajorityMatch, AdvanceCommitIndex, Fold;
    var l := evs[i].e.recipient;
    RunStep(initial, cs, evs, i, l);
    var s, s', r := cs[i].nodes[l], cs[i + 1].nodes[l], Recorded(cs[i], evs[i]);
    RecordedIsSound(initial, cs, evs, i);
    RecordKeeps(s, evs[i].e.sender, evs[i].e.message.matchIndex);
    SortAndPickIsFigure2(r);
    MayCommitRaises(r);
    AdvanceFrame(r);
    AdvanceKeepsNode(r);
    forall n ensures MayCommit(r, n) <==> MayCommit(s'.(commitIndex := s.commitIndex), n) {
      MayCommitFrame(r, s'.(commitIndex := s.commitIndex), n);
    }
  }

  lemma MayCommitFrame(s: Node, s': Node, n: int)
    requires s'.id == s.id && s'.peers == s.peers && s'.log == s.log && s'.term == s.term
    requires s'.commitIndex == s.commitIndex && s'.matchIndex == s.matchIndex
    ensures MayCommit(s, n) <==> MayCommit(s', n)
  {
    assert Matchers(s', n) == Matchers(s, n);
  }

  lemma AdvanceKeepsNode(r: Node)
    ensures AdvanceCommitIndex(r) != r ==> AdvanceCommitIndex(r).commitIndex > r.commitIndex
  {
    hide MajorityMatch, Fold, Commands;
  }

  lemma MayCommitRaises(s: Node)
    ensures forall n :: MayCommit(s, n) ==> n > s.commitIndex
  {
  }

  // ---- between acknowledgements nothing is left to commit ----

  /** A leader with peers has already committed all that Figure 2 allows. */
  ghost predicate Settled(s: Node) {
    s.role == Leader && s.peers != [] ==> forall n :: !MayCommit(s, n)
  }

  lemma SettledFrame(s: Node, s': Node)
    requires Settled(s) && s.role == Leader
    requires s'.id == s.id && s'.peers == s.peers && s'.log == s.log && s'.term == s.term
    requires s'.commitIndex == s.commitIndex && s'.matchIndex == s.matchIndex
    ensures Settled(s')
  {
    forall n ensures MayCommit(s', n) ==> MayCommit(s, n) {
      assert Matchers(s', n) == Matchers(s, n);
    }
  }

  /** An index that no peer has matched is not a majority's. */
  lemma OnlyTheLeader(s: Node, n: int)
    requires s.peers != [] && forall p :: p in s.peers ==> Get(s.matchIndex, p, 0) < n
    ensures !MayCommit(s, n)
  {
    assert MatchingPeers(s.peers, s.matchIndex, n) == {};
    assert Matchers(s, n) <= {s.id};
    assert |Matchers(s, n)| <= 1;
  }

  lemma NewLeaderIsSettled(s: Node)
    ensures Settled(Leadership(s))
  {
    var l := Leadership(s);
    if l.peers != [] {
      forall n ensures !MayCommit(l, n) {
        if n > 0 {
          OnlyTheLeader(l, n);
        }
      }
    }
  }

  lemma ProposedIsSettled(s: Node, command: LedgerEntry, now: real)
    requires Settled(s) && s.role == Leader && forall p :: p in s.peers ==> Get(s.matchIndex, p, 0) <= |s.log|
    ensures Settled(Propose(s, command, now).node)
  {
    var s' := Propose(s, command, now).node;
    if s.peers != [] {
      forall n ensures !MayCommit(s', n) {
        if n > |s.log| {
          OnlyTheLeader(s', n);
        } else if n > 0 {
          assert Matchers(s', n) == Matchers(s, n);
          assert !MayCommit(s, n);
        }
      }
    }
  }

  lemma AdvancedIsSettled(r: Node)
    requires SoundMatches(r)
    ensures Settled(AdvanceCommitIndex(r))
  {
    hide MayCommit, AdvanceCommitIndex, SoundMatches;
    var s' := AdvanceCommitIndex(r);
    SortAndPickIsFigure2(r);
    forall n ensures !MayCommit(s', n) {
      AdvancedMayCommit(r, n);
    }
  }

  lemma AdvancedMayCommit(r: Node, n: int)
    ensures MayCommit(AdvanceCommitIndex(r), n) ==> MayCommit(r, n) && n > AdvanceCommitIndex(r).commitIndex
  {
    hide AdvanceCommitIndex;
    AdvanceFrame(r);
    assert Matchers(AdvanceCommitIndex(r), n) == Matchers(r, n);
  }

  lemma AdvanceFrame(r: Node)
    ensures var s' := AdvanceCommitIndex(r);
            && s'.id == r.id && s'.peers == r.peers && s'.log == r.log && s'.term == r.term
            && s'.role == r.role && s'.matchIndex == r.matchIndex && s'.nextIndex == r.nextIndex
            && s'.commitIndex >= r.commitIndex
  {
    hide MajorityMatch, Fold, Commands;
  }

  /** Every way to be a leader after a step: it led before and nothing the rule looks at
      changed, it proposed, it took an acknowledgement, or it has just won. */
  lemma LeaderAfterStep(s: Node, ev: Event)
    requires ev.DeliverEvent? ==> Receivable(ev.e.message)
    requires NodeStep(s, ev).node.role == Leader
    ensures var s' := NodeStep(s, ev).node;
            || (s.role == Leader && s'.id == s.id && s'.peers == s.peers && s'.log == s.log && s'.term == s.term
                && s'.commitIndex == s.commitIndex && s'.matchIndex == s.matchIndex)
            || (s.role == Leader && ev.ProposeEvent?)
            || (s.role == Leader && ev.DeliverEvent? && ev.e.message.AppendReply? && ev.e.message.success
                && ev.e.message.term == s.term
                && s' == AdvanceCommitIndex(RecordMatch(s, ev.e.sender, ev.e.message.matchIndex)))
            || exists c, deadline :: s' == Leadership(c).(heartbeatDeadline := deadline)
  {
    hide Follow, AdvanceCommitIndex, RecordMatch, Backtrack, Appends, Broadcast, UpToDate, LastTerm, Leadership;
    if ev.DeliverEvent? && ev.e.message.AppendEntries? {
      var m := ev.e.message;
      FollowKeepsElection(Recognise(Adopt(s, m.term, ev.now, ev.draw), m.leader, ev.now, ev.draw), m);
    }
  }

  lemma SettledStep(initial: Ledger, cs: seq<Cluster>, evs: seq<Event>, i: nat, l: NodeId)
    requires IsRun(initial, cs, evs) && i < |evs| && Actor(evs[i]) == l && Settled(cs[i].nodes[l])
    requires cs[i + 1].nodes[l].role == Leader
    ensures Settled(cs[i + 1].nodes[l])
  {
    hide NodeStep, Settled, AdvanceCommitIndex, RecordMatch, Leadership, Initial, Propose;
    var s, ev, s' := cs[i].nodes[l], evs[i], cs[i + 1].nodes[l];
    LeaderAfterStep(s, ev);
    if s.role == Leader && ev.ProposeEvent? {
      ProposeIsNodeStep(s, ev);
      forall p | p in s.peers ensures Get(s.matchIndex, p, 0) <= |s.log| {
        AckSoundness(initial, cs, evs, i, l, p);
      }
      ProposedIsSettled(s, ev.command, ev.now);
    } else if TakesAck(cs[i], ev) && s' == AdvanceCommitIndex(Recorded(cs[i], ev)) {
      RecordedIsSound(initial, cs, evs, i);
      AdvancedIsSettled(Recorded(cs[i], ev));
    } else if c, deadline :| s' == Leadership(c).(heartbeatDeadline := deadline) {
      NewLeaderIsSettled(c);
      LeadershipIsSettled(c, deadline);
    } else {
      SettledFrame(s, s');
    }
  }

  lemma LeadershipIsSettled(c: Node, deadline: Option<real>)
    requires Settled(Leadership(c))
    ensures Settled(Leadership(c).(heartbeatDeadline := deadline))
  {
    var l := Leadership(c);
    SettledFrame(l, l.(heartbeatDeadline := deadline));
  }

  lemma ProposeIsNodeStep(s: Node, ev: Event)
    requires ev.ProposeEvent?
    ensures NodeStep(s, ev) == Propose(s, ev.command, ev.now)
  {
  }

  /** In every state of every run a leader with peers has already committed everything that
      Figure 2 allows it to: no acknowledgement it has recorded is left uncounted. */
  lemma {:induction false} NothingLeftToCommit(initial: Ledger, cs: seq<Cluster>, evs: seq<Event>, i: nat, l: NodeId)
    requires IsRun(initial, cs, evs) && i < |cs| && l in cs[i].nodes
    ensures Settled(cs[i].nodes[l])
  {
    hide NodeStep, MayCommit;
    if i > 0 {
      NothingLeftToCommit(initial, cs, evs, i - 1, l);
      if Actor(evs[i - 1]) == l && cs[i].nodes[l].role == Leader {
        SettledStep(initial, cs, evs, i - 1, l);
      }
    }
  }
}

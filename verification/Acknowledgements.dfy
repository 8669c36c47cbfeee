/** Replication over whole runs, written out in full: what a leader sends and when, what a
    follower makes of it and answers, and what the leader then records. */
module RaftAcknowledgements {
  import opened Wrappers
  import opened LedgerModel
  import opened RaftTypes
  import opened RaftLog
  import opened RaftStep
  import opened RaftHistory
  import opened RaftReplicationSteps
  import opened RaftCluster
  import opened RaftDurability
  import opened RaftRunTheorems
  import opened RaftLeadership
  import opened RaftBacktracking
  import opened RaftPreVoteRounds
  import opened RaftVoteCounting

  // ---- what a leader sends ----

  /** The AppendEntries `e` carries all that leader `l` has for its recipient: its whole log
      from the recipient's next index on, the entry before that, and its commit index. */
  ghost predicate Carries(l: Node, e: Envelope) {
    && e.sender == l.id && e.message.AppendEntries? && e.recipient in l.nextIndex
    && var m, prev := e.message, l.nextIndex[e.recipient] - 1;
       && 0 <= prev <= |l.log| && m.term == l.term && m.leader == l.id
       && m.prevIndex == prev && m.prevTerm == (if prev == 0 then 0 else l.log[prev - 1].term)
       && m.entries == l.log[prev..] && m.leaderCommit == l.commitIndex
  }

  lemma AppendToCarries(s: Node, p: NodeId)
    requires p in s.nextIndex && 1 <= s.nextIndex[p] <= |s.log| + 1
    ensures Carries(s, AppendTo(s, p)) && AppendTo(s, p).recipient == p
  {
  }

  lemma CarriesIsExact(s: Node, e: Envelope)
    requires e.recipient in s.nextIndex && 1 <= s.nextIndex[e.recipient] <= |s.log| + 1 && e == AppendTo(s, e.recipient)
    ensures Carries(s, e)
  {
    AppendToCarries(s, e.recipient);
  }

  lemma SentAppends(s: Node, ev: Event, e: Envelope)
    requires ev.DeliverEvent? ==> Receivable(ev.e.message)
    requires e in NodeStep(s, ev).sent && e.message.AppendEntries?
    ensures var s' := NodeStep(s, ev).node;
            && s'.role == Leader && e == AppendTo(s', e.recipient)
            && (e.recipient in s'.peers || (ev.DeliverEvent? && e.recipient == ev.e.sender))
  {
    hide HandleAppendEntries, HandleRequestVote, HandlePreVote, AdvanceCommitIndex, RecordMatch, Backtrack;
    hide StartPrevote, BecomeCandidate, UpToDate, AppendTo, Appends;
    if ev.TickEvent? && TimesOut(s, ev) {
      PrevoteSends(s, ev.now, ev.draw, e);
    } else if ev.DeliverEvent? && ev.e.message.PreVoteReply? {
      CandidateSends(s.(prevotes := s.prevotes + {ev.e.message.voter}), ev.now, ev.draw, e);
    } else if ev.DeliverEvent? && (ev.e.message.AppendEntries? || ev.e.message.RequestVote?) {
      AnswerKeepsId(s, ev);
    } else if ev.DeliverEvent? && ev.e.message.PreVote? {
      PreVoteIsReply(s, ev.e.message, ev.now);
    } else if ev.DeliverEvent? && ev.e.message.AppendReply? {
      RetryIsAppendTo(NodeStep(s, ev).node, ev.e.sender);
    } else {
      AppendsAreAppendTo(NodeStep(s, ev).node, e);
    }
  }

  lemma PreVoteIsReply(s: Node, m: Message, now: real)
    requires m.PreVote?
    ensures HandlePreVote(s, m, now).PreVoteReply?
  {
  }

  lemma AppendsAreAppendTo(s: Node, e: Envelope)
    requires e in Appends(s)
    ensures e == AppendTo(s, e.recipient) && e.recipient in s.peers
  {
    var k :| 0 <= k < |s.peers| && Appends(s)[k] == e;
  }

  lemma RetryIsAppendTo(s: Node, p: NodeId)
    ensures AppendTo(s, p).recipient == p
  {
  }

  /** Every AppendEntries that a step of a run puts on the network comes from a node that leads
      after that step, goes to one of its peers, and carries what that leader then has. */
  lemma SentAppendsCarryState(initial: Ledger, cs: seq<Cluster>, evs: seq<Event>, i: nat, e: Envelope)
    requires IsRun(initial, cs, evs) && i < |evs| && e in cs[i + 1].sent && e !in cs[i].sent && e.message.AppendEntries?
    ensures e.sender == Actor(evs[i]) && Leads(cs[i + 1], e.sender, e.message.term)
    ensures e.recipient in cs[i + 1].nodes[e.sender].peers && Carries(cs[i + 1].nodes[e.sender], e)
  {
    hide IsRun, NodeStep, AppendTo, Carries;
    RunSends(initial, cs, evs, i);
    var n := Actor(evs[i]);
    var s' := cs[i + 1].nodes[n];
    SentAppends(cs[i].nodes[n], evs[i], e);
    IdAt(initial, cs, evs, i + 1, n);
    if evs[i].DeliverEvent? && e.recipient == evs[i].e.sender {
      SenderStaysPeer(initial, cs, evs, i);
    }
    AckSoundness(initial, cs, evs, i + 1, n, e.recipient);
    CarriesIsExact(s', e);
    CarriedTerm(s', e);
  }

  lemma CarriedTerm(l: Node, e: Envelope)
    requires Carries(l, e)
    ensures e.sender == l.id && e.message.AppendEntries? && e.message.term == l.term
  {
  }

  lemma SenderStaysPeer(initial: Ledger, cs: seq<Cluster>, evs: seq<Event>, i: nat)
    requires IsRun(initial, cs, evs) && i < |evs| && evs[i].DeliverEvent?
    ensures evs[i].e.recipient in cs[i + 1].nodes && evs[i].e.sender in cs[i + 1].nodes[evs[i].e.recipient].peers
  {
    hide NodeStep, Initial, Receivable;
    RunSends(initial, cs, evs, i);
    SenderIsPeer(initial, cs, evs, i + 1, evs[i].e);
  }

  // ---- to whom and when ----

  /** Everything leader `l` has for each of its peers is on the network, and its next heartbeat
      is due one interval after `now`. */
  ghost predicate HasBroadcast(c: Cluster, l: Node, now: real) {
    && l.heartbeatDeadline == Some(now + l.heartbeatInterval)
    && forall p :: p in l.peers ==> CarriedTo(c, l, p)
  }

  ghost predicate CarriedTo(c: Cluster, l: Node, p: NodeId) {
    exists e :: e in c.sent && e.recipient == p && Carries(l, e)
  }

  /** The node just took over, or it leads and its heartbeat is due, or a command was proposed. */
  ghost predicate MustBroadcast(s: Node, ev: Event, s': Node) {
    || (s'.role == Leader && (s.role != Leader || s'.term != s.term))
    || (s.role == Leader && ev.ProposeEvent?)
    || (s.role == Leader && ev.TickEvent? && s.heartbeatDeadline.Some? && ev.now >= s.heartbeatDeadline.value)
  }

  lemma BroadcastStep(s: Node, ev: Event)
    requires (ev.DeliverEvent? ==> Receivable(ev.e.message)) && MustBroadcast(s, ev, NodeStep(s, ev).node)
    ensures var s' := NodeStep(s, ev).node;
            && s'.role == Leader && s'.heartbeatDeadline == Some(ev.now + s'.heartbeatInterval)
            && forall p :: p in s'.peers ==> AppendTo(s', p) in NodeStep(s, ev).sent
  {
    hide Follow, MajorityMatch, Backtrack, Fold, Appends, Broadcast, UpToDate, RecordMatch, BecomeCandidate, AppendTo;
    var s' := NodeStep(s, ev).node;
    AppendsReachAll(s');
    if ev.DeliverEvent? {
      var m := ev.e.message;
      if m.AppendEntries? {
        FollowKeepsElection(Recognise(Adopt(s, m.term, ev.now, ev.draw), m.leader, ev.now, ev.draw), m);
      } else if m.PreVoteReply? {
        NewLeaderBroadcasts(s.(prevotes := s.prevotes + {m.voter}), ev.now, ev.draw);
      } else if m.AppendReply? {
        RecordKeeps(s, ev.e.sender, m.matchIndex);
      }
    } else if TimesOut(s, ev) {
      NewLeaderBroadcasts(PrevoteRound(s, ev.now, ev.draw), ev.now, ev.draw);
    }
  }

  lemma AppendsReachAll(s: Node)
    ensures forall p :: p in s.peers ==> AppendTo(s, p) in Appends(s)
  {
    forall p | p in s.peers ensures AppendTo(s, p) in Appends(s) {
      var k :| 0 <= k < |s.peers| && s.peers[k] == p;
      assert Appends(s)[k] == AppendTo(s, p);
    }
  }

  lemma NewLeaderBroadcasts(s: Node, now: real, draw: real)
    ensures var out := BecomeCandidate(s, now, draw);
            out.node.role == Leader ==>
              && out.node.heartbeatDeadline == Some(now + out.node.heartbeatInterval)
              && forall p :: p in out.node.peers ==> AppendTo(out.node, p) in out.sent
  {
    hide AppendTo, Appends, Broadcast;
    AppendsReachAll(BecomeCandidate(s, now, draw).node);
  }

  /** A leader that takes over, is due for a heartbeat, or takes a proposal sends each of its
      peers everything it has for it. */
  lemma BroadcastsReachEverybody(initial: Ledger, cs: seq<Cluster>, evs: seq<Event>, i: nat)
    requires IsRun(initial, cs, evs) && i < |evs| && Actor(evs[i]) in cs[i].nodes && Actor(evs[i]) in cs[i + 1].nodes
    requires MustBroadcast(cs[i].nodes[Actor(evs[i])], evs[i], cs[i + 1].nodes[Actor(evs[i])])
    ensures HasBroadcast(cs[i + 1], cs[i + 1].nodes[Actor(evs[i])], evs[i].now)
  {
    hide IsRun, NodeStep, AppendTo, Carries, MustBroadcast;
    RunSends(initial, cs, evs, i);
    var n := Actor(evs[i]);
    var s' := cs[i + 1].nodes[n];
    BroadcastStep(cs[i].nodes[n], evs[i]);
    forall p | p in s'.peers ensures CarriedTo(cs[i + 1], s', p) {
      AckSoundness(initial, cs, evs, i + 1, n, p);
      AppendToCarries(s', p);
      assert AppendTo(s', p) in cs[i + 1].sent;
    }
  }

  /** A tick with no timer due changes nothing. */
  lemma EarlyTickIsQuiet(initial: Ledger, cs: seq<Cluster>, evs: seq<Event>, i: nat)
    requires IsRun(initial, cs, evs) && i < |evs| && evs[i].TickEvent? && evs[i].n in cs[i].nodes
    requires var s := cs[i].nodes[evs[i].n]; !TimesOut(s, evs[i]) && !MustBroadcast(s, evs[i], s)
    ensures cs[i + 1] == cs[i]
  {
    hide IsRun;
    RunSends(initial, cs, evs, i);
    assert cs[i + 1].nodes == cs[i].nodes;
  }

  /** A leader always has a next heartbeat scheduled. */
  lemma {:induction false} LeaderHasHeartbeatDue(initial: Ledger, cs: seq<Cluster>, evs: seq<Event>, i: nat, l: NodeId)
    requires IsRun(initial, cs, evs) && i < |cs| && l in cs[i].nodes && cs[i].nodes[l].role == Leader
    ensures cs[i].nodes[l].heartbeatDeadline.Some?
    decreases i
  {
    hide NodeStep, MustBroadcast;
    RunStep(initial, cs, evs, i - 1, l);
    if Actor(evs[i - 1]) == l {
      if MustBroadcast(cs[i - 1].nodes[l], evs[i - 1], cs[i].nodes[l]) {
        BroadcastStep(cs[i - 1].nodes[l], evs[i - 1]);
      } else {
        LeaderKeepsDeadline(cs[i - 1].nodes[l], evs[i - 1]);
        LeaderHasHeartbeatDue(initial, cs, evs, i - 1, l);
      }
    } else {
      LeaderHasHeartbeatDue(initial, cs, evs, i - 1, l);
    }
  }

  lemma LeaderKeepsDeadline(s: Node, ev: Event)
    requires ev.DeliverEvent? ==> Receivable(ev.e.message)
    requires NodeStep(s, ev).node.role == Leader && !MustBroadcast(s, ev, NodeStep(s, ev).node)
    ensures s.role == Leader && NodeStep(s, ev).node.heartbeatDeadline == s.heartbeatDeadline
  {
    hide Follow, MajorityMatch, Backtrack, Fold, Appends, Broadcast, UpToDate, RecordMatch, BecomeCandidate;
    if ev.DeliverEvent? {
      var m := ev.e.message;
      if m.AppendEntries? {
        FollowKeepsElection(Recognise(Adopt(s, m.term, ev.now, ev.draw), m.leader, ev.now, ev.draw), m);
      } else if m.PreVoteReply? {
        StandsInNextTerm(s.(prevotes := s.prevotes + {m.voter}), ev.now, ev.draw);
      } else if m.AppendReply? {
        RecordKeeps(s, ev.e.sender, m.matchIndex);
      }
    }
  }

  // ---- what a follower makes of it ----

  /** An AppendEntries is delivered to a node that has not moved past its term. */
  ghost predicate Hears(c: Cluster, ev: Event) {
    && ev.DeliverEvent? && ev.e.message.AppendEntries? && ev.e.recipient in c.nodes
    && c.nodes[ev.e.recipient].term <= ev.e.message.term
  }

  /** The log holds the entry that the request builds on. */
  ghost predicate HoldsPrevious(log: Log, m: Message)
    requires m.AppendEntries?
  {
    m.prevIndex == 0 || (1 <= m.prevIndex <= |log| && log[m.prevIndex - 1].term == m.prevTerm)
  }

  /** The log holds all the entries of the request already. */
  ghost predicate HoldsEntries(log: Log, m: Message)
    requires m.AppendEntries?
  {
    0 <= m.prevIndex && m.prevIndex + |m.entries| <= |log| && log[m.prevIndex..m.prevIndex + |m.entries|] == m.entries
  }

  /** Whoever hears the leader of its term, or of a later one, follows it from then on. */
  lemma HearingIsFollowing(initial: Ledger, cs: seq<Cluster>, evs: seq<Event>, i: nat)
    requires IsRun(initial, cs, evs) && i < |evs| && Hears(cs[i], evs[i])
    ensures evs[i].e.recipient in cs[i + 1].nodes
    ensures var s', m := cs[i + 1].nodes[evs[i].e.recipient], evs[i].e.message;
            && s'.term == m.term && s'.role == Follower && s'.leaderId == Some(m.leader)
            && s'.lastLeaderContact == Some(evs[i].now) && s'.electionDeadline == evs[i].now + evs[i].draw
  {
    hide IsRun, Follow;
    RunSends(initial, cs, evs, i);
    var s, ev := cs[i].nodes[evs[i].e.recipient], evs[i];
    var r := Recognise(Adopt(s, ev.e.message.term, ev.now, ev.draw), ev.e.message.leader, ev.now, ev.draw);
    FollowKeepsElection(r, ev.e.message);
    FollowKeepsContact(r, ev.e.message);
  }

  lemma AnswerIs(s: Node, ev: Event)
    requires ev.DeliverEvent? && ev.e.message.AppendEntries? && Receivable(ev.e.message)
    ensures var a := HandleAppendEntries(s, ev.e.message, ev.now, ev.draw);
            NodeStep(s, ev).node == a.node && Envelope(s.id, ev.e.sender, a.reply) in NodeStep(s, ev).sent
  {
    hide HandleAppendEntries;
    assert NodeStep(s, ev).sent[0] in NodeStep(s, ev).sent;
  }

  lemma AcceptedAnswer(s: Node, m: Message, now: real, draw: real)
    requires m.AppendEntries? && 0 <= m.prevIndex && s.term <= m.term && HoldsPrevious(s.log, m)
    ensures var a := HandleAppendEntries(s, m, now, draw);
            && a.reply == AppendReply(m.term, true, s.id, m.prevIndex + |m.entries|, 0, -1)
            && a.node.log == Merge(s.log, m.prevIndex, m.entries, 0)
  {
    hide Merge, Fold;
  }

  lemma {:induction false} MergeKeepsHeld(log: Log, prev: nat, entries: Log, offset: nat)
    requires offset <= |entries| && prev + |entries| <= |log| && log[prev..prev + |entries|] == entries
    ensures Merge(log, prev, entries, offset) == log
    decreases |entries| - offset
  {
    if offset < |entries| {
      assert log[prev + offset] == entries[offset];
      MergeKeepsHeld(log, prev, entries, offset + 1);
    }
  }

  /** A request that builds on an entry the follower holds is accepted.  The follower keeps its
      log if it has the entries already, and otherwise replaces whatever it has after the
      previous entry by them; it commits as far as the leader had; and it acknowledges, in its
      own name and in the leader's term, exactly up to the last entry sent. */
  lemma AcceptsAndAcknowledges(initial: Ledger, cs: seq<Cluster>, evs: seq<Event>, i: nat)
    requires IsRun(initial, cs, evs) && i < |evs| && Hears(cs[i], evs[i])
    requires HoldsPrevious(cs[i].nodes[evs[i].e.recipient].log, evs[i].e.message)
    ensures evs[i].e.recipient in cs[i + 1].nodes && 0 <= evs[i].e.message.prevIndex
    ensures var s, s', m := cs[i].nodes[evs[i].e.recipient], cs[i + 1].nodes[evs[i].e.recipient], evs[i].e.message;
            && m.prevIndex <= |s.log|
            && s'.log == (if HoldsEntries(s.log, m) then s.log else s.log[..m.prevIndex] + m.entries)
            && s'.commitIndex == Max(s.commitIndex, m.leaderCommit)
            && AckOf(evs[i].e) in cs[i + 1].sent
  {
    hide IsRun, NodeStep, HandleAppendEntries, Receivable;
    RunSends(initial, cs, evs, i);
    var e := evs[i].e;
    var s := cs[i].nodes[e.recipient];
    IdAt(initial, cs, evs, i, e.recipient);
    SentAppendsAreSound(initial, cs, evs, i, e);
    AnswerIs(s, evs[i]);
    AcceptedAnswer(s, e.message, evs[i].now, evs[i].draw);
    AcceptedCommit(initial, cs, evs, i);
    MergedLog(initial, cs, evs, i);
  }

  /** The acknowledgement that an accepted request gets. */
  function AckOf(e: Envelope): Envelope
    requires e.message.AppendEntries?
  {
    var m := e.message;
    Envelope(e.recipient, e.sender, AppendReply(m.term, true, e.recipient, m.prevIndex + |m.entries|, 0, -1))
  }

  lemma AcceptedCommit(initial: Ledger, cs: seq<Cluster>, evs: seq<Event>, i: nat)
    requires IsRun(initial, cs, evs) && i < |evs| && evs[i].DeliverEvent? && evs[i].e.message.AppendEntries?
    ensures evs[i].e.recipient in cs[i].nodes && 0 <= evs[i].e.message.prevIndex
    ensures var s, m := cs[i].nodes[evs[i].e.recipient], evs[i].e.message;
            var a := HandleAppendEntries(s, m, evs[i].now, evs[i].draw);
            a.node.commitIndex == if a.reply.success then Max(s.commitIndex, m.leaderCommit) else s.commitIndex
  {
    hide ClusterInv, Grows, HistoryInv, NodeInv, Initial, Next, MessageInv, HandleAppendEntries;
    RunSends(initial, cs, evs, i);
    var hs := RunHistory(initial, cs, evs);
    NodeAt(hs[i], initial, cs[i], evs[i].e.recipient);
    MessageAt(hs[i], initial, cs[i], evs[i].e);
    AppendRaisesCommit(hs[i], initial, cs[i].nodes[evs[i].e.recipient], evs[i].e, evs[i].now, evs[i].draw);
  }

  lemma MergedLog(initial: Ledger, cs: seq<Cluster>, evs: seq<Event>, i: nat)
    requires IsRun(initial, cs, evs) && i < |evs| && Hears(cs[i], evs[i]) && 0 <= evs[i].e.message.prevIndex
    requires HoldsPrevious(cs[i].nodes[evs[i].e.recipient].log, evs[i].e.message)
    ensures var log, m := cs[i].nodes[evs[i].e.recipient].log, evs[i].e.message;
            && m.prevIndex <= |log|
            && Merge(log, m.prevIndex, m.entries, 0)
               == if HoldsEntries(log, m) then log else log[..m.prevIndex] + m.entries
  {
    hide ClusterInv, Grows, HistoryInv, NodeInv, Initial, Next, MessageInv;
    RunSends(initial, cs, evs, i);
    var e := evs[i].e;
    var hs := RunHistory(initial, cs, evs);
    NodeAt(hs[i], initial, cs[i], e.recipient);
    MessageAt(hs[i], initial, cs[i], e);
    GoodLogAt(hs[i], hs[i], initial, cs[i].nodes[e.recipient]);
    LeaderLogIsGood(hs[i], initial, cs[i], e);
    MergedIntoGoodLog(hs[i], cs[i].nodes[e.recipient].log, e);
  }

  lemma LeaderLogIsGood(h: History, initial: Ledger, c: Cluster, e: Envelope)
    requires ClusterInv(h, initial, c) && MessageInv(h, e) && e.message.AppendEntries?
    ensures AppendInv(h, e) && GoodLog(h, h.llog[e.message.term], e.message.term)
  {
    hide ClusterInv, Committed;
    ReadyAt(h, initial, c, e.message.term);
  }

  lemma MergedIntoGoodLog(h: History, log: Log, e: Envelope)
    requires e.message.AppendEntries? && AppendInv(h, e)
    requires Backed(h, log) && Backed(h, h.llog[e.message.term]) && HoldsPrevious(log, e.message)
    ensures var m := e.message;
            && m.prevIndex <= |log|
            && Merge(log, m.prevIndex, m.entries, 0)
               == if HoldsEntries(log, m) then log else log[..m.prevIndex] + m.entries
  {
    hide Merge, Backed, Committed, Matching;
    var m := e.message;
    var leader := h.llog[m.term];
    BackedLogsMatch(h, log, leader);
    PreviousAgrees(log, leader, m);
    MergedSlice(log, leader, m.prevIndex, m.entries);
  }

  lemma PreviousAgrees(log: Log, leader: Log, m: Message)
    requires m.AppendEntries? && Matching(log, leader) && HoldsPrevious(log, m)
    requires 0 <= m.prevIndex <= |leader| && m.prevTerm == TermAt(leader, m.prevIndex)
    ensures Agree(log, leader, m.prevIndex)
  {
  }

  lemma MergedSlice(log: Log, leader: Log, prev: nat, entries: Log)
    requires prev + |entries| <= |leader| && entries == leader[prev..prev + |entries|]
    requires Agree(log, leader, prev) && Matching(log, leader)
    ensures prev <= |log|
    ensures var held := prev + |entries| <= |log| && log[prev..prev + |entries|] == entries;
            Merge(log, prev, entries, 0) == if held then log else log[..prev] + entries
  {
    hide Merge, Matching;
    MergeFollowsLeader(log, leader, prev, entries, 0);
    if prev + |entries| <= |log| && log[prev..prev + |entries|] == entries {
      MergeKeepsHeld(log, prev, entries, 0);
    } else {
      MergedIsNew(log, leader, prev, entries);
    }
  }

  lemma MergedIsNew(log: Log, leader: Log, prev: nat, entries: Log)
    requires prev + |entries| <= |leader| && entries == leader[prev..prev + |entries|] && Agree(log, leader, prev)
    requires !(prev + |entries| <= |log| && log[prev..prev + |entries|] == entries)
    requires var r := Merge(log, prev, entries, 0);
             Agree(r, leader, prev + |entries|) && (r == log || r == leader[..prev + |entries|])
    ensures Merge(log, prev, entries, 0) == log[..prev] + entries
  {
    hide Merge;
    var r := Merge(log, prev, entries, 0);
    assert log[..prev] == leader[..prev];
    assert leader[..prev + |entries|] == leader[..prev] + entries;
  }

  /** A request that builds on an entry the follower does not hold is rejected.  The follower's
      log and commit index stay, and the answer reports where its log parts from the request. */
  lemma RejectsAndReports(initial: Ledger, cs: seq<Cluster>, evs: seq<Event>, i: nat)
    returns (conflictIndex: int, conflictTerm: int)
    requires IsRun(initial, cs, evs) && i < |evs| && Hears(cs[i], evs[i])
    requires !HoldsPrevious(cs[i].nodes[evs[i].e.recipient].log, evs[i].e.message)
    ensures evs[i].e.recipient in cs[i + 1].nodes && 1 <= evs[i].e.message.prevIndex
    ensures var e, s, s' := evs[i].e, cs[i].nodes[evs[i].e.recipient], cs[i + 1].nodes[evs[i].e.recipient];
            && s'.log == s.log && s'.commitIndex == s.commitIndex && s'.ledger == s.ledger
            && Reports(s.log, e.message.prevIndex, conflictIndex, conflictTerm)
            && var reply := AppendReply(e.message.term, false, e.recipient, 0, conflictIndex, conflictTerm);
               Envelope(e.recipient, e.sender, reply) in cs[i + 1].sent
  {
    hide IsRun, NodeStep, HandleAppendEntries, Receivable, Reports;
    RunSends(initial, cs, evs, i);
    var e := evs[i].e;
    var s := cs[i].nodes[e.recipient];
    IdAt(initial, cs, evs, i, e.recipient);
    SentAppendsAreSound(initial, cs, evs, i, e);
    AnswerIs(s, evs[i]);
    RejectedAnswer(s, e.message, evs[i].now, evs[i].draw);
    RejectionReport(s, e.message, evs[i].now, evs[i].draw);
    var reply := HandleAppendEntries(s, e.message, evs[i].now, evs[i].draw).reply;
    conflictIndex, conflictTerm := reply.conflictIndex, reply.conflictTerm;
  }

  lemma RejectedAnswer(s: Node, m: Message, now: real, draw: real)
    requires m.AppendEntries? && 0 <= m.prevIndex && s.term <= m.term && !HoldsPrevious(s.log, m)
    ensures var a := HandleAppendEntries(s, m, now, draw);
            && a.reply.AppendReply? && !a.reply.success && a.reply.responder == s.id && a.reply.matchIndex == 0
            && a.node.log == s.log && a.node.commitIndex == s.commitIndex && a.node.ledger == s.ledger
  {
    hide Accept, FirstIndexOfTerm;
  }

  /** A request of an earlier term changes nothing and is told the later one. */
  lemma StaleRequestIsRefused(initial: Ledger, cs: seq<Cluster>, evs: seq<Event>, i: nat)
    requires IsRun(initial, cs, evs) && i < |evs| && evs[i].DeliverEvent? && evs[i].e.message.AppendEntries?
    requires cs[i].nodes[evs[i].e.recipient].term > evs[i].e.message.term
    ensures cs[i + 1].nodes == cs[i].nodes
    ensures var e := evs[i].e;
            Envelope(e.recipient, e.sender, AppendReply(cs[i].nodes[e.recipient].term, false, e.recipient, 0, 0, -1))
            in cs[i + 1].sent
  {
    hide IsRun, NodeStep;
    RunSends(initial, cs, evs, i);
    IdAt(initial, cs, evs, i, evs[i].e.recipient);
    AnswerIs(cs[i].nodes[evs[i].e.recipient], evs[i]);
  }

  // ---- what the leader records ----

  /** A leader of its own term takes a rejection. */
  ghost predicate TakesRejection(c: Cluster, ev: Event) {
    && ev.DeliverEvent? && ev.e.message.AppendReply? && !ev.e.message.success && ev.e.recipient in c.nodes
    && Leads(c, ev.e.recipient, ev.e.message.term)
  }

  /** The last index of a log that holds an entry of `term`, 0 if there is none. */
  ghost predicate LastOf(log: Log, term: int, r: int) {
    && 0 <= r <= |log| && (r > 0 ==> log[r - 1].term == term)
    && forall k :: r <= k < |log| ==> log[k].term != term
  }

  /** After a rejection the leader resumes right after its own last entry of the conflicting
      term, or at the reported index if it has none, and retries at once; nothing else moves. */
  lemma RejectionIsRetried(initial: Ledger, cs: seq<Cluster>, evs: seq<Event>, i: nat) returns (last: int)
    requires IsRun(initial, cs, evs) && i < |evs| && TakesRejection(cs[i], evs[i])
    ensures evs[i].e.recipient in cs[i + 1].nodes
    ensures var s, s', m := cs[i].nodes[evs[i].e.recipient], cs[i + 1].nodes[evs[i].e.recipient], evs[i].e.message;
            && LastOf(s.log, m.conflictTerm, last) && CarriedTo(cs[i + 1], s', evs[i].e.sender)
            && var next := if last > 0 then last + 1 else Max(1, m.conflictIndex);
               s' == s.(nextIndex := s.nextIndex[evs[i].e.sender := next])
  {
    hide IsRun, Carries, AppendTo, LastIndexOfTerm, Sorted;
    RunSends(initial, cs, evs, i);
    var e := evs[i].e;
    var s, s' := cs[i].nodes[e.recipient], cs[i + 1].nodes[e.recipient];
    SortedAt(initial, cs, evs, i, e.recipient);
    last := LastIndexOfTerm(s.log, e.message.conflictTerm, |s.log|);
    LastIndexIsLast(s.log, e.message.conflictTerm, |s.log|);
    ReportedIndex(initial, cs, evs, i, e);
    SenderStaysPeer(initial, cs, evs, i);
    AckSoundness(initial, cs, evs, i + 1, e.recipient, e.sender);
    AppendToCarries(s', e.sender);
    assert NodeStep(s, evs[i]).sent[0] in NodeStep(s, evs[i]).sent;
  }

  lemma ReportedIndex(initial: Ledger, cs: seq<Cluster>, evs: seq<Event>, i: nat, e: Envelope)
    requires IsRun(initial, cs, evs) && i < |cs| && e in cs[i].sent && e.message.AppendReply? && !e.message.success
    ensures e.message.conflictTerm != -1 ==> e.message.conflictIndex >= 1
  {
    hide ClusterInv, Grows, HistoryInv, Initial, Next;
    var hs := RunHistory(initial, cs, evs);
    MessageAt(hs[i], initial, cs[i], e);
  }

  // ---- indexes over a leadership ----

  /** A new leader assumes that its peers' logs end where its own does, and nothing matched. */
  lemma NewLeaderStep(s: Node, ev: Event)
    requires ev.DeliverEvent? ==> Receivable(ev.e.message)
    requires NodeStep(s, ev).node.role == Leader && (s.role != Leader || NodeStep(s, ev).node.term != s.term)
    ensures var s' := NodeStep(s, ev).node;
            s'.log == s.log && s'.leaderId == Some(s.id) && StartsOver(s')
  {
    hide Follow, MajorityMatch, Backtrack, Fold, Appends, Broadcast, UpToDate, RecordMatch, BecomeCandidate;
    hide MaybeBecomeLeader, StartsOver;
    if ev.DeliverEvent? {
      var m := ev.e.message;
      if m.AppendEntries? {
        FollowKeepsElection(Recognise(Adopt(s, m.term, ev.now, ev.draw), m.leader, ev.now, ev.draw), m);
      } else if m.PreVoteReply? {
        CandidateStartsOver(s.(prevotes := s.prevotes + {m.voter}), ev.now, ev.draw);
      } else if m.VoteReply? {
        WinnerStartsOver(s.(votes := s.votes + {m.voter}), ev.now);
      } else if m.AppendReply? {
        RecordKeeps(s, ev.e.sender, m.matchIndex);
      }
    } else if TimesOut(s, ev) {
      CandidateStartsOver(PrevoteRound(s, ev.now, ev.draw), ev.now, ev.draw);
    }
  }

  ghost predicate StartsOver(s: Node) {
    s.matchIndex == (map p | p in s.peers :: 0) && s.nextIndex == map p | p in s.peers :: |s.log| + 1
  }

  lemma WinnerStartsOver(s: Node, now: real)
    requires s.role == Candidate
    ensures var s' := MaybeBecomeLeader(s, now).node;
            s'.log == s.log && (s'.role == Leader ==> s'.leaderId == Some(s.id) && StartsOver(s'))
  {
    hide Appends;
  }

  lemma CandidateStartsOver(s: Node, now: real, draw: real)
    ensures var s' := BecomeCandidate(s, now, draw).node;
            s'.log == s.log && (s'.role == Leader ==> s'.leaderId == Some(s.id) && StartsOver(s'))
  {
    hide MaybeBecomeLeader, StartsOver, Broadcast, LastTerm;
    WinnerStartsOver(Candidacy(s, now, draw), now);
  }

  /** Only a reply of its own term moves an index of a leader that keeps leading. */
  lemma IndexesStay(s: Node, ev: Event)
    requires (ev.DeliverEvent? ==> Receivable(ev.e.message)) && s.role == Leader
    requires NodeStep(s, ev).node.role == Leader && NodeStep(s, ev).node.term == s.term
    requires !(ev.DeliverEvent? && ev.e.message.AppendReply? && ev.e.message.term == s.term)
    ensures NodeStep(s, ev).node.matchIndex == s.matchIndex && NodeStep(s, ev).node.nextIndex == s.nextIndex
  {
    hide Follow, MajorityMatch, Backtrack, Fold, Appends, Broadcast, UpToDate, RecordMatch, LastTerm;
    if ev.DeliverEvent? && ev.e.message.AppendEntries? {
      LeaderFollows(s, ev.e.message, ev.now, ev.draw);
      ReceiveIsNodeStep(s, ev);
    }
  }

  /** The leadership of `l` in term `t` that began with step `i` still lasts in state `j`. */
  ghost predicate LeadsSince(cs: seq<Cluster>, l: NodeId, t: nat, i: nat, j: nat) {
    && i < j < |cs| && l in cs[i].nodes && !Leads(cs[i], l, t)
    && forall k :: i < k <= j ==> Leads(cs[k], l, t)
  }

  /** An acknowledgement of term `t` by `p` reaches `l`. */
  predicate AckBy(ev: Event, l: NodeId, p: NodeId, t: nat) {
    && ev.DeliverEvent? && ev.e.recipient == l && ev.e.sender == p
    && ev.e.message.AppendReply? && ev.e.message.success && ev.e.message.term == t
  }

  /** The largest acknowledgement of term `t` by `p` delivered to `l` after step `i`, before
      state `j`. */
  function LargestAck(evs: seq<Event>, l: NodeId, p: NodeId, t: nat, i: nat, j: nat): int
    requires j <= |evs|
  {
    if j <= i + 1 then 0
    else
      var before := LargestAck(evs, l, p, t, i, j - 1);
      if AckBy(evs[j - 1], l, p, t) then Max(before, evs[j - 1].e.message.matchIndex) else before
  }

  lemma LeadsBefore(cs: seq<Cluster>, l: NodeId, t: nat, i: nat, j: nat)
    requires LeadsSince(cs, l, t, i, j)
    ensures i < j < |cs| && l in cs[i].nodes && !Leads(cs[i], l, t) && Leads(cs[j], l, t)
    ensures j > i + 1 ==> LeadsSince(cs, l, t, i, j - 1) && Leads(cs[j - 1], l, t)
  {
  }

  /** At every moment of a leadership the match index of a peer is the largest acknowledgement
      of the leader's term that was delivered from that peer since the leadership began. */
  lemma {:induction false} MatchIsLargestAck(initial: Ledger, cs: seq<Cluster>, evs: seq<Event>, l: NodeId, p: NodeId,
                                             t: nat, i: nat, j: nat)
    requires IsRun(initial, cs, evs) && LeadsSince(cs, l, t, i, j) && p in cs[j].nodes[l].peers
    ensures j <= |evs| && p in cs[j].nodes[l].matchIndex
    ensures cs[j].nodes[l].matchIndex[p] == LargestAck(evs, l, p, t, i, j)
    decreases j
  {
    hide IsRun, NodeStep, LeadsSince, AckBy;
    LeadsBefore(cs, l, t, i, j);
    RunLength(initial, cs, evs);
    RunStep(initial, cs, evs, j - 1, l);
    AckSoundness(initial, cs, evs, j, l, p);
    var ev := evs[j - 1];
    if j == i + 1 {
      NewLeaderStep(cs[i].nodes[l], ev);
    } else {
      SamePeers(initial, cs, evs, j - 1, l);
      MatchIsLargestAck(initial, cs, evs, l, p, t, i, j - 1);
      LeadershipStep(initial, cs, evs, j - 1, l, p, t);
    }
  }

  lemma SamePeers(initial: Ledger, cs: seq<Cluster>, evs: seq<Event>, k: nat, l: NodeId)
    requires IsRun(initial, cs, evs) && k < |evs| && l in cs[k].nodes
    ensures l in cs[k + 1].nodes && cs[k + 1].nodes[l].peers == cs[k].nodes[l].peers
  {
    hide IsRun, NodeStep;
    RunStep(initial, cs, evs, k, l);
    if Actor(evs[k]) == l {
      PeersStay(cs[k].nodes[l], evs[k]);
    }
  }

  lemma LeadershipStep(initial: Ledger, cs: seq<Cluster>, evs: seq<Event>, k: nat, l: NodeId, p: NodeId, t: nat)
    requires IsRun(initial, cs, evs) && k < |evs| && Leads(cs[k], l, t) && Leads(cs[k + 1], l, t)
    requires p in cs[k].nodes[l].matchIndex
    ensures var before := cs[k].nodes[l].matchIndex[p];
            && p in cs[k + 1].nodes[l].matchIndex
            && cs[k + 1].nodes[l].matchIndex[p]
               == if AckBy(evs[k], l, p, t) then Max(before, evs[k].e.message.matchIndex) else before
  {
    hide IsRun, NodeStep, CarriedTo;
    RunStep(initial, cs, evs, k, l);
    var ev := evs[k];
    if TakesAck(cs[k], ev) && Actor(ev) == l {
      RecordsAck(initial, cs, evs, k);
    } else if TakesRejection(cs[k], ev) && Actor(ev) == l {
      var _ := RejectionIsRetried(initial, cs, evs, k);
    } else if Actor(ev) == l {
      IndexesStay(cs[k].nodes[l], ev);
    }
  }

  /** Whoever starts to lead names itself and starts over with its peers: nothing matched, and
      replication resumes after its last entry. */
  lemma NewLeaderStartsOver(initial: Ledger, cs: seq<Cluster>, evs: seq<Event>, i: nat, l: NodeId, t: nat)
    requires IsRun(initial, cs, evs) && i < |evs| && l in cs[i].nodes && !Leads(cs[i], l, t) && Leads(cs[i + 1], l, t)
    ensures var s, s' := cs[i].nodes[l], cs[i + 1].nodes[l];
            && s'.log == s.log && s'.leaderId == Some(l)
            && forall p :: p in s'.peers ==>
                 && p in s'.matchIndex && s'.matchIndex[p] == 0
                 && p in s'.nextIndex && s'.nextIndex[p] == |s'.log| + 1
  {
    hide IsRun, NodeStep;
    RunStep(initial, cs, evs, i, l);
    IdAt(initial, cs, evs, i, l);
    NewLeaderStep(cs[i].nodes[l], evs[i]);
  }

  /** Only a reply of the leader's term by that very peer moves a peer's indexes. */
  lemma OtherIndexesStay(initial: Ledger, cs: seq<Cluster>, evs: seq<Event>, k: nat, l: NodeId, p: NodeId, t: nat)
    requires IsRun(initial, cs, evs) && k < |evs| && Leads(cs[k], l, t) && Leads(cs[k + 1], l, t)
    requires p in cs[k].nodes[l].peers
    requires !(evs[k].DeliverEvent? && evs[k].e.recipient == l && evs[k].e.sender == p
               && evs[k].e.message.AppendReply? && evs[k].e.message.term == t)
    ensures var s, s' := cs[k].nodes[l], cs[k + 1].nodes[l];
            && p in s.nextIndex && p in s'.nextIndex && s'.nextIndex[p] == s.nextIndex[p]
            && p in s.matchIndex && p in s'.matchIndex && s'.matchIndex[p] == s.matchIndex[p]
  {
    hide IsRun, NodeStep, CarriedTo;
    RunStep(initial, cs, evs, k, l);
    AckSoundness(initial, cs, evs, k, l, p);
    var ev := evs[k];
    if TakesAck(cs[k], ev) && Actor(ev) == l {
      RecordsAck(initial, cs, evs, k);
    } else if TakesRejection(cs[k], ev) && Actor(ev) == l {
      var _ := RejectionIsRetried(initial, cs, evs, k);
    } else if Actor(ev) == l {
      IndexesStay(cs[k].nodes[l], ev);
    }
  }

  // ---- all the way ----

  /** What a leader had committed when it sent a request, a follower that accepts the request
      has committed too. */
  lemma CommitReachesFollower(initial: Ledger, cs: seq<Cluster>, evs: seq<Event>, i: nat, j: nat, e: Envelope)
    requires IsRun(initial, cs, evs) && i < j < |evs| && e in cs[i + 1].sent && e !in cs[i].sent
    requires e.message.AppendEntries?
    requires evs[j].DeliverEvent? && evs[j].e == e && Hears(cs[j], evs[j])
    requires HoldsPrevious(cs[j].nodes[e.recipient].log, e.message)
    ensures e.sender in cs[i + 1].nodes && e.recipient in cs[j + 1].nodes
    ensures cs[j + 1].nodes[e.recipient].commitIndex >= cs[i + 1].nodes[e.sender].commitIndex
  {
    hide IsRun, HoldsPrevious;
    SentAppendsCarryState(initial, cs, evs, i, e);
    AcceptsAndAcknowledges(initial, cs, evs, j);
  }

  /** When the acknowledgement of an accepted request reaches its sender, still leading, the
      match index of the follower is at least what the request ended with, and the follower's
      log after accepting agreed with the leader's up to there. */
  lemma AckReachesLeader(initial: Ledger, cs: seq<Cluster>, evs: seq<Event>, i: nat, j: nat)
    requires IsRun(initial, cs, evs) && i < j < |evs| && Hears(cs[i], evs[i])
    requires HoldsPrevious(cs[i].nodes[evs[i].e.recipient].log, evs[i].e.message)
    requires evs[j].DeliverEvent? && evs[j].e == AckOf(evs[i].e) && Leads(cs[j], evs[i].e.sender, evs[i].e.message.term)
    ensures var l, f, n := evs[i].e.sender, evs[i].e.recipient, evs[i].e.message.prevIndex + |evs[i].e.message.entries|;
            && l in cs[j + 1].nodes && f in cs[i + 1].nodes && f in cs[j + 1].nodes[l].matchIndex
            && cs[j + 1].nodes[l].matchIndex[f] >= n
            && Agree(cs[i + 1].nodes[f].log, cs[j].nodes[l].log, n)
  {
    hide IsRun, HoldsPrevious, Agree;
    RunLength(initial, cs, evs);
    RunStep(initial, cs, evs, j, evs[i].e.sender);
    AcceptsAndAcknowledges(initial, cs, evs, i);
    assert TakesAck(cs[j], evs[j]);
    RecordsAck(initial, cs, evs, j);
    AcceptedAgrees(initial, cs, evs, i, j);
  }

  lemma AcceptedAgrees(initial: Ledger, cs: seq<Cluster>, evs: seq<Event>, i: nat, j: nat)
    requires IsRun(initial, cs, evs) && i < j < |evs| && Hears(cs[i], evs[i]) && 0 <= evs[i].e.message.prevIndex
    requires HoldsPrevious(cs[i].nodes[evs[i].e.recipient].log, evs[i].e.message)
    requires evs[i].e.recipient in cs[i + 1].nodes && Leads(cs[j], evs[i].e.sender, evs[i].e.message.term)
    requires var s, s', m := cs[i].nodes[evs[i].e.recipient], cs[i + 1].nodes[evs[i].e.recipient], evs[i].e.message;
             && m.prevIndex <= |s.log|
             && s'.log == if HoldsEntries(s.log, m) then s.log else s.log[..m.prevIndex] + m.entries
    ensures var m := evs[i].e.message;
            Agree(cs[i + 1].nodes[evs[i].e.recipient].log, cs[j].nodes[evs[i].e.sender].log, m.prevIndex + |m.entries|)
  {
    hide IsRun, HandleAppendEntries, CommonPrefix, Agree, HoldsEntries;
    RunSends(initial, cs, evs, i);
    var e, m := evs[i].e, evs[i].e.message;
    var f := cs[i].nodes[e.recipient];
    AcceptsExactlyCommonPrefix(initial, cs, evs, i, j, e.sender);
    SuccessReport(f, m, evs[i].now, evs[i].draw);
    EntriesAtLeader(initial, cs, evs, i, j, e);
    PrefixAndEntriesAgree(f.log, cs[i + 1].nodes[e.recipient].log, cs[j].nodes[e.sender].log, m);
  }

  lemma EntriesAtLeader(initial: Ledger, cs: seq<Cluster>, evs: seq<Event>, i: nat, j: nat, e: Envelope)
    requires IsRun(initial, cs, evs) && i <= j < |cs| && e in cs[i].sent && e.message.AppendEntries?
    requires Leads(cs[j], e.sender, e.message.term)
    ensures var m, log := e.message, cs[j].nodes[e.sender].log;
            && 0 <= m.prevIndex && m.prevIndex + |m.entries| <= |log|
            && forall k :: 0 <= k < |m.entries| ==> log[m.prevIndex + k] == m.entries[k]
  {
    hide ClusterInv, Grows, HistoryInv, NodeInv, Initial, Next, MessageInv;
    var hs := RunHistory(initial, cs, evs);
    NodeAt(hs[j], initial, cs[j], e.sender);
    MessageAt(hs[i], initial, cs[i], e);
    EntriesInLeaderLog(hs[i], hs[j], initial, e, cs[j].nodes[e.sender]);
  }

  lemma PrefixAndEntriesAgree(before: Log, after: Log, leader: Log, m: Message)
    requires m.AppendEntries? && 0 <= m.prevIndex <= CommonPrefix(leader, before)
    requires m.prevIndex + |m.entries| <= |leader|
    requires forall k :: 0 <= k < |m.entries| ==> leader[m.prevIndex + k] == m.entries[k]
    requires after == if HoldsEntries(before, m) then before else before[..m.prevIndex] + m.entries
    ensures Agree(after, leader, m.prevIndex + |m.entries|)
  {
    hide CommonPrefix;
    assert forall k :: 0 <= k < m.prevIndex ==> after[k] == before[k] == leader[k];
    assert forall k :: 0 <= k < |m.entries| ==> after[m.prevIndex + k] == m.entries[k];
    forall k | 0 <= k < m.prevIndex + |m.entries| ensures after[k] == leader[k] {
      if k >= m.prevIndex {
        assert after[m.prevIndex + (k - m.prevIndex)] == leader[m.prevIndex + (k - m.prevIndex)];
      }
    }
  }

  /** The entries of a request are in the log of the leader that sent it, at any later moment. */
  lemma EntriesInLeaderLog(h: History, h': History, initial: Ledger, e: Envelope, l: Node)
    requires MessageInv(h, e) && e.message.AppendEntries? && Grows(h, h')
    requires NodeInv(h', initial, l) && l.role == Leader && l.term == e.message.term
    ensures var m := e.message;
            && 0 <= m.prevIndex && m.prevIndex + |m.entries| <= |l.log|
            && forall k :: 0 <= k < |m.entries| ==> l.log[m.prevIndex + k] == m.entries[k]
  {
    hide NodeStore, NodeAcks, NodeVotes, AcksGrow, Committed;
    var t := e.message.term;
    assert Agree(h.llog[t], h'.llog[t], |h.llog[t]|);
  }
}

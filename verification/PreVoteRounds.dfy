/** Prevote rounds over whole runs: what exactly makes a round end in a real election, and
    what a cluster can check before a round to know that it will not. */
module RaftPreVoteRounds {
  import opened Wrappers
  import opened LedgerModel
  import opened RaftTypes
  import opened RaftLog
  import opened RaftStep
  import opened RaftHistory
  import opened RaftQuorums
  import opened RaftCluster
  import opened RaftDurability
  import opened RaftRunTheorems
  import opened RaftPreVoteContainment

  // ---- a round ----

  /** The step by which node `s` opens a prevote round. */
  predicate TimesOut(s: Node, ev: Event) {
    ev.TickEvent? && s.role != Leader && ev.now >= s.electionDeadline
  }

  ghost predicate Opens(c: Cluster, ev: Event, n: NodeId) {
    Actor(ev) == n && n in c.nodes && TimesOut(c.nodes[n], ev)
  }

  /** The round that `n` opened by step `i` is still open in state `j`: `n` has neither left
      its term nor restarted nor opened another round. */
  ghost predicate OpenSince(cs: seq<Cluster>, evs: seq<Event>, n: NodeId, i: nat, j: nat) {
    && i < j < |cs| && |cs| == |evs| + 1 && Opens(cs[i], evs[i], n)
    && (forall k :: i < k <= j ==> n in cs[k].nodes && cs[k].nodes[n].term == cs[i].nodes[n].term)
    && (forall k :: i < k < j ==> !Opens(cs[k], evs[k], n) && !(evs[k].RestartEvent? && evs[k].n == n))
  }

  /** A grant that reaches `n` in term `t`.  Nothing ties it to the round it answers. */
  predicate Grant(ev: Event, n: NodeId, t: nat) {
    ev.DeliverEvent? && CountableGrant(ev.e, n, t)
  }

  predicate CountableGrant(e: Envelope, n: NodeId, t: nat) {
    e.recipient == n && e.message.PreVoteReply? && e.message.granted && e.message.term <= t
  }

  /** The node itself and the voters of the grants delivered to it after step `i`, before
      state `j`. */
  function Tally(evs: seq<Event>, n: NodeId, t: nat, i: nat, j: nat): set<NodeId>
    requires j <= |evs|
  {
    if j <= i + 1 then {n}
    else Tally(evs, n, t, i, j - 1) + (if Grant(evs[j - 1], n, t) then {evs[j - 1].e.message.voter} else {})
  }

  // ---- what one step does to an open round ----

  ghost predicate Rounding(s: Node) {
    RoundOpen(s) && |s.prevotes| < Majority(s)
  }

  /** A step moves the term of a node with an open round by making it stand, or because the
      message taken is of that later term. */
  ghost predicate MovedByMessage(s: Node, ev: Event, s': Node) {
    ev.DeliverEvent? && !ev.e.message.PreVote? && ev.e.message.term == s'.term > s.term
  }

  lemma RoundStep(s: Node, ev: Event)
    requires Rounding(s) && s.id in s.prevotes && !TimesOut(s, ev) && !ev.RestartEvent?
    requires Actor(ev) == s.id && (ev.DeliverEvent? ==> Receivable(ev.e.message))
    ensures var s' := NodeStep(s, ev).node;
            var tally := s.prevotes + (if Grant(ev, s.id, s.term) then {ev.e.message.voter} else {});
            && s'.peers == s.peers
            && (s'.role != Follower <==> |tally| >= Majority(s))
            && (s'.role != Follower ==> s'.term == s.term + 1)
            && (s'.role == Follower && s'.term != s.term ==> MovedByMessage(s, ev, s'))
            && (s'.term == s.term ==> Rounding(s') && s'.prevotes == tally)
  {
    hide Follow, MajorityMatch, Backtrack, Fold, Appends, Broadcast, UpToDate, RecordMatch, BecomeCandidate;
    if ev.DeliverEvent? {
      var m := ev.e.message;
      if m.AppendEntries? {
        FollowKeepsElection(Recognise(Adopt(s, m.term, ev.now, ev.draw), m.leader, ev.now, ev.draw), m);
      } else if m.PreVoteReply? {
        StandsInNextTerm(s.(prevotes := s.prevotes + {m.voter}), ev.now, ev.draw);
      }
    }
    assert s.prevotes + {} == s.prevotes;
  }

  lemma StandsInNextTerm(s: Node, now: real, draw: real)
    ensures var c := BecomeCandidate(s, now, draw).node;
            c.term == s.term + 1 && c.role != Follower && c.peers == s.peers && c.electionDeadline == now + draw
  {
    hide Appends, Broadcast;
  }

  lemma OpeningStep(s: Node, ev: Event)
    requires TimesOut(s, ev)
    ensures var s' := NodeStep(s, ev).node;
            && s'.peers == s.peers
            && (s'.role != Follower <==> Majority(s) <= 1)
            && (s'.role != Follower ==> s'.term == s.term + 1)
            && (s'.role == Follower ==> s'.term == s.term && Rounding(s') && s'.prevotes == {s.id})
  {
    hide Appends, Broadcast, BecomeCandidate;
    assert |{s.id}| == 1;
    StandsInNextTerm(PrevoteRound(s, ev.now, ev.draw), ev.now, ev.draw);
  }

  // ---- a round over a run ----

  /** While a round is open the node counts exactly the grants delivered since it opened, and
      they are not yet a majority. */
  lemma {:induction false} CountsDeliveredGrants(initial: Ledger, cs: seq<Cluster>, evs: seq<Event>, n: NodeId,
                                                 i: nat, j: nat)
    requires IsRun(initial, cs, evs) && OpenSince(cs, evs, n, i, j)
    ensures var s := cs[j].nodes[n];
            && s.id == n && s.peers == cs[i].nodes[n].peers
            && Rounding(s) && s.prevotes == Tally(evs, n, s.term, i, j) && n in s.prevotes
    decreases j
  {
    hide IsRun, OpenSince, NodeStep, Rounding, Grant;
    OpenBefore(cs, evs, n, i, j);
    IdAt(initial, cs, evs, j, n);
    RunStep(initial, cs, evs, j - 1, n);
    if j == i + 1 {
      IdAt(initial, cs, evs, i, n);
      OpeningStep(cs[i].nodes[n], evs[i]);
    } else {
      CountsDeliveredGrants(initial, cs, evs, n, i, j - 1);
      if Actor(evs[j - 1]) == n {
        RoundStep(cs[j - 1].nodes[n], evs[j - 1]);
      } else {
        GrantIsTaken(evs[j - 1], n, cs[j].nodes[n].term);
      }
    }
  }

  lemma OpenBefore(cs: seq<Cluster>, evs: seq<Event>, n: NodeId, i: nat, j: nat)
    requires OpenSince(cs, evs, n, i, j)
    ensures i < j < |cs| == |evs| + 1
    ensures n in cs[j].nodes && n in cs[j - 1].nodes && n in cs[i].nodes
    ensures cs[j].nodes[n].term == cs[j - 1].nodes[n].term == cs[i].nodes[n].term
    ensures j == i + 1 ==> TimesOut(cs[i].nodes[n], evs[i]) && Actor(evs[i]) == n
    ensures j > i + 1 ==>
              && OpenSince(cs, evs, n, i, j - 1)
              && (Actor(evs[j - 1]) == n ==> !TimesOut(cs[j - 1].nodes[n], evs[j - 1]) && !evs[j - 1].RestartEvent?)
  {
  }

  lemma GrantIsTaken(ev: Event, n: NodeId, t: nat)
    ensures Grant(ev, n, t) ==> Actor(ev) == n
  {
  }

  lemma IdAt(initial: Ledger, cs: seq<Cluster>, evs: seq<Event>, i: nat, n: NodeId)
    requires IsRun(initial, cs, evs) && i < |cs| && n in cs[i].nodes
    ensures cs[i].nodes[n].id == n
  {
    hide ClusterInv, Grows, HistoryInv, NodeInv, Initial, Next;
    var hs := RunHistory(initial, cs, evs);
    NodeAt(hs[i], initial, cs[i], n);
  }

  /** Exactly when a round ends in an election, for any cluster and any run: the node stands
      if and only if it and the voters of the grants delivered since the round opened are a
      majority.  It makes no difference when, in which term or for which round they were
      given. */
  lemma StandsExactlyOnMajority(initial: Ledger, cs: seq<Cluster>, evs: seq<Event>, n: NodeId, i: nat, j: nat)
    requires IsRun(initial, cs, evs) && OpenSince(cs, evs, n, i, j) && j < |evs|
    ensures var s, s' := cs[j].nodes[n], cs[j + 1].nodes[n];
            && (s'.role != Follower <==> |Tally(evs, n, s.term, i, j + 1)| >= Majority(s))
            && (s'.role != Follower ==> s'.term == s.term + 1)
            && (s'.role == Follower ==> s'.term == s.term || (Actor(evs[j]) == n && MovedByMessage(s, evs[j], s')))
  {
    hide NodeStep, Initial;
    CountsDeliveredGrants(initial, cs, evs, n, i, j);
    var s, ev := cs[j].nodes[n], evs[j];
    if Actor(ev) == n {
      if TimesOut(s, ev) {
        OpeningStep(s, ev);
        SubsetSize({n}, s.prevotes);
        assert Tally(evs, n, s.term, i, j + 1) == s.prevotes;
      } else if ev.RestartEvent? {
        RestartIsNodeStep(s, ev);
        assert Tally(evs, n, s.term, i, j + 1) == s.prevotes;
      } else {
        RoundStep(s, ev);
      }
    } else {
      assert Tally(evs, n, s.term, i, j + 1) == s.prevotes;
    }
  }

  lemma RestartIsNodeStep(s: Node, ev: Event)
    requires ev.RestartEvent?
    ensures NodeStep(s, ev).node == Restart(s, ev.now, ev.draw)
    ensures NodeStep(s, ev).node.role == Follower && NodeStep(s, ev).node.term == s.term
  {
  }

  /** A round opens with the node's own grant, and ends at once only without peers. */
  lemma RoundOpensAlone(initial: Ledger, cs: seq<Cluster>, evs: seq<Event>, n: NodeId, i: nat)
    requires IsRun(initial, cs, evs) && i < |evs| && Opens(cs[i], evs[i], n)
    ensures var s, s' := cs[i].nodes[n], cs[i + 1].nodes[n];
            if s.peers == [] then s'.role != Follower && s'.term == s.term + 1
            else OpenSince(cs, evs, n, i, i + 1)
  {
    hide NodeStep, Initial;
    OpeningStep(cs[i].nodes[n], evs[i]);
  }

  // ---- who can grant ----

  /** What a node asks when it opens a round. */
  function Ask(s: Node): Message {
    PreVote(s.term + 1, s.id, |s.log|, LastTerm(s.log))
  }

  lemma CandidateSends(s: Node, now: real, draw: real, e: Envelope)
    requires e in BecomeCandidate(s, now, draw).sent
    ensures e.sender == s.id && e.message.RequestVote?
  {
    assert |{s.id}| == 1;
  }

  lemma PrevoteSends(s: Node, now: real, draw: real, e: Envelope)
    requires e in StartPrevote(s, now, draw).sent
    ensures e.sender == s.id && (e.message.RequestVote? || e.message == Ask(s))
  {
    hide BecomeCandidate;
    var r := PrevoteRound(s, now, draw);
    var asks := Broadcast(r, Ask(s));
    if e in asks {
      var k :| 0 <= k < |asks| && asks[k] == e;
    } else {
      CandidateSends(r, now, draw, e);
    }
  }

  /** Prevote requests are sent by opening a round only, prevote answers on request only. */
  lemma SentPrevotes(s: Node, ev: Event, e: Envelope)
    requires (ev.DeliverEvent? ==> Receivable(ev.e.message)) && e in NodeStep(s, ev).sent
    ensures e.sender == s.id
    ensures e.message.PreVote? ==> TimesOut(s, ev) && e.message == Ask(s)
    ensures e.message.PreVoteReply? ==>
              && ev.DeliverEvent? && ev.e.message.PreVote? && e.recipient == ev.e.sender
              && (e.message.granted <==> WouldGrant(s, ev.e.message, ev.now))
  {
    hide HandleAppendEntries, HandleRequestVote, AdvanceCommitIndex, RecordMatch, Backtrack;
    hide StartPrevote, BecomeCandidate, UpToDate;
    if ev.TickEvent? && TimesOut(s, ev) {
      PrevoteSends(s, ev.now, ev.draw, e);
    } else if ev.DeliverEvent? && ev.e.message.PreVoteReply? {
      CandidateSends(s.(prevotes := s.prevotes + {ev.e.message.voter}), ev.now, ev.draw, e);
    } else if ev.DeliverEvent? && (ev.e.message.AppendEntries? || ev.e.message.RequestVote?) {
      AnswerKeepsId(s, ev);
    }
  }

  lemma AnswerKeepsId(s: Node, ev: Event)
    requires ev.DeliverEvent? && Receivable(ev.e.message) && (ev.e.message.AppendEntries? || ev.e.message.RequestVote?)
    ensures ev.e.message.AppendEntries? ==> HandleAppendEntries(s, ev.e.message, ev.now, ev.draw).reply.AppendReply?
    ensures ev.e.message.RequestVote? ==> HandleRequestVote(s, ev.e.message, ev.now, ev.draw).reply.VoteReply?
  {
    hide Accept, FirstIndexOfTerm, UpToDate;
  }

  /** A leader can be unseated by its own grant, in a cluster of any size.  A node of the
      leader's term has a round open that lacks one grant.  The leader's answer to any of its
      requests makes it stand, and its vote request then unseats the leader, exactly when that
      request is up to date and the leader's own contact record has aged; otherwise the answer
      changes nothing. */
  lemma OwnGrantUnseatsLeader(leader: Node, other: Node, ask: Message, now: real, draw: real)
    requires leader.role == Leader && Rounding(other) && other.term == leader.term
    requires leader.id !in other.prevotes && |other.prevotes| + 1 == Majority(other)
    requires ask.PreVote? && ask.term == other.term + 1
    ensures var exposed := UpToDate(leader.log, ask.lastIndex, ask.lastTerm) && !LeaderActive(leader, now);
            var standing := HandlePreVoteReply(other, HandlePreVote(leader, ask, now), now, draw).node;
            var request := RequestVote(standing.term, standing.id, |standing.log|, LastTerm(standing.log));
            var after := HandleRequestVote(leader, request, now, draw).node;
            if exposed
            then standing.role != Follower && after.role == Follower && standing.term == leader.term + 1 == after.term
            else standing == other
  {
    hide BecomeCandidate, LastTerm, UpToDate;
    var counted := other.(prevotes := other.prevotes + {leader.id});
    StandsInNextTerm(counted, now, draw);
  }

  // ---- a round that cannot be won ----

  /** All grants to `n` that could still be counted in term `t` come from `granters`. */
  ghost predicate GrantsFrom(c: Cluster, n: NodeId, t: nat, granters: set<NodeId>) {
    forall e :: e in c.sent && CountableGrant(e, n, t) ==> e.sender in granters
  }

  /** Between states `i` and `j` only `granters` take a prevote request of `n` while they
      would grant it: everybody else counts a leader as active, is in the asked term already,
      or has a log that is ahead. */
  ghost predicate OnlyTheseGrant(cs: seq<Cluster>, evs: seq<Event>, n: NodeId, granters: set<NodeId>, i: nat, j: nat)
    requires i <= j < |cs| == |evs| + 1
  {
    forall k :: i <= k < j && evs[k].DeliverEvent? && evs[k].e.message.PreVote? && evs[k].e.sender == n
                && evs[k].e.recipient in cs[k].nodes
                && WouldGrant(cs[k].nodes[evs[k].e.recipient], evs[k].e.message, evs[k].now)
                ==> evs[k].e.recipient in granters
  }

  lemma {:induction false} GrantsStayWithin(initial: Ledger, cs: seq<Cluster>, evs: seq<Event>, n: NodeId, t: nat,
                                            granters: set<NodeId>, i: nat, j: nat, k: nat)
    requires IsRun(initial, cs, evs) && i <= k <= j < |cs| && GrantsFrom(cs[i], n, t, granters)
    requires OnlyTheseGrant(cs, evs, n, granters, i, j)
    ensures GrantsFrom(cs[k], n, t, granters)
    decreases k
  {
    hide NodeStep, Initial, WouldGrant;
    if k > i {
      GrantsStayWithin(initial, cs, evs, n, t, granters, i, j, k - 1);
      var ev := evs[k - 1];
      var s := cs[k - 1].nodes[Actor(ev)];
      IdAt(initial, cs, evs, k - 1, Actor(ev));
      forall e | e in cs[k].sent && CountableGrant(e, n, t)
        ensures e.sender in granters
      {
        if e !in cs[k - 1].sent {
          assert e in NodeStep(s, ev).sent;
          SentPrevotes(s, ev, e);
        }
      }
    }
  }

  lemma {:induction false} TallyWithin(initial: Ledger, cs: seq<Cluster>, evs: seq<Event>, n: NodeId, t: nat,
                                       granters: set<NodeId>, i: nat, j: nat, k: nat)
    requires IsRun(initial, cs, evs) && i <= j < |evs| && k <= j + 1 && GrantsFrom(cs[i], n, t, granters)
    requires OnlyTheseGrant(cs, evs, n, granters, i, j)
    ensures Tally(evs, n, t, i, k) <= {n} + granters
    decreases k
  {
    hide OnlyTheseGrant, Next, Initial, ClusterInv, Grows, HistoryInv;
    if k > i + 1 {
      TallyWithin(initial, cs, evs, n, t, granters, i, j, k - 1);
      if Grant(evs[k - 1], n, t) {
        GrantsStayWithin(initial, cs, evs, n, t, granters, i, j, k - 1);
        var hs := RunHistory(initial, cs, evs);
        MessageFromInside(hs[k - 1], initial, cs[k - 1], evs[k - 1].e);
      }
    }
  }

  /** What PreVote does protect against, for any cluster and any run.  If every grant to a
      node that could still arrive when its round opens, and every grant given to it while
      the round is open, comes from too few peers to make a majority with the node itself,
      the node does not stand: its term moves only if a message of a later term reaches it. */
  lemma RoundIsHarmless(initial: Ledger, cs: seq<Cluster>, evs: seq<Event>, n: NodeId, i: nat, j: nat,
                        granters: set<NodeId>)
    requires IsRun(initial, cs, evs) && OpenSince(cs, evs, n, i, j) && j < |evs|
    requires GrantsFrom(cs[i], n, cs[i].nodes[n].term, granters) && OnlyTheseGrant(cs, evs, n, granters, i, j)
    requires |{n} + granters| < Majority(cs[i].nodes[n])
    ensures var s, s' := cs[j].nodes[n], cs[j + 1].nodes[n];
            s'.role == Follower && (s'.term == s.term || (Actor(evs[j]) == n && MovedByMessage(s, evs[j], s')))
  {
    hide IsRun, OpenSince, GrantsFrom, OnlyTheseGrant, MovedByMessage, Tally, NodeStep, Rounding;
    OpenBefore(cs, evs, n, i, j);
    CountsDeliveredGrants(initial, cs, evs, n, i, j);
    RunStep(initial, cs, evs, j, n);
    StandsExactlyOnMajority(initial, cs, evs, n, i, j);
    TallyWithin(initial, cs, evs, n, cs[i].nodes[n].term, granters, i, j, j + 1);
    SubsetSize(Tally(evs, n, cs[i].nodes[n].term, i, j + 1), {n} + granters);
  }

  // ---- peers that have closed the question ----

  /** A peer that will never grant this request: it has reached the asked term, or it has
      committed something that the asking log is behind. */
  ghost predicate NeverGrants(s: Node, m: Message)
    requires m.PreVote?
  {
    m.term <= s.term || (s.commitIndex <= |s.log| && !UpToDate(s.log[..s.commitIndex], m.lastIndex, m.lastTerm))
  }

  lemma LongerLogIsAhead(log: Log, n: nat, lastIndex: int, lastTerm: int)
    requires Sorted(log) && n <= |log| && !UpToDate(log[..n], lastIndex, lastTerm)
    ensures !UpToDate(log, lastIndex, lastTerm)
  {
    if n > 0 {
      assert log[n - 1].term <= log[|log| - 1].term;
    }
  }

  lemma {:induction false} TermsRise(initial: Ledger, cs: seq<Cluster>, evs: seq<Event>, i: nat, k: nat, n: NodeId)
    requires IsRun(initial, cs, evs) && i <= k < |cs| && n in cs[i].nodes
    ensures n in cs[k].nodes && cs[i].nodes[n].term <= cs[k].nodes[n].term
    decreases k
  {
    hide Initial, Next, NodeStep;
    if k > i {
      TermsRise(initial, cs, evs, i, k - 1, n);
      RunStep(initial, cs, evs, k - 1, n);
      if Actor(evs[k - 1]) == n {
        TermNeverFalls(cs[k - 1].nodes[n], evs[k - 1]);
      }
    }
  }

  /** Terms never fall and committed entries are never lost, so the refusal lasts, through
      crashes, restarts and changes of leader. */
  lemma RefusalLasts(initial: Ledger, cs: seq<Cluster>, evs: seq<Event>, i: nat, k: nat, p: NodeId, m: Message,
                     now: real)
    requires IsRun(initial, cs, evs) && i <= k < |cs| && p in cs[i].nodes && m.PreVote?
    requires NeverGrants(cs[i].nodes[p], m)
    ensures p in cs[k].nodes && !WouldGrant(cs[k].nodes[p], m, now)
  {
    hide IsRun, UpToDate, LeaderActive;
    TermsRise(initial, cs, evs, i, k, p);
    if m.term > cs[i].nodes[p].term {
      CommittedEntriesAreDurable(initial, cs, evs, i, k, p);
      SortedAt(initial, cs, evs, k, p);
      LongerLogIsAhead(cs[k].nodes[p].log, cs[i].nodes[p].commitIndex, m.lastIndex, m.lastTerm);
    }
  }

  lemma SortedAt(initial: Ledger, cs: seq<Cluster>, evs: seq<Event>, k: nat, p: NodeId)
    requires IsRun(initial, cs, evs) && k < |cs| && p in cs[k].nodes
    ensures Sorted(cs[k].nodes[p].log)
  {
    hide ClusterInv, Grows, HistoryInv, Initial, Next, NodeRole, NodeAcks, NodeVotes, Committed, NodeLedger;
    var hs := RunHistory(initial, cs, evs);
    NodeAt(hs[k], initial, cs[k], p);
  }

  /** During a round its node asks nothing new. */
  lemma {:induction false} AsksAreKnown(initial: Ledger, cs: seq<Cluster>, evs: seq<Event>, n: NodeId, i: nat, k: nat,
                                        e: Envelope)
    requires IsRun(initial, cs, evs) && OpenSince(cs, evs, n, i, k) && e in cs[k].sent && e.sender == n
    requires e.message.PreVote?
    ensures e in cs[i].sent || e.message == Ask(cs[i].nodes[n])
    decreases k
  {
    hide NodeStep, Initial, Ask;
    OpenBefore(cs, evs, n, i, k);
    var ev := evs[k - 1];
    var s := cs[k - 1].nodes[Actor(ev)];
    IdAt(initial, cs, evs, k - 1, Actor(ev));
    if e in cs[k - 1].sent {
      if k > i + 1 {
        AsksAreKnown(initial, cs, evs, n, i, k - 1, e);
      }
    } else {
      assert e in NodeStep(s, ev).sent;
      SentPrevotes(s, ev, e);
    }
  }

  // ---- peers in contact with a leader ----

  /** From state `i` to state `j` peer `p` stays in the term it was in, neither times out nor
      restarts, never sees its clock go back past its last leader contact, and takes prevote
      requests within the timeout of that contact. */
  ghost predicate InContact(cs: seq<Cluster>, evs: seq<Event>, p: NodeId, i: nat, j: nat)
    requires i <= j < |cs| == |evs| + 1
  {
    && p in cs[i].nodes && cs[i].nodes[p].leaderId.Some? && cs[i].nodes[p].lastLeaderContact.Some?
    && (forall k :: i <= k <= j ==> p in cs[k].nodes && cs[k].nodes[p].term == cs[i].nodes[p].term)
    && (forall k :: i <= k < j && Actor(evs[k]) == p ==> KeepsContact(cs[i].nodes[p], cs[k].nodes[p], evs[k]))
  }

  ghost predicate KeepsContact(first: Node, s: Node, ev: Event)
    requires first.lastLeaderContact.Some?
  {
    && !TimesOut(s, ev) && !ev.RestartEvent?
    && first.lastLeaderContact.value <= ev.now
    && (ev.DeliverEvent? && ev.e.message.PreVote? ==> ev.now - first.lastLeaderContact.value < first.electionTimeoutMin)
  }

  lemma ContactStep(s: Node, ev: Event)
    requires (ev.DeliverEvent? ==> Receivable(ev.e.message)) && !TimesOut(s, ev) && !ev.RestartEvent?
    requires s.leaderId.Some? && s.lastLeaderContact.Some? && NodeStep(s, ev).node.term == s.term
    ensures var s' := NodeStep(s, ev).node;
            && s'.leaderId.Some? && s'.electionTimeoutMin == s.electionTimeoutMin
            && (s'.lastLeaderContact == s.lastLeaderContact || s'.lastLeaderContact == Some(ev.now))
  {
    hide Follow, MajorityMatch, Backtrack, Fold, Appends, Broadcast, UpToDate, RecordMatch, BecomeCandidate;
    if ev.DeliverEvent? {
      var m := ev.e.message;
      if m.AppendEntries? {
        FollowKeepsContact(Recognise(Adopt(s, m.term, ev.now, ev.draw), m.leader, ev.now, ev.draw), m);
      } else if m.PreVoteReply? {
        StandsInNextTerm(s.(prevotes := s.prevotes + {m.voter}), ev.now, ev.draw);
      } else if m.AppendReply? {
        RecordKeeps(s, ev.e.sender, m.matchIndex);
      }
    }
  }

  lemma FollowKeepsContact(s: Node, m: Message)
    requires m.AppendEntries? && m.prevIndex >= 0
    ensures var s' := Follow(s, m).node;
            s'.leaderId == s.leaderId && s'.lastLeaderContact == s.lastLeaderContact &&
              s'.electionTimeoutMin == s.electionTimeoutMin
  {
    hide Merge, Fold, FirstIndexOfTerm;
  }

  lemma {:induction false} ContactLasts(initial: Ledger, cs: seq<Cluster>, evs: seq<Event>, p: NodeId, i: nat, j: nat,
                                        k: nat)
    requires IsRun(initial, cs, evs) && i <= k <= j < |cs| && InContact(cs, evs, p, i, j)
    ensures var first, s := cs[i].nodes[p], cs[k].nodes[p];
            && s.leaderId.Some? && s.lastLeaderContact.Some? && s.electionTimeoutMin == first.electionTimeoutMin
            && s.lastLeaderContact.value >= first.lastLeaderContact.value
    decreases k
  {
    hide NodeStep, Initial, Next, TimesOut;
    if k > i {
      ContactLasts(initial, cs, evs, p, i, j, k - 1);
      RunStep(initial, cs, evs, k - 1, p);
      if Actor(evs[k - 1]) == p {
        assert KeepsContact(cs[i].nodes[p], cs[k - 1].nodes[p], evs[k - 1]);
        ContactStep(cs[k - 1].nodes[p], evs[k - 1]);
      }
    }
  }

  lemma ContactRefuses(initial: Ledger, cs: seq<Cluster>, evs: seq<Event>, p: NodeId, i: nat, j: nat, k: nat)
    requires IsRun(initial, cs, evs) && i <= k < j < |cs| && InContact(cs, evs, p, i, j)
    requires evs[k].DeliverEvent? && evs[k].e.message.PreVote? && evs[k].e.recipient == p
    ensures !WouldGrant(cs[k].nodes[p], evs[k].e.message, evs[k].now)
  {
    hide Initial, Next, UpToDate, TimesOut;
    ContactLasts(initial, cs, evs, p, i, j, k);
    assert KeepsContact(cs[i].nodes[p], cs[k].nodes[p], evs[k]);
  }

  // ---- the protection ----

  /** No grant of `p` that `n` could still count is under way. */
  ghost predicate NoGrantUnderWay(c: Cluster, n: NodeId, p: NodeId) {
    && n in c.nodes
    && forall e :: e in c.sent && e.sender == p && e.recipient == n && e.message.PreVoteReply? && e.message.granted ==>
         e.message.term > c.nodes[n].term
  }

  /** In the state before the round: `p` will never grant what `n` has asked before or is
      about to ask. */
  ghost predicate Closed(c: Cluster, n: NodeId, p: NodeId) {
    && n in c.nodes && p in c.nodes && NeverGrants(c.nodes[p], Ask(c.nodes[n]))
    && (forall e :: e in c.sent && e.sender == n && e.recipient == p && e.message.PreVote? ==>
        NeverGrants(c.nodes[p], e.message))
  }

  /** The protection that PreVote gives, in terms of the state before a round.  Of the peers
      from which no grant is under way, some are closed to the node for good, and some stay in
      contact with a leader while the round is open.  If the remaining members make no majority
      with the node, it does not stand in this round, whatever else is lost, repeated, delayed,
      crashed or elected meanwhile. */
  lemma ProtectedRound(initial: Ledger, cs: seq<Cluster>, evs: seq<Event>, n: NodeId, i: nat, j: nat,
                       closed: set<NodeId>, active: set<NodeId>)
    requires IsRun(initial, cs, evs) && OpenSince(cs, evs, n, i, j) && j < |evs|
    requires forall p :: p in closed + active ==> NoGrantUnderWay(cs[i], n, p)
    requires forall p :: p in closed ==> Closed(cs[i], n, p)
    requires forall p :: p in active ==> InContact(cs, evs, p, i, j)
    requires |{n} + (cs[i].nodes.Keys - closed - active)| < Majority(cs[i].nodes[n])
    ensures var s, s' := cs[j].nodes[n], cs[j + 1].nodes[n];
            s'.role == Follower && (s'.term == s.term || (Actor(evs[j]) == n && MovedByMessage(s, evs[j], s')))
  {
    hide IsRun, OpenSince, MovedByMessage, Closed, InContact, WouldGrant, NoGrantUnderWay;
    OpenBefore(cs, evs, n, i, j);
    var granters := cs[i].nodes.Keys - closed - active;
    OthersMayGrant(initial, cs, evs, n, i, granters, closed + active);
    forall k | i <= k < j && evs[k].DeliverEvent? && evs[k].e.message.PreVote? && evs[k].e.sender == n
               && evs[k].e.recipient in cs[k].nodes
               && WouldGrant(cs[k].nodes[evs[k].e.recipient], evs[k].e.message, evs[k].now)
      ensures evs[k].e.recipient in granters
    {
      var p := evs[k].e.recipient;
      SameMembers(initial, cs, evs, i, k);
      if p in active {
        ContactRefuses(initial, cs, evs, p, i, j, k);
      } else if p in closed {
        ClosedPeerRefuses(initial, cs, evs, n, i, j, k);
      }
    }
    RoundIsHarmless(initial, cs, evs, n, i, j, granters);
  }

  lemma OthersMayGrant(initial: Ledger, cs: seq<Cluster>, evs: seq<Event>, n: NodeId, i: nat, granters: set<NodeId>,
                       others: set<NodeId>)
    requires IsRun(initial, cs, evs) && i < |cs| && n in cs[i].nodes && granters == cs[i].nodes.Keys - others
    requires forall p :: p in others ==> NoGrantUnderWay(cs[i], n, p)
    ensures GrantsFrom(cs[i], n, cs[i].nodes[n].term, granters)
  {
    hide IsRun;
    forall e | e in cs[i].sent ensures e.sender in cs[i].nodes {
      SentAppendsAreSound(initial, cs, evs, i, e);
    }
  }

  lemma ClosedPeerRefuses(initial: Ledger, cs: seq<Cluster>, evs: seq<Event>, n: NodeId, i: nat, j: nat, k: nat)
    requires IsRun(initial, cs, evs) && OpenSince(cs, evs, n, i, j) && i <= k < j < |evs|
    requires evs[k].DeliverEvent? && evs[k].e.message.PreVote? && evs[k].e.sender == n
    requires Closed(cs[i], n, evs[k].e.recipient)
    ensures evs[k].e.recipient in cs[k].nodes
    ensures !WouldGrant(cs[k].nodes[evs[k].e.recipient], evs[k].e.message, evs[k].now)
  {
    hide IsRun, NeverGrants, WouldGrant, Ask;
    var e := evs[k].e;
    SameMembers(initial, cs, evs, i, k);
    RunStep(initial, cs, evs, k, e.recipient);
    AsksAreKnown(initial, cs, evs, n, i, k, e);
    RefusalLasts(initial, cs, evs, i, k, e.recipient, e.message, evs[k].now);
  }

  lemma {:induction false} SameMembers(initial: Ledger, cs: seq<Cluster>, evs: seq<Event>, i: nat, k: nat)
    requires IsRun(initial, cs, evs) && i <= k < |cs|
    ensures cs[k].nodes.Keys == cs[i].nodes.Keys
    decreases k
  {
    hide NodeStep, Initial;
    if k > i {
      SameMembers(initial, cs, evs, i, k - 1);
    }
  }
}

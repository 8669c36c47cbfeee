/** What nodes ask and answer in elections, written out in full: whom a node asks, whom it
    grants, what it takes over from a later term, and what a restart keeps. */
module RaftVoteRules {
  import opened Wrappers
  import opened LedgerModel
  import opened RaftTypes
  import opened RaftLog
  import opened RaftStep
  import opened RaftCluster
  import opened RaftDurability
  import opened RaftPreVoteRounds
  import opened RaftDisruption

  // ---- the up-to-date order ----

  /** The order of section 5.4.1: a later last term wins, then the longer log. */
  ghost predicate NotBehind(log: Log, lastIndex: int, lastTerm: int) {
    var own := if log == [] then 0 else log[|log| - 1].term;
    lastTerm > own || (lastTerm == own && lastIndex >= |log|)
  }

  lemma UpToDateIsLexicographic(log: Log, lastIndex: int, lastTerm: int)
    ensures UpToDate(log, lastIndex, lastTerm) <==> NotBehind(log, lastIndex, lastTerm)
  {
  }

  /** Of any two logs one is up to date for the other, so two nodes never refuse each other
      over their logs. */
  lemma UpToDateIsTotal(a: Log, b: Log)
    ensures UpToDate(a, |b|, LastTerm(b)) || UpToDate(b, |a|, LastTerm(a))
  {
  }

  lemma UpToDateIsTransitive(a: Log, b: Log, c: Log)
    requires UpToDate(a, |b|, LastTerm(b)) && UpToDate(b, |c|, LastTerm(c))
    ensures UpToDate(a, |c|, LastTerm(c))
  {
  }

  // ---- answers ----

  ghost predicate MayVote(s: Node, m: Message)
    requires m.RequestVote?
  {
    && m.term >= s.term
    && (m.term > s.term || s.votedFor == None || s.votedFor == Some(m.candidate))
    && NotBehind(s.log, m.lastIndex, m.lastTerm)
  }

  /** Every vote request is answered to its sender, in the larger of the two terms.  The vote
      is granted if and only if the request is not of an earlier term, the node's vote in that
      term is free or already this candidate's, and the candidate's log is not behind.  A
      granted vote is remembered and re-arms the election timer. */
  lemma VoteIsAnswered(initial: Ledger, cs: seq<Cluster>, evs: seq<Event>, i: nat)
    requires IsRun(initial, cs, evs) && i < |evs| && evs[i].DeliverEvent? && evs[i].e.message.RequestVote?
    ensures var e, n := evs[i].e, evs[i].e.recipient;
            var s, s', m := cs[i].nodes[n], cs[i + 1].nodes[n], evs[i].e.message;
            && Envelope(n, e.sender, VoteReply(Max(s.term, m.term), MayVote(s, m), n)) in cs[i + 1].sent
            && s'.term == Max(s.term, m.term) && s'.log == s.log
            && s'.role == (if m.term > s.term then Follower else s.role)
            && s'.votedFor == (if MayVote(s, m) then Some(m.candidate)
                               else if m.term > s.term then None else s.votedFor)
            && (MayVote(s, m) ==> s'.electionDeadline == evs[i].now + evs[i].draw)
  {
    hide IsRun;
    RunSends(initial, cs, evs, i);
    IdAt(initial, cs, evs, i, evs[i].e.recipient);
    AnswerIsSent(cs[i].nodes[evs[i].e.recipient], evs[i]);
  }

  lemma AnswerIsSent(s: Node, ev: Event)
    requires ev.DeliverEvent? && (ev.e.message.RequestVote? || ev.e.message.PreVote?)
    ensures NodeStep(s, ev).sent != [] && NodeStep(s, ev).sent[0] in NodeStep(s, ev).sent
  {
    hide UpToDate;
  }

  ghost predicate HeardLately(s: Node, now: real) {
    s.leaderId != None && s.lastLeaderContact != None && now - s.lastLeaderContact.value < s.electionTimeoutMin
  }

  /** Every prevote request is answered to its sender and changes nothing.  It is granted if and
      only if the node has not heard from a leader lately, the term asked for is later than its
      own, and the asking log is not behind. */
  lemma PreVoteIsAnswered(initial: Ledger, cs: seq<Cluster>, evs: seq<Event>, i: nat)
    requires IsRun(initial, cs, evs) && i < |evs| && evs[i].DeliverEvent? && evs[i].e.message.PreVote?
    ensures var e, n, m := evs[i].e, evs[i].e.recipient, evs[i].e.message;
            var s := cs[i].nodes[n];
            var granted := !HeardLately(s, evs[i].now) && m.term > s.term && NotBehind(s.log, m.lastIndex, m.lastTerm);
            && Envelope(n, e.sender, PreVoteReply(s.term, granted, n)) in cs[i + 1].sent
            && cs[i + 1].nodes == cs[i].nodes
  {
    hide IsRun;
    RunSends(initial, cs, evs, i);
    IdAt(initial, cs, evs, i, evs[i].e.recipient);
    AnswerIsSent(cs[i].nodes[evs[i].e.recipient], evs[i]);
  }

  // ---- requests ----

  /** The term of the last entry, 0 for an empty log. */
  function OwnLastTerm(log: Log): nat {
    if log == [] then 0 else log[|log| - 1].term
  }

  /** A node that stands asks every peer for its vote, naming its own log. */
  lemma CandidateAsksEverybody(initial: Ledger, cs: seq<Cluster>, evs: seq<Event>, i: nat, n: NodeId, t: nat, p: NodeId)
    requires IsRun(initial, cs, evs) && StandsAt(cs, evs, i, n, t) && p in cs[i].nodes[n].peers
    ensures var log := cs[i].nodes[n].log;
            Envelope(n, p, RequestVote(t + 1, n, |log|, OwnLastTerm(log))) in cs[i + 1].sent
    ensures cs[i + 1].nodes[n].log == cs[i].nodes[n].log && cs[i + 1].nodes[n].votedFor == Some(n)
    ensures cs[i + 1].nodes[n].electionDeadline == evs[i].now + DrawOf(evs[i])
  {
    hide IsRun, NodeStep;
    RunSends(initial, cs, evs, i);
    IdAt(initial, cs, evs, i, n);
    StandingSends(cs[i].nodes[n], evs[i], p);
  }

  function DrawOf(ev: Event): real {
    if ev.ProposeEvent? then 0.0 else ev.draw
  }

  lemma StandingSends(s: Node, ev: Event, p: NodeId)
    requires (ev.DeliverEvent? ==> Receivable(ev.e.message)) && p in s.peers
    requires NodeStep(s, ev).node.term == s.term + 1 && NodeStep(s, ev).node.role != Follower
    ensures Envelope(s.id, p, RequestVote(s.term + 1, s.id, |s.log|, OwnLastTerm(s.log))) in NodeStep(s, ev).sent
    ensures var s' := NodeStep(s, ev).node;
            s'.log == s.log && s'.votedFor == Some(s.id) && s'.electionDeadline == ev.now + DrawOf(ev)
  {
    hide Follow, MajorityMatch, Backtrack, Fold, Appends, Broadcast, UpToDate, RecordMatch, BecomeCandidate;
    if ev.DeliverEvent? {
      var m := ev.e.message;
      if m.AppendEntries? {
        FollowKeepsElection(Recognise(Adopt(s, m.term, ev.now, ev.draw), m.leader, ev.now, ev.draw), m);
      } else if m.PreVoteReply? {
        CandidateRequests(s.(prevotes := s.prevotes + {m.voter}), ev.now, ev.draw, p);
      } else if m.AppendReply? {
        RecordKeeps(s, ev.e.sender, m.matchIndex);
      }
    } else if TimesOut(s, ev) {
      OpeningStep(s, ev);
    }
  }

  lemma CandidateRequests(s: Node, now: real, draw: real, p: NodeId)
    requires p in s.peers
    ensures var out := BecomeCandidate(s, now, draw);
            && Envelope(s.id, p, RequestVote(s.term + 1, s.id, |s.log|, OwnLastTerm(s.log))) in out.sent
            && out.node.log == s.log && out.node.votedFor == Some(s.id) && out.node.electionDeadline == now + draw
  {
    hide Appends;
    var c := Candidacy(s, now, draw);
    var k :| 0 <= k < |s.peers| && s.peers[k] == p;
    assert Broadcast(c, RequestVote(c.term, c.id, |c.log|, LastTerm(c.log)))[k].recipient == p;
  }

  /** A node that opens a round asks every peer for a prevote for the next term. */
  lemma RoundAsksEverybody(initial: Ledger, cs: seq<Cluster>, evs: seq<Event>, i: nat, n: NodeId, p: NodeId)
    requires IsRun(initial, cs, evs) && i < |evs| && Opens(cs[i], evs[i], n) && p in cs[i].nodes[n].peers
    ensures var s := cs[i].nodes[n];
            Envelope(n, p, PreVote(s.term + 1, n, |s.log|, OwnLastTerm(s.log))) in cs[i + 1].sent
    ensures cs[i + 1].nodes[n].electionDeadline == evs[i].now + evs[i].draw
  {
    hide IsRun, MaybeWinPrevote, BecomeCandidate;
    RunSends(initial, cs, evs, i);
    IdAt(initial, cs, evs, i, n);
    var s, ev := cs[i].nodes[n], evs[i];
    var r := PrevoteRound(s, ev.now, ev.draw);
    var k :| 0 <= k < |s.peers| && s.peers[k] == p;
    var asks := Broadcast(r, PreVote(r.term + 1, r.id, |r.log|, LastTerm(r.log)));
    assert asks[k].recipient == p && asks[k] in asks && asks[k] in StartPrevote(s, ev.now, ev.draw).sent;
    RoundDeadline(r, ev.now, ev.draw, p);
  }

  lemma RoundDeadline(r: Node, now: real, draw: real, p: NodeId)
    requires p in r.peers && r.electionDeadline == now + draw
    ensures MaybeWinPrevote(r, now, draw).node.electionDeadline == now + draw
  {
    hide BecomeCandidate;
    CandidateRequests(r, now, draw, p);
  }

  // ---- later terms, proposals and restarts ----

  /** Any message of a later term but a prevote request makes its receiver a follower of that
      term. */
  lemma LaterTermIsAdopted(initial: Ledger, cs: seq<Cluster>, evs: seq<Event>, i: nat)
    requires IsRun(initial, cs, evs) && i < |evs| && evs[i].DeliverEvent? && !evs[i].e.message.PreVote?
    requires evs[i].e.message.term > cs[i].nodes[evs[i].e.recipient].term
    ensures var s' := cs[i + 1].nodes[evs[i].e.recipient];
            && s'.term == evs[i].e.message.term && s'.role == Follower && s'.votes == {}
            && (!evs[i].e.message.RequestVote? ==> s'.votedFor == None)
            && s'.leaderId == (if evs[i].e.message.AppendEntries? then Some(evs[i].e.message.leader) else None)
            && s'.electionDeadline == evs[i].now + evs[i].draw
  {
    hide IsRun, Follow, UpToDate;
    RunSends(initial, cs, evs, i);
    var s, ev := cs[i].nodes[evs[i].e.recipient], evs[i];
    if ev.e.message.AppendEntries? {
      var r := Recognise(Adopt(s, ev.e.message.term, ev.now, ev.draw), ev.e.message.leader, ev.now, ev.draw);
      FollowKeepsElection(r, ev.e.message);
      FollowKeepsContact(r, ev.e.message);
    }
  }

  /** Replies that are not of a later term change nothing unless they are what the node is
      waiting for: a candidate for votes of its term, a leader for replies of its term, a
      follower with an open round for grants. */
  lemma StrayReplyIsIgnored(initial: Ledger, cs: seq<Cluster>, evs: seq<Event>, i: nat)
    requires IsRun(initial, cs, evs) && i < |evs| && evs[i].DeliverEvent?
    requires var s, m := cs[i].nodes[evs[i].e.recipient], evs[i].e.message;
             && m.term <= s.term
             && match m
                case VoteReply(t, granted, _) => s.role != Candidate || t != s.term || !granted
                case AppendReply(t, _, _, _, _, _) => s.role != Leader || t != s.term
                case PreVoteReply(_, granted, _) => s.role != Follower || s.prevoteTarget != s.term + 1 || !granted
                case _ => false
    ensures cs[i + 1] == cs[i]
  {
    hide IsRun;
    RunSends(initial, cs, evs, i);
    assert cs[i + 1].nodes == cs[i].nodes;
  }

  /** The election timer is re-armed exactly by opening a round, by a rise of the term, by
      hearing the leader of the term, by granting a vote, and by a restart. */
  lemma TimerIsRearmedExactly(initial: Ledger, cs: seq<Cluster>, evs: seq<Event>, i: nat)
    requires IsRun(initial, cs, evs) && i < |evs| && Actor(evs[i]) in cs[i].nodes
    ensures var s, s', ev := cs[i].nodes[Actor(evs[i])], cs[i + 1].nodes[Actor(evs[i])], evs[i];
            s'.electionDeadline == if Rearms(s, ev, s'.term) then ev.now + DrawOf(ev) else s.electionDeadline
  {
    hide IsRun, NodeStep;
    RunSends(initial, cs, evs, i);
    TimerStep(cs[i].nodes[Actor(evs[i])], evs[i]);
  }

  ghost predicate Rearms(s: Node, ev: Event, term: nat) {
    || ev.RestartEvent? || TimesOut(s, ev) || term > s.term
    || (ev.DeliverEvent? && ev.e.message.AppendEntries? && ev.e.message.term >= s.term)
    || (ev.DeliverEvent? && ev.e.message.RequestVote? && MayVote(s, ev.e.message))
  }

  lemma TimerStep(s: Node, ev: Event)
    requires ev.DeliverEvent? ==> Receivable(ev.e.message)
    ensures var s' := NodeStep(s, ev).node;
            s'.electionDeadline == if Rearms(s, ev, s'.term) then ev.now + DrawOf(ev) else s.electionDeadline
  {
    hide Follow, MajorityMatch, Backtrack, Fold, Appends, Broadcast, RecordMatch, BecomeCandidate;
    if ev.DeliverEvent? {
      var m := ev.e.message;
      if m.AppendEntries? {
        var r := Recognise(Adopt(s, m.term, ev.now, ev.draw), m.leader, ev.now, ev.draw);
        FollowKeepsElection(r, m);
      } else if m.PreVoteReply? {
        StandsInNextTerm(s.(prevotes := s.prevotes + {m.voter}), ev.now, ev.draw);
      } else if m.AppendReply? {
        RecordKeeps(s, ev.e.sender, m.matchIndex);
      }
    } else if TimesOut(s, ev) {
      StandsInNextTerm(PrevoteRound(s, ev.now, ev.draw), ev.now, ev.draw);
    }
  }

  /** A restart keeps the term, the vote, the log and the ledger, forgets everything else, and
      sends nothing. */
  lemma RestartKeepsExactly(initial: Ledger, cs: seq<Cluster>, evs: seq<Event>, i: nat)
    requires IsRun(initial, cs, evs) && i < |evs| && evs[i].RestartEvent?
    ensures evs[i].n in cs[i].nodes && evs[i].n in cs[i + 1].nodes && cs[i + 1].sent == cs[i].sent
    ensures var s, s' := cs[i].nodes[evs[i].n], cs[i + 1].nodes[evs[i].n];
            && s'.id == s.id && s'.peers == s.peers
            && s'.electionTimeoutMin == s.electionTimeoutMin && s'.heartbeatInterval == s.heartbeatInterval
            && s'.term == s.term && s'.votedFor == s.votedFor && s'.log == s.log && s'.ledger == s.ledger
            && s'.role == Follower && s'.leaderId == None && s'.commitIndex == 0 == s'.lastApplied
            && s'.nextIndex == map[] == s'.matchIndex && s'.votes == {} == s'.prevotes && s'.prevoteTarget == -1
            && s'.electionDeadline == evs[i].now + evs[i].draw
            && s'.heartbeatDeadline == None && s'.lastLeaderContact == None
  {
    hide IsRun;
    RunSends(initial, cs, evs, i);
  }

  /** A proposal to a leader appends its command as the next entry of the leader's term, and
      changes nothing else but the heartbeat timer; to any other node it does nothing. */
  lemma ProposalIsAppended(initial: Ledger, cs: seq<Cluster>, evs: seq<Event>, i: nat)
    requires IsRun(initial, cs, evs) && i < |evs| && evs[i].ProposeEvent?
    ensures evs[i].n in cs[i].nodes && evs[i].n in cs[i + 1].nodes
    ensures var s, s' := cs[i].nodes[evs[i].n], cs[i + 1].nodes[evs[i].n];
            if s.role == Leader
            then s' == s.(log := s.log + [LogEntry(s.term, |s.log| + 1, evs[i].command)],
                          heartbeatDeadline := Some(evs[i].now + s.heartbeatInterval))
            else cs[i + 1] == cs[i]
  {
    hide IsRun, Appends;
    RunSends(initial, cs, evs, i);
    assert cs[i].nodes[evs[i].n].role != Leader ==> cs[i + 1].nodes == cs[i].nodes;
  }
}

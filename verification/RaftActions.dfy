/** The six ways in which a node's step can add to the history, each of which keeps every
    invariant of the history. */
module RaftActions {
  import opened Wrappers
  import opened RaftTypes
  import opened RaftLog
  import opened RaftStep
  import opened RaftHistory
  import opened RaftHistoryGrowth
  import opened RaftQuorums

  // ---- what logs owe to the history ----

  /** Log matching: two logs that share an entry's index and term agree up to it. */
  lemma LogsMatch(h: History, a: Log, b: Log, i: nat)
    requires Backed(h, a) && Backed(h, b) && i < |a| && i < |b| && a[i].term == b[i].term
    ensures Agree(a, b, i + 1)
  {
    assert BackedAt(h, a, i) && BackedAt(h, b, i);
  }

  /** A log that ends in term `t` is a prefix of the log of t's leader. */
  lemma LastEntryBacks(h: History, log: Log)
    requires Backed(h, log) && log != []
    ensures LastTerm(log) in h.llog && Agree(log, h.llog[LastTerm(log)], |log|)
  {
    assert BackedAt(h, log, |log| - 1);
  }

  /** The history without the terms and votes that only its own step touches. */
  lemma OldFactsGrow(h: History, h': History)
    requires HistoryInv(h) && Grows(h, h')
    ensures forall t :: t in h.llog ==> GoodLog(h', h.llog[t], t)
    ensures forall k :: k in h.cands ==> GoodLog(h', h.cands[k], k.1 - 1)
    ensures forall t :: t in h.leader ==> Elected(h', h.leader[t], t)
    ensures forall v, t :: (v, t) in h.votes ==> (v, t) in h'.votes && VoteSafe(h', v, t)
  {
    forall t | t in h.llog ensures GoodLog(h', h.llog[t], t) {
      GoodLogGrows(h, h', h.llog[t], t);
    }
    forall k | k in h.cands ensures GoodLog(h', h.cands[k], k.1 - 1) {
      GoodLogGrows(h, h', h.cands[k], k.1 - 1);
    }
    forall t | t in h.leader ensures Elected(h', h.leader[t], t) {
      ElectedGrows(h, h', h.leader[t], t);
    }
    forall v, t | (v, t) in h.votes ensures (v, t) in h'.votes && VoteSafe(h', v, t) {
      VotesSafeGrow(h, h', v, t);
    }
  }

  /** Completeness of a leader's log carries over where no earlier leader wrote anything. */
  lemma CompleteGrows(h: History, h': History, log: Log, bound: nat)
    requires Grows(h, h') && Complete(h, log, bound)
    requires forall t: nat, n :: t < bound && OwnTerm(h', t, n) ==> OwnTerm(h, t, n)
    ensures Complete(h', log, bound)
  {
    forall t: nat, n | t < bound && OwnTerm(h', t, n) ensures Survives(h', log, t, n) {
      SurvivesGrows(h, h', log, t, n);
    }
  }

  lemma LeadersCompleteGrow(h: History, h': History)
    requires LeadersComplete(h) && Grows(h, h') && h'.llog == h.llog
    ensures LeadersComplete(h')
  {
    forall t | t in h.llog ensures Complete(h', h.llog[t], t) {
      CompleteGrows(h, h', h.llog[t], t);
    }
  }

  /** A step that adds no log and no vote keeps the history's invariant. */
  lemma SameLogsAndVotes(h: History, h': History)
    requires HistoryInv(h) && Grows(h, h') && HistoryShape(h')
    requires h'.llog == h.llog && h'.cands == h.cands && h'.leader == h.leader && h'.votes == h.votes
    ensures HistoryInv(h')
  {
    OldFactsGrow(h, h');
    LeadersCompleteGrow(h, h');
    assert VotesSafe(h');
  }

  // ---- entering a later term ----

  ghost function RaiseTerm(h: History, n: NodeId, t: nat): History {
    h.(term := h.term[n := t])
  }

  lemma RaisedShape(h: History, n: NodeId, t: nat)
    requires HistoryShape(h) && n in h.members && h.term[n] <= t
    ensures HistoryShape(RaiseTerm(h, n, t))
  {
  }

  lemma RaisedGrows(h: History, n: NodeId, t: nat)
    requires h.term.Keys == h.members && h.llog.Keys == h.leader.Keys && n in h.members && h.term[n] <= t
    ensures GrowsBy(h, RaiseTerm(h, n, t), n)
  {
    var h' := RaiseTerm(h, n, t);
    assert forall v, t: nat :: Acked(h', v, t) == Acked(h, v, t);
    assert Grows(h, h');
  }

  lemma RaisingTerm(h: History, n: NodeId, t: nat)
    requires HistoryInv(h) && n in h.members && h.term[n] <= t
    ensures HistoryInv(RaiseTerm(h, n, t)) && GrowsBy(h, RaiseTerm(h, n, t), n)
  {
    RaisedShape(h, n, t);
    RaisedGrows(h, n, t);
    SameLogsAndVotes(h, RaiseTerm(h, n, t));
  }

  /** A node that leaves its term keeps what it acknowledged there. */
  lemma LeavingTerm(h: History, s: Node, t: nat)
    requires HistoryShape(h) && s.id in h.members && h.term[s.id] == s.term && NodeAcks(h, s) && s.term <= t
    ensures KeepsAcked(h, s.id, s.log, t)
  {
    forall u: nat, n | u < t && OwnTerm(h, u, n) && n <= Acked(h, s.id, u) ensures Survives(h, s.log, u, n) {
      assert (s.id, u) in h.acked && u <= s.term;
    }
  }

  // ---- voting ----

  /** The vote rule: a candidate whose log is at least as up to date as the voter's holds
      everything the voter acknowledged that can still be committed. */
  lemma UpToDateCandidateKeepsAcks(h: History, v: NodeId, mine: Log, theirs: Log, t: nat)
    requires HistoryInv(h) && t > 0
    requires GoodLog(h, mine, t) && GoodLog(h, theirs, t - 1) && KeepsAcked(h, v, mine, t)
    requires UpToDate(mine, |theirs|, LastTerm(theirs))
    ensures KeepsAcked(h, v, theirs, t)
  {
    forall u: nat, n | u < t && OwnTerm(h, u, n) && n <= Acked(h, v, u) ensures Survives(h, theirs, u, n) {
      assert Survives(h, mine, u, n);
      if !Blocked(h, u, n) {
        UpToDateHolds(h, mine, theirs, t, u, n);
      }
    }
  }

  lemma UpToDateHolds(h: History, mine: Log, theirs: Log, t: nat, u: nat, n: int)
    requires HistoryInv(h) && u < t && OwnTerm(h, u, n) && !Blocked(h, u, n)
    requires GoodLog(h, mine, t) && GoodLog(h, theirs, t - 1)
    requires Agree(mine, h.llog[u], n) && UpToDate(mine, |theirs|, LastTerm(theirs))
    ensures Agree(theirs, h.llog[u], n)
  {
    var last := LastTerm(theirs);
    assert mine[n - 1].term == u;
    assert u <= LastTerm(mine) <= last;
    LastEntryBacks(h, theirs);
    if last == u {
      LastEntryBacks(h, mine);
      assert |mine| <= |theirs|;
    } else {
      assert Complete(h, h.llog[last], last) && Survives(h, h.llog[last], u, n);
      assert h.llog[last][n - 1].term == u;
      assert h.llog[last][|theirs| - 1].term == last;
      assert Sorted(h.llog[last]) by { assert GoodLog(h, h.llog[last], last); }
    }
  }

  ghost function CastVote(h: History, v: NodeId, t: nat, c: NodeId): History {
    h.(votes := h.votes[(v, t) := c])
  }

  lemma CastGrows(h: History, v: NodeId, t: nat, c: NodeId)
    requires h.term.Keys == h.members && h.llog.Keys == h.leader.Keys
    requires (v, t) in h.votes ==> h.votes[(v, t)] == c
    ensures GrowsBy(h, CastVote(h, v, t, c), v)
  {
    var h' := CastVote(h, v, t, c);
    assert forall w, u: nat :: Acked(h', w, u) == Acked(h, w, u);
    assert Grows(h, h');
  }

  lemma CastShape(h: History, v: NodeId, t: nat, c: NodeId)
    requires HistoryShape(h) && v in h.members && h.term[v] == t && c in h.members && (c, t) in h.cands
    ensures HistoryShape(CastVote(h, v, t, c))
  {
    hide AcksShape, CandsShape, LeadersShape;
    var h' := CastVote(h, v, t, c);
    assert forall k :: k in h'.votes ==> k == (v, t) || (k in h.votes && h'.votes[k] == h.votes[k]);
  }

  /** One more safe vote keeps the history's invariant. */
  lemma OneMoreVote(h: History, v: NodeId, t: nat, c: NodeId)
    requires HistoryInv(h) && (c, t) in h.cands && v in h.members && h.term[v] == t
    requires KeepsAcked(h, v, h.cands[(c, t)], t)
    requires Grows(h, CastVote(h, v, t, c)) && HistoryShape(CastVote(h, v, t, c))
    ensures HistoryInv(CastVote(h, v, t, c))
  {
    var h' := CastVote(h, v, t, c);
    OldFactsGrow(h, h');
    LeadersCompleteGrow(h, h');
    KeepsAckedGrows(h, h', v, h.cands[(c, t)], t);
    assert VotesSafe(h');
  }

  lemma CastingVote(h: History, s: Node, c: NodeId)
    requires HistoryInv(h) && s.id in h.members && h.term[s.id] == s.term
    requires GoodLog(h, s.log, s.term) && NodeAcks(h, s) && NodeVotes(h, s)
    requires s.votedFor == None || s.votedFor == Some(c)
    requires c in h.members && (c, s.term) in h.cands
    requires UpToDate(s.log, |h.cands[(c, s.term)]|, LastTerm(h.cands[(c, s.term)]))
    ensures HistoryInv(CastVote(h, s.id, s.term, c)) && GrowsBy(h, CastVote(h, s.id, s.term, c), s.id)
  {
    CastGrows(h, s.id, s.term, c);
    CastShape(h, s.id, s.term, c);
    UpToDateCandidateKeepsAcks(h, s.id, s.log, h.cands[(c, s.term)], s.term);
    OneMoreVote(h, s.id, s.term, c);
  }

  // ---- standing for election ----

  ghost function Stand(h: History, n: NodeId, t: nat, log: Log): History {
    CastVote(Nominate(RaiseTerm(h, n, t), n, t, log), n, t, n)
  }

  ghost function Nominate(h: History, n: NodeId, t: nat, log: Log): History {
    h.(cands := h.cands[(n, t) := log])
  }

  lemma Nominating(h: History, n: NodeId, log: Log)
    requires HistoryInv(h) && n in h.members && h.term[n] > 0 && (n, h.term[n]) !in h.cands
    requires GoodLog(h, log, h.term[n] - 1)
    ensures HistoryInv(Nominate(h, n, h.term[n], log)) && GrowsBy(h, Nominate(h, n, h.term[n], log), n)
  {
    var h' := Nominate(h, n, h.term[n], log);
    NominatedShape(h, n, log);
    OldFactsGrow(h, h');
    LeadersCompleteGrow(h, h');
    GoodLogGrows(h, h', log, h.term[n] - 1);
    assert HistoryLogs(h');
    assert VotesSafe(h');
  }

  lemma NominatedShape(h: History, n: NodeId, log: Log)
    requires HistoryShape(h) && n in h.members && h.term[n] > 0 && (n, h.term[n]) !in h.cands
    ensures HistoryShape(Nominate(h, n, h.term[n], log)) && GrowsBy(h, Nominate(h, n, h.term[n], log), n)
  {
    var h' := Nominate(h, n, h.term[n], log);
    assert forall v, t: nat :: Acked(h', v, t) == Acked(h, v, t);
  }

  lemma Standing(h: History, s: Node)
    requires HistoryInv(h) && s.id in h.members && h.term[s.id] == s.term
    requires GoodLog(h, s.log, s.term) && NodeAcks(h, s)
    ensures HistoryInv(Stand(h, s.id, s.term + 1, s.log)) && GrowsBy(h, Stand(h, s.id, s.term + 1, s.log), s.id)
  {
    var t := s.term + 1;
    var h1 := RaiseTerm(h, s.id, t);
    var h2 := Nominate(h1, s.id, t, s.log);
    RaisingTerm(h, s.id, t);
    NotYet(h, s.id, t);
    GoodLogGrows(h, h1, s.log, s.term);
    Nominating(h1, s.id, s.log);
    LeavingTerm(h, s, t);
    KeepsAckedFrame(h, h1, s.id, s.log, t);
    KeepsAckedFrame(h1, h2, s.id, s.log, t);
    CastGrows(h2, s.id, t, s.id);
    CastShape(h2, s.id, t, s.id);
    OneMoreVote(h2, s.id, t, s.id);
    GrowsByTransitive(h, h1, h2, s.id);
    GrowsByTransitive(h, h2, Stand(h, s.id, t, s.log), s.id);
  }

  /** Nothing is recorded of a node in a term it has not reached. */
  lemma NotYet(h: History, n: NodeId, t: nat)
    requires HistoryShape(h) && n in h.members && h.term[n] < t
    ensures (n, t) !in h.votes && (n, t) !in h.cands && (n, t) !in h.acked
    ensures t in h.leader ==> h.leader[t] != n
  {
  }

  lemma KeepsAckedFrame(h: History, h': History, v: NodeId, log: Log, bound: nat)
    requires Grows(h, h') && h'.llog == h.llog && h'.acked == h.acked && KeepsAcked(h, v, log, bound)
    ensures KeepsAcked(h', v, log, bound)
  {
    forall t: nat, n | t < bound && OwnTerm(h', t, n) && n <= Acked(h', v, t) ensures Survives(h', log, t, n) {
      assert OwnTerm(h, t, n) && n <= Acked(h, v, t);
      SurvivesGrows(h, h', log, t, n);
    }
  }

  // ---- winning an election ----

  ghost function Lead(h: History, n: NodeId, t: nat, log: Log): History {
    h.(leader := h.leader[t := n], llog := h.llog[t := log], acked := h.acked[(n, t) := |log|])
  }

  /** Election safety: a node elected in term `t` is the only one that ever is. */
  lemma ElectedIsUnique(h: History, a: NodeId, b: NodeId, t: nat)
    requires Elected(h, a, t) && Elected(h, b, t)
    ensures a == b
  {
    var q :| IsQuorum(h.members, q) && AllVotedFor(h, q, a, t);
    var r :| IsQuorum(h.members, r) && AllVotedFor(h, r, b, t);
    var v := QuorumsMeet(h.members, q, r);
  }

  /** A new leader's log holds everything that earlier terms committed or still could. */
  lemma NewLeaderIsComplete(h: History, c: NodeId, t: nat)
    requires HistoryInv(h) && (c, t) in h.cands && Elected(h, c, t)
    ensures Complete(h, h.cands[(c, t)], t)
  {
    var log := h.cands[(c, t)];
    var q :| IsQuorum(h.members, q) && AllVotedFor(h, q, c, t);
    forall u: nat, n | u < t && OwnTerm(h, u, n) ensures Survives(h, log, u, n) {
      if v :| v in q && Acked(h, v, u) >= n {
        assert (v, t) in h.votes && VoteSafe(h, v, t);
      } else {
        assert NeverAcks(h, q, u, n) by {
          forall v | v in q ensures v in h.term && h.term[v] > u && Acked(h, v, u) < n {
            assert (v, t) in h.votes;
          }
        }
      }
    }
  }

  lemma LeadShape(h: History, n: NodeId, log: Log)
    requires HistoryShape(h) && n in h.members && h.term[n] !in h.leader
    ensures HistoryShape(Lead(h, n, h.term[n], log))
  {
    hide VotesShape, CandsShape;
    var t := h.term[n];
    var h' := Lead(h, n, t, log);
    assert forall k :: k in h'.acked ==> k == (n, t) || (k in h.acked && h'.acked[k] == h.acked[k] && k.1 != t);
    assert forall u :: u in h'.leader ==> u == t || (u in h.leader && h'.leader[u] == h.leader[u]);
  }

  lemma LeadGrows(h: History, n: NodeId, t: nat, log: Log)
    requires h.term.Keys == h.members && h.llog.Keys == h.leader.Keys
    requires n in h.members && h.term[n] == t && t !in h.leader && Acked(h, n, t) == 0
    ensures GrowsBy(h, Lead(h, n, t, log), n)
  {
    var h' := Lead(h, n, t, log);
    AckedUpdate(h, h', n, t, |log|);
    assert Grows(h, h');
  }

  lemma AckedUpdate(h: History, h': History, n: NodeId, t: nat, m: nat)
    requires h'.acked == h.acked[(n, t) := m]
    ensures forall v, u: nat {:trigger Acked(h', v, u)} ::
              Acked(h', v, u) == if v == n && u == t then m else Acked(h, v, u)
  {
  }

  lemma LeadLogs(h: History, h': History, n: NodeId, t: nat, log: Log)
    requires HistoryInv(h) && h' == Lead(h, n, t, log) && Grows(h, h') && t !in h.leader
    requires Elected(h, n, t) && GoodLog(h, log, t - 1)
    ensures HistoryLogs(h') && HistoryElections(h') && VotesSafe(h')
  {
    hide HistoryShape, LeadersComplete, Grows, Backed, Elected, KeepsAcked;
    OldFactsGrow(h, h');
    GoodLogGrows(h, h', log, t - 1);
    ElectedGrows(h, h', n, t);
    assert VotesSafe(h');
  }

  lemma LeadComplete(h: History, h': History, n: NodeId, t: nat, log: Log)
    requires LeadersComplete(h) && h' == Lead(h, n, t, log) && Grows(h, h') && t !in h.llog
    requires Complete(h, log, t) && TermsAtMost(log, t - 1)
    ensures LeadersComplete(h')
  {
    assert forall u: nat, m :: OwnTerm(h', u, m) ==> OwnTerm(h, u, m);
    CompleteGrows(h, h', log, t);
    forall u | u in h'.llog ensures Complete(h', h'.llog[u], u) {
      if u != t {
        CompleteGrows(h, h', h.llog[u], u);
      }
    }
  }

  lemma Leading(h: History, s: Node)
    requires HistoryInv(h) && s.id in h.members && h.term[s.id] == s.term
    requires CandidateInv(h, s) && Elected(h, s.id, s.term)
    ensures s.term !in h.leader
    ensures HistoryInv(Lead(h, s.id, s.term, s.log)) && GrowsBy(h, Lead(h, s.id, s.term, s.log), s.id)
  {
    var h' := Lead(h, s.id, s.term, s.log);
    if s.term in h.leader {
      ElectedIsUnique(h, h.leader[s.term], s.id, s.term);
    }
    LeadShape(h, s.id, s.log);
    LeadGrows(h, s.id, s.term, s.log);
    LeadLogs(h, h', s.id, s.term, s.log);
    NewLeaderIsComplete(h, s.id, s.term);
    LeadComplete(h, h', s.id, s.term, s.log);
  }

  // ---- a leader writing to its log ----

  ghost function Write(h: History, n: NodeId, t: nat, log: Log): History {
    h.(llog := h.llog[t := log], acked := h.acked[(n, t) := |log|])
  }

  /** What a leader writes after a later term has begun is already blocked. */
  lemma LateWriteIsBlocked(h: History, h': History, t: nat, later: nat, n: int)
    requires HistoryShape(h) && HistoryElections(h) && Grows(h, h') && t < later && later in h.leader && t in h.llog
    requires n > |h.llog[t]|
    ensures Blocked(h', t, n)
  {
    var c := h.leader[later];
    assert Elected(h, c, later);
    var q :| IsQuorum(h.members, q) && AllVotedFor(h, q, c, later);
    assert NeverAcks(h, q, t, n) by {
      forall v | v in q ensures v in h.term && h.term[v] > t && Acked(h, v, t) < n {
        assert (v, later) in h.votes;
      }
    }
    BlockedGrows(h, h', t, n);
  }

  lemma WriteShape(h: History, n: NodeId, e: LogEntry)
    requires HistoryShape(h) && n in h.members && h.term[n] in h.leader
    ensures HistoryShape(Write(h, n, h.term[n], h.llog[h.term[n]] + [e]))
  {
    hide VotesShape, CandsShape, LeadersShape;
    var t := h.term[n];
    var h' := Write(h, n, t, h.llog[t] + [e]);
    assert forall k :: k in h'.acked ==> k == (n, t) || (k in h.acked && h'.acked[k] == h.acked[k]);
    assert h'.llog.Keys == h.llog.Keys;
  }

  lemma WriteGrows(h: History, n: NodeId, t: nat, e: LogEntry)
    requires h.term.Keys == h.members && h.llog.Keys == h.leader.Keys
    requires n in h.members && h.term[n] == t && t in h.leader && h.leader[t] == n && Acked(h, n, t) <= |h.llog[t]|
    ensures GrowsBy(h, Write(h, n, t, h.llog[t] + [e]), n)
  {
    var h' := Write(h, n, t, h.llog[t] + [e]);
    AckedUpdate(h, h', n, t, |h.llog[t]| + 1);
    assert Grows(h, h');
  }

  lemma WriteComplete(h: History, h': History, u: nat)
    requires HistoryShape(h) && HistoryElections(h) && LeadersComplete(h)
    requires Grows(h, h') && u in h.llog && h'.llog.Keys == h.llog.Keys
    ensures Complete(h', h'.llog[u], u)
  {
    forall w: nat, n | w < u && OwnTerm(h', w, n) ensures Survives(h', h'.llog[u], w, n) {
      WriteSurvives(h, h', u, w, n);
    }
  }

  lemma WriteSurvives(h: History, h': History, u: nat, w: nat, n: int)
    requires HistoryShape(h) && HistoryElections(h) && LeadersComplete(h)
    requires Grows(h, h') && u in h.llog && w in h.llog && w < u && OwnTerm(h', w, n)
    ensures Survives(h', h'.llog[u], w, n)
  {
    assert Agree(h.llog[w], h'.llog[w], |h.llog[w]|);
    if n <= |h.llog[w]| {
      LeaderSurvivesGrows(h, h', u, w, n);
    } else {
      LateWriteIsBlocked(h, h', w, u, n);
    }
  }

  lemma LeaderSurvivesGrows(h: History, h': History, u: nat, w: nat, n: int)
    requires LeadersComplete(h) && Grows(h, h') && u in h.llog && w < u && OwnTerm(h, w, n)
    ensures OwnTerm(h', w, n) && Survives(h', h'.llog[u], w, n)
  {
    assert Complete(h, h.llog[u], u) && Survives(h, h.llog[u], w, n);
    SurvivesGrows(h, h', h.llog[u], w, n);
  }

  lemma Writing(h: History, s: Node, e: LogEntry)
    requires HistoryInv(h) && s.id in h.members && h.term[s.id] == s.term && LeaderInv(h, s)
    requires e.term == s.term && e.index == |s.log| + 1
    ensures HistoryInv(Write(h, s.id, s.term, s.log + [e])) && GrowsBy(h, Write(h, s.id, s.term, s.log + [e]), s.id)
  {
    var h' := Write(h, s.id, s.term, s.log + [e]);
    WriteShape(h, s.id, e);
    WriteGrows(h, s.id, s.term, e);
    WriteLogs(h, h', s, e);
    forall u | u in h'.llog ensures Complete(h', h'.llog[u], u) {
      WriteComplete(h, h', u);
    }
  }

  lemma WriteLogs(h: History, h': History, s: Node, e: LogEntry)
    requires HistoryInv(h) && LeaderInv(h, s) && h' == Write(h, s.id, s.term, s.log + [e]) && Grows(h, h')
    requires e.term == s.term && e.index == |s.log| + 1
    ensures HistoryLogs(h') && HistoryElections(h') && VotesSafe(h')
  {
    hide HistoryShape, LeadersComplete, Grows, GoodLog, Elected, KeepsAcked, LeaderInv;
    OldFactsGrow(h, h');
    GoodLeaderLog(h, s);
    WrittenLogIsGood(h, h', s, e);
    assert VotesSafe(h');
  }

  lemma GoodLeaderLog(h: History, s: Node)
    requires HistoryLogs(h) && LeaderInv(h, s)
    ensures GoodLog(h, s.log, s.term)
  {
    assert GoodLog(h, h.llog[s.term], s.term);
  }

  lemma WrittenLogIsGood(h: History, h': History, s: Node, e: LogEntry)
    requires GoodLog(h, s.log, s.term) && Grows(h, h')
    requires e.term == s.term && e.index == |s.log| + 1
    requires s.term in h'.llog && h'.llog[s.term] == s.log + [e]
    ensures GoodLog(h', s.log + [e], s.term)
  {
    var log := s.log + [e];
    GoodLogGrows(h, h', s.log, s.term);
    forall i | 0 <= i < |log| ensures BackedAt(h', log, i) {
      if i < |s.log| {
        assert BackedAt(h', s.log, i);
      }
    }
  }

  // ---- a follower acknowledging its leader's log ----

  ghost function Acknowledge(h: History, n: NodeId, t: nat, m: nat): History {
    h.(acked := h.acked[(n, t) := Max(Acked(h, n, t), m)])
  }

  lemma Acknowledging(h: History, n: NodeId, m: nat)
    requires HistoryInv(h) && n in h.members && h.term[n] in h.llog && m <= |h.llog[h.term[n]]|
    ensures HistoryInv(Acknowledge(h, n, h.term[n], m)) && GrowsBy(h, Acknowledge(h, n, h.term[n], m), n)
  {
    AcknowledgeShape(h, n, m);
    AcknowledgeGrows(h, n, h.term[n], m);
    SameLogsAndVotes(h, Acknowledge(h, n, h.term[n], m));
  }

  lemma AcknowledgeShape(h: History, n: NodeId, m: nat)
    requires HistoryShape(h) && n in h.members && h.term[n] in h.llog && m <= |h.llog[h.term[n]]|
    ensures HistoryShape(Acknowledge(h, n, h.term[n], m))
  {
    hide VotesShape, CandsShape, LeadersShape;
  }

  lemma AcknowledgeGrows(h: History, n: NodeId, t: nat, m: nat)
    requires h.term.Keys == h.members && h.llog.Keys == h.leader.Keys && n in h.members && h.term[n] == t
    ensures GrowsBy(h, Acknowledge(h, n, t, m), n)
  {
    var h' := Acknowledge(h, n, t, m);
    AckedUpdate(h, h', n, t, Max(Acked(h, n, t), m));
    assert Grows(h, h');
  }

  // ---- what certification gives ----

  lemma NotBlockedAndCertified(h: History, t: nat, n: int)
    requires Certified(h, t, n)
    ensures !Blocked(h, t, n)
  {
    if Blocked(h, t, n) {
      var q :| IsQuorum(h.members, q) && AllAcked(h, q, t, n);
      var r :| IsQuorum(h.members, r) && NeverAcks(h, r, t, n);
      var v := QuorumsMeet(h.members, q, r);
      assert false;
    }
  }

  /** Leader completeness: what term `t` certified is in the log of every later leader. */
  lemma CertifiedIsInLaterLogs(h: History, t: nat, n: int, later: nat)
    requires HistoryInv(h) && Certified(h, t, n) && later in h.llog && t <= later
    ensures Agree(h.llog[later], h.llog[t], n)
  {
    if t < later {
      assert Complete(h, h.llog[later], later) && Survives(h, h.llog[later], t, n);
      NotBlockedAndCertified(h, t, n);
    }
  }

  /** Two certified prefixes never disagree. */
  lemma CertifiedPrefixesAgree(h: History, t: nat, n: int, u: nat, m: int)
    requires HistoryInv(h) && Certified(h, t, n) && Certified(h, u, m)
    ensures Agree(h.llog[t], h.llog[u], Min(n, m))
  {
    if t <= u {
      CertifiedIsInLaterLogs(h, t, n, u);
    } else {
      CertifiedIsInLaterLogs(h, u, m, t);
    }
  }
}

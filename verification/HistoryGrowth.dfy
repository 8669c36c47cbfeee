/** Every fact about a history survives its growth, so a step only has to re-establish the
    facts of the node that took it. */
module RaftHistoryGrowth {
  import opened LedgerModel
  import opened RaftTypes
  import opened RaftLog
  import opened RaftStep
  import opened RaftHistory

  lemma AcksGrowTransitive(a: History, b: History, c: History)
    requires AcksGrow(a, b) && AcksGrow(b, c) && a.term.Keys <= b.term.Keys
    requires forall v :: v in a.term ==> a.term[v] <= b.term[v]
    ensures AcksGrow(a, c)
  {
    forall v, t: nat
      ensures Acked(a, v, t) <= Acked(c, v, t)
      ensures v in a.term && t < a.term[v] ==> Acked(c, v, t) == Acked(a, v, t)
    {
      assert Acked(b, v, t) <= Acked(c, v, t);
      assert Acked(a, v, t) <= Acked(b, v, t);
    }
  }

  lemma GrowsTransitive(a: History, b: History, c: History)
    requires Grows(a, b) && Grows(b, c)
    ensures Grows(a, c)
  {
    hide AcksGrow;
    AcksGrowTransitive(a, b, c);
  }

  lemma GrowsByTransitive(a: History, b: History, c: History, n: NodeId)
    requires GrowsBy(a, b, n) && GrowsBy(b, c, n)
    ensures GrowsBy(a, c, n)
  {
    GrowsTransitive(a, b, c);
    forall v, t: nat | v != n ensures Acked(c, v, t) == Acked(a, v, t) {
      assert Acked(b, v, t) == Acked(a, v, t);
    }
  }

  lemma GrowsByReflexive(h: History, n: NodeId)
    requires HistoryShape(h)
    ensures GrowsBy(h, h, n)
  {
  }

  lemma GrowsByGrows(h: History, h': History, n: NodeId)
    requires GrowsBy(h, h', n)
    ensures Grows(h, h')
  {
  }

  lemma GrowsKeepsMembers(h: History, h': History, n: NodeId)
    requires GrowsBy(h, h', n)
    ensures h'.members == h.members
  {
  }

  lemma CertifiedGrows(h: History, h': History, t: nat, n: int)
    requires Grows(h, h') && Certified(h, t, n)
    ensures Certified(h', t, n)
  {
    var q :| IsQuorum(h.members, q) && AllAcked(h, q, t, n);
    assert AllAcked(h', q, t, n) by {
      forall v | v in q ensures Acked(h', v, t) >= n {
        assert Acked(h, v, t) <= Acked(h', v, t);
      }
    }
  }

  lemma BlockedGrows(h: History, h': History, t: nat, n: int)
    requires Grows(h, h') && Blocked(h, t, n)
    ensures Blocked(h', t, n)
  {
    var q :| IsQuorum(h.members, q) && NeverAcks(h, q, t, n);
    assert NeverAcks(h', q, t, n) by {
      forall v | v in q ensures h'.term[v] > t && Acked(h', v, t) < n {
        assert Acked(h', v, t) == Acked(h, v, t);
      }
    }
  }

  lemma SurvivesGrows(h: History, h': History, log: Log, t: nat, n: int)
    requires Grows(h, h') && OwnTerm(h, t, n) && Survives(h, log, t, n)
    ensures OwnTerm(h', t, n) && Survives(h', log, t, n)
  {
    if Blocked(h, t, n) {
      BlockedGrows(h, h', t, n);
    }
  }

  lemma ElectedGrows(h: History, h': History, c: NodeId, t: nat)
    requires Grows(h, h') && Elected(h, c, t)
    ensures Elected(h', c, t)
  {
    var q :| IsQuorum(h.members, q) && AllVotedFor(h, q, c, t);
    assert AllVotedFor(h', q, c, t);
  }

  lemma GoodLogGrows(h: History, h': History, log: Log, maxTerm: int)
    requires Grows(h, h') && GoodLog(h, log, maxTerm)
    ensures GoodLog(h', log, maxTerm)
  {
    forall i | 0 <= i < |log| ensures BackedAt(h', log, i) {
      assert BackedAt(h, log, i);
    }
  }

  lemma CommittedGrows(h: History, h': History, log: Log, n: int, bound: nat)
    requires Grows(h, h') && Committed(h, log, n, bound)
    ensures Committed(h', log, n, bound)
  {
    if n != 0 {
      var t: nat, m :| CommittedBy(h, log, n, bound, t, m);
      CertifiedGrows(h, h', t, m);
      assert CommittedBy(h', log, n, bound, t, m);
    }
  }

  /** Once `v` has reached term `bound`, its acknowledgements below it are final. */
  lemma KeepsAckedGrows(h: History, h': History, v: NodeId, log: Log, bound: nat)
    requires HistoryShape(h) && Grows(h, h') && v in h.members && bound <= h.term[v]
    requires KeepsAcked(h, v, log, bound)
    ensures KeepsAcked(h', v, log, bound)
  {
    forall t: nat, n | t < bound && OwnTerm(h', t, n) && n <= Acked(h', v, t)
      ensures Survives(h', log, t, n)
    {
      assert Acked(h', v, t) == Acked(h, v, t);
      assert OwnTerm(h, t, n);
      SurvivesGrows(h, h', log, t, n);
    }
  }

  lemma VotesSafeGrow(h: History, h': History, v: NodeId, t: nat)
    requires HistoryShape(h) && Grows(h, h') && (v, t) in h.votes && VoteSafe(h, v, t)
    ensures (v, t) in h'.votes && VoteSafe(h', v, t)
  {
    KeepsAckedGrows(h, h', v, h.cands[(h.votes[(v, t)], t)], t);
  }

  lemma MessageGrows(h: History, h': History, e: Envelope)
    requires Grows(h, h') && MessageInv(h, e)
    ensures MessageInv(h', e)
  {
    var m := e.message;
    if m.AppendEntries? {
      AppendGrows(h, h', e);
    } else if m.AppendReply? && m.success {
      assert Acked(h, e.sender, m.term) <= Acked(h', e.sender, m.term);
    }
  }

  lemma AppendGrows(h: History, h': History, e: Envelope)
    requires Grows(h, h') && e.message.AppendEntries? && AppendInv(h, e)
    ensures AppendInv(h', e)
  {
    var m := e.message;
    var l, l' := h.llog[m.term], h'.llog[m.term];
    assert Agree(l, l', |l|);
    assert l'[m.prevIndex..m.prevIndex + |m.entries|] == l[m.prevIndex..m.prevIndex + |m.entries|];
    CommittedGrows(h, h', l, m.leaderCommit, m.term);
    if m.leaderCommit != 0 {
      var t: nat, n :| CommittedBy(h', l, m.leaderCommit, m.term, t, n);
      assert CommittedBy(h', l', m.leaderCommit, m.term, t, n);
    }
  }

  lemma LedgerGrows(h: History, h': History, initial: Ledger, s: Node)
    requires Grows(h, h') && NodeLedger(h, initial, s)
    ensures NodeLedger(h', initial, s)
  {
    var t: nat, m, k :| LedgerAt(h, initial, s, t, m, k);
    if k != 0 {
      CertifiedGrows(h, h', t, m);
      assert h'.llog[t][..k] == h.llog[t][..k];
    }
    assert LedgerAt(h', initial, s, t, m, k);
  }

  /** What a node stores stays good in any later term. */
  lemma StoreGrows(h: History, h': History, initial: Ledger, s: Node, s': Node)
    requires Grows(h, h') && NodeStore(h, initial, s)
    requires s'.log == s.log && s'.commitIndex == s.commitIndex && s'.lastApplied == s.lastApplied
    requires s'.ledger == s.ledger && s.term <= s'.term
    ensures NodeStore(h', initial, s')
  {
    GoodLogGrows(h, h', s.log, s.term);
    CommittedGrows(h, h', s.log, s.commitIndex, s.term);
    if s.commitIndex != 0 {
      var t: nat, m :| CommittedBy(h', s.log, s.commitIndex, s.term, t, m);
      assert CommittedBy(h', s.log, s.commitIndex, s'.term, t, m);
    }
    LedgerGrows(h, h', initial, s);
    var t: nat, m, k :| LedgerAt(h', initial, s, t, m, k);
    assert LedgerAt(h', initial, s', t, m, k);
  }

  /** A node that took no step keeps its invariant. */
  lemma NodeGrows(h: History, h': History, initial: Ledger, s: Node, n: NodeId)
    requires HistoryShape(h) && GrowsBy(h, h', n) && NodeInv(h, initial, s) && s.id != n
    ensures NodeInv(h', initial, s)
  {
    hide NodeStore, KeepsAcked, Agree, NodeRole;
    StoreGrows(h, h', initial, s, s);
    KeepsAckedGrows(h, h', s.id, s.log, s.term);
    assert NodeVotes(h', s);
    RoleGrows(h, h', s, n);
    NodeAcksGrow(h, h', s, n);
  }

  lemma RoleGrows(h: History, h': History, s: Node, n: NodeId)
    requires HistoryShape(h) && GrowsBy(h, h', n) && NodeRole(h, s) && s.id in h.term && h.term[s.id] == s.term
    requires s.id != n
    ensures NodeRole(h', s)
  {
    hide Agree;
    assert Acked(h', s.id, s.term) == Acked(h, s.id, s.term);
    if s.role == Leader {
      forall p | p in s.peers ensures s.matchIndex[p] <= Acked(h', p, s.term) {
        assert Acked(h, p, s.term) <= Acked(h', p, s.term);
      }
      assert LeaderInv(h', s);
    }
    assert s.role == Candidate ==> CandidateInv(h', s);
  }

  lemma NodeAcksGrow(h: History, h': History, s: Node, n: NodeId)
    requires HistoryShape(h) && GrowsBy(h, h', n) && s.id != n && s.id in h.members
    requires NodeAcks(h, s) && KeepsAcked(h', s.id, s.log, s.term)
    ensures NodeAcks(h', s)
  {
    assert Acked(h', s.id, s.term) == Acked(h, s.id, s.term);
    if s.term in h.llog {
      assert Agree(h.llog[s.term], h'.llog[s.term], |h.llog[s.term]|);
    }
  }
}

/** What holds over every run of a cluster, stated on its states alone. */
module RaftRunTheorems {
  import opened Wrappers
  import opened LedgerModel
  import opened LedgerProofs
  import opened RaftTypes
  import opened RaftLog
  import opened RaftStep
  import opened RaftHistory
  import opened RaftHistoryGrowth
  import opened RaftActions
  import opened RaftApply
  import opened RaftElectionSteps
  import opened RaftCluster
  import opened RaftDurability

  // ---- reading a node's invariant off a run ----

  lemma NodeAt(h: History, initial: Ledger, c: Cluster, n: NodeId)
    requires ClusterInv(h, initial, c) && n in c.nodes
    ensures Ready(h, initial, c.nodes[n]) && c.nodes[n].id == n
  {
    hide HistoryInv, NodeInv, NetworkInv;
  }

  lemma MessageAt(h: History, initial: Ledger, c: Cluster, e: Envelope)
    requires ClusterInv(h, initial, c) && e in c.sent
    ensures MessageInv(h, e)
  {
    hide HistoryInv, NodesInv, MessageInv;
  }

  /** A leader is on record, and its log is a prefix of what its term ever wrote. */
  lemma LeaderOnRecord(h: History, h': History, initial: Ledger, s: Node)
    requires NodeInv(h, initial, s) && s.role == Leader && Grows(h, h')
    ensures s.term in h'.leader && h'.leader[s.term] == s.id
    ensures s.term in h'.llog && Agree(s.log, h'.llog[s.term], |s.log|)
  {
    hide NodeStore, NodeAcks, NodeVotes, AcksGrow;
  }

  lemma GoodLogAt(h: History, h': History, initial: Ledger, s: Node)
    requires NodeInv(h, initial, s) && Grows(h, h')
    ensures GoodLog(h', s.log, s.term)
  {
    hide Grows, GoodLog, NodeRole, NodeAcks, NodeVotes, Configured;
    GoodLogGrows(h, h', s.log, s.term);
  }

  // ---- election safety ----

  /** At most one node ever leads a term, over the whole run and across crashes; and what a
      term's leader has written it never takes back while it leads. */
  lemma ElectionSafety(initial: Ledger, cs: seq<Cluster>, evs: seq<Event>, i: nat, j: nat, a: NodeId, b: NodeId)
    requires IsRun(initial, cs, evs) && i < |cs| && j < |cs| && a in cs[i].nodes && b in cs[j].nodes
    requires cs[i].nodes[a].role == Leader && cs[j].nodes[b].role == Leader
    requires cs[i].nodes[a].term == cs[j].nodes[b].term
    ensures a == b
    ensures var p, q := cs[i].nodes[a].log, cs[j].nodes[b].log; p <= q || q <= p
  {
    hide ClusterInv, NodeInv, Grows, HistoryInv, Initial, Next;
    var hs := RunHistory(initial, cs, evs);
    var top := hs[|cs| - 1];
    NodeAt(hs[i], initial, cs[i], a);
    NodeAt(hs[j], initial, cs[j], b);
    LeaderOnRecord(hs[i], top, initial, cs[i].nodes[a]);
    LeaderOnRecord(hs[j], top, initial, cs[j].nodes[b]);
  }

  // ---- log matching ----

  /** Log matching at any two moments of a run: logs that share an index and a term agree on
      everything up to it.  Every entry carries its own position, and terms never decrease. */
  lemma LogMatching(initial: Ledger, cs: seq<Cluster>, evs: seq<Event>, i: nat, j: nat, a: NodeId, b: NodeId, k: nat)
    requires IsRun(initial, cs, evs) && i < |cs| && j < |cs| && a in cs[i].nodes && b in cs[j].nodes
    requires k < |cs[i].nodes[a].log| && k < |cs[j].nodes[b].log|
    requires cs[i].nodes[a].log[k].term == cs[j].nodes[b].log[k].term
    ensures cs[i].nodes[a].log[..k + 1] == cs[j].nodes[b].log[..k + 1]
    ensures cs[i].nodes[a].log[k].index == k + 1
    ensures Sorted(cs[i].nodes[a].log) && TermsAtMost(cs[i].nodes[a].log, cs[i].nodes[a].term)
  {
    hide ClusterInv, NodeInv, Grows, HistoryInv, Initial, Next;
    var hs := RunHistory(initial, cs, evs);
    var top := hs[|cs| - 1];
    NodeAt(hs[i], initial, cs[i], a);
    NodeAt(hs[j], initial, cs[j], b);
    GoodLogAt(hs[i], top, initial, cs[i].nodes[a]);
    GoodLogAt(hs[j], top, initial, cs[j].nodes[b]);
    LogsMatch(top, cs[i].nodes[a].log, cs[j].nodes[b].log, k);
  }

  /** The same for a log and any AppendEntries ever sent: a node that holds one of the
      message's entries holds every earlier one and the entry they follow. */
  lemma LogMatchesMessages(initial: Ledger, cs: seq<Cluster>, evs: seq<Event>, i: nat, j: nat, a: NodeId, e: Envelope,
                           k: nat)
    requires IsRun(initial, cs, evs) && i < |cs| && j < |cs| && a in cs[i].nodes && e in cs[j].sent
    requires e.message.AppendEntries?
    requires k < |e.message.entries| && 0 <= e.message.prevIndex && e.message.prevIndex + k < |cs[i].nodes[a].log|
    requires cs[i].nodes[a].log[e.message.prevIndex + k].term == e.message.entries[k].term
    ensures var p := e.message.prevIndex; cs[i].nodes[a].log[p..p + k + 1] == e.message.entries[..k + 1]
    ensures TermAt(cs[i].nodes[a].log, e.message.prevIndex) == e.message.prevTerm
  {
    hide ClusterInv, NodeInv, Grows, HistoryInv, Initial, Next, Committed;
    var hs := RunHistory(initial, cs, evs);
    var top := hs[|cs| - 1];
    NodeAt(hs[i], initial, cs[i], a);
    GoodLogAt(hs[i], top, initial, cs[i].nodes[a]);
    MessageAt(hs[j], initial, cs[j], e);
    MessageGrows(hs[j], top, e);
    var p, m, l := e.message.prevIndex, e.message, top.llog[e.message.term];
    ReadyAt(hs[|cs| - 1], initial, cs[|cs| - 1], m.term);
    assert m.entries[k] == l[p + k];
    LogsMatch(top, cs[i].nodes[a].log, l, p + k);
    forall x | 0 <= x <= k ensures cs[i].nodes[a].log[p + x] == m.entries[x] {
      assert m.entries[x] == l[p + x];
    }
  }

  lemma ReadyAt(h: History, initial: Ledger, c: Cluster, t: nat)
    requires ClusterInv(h, initial, c) && t in h.llog
    ensures GoodLog(h, h.llog[t], t)
  {
  }

  // ---- leader completeness ----

  /** Whatever is ever certified in an earlier term is in a leader's log at every moment it
      leads, even before the certificate is complete. */
  lemma LeaderHoldsCertified(h: History, top: History, later: nat, t: nat, n: int)
    requires HistoryInv(h) && Grows(h, top) && later in h.llog && t < later && Certified(top, t, n)
    ensures t in h.llog && Agree(h.llog[later], h.llog[t], n)
  {
    hide HistoryLogs, VotesSafe, Certified;
    CertifiedIsWritten(top, t, n);
    if t in h.llog && n <= |h.llog[t]| {
      EarlierOwnTerm(h, top, t, n);
      assert Complete(h, h.llog[later], later) && Survives(h, h.llog[later], t, n);
    } else {
      assert later in h.leader && Elected(h, h.leader[later], later);
      UnwrittenIsBlocked(h, h.leader[later], later, t, n);
    }
    if Blocked(h, t, n) {
      BlockedGrows(h, top, t, n);
      NotBlockedAndCertified(top, t, n);
      assert false;
    }
  }

  lemma EarlierOwnTerm(h: History, top: History, t: nat, n: int)
    requires Grows(h, top) && Certified(top, t, n) && t in h.llog && n <= |h.llog[t]|
    ensures OwnTerm(h, t, n)
  {
    assert Agree(h.llog[t], top.llog[t], |h.llog[t]|);
  }

  lemma UnwrittenIsBlocked(h: History, c: NodeId, later: nat, t: nat, n: int)
    requires HistoryShape(h) && Elected(h, c, later) && t < later && n > 0 && (t in h.llog ==> n > |h.llog[t]|)
    ensures Blocked(h, t, n)
  {
    var q :| IsQuorum(h.members, q) && AllVotedFor(h, q, c, later);
    assert NeverAcks(h, q, t, n) by {
      forall v | v in q ensures v in h.term && h.term[v] > t && Acked(h, v, t) < n {
        assert (v, later) in h.votes;
      }
    }
  }

  /** Leader completeness: what any node ever considers committed is, entry for entry, in the
      log of every leader of every later term, at every moment of that leadership. */
  lemma LeaderCompleteness(initial: Ledger, cs: seq<Cluster>, evs: seq<Event>, i: nat, j: nat, a: NodeId, b: NodeId)
    requires IsRun(initial, cs, evs) && i < |cs| && j < |cs| && a in cs[i].nodes && b in cs[j].nodes
    requires cs[j].nodes[b].role == Leader && cs[j].nodes[b].term > cs[i].nodes[a].term
    ensures var n := cs[i].nodes[a].commitIndex;
            n <= |cs[i].nodes[a].log| && n <= |cs[j].nodes[b].log| && cs[j].nodes[b].log[..n] == cs[i].nodes[a].log[..n]
  {
    hide ClusterInv, Grows, HistoryInv, Initial, Next, Certified, GoodLog, NodeLedger, NodeAcks, NodeVotes, Configured;
    var hs := RunHistory(initial, cs, evs);
    var top := hs[|cs| - 1];
    var p, q := cs[i].nodes[a], cs[j].nodes[b];
    NodeAt(hs[i], initial, cs[i], a);
    NodeAt(hs[j], initial, cs[j], b);
    var n := p.commitIndex;
    if n != 0 {
      var t: nat, m :| CommittedBy(hs[i], p.log, n, p.term, t, m);
      CertifiedGrows(hs[i], top, t, m);
      CertifiedIsWritten(hs[i], t, m);
      LeaderHoldsCertified(hs[j], top, q.term, t, m);
      SameWriting(hs[i], hs[j], top, t, n);
    }
  }

  lemma SameWriting(h: History, h': History, top: History, t: nat, n: int)
    requires Grows(h, top) && Grows(h', top) && t in h.llog && t in h'.llog && n <= |h.llog[t]| && n <= |h'.llog[t]|
    ensures Agree(h.llog[t], h'.llog[t], n)
  {
    assert Agree(h.llog[t], top.llog[t], |h.llog[t]|) && Agree(h'.llog[t], top.llog[t], |h'.llog[t]|);
  }

  // ---- no committed entry is ever truncated ----

  /** In every state the node has applied exactly what it has committed, all of it in its log. */
  lemma AppliedCommittedStored(initial: Ledger, cs: seq<Cluster>, evs: seq<Event>, i: nat, a: NodeId)
    requires IsRun(initial, cs, evs) && i < |cs| && a in cs[i].nodes
    ensures cs[i].nodes[a].lastApplied == cs[i].nodes[a].commitIndex <= |cs[i].nodes[a].log|
  {
    hide ClusterInv, Grows, HistoryInv, Initial, Next;
    var hs := RunHistory(initial, cs, evs);
    NodeAt(hs[i], initial, cs[i], a);
  }

  /** One step other than a restart keeps or raises the commit index. */
  lemma StepKeepsCommitIndex(initial: Ledger, cs: seq<Cluster>, evs: seq<Event>, i: nat, a: NodeId)
    requires IsRun(initial, cs, evs) && i < |evs| && a in cs[i].nodes
    requires !(evs[i].RestartEvent? && evs[i].n == a)
    ensures a in cs[i + 1].nodes && cs[i].nodes[a].commitIndex <= cs[i + 1].nodes[a].commitIndex
  {
    hide ClusterInv, Grows, HistoryInv, NodeInv, Initial, NodeStep, MessageInv;
    var ev := evs[i];
    if Actor(ev) == a {
      var hs := RunHistory(initial, cs, evs);
      NodeAt(hs[i], initial, cs[i], a);
      if ev.DeliverEvent? && ev.e.message.AppendEntries? {
        MessageAt(hs[i], initial, cs[i], ev.e);
        AppendRaisesCommit(hs[i], initial, cs[i].nodes[a], ev.e, ev.now, ev.draw);
        ReceiveIsNodeStep(cs[i].nodes[a], ev);
      } else {
        OtherStepsKeepLog(cs[i].nodes[a], ev);
      }
    }
  }

  /** Within one incarnation, between any two moments, the commit index never falls. */
  lemma {:induction false} CommitIndexNeverFalls(initial: Ledger, cs: seq<Cluster>, evs: seq<Event>, i: nat, j: nat,
                                                 a: NodeId)
    requires IsRun(initial, cs, evs) && i <= j < |cs| && a in cs[i].nodes
    requires forall k :: i <= k < j ==> !(evs[k].RestartEvent? && evs[k].n == a)
    ensures a in cs[j].nodes && cs[i].nodes[a].commitIndex <= cs[j].nodes[a].commitIndex
    decreases j
  {
    hide Initial, Next;
    if i < j {
      CommitIndexNeverFalls(initial, cs, evs, i, j - 1, a);
      StepKeepsCommitIndex(initial, cs, evs, j - 1, a);
    }
  }

  /** What a node has committed stays in its log for ever, through any later leaders, crashes
      and restarts. */
  lemma {:induction false} CommittedEntriesAreDurable(initial: Ledger, cs: seq<Cluster>, evs: seq<Event>, i: nat,
                                                      j: nat, a: NodeId)
    requires IsRun(initial, cs, evs) && i <= j < |cs| && a in cs[i].nodes
    ensures a in cs[j].nodes
    ensures var n := cs[i].nodes[a].commitIndex;
            n <= |cs[i].nodes[a].log| && n <= |cs[j].nodes[a].log| && cs[j].nodes[a].log[..n] == cs[i].nodes[a].log[..n]
  {
    hide ClusterInv, Grows, HistoryInv, Initial, NodeStep, NodeInv, Committed, MessageInv;
    var hs := RunHistory(initial, cs, evs);
    NodeAt(hs[i], initial, cs[i], a);
    CommittedNow(hs[i], initial, cs[i].nodes[a]);
    var n := cs[i].nodes[a].commitIndex;
    var k := i;
    while k < j
      invariant i <= k <= j && a in cs[k].nodes
      invariant n <= |cs[k].nodes[a].log| && cs[k].nodes[a].log[..n] == cs[i].nodes[a].log[..n]
      invariant Committed(hs[k], cs[k].nodes[a].log, n, cs[k].nodes[a].term)
    {
      var ev, s := evs[k], cs[k].nodes[a];
      if Actor(ev) == a {
        NodeAt(hs[k], initial, cs[k], a);
        if ev.DeliverEvent? {
          MessageAt(hs[k], initial, cs[k], ev.e);
        }
        StepKeepsCommittedPrefix(hs[k], initial, s, ev, n);
      }
      CommittedGrows(hs[k], hs[k + 1], cs[k + 1].nodes[a].log, n, cs[k + 1].nodes[a].term);
      k := k + 1;
    }
  }

  lemma CommittedNow(h: History, initial: Ledger, s: Node)
    requires NodeInv(h, initial, s)
    ensures s.commitIndex <= |s.log| && Committed(h, s.log, s.commitIndex, s.term)
  {
    hide GoodLog, Committed, NodeLedger, NodeAcks, NodeVotes, NodeRole, Configured;
  }

  // ---- the follower's commit rule ----

  /** Every AppendEntries ever sent is one the handler can take, and its commit index is
      within the entries it carries. */
  lemma SentAppendsAreSound(initial: Ledger, cs: seq<Cluster>, evs: seq<Event>, i: nat, e: Envelope)
    requires IsRun(initial, cs, evs) && i < |cs| && e in cs[i].sent
    ensures Receivable(e.message) && e.recipient in cs[i].nodes && e.sender in cs[i].nodes && e.sender != e.recipient
    ensures e.message.AppendEntries? ==>
              0 <= e.message.prevIndex && 0 <= e.message.leaderCommit <= e.message.prevIndex + |e.message.entries|
  {
    hide Grows, HistoryInv, Initial, Next, NodesInv;
    var hs := RunHistory(initial, cs, evs);
    MessageAt(hs[i], initial, cs[i], e);
  }

  /** The rule of Figure 2: commit up to the leader's commit index or the last new entry. */
  function Figure2Commit(commitIndex: nat, m: Message): int
    requires m.AppendEntries?
  {
    if m.leaderCommit > commitIndex then Min(m.leaderCommit, m.prevIndex + |m.entries|) else commitIndex
  }

  /** The code bounds the new commit index by the follower's last index, not by the last new
      entry.  On every delivery of every run the two give the same commit index. */
  lemma FollowerCommitIsFigure2(initial: Ledger, cs: seq<Cluster>, evs: seq<Event>, i: nat)
    requires IsRun(initial, cs, evs) && i < |evs| && evs[i].DeliverEvent? && evs[i].e.message.AppendEntries?
    ensures var ev := evs[i];
            var s := cs[i].nodes[ev.e.recipient];
            var a := HandleAppendEntries(s, ev.e.message, ev.now, ev.draw);
            && cs[i + 1].nodes[ev.e.recipient] == a.node
            && (a.reply.success ==> a.node.commitIndex == Figure2Commit(s.commitIndex, ev.e.message))
            && (!a.reply.success ==> a.node.commitIndex == s.commitIndex)
  {
    hide ClusterInv, Grows, HistoryInv, NodeInv, Initial, NodeStep, HandleAppendEntries, MessageInv;
    var ev := evs[i];
    var a := ev.e.recipient;
    var hs := RunHistory(initial, cs, evs);
    NodeAt(hs[i], initial, cs[i], a);
    MessageAt(hs[i], initial, cs[i], ev.e);
    SentAppendsAreSound(initial, cs, evs, i, ev.e);
    AppendRaisesCommit(hs[i], initial, cs[i].nodes[a], ev.e, ev.now, ev.draw);
    ReceiveIsNodeStep(cs[i].nodes[a], ev);
  }

  // ---- acknowledgements ----

  /** Whatever stale or duplicated replies arrive, a leader's indexes stay within its log, and
      a peer still in the leader's term agrees with it up to its match index. */
  lemma AckSoundness(initial: Ledger, cs: seq<Cluster>, evs: seq<Event>, i: nat, l: NodeId, p: NodeId)
    requires IsRun(initial, cs, evs) && i < |cs| && l in cs[i].nodes && cs[i].nodes[l].role == Leader
    requires p in cs[i].nodes[l].peers
    ensures var s := cs[i].nodes[l];
            && p in cs[i].nodes && p in s.nextIndex && p in s.matchIndex
            && 1 <= s.nextIndex[p] <= |s.log| + 1
            && 0 <= s.matchIndex[p] <= |s.log|
            && (cs[i].nodes[p].term == s.term ==> Agree(cs[i].nodes[p].log, s.log, s.matchIndex[p]))
  {
    hide Grows, HistoryLogs, HistoryElections, LeadersComplete, VotesSafe, Initial, Next;
    hide NodesInv, NetworkInv, NodeStore, NodeVotes, KeepsAcked;
    var hs := RunHistory(initial, cs, evs);
    var h := hs[i];
    NodeAt(h, initial, cs[i], l);
    var s := cs[i].nodes[l];
    assert p in h.members;
    NodeAt(h, initial, cs[i], p);
    assert (p, s.term) in h.acked ==> h.acked[(p, s.term)] <= |h.llog[s.term]|;
    assert h.llog[s.term] == s.log && s.matchIndex[p] <= Acked(h, p, s.term);
  }

  /** Taking an AppendEntries of its own term ends a leadership; an older one changes nothing. */
  lemma LeaderFollows(s: Node, m: Message, now: real, draw: real)
    requires s.role == Leader && m.AppendEntries? && m.prevIndex >= 0
    ensures var s' := HandleAppendEntries(s, m, now, draw).node; s'.role == Follower || s' == s
  {
    hide Merge, Fold, FirstIndexOfTerm;
  }

  // ---- state machine safety ----

  /** The certified prefixes of a history are the prefixes of one log. */
  lemma AgreedLog(h: History) returns (agreed: Log)
    requires HistoryInv(h)
    ensures forall t: nat, n :: Certified(h, t, n) ==> n <= |agreed| && Agree(agreed, h.llog[t], n)
  {
    hide HistoryInv, Certified;
    var ends := set t, n | t in h.llog && 1 <= n <= |h.llog[t]| && Certified(h, t, n) :: (t, n);
    assert forall t: nat, n :: Certified(h, t, n) ==> (t, n) in ends by {
      forall t: nat, n | Certified(h, t, n) ensures (t, n) in ends {
        CertifiedIsWritten(h, t, n);
      }
    }
    if ends == {} {
      agreed := [];
    } else {
      var top := Longest(ends);
      agreed := h.llog[top.0][..top.1];
      forall t: nat, n | Certified(h, t, n) ensures n <= |agreed| && Agree(agreed, h.llog[t], n) {
        assert (t, n) in ends;
        CertifiedPrefixesAgree(h, t, n, top.0, top.1);
      }
    }
  }

  lemma CertifiedIsWritten(h: History, t: nat, n: int)
    requires Certified(h, t, n)
    ensures t in h.llog && 1 <= n <= |h.llog[t]|
  {
  }

  lemma {:induction false} Longest(ends: set<(nat, int)>) returns (top: (nat, int))
    requires ends != {}
    ensures top in ends && forall x :: x in ends ==> x.1 <= top.1
    decreases |ends|
  {
    top :| top in ends;
    if ends != {top} {
      var rest := Longest(ends - {top});
      if rest.1 > top.1 {
        top := rest;
      }
    }
  }

  /** State machine safety, for the entries and for the ledgers they are applied to: a run has
      one agreed command sequence.  At every moment each node's committed entries are a prefix
      of it, and its ledger is the initial ledger after a prefix of it at least that long,
      whatever was lost, duplicated, reordered, crashed or replayed. */
  lemma OneAgreedHistory(initial: Ledger, cs: seq<Cluster>, evs: seq<Event>) returns (agreed: Log)
    requires IsRun(initial, cs, evs)
    ensures forall i, a :: 0 <= i < |cs| && a in cs[i].nodes ==> CommittedIn(agreed, cs[i].nodes[a])
    ensures forall i, a :: 0 <= i < |cs| && a in cs[i].nodes ==> AppliedFrom(initial, agreed, cs[i].nodes[a])
  {
    hide ClusterInv, Grows, HistoryInv, NodeInv, Initial, Next, CommittedIn, AppliedFrom, Certified;
    var hs := RunHistory(initial, cs, evs);
    var top := hs[|cs| - 1];
    InvOfHistory(top, initial, cs[|cs| - 1]);
    agreed := AgreedLog(top);
    forall i, a | 0 <= i < |cs| && a in cs[i].nodes
      ensures CommittedIn(agreed, cs[i].nodes[a]) && AppliedFrom(initial, agreed, cs[i].nodes[a])
    {
      NodeAt(hs[i], initial, cs[i], a);
      NodeAgrees(hs[i], top, initial, cs[i].nodes[a], agreed);
    }
  }

  lemma InvOfHistory(h: History, initial: Ledger, c: Cluster)
    requires ClusterInv(h, initial, c)
    ensures HistoryInv(h)
  {
    hide HistoryInv;
  }

  ghost predicate CommittedIn(agreed: Log, s: Node) {
    s.commitIndex <= |s.log| && s.commitIndex <= |agreed| && s.log[..s.commitIndex] == agreed[..s.commitIndex]
  }

  ghost predicate AppliedFrom(initial: Ledger, agreed: Log, s: Node) {
    exists k :: s.lastApplied <= k <= |agreed| && s.ledger == Fold(initial, Commands(agreed[..k]))
  }

  lemma NodeAgrees(h: History, top: History, initial: Ledger, s: Node, agreed: Log)
    requires NodeInv(h, initial, s) && Grows(h, top)
    requires forall t: nat, n :: Certified(top, t, n) ==> n <= |agreed| && Agree(agreed, top.llog[t], n)
    ensures CommittedIn(agreed, s) && AppliedFrom(initial, agreed, s)
  {
    hide Grows, Certified, GoodLog, NodeAcks, NodeVotes, NodeRole, Configured, Fold;
    if s.commitIndex != 0 {
      var t: nat, m :| CommittedBy(h, s.log, s.commitIndex, s.term, t, m);
      CertifiedGrows(h, top, t, m);
      CertifiedLogGrows(h, top, t, m);
    }
    var t: nat, m, k :| LedgerAt(h, initial, s, t, m, k);
    if k == 0 {
      assert Commands(agreed[..0]) == [];
      NothingApplied(initial);
    } else {
      CertifiedGrows(h, top, t, m);
      CertifiedLogGrows(h, top, t, m);
      assert agreed[..k] == h.llog[t][..k];
    }
    assert s.lastApplied <= k <= |agreed| && s.ledger == Fold(initial, Commands(agreed[..k]));
  }

  lemma CertifiedLogGrows(h: History, top: History, t: nat, n: int)
    requires Grows(h, top) && Certified(h, t, n)
    ensures t in h.llog && t in top.llog && Agree(h.llog[t], top.llog[t], n)
  {
    hide AcksGrow;
  }

  lemma NothingApplied(initial: Ledger)
    ensures Fold(initial, []) == initial
  {
  }

  /** Two nodes whose commit indexes both reach `n`, at any two moments of a run, hold the
      same first `n` entries. */
  lemma StateMachineSafety(initial: Ledger, cs: seq<Cluster>, evs: seq<Event>, i: nat, j: nat, a: NodeId, b: NodeId,
                           n: nat)
    requires IsRun(initial, cs, evs) && i < |cs| && j < |cs| && a in cs[i].nodes && b in cs[j].nodes
    requires n <= cs[i].nodes[a].commitIndex && n <= cs[j].nodes[b].commitIndex
    ensures n <= |cs[i].nodes[a].log| && n <= |cs[j].nodes[b].log| && cs[i].nodes[a].log[..n] == cs[j].nodes[b].log[..n]
  {
    hide IsRun, AppliedFrom;
    var agreed := OneAgreedHistory(initial, cs, evs);
    var p, q := cs[i].nodes[a], cs[j].nodes[b];
    assert CommittedIn(agreed, p) && CommittedIn(agreed, q);
    assert p.log[..n] == p.log[..p.commitIndex][..n] == agreed[..n];
    assert q.log[..n] == q.log[..q.commitIndex][..n] == agreed[..n];
  }

  /** The account `a` of node `s` shows the initial balance plus the accepted deltas of a
      prefix of the agreed sequence, at least as long as the node has applied, and no
      overdraft. */
  ghost predicate AccountsFor(initial: Ledger, agreed: Log, s: Node, a: AccountId) {
    exists k :: s.lastApplied <= k <= |agreed| && BalanceAt(initial, Commands(agreed[..k]), s.ledger, a)
  }

  ghost predicate BalanceAt(initial: Ledger, applied: seq<LedgerEntry>, l: Ledger, a: AccountId) {
    && l == Fold(initial, applied)
    && l.Balance(a) == initial.Balance(a) + AcceptedDelta(initial.results.Keys, l.results, FirstOccurrences(applied), a)
    && (initial.Balance(a) >= 0.0 ==> l.Balance(a) >= 0.0)
  }

  /** The composed promise of the replicated ledger: a run has one agreed sequence, and on
      every replica, at every moment, each balance is the initial one plus the accepted deltas
      of a prefix of that sequence.  No replica ever shows an overdraft. */
  lemma ReplicasConserveMoney(initial: Ledger, cs: seq<Cluster>, evs: seq<Event>) returns (agreed: Log)
    requires IsRun(initial, cs, evs)
    ensures forall i, n :: 0 <= i < |cs| && n in cs[i].nodes ==> CommittedIn(agreed, cs[i].nodes[n])
    ensures forall i, n, a :: 0 <= i < |cs| && n in cs[i].nodes ==> AccountsFor(initial, agreed, cs[i].nodes[n], a)
  {
    hide IsRun, CommittedIn, AccountsFor;
    agreed := OneAgreedHistory(initial, cs, evs);
    forall i, n, a | 0 <= i < |cs| && n in cs[i].nodes ensures AccountsFor(initial, agreed, cs[i].nodes[n], a) {
      FoldAccountsFor(initial, agreed, cs[i].nodes[n], a);
    }
  }

  lemma FoldAccountsFor(initial: Ledger, agreed: Log, s: Node, a: AccountId)
    requires AppliedFrom(initial, agreed, s)
    ensures AccountsFor(initial, agreed, s, a)
  {
    hide Fold, AcceptedDelta, FirstOccurrences;
    var k :| s.lastApplied <= k <= |agreed| && s.ledger == Fold(initial, Commands(agreed[..k]));
    Conservation(initial, Commands(agreed[..k]), a);
    NeverOverdrawn(initial, Commands(agreed[..k]), a);
    assert BalanceAt(initial, Commands(agreed[..k]), s.ledger, a);
  }

  /** Verdicts are the same everywhere: any two replicas, at any two moments of a run, that
      both remember an entry id remember the same result for it.  With the ordering of the
      agreed sequence, conflicting debits are decided once, for all replicas. */
  lemma ReplicasAgreeOnResults(initial: Ledger, cs: seq<Cluster>, evs: seq<Event>, i: nat, j: nat, a: NodeId,
                               b: NodeId, id: EntryId)
    requires IsRun(initial, cs, evs) && i < |cs| && j < |cs| && a in cs[i].nodes && b in cs[j].nodes
    requires id in cs[i].nodes[a].ledger.results && id in cs[j].nodes[b].ledger.results
    ensures cs[i].nodes[a].ledger.results[id] == cs[j].nodes[b].ledger.results[id]
  {
    hide IsRun, CommittedIn, Fold;
    var agreed := OneAgreedHistory(initial, cs, evs);
    var p, q := cs[i].nodes[a], cs[j].nodes[b];
    assert AppliedFrom(initial, agreed, p) && AppliedFrom(initial, agreed, q);
    var k :| p.lastApplied <= k <= |agreed| && p.ledger == Fold(initial, Commands(agreed[..k]));
    var m :| q.lastApplied <= m <= |agreed| && q.ledger == Fold(initial, Commands(agreed[..m]));
    if k <= m {
      LaterPrefixRemembers(initial, agreed, k, m, id);
    } else {
      LaterPrefixRemembers(initial, agreed, m, k, id);
    }
  }

  lemma LaterPrefixRemembers(initial: Ledger, agreed: Log, k: nat, m: nat, id: EntryId)
    requires k <= m <= |agreed| && id in Fold(initial, Commands(agreed[..k])).results
    ensures id in Fold(initial, Commands(agreed[..m])).results
    ensures Fold(initial, Commands(agreed[..m])).results[id] == Fold(initial, Commands(agreed[..k])).results[id]
  {
    hide Fold, Commands, Outcomes;
    assert agreed[..m] == agreed[..k] + agreed[k..m];
    CommandsSplit(agreed[..k], agreed[k..m]);
    FoldAppend(initial, Commands(agreed[..k]), Commands(agreed[k..m]));
    FoldKeepsResults(Fold(initial, Commands(agreed[..k])), Commands(agreed[k..m]), id);
  }
}

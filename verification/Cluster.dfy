/** A Raft cluster and its runs.  A step ticks a node, proposes a command to it, delivers it
    any envelope that was ever sent to it (which covers loss, duplication, delay and
    reordering), or crashes and restarts it over its storage and state machine. */
module RaftCluster {
  import opened Wrappers
  import opened LedgerModel
  import opened RaftTypes
  import opened RaftLog
  import opened RaftStep
  import opened RaftHistory
  import opened RaftHistoryGrowth
  import opened RaftElectionSteps
  import opened RaftReplicationSteps

  datatype Cluster = Cluster(nodes: map<NodeId, Node>, sent: set<Envelope>)

  datatype Event =
    | TickEvent(n: NodeId, now: real, draw: real)
    | DeliverEvent(e: Envelope, now: real, draw: real)
    | ProposeEvent(n: NodeId, command: LedgerEntry, now: real)
    | RestartEvent(n: NodeId, now: real, draw: real)

  function Actor(ev: Event): NodeId {
    if ev.DeliverEvent? then ev.e.recipient else ev.n
  }

  predicate Enabled(c: Cluster, ev: Event) {
    Actor(ev) in c.nodes && (ev.DeliverEvent? ==> ev.e in c.sent && Receivable(ev.e.message))
  }

  function NodeStep(s: Node, ev: Event): Out
    requires ev.DeliverEvent? ==> Receivable(ev.e.message)
  {
    match ev
    case TickEvent(_, now, draw) => Tick(s, now, draw)
    case DeliverEvent(e, now, draw) => Receive(s, e, now, draw)
    case ProposeEvent(_, command, now) => Propose(s, command, now)
    case RestartEvent(_, now, draw) => Out(Restart(s, now, draw), [])
  }

  function Next(c: Cluster, ev: Event): Cluster
    requires Enabled(c, ev)
  {
    var out := NodeStep(c.nodes[Actor(ev)], ev);
    Cluster(c.nodes[Actor(ev) := out.node], c.sent + set e | e in out.sent)
  }

  /** A brand-new cluster: empty storage everywhere, one initial ledger, nothing sent. */
  ghost predicate Initial(initial: Ledger, c: Cluster) {
    && c.sent == {}
    && forall n :: n in c.nodes ==>
         var s := c.nodes[n];
         && s.id == n && Configured(c.nodes.Keys, s)
         && s == Boot(n, s.peers, s.electionTimeoutMin, s.heartbeatInterval, 0, None, [], initial,
                      s.electionDeadline, 0.0)
  }

  ghost predicate IsRun(initial: Ledger, cs: seq<Cluster>, evs: seq<Event>) {
    && |cs| == |evs| + 1
    && Initial(initial, cs[0])
    && forall i :: 0 <= i < |evs| ==> Enabled(cs[i], evs[i]) && cs[i + 1] == Next(cs[i], evs[i])
  }

  lemma RunLength(initial: Ledger, cs: seq<Cluster>, evs: seq<Event>)
    requires IsRun(initial, cs, evs)
    ensures |cs| == |evs| + 1
  {
  }

  /** What one step of a run does to one node. */
  lemma RunStep(initial: Ledger, cs: seq<Cluster>, evs: seq<Event>, k: nat, n: NodeId)
    requires IsRun(initial, cs, evs) && k < |evs| && n in cs[k].nodes
    ensures |cs| == |evs| + 1 && n in cs[k + 1].nodes
    ensures evs[k].DeliverEvent? ==> evs[k].e in cs[k].sent && Receivable(evs[k].e.message)
    ensures cs[k + 1].nodes[n] == if Actor(evs[k]) == n then NodeStep(cs[k].nodes[n], evs[k]).node else cs[k].nodes[n]
  {
  }

  /** What one step of a run sends. */
  lemma RunSends(initial: Ledger, cs: seq<Cluster>, evs: seq<Event>, k: nat)
    requires IsRun(initial, cs, evs) && k < |evs|
    ensures |cs| == |evs| + 1 && Actor(evs[k]) in cs[k].nodes && Actor(evs[k]) in cs[k + 1].nodes
    ensures evs[k].DeliverEvent? ==> evs[k].e in cs[k].sent && Receivable(evs[k].e.message)
    ensures var s := cs[k].nodes[Actor(evs[k])];
            && cs[k + 1].nodes == cs[k].nodes[Actor(evs[k]) := NodeStep(s, evs[k]).node]
            && forall e :: e in cs[k + 1].sent <==> e in cs[k].sent || e in NodeStep(s, evs[k]).sent
  {
  }

  // ---- the invariant of a cluster ----

  ghost predicate NodesInv(h: History, initial: Ledger, c: Cluster) {
    forall n :: n in c.nodes ==> c.nodes[n].id == n && NodeInv(h, initial, c.nodes[n])
  }

  ghost predicate NetworkInv(h: History, c: Cluster) {
    forall e :: e in c.sent ==> MessageInv(h, e)
  }

  ghost predicate ClusterInv(h: History, initial: Ledger, c: Cluster) {
    HistoryInv(h) && h.members == c.nodes.Keys && NodesInv(h, initial, c) && NetworkInv(h, c)
  }

  ghost function NoHistory(members: set<NodeId>): History {
    History(members, map n | n in members :: 0, map[], map[], map[], map[], map[])
  }

  lemma InitialInv(initial: Ledger, c: Cluster)
    requires Initial(initial, c)
    ensures ClusterInv(NoHistory(c.nodes.Keys), initial, c)
  {
    var h := NoHistory(c.nodes.Keys);
    forall n | n in c.nodes ensures NodeInv(h, initial, c.nodes[n]) {
      assert LedgerAt(h, initial, c.nodes[n], 0, 0, 0);
    }
  }

  // ---- every step keeps it ----

  lemma TickStep(h: History, initial: Ledger, s: Node, now: real, draw: real) returns (h': History)
    requires Ready(h, initial, s)
    ensures StepOk(h, h', initial, s, Tick(s, now, draw))
  {
    hide HistoryInv, NodeInv, GrowsBy, AllMessagesOk;
    h' := h;
    if s.role == Leader && s.heartbeatDeadline.Some? && now >= s.heartbeatDeadline.value {
      BroadcastAppendStep(h, initial, s, now);
    } else if s.role != Leader && now >= s.electionDeadline {
      h' := StartPrevoteStep(h, initial, s, now, draw);
    } else {
      Relabel(h, initial, s, s);
    }
  }

  lemma ReceiveStep(h: History, initial: Ledger, s: Node, e: Envelope, now: real, draw: real) returns (h': History)
    requires Ready(h, initial, s) && MessageInv(h, e) && e.recipient == s.id
    ensures Receivable(e.message)
    ensures StepOk(h, h', initial, s, Receive(s, e, now, draw))
  {
    hide HistoryInv, NodeInv, StepOk;
    match e.message
    case PreVote(_, _, _, _) => h' := h; PreVoteStep(h, initial, s, e, now, draw);
    case PreVoteReply(_, _, _) => h' := PreVoteReplyStep(h, initial, s, e, now, draw);
    case RequestVote(_, _, _, _) => h' := RequestVoteStep(h, initial, s, e, now, draw);
    case VoteReply(_, _, _) => h' := VoteReplyStep(h, initial, s, e, now, draw);
    case AppendEntries(_, _, _, _, _, _) => h' := AppendEntriesStep(h, initial, s, e, now, draw);
    case AppendReply(_, _, _, _, _, _) => h' := AppendReplyStep(h, initial, s, e, now, draw);
  }

  /** A restart forgets the commit index, the roles and the tallies; term, vote, log and
      ledger survive, and so does every invariant. */
  lemma RestartStep(h: History, initial: Ledger, s: Node, now: real, draw: real)
    requires Ready(h, initial, s)
    ensures StepOk(h, h, initial, s, Out(Restart(s, now, draw), []))
  {
    hide HistoryLogs, HistoryElections, LeadersComplete, VotesSafe, NodeInv, GrowsBy;
    GrowsByReflexive(h, s.id);
    RestartedNode(h, initial, s, Restart(s, now, draw));
  }

  lemma RestartedNode(h: History, initial: Ledger, s: Node, s': Node)
    requires NodeInv(h, initial, s)
    requires s'.id == s.id && s'.peers == s.peers && s'.term == s.term && s'.votedFor == s.votedFor && s'.log == s.log
    requires s'.role == Follower && s'.commitIndex == s'.lastApplied == 0 && s'.ledger == s.ledger
    ensures NodeInv(h, initial, s')
  {
    hide GoodLog, KeepsAcked, Certified, Fold, Commands, CandidateInv, LeaderInv;
    var t: nat, m, k :| LedgerAt(h, initial, s, t, m, k);
    assert LedgerAt(h, initial, s', t, m, k);
    assert NodeStore(h, initial, s');
    assert NodeAcks(h, s');
  }

  lemma NodeStepOk(h: History, initial: Ledger, s: Node, ev: Event) returns (h': History)
    requires Ready(h, initial, s) && Actor(ev) == s.id && (ev.DeliverEvent? ==> MessageInv(h, ev.e))
    ensures ev.DeliverEvent? ==> Receivable(ev.e.message)
    ensures StepOk(h, h', initial, s, NodeStep(s, ev))
  {
    hide Ready, StepOk;
    match ev
    case TickEvent(_, now, draw) => h' := TickStep(h, initial, s, now, draw);
    case DeliverEvent(e, now, draw) => h' := ReceiveStep(h, initial, s, e, now, draw);
    case ProposeEvent(_, command, now) => h' := ProposeStep(h, initial, s, command, now);
    case RestartEvent(_, now, draw) => h' := h; RestartStep(h, initial, s, now, draw);
  }

  lemma StepKeepsInv(h: History, initial: Ledger, c: Cluster, ev: Event) returns (h': History)
    requires ClusterInv(h, initial, c) && Enabled(c, ev)
    ensures ClusterInv(h', initial, Next(c, ev)) && GrowsBy(h, h', Actor(ev))
  {
    hide HistoryInv, NodeInv, Grows, MessageInv, NodeStep;
    var n := Actor(ev);
    var s := c.nodes[n];
    h' := NodeStepOk(h, initial, s, ev);
    GrowsKeepsMembers(h, h', n);
    OtherNodes(h, h', initial, c, n);
    OldMessages(h, h', c);
  }

  lemma OtherNodes(h: History, h': History, initial: Ledger, c: Cluster, n: NodeId)
    requires HistoryInv(h) && GrowsBy(h, h', n) && NodesInv(h, initial, c)
    ensures forall m :: m in c.nodes && m != n ==> NodeInv(h', initial, c.nodes[m])
  {
    hide NodeInv, GrowsBy;
    forall m | m in c.nodes && m != n ensures NodeInv(h', initial, c.nodes[m]) {
      NodeGrows(h, h', initial, c.nodes[m], n);
    }
  }

  lemma OldMessages(h: History, h': History, c: Cluster)
    requires Grows(h, h') && NetworkInv(h, c)
    ensures NetworkInv(h', c)
  {
    hide MessageInv, Grows;
    forall e | e in c.sent ensures MessageInv(h', e) {
      MessageGrows(h, h', e);
    }
  }

  /** Every run has a history that grows along it and against which all its states are good. */
  lemma {:induction false} RunHistory(initial: Ledger, cs: seq<Cluster>, evs: seq<Event>) returns (hs: seq<History>)
    requires IsRun(initial, cs, evs)
    ensures |hs| == |cs|
    ensures forall i :: 0 <= i < |cs| ==> ClusterInv(hs[i], initial, cs[i])
    ensures forall i :: 0 <= i < |evs| ==> GrowsBy(hs[i], hs[i + 1], Actor(evs[i]))
    ensures forall i, j :: 0 <= i <= j < |cs| ==> Grows(hs[i], hs[j])
    decreases |evs|
  {
    hide ClusterInv, Grows, GrowsBy, Enabled, Initial, Next;
    var n := |evs|;
    if n == 0 {
      InitialInv(initial, cs[0]);
      hs := [NoHistory(cs[0].nodes.Keys)];
      SelfGrows(hs[0], initial, cs[0]);
    } else {
      var front := RunHistory(initial, cs[..n], evs[..n - 1]);
      var h' := StepKeepsInv(front[n - 1], initial, cs[n - 1], evs[n - 1]);
      hs := front + [h'];
      GrowsByGrows(front[n - 1], h', Actor(evs[n - 1]));
      SelfGrows(h', initial, cs[n]);
      forall i | 0 <= i < n ensures Grows(hs[i], h') {
        GrowsTransitive(hs[i], front[n - 1], h');
      }
    }
  }

  lemma SelfGrows(h: History, initial: Ledger, c: Cluster)
    requires ClusterInv(h, initial, c)
    ensures Grows(h, h)
  {
    hide HistoryLogs, HistoryElections, LeadersComplete, VotesSafe, NodesInv, NetworkInv;
  }
}

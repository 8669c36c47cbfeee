/** The documentation's claim that a reconnecting node cannot disrupt a healthy leader fails.
    Three runs of any three nodes show it: the leader itself grants the prevote, a grant given
    long before arrives late, or the node stood before the leader was in contact with a
    majority and comes back with a later term. */
module RaftUnseating {
  import opened Wrappers
  import opened LedgerModel
  import opened RaftTypes
  import opened RaftStep
  import opened RaftHistory
  import opened RaftCluster
  import opened RaftLeadership
  import opened RaftPreVoteRounds

  /** The leader `l` of term `t` is followed by all of `followers`, which count it as active
      and are a majority together with it. */
  ghost predicate Healthy(c: Cluster, l: NodeId, t: nat, followers: set<NodeId>, now: real) {
    && Leads(c, l, t) && IsQuorum(c.nodes.Keys, {l} + followers)
    && forall p :: p in followers ==>
         p in c.nodes && c.nodes[p].term == t && c.nodes[p].leaderId == Some(l) && LeaderActive(c.nodes[p], now)
  }

  // ---- building a run step by step ----

  ghost predicate RunsTo(initial: Ledger, cs: seq<Cluster>, evs: seq<Event>, nodes: map<NodeId, Node>,
                         sent: set<Envelope>) {
    IsRun(initial, cs, evs) && cs[|evs|].nodes == nodes && sent <= cs[|evs|].sent
  }

  /** One more step, with outcome `out`. */
  lemma Play(initial: Ledger, cs: seq<Cluster>, evs: seq<Event>, nodes: map<NodeId, Node>, sent: set<Envelope>,
             ev: Event, out: Out)
    returns (cs': seq<Cluster>, evs': seq<Event>)
    requires RunsTo(initial, cs, evs, nodes, sent)
    requires Actor(ev) in nodes && (ev.DeliverEvent? ==> ev.e in sent && Receivable(ev.e.message))
    requires NodeStep(nodes[Actor(ev)], ev) == out
    ensures |cs| == |evs| + 1 && |cs'| == |cs| + 1 && cs'[..|cs|] == cs && evs' == evs + [ev]
    ensures RunsTo(initial, cs', evs', nodes[Actor(ev) := out.node], sent + set e | e in out.sent)
  {
    hide NodeStep, Initial;
    cs', evs' := cs + [Next(cs[|evs|], ev)], evs + [ev];
    forall i | 0 <= i < |evs'| ensures Enabled(cs'[i], evs'[i]) && cs'[i + 1] == Next(cs'[i], evs'[i]) {
      if i < |evs| {
        assert cs'[i] == cs[i] && cs'[i + 1] == cs[i + 1] && evs'[i] == evs[i];
      }
    }
  }

  /** Three nodes and the states they go through.  `a` will lead, `b` follow it, and `c` come
      back from a partition. */
  datatype Trio = Trio(a: NodeId, b: NodeId, c: NodeId, initial: Ledger) {
    predicate Distinct() {
      a != b && b != c && a != c
    }

    function Nodes(x: Node, y: Node, z: Node): map<NodeId, Node> {
      map[a := x, b := y, c := z]
    }

    function Fresh(id: NodeId, peers: seq<NodeId>, deadline: real): Node {
      Boot(id, peers, 150.0, 50.0, 0, None, [], initial, deadline, 0.0)
    }

    function A0(): Node { Fresh(a, [b, c], 200.0) }
    function B0(): Node { Fresh(b, [a, c], 1000.0) }
    function C0(): Node { Fresh(c, [a, b], 100.0) }

    // c opens a round; a opens one, stands with b's grant, and wins with b's vote
    function C1(): Node { PrevoteRound(C0(), 100.0, 150.0) }
    function A1(): Node { PrevoteRound(A0(), 200.0, 150.0) }
    function A2(): Node { Candidacy(A1().(prevotes := {a, b}), 202.0, 150.0) }
    function B1(): Node { ResetDeadline(BecomeFollower(B0(), 1, 203.0, 150.0).(votedFor := Some(a)), 203.0, 150.0) }
    function A3(): Node { BroadcastAppend(Leadership(A2().(votes := {a, b})), 204.0).node }
    // c hears the new leader
    function C2(): Node { Recognise(BecomeFollower(C1(), 1, 206.0, 150.0), a, 206.0, 150.0) }

    // the leader's heartbeat reaches b; c times out and asks
    function A4(): Node { BroadcastAppend(A3(), 350.0).node }
    function B2(): Node { Recognise(B1(), a, 351.0, 150.0) }
    function C3(): Node { PrevoteRound(C2(), 360.0, 150.0) }
    // instead of a heartbeat: the leader proposes, b stores the entry, and it is committed
    function Entry(command: LedgerEntry): LogEntry { LogEntry(1, 1, command) }
    function A5(command: LedgerEntry): Node { Propose(A3(), command, 350.0).node }
    function B3(command: LedgerEntry): Node { B2().(log := [Entry(command)]) }
    function A6(command: LedgerEntry): Node { AdvanceCommitIndex(RecordMatch(A5(command), b, 1)) }
    // c stands with one grant
    function C4(voter: NodeId, now: real): Node { Candidacy(C3().(prevotes := {c, voter}), now, 150.0) }

    // c, cut off from a, stands with b's grant, times out and stands again
    function D1(): Node { Candidacy(C1().(prevotes := {c, b}), 102.0, 150.0) }
    function D2(): Node { PrevoteRound(D1(), 260.0, 150.0) }
    function D3(): Node { Candidacy(D2().(prevotes := {c, b}), 262.0, 150.0) }

    function Heartbeat(to: NodeId): Envelope { Envelope(a, to, AppendEntries(1, a, 0, 0, [], 0)) }
    function EarlyAsk(from: NodeId, to: NodeId): Envelope { Envelope(from, to, PreVote(1, from, 0, 0)) }
    function EarlyGrant(to: NodeId): Envelope { Envelope(b, to, PreVoteReply(0, true, b)) }
    function AskVote(to: NodeId): Envelope { Envelope(a, to, RequestVote(1, a, 0, 0)) }
    function Replicate(to: NodeId, command: LedgerEntry): Envelope {
      Envelope(a, to, AppendEntries(1, a, 0, 0, [Entry(command)], 0))
    }
    function Stored(): Envelope { Envelope(b, a, AppendReply(1, true, b, 1, 0, -1)) }
    function LateAsk(to: NodeId): Envelope { Envelope(c, to, PreVote(2, c, 0, 0)) }
    function SecondGrant(): Envelope { Envelope(b, c, PreVoteReply(1, true, b)) }
    function Outdated(): Envelope { Envelope(c, a, AppendReply(2, false, c, 0, 0, -1)) }
    function OwnGrant(): Envelope { Envelope(a, c, PreVoteReply(1, true, a)) }
    function Challenge(to: NodeId): Envelope { Envelope(c, to, RequestVote(2, c, 0, 0)) }
    function Vote(): Envelope { Envelope(b, a, VoteReply(1, true, b)) }
  }

  // ---- the common beginning: a is elected, and an early grant to c is still under way ----

  lemma KnowsOthers(members: set<NodeId>, s: Node, p: NodeId, q: NodeId)
    requires s.peers == [p, q] && s.id != p && s.id != q && p != q && members == {s.id, p, q}
    ensures Configured(members, s)
  {
    assert (set n | n in s.peers) == {p, q};
  }

  lemma Begin(x: Trio) returns (cs: seq<Cluster>, evs: seq<Event>)
    requires x.Distinct()
    ensures RunsTo(x.initial, cs, evs, x.Nodes(x.A0(), x.B0(), x.C0()), {}) && evs == []
  {
    hide Configured;
    var c := Cluster(x.Nodes(x.A0(), x.B0(), x.C0()), {});
    cs, evs := [c], [];
    assert c.nodes.Keys == {x.a, x.b, x.c};
    KnowsOthers(c.nodes.Keys, x.A0(), x.b, x.c);
    KnowsOthers(c.nodes.Keys, x.B0(), x.a, x.c);
    KnowsOthers(c.nodes.Keys, x.C0(), x.a, x.b);
  }

  // The run goes on by a step of `a`, `b` or `c`; `keep` are the envelopes still needed.

  lemma StepA(x: Trio, cs: seq<Cluster>, evs: seq<Event>, u: Node, v: Node, w: Node, sent: set<Envelope>, ev: Event,
              out: Out, keep: set<Envelope>)
    returns (cs': seq<Cluster>, evs': seq<Event>)
    requires x.Distinct() && RunsTo(x.initial, cs, evs, x.Nodes(u, v, w), sent)
    requires Actor(ev) == x.a && (ev.DeliverEvent? ==> ev.e in sent && Receivable(ev.e.message))
    requires NodeStep(u, ev) == out && keep <= sent + set e | e in out.sent
    ensures |cs| == |evs| + 1 && |cs'| == |cs| + 1 && cs'[..|cs|] == cs && evs' == evs + [ev]
    ensures RunsTo(x.initial, cs', evs', x.Nodes(out.node, v, w), keep)
  {
    hide IsRun, NodeStep;
    cs', evs' := Play(x.initial, cs, evs, x.Nodes(u, v, w), sent, ev, out);
    assert x.Nodes(u, v, w)[x.a := out.node] == x.Nodes(out.node, v, w);
  }

  lemma StepB(x: Trio, cs: seq<Cluster>, evs: seq<Event>, u: Node, v: Node, w: Node, sent: set<Envelope>, ev: Event,
              out: Out, keep: set<Envelope>)
    returns (cs': seq<Cluster>, evs': seq<Event>)
    requires x.Distinct() && RunsTo(x.initial, cs, evs, x.Nodes(u, v, w), sent)
    requires Actor(ev) == x.b && (ev.DeliverEvent? ==> ev.e in sent && Receivable(ev.e.message))
    requires NodeStep(v, ev) == out && keep <= sent + set e | e in out.sent
    ensures |cs| == |evs| + 1 && |cs'| == |cs| + 1 && cs'[..|cs|] == cs && evs' == evs + [ev]
    ensures RunsTo(x.initial, cs', evs', x.Nodes(u, out.node, w), keep)
  {
    hide IsRun, NodeStep;
    cs', evs' := Play(x.initial, cs, evs, x.Nodes(u, v, w), sent, ev, out);
    assert x.Nodes(u, v, w)[x.b := out.node] == x.Nodes(u, out.node, w);
  }

  lemma StepC(x: Trio, cs: seq<Cluster>, evs: seq<Event>, u: Node, v: Node, w: Node, sent: set<Envelope>, ev: Event,
              out: Out, keep: set<Envelope>)
    returns (cs': seq<Cluster>, evs': seq<Event>)
    requires x.Distinct() && RunsTo(x.initial, cs, evs, x.Nodes(u, v, w), sent)
    requires Actor(ev) == x.c && (ev.DeliverEvent? ==> ev.e in sent && Receivable(ev.e.message))
    requires NodeStep(w, ev) == out && keep <= sent + set e | e in out.sent
    ensures |cs| == |evs| + 1 && |cs'| == |cs| + 1 && cs'[..|cs|] == cs && evs' == evs + [ev]
    ensures RunsTo(x.initial, cs', evs', x.Nodes(u, v, out.node), keep)
  {
    hide IsRun, NodeStep;
    cs', evs' := Play(x.initial, cs, evs, x.Nodes(u, v, w), sent, ev, out);
    assert x.Nodes(u, v, w)[x.c := out.node] == x.Nodes(u, v, out.node);
  }

  lemma Rounds(x: Trio)
    requires x.Distinct()
    ensures Tick(x.C0(), 100.0, 150.0) == Out(x.C1(), [x.EarlyAsk(x.c, x.a), x.EarlyAsk(x.c, x.b)])
    ensures Tick(x.A0(), 200.0, 150.0) == Out(x.A1(), [x.EarlyAsk(x.a, x.b), x.EarlyAsk(x.a, x.c)])
    ensures Receive(x.B0(), x.EarlyAsk(x.c, x.b), 101.0, 150.0) == Out(x.B0(), [x.EarlyGrant(x.c)])
    ensures Receive(x.B0(), x.EarlyAsk(x.a, x.b), 201.0, 150.0) == Out(x.B0(), [x.EarlyGrant(x.a)])
  {
    assert |{x.a}| == 1 && |{x.c}| == 1;
  }

  lemma Election(x: Trio)
    requires x.Distinct()
    ensures Receive(x.A1(), x.EarlyGrant(x.a), 202.0, 150.0) == Out(x.A2(), [x.AskVote(x.b), x.AskVote(x.c)])
    ensures Receive(x.B0(), x.AskVote(x.b), 203.0, 150.0) == Out(x.B1(), [x.Vote()])
  {
    assert {x.a} + {x.b} == {x.a, x.b};
    assert |{x.a, x.b}| == 2 && |{x.a}| == 1;
  }

  lemma Victory(x: Trio)
    requires x.Distinct()
    ensures Receive(x.A2(), x.Vote(), 204.0, 150.0) == Out(x.A3(), [x.Heartbeat(x.b), x.Heartbeat(x.c)])
    ensures Receive(x.C1(), x.Heartbeat(x.c), 206.0, 150.0).node == x.C2()
  {
    assert {x.a} + {x.b} == {x.a, x.b};
    assert |{x.a, x.b}| == 2;
  }

  lemma RoundsRun(x: Trio) returns (cs: seq<Cluster>, evs: seq<Event>)
    requires x.Distinct()
    ensures RunsTo(x.initial, cs, evs, x.Nodes(x.A1(), x.B0(), x.C1()), {x.EarlyGrant(x.c), x.EarlyGrant(x.a)})
    ensures |evs| == 4 && NoRestart(evs)
  {
    hide RunsTo, Tick, Receive, Trio.A0, Trio.B0, Trio.C0, Trio.A1, Trio.C1, Trio.Nodes;
    Rounds(x);
    var sc, sa := {x.EarlyAsk(x.c, x.b)}, {x.EarlyGrant(x.c), x.EarlyAsk(x.a, x.b)};
    cs, evs := Begin(x);
    cs, evs := StepC(x, cs, evs, x.A0(), x.B0(), x.C0(), {}, TickEvent(x.c, 100.0, 150.0), Tick(x.C0(), 100.0, 150.0),
                     sc);
    cs, evs := StepB(x, cs, evs, x.A0(), x.B0(), x.C1(), sc, DeliverEvent(x.EarlyAsk(x.c, x.b), 101.0, 150.0),
                     Receive(x.B0(), x.EarlyAsk(x.c, x.b), 101.0, 150.0), {x.EarlyGrant(x.c)});
    cs, evs := StepA(x, cs, evs, x.A0(), x.B0(), x.C1(), {x.EarlyGrant(x.c)}, TickEvent(x.a, 200.0, 150.0),
                     Tick(x.A0(), 200.0, 150.0), sa);
    cs, evs := StepB(x, cs, evs, x.A1(), x.B0(), x.C1(), sa, DeliverEvent(x.EarlyAsk(x.a, x.b), 201.0, 150.0),
                     Receive(x.B0(), x.EarlyAsk(x.a, x.b), 201.0, 150.0), {x.EarlyGrant(x.c), x.EarlyGrant(x.a)});
  }

  predicate NoRestart(evs: seq<Event>) {
    forall k :: 0 <= k < |evs| ==> !evs[k].RestartEvent?
  }

  lemma ElectionRun(x: Trio) returns (cs: seq<Cluster>, evs: seq<Event>)
    requires x.Distinct()
    ensures RunsTo(x.initial, cs, evs, x.Nodes(x.A3(), x.B1(), x.C2()), {x.EarlyGrant(x.c), x.Heartbeat(x.b)})
    ensures |evs| == 8 && NoRestart(evs)
  {
    hide RunsTo, Tick, Receive, Trio.A1, Trio.A2, Trio.A3, Trio.B0, Trio.B1, Trio.C1, Trio.C2, Trio.Nodes;
    Election(x);
    Victory(x);
    var g := x.EarlyGrant(x.c);
    cs, evs := RoundsRun(x);
    cs, evs := StepA(x, cs, evs, x.A1(), x.B0(), x.C1(), {g, x.EarlyGrant(x.a)},
                     DeliverEvent(x.EarlyGrant(x.a), 202.0, 150.0),
                     Receive(x.A1(), x.EarlyGrant(x.a), 202.0, 150.0), {g, x.AskVote(x.b)});
    cs, evs := StepB(x, cs, evs, x.A2(), x.B0(), x.C1(), {g, x.AskVote(x.b)},
                     DeliverEvent(x.AskVote(x.b), 203.0, 150.0),
                     Receive(x.B0(), x.AskVote(x.b), 203.0, 150.0), {g, x.Vote()});
    cs, evs := StepA(x, cs, evs, x.A2(), x.B1(), x.C1(), {g, x.Vote()}, DeliverEvent(x.Vote(), 204.0, 150.0),
                     Receive(x.A2(), x.Vote(), 204.0, 150.0), {g, x.Heartbeat(x.b), x.Heartbeat(x.c)});
    cs, evs := StepC(x, cs, evs, x.A3(), x.B1(), x.C1(), {g, x.Heartbeat(x.b), x.Heartbeat(x.c)},
                     DeliverEvent(x.Heartbeat(x.c), 206.0, 150.0),
                     Receive(x.C1(), x.Heartbeat(x.c), 206.0, 150.0), {g, x.Heartbeat(x.b)});
  }

  // ---- the leader's own grant ----

  lemma HeartbeatSteps(x: Trio)
    requires x.Distinct()
    ensures Tick(x.A3(), 350.0, 150.0).node == x.A4()
    ensures Receive(x.B1(), x.Heartbeat(x.b), 351.0, 150.0).node == x.B2()
  {
  }

  lemma LateRound(x: Trio)
    requires x.Distinct()
    ensures Tick(x.C2(), 360.0, 150.0) == Out(x.C3(), [x.LateAsk(x.a), x.LateAsk(x.b)])
  {
    assert |{x.c}| == 1;
  }

  lemma LeaderGrants(x: Trio)
    requires x.Distinct()
    ensures Receive(x.A4(), x.LateAsk(x.a), 361.0, 150.0) == Out(x.A4(), [x.OwnGrant()])
  {
  }

  lemma OwnGrantUnseats(x: Trio)
    requires x.Distinct()
    ensures Receive(x.C3(), x.OwnGrant(), 362.0, 150.0) == Out(x.C4(x.a, 362.0), [x.Challenge(x.a), x.Challenge(x.b)])
    ensures var s := Receive(x.A4(), x.Challenge(x.a), 363.0, 150.0).node; s.role == Follower && s.term == 2
  {
    assert {x.c} + {x.a} == {x.c, x.a};
    assert |{x.c, x.a}| == 2 && |{x.c}| == 1;
  }

  lemma StillHealthy(x: Trio, c: Cluster, u: Node, v: Node, w: Node, now: real)
    requires x.Distinct() && c.nodes == x.Nodes(u, v, w) && now < 501.0
    requires u.role == Leader && u.term == 1 && v.term == 1 && v.leaderId == Some(x.a)
    requires v.lastLeaderContact == Some(351.0) && v.electionTimeoutMin == 150.0
    ensures Healthy(c, x.a, 1, {x.b}, now)
  {
    assert c.nodes.Keys == {x.a, x.b, x.c};
    assert |{x.a, x.b, x.c}| == 3;
    assert {x.a} + {x.b} == {x.a, x.b};
    assert |{x.a, x.b}| == 2;
  }

  lemma RunState(initial: Ledger, cs: seq<Cluster>, evs: seq<Event>, nodes: map<NodeId, Node>, sent: set<Envelope>)
    requires RunsTo(initial, cs, evs, nodes, sent)
    ensures IsRun(initial, cs, evs) && |cs| == |evs| + 1 && cs[|evs|].nodes == nodes
  {
  }

  lemma QuietRun(x: Trio) returns (cs: seq<Cluster>, evs: seq<Event>)
    requires x.Distinct()
    ensures RunsTo(x.initial, cs, evs, x.Nodes(x.A4(), x.B2(), x.C2()), {})
    ensures |evs| == 10 && NoRestart(evs)
  {
    hide RunsTo, Tick, Receive, Trio.A3, Trio.A4, Trio.B1, Trio.B2, Trio.C2, Trio.Nodes;
    HeartbeatSteps(x);
    cs, evs := ElectionRun(x);
    var sent := {x.EarlyGrant(x.c), x.Heartbeat(x.b)};
    cs, evs := StepA(x, cs, evs, x.A3(), x.B1(), x.C2(), sent, TickEvent(x.a, 350.0, 150.0),
                     Tick(x.A3(), 350.0, 150.0), sent);
    cs, evs := StepB(x, cs, evs, x.A4(), x.B1(), x.C2(), sent, DeliverEvent(x.Heartbeat(x.b), 351.0, 150.0),
                     Receive(x.B1(), x.Heartbeat(x.b), 351.0, 150.0), {});
  }

  lemma HeartbeatFacts(x: Trio)
    ensures x.A4().role == Leader && x.A4().term == 1 && x.B2().term == 1 && x.B2().leaderId == Some(x.a)
    ensures x.B2().lastLeaderContact == Some(351.0) && x.B2().electionTimeoutMin == 150.0
    ensures TimesOut(x.C2(), TickEvent(x.c, 360.0, 150.0))
  {
  }

  /** A run of any three nodes, without a crash, in which a node that comes back asks the
      leader, gets the leader's own grant, and unseats it.  Up to the very step that unseats
      it the leader is healthy: a majority follows it and counts it as active. */
  lemma HealthyLeaderUnseatedByOwnGrant(x: Trio) returns (cs: seq<Cluster>, evs: seq<Event>, i: nat)
    requires x.Distinct()
    ensures IsRun(x.initial, cs, evs) && NoRestart(evs) && i < |evs| && Opens(cs[i], evs[i], x.c)
    ensures forall k :: i <= k < |evs| ==> Healthy(cs[k], x.a, 1, {x.b}, evs[k].now)
    ensures x.a in cs[|evs|].nodes && cs[|evs|].nodes[x.a].role == Follower && cs[|evs|].nodes[x.a].term == 2
  {
    hide RunsTo, Tick, Receive, Trio.A3, Trio.A4, Trio.B1, Trio.B2, Trio.C2, Trio.C3, Trio.C4, Healthy, IsRun, TimesOut;
    LateRound(x);
    LeaderGrants(x);
    OwnGrantUnseats(x);
    HeartbeatFacts(x);
    var u, v := x.A4(), x.B2();
    cs, evs := QuietRun(x);
    i := 10;
    RunState(x.initial, cs, evs, x.Nodes(u, v, x.C2()), {});
    StillHealthy(x, cs[10], u, v, x.C2(), 360.0);
    cs, evs := StepC(x, cs, evs, u, v, x.C2(), {}, TickEvent(x.c, 360.0, 150.0), Tick(x.C2(), 360.0, 150.0),
                     {x.LateAsk(x.a)});
    RunState(x.initial, cs, evs, x.Nodes(u, v, x.C3()), {x.LateAsk(x.a)});
    StillHealthy(x, cs[11], u, v, x.C3(), 361.0);
    cs, evs := StepA(x, cs, evs, u, v, x.C3(), {x.LateAsk(x.a)}, DeliverEvent(x.LateAsk(x.a), 361.0, 150.0),
                     Receive(u, x.LateAsk(x.a), 361.0, 150.0), {x.OwnGrant()});
    RunState(x.initial, cs, evs, x.Nodes(u, v, x.C3()), {x.OwnGrant()});
    StillHealthy(x, cs[12], u, v, x.C3(), 362.0);
    cs, evs := StepC(x, cs, evs, u, v, x.C3(), {x.OwnGrant()}, DeliverEvent(x.OwnGrant(), 362.0, 150.0),
                     Receive(x.C3(), x.OwnGrant(), 362.0, 150.0), {x.Challenge(x.a)});
    RunState(x.initial, cs, evs, x.Nodes(u, v, x.C4(x.a, 362.0)), {x.Challenge(x.a)});
    StillHealthy(x, cs[13], u, v, x.C4(x.a, 362.0), 363.0);
    cs, evs := StepA(x, cs, evs, u, v, x.C4(x.a, 362.0), {x.Challenge(x.a)},
                     DeliverEvent(x.Challenge(x.a), 363.0, 150.0),
                     Receive(u, x.Challenge(x.a), 363.0, 150.0), {});
    RunState(x.initial, cs, evs, x.Nodes(Receive(u, x.Challenge(x.a), 363.0, 150.0).node, v, x.C4(x.a, 362.0)), {});
  }

  // ---- a grant that comes late ----

  lemma Proposes(x: Trio, command: LedgerEntry)
    requires x.Distinct()
    ensures Propose(x.A3(), command, 350.0) == Out(x.A5(command),
                                                   [x.Replicate(x.b, command), x.Replicate(x.c, command)])
  {
    var s := x.A5(command);
    assert s.log == [x.Entry(command)];
    assert AppendTo(s, x.b) == x.Replicate(x.b, command) && AppendTo(s, x.c) == x.Replicate(x.c, command);
  }

  lemma Stores(x: Trio, command: LedgerEntry)
    requires x.Distinct()
    ensures Receive(x.B1(), x.Replicate(x.b, command), 351.0, 150.0) == Out(x.B3(command), [x.Stored()])
  {
  }

  lemma TakesStored(x: Trio, command: LedgerEntry)
    requires x.Distinct()
    ensures Receive(x.A5(command), x.Stored(), 352.0, 150.0).node == x.A6(command)
  {
    hide AdvanceCommitIndex, RecordMatch;
  }

  lemma SecondOfThree()
    ensures SortDescending([1, 1, 0]) == [1, 1, 0]
  {
    assert [1, 1, 0][1..] == [1, 0] && [1, 0][1..] == [0];
    var none: seq<int> := [0][1..];
    assert none == [];
    assert SortDescending([0]) == [0];
    assert SortDescending([1, 0]) == [1, 0];
  }

  lemma MatchedByB(x: Trio, command: LedgerEntry)
    requires x.Distinct()
    ensures MajorityMatch(RecordMatch(x.A5(command), x.b, 1)) == 1
  {
    hide SortDescending;
    var r := RecordMatch(x.A5(command), x.b, 1);
    assert PeerMatches(r.peers, r.matchIndex) == [1, 0];
    assert MatchIndexes(r) == [1, 1, 0];
    SecondOfThree();
  }

  lemma CommittedByB(x: Trio, command: LedgerEntry)
    requires x.Distinct()
    ensures var s := x.A6(command); s.role == Leader && s.term == 1 && s.commitIndex == 1 && s.log == [x.Entry(command)]
  {
    hide MajorityMatch, Fold;
    MatchedByB(x, command);
  }

  lemma LateGrantUnseats(x: Trio, command: LedgerEntry)
    requires x.Distinct()
    ensures Receive(x.C3(), x.EarlyGrant(x.c), 361.0, 150.0) ==
              Out(x.C4(x.b, 361.0), [x.Challenge(x.a), x.Challenge(x.b)])
    ensures var s := Receive(x.A6(command), x.Challenge(x.a), 363.0, 150.0).node; s.role == Follower && s.term == 2
  {
    hide AdvanceCommitIndex, RecordMatch;
    CommittedByB(x, command);
    assert {x.c} + {x.b} == {x.c, x.b};
    assert |{x.c, x.b}| == 2 && |{x.c}| == 1;
  }

  lemma CommittingRun(x: Trio, command: LedgerEntry) returns (cs: seq<Cluster>, evs: seq<Event>)
    requires x.Distinct()
    ensures RunsTo(x.initial, cs, evs, x.Nodes(x.A6(command), x.B3(command), x.C2()), {x.EarlyGrant(x.c)})
    ensures |evs| == 11 && NoRestart(evs)
  {
    hide RunsTo, Receive, Propose, Trio.A3, Trio.A5, Trio.A6, Trio.B1, Trio.B3, Trio.C2, Trio.Nodes;
    Proposes(x, command);
    Stores(x, command);
    TakesStored(x, command);
    cs, evs := ElectionRun(x);
    var g, r := x.EarlyGrant(x.c), x.Replicate(x.b, command);
    cs, evs := StepA(x, cs, evs, x.A3(), x.B1(), x.C2(), {g, x.Heartbeat(x.b)}, ProposeEvent(x.a, command, 350.0),
                     Propose(x.A3(), command, 350.0), {g, r});
    cs, evs := StepB(x, cs, evs, x.A5(command), x.B1(), x.C2(), {g, r}, DeliverEvent(r, 351.0, 150.0),
                     Receive(x.B1(), r, 351.0, 150.0), {g, x.Stored()});
    cs, evs := StepA(x, cs, evs, x.A5(command), x.B3(command), x.C2(), {g, x.Stored()},
                     DeliverEvent(x.Stored(), 352.0, 150.0),
                     Receive(x.A5(command), x.Stored(), 352.0, 150.0), {g});
  }

  lemma FollowerFacts(x: Trio, command: LedgerEntry)
    ensures x.B3(command).term == 1 && x.B3(command).leaderId == Some(x.a) && x.B3(command).log == [x.Entry(command)]
    ensures x.B3(command).lastLeaderContact == Some(351.0) && x.B3(command).electionTimeoutMin == 150.0
    ensures x.C2().log == []
  {
  }

  /** A run of any three nodes, without a crash, in which a healthy leader is unseated although
      nobody would grant the challenger anything: its log lacks a committed entry that both
      others hold.  A grant that it was given before the leader was elected arrives late and
      counts in its new round. */
  lemma HealthyLeaderUnseatedByLateGrant(x: Trio, command: LedgerEntry)
    returns (cs: seq<Cluster>, evs: seq<Event>, i: nat)
    requires x.Distinct()
    ensures IsRun(x.initial, cs, evs) && NoRestart(evs) && i < |evs| && Opens(cs[i], evs[i], x.c)
    ensures x.a in cs[i].nodes && x.b in cs[i].nodes && cs[i].nodes[x.a].commitIndex == 1
    ensures forall now :: !WouldGrant(cs[i].nodes[x.a], Ask(cs[i].nodes[x.c]), now) &&
              !WouldGrant(cs[i].nodes[x.b], Ask(cs[i].nodes[x.c]), now)
    ensures forall k :: i <= k < |evs| ==> Healthy(cs[k], x.a, 1, {x.b}, evs[k].now)
    ensures x.a in cs[|evs|].nodes && cs[|evs|].nodes[x.a].role == Follower && cs[|evs|].nodes[x.a].term == 2
  {
    hide RunsTo, Tick, Receive, Trio.A6, Trio.B3, Trio.C2, Trio.C3, Trio.C4, Healthy, IsRun, TimesOut;
    LateRound(x);
    LateGrantUnseats(x, command);
    HeartbeatFacts(x);
    FollowerFacts(x, command);
    CommittedByB(x, command);
    var u, v, g := x.A6(command), x.B3(command), x.EarlyGrant(x.c);
    cs, evs := CommittingRun(x, command);
    i := 11;
    RunState(x.initial, cs, evs, x.Nodes(u, v, x.C2()), {g});
    StillHealthy(x, cs[11], u, v, x.C2(), 360.0);
    cs, evs := StepC(x, cs, evs, u, v, x.C2(), {g}, TickEvent(x.c, 360.0, 150.0), Tick(x.C2(), 360.0, 150.0), {g});
    RunState(x.initial, cs, evs, x.Nodes(u, v, x.C3()), {g});
    StillHealthy(x, cs[12], u, v, x.C3(), 361.0);
    cs, evs := StepC(x, cs, evs, u, v, x.C3(), {g}, DeliverEvent(g, 361.0, 150.0), Receive(x.C3(), g, 361.0, 150.0),
                     {x.Challenge(x.a)});
    RunState(x.initial, cs, evs, x.Nodes(u, v, x.C4(x.b, 361.0)), {x.Challenge(x.a)});
    StillHealthy(x, cs[13], u, v, x.C4(x.b, 361.0), 363.0);
    cs, evs := StepA(x, cs, evs, u, v, x.C4(x.b, 361.0), {x.Challenge(x.a)},
                     DeliverEvent(x.Challenge(x.a), 363.0, 150.0),
                     Receive(u, x.Challenge(x.a), 363.0, 150.0), {});
    RunState(x.initial, cs, evs, x.Nodes(Receive(u, x.Challenge(x.a), 363.0, 150.0).node, v, x.C4(x.b, 361.0)), {});
  }

  // ---- a later term that comes back ----

  lemma FirstCandidacy(x: Trio)
    requires x.Distinct()
    ensures Receive(x.C1(), x.EarlyGrant(x.c), 102.0, 150.0).node == x.D1()
    ensures Tick(x.D1(), 260.0, 150.0) == Out(x.D2(), [x.LateAsk(x.a), x.LateAsk(x.b)])
    ensures Receive(x.B1(), x.LateAsk(x.b), 261.0, 150.0) == Out(x.B1(), [x.SecondGrant()])
  {
    assert {x.c} + {x.b} == {x.c, x.b};
    assert |{x.c, x.b}| == 2 && |{x.c}| == 1;
  }

  lemma SecondCandidacy(x: Trio)
    requires x.Distinct()
    ensures Receive(x.D2(), x.SecondGrant(), 262.0, 150.0).node == x.D3()
    ensures Receive(x.D3(), x.Heartbeat(x.c), 360.0, 150.0) == Out(x.D3(), [x.Outdated()])
    ensures var s := Receive(x.A4(), x.Outdated(), 361.0, 150.0).node; s.role == Follower && s.term == 2
  {
    assert {x.c} + {x.b} == {x.c, x.b};
    assert |{x.c, x.b}| == 2 && |{x.c}| == 1;
  }

  /** c stands in term 1 before a opens its round, and its vote requests are lost. */
  lemma EarlyCandidacyRun(x: Trio) returns (cs: seq<Cluster>, evs: seq<Event>)
    requires x.Distinct()
    ensures RunsTo(x.initial, cs, evs, x.Nodes(x.A1(), x.B0(), x.D1()), {x.EarlyGrant(x.a)})
    ensures |evs| == 5 && NoRestart(evs)
  {
    hide RunsTo, Tick, Receive, Trio.A0, Trio.B0, Trio.C0, Trio.A1, Trio.C1, Trio.D1, Trio.D2, Trio.B1, Trio.Nodes;
    Rounds(x);
    FirstCandidacy(x);
    var sc, sa := {x.EarlyAsk(x.c, x.b)}, {x.EarlyAsk(x.a, x.b)};
    cs, evs := Begin(x);
    cs, evs := StepC(x, cs, evs, x.A0(), x.B0(), x.C0(), {}, TickEvent(x.c, 100.0, 150.0), Tick(x.C0(), 100.0, 150.0),
                     sc);
    cs, evs := StepB(x, cs, evs, x.A0(), x.B0(), x.C1(), sc, DeliverEvent(x.EarlyAsk(x.c, x.b), 101.0, 150.0),
                     Receive(x.B0(), x.EarlyAsk(x.c, x.b), 101.0, 150.0), {x.EarlyGrant(x.c)});
    cs, evs := StepC(x, cs, evs, x.A0(), x.B0(), x.C1(), {x.EarlyGrant(x.c)},
                     DeliverEvent(x.EarlyGrant(x.c), 102.0, 150.0),
                     Receive(x.C1(), x.EarlyGrant(x.c), 102.0, 150.0), {});
    cs, evs := StepA(x, cs, evs, x.A0(), x.B0(), x.D1(), {}, TickEvent(x.a, 200.0, 150.0), Tick(x.A0(), 200.0, 150.0),
                     sa);
    cs, evs := StepB(x, cs, evs, x.A1(), x.B0(), x.D1(), sa, DeliverEvent(x.EarlyAsk(x.a, x.b), 201.0, 150.0),
                     Receive(x.B0(), x.EarlyAsk(x.a, x.b), 201.0, 150.0), {x.EarlyGrant(x.a)});
  }

  /** a wins term 1; before its heartbeat reaches b, c stands again, in term 2. */
  lemma SecondCandidacyRun(x: Trio) returns (cs: seq<Cluster>, evs: seq<Event>)
    requires x.Distinct()
    ensures RunsTo(x.initial, cs, evs, x.Nodes(x.A3(), x.B1(), x.D3()), {x.Heartbeat(x.b), x.Heartbeat(x.c)})
    ensures |evs| == 11 && NoRestart(evs)
  {
    hide RunsTo, Tick, Receive, Trio.A1, Trio.A2, Trio.A3, Trio.B0, Trio.B1, Trio.D1, Trio.D2, Trio.D3, Trio.Nodes;
    Election(x);
    Victory(x);
    FirstCandidacy(x);
    SecondCandidacy(x);
    var hs := {x.Heartbeat(x.b), x.Heartbeat(x.c)};
    cs, evs := EarlyCandidacyRun(x);
    cs, evs := StepA(x, cs, evs, x.A1(), x.B0(), x.D1(), {x.EarlyGrant(x.a)},
                     DeliverEvent(x.EarlyGrant(x.a), 202.0, 150.0),
                     Receive(x.A1(), x.EarlyGrant(x.a), 202.0, 150.0), {x.AskVote(x.b)});
    cs, evs := StepB(x, cs, evs, x.A2(), x.B0(), x.D1(), {x.AskVote(x.b)}, DeliverEvent(x.AskVote(x.b), 203.0, 150.0),
                     Receive(x.B0(), x.AskVote(x.b), 203.0, 150.0), {x.Vote()});
    cs, evs := StepA(x, cs, evs, x.A2(), x.B1(), x.D1(), {x.Vote()}, DeliverEvent(x.Vote(), 204.0, 150.0),
                     Receive(x.A2(), x.Vote(), 204.0, 150.0), hs);
    cs, evs := StepC(x, cs, evs, x.A3(), x.B1(), x.D1(), hs, TickEvent(x.c, 260.0, 150.0), Tick(x.D1(), 260.0, 150.0),
                     hs + {x.LateAsk(x.b)});
    cs, evs := StepB(x, cs, evs, x.A3(), x.B1(), x.D2(), hs + {x.LateAsk(x.b)},
                     DeliverEvent(x.LateAsk(x.b), 261.0, 150.0),
                     Receive(x.B1(), x.LateAsk(x.b), 261.0, 150.0), hs + {x.SecondGrant()});
    cs, evs := StepC(x, cs, evs, x.A3(), x.B1(), x.D2(), hs + {x.SecondGrant()},
                     DeliverEvent(x.SecondGrant(), 262.0, 150.0),
                     Receive(x.D2(), x.SecondGrant(), 262.0, 150.0), hs);
  }

  lemma IsolatedRun(x: Trio) returns (cs: seq<Cluster>, evs: seq<Event>)
    requires x.Distinct()
    ensures RunsTo(x.initial, cs, evs, x.Nodes(x.A4(), x.B2(), x.D3()), {x.Heartbeat(x.c)})
    ensures |evs| == 13 && NoRestart(evs)
  {
    hide RunsTo, Tick, Receive, Trio.A3, Trio.A4, Trio.B1, Trio.B2, Trio.D3, Trio.Nodes;
    HeartbeatSteps(x);
    var hs := {x.Heartbeat(x.b), x.Heartbeat(x.c)};
    cs, evs := SecondCandidacyRun(x);
    cs, evs := StepA(x, cs, evs, x.A3(), x.B1(), x.D3(), hs, TickEvent(x.a, 350.0, 150.0), Tick(x.A3(), 350.0, 150.0),
                     hs);
    cs, evs := StepB(x, cs, evs, x.A4(), x.B1(), x.D3(), hs, DeliverEvent(x.Heartbeat(x.b), 351.0, 150.0),
                     Receive(x.B1(), x.Heartbeat(x.b), 351.0, 150.0), {x.Heartbeat(x.c)});
  }

  /** A run of any three nodes, without a crash, in which a node unseats a healthy leader
      merely by reconnecting.  It comes back in a later term, and its answer to the leader's
      heartbeat makes the leader step down.  From step `i` on nobody opens a round and no
      prevote answer is delivered. */
  lemma HealthyLeaderUnseatedByReconnection(x: Trio) returns (cs: seq<Cluster>, evs: seq<Event>, i: nat)
    requires x.Distinct()
    ensures IsRun(x.initial, cs, evs) && NoRestart(evs) && i < |evs|
    ensures forall k, n :: i <= k < |evs| ==> !Opens(cs[k], evs[k], n)
    ensures forall k :: i <= k < |evs| ==> !(evs[k].DeliverEvent? && evs[k].e.message.PreVoteReply?)
    ensures forall k :: i <= k < |evs| ==> Healthy(cs[k], x.a, 1, {x.b}, evs[k].now)
    ensures x.a in cs[|evs|].nodes && cs[|evs|].nodes[x.a].role == Follower && cs[|evs|].nodes[x.a].term == 2
  {
    hide RunsTo, Tick, Receive, Trio.A4, Trio.B2, Trio.D2, Trio.D3, Healthy, IsRun;
    SecondCandidacy(x);
    HeartbeatFacts(x);
    var u, v, w := x.A4(), x.B2(), x.D3();
    cs, evs := IsolatedRun(x);
    i := 13;
    RunState(x.initial, cs, evs, x.Nodes(u, v, w), {x.Heartbeat(x.c)});
    StillHealthy(x, cs[13], u, v, w, 360.0);
    cs, evs := StepC(x, cs, evs, u, v, w, {x.Heartbeat(x.c)}, DeliverEvent(x.Heartbeat(x.c), 360.0, 150.0),
                     Receive(w, x.Heartbeat(x.c), 360.0, 150.0), {x.Outdated()});
    RunState(x.initial, cs, evs, x.Nodes(u, v, w), {x.Outdated()});
    StillHealthy(x, cs[14], u, v, w, 361.0);
    cs, evs := StepA(x, cs, evs, u, v, w, {x.Outdated()}, DeliverEvent(x.Outdated(), 361.0, 150.0),
                     Receive(u, x.Outdated(), 361.0, 150.0), {});
    RunState(x.initial, cs, evs, x.Nodes(Receive(u, x.Outdated(), 361.0, 150.0).node, v, w), {});
  }
}

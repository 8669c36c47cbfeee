/** At-least-once delivery and per-account order, over every interleaving. */
module StreamProofs {
  import opened Wrappers
  import opened StreamModel

  // ---- first occurrences ----

  lemma {:induction false} FirstOccurrencesMembers(rs: seq<Record>)
    ensures forall r :: r in FirstOccurrences(rs) <==> r in rs
  {
    if rs != [] {
      var front, last := rs[..|rs| - 1], rs[|rs| - 1];
      FirstOccurrencesMembers(front);
      assert forall r :: r in rs <==> r in front || r == last;
    }
  }

  lemma {:induction false} InPartitionMembers(rs: seq<Record>, p: nat)
    ensures forall r :: r in InPartition(rs, p) <==> r in rs && r.partition == p
  {
    if rs != [] {
      var front, last := rs[..|rs| - 1], rs[|rs| - 1];
      InPartitionMembers(front, p);
      assert forall r :: r in rs <==> r in front || r == last;
    }
  }

  lemma {:induction false} WithKeyMembers(rs: seq<Record>, key: string)
    ensures forall r :: r in WithKey(rs, key) <==> r in rs && r.key == key
  {
    if rs != [] {
      var front, last := rs[..|rs| - 1], rs[|rs| - 1];
      WithKeyMembers(front, key);
      assert forall r :: r in rs <==> r in front || r == last;
    }
  }

  /** Taking first occurrences and selecting an account commute. */
  lemma {:induction false} FirstOccurrencesOfKey(rs: seq<Record>, key: string)
    ensures FirstOccurrences(WithKey(rs, key)) == WithKey(FirstOccurrences(rs), key)
  {
    if rs != [] {
      var front, last := rs[..|rs| - 1], rs[|rs| - 1];
      FirstOccurrencesOfKey(front, key);
      WithKeyMembers(front, key);
      var selected := WithKey(front, key);
      assert selected + [] == selected;
      assert WithKey(FirstOccurrences(front), key) + [] == WithKey(FirstOccurrences(front), key);
      if last.key == key {
        assert (selected + [last])[..|selected + [last]| - 1] == selected;
        assert last in selected <==> last in front;
      }
      if last !in front {
        var first := FirstOccurrences(front);
        assert (first + [last])[..|first + [last]| - 1] == first;
      }
    }
  }

  /** An account's records all lie in the partition of its key. */
  lemma {:induction false} WithKeyInPartition(rs: seq<Record>, key: string, p: nat)
    requires forall r :: r in rs && r.key == key ==> r.partition == p
    ensures WithKey(InPartition(rs, p), key) == WithKey(rs, key)
  {
    if rs != [] {
      var front, last := rs[..|rs| - 1], rs[|rs| - 1];
      WithKeyInPartition(front, key, p);
      var inside := InPartition(front, p);
      assert (inside + [last])[..|inside + [last]| - 1] == inside;
      assert inside + [] == inside && WithKey(front, key) + [] == WithKey(front, key);
    }
  }

  lemma {:induction false} WithKeyOfPrefix(rs: seq<Record>, n: nat, key: string)
    requires n <= |rs|
    ensures WithKey(rs[..n], key) <= WithKey(rs, key)
    decreases |rs|
  {
    if n == |rs| {
      assert rs[..n] == rs;
    } else {
      WithKeyOfPrefix(rs[..|rs| - 1], n, key);
      assert rs[..|rs| - 1][..n] == rs[..n];
    }
  }

  lemma InPartitionAppend(rs: seq<Record>, r: Record, p: nat)
    ensures InPartition(rs + [r], p) == InPartition(rs, p) + (if r.partition == p then [r] else [])
  {
    assert (rs + [r])[..|rs + [r]| - 1] == rs;
  }

  lemma FirstOccurrencesAppend(rs: seq<Record>, r: Record)
    ensures FirstOccurrences(rs + [r]) == if r in rs then FirstOccurrences(rs) else FirstOccurrences(rs) + [r]
  {
    assert (rs + [r])[..|rs + [r]| - 1] == rs;
  }

  // ---- steps ----

  /** The log and the puts only grow. */
  ghost predicate Extends(log: Partitions, puts: seq<Record>, log': Partitions, puts': seq<Record>) {
    && |log| == |log'|
    && (forall p :: 0 <= p < |log| ==> log[p] <= log'[p])
    && forall r :: r in puts ==> r in puts'
  }

  lemma PutBelowExtends(log: Partitions, puts: seq<Record>, log': Partitions, puts': seq<Record>, p: nat, n: nat)
    requires Extends(log, puts, log', puts') && PutBelow(log, puts, p, n)
    ensures PutBelow(log', puts', p, n)
  {
    assert log[p] <= log'[p];
  }

  lemma WorkerExtends(log: Partitions, puts: seq<Record>, log': Partitions, puts': seq<Record>, me: Worker)
    requires Extends(log, puts, log', puts') && WorkerInv(log, puts, me)
    ensures WorkerInv(log', puts', me)
  {
    match me
    case Idle =>
    case Fetched(p, from) =>
      PutBelowExtends(log, puts, log', puts', p, from);
    case Working(batch, at) =>
      HeldExtends(log, puts, log', puts', batch, at);
    case Uncommitted(batch, at) =>
      HeldExtends(log, puts, log', puts', batch, at + 1);
  }

  lemma HeldExtends(log: Partitions, puts: seq<Record>, log': Partitions, puts': seq<Record>, batch: seq<Record>,
                    n: nat)
    requires Extends(log, puts, log', puts') && Held(log, puts, batch, n)
    ensures Held(log', puts', batch, n)
  {
    var p: nat, from: nat :| BatchOf(log, puts, batch, p, from, n);
    assert log[p] <= log'[p];
    PutBelowExtends(log, puts, log', puts', p, from + n);
    assert BatchOf(log', puts', batch, p, from, n);
  }

  lemma AllExtend(log: Partitions, puts: seq<Record>, log': Partitions, puts': seq<Record>,
                  committed: map<nat, nat>, workers: map<string, Worker>)
    requires Extends(log, puts, log', puts') && OffsetsInv(log, puts, committed) && WorkersInv(log, puts, workers)
    ensures OffsetsInv(log', puts', committed) && WorkersInv(log', puts', workers)
  {
    forall p | p in committed ensures PutBelow(log', puts', p, committed[p]) {
      PutBelowExtends(log, puts, log', puts', p, committed[p]);
    }
    forall w | w in workers ensures WorkerInv(log', puts', workers[w]) {
      WorkerExtends(log, puts, log', puts', workers[w]);
    }
  }

  lemma ProduceStep(route: string -> nat, s: Stream, ev: Event)
    requires Inv(route, s) && ev.Produce? && Enabled(s, route, ev)
    ensures Inv(route, Next(s, route, ev))
  {
    hide OffsetsInv, WorkersInv;
    var s' := Next(s, route, ev);
    var q := route(ev.key);
    var r := Record(q, |s.log[q]|, ev.key, ev.value);
    AllExtend(s.log, s.puts, s'.log, s'.puts, s.committed, s.workers);
    forall p | 0 <= p < |s.log| ensures InPartition(s'.produced, p) == s'.log[p] {
      InPartitionAppend(s.produced, r, p);
    }
  }

  /** A put extends the first occurrences of its partition by the next record, or repeats one. */
  lemma PutKeepsOrder(route: string -> nat, log: Partitions, puts: seq<Record>, p: nat, j: nat)
    requires LogInv(route, log) && OrderInv(log, puts) && PutBelow(log, puts, p, j) && j < |log[p]|
    ensures OrderInv(log, puts + [log[p][j]])
  {
    var r := log[p][j];
    FirstOccurrencesAppend(puts, r);
    if r !in puts {
      var first := FirstOccurrences(puts);
      NextToPut(route, log, puts, p, j);
      forall q | 0 <= q < |log| ensures InPartition(FirstOccurrences(puts + [r]), q) <= log[q] {
        InPartitionAppend(first, r, q);
      }
    }
  }

  lemma NextToPut(route: string -> nat, log: Partitions, puts: seq<Record>, p: nat, j: nat)
    requires LogInv(route, log) && OrderInv(log, puts) && PutBelow(log, puts, p, j) && j < |log[p]|
    requires log[p][j] !in puts
    ensures InPartition(FirstOccurrences(puts), p) == log[p][..j]
  {
    var seen := InPartition(FirstOccurrences(puts), p);
    FirstOccurrencesMembers(puts);
    InPartitionMembers(FirstOccurrences(puts), p);
    assert forall i :: 0 <= i < |seen| ==> seen[i] == log[p][i] && seen[i] in seen;
    assert forall r :: r in seen ==> r.offset < |seen|;
    assert j > 0 ==> log[p][j - 1] in seen;
  }

  lemma PutStep(route: string -> nat, s: Stream, ev: Event)
    requires Inv(route, s) && ev.Put? && Enabled(s, route, ev)
    ensures Inv(route, Next(s, route, ev))
  {
    hide OffsetsInv, OrderInv, ProducedInv, LogInv;
    var s' := Next(s, route, ev);
    var me := s.workers[ev.w];
    assert WorkerInv(s.log, s.puts, me);
    var p: nat, from: nat :| BatchOf(s.log, s.puts, me.batch, p, from, me.at);
    assert me.batch[me.at] == s.log[p][from + me.at];
    PutKeepsOrder(route, s.log, s.puts, p, from + me.at);
    AllExtend(s.log, s.puts, s.log, s'.puts, s.committed, s.workers);
    assert BatchOf(s.log, s'.puts, me.batch, p, from, me.at + 1);
  }

  lemma CommitStep(route: string -> nat, s: Stream, ev: Event)
    requires Inv(route, s) && ev.Commit? && Enabled(s, route, ev)
    ensures Inv(route, Next(s, route, ev))
  {
    hide OrderInv, ProducedInv;
    var me := s.workers[ev.w];
    assert WorkerInv(s.log, s.puts, me);
    var p: nat, from: nat :| BatchOf(s.log, s.puts, me.batch, p, from, me.at + 1);
    assert me.batch[me.at] == s.log[p][from + me.at];
  }

  lemma PollStep(route: string -> nat, s: Stream, ev: Event)
    requires Inv(route, s) && (ev.Fetch? || ev.Read? || ev.Done? || ev.Fail?) && Enabled(s, route, ev)
    ensures Inv(route, Next(s, route, ev))
  {
    hide OrderInv, ProducedInv, LogInv;
    var me := s.workers[ev.w];
    assert WorkerInv(s.log, s.puts, me);
    if ev.Read? {
      var upto := Min(me.from + ev.max, |s.log[me.partition]|);
      assert BatchOf(s.log, s.puts, s.log[me.partition][me.from..upto], me.partition, me.from, 0);
    }
  }

  lemma StepKeepsInv(route: string -> nat, s: Stream, ev: Event)
    requires Inv(route, s) && Enabled(s, route, ev)
    ensures Inv(route, Next(s, route, ev))
  {
    hide Inv, Next;
    match ev
    case Produce(_, _) => ProduceStep(route, s, ev);
    case Put(_) => PutStep(route, s, ev);
    case Commit(_) => CommitStep(route, s, ev);
    case Fetch(_, _) => PollStep(route, s, ev);
    case Read(_, _) => PollStep(route, s, ev);
    case Done(_) => PollStep(route, s, ev);
    case Fail(_) => PollStep(route, s, ev);
  }

  lemma {:induction false} RunInv(route: string -> nat, ss: seq<Stream>, evs: seq<Event>, i: nat)
    requires IsRun(route, ss, evs) && i < |ss|
    ensures Inv(route, ss[i])
  {
    hide Next;
    if i > 0 {
      RunInv(route, ss, evs, i - 1);
      StepKeepsInv(route, ss[i - 1], evs[i - 1]);
    }
  }

  // ---- the promises ----

  /** At-least-once delivery: in every state of every run, a committed offset is within its
      partition and every record below it has been put on the output queue. */
  lemma AtLeastOnce(route: string -> nat, ss: seq<Stream>, evs: seq<Event>, i: nat, p: nat)
    requires IsRun(route, ss, evs) && i < |ss| && p < |ss[i].log|
    ensures ss[i].Offset(p) <= |ss[i].log[p]|
    ensures forall k :: 0 <= k < ss[i].Offset(p) ==> ss[i].log[p][k] in ss[i].puts
  {
    hide IsRun, LogInv, WorkersInv, OrderInv, ProducedInv;
    RunInv(route, ss, evs, i);
  }

  /** A committed offset never decreases, whichever of two owners commits last. */
  lemma {:induction false} OffsetsNeverDecrease(route: string -> nat, ss: seq<Stream>, evs: seq<Event>, i: nat,
                                                j: nat, p: nat)
    requires IsRun(route, ss, evs) && i <= j < |ss|
    ensures ss[i].Offset(p) <= ss[j].Offset(p)
    decreases j
  {
    if i < j {
      OffsetsNeverDecrease(route, ss, evs, i, j - 1, p);
      assert ss[j] == Next(ss[j - 1], route, evs[j - 1]);
    }
  }

  /** Order survives redelivery: the first time each record of a partition is put follows the
      order of the partition's log, with no gap, even while two workers hold the partition. */
  lemma PartitionOrder(route: string -> nat, ss: seq<Stream>, evs: seq<Event>, i: nat, p: nat)
    requires IsRun(route, ss, evs) && i < |ss| && p < |ss[i].log|
    ensures InPartition(FirstOccurrences(ss[i].puts), p) <= ss[i].log[p]
  {
    hide IsRun, LogInv, WorkersInv, OffsetsInv, ProducedInv;
    RunInv(route, ss, evs, i);
  }

  /** So each account's transactions first reach the output in the order they were produced,
      and none is skipped. */
  lemma AccountOrder(route: string -> nat, ss: seq<Stream>, evs: seq<Event>, i: nat, key: string)
    requires IsRun(route, ss, evs) && i < |ss|
    ensures FirstOccurrences(WithKey(ss[i].puts, key)) <= WithKey(ss[i].produced, key)
  {
    hide IsRun, WorkersInv, OffsetsInv;
    RunInv(route, ss, evs, i);
    AccountOrderIn(route, ss[i], key);
  }

  lemma AccountOrderIn(route: string -> nat, s: Stream, key: string)
    requires Inv(route, s)
    ensures FirstOccurrences(WithKey(s.puts, key)) <= WithKey(s.produced, key)
  {
    hide WorkersInv, OffsetsInv;
    var p := route(key);
    var first := FirstOccurrences(s.puts);
    FirstOccurrencesOfKey(s.puts, key);
    AccountInPartition(route, s, key);
    WithKeyInPartition(first, key, p);
    WithKeyInPartition(s.produced, key, p);
    if p < |s.log| {
      var seen := InPartition(first, p);
      assert seen == s.log[p][..|seen|];
      WithKeyOfPrefix(s.log[p], |seen|, key);
    } else {
      NoneWithKey(first, key);
    }
  }

  lemma AccountInPartition(route: string -> nat, s: Stream, key: string)
    requires LogInv(route, s.log) && OrderInv(s.log, s.puts)
    ensures forall r :: r in FirstOccurrences(s.puts) && r.key == key ==> r.partition == route(key) < |s.log|
  {
    FirstOccurrencesMembers(s.puts);
    forall r | r in s.puts && r.key == key ensures r.partition == route(key) < |s.log| {
      assert r in s.log[r.partition];
    }
  }

  lemma {:induction false} NoneWithKey(rs: seq<Record>, key: string)
    requires forall r :: r in rs ==> r.key != key
    ensures WithKey(rs, key) == []
  {
    if rs != [] {
      NoneWithKey(rs[..|rs| - 1], key);
    }
  }

  /** What was produced by the first `n` steps, in order. */
  function Requests(evs: seq<Event>, n: nat): seq<(string, string)>
    requires n <= |evs|
  {
    if n == 0 then []
    else Requests(evs, n - 1) + (if evs[n - 1].Produce? then [(evs[n - 1].key, evs[n - 1].value)] else [])
  }

  function Contents(rs: seq<Record>): seq<(string, string)> {
    seq(|rs|, i requires 0 <= i < |rs| => (rs[i].key, rs[i].value))
  }

  /** The stream holds exactly what was produced: every key and value, in the order of the
      requests, and each partition holds what was routed to it. */
  lemma {:induction false} ProducedIsWhatWasAsked(route: string -> nat, ss: seq<Stream>, evs: seq<Event>, i: nat)
    requires IsRun(route, ss, evs) && i < |ss|
    ensures i <= |evs| && Contents(ss[i].produced) == Requests(evs, i)
    ensures forall p :: 0 <= p < |ss[i].log| ==> ss[i].log[p] == InPartition(ss[i].produced, p)
    decreases i
  {
    RunInv(route, ss, evs, i);
    if i > 0 {
      ProducedIsWhatWasAsked(route, ss, evs, i - 1);
      assert ss[i] == Next(ss[i - 1], route, evs[i - 1]);
    }
  }
}

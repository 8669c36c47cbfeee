/** The partitioned stream and the fraud workers that consume it, as interleaved steps.

    A worker polls a partition in two steps (committed offset, then records), then puts each
    record on the output queue and commits its offset, again in two steps.  Any worker may
    poll any partition at any time, which covers every rebalance and two owners at once; a
    put may fail and a worker may die between any two steps. */
module StreamModel {
  import opened Wrappers

  datatype Record = Record(partition: nat, offset: nat, key: string, value: string)

  datatype Worker =
    | Idle
    | Fetched(partition: nat, from: nat)
    | Working(batch: seq<Record>, at: nat)     // batch[at] is next to be put
    | Uncommitted(batch: seq<Record>, at: nat) // batch[at] was put, its offset not committed

  datatype Stream = Stream(
    log: seq<seq<Record>>,
    committed: map<nat, nat>,
    puts: seq<Record>,          // every put on the output queue, in order
    produced: seq<Record>,      // every append to the log, in order
    workers: map<string, Worker>)
  {
    function Offset(p: nat): nat {
      Get(committed, p, 0)
    }
  }

  datatype Event =
    | Produce(key: string, value: string)
    | Fetch(w: string, partition: nat)
    | Read(w: string, max: nat)
    | Put(w: string)
    | Commit(w: string)
    | Done(w: string)
    | Fail(w: string)           // a refused put, or a crash at any point

  predicate Enabled(s: Stream, route: string -> nat, ev: Event) {
    if ev.Produce? then route(ev.key) < |s.log|
    else
      && ev.w in s.workers
      && var me := s.workers[ev.w];
         match ev
         case Fetch(_, p) => me.Idle? && p < |s.log|
         case Read(_, _) => me.Fetched? && me.partition < |s.log| && me.from <= |s.log[me.partition]|
         case Put(_) => me.Working? && me.at < |me.batch|
         case Commit(_) => me.Uncommitted? && me.at < |me.batch|
         case Done(_) => me.Working? && me.at == |me.batch|
         case Fail(_) => true
         case Produce(_, _) => true
  }

  function Next(s: Stream, route: string -> nat, ev: Event): Stream
    requires Enabled(s, route, ev)
  {
    match ev
    case Produce(key, value) =>
      var p := route(key);
      var r := Record(p, |s.log[p]|, key, value);
      s.(log := s.log[p := s.log[p] + [r]], produced := s.produced + [r])
    case Fetch(w, p) =>
      s.(workers := s.workers[w := Fetched(p, s.Offset(p))])
    case Read(w, max) =>
      var me := s.workers[w];
      var upto := Min(me.from + max, |s.log[me.partition]|);
      s.(workers := s.workers[w := Working(s.log[me.partition][me.from..upto], 0)])
    case Put(w) =>
      var me := s.workers[w];
      s.(puts := s.puts + [me.batch[me.at]], workers := s.workers[w := Uncommitted(me.batch, me.at)])
    case Commit(w) =>
      var me := s.workers[w];
      var r := me.batch[me.at];
      s.(committed := s.committed[r.partition := Max(s.Offset(r.partition), r.offset + 1)],
         workers := s.workers[w := Working(me.batch, me.at + 1)])
    case Done(w) =>
      s.(workers := s.workers[w := Idle])
    case Fail(w) =>
      s.(workers := s.workers[w := Idle])
  }

  ghost predicate Initial(s: Stream) {
    && (forall p :: 0 <= p < |s.log| ==> s.log[p] == [])
    && s.committed == map[] && s.puts == [] && s.produced == []
    && forall w :: w in s.workers ==> s.workers[w] == Idle
  }

  ghost predicate IsRun(route: string -> nat, ss: seq<Stream>, evs: seq<Event>) {
    && |ss| == |evs| + 1 && Initial(ss[0])
    && forall i :: 0 <= i < |evs| ==> Enabled(ss[i], route, evs[i]) && ss[i + 1] == Next(ss[i], route, evs[i])
  }

  // ---- sequences of records ----

  /** The sequence that keeps only the first occurrence of each record. */
  function FirstOccurrences(rs: seq<Record>): seq<Record> {
    if rs == [] then []
    else
      var front, last := rs[..|rs| - 1], rs[|rs| - 1];
      if last in front then FirstOccurrences(front) else FirstOccurrences(front) + [last]
  }

  function InPartition(rs: seq<Record>, p: nat): seq<Record> {
    if rs == [] then []
    else
      var last := rs[|rs| - 1];
      InPartition(rs[..|rs| - 1], p) + (if last.partition == p then [last] else [])
  }

  function WithKey(rs: seq<Record>, key: string): seq<Record> {
    if rs == [] then []
    else
      var last := rs[|rs| - 1];
      WithKey(rs[..|rs| - 1], key) + (if last.key == key then [last] else [])
  }

  // ---- the invariant ----

  type Partitions = seq<seq<Record>>

  /** A record names its own place in the log, and its key's partition. */
  ghost predicate LogInv(route: string -> nat, log: Partitions) {
    forall p, i :: 0 <= p < |log| && 0 <= i < |log[p]| ==>
      log[p][i].partition == p && log[p][i].offset == i && route(log[p][i].key) == p
  }

  /** Every record of partition `p` below `n` has been put. */
  ghost predicate PutBelow(log: Partitions, puts: seq<Record>, p: nat, n: nat) {
    p < |log| && n <= |log[p]| && forall i :: 0 <= i < n ==> log[p][i] in puts
  }

  ghost predicate OffsetsInv(log: Partitions, puts: seq<Record>, committed: map<nat, nat>) {
    forall p :: p in committed ==> PutBelow(log, puts, p, committed[p])
  }

  /** The batch is a stretch of partition `p` from `from` on, all put up to `n`. */
  ghost predicate BatchOf(log: Partitions, puts: seq<Record>, batch: seq<Record>, p: nat, from: nat, n: nat) {
    && p < |log| && from + |batch| <= |log[p]| && batch == log[p][from..from + |batch|]
    && PutBelow(log, puts, p, from + n)
  }

  ghost predicate Held(log: Partitions, puts: seq<Record>, batch: seq<Record>, n: nat) {
    exists p: nat, from: nat :: BatchOf(log, puts, batch, p, from, n)
  }

  ghost predicate WorkerInv(log: Partitions, puts: seq<Record>, me: Worker) {
    match me
    case Idle => true
    case Fetched(p, from) => PutBelow(log, puts, p, from)
    case Working(batch, at) => at <= |batch| && Held(log, puts, batch, at)
    case Uncommitted(batch, at) => at < |batch| && Held(log, puts, batch, at + 1)
  }

  ghost predicate WorkersInv(log: Partitions, puts: seq<Record>, workers: map<string, Worker>) {
    forall w :: w in workers ==> WorkerInv(log, puts, workers[w])
  }

  /** First occurrences of each partition's records are a prefix of its log, in order. */
  ghost predicate OrderInv(log: Partitions, puts: seq<Record>) {
    && (forall r :: r in puts ==> r.partition < |log| && r in log[r.partition])
    && forall p :: 0 <= p < |log| ==> InPartition(FirstOccurrences(puts), p) <= log[p]
  }

  ghost predicate ProducedInv(route: string -> nat, log: Partitions, produced: seq<Record>) {
    && (forall r :: r in produced ==> r.partition == route(r.key) < |log|)
    && forall p :: 0 <= p < |log| ==> InPartition(produced, p) == log[p]
  }

  ghost predicate Inv(route: string -> nat, s: Stream) {
    && LogInv(route, s.log)
    && OffsetsInv(s.log, s.puts, s.committed)
    && WorkersInv(s.log, s.puts, s.workers)
    && OrderInv(s.log, s.puts)
    && ProducedInv(route, s.log, s.produced)
  }
}

/** The broker, the output queue and the fraud worker as the objects they are.  A worker's
    cycle, run by itself, is a sequence of the stream model's steps, none of them a failure. */
module FraudWorkers {
  import opened Wrappers
  import opened StreamModel
  import opened StreamProofs

  datatype Result<+T> = Ok(value: T) | OutOfRange

  class PartitionedLog {
    var partitions: seq<seq<Record>>
    var committedOffsets: map<string, map<nat, nat>>  // group -> partition -> offset
    ghost var appended: seq<Record>  // every record, in the order of appending

    /** Offsets are positions. */
    ghost predicate Valid()
      reads this`partitions
    {
      forall p, i :: 0 <= p < |partitions| && 0 <= i < |partitions[p]| ==>
        partitions[p][i].partition == p && partitions[p][i].offset == i
    }

    /** One group's committed offsets. */
    function OffsetsOf(group: string): map<nat, nat>
      reads this`committedOffsets
    {
      Get(committedOffsets, group, map[])
    }

    /** No committed offset of the group is past the end of its partition. */
    ghost predicate InRange(group: string)
      reads this`partitions, this`committedOffsets
    {
      forall p :: p in OffsetsOf(group) ==> p < |partitions| && OffsetsOf(group)[p] <= |partitions[p]|
    }

    constructor (numPartitions: nat)
      requires numPartitions > 0
      ensures Valid() && |partitions| == numPartitions && (forall p :: 0 <= p < numPartitions ==> partitions[p] == [])
      ensures committedOffsets == map[] && appended == []
    {
      partitions := seq(numPartitions, _ => []);
      committedOffsets, appended := map[], [];
    }

    method Append(partition: int, key: string, value: string) returns (r: Result<Record>)
      requires Valid()
      modifies this`partitions, this`appended
      ensures Valid()
      ensures r.Ok? <==> 0 <= partition < |old(partitions)|
      ensures r.Ok? ==> r.value == Record(partition, |old(partitions)[partition]|, key, value)
      ensures r.Ok? ==> partitions == old(partitions)[partition := old(partitions)[partition] + [r.value]]
      ensures r.Ok? ==> appended == old(appended) + [r.value]
      ensures r.OutOfRange? ==> partitions == old(partitions) && appended == old(appended)
    {
      if !(0 <= partition < |partitions|) {
        return OutOfRange;
      }
      var record := Record(partition, |partitions[partition]|, key, value);
      partitions := partitions[partition := partitions[partition] + [record]];
      appended := appended + [record];
      r := Ok(record);
    }

    method Read(partition: int, fromOffset: int, maxRecords: nat) returns (r: Result<seq<Record>>)
      ensures r.Ok? <==> 0 <= partition < |partitions| && fromOffset >= 0
      ensures r.Ok? ==>
                var records := partitions[partition];
                r.value == if fromOffset >= |records| then []
                           else records[fromOffset..Min(fromOffset + maxRecords, |records|)]
    {
      if !(0 <= partition < |partitions|) || fromOffset < 0 {
        return OutOfRange;
      }
      var records := partitions[partition];
      r := Ok(if fromOffset >= |records| then [] else records[fromOffset..Min(fromOffset + maxRecords, |records|)]);
    }

    /** Progress is kept at its maximum, so a late commit of an evicted owner is harmless.
        An unknown partition is refused. */
    method CommitOffset(group: string, partition: nat, offset: nat) returns (ok: bool)
      modifies this`committedOffsets
      ensures ok <==> partition < |partitions|
      ensures ok ==>
                var offsets := old(OffsetsOf(group));
                OffsetsOf(group) == offsets[partition := Max(Get(offsets, partition, 0), offset)]
      ensures ok ==> forall g :: g != group ==> OffsetsOf(g) == old(OffsetsOf(g))
      ensures !ok ==> committedOffsets == old(committedOffsets)
    {
      if partition >= |partitions| {
        return false;
      }
      ok := true;
      var offsets := OffsetsOf(group);
      committedOffsets := committedOffsets[group := offsets[partition := Max(Get(offsets, partition, 0), offset)]];
    }

    method CommittedOffset(group: string, partition: nat) returns (r: Result<nat>)
      ensures r == if partition < |partitions| then Ok(Get(OffsetsOf(group), partition, 0)) else OutOfRange
    {
      if partition >= |partitions| {
        return OutOfRange;
      }
      r := Ok(Get(OffsetsOf(group), partition, 0));
    }
  }

  class OutputQueue {
    const maxsize: int
    var items: seq<Record>
    ghost var puts: seq<Record>  // every put, whether or not it was consumed since

    constructor (maxsize: int)
      ensures this.maxsize == maxsize && items == [] && puts == []
    {
      this.maxsize := maxsize;
      items, puts := [], [];
    }

    predicate HasRoom()
      reads this
    {
      maxsize <= 0 || |items| < maxsize
    }

    /** Refuses when the queue is full; the worker then stops before the commit. */
    method PutNowait(r: Record) returns (ok: bool)
      modifies this
      ensures ok == old(HasRoom())
      ensures items == if ok then old(items) + [r] else old(items)
      ensures puts == if ok then old(puts) + [r] else old(puts)
    {
      ok := HasRoom();
      if ok {
        items := items + [r];
        puts := puts + [r];
      }
    }
  }

  /** States `ss` of the stream, one step of `evs` after another. */
  ghost predicate Steps(route: string -> nat, ss: seq<Stream>, evs: seq<Event>) {
    && |ss| == |evs| + 1
    && forall i :: 0 <= i < |evs| ==> Enabled(ss[i], route, evs[i]) && ss[i + 1] == Next(ss[i], route, evs[i])
  }

  /** The stream can move from `s` to `s'` by steps none of which is a failure. */
  ghost predicate Reaches(route: string -> nat, s: Stream, s': Stream) {
    exists ss, evs :: Path(route, s, s', ss, evs)
  }

  ghost predicate Path(route: string -> nat, s: Stream, s': Stream, ss: seq<Stream>, evs: seq<Event>) {
    Steps(route, ss, evs) && ss[0] == s && ss[|ss| - 1] == s' && forall i :: 0 <= i < |evs| ==> !evs[i].Fail?
  }

  lemma NoStep(route: string -> nat, s: Stream)
    ensures Reaches(route, s, s)
  {
    assert Path(route, s, s, [s], []);
  }

  lemma OneStep(route: string -> nat, s: Stream, ev: Event)
    requires Enabled(s, route, ev) && !ev.Fail?
    ensures Reaches(route, s, Next(s, route, ev))
  {
    hide Next;
    assert Path(route, s, Next(s, route, ev), [s, Next(s, route, ev)], [ev]);
  }

  lemma StepsCompose(route: string -> nat, a: Stream, b: Stream, c: Stream)
    requires Reaches(route, a, b) && Reaches(route, b, c)
    ensures Reaches(route, a, c)
  {
    hide Next, Enabled;
    var ss, evs :| Path(route, a, b, ss, evs);
    var ts, fvs :| Path(route, b, c, ts, fvs);
    var us: seq<Stream>, gvs: seq<Event> := ss + ts[1..], evs + fvs;
    forall i | 0 <= i < |gvs|
      ensures Enabled(us[i], route, gvs[i]) && us[i + 1] == Next(us[i], route, gvs[i]) && !gvs[i].Fail?
    {
      if i >= |evs| {
        assert us[i] == ts[i - |evs|] && us[i + 1] == ts[i - |evs| + 1] && gvs[i] == fvs[i - |evs|];
      }
    }
    assert Path(route, a, c, us, gvs);
  }

  /** A worker puts its next record and commits the record's offset. */
  lemma PutThenCommit(route: string -> nat, s: Stream, w: string, batch: seq<Record>, i: nat)
    requires s.workers == map[w := Working(batch, i)] && i < |batch| && batch[i].partition < |s.log|
    ensures var r := batch[i];
            var committed := s.committed[r.partition := Max(Get(s.committed, r.partition, 0), r.offset + 1)];
            Reaches(route, s, Stream(s.log, committed, s.puts + [r], s.produced, map[w := Working(batch, i + 1)]))
  {
    hide Reaches;
    var between := Stream(s.log, s.committed, s.puts + [batch[i]], s.produced, map[w := Uncommitted(batch, i)]);
    assert between == Next(s, route, Put(w));
    OneStep(route, s, Put(w));
    OneStep(route, between, Commit(w));
    StepsCompose(route, s, between, Next(between, route, Commit(w)));
    assert Next(between, route, Commit(w)).workers == map[w := Working(batch, i + 1)];
  }

  /** A state that satisfies the stream's invariant still does after any such steps. */
  lemma ReachesKeepsInv(route: string -> nat, s: Stream, s': Stream)
    requires Reaches(route, s, s') && Inv(route, s)
    ensures Inv(route, s')
  {
    hide Inv, Next;
    var ss, evs :| Path(route, s, s', ss, evs);
    StepsKeepInv(route, ss, evs, |evs|);
  }

  lemma {:induction false} StepsKeepInv(route: string -> nat, ss: seq<Stream>, evs: seq<Event>, i: nat)
    requires Steps(route, ss, evs) && Inv(route, ss[0]) && i < |ss|
    ensures Inv(route, ss[i])
  {
    hide Inv, Next;
    if i > 0 {
      StepsKeepInv(route, ss, evs, i - 1);
      StepKeepsInv(route, ss[i - 1], evs[i - 1]);
    }
  }

  class FraudWorker {
    const member: string
    const group: string
    const log: PartitionedLog
    const queue: OutputQueue
    const maxBatch: nat
    ghost const route: string -> nat

    constructor (member: string, group: string, log: PartitionedLog, queue: OutputQueue, maxBatch: nat,
                 ghost route: string -> nat)
      ensures this.member == member && this.group == group && this.log == log && this.queue == queue
      ensures this.maxBatch == maxBatch && this.route == route
    {
      this.member, this.group, this.log, this.queue := member, group, log, queue;
      this.maxBatch, this.route := maxBatch, route;
    }

    /** The stream as this worker and its group see it, with the worker at `me`. */
    ghost function View(me: Worker): Stream
      reads log, queue
    {
      Stream(log.partitions, log.OffsetsOf(group), queue.puts, log.appended, map[member := me])
    }

    /** The group's committed offset of a partition. */
    ghost function Offset(p: nat): nat
      reads log`committedOffsets
    {
      Get(log.OffsetsOf(group), p, 0)
    }

    /** Nothing of the partition is left to read. */
    ghost predicate Drained(p: nat)
      reads log`partitions, log`committedOffsets
    {
      p < |log.partitions| && Offset(p) >= |log.partitions[p]|
    }

    ghost predicate Stored(r: Record)
      reads log`partitions
    {
      r.partition < |log.partitions| && r.offset < |log.partitions[r.partition]|
    }

    /** A whole batch or all of the room, whichever is less. */
    function AvailableCapacity(): (c: nat)
      reads queue
      ensures c <= maxBatch && (queue.maxsize <= 0 ==> c == maxBatch)
      ensures queue.maxsize > 0 && |queue.items| < queue.maxsize ==> |queue.items| + c <= queue.maxsize
      ensures queue.maxsize > 0 && |queue.items| < queue.maxsize ==> c == maxBatch || |queue.items| + c == queue.maxsize
      ensures queue.maxsize > 0 && |queue.items| >= queue.maxsize ==> c == 0
    {
      if queue.maxsize <= 0 then maxBatch else Max(0, Min(maxBatch, queue.maxsize - |queue.items|))
    }

    /** Puts one record and commits its offset.  A full queue refuses the put, and then nothing
        is committed. */
    method PutAndCommit(batch: seq<Record>, i: nat) returns (ok: bool)
      requires log.InRange(group) && i < |batch| && Stored(batch[i])
      modifies log`committedOffsets, queue
      ensures log.InRange(group) && ok == old(queue.HasRoom())
      ensures ok ==> Reaches(route, old(View(Working(batch, i))), View(Working(batch, i + 1)))
      ensures ok ==> queue.items == old(queue.items) + [batch[i]] && queue.puts == old(queue.puts) + [batch[i]]
      ensures ok ==> Offset(batch[i].partition) == Max(old(Offset(batch[i].partition)), batch[i].offset + 1)
      ensures ok ==> forall p: nat :: p != batch[i].partition ==> Offset(p) == old(Offset(p))
      ensures !ok ==> View(Working(batch, i)) == old(View(Working(batch, i))) && queue.items == old(queue.items)
    {
      hide Reaches;
      var record := batch[i];
      PutThenCommit(route, View(Working(batch, i)), member, batch, i);
      ok := queue.PutNowait(record);
      if ok {
        var committed := log.CommitOffset(group, record.partition, record.offset + 1);
        assert committed;
      }
    }

    /** Puts and commits the records of one batch, in order, up to the first that the queue
        refuses.  The records put are committed, the others are not. */
    method ProcessBatch(batch: seq<Record>) returns (done: nat)
      requires log.InRange(group) && forall i :: 0 <= i < |batch| ==> Stored(batch[i])
      modifies log`committedOffsets, queue
      ensures log.InRange(group) && done <= |batch|
      ensures done < |batch| ==> !queue.HasRoom()
      ensures Reaches(route, old(View(Working(batch, 0))), View(if done == |batch| then Idle else Working(batch, done)))
      ensures queue.items == old(queue.items) + batch[..done] && queue.puts == old(queue.puts) + batch[..done]
      ensures forall p: nat :: Offset(p) >= old(Offset(p))
      ensures forall i :: 0 <= i < done ==> Offset(batch[i].partition) > batch[i].offset
    {
      hide Reaches, Next;
      ghost var first := View(Working(batch, 0));
      NoStep(route, first);
      done := 0;
      while done < |batch|
        invariant log.InRange(group) && done <= |batch|
        invariant Reaches(route, first, View(Working(batch, done)))
        invariant queue.items == old(queue.items) + batch[..done] && queue.puts == old(queue.puts) + batch[..done]
        invariant forall p: nat :: Offset(p) >= old(Offset(p))
        invariant forall j :: 0 <= j < done ==> Offset(batch[j].partition) > batch[j].offset
      {
        ghost var before := View(Working(batch, done));
        var ok := PutAndCommit(batch, done);
        if !ok {
          return;
        }
        StepsCompose(route, first, before, View(Working(batch, done + 1)));
        done := done + 1;
      }
      FinishBatch(batch);
      StepsCompose(route, first, View(Working(batch, |batch|)), View(Idle));
    }

    lemma FinishBatch(batch: seq<Record>)
      ensures Reaches(route, View(Working(batch, |batch|)), View(Idle))
    {
      hide Reaches;
      var last := View(Working(batch, |batch|));
      assert View(Idle) == Next(last, route, Done(member));
      OneStep(route, last, Done(member));
    }

    /** Reads from the group's committed offset on. */
    method PollPartition(partition: nat, maxRecords: nat) returns (records: seq<Record>)
      requires log.Valid() && log.InRange(group) && partition < |log.partitions|
      ensures |records| <= maxRecords && forall i :: 0 <= i < |records| ==> Stored(records[i])
      ensures var from, end := Offset(partition), |log.partitions[partition]|;
              records == log.partitions[partition][from..Min(from + maxRecords, end)]
      ensures Reaches(route, View(Idle), View(Working(records, 0)))
    {
      hide Reaches;
      var committed := log.CommittedOffset(group, partition);
      var offset := committed.value;
      ghost var fetched := View(Fetched(partition, offset));
      assert fetched == Next(View(Idle), route, Fetch(member, partition));
      OneStep(route, View(Idle), Fetch(member, partition));
      var r := log.Read(partition, offset, maxRecords);
      records := r.value;
      assert records == log.partitions[partition][offset..Min(offset + maxRecords, |log.partitions[partition]|)];
      assert View(Working(records, 0)) == Next(fetched, route, Event.Read(member, maxRecords));
      OneStep(route, fetched, Event.Read(member, maxRecords));
      StepsCompose(route, View(Idle), fetched, View(Working(records, 0)));
    }

    /** The turn of one assigned partition. */
    method TakeTurn(partition: nat, capacity: nat) returns (records: seq<Record>)
      requires log.Valid() && log.InRange(group) && partition < |log.partitions|
      requires queue.maxsize > 0 ==> |queue.items| + capacity <= queue.maxsize
      modifies log`committedOffsets, queue
      ensures log.InRange(group)
      ensures Reaches(route, old(View(Idle)), View(Idle))
      ensures queue.items == old(queue.items) + records && queue.puts == old(queue.puts) + records
      ensures forall p: nat :: Offset(p) >= old(Offset(p))
      ensures |records| <= capacity && (|records| == capacity || Drained(partition))
    {
      hide Reaches, Next;
      ghost var before, from := View(Idle), Offset(partition);
      records := PollPartition(partition, capacity);
      ghost var polled := View(Working(records, 0));
      var done := ProcessBatch(records);
      assert done == |records|;
      StepsCompose(route, before, polled, View(Idle));
      if 0 < |records| < capacity {
        assert records[|records| - 1] == log.partitions[partition][|log.partitions[partition]| - 1];
      }
    }

    /** One cycle over the assigned partitions, no more records than the queue has room for.
        With no other worker in between, no put is refused, and the cycle is a run of the
        stream model from the worker being idle to it being idle again.  It stops only with
        the room used up or every assigned partition drained. */
    method RunOnce(mine: seq<nat>) returns (produced: seq<Record>)
      requires log.Valid() && log.InRange(group) && forall p :: p in mine ==> p < |log.partitions|
      modifies log`committedOffsets, queue
      ensures log.Valid() && log.InRange(group)
      ensures Reaches(route, old(View(Idle)), View(Idle))
      ensures queue.puts == old(queue.puts) + produced && queue.items == old(queue.items) + produced
      ensures |produced| <= old(AvailableCapacity())
      ensures |produced| == old(AvailableCapacity()) || forall p :: p in mine ==> Drained(p)
    {
      hide Reaches, Next;
      var capacity := AvailableCapacity();
      produced := [];
      NoStep(route, View(Idle));
      if capacity <= 0 {
        return;
      }
      var k := 0;
      while k < |mine| && capacity > 0
        invariant 0 <= k <= |mine| && 0 <= capacity && |produced| + capacity == old(AvailableCapacity())
        invariant log.InRange(group) && Reaches(route, old(View(Idle)), View(Idle))
        invariant queue.puts == old(queue.puts) + produced && queue.items == old(queue.items) + produced
        invariant queue.maxsize > 0 ==> |queue.items| + capacity <= queue.maxsize
        invariant capacity == 0 || forall i :: 0 <= i < k ==> Drained(mine[i])
      {
        assert mine[k] in mine;
        ghost var before := View(Idle);
        var records := TakeTurn(mine[k], capacity);
        StepsCompose(route, old(View(Idle)), before, View(Idle));
        produced := produced + records;
        capacity := capacity - |records|;
        k := k + 1;
      }
    }
  }
}

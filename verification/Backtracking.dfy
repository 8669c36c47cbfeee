/** Fast backtracking: where a leader resumes after a rejected AppendEntries. */
module RaftBacktracking {
  import opened LedgerModel
  import opened RaftTypes
  import opened RaftLog
  import opened RaftStep
  import opened RaftHistory
  import opened RaftActions
  import opened RaftReplicationSteps
  import opened RaftCluster
  import opened RaftRunTheorems

  /** The length of the longest common prefix. */
  function CommonPrefix(a: Log, b: Log): (n: nat)
    ensures n <= |a| && n <= |b|
    ensures forall k :: 0 <= k < n ==> a[k] == b[k]
    ensures n < |a| && n < |b| ==> a[n] != b[n]
    decreases |a|
  {
    if a == [] || b == [] || a[0] != b[0] then 0 else 1 + CommonPrefix(a[1..], b[1..])
  }

  lemma {:induction false} LastIndexIsLast(log: Log, term: int, index: nat)
    requires Sorted(log) && index <= |log|
    ensures var r := LastIndexOfTerm(log, term, index);
            && 0 <= r <= index
            && (r > 0 ==> log[r - 1].term == term)
            && forall k :: r <= k < index ==> log[k].term != term
  {
    if index > 0 && log[index - 1].term > term {
      LastIndexIsLast(log, term, index - 1);
    }
  }

  lemma {:induction false} FirstIndexIsFirst(log: Log, term: int, index: nat)
    requires index <= |log|
    ensures var r := FirstIndexOfTerm(log, term, index);
            && 1 <= r <= index + 1
            && (forall k :: r - 1 <= k < index ==> log[k].term == term)
            && (r > 1 ==> log[r - 2].term != term)
  {
    if index > 0 && log[index - 1].term == term {
      FirstIndexIsFirst(log, term, index - 1);
    }
  }

  /** The leader's term holds the conflicting term, so its last entry of that term is where
      the two logs part. */
  lemma KnownConflictTerm(h: History, mine: Log, theirs: Log, prev: nat, last: nat)
    requires Backed(h, mine) && Backed(h, theirs) && Sorted(mine) && Sorted(theirs)
    requires 1 <= prev <= |mine| && prev <= |theirs| && mine[prev - 1].term != theirs[prev - 1].term
    requires 1 <= last <= |mine| && mine[last - 1].term == theirs[prev - 1].term
    requires forall k :: last <= k < |mine| ==> mine[k].term != theirs[prev - 1].term
    ensures last < prev && CommonPrefix(mine, theirs) == last
  {
    var t := theirs[prev - 1].term;
    assert BackedAt(h, theirs, prev - 1) && BackedAt(h, mine, last - 1);
    var l := h.llog[t];
    assert Agree(theirs, l, prev) && Agree(mine, l, last);
    assert mine[prev - 1] != theirs[prev - 1];
    assert last < prev;
    assert mine[last].term > t;
    assert theirs[last].term <= t;
    var n := CommonPrefix(mine, theirs);
    assert forall k :: 0 <= k < last ==> mine[k] == l[k] && theirs[k] == l[k];
    assert n >= last;
  }

  /** The run of entries of `term` that ends at `prev` starts at `first`. */
  ghost predicate StartsRun(log: Log, term: int, first: int, prev: int)
    requires prev <= |log|
  {
    && 1 <= first <= prev
    && (forall k :: first - 1 <= k < prev ==> log[k].term == term)
    && (first > 1 ==> log[first - 2].term != term)
  }

  /** What a rejection reports of the log that rejected: that it is too short, or the first
      entry of the conflicting term. */
  ghost predicate Reports(theirs: Log, prev: int, conflictIndex: int, conflictTerm: int)
    requires prev >= 1
  {
    if prev > |theirs| then conflictIndex == |theirs| + 1 && conflictTerm == -1
    else conflictTerm == theirs[prev - 1].term && StartsRun(theirs, conflictTerm, conflictIndex, prev)
  }

  /** A rejection by a follower whose log is `theirs`, of a request that asked it to hold the
      leader's entry `prev`; `mine` is the leader's log when the rejection arrives, possibly
      longer.  The next request asks for an earlier entry, never for one before the common
      prefix, and exactly for its end whenever the leader has an entry of the conflicting
      term. */
  lemma BacktrackIsExact(h: History, mine: Log, theirs: Log, prev: nat, conflictIndex: int, conflictTerm: int)
    requires Backed(h, mine) && Backed(h, theirs) && Sorted(mine) && Sorted(theirs)
    requires 1 <= prev <= |mine|
    requires Reports(theirs, prev, conflictIndex, conflictTerm)
    requires prev <= |theirs| ==> theirs[prev - 1].term != mine[prev - 1].term
    ensures var next := Backtrack(mine, conflictIndex, conflictTerm);
            && 1 <= next <= prev
            && CommonPrefix(mine, theirs) + 1 <= next
            && ((exists k :: 0 <= k < |mine| && mine[k].term == conflictTerm) ==>
                next == CommonPrefix(mine, theirs) + 1)
  {
    if prev <= |theirs| {
      var last := LastIndexOfTerm(mine, conflictTerm, |mine|);
      LastIndexIsLast(mine, conflictTerm, |mine|);
      if last > 0 {
        KnownConflictTerm(h, mine, theirs, prev, last);
      } else {
        UnknownConflictTerm(mine, theirs, prev, conflictIndex);
      }
    }
  }

  lemma UnknownConflictTerm(mine: Log, theirs: Log, prev: nat, first: int)
    requires 1 <= prev <= |theirs| && StartsRun(theirs, theirs[prev - 1].term, first, prev)
    requires forall k :: 0 <= k < |mine| ==> mine[k].term != theirs[prev - 1].term
    ensures 1 <= first <= prev && CommonPrefix(mine, theirs) < first
  {
    assert theirs[first - 1].term == theirs[prev - 1].term;
    var n := CommonPrefix(mine, theirs);
    assert forall k :: 0 <= k < n ==> mine[k].term == theirs[k].term;
    assert !(first - 1 < n);
  }

  /** What a rejection of a current request says about the log that rejected it. */
  lemma RejectionReport(s: Node, m: Message, now: real, draw: real)
    requires m.AppendEntries? && m.prevIndex >= 0 && m.term >= s.term
    requires !HandleAppendEntries(s, m, now, draw).reply.success
    ensures var r := HandleAppendEntries(s, m, now, draw).reply;
            && r.AppendReply? && r.term == m.term && m.prevIndex >= 1
            && Reports(s.log, m.prevIndex, r.conflictIndex, r.conflictTerm)
            && (m.prevIndex <= |s.log| ==> s.log[m.prevIndex - 1].term != m.prevTerm)
  {
    hide Accept, FirstIndexOfTerm;
    if 1 <= m.prevIndex <= |s.log| {
      FirstIndexIsFirst(s.log, s.log[m.prevIndex - 1].term, m.prevIndex);
      ConflictBounds(s.log, s.log[m.prevIndex - 1].term, m.prevIndex);
    }
  }

  /** Over a run: at step `i` a follower rejects an AppendEntries of its sender's current
      term; at a later step `j` the sender, still leading that term, takes the rejection.  Its
      retry asks for a strictly earlier entry, skips nothing the follower's rejecting log had
      in common with the leader, and skips nothing in vain when the leader knows the
      conflicting term. */
  lemma BacktrackingConverges(initial: Ledger, cs: seq<Cluster>, evs: seq<Event>, i: nat, j: nat)
    requires IsRun(initial, cs, evs) && i < j < |evs|
    requires evs[i].DeliverEvent? && evs[i].e.message.AppendEntries?
    requires cs[i].nodes[evs[i].e.recipient].term <= evs[i].e.message.term
    requires var f := cs[i].nodes[evs[i].e.recipient];
             var reply := HandleAppendEntries(f, evs[i].e.message, evs[i].now, evs[i].draw).reply;
             && reply.AppendReply? && !reply.success
             && evs[j].DeliverEvent? && evs[j].e == Envelope(evs[i].e.recipient, evs[i].e.sender, reply)
    requires var l := cs[j].nodes[evs[j].e.recipient];
             l.role == Leader && l.term == evs[i].e.message.term
    ensures var m, f := evs[i].e.message, cs[i].nodes[evs[i].e.recipient];
            var l, l' := cs[j].nodes[evs[j].e.recipient], cs[j + 1].nodes[evs[j].e.recipient];
            && l'.log == l.log && f.id in l'.nextIndex
            && 1 <= l'.nextIndex[f.id] <= m.prevIndex
            && CommonPrefix(l.log, f.log) + 1 <= l'.nextIndex[f.id]
            && ((exists k :: 0 <= k < |l.log| && l.log[k].term == evs[j].e.message.conflictTerm) ==>
                 l'.nextIndex[f.id] == CommonPrefix(l.log, f.log) + 1)
  {
    hide ClusterInv, Grows, HistoryInv, NodeInv, Initial, HandleAppendEntries, FirstIndexOfTerm, Backtrack, AppendTo;
    var hs := RunHistory(initial, cs, evs);
    var top := hs[|cs| - 1];
    var e := evs[i].e;
    var m, f := e.message, cs[i].nodes[e.recipient];
    var l := cs[j].nodes[e.sender];
    NodeAt(hs[i], initial, cs[i], e.recipient);
    NodeAt(hs[j], initial, cs[j], e.sender);
    GoodLogAt(hs[i], top, initial, f);
    GoodLogAt(hs[j], top, initial, l);
    MessageAt(hs[i], initial, cs[i], e);
    RequestInLeaderLog(hs[i], hs[j], top, initial, e, l);
    RejectionReport(f, m, evs[i].now, evs[i].draw);
    BacktrackIsExact(top, l.log, f.log, m.prevIndex, evs[j].e.message.conflictIndex, evs[j].e.message.conflictTerm);
  }

  /** The entry a request asks for is in the log of the leader that sent it, whenever that
      leader is asked in the same term: its log has only grown. */
  lemma RequestInLeaderLog(h: History, h': History, top: History, initial: Ledger, e: Envelope, l: Node)
    requires MessageInv(h, e) && e.message.AppendEntries? && Grows(h, top) && Grows(h', top) && Grows(h, h')
    requires NodeInv(h', initial, l) && l.role == Leader && l.term == e.message.term
    ensures 0 <= e.message.prevIndex <= |l.log|
    ensures e.message.prevTerm == TermAt(l.log, e.message.prevIndex)
  {
    hide NodeStore, NodeAcks, NodeVotes, AcksGrow, Committed;
    LeaderOnRecord(h', top, initial, l);
    var t := e.message.term;
    assert Agree(h.llog[t], h'.llog[t], |h.llog[t]|);
  }

  /** The other half of convergence: at any later moment at which a node leads the request's
      term, the request is within what the follower's log had in common with the leader's
      exactly if the follower accepted it.  So rejections stop once the retries, which fall
      strictly and never below the common prefix, have come down to it, and at once when the
      leader knows the conflicting term. */
  lemma AcceptsExactlyCommonPrefix(initial: Ledger, cs: seq<Cluster>, evs: seq<Event>, i: nat, j: nat, n: NodeId)
    requires IsRun(initial, cs, evs) && i < |evs| && i <= j < |cs| && n in cs[j].nodes
    requires evs[i].DeliverEvent? && evs[i].e.message.AppendEntries?
    requires cs[i].nodes[evs[i].e.recipient].term <= evs[i].e.message.term
    requires cs[j].nodes[n].role == Leader && cs[j].nodes[n].term == evs[i].e.message.term
    ensures var f, m := cs[i].nodes[evs[i].e.recipient], evs[i].e.message;
            HandleAppendEntries(f, m, evs[i].now, evs[i].draw).reply.success <==>
              m.prevIndex <= CommonPrefix(cs[j].nodes[n].log, f.log)
  {
    hide ClusterInv, Grows, HistoryInv, NodeInv, Initial, HandleAppendEntries, CommonPrefix;
    var hs := RunHistory(initial, cs, evs);
    var top := hs[|cs| - 1];
    var e := evs[i].e;
    var f, l := cs[i].nodes[e.recipient], cs[j].nodes[n];
    NodeAt(hs[i], initial, cs[i], e.recipient);
    NodeAt(hs[j], initial, cs[j], n);
    GoodLogAt(hs[i], top, initial, f);
    GoodLogAt(hs[j], top, initial, l);
    MessageAt(hs[i], initial, cs[i], e);
    RequestInLeaderLog(hs[i], hs[j], top, initial, e, l);
    SuccessReport(f, e.message, evs[i].now, evs[i].draw);
    SharesPrefix(top, l.log, f.log, e.message.prevIndex);
  }

  lemma SuccessReport(s: Node, m: Message, now: real, draw: real)
    requires m.AppendEntries? && m.prevIndex >= 0 && m.term >= s.term
    ensures HandleAppendEntries(s, m, now, draw).reply.AppendReply?
    ensures HandleAppendEntries(s, m, now, draw).reply.success <==>
            m.prevIndex == 0 || (m.prevIndex <= |s.log| && s.log[m.prevIndex - 1].term == m.prevTerm)
  {
    hide Accept, FirstIndexOfTerm;
  }

  /** Two backed logs have the first `n` entries in common exactly if their terms agree at `n`. */
  lemma SharesPrefix(h: History, mine: Log, theirs: Log, n: nat)
    requires Backed(h, mine) && Backed(h, theirs) && n <= |mine|
    ensures n <= CommonPrefix(mine, theirs) <==>
            n == 0 || (n <= |theirs| && theirs[n - 1].term == mine[n - 1].term)
  {
    var c := CommonPrefix(mine, theirs);
    if 0 < n <= c {
      assert mine[n - 1] == theirs[n - 1];
    } else if 0 < n <= |theirs| && theirs[n - 1].term == mine[n - 1].term {
      LogsMatch(h, mine, theirs, n - 1);
    }
  }
}

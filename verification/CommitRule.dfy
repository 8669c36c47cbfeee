/** The leader sorts the match indexes and picks the majority-th largest.  That is the
    commit rule of Figure 2 of the Raft paper: the largest N past the commit index that a
    majority has matched and whose entry is of the current term. */
module RaftCommitRule {
  import opened Wrappers
  import opened RaftTypes
  import opened RaftLog
  import opened RaftStep
  import opened RaftHistory

  function CountAtLeast(xs: seq<int>, n: int): nat {
    if xs == [] then 0 else (if xs[0] >= n then 1 else 0) + CountAtLeast(xs[1..], n)
  }

  ghost predicate Descending(xs: seq<int>) {
    forall i, j :: 0 <= i <= j < |xs| ==> xs[i] >= xs[j]
  }

  lemma {:induction false} InsertKeepsCount(x: int, xs: seq<int>, n: int)
    ensures CountAtLeast(InsertDescending(x, xs), n) == (if x >= n then 1 else 0) + CountAtLeast(xs, n)
  {
    if xs != [] && x < xs[0] {
      InsertKeepsCount(x, xs[1..], n);
    }
  }

  lemma {:induction false} InsertKeepsOrder(x: int, xs: seq<int>)
    requires Descending(xs)
    ensures Descending(InsertDescending(x, xs))
    ensures forall y :: y in InsertDescending(x, xs) ==> y == x || y in xs
  {
    if xs != [] && x < xs[0] {
      InsertKeepsOrder(x, xs[1..]);
      var r := InsertDescending(x, xs[1..]);
      forall j | 0 <= j < |r| ensures xs[0] >= r[j] {
        assert r[j] in r;
      }
    }
  }

  lemma {:induction false} SortKeepsCount(xs: seq<int>, n: int)
    ensures CountAtLeast(SortDescending(xs), n) == CountAtLeast(xs, n)
    ensures Descending(SortDescending(xs))
  {
    if xs != [] {
      SortKeepsCount(xs[1..], n);
      InsertKeepsCount(xs[0], SortDescending(xs[1..]), n);
      InsertKeepsOrder(xs[0], SortDescending(xs[1..]));
    }
  }

  lemma {:induction false} KthLargest(xs: seq<int>, k: nat, n: int)
    requires Descending(xs) && 1 <= k <= |xs|
    ensures CountAtLeast(xs, n) >= k <==> xs[k - 1] >= n
  {
    if xs[0] < n {
      NoneAtLeast(xs, n);
    } else if k > 1 {
      KthLargest(xs[1..], k - 1, n);
    }
  }

  lemma {:induction false} NoneAtLeast(xs: seq<int>, n: int)
    requires forall i :: 0 <= i < |xs| ==> xs[i] < n
    ensures CountAtLeast(xs, n) == 0
  {
    if xs != [] {
      NoneAtLeast(xs[1..], n);
    }
  }

  function MatchingPeers(peers: seq<NodeId>, m: map<NodeId, int>, n: int): set<NodeId> {
    set p | p in peers && Get(m, p, 0) >= n
  }

  /** The members whose log is known to reach index `n`: the leader and its matching peers. */
  function Matchers(s: Node, n: int): set<NodeId> {
    (if |s.log| >= n then {s.id} else {}) + MatchingPeers(s.peers, s.matchIndex, n)
  }

  lemma MatchingPeersStep(peers: seq<NodeId>, m: map<NodeId, int>, n: int)
    requires NoDuplicates(peers) && peers != []
    ensures var rest := MatchingPeers(peers[1..], m, n);
            && peers[0] !in rest
            && MatchingPeers(peers, m, n) == if Get(m, peers[0], 0) >= n then {peers[0]} + rest else rest
  {
    assert forall p :: p in peers <==> p == peers[0] || p in peers[1..];
  }

  lemma {:induction false} CountPeers(peers: seq<NodeId>, m: map<NodeId, int>, n: int)
    requires NoDuplicates(peers)
    ensures CountAtLeast(PeerMatches(peers, m), n) == |MatchingPeers(peers, m, n)|
  {
    if peers != [] {
      MatchingPeersStep(peers, m, n);
      CountPeers(peers[1..], m, n);
    }
  }

  /** A majority has matched `n` exactly when `n` is at most the index the sort picks. */
  lemma SortPicksMajority(s: Node, n: int)
    requires NoDuplicates(s.peers) && s.id !in s.peers
    ensures |Matchers(s, n)| >= Majority(s) <==> n <= MajorityMatch(s)
  {
    var xs := MatchIndexes(s);
    CountPeers(s.peers, s.matchIndex, n);
    assert xs[1..] == PeerMatches(s.peers, s.matchIndex);
    assert s.id !in MatchingPeers(s.peers, s.matchIndex, n);
    SortKeepsCount(xs, n);
    KthLargest(SortDescending(xs), Majority(s), n);
  }

  /** Figure 2's condition on an index N. */
  ghost predicate MayCommit(s: Node, n: int) {
    s.commitIndex < n <= |s.log| && |Matchers(s, n)| >= Majority(s) && s.log[n - 1].term == s.term
  }

  ghost predicate SoundMatches(s: Node) {
    && NoDuplicates(s.peers) && s.id !in s.peers
    && Sorted(s.log) && TermsAtMost(s.log, s.term)
    && forall p :: p in s.peers ==> Get(s.matchIndex, p, 0) <= |s.log|
  }

  /** The sort-and-pick computation commits exactly the largest index that Figure 2 allows,
      and leaves the node untouched exactly when there is none. */
  lemma SortAndPickIsFigure2(s: Node)
    requires SoundMatches(s)
    ensures (exists n :: MayCommit(s, n)) ==>
              var c := AdvanceCommitIndex(s).commitIndex;
              MayCommit(s, c) && forall n :: MayCommit(s, n) ==> n <= c
    ensures (forall n :: !MayCommit(s, n)) <==> AdvanceCommitIndex(s) == s
  {
    var top := MajorityMatch(s);
    SortPicksMajority(s, top);
    TopIsInLog(s);
    assert MayCommit(s, top) <==> AdvanceCommitIndex(s) != s;
    forall n | MayCommit(s, n)
      ensures MayCommit(s, top) && n <= top
    {
      SortPicksMajority(s, n);
      assert s.log[n - 1].term <= s.log[top - 1].term <= s.term;
    }
  }

  lemma TopIsInLog(s: Node)
    requires SoundMatches(s)
    ensures MajorityMatch(s) <= |s.log|
  {
    var n := |s.log| + 1;
    SortPicksMajority(s, n);
    assert Matchers(s, n) == {};
  }
}

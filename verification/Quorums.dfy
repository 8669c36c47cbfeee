/** Majorities of one membership meet, and a node that counts its peers counts the membership. */
module RaftQuorums {
  import opened RaftTypes
  import opened RaftStep
  import opened RaftHistory

  lemma QuorumsMeet(members: set<NodeId>, a: set<NodeId>, b: set<NodeId>) returns (v: NodeId)
    requires IsQuorum(members, a) && IsQuorum(members, b)
    ensures v in a && v in b
  {
    if a * b == {} {
      assert |a + b| == |a| + |b|;
      SubsetSize(a + b, members);
    }
    v :| v in a * b;
  }

  lemma {:induction false} SubsetSize<T>(a: set<T>, b: set<T>)
    requires a <= b
    ensures |a| <= |b|
  {
    if a != {} {
      var x :| x in a;
      SubsetSize(a - {x}, b - {x});
    }
  }

  lemma {:induction false} DistinctSize(s: seq<NodeId>)
    requires NoDuplicates(s)
    ensures |set p | p in s| == |s|
  {
    if s != [] {
      var front, last := s[..|s| - 1], s[|s| - 1];
      DistinctSize(front);
      assert (set p | p in s) == (set p | p in front) + {last};
      assert last !in front;
    }
  }

  lemma MajorityIsQuorum(members: set<NodeId>, s: Node, q: set<NodeId>)
    requires Configured(members, s) && q <= members
    ensures |members| == |s.peers| + 1
    ensures IsQuorum(members, q) <==> |q| >= Majority(s)
  {
    DistinctSize(s.peers);
    assert s.id !in (set p | p in s.peers);
  }
}

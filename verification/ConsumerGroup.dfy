/** Consumer-group membership and the round-robin assignment of partitions to members. */
module ConsumerGroups {
  import opened Wrappers

  // ---- the order in which Python sorts strings ----

  predicate Precedes(a: string, b: string) {
    if a == [] then b != []
    else if b == [] then false
    else a[0] < b[0] || (a[0] == b[0] && Precedes(a[1..], b[1..]))
  }

  lemma {:induction false} PrecedesIsStrict(a: string)
    ensures !Precedes(a, a)
  {
    if a != [] {
      PrecedesIsStrict(a[1..]);
    }
  }

  lemma {:induction false} PrecedesIsTotal(a: string, b: string)
    ensures a == b || Precedes(a, b) || Precedes(b, a)
  {
    if a != [] && b != [] && a[0] == b[0] {
      PrecedesIsTotal(a[1..], b[1..]);
      assert a[1..] == b[1..] ==> a == [a[0]] + a[1..] == b;
    }
  }

  lemma {:induction false} PrecedesIsTransitive(a: string, b: string, c: string)
    requires Precedes(a, b) && Precedes(b, c)
    ensures Precedes(a, c)
  {
    if a != [] && a[0] == b[0] && b[0] == c[0] {
      PrecedesIsTransitive(a[1..], b[1..], c[1..]);
    }
  }

  ghost predicate IsFirst(m: string, s: set<string>) {
    m in s && forall x :: x in s && x != m ==> Precedes(m, x)
  }

  ghost predicate Ascending(ids: seq<string>) {
    forall i, j :: 0 <= i < j < |ids| ==> Precedes(ids[i], ids[j])
  }

  /** Sorted without repetition, and the members of `s`. */
  ghost predicate SortedIds(ids: seq<string>, s: set<string>) {
    Ascending(ids) && (forall x :: x in ids <==> x in s)
  }

  /** The loop that Python's `sorted` stands for: repeatedly take the first. */
  method Sorted(s: set<string>) returns (ids: seq<string>)
    ensures SortedIds(ids, s)
  {
    ids := [];
    var rest := s;
    while rest != {}
      invariant rest <= s && Ascending(ids) && (forall x :: x in ids <==> x in s && x !in rest)
      invariant forall i, x :: 0 <= i < |ids| && x in rest ==> Precedes(ids[i], x)
      decreases |rest|
    {
      var m := First(rest);
      ids := ids + [m];
      rest := rest - {m};
    }
  }

  method First(s: set<string>) returns (m: string)
    requires s != {}
    ensures IsFirst(m, s)
  {
    m :| m in s;
    var others := s - {m};
    while others != {}
      invariant others <= s && m in s && m !in others
      invariant forall x :: x in s && x !in others && x != m ==> Precedes(m, x)
      decreases |others|
    {
      var x :| x in others;
      PrecedesIsTotal(m, x);
      if Precedes(x, m) {
        forall y | y in s && y !in others && y != m ensures Precedes(x, y) {
          PrecedesIsTransitive(x, m, y);
        }
        m := x;
      }
      others := others - {x};
    }
  }

  /** The sorted order of a set of members is unique, so the assignment is deterministic. */
  lemma {:induction false} SortedIdsAreUnique(a: seq<string>, b: seq<string>, s: set<string>)
    requires SortedIds(a, s) && SortedIds(b, s)
    ensures a == b
    decreases |s|
  {
    if s == {} {
      NobodyToSort(a);
      NobodyToSort(b);
    } else {
      FirstIsHead(a, s);
      FirstIsHead(b, s);
      PrecedesBothWays(a[0], b[0]);
      TailIsSorted(a, s);
      TailIsSorted(b, s);
      SortedIdsAreUnique(a[1..], b[1..], s - {a[0]});
      assert a == [a[0]] + a[1..] && b == [b[0]] + b[1..];
    }
  }

  lemma NobodyToSort(ids: seq<string>)
    requires SortedIds(ids, {})
    ensures ids == []
  {
    if ids != [] {
      HeadIsMember(ids);
      assert false;
    }
  }

  lemma HeadIsMember(ids: seq<string>)
    requires ids != []
    ensures ids[0] in ids
  {
  }

  lemma FirstIsHead(a: seq<string>, s: set<string>)
    requires SortedIds(a, s) && s != {}
    ensures a != [] && IsFirst(a[0], s)
  {
    var x :| x in s;
    assert x in a;
    forall y | y in s && y != a[0] ensures Precedes(a[0], y) {
      assert y in a;
    }
    assert a[0] in a;
  }

  lemma PrecedesBothWays(a: string, b: string)
    requires (a != b ==> Precedes(a, b)) && (a != b ==> Precedes(b, a))
    ensures a == b
  {
    if a != b {
      PrecedesIsTransitive(a, b, a);
      PrecedesIsStrict(a);
    }
  }

  lemma TailIsSorted(a: seq<string>, s: set<string>)
    requires SortedIds(a, s) && a != []
    ensures SortedIds(a[1..], s - {a[0]})
  {
    PrecedesIsStrict(a[0]);
    forall x ensures x in a[1..] <==> x in s - {a[0]} {
      if x in a[1..] {
        var i :| 0 <= i < |a[1..]| && a[1..][i] == x;
        assert Precedes(a[0], a[i + 1]) && x in a;
      }
      if x in s - {a[0]} {
        assert x in a;
      }
    }
  }

  // ---- dealing out partitions ----

  /** The assignment after dealing partitions 0..n-1 round-robin over `ids`. */
  function Deal(ids: seq<string>, n: nat): map<string, seq<nat>> {
    if n == 0 || ids == [] then map id | id in ids :: []
    else
      var before := Deal(ids, n - 1);
      var owner := ids[(n - 1) % |ids|];
      before[owner := Get(before, owner, []) + [n - 1]]
  }

  lemma DivModStep(n: nat, m: nat)
    requires m > 0
    ensures (n + 1) / m == if n % m == m - 1 then n / m + 1 else n / m
    ensures (n + 1) % m == if n % m == m - 1 then 0 else n % m + 1
  {
    var q, r := n / m, n % m;
    assert n == q * m + r;
    if r == m - 1 {
      assert n + 1 == (q + 1) * m;
      QuotientIsUnique(n + 1, m, q + 1, 0);
    } else {
      QuotientIsUnique(n + 1, m, q, r + 1);
    }
  }

  lemma {:induction false} ProductGrows(a: nat, b: nat, m: nat)
    requires a < b
    ensures a * m + m <= b * m
  {
    assert b * m == (b - 1) * m + m;
    if a < b - 1 {
      ProductGrows(a, b - 1, m);
    }
  }

  lemma QuotientIsUnique(n: nat, m: nat, q: nat, r: nat)
    requires m > 0 && n == q * m + r && r < m
    ensures n / m == q && n % m == r
  {
    var q', r' := n / m, n % m;
    assert n == q' * m + r';
    if q < q' {
      ProductGrows(q, q', m);
    } else if q > q' {
      ProductGrows(q', q, m);
    }
  }

  ghost predicate Distinct(ids: seq<string>) {
    forall i, j :: 0 <= i < j < |ids| ==> ids[i] != ids[j]
  }

  /** Member k holds exactly the partitions congruent to k, in order and each once; its share
      is the even share, plus one for the first members when it does not divide evenly. */
  lemma {:induction false} DealtShare(ids: seq<string>, n: nat, k: nat)
    requires Distinct(ids) && k < |ids|
    ensures Deal(ids, n).Keys == (set id | id in ids)
    ensures forall p: nat :: p in Deal(ids, n)[ids[k]] <==> p < n && p % |ids| == k
    ensures forall i, j :: 0 <= i < j < |Deal(ids, n)[ids[k]]| ==> Deal(ids, n)[ids[k]][i] < Deal(ids, n)[ids[k]][j]
    ensures |Deal(ids, n)[ids[k]]| == n / |ids| + (if k < n % |ids| then 1 else 0)
  {
    if n > 0 {
      DealtShare(ids, n - 1, k);
      DivModStep(n - 1, |ids|);
      var mine := Deal(ids, n - 1)[ids[k]];
      if (n - 1) % |ids| == k {
        assert Deal(ids, n)[ids[k]] == mine + [n - 1];
        forall i | 0 <= i < |mine| ensures mine[i] < n - 1 {
          assert mine[i] in mine;
        }
      } else {
        assert ids[(n - 1) % |ids|] != ids[k];
      }
    }
  }

  lemma AscendingIsDistinct(ids: seq<string>)
    requires Ascending(ids)
    ensures Distinct(ids)
  {
    forall i, j | 0 <= i < j < |ids| ensures ids[i] != ids[j] {
      PrecedesIsStrict(ids[i]);
    }
  }

  ghost predicate Owned(assignment: map<string, seq<nat>>, p: nat) {
    exists m :: m in assignment && p in assignment[m]
  }

  /** What an assignment of partitions 0..n-1 to members owes: every partition has exactly one
      owner and appears once in its list, only members own anything, and shares differ by at
      most one. */
  ghost predicate Balanced(assignment: map<string, seq<nat>>, members: set<string>, n: nat) {
    && assignment.Keys == members
    && (forall p :: 0 <= p < n ==> Owned(assignment, p))
    && (forall p, a, b :: a in members && b in members && p in assignment[a] && p in assignment[b] ==> a == b)
    && (forall m, p :: m in members && p in assignment[m] ==> p < n)
    && (forall m, i, j :: m in members && 0 <= i < j < |assignment[m]| ==> assignment[m][i] < assignment[m][j])
    && (forall a, b :: a in members && b in members ==> |assignment[a]| <= |assignment[b]| + 1)
  }

  lemma RoundRobinIsBalanced(ids: seq<string>, members: set<string>, n: nat)
    requires SortedIds(ids, members) && members != {}
    ensures Balanced(Deal(ids, n), members, n)
  {
    AscendingIsDistinct(ids);
    var x :| x in members;
    assert x in ids;
    var deal := Deal(ids, n);
    forall k | 0 <= k < |ids| ensures
      && deal.Keys == (set id | id in ids)
      && (forall p: nat :: p in deal[ids[k]] <==> p < n && p % |ids| == k)
      && (forall i, j :: 0 <= i < j < |deal[ids[k]]| ==> deal[ids[k]][i] < deal[ids[k]][j])
      && n / |ids| <= |deal[ids[k]]| <= n / |ids| + 1
    {
      DealtShare(ids, n, k);
    }
    assert deal.Keys == members;
    forall p | 0 <= p < n ensures Owned(deal, p) {
      assert ids[p % |ids|] in ids && p in deal[ids[p % |ids|]];
    }
  }

  /** The ids of `order` that are in `keep`, in that order. */
  function Select(order: seq<string>, keep: set<string>): seq<string> {
    if order == [] then []
    else
      var last := order[|order| - 1];
      Select(order[..|order| - 1], keep) + (if last in keep then [last] else [])
  }

  lemma {:induction false} SelectMembers(order: seq<string>, keep: set<string>)
    requires Distinct(order)
    ensures Distinct(Select(order, keep))
    ensures forall m :: m in Select(order, keep) <==> m in order && m in keep
  {
    if order != [] {
      var front, last := order[..|order| - 1], order[|order| - 1];
      SelectMembers(front, keep);
      assert order == front + [last] && last !in front;
      var s := Select(front, keep);
      assert forall i :: 0 <= i < |s| ==> s[i] in s;
    }
  }

  class ConsumerGroup {
    const numPartitions: nat
    const sessionTimeout: real
    var members: map<string, real>  // member id -> its last heartbeat
    var order: seq<string>          // the members in the order of the dictionary
    var assignment: map<string, seq<nat>>

    /** After any history of joins, leaves, heartbeats and expiries the assignment is balanced
        over the current members; a group without members assigns nothing. */
    ghost predicate Valid()
      reads this
    {
      && Distinct(order) && (forall m :: m in order <==> m in members)
      && if members == map[] then assignment == map[] else Balanced(assignment, members.Keys, numPartitions)
    }

    constructor (numPartitions: nat, sessionTimeout: real)
      requires numPartitions > 0
      ensures Valid() && this.numPartitions == numPartitions && this.sessionTimeout == sessionTimeout
      ensures members == map[] && order == []
    {
      this.numPartitions, this.sessionTimeout := numPartitions, sessionTimeout;
      members, order, assignment := map[], [], map[];
    }

    /** Deals the partitions out in turn, one at a time. */
    method DealOut(ids: seq<string>) returns (dealt: map<string, seq<nat>>)
      ensures dealt == Deal(ids, numPartitions)
    {
      dealt := map id | id in ids :: [];
      var partition := 0;
      while partition < numPartitions && ids != []
        invariant 0 <= partition <= numPartitions
        invariant dealt == Deal(ids, if ids == [] then 0 else partition)
        invariant dealt.Keys == (set id | id in ids)
      {
        var owner := ids[partition % |ids|];
        dealt := dealt[owner := dealt[owner] + [partition]];
        partition := partition + 1;
      }
    }

    method Rebalance()
      requires Distinct(order) && forall m :: m in order <==> m in members
      modifies this`assignment
      ensures Valid()
      ensures forall ids :: SortedIds(ids, members.Keys) ==> assignment == Deal(ids, numPartitions)
    {
      hide Balanced, SortedIds, Deal;
      var ids := Sorted(members.Keys);
      assignment := DealOut(ids);
      RebalancedIsValid(ids, members.Keys, numPartitions);
      forall other | SortedIds(other, members.Keys) ensures assignment == Deal(other, numPartitions) {
        SortedIdsAreUnique(ids, other, members.Keys);
      }
    }

    method Join(member: string, now: real) returns (mine: seq<nat>)
      requires Valid()
      modifies this
      ensures Valid() && members == old(members)[member := now]
      ensures order == if member in old(members) then old(order) else old(order) + [member]
      ensures member in assignment && mine == assignment[member]
    {
      if member !in members {
        order := order + [member];
      }
      members := members[member := now];
      assert member in members;
      Rebalance();
      mine := assignment[member];
    }

    /** Refuses an unknown member. */
    method Heartbeat(member: string, now: real) returns (known: bool)
      requires Valid()
      modifies this`members
      ensures Valid() && known == (member in old(members))
      ensures members == if known then old(members)[member := now] else old(members)
    {
      known := member in members;
      if known {
        var keys := members.Keys;
        members := members[member := now];
        assert members.Keys == keys;
      }
    }

    /** Takes members out of the dictionary and deals the partitions out again. */
    method Remove(gone: set<string>)
      requires Valid()
      modifies this
      ensures Valid() && members == old(members) - gone && order == Select(old(order), members.Keys)
    {
      hide Balanced, Select;
      members := members - gone;
      SelectMembers(order, members.Keys);
      order := Select(order, members.Keys);
      Rebalance();
    }

    method Leave(member: string)
      requires Valid()
      modifies this
      ensures Valid() && members == old(members) - {member}
      ensures order == if member in old(members) then Select(old(order), members.Keys) else old(order)
    {
      if member in members {
        Remove({member});
      } else {
        assert members - {member} == members;
      }
    }

    method AssignmentFor(member: string) returns (mine: seq<nat>)
      ensures mine == Get(assignment, member, [])
    {
      mine := if member in assignment then assignment[member] else [];
    }

    /** The members whose last heartbeat is older than the session timeout. */
    ghost function Silent(now: real): set<string>
      reads this
    {
      set m | m in members && now - members[m] > sessionTimeout
    }

    /** The same, in the order of the dictionary. */
    method SilentMembers(now: real) returns (silent: seq<string>)
      requires Valid()
      ensures silent == Select(order, Silent(now))
    {
      silent := [];
      for i := 0 to |order|
        invariant silent == Select(order[..i], Silent(now))
      {
        assert order[i] in order && order[..i + 1][..i] == order[..i];
        if now - members[order[i]] > sessionTimeout {
          silent := silent + [order[i]];
        }
      }
      assert order[..|order|] == order;
    }

    /** Evicts exactly the silent members and returns them in the order of the dictionary. */
    method CheckExpiredMembers(now: real) returns (expired: seq<string>)
      requires Valid()
      modifies this
      ensures Valid() && members == old(members) - old(Silent(now))
      ensures expired == Select(old(order), old(Silent(now)))
      ensures forall m :: m in expired <==> m in old(Silent(now))
      ensures order == Select(old(order), members.Keys)
    {
      hide Balanced, Select;
      expired := SilentMembers(now);
      ghost var silent := Silent(now);
      SelectMembers(order, silent);
      if expired != [] {
        assert (set m | m in expired) == silent;
        Remove(set m | m in expired);
      } else {
        assert silent == {};
        assert members - silent == members;
        SelectAll(order, members.Keys);
      }
    }
  }

  lemma {:induction false} SelectAll(order: seq<string>, keep: set<string>)
    requires forall m :: m in order ==> m in keep
    ensures Select(order, keep) == order
  {
    if order != [] {
      SelectAll(order[..|order| - 1], keep);
    }
  }

  lemma RebalancedIsValid(ids: seq<string>, members: set<string>, n: nat)
    requires SortedIds(ids, members)
    ensures if members == {} then ids == [] && Deal(ids, n) == map[] else Balanced(Deal(ids, n), members, n)
  {
    if members == {} {
      NobodyToSort(ids);
    } else {
      RoundRobinIsBalanced(ids, members, n);
    }
  }

  /** The order is the usual one of strings: a proper prefix comes first, and otherwise the first
      difference decides. */
  lemma {:induction false} PrecedesIsLexicographic(a: string, b: string)
    ensures Precedes(a, b) <==> (a < b || exists k :: DiffersFirst(a, b, k) && a[k] < b[k])
  {
    if a != [] && b != [] {
      if a[0] == b[0] {
        PrecedesIsLexicographic(a[1..], b[1..]);
        assert a < b <==> a[1..] < b[1..];
        forall k | DiffersFirst(a, b, k) ensures DiffersFirst(a[1..], b[1..], k - 1) {
          assert forall j :: 0 <= j < k - 1 ==> a[1..][j] == a[j + 1] == b[j + 1] == b[1..][j];
        }
        forall k | DiffersFirst(a[1..], b[1..], k) ensures DiffersFirst(a, b, k + 1) {
          assert forall j :: 0 < j < k + 1 ==> a[j] == a[1..][j - 1] == b[1..][j - 1] == b[j];
        }
      } else {
        assert DiffersFirst(a, b, 0);
      }
    }
  }

  ghost predicate DiffersFirst(a: string, b: string, k: int) {
    0 <= k < |a| && k < |b| && a[k] != b[k] && forall j :: 0 <= j < k ==> a[j] == b[j]
  }
}

/** The fraud scorer's sliding velocity window: per account, old arrivals are evicted from
    the front of a queue as new ones come in. */
module VelocityWindow {
  import opened Wrappers

  datatype Arrival = Arrival(account: string, time: real)

  /** The window after dropping leading arrivals older than the cutoff. */
  function DropStale(window: seq<real>, cutoff: real): seq<real> {
    if window != [] && window[0] < cutoff then DropStale(window[1..], cutoff) else window
  }

  class RuleBasedScorer {
    const velocityWindow: real
    var recentByAccount: map<string, seq<real>>
    ghost var history: seq<Arrival>  // every arrival ever recorded

    function Window(account: string): seq<real>
      reads this
    {
      Get(recentByAccount, account, [])
    }

    ghost predicate Valid()
      reads this
    {
      forall a :: Window(a) == WindowAfter(history, a, velocityWindow)
    }

    constructor (velocityWindow: real)
      ensures Valid() && this.velocityWindow == velocityWindow && history == []
    {
      this.velocityWindow := velocityWindow;
      recentByAccount := map[];
      history := [];
    }

    /** Records an arrival and returns how many arrivals the account's window then holds: all
        of the account's recent arrivals, if the clock never went back between them. */
    method RecordAndCount(account: string, now: real) returns (count: nat)
      requires Valid()
      modifies this
      ensures Valid() && history == old(history) + [Arrival(account, now)]
      ensures count == |WindowAfter(history, account, velocityWindow)|
      ensures InOrder(history, account) ==> count == |Recent(history, account, now - velocityWindow)|
    {
      hide InOrder, Recent;
      var window := Window(account) + [now];
      var cutoff := now - velocityWindow;
      ghost var all := window;
      while window != [] && window[0] < cutoff
        invariant DropStale(all, cutoff) == DropStale(window, cutoff)
      {
        window := window[1..];
      }
      recentByAccount := recentByAccount[account := window];
      history := history + [Arrival(account, now)];
      assert history[..|history| - 1] == old(history);
      forall a ensures Window(a) == WindowAfter(history, a, velocityWindow) {
        assert Get(old(recentByAccount), a, []) == WindowAfter(old(history), a, velocityWindow);
      }
      count := |window|;
      if InOrder(history, account) {
        EvictingCountIsExact(history, velocityWindow);
      }
    }
  }

  // ---- against the full history ----

  /** The window of account `a` after a whole history of arrivals. */
  function WindowAfter(history: seq<Arrival>, a: string, width: real): seq<real> {
    if history == [] then []
    else
      var front, last := history[..|history| - 1], history[|history| - 1];
      if last.account == a then DropStale(WindowAfter(front, a, width) + [last.time], last.time - width)
      else WindowAfter(front, a, width)
  }

  /** Every arrival of account `a` that is no older than the cutoff, nothing ever evicted. */
  function Recent(history: seq<Arrival>, a: string, cutoff: real): seq<real> {
    if history == [] then []
    else
      var last := history[|history| - 1];
      Recent(history[..|history| - 1], a, cutoff) +
      (if last.account == a && last.time >= cutoff then [last.time] else [])
  }

  /** The clock never went back between two arrivals of account `a`. */
  ghost predicate InOrder(history: seq<Arrival>, a: string) {
    forall i, j :: 0 <= i <= j < |history| && history[i].account == a && history[j].account == a ==>
      history[i].time <= history[j].time
  }

  // ---- one account's arrival times ----

  function Times(history: seq<Arrival>, a: string): seq<real> {
    if history == [] then []
    else
      var last := history[|history| - 1];
      Times(history[..|history| - 1], a) + (if last.account == a then [last.time] else [])
  }

  function WindowOf(ts: seq<real>, width: real): seq<real> {
    if ts == [] then [] else DropStale(WindowOf(ts[..|ts| - 1], width) + [ts[|ts| - 1]], ts[|ts| - 1] - width)
  }

  function RecentOf(ts: seq<real>, cutoff: real): seq<real> {
    if ts == [] then []
    else RecentOf(ts[..|ts| - 1], cutoff) + (if ts[|ts| - 1] >= cutoff then [ts[|ts| - 1]] else [])
  }

  ghost predicate Ascending(ts: seq<real>) {
    forall i, j :: 0 <= i <= j < |ts| ==> ts[i] <= ts[j]
  }

  ghost predicate AtMost(ts: seq<real>, t: real) {
    forall i :: 0 <= i < |ts| ==> ts[i] <= t
  }

  lemma {:induction false} OneAccountSuffices(history: seq<Arrival>, a: string, width: real, cutoff: real)
    ensures WindowAfter(history, a, width) == WindowOf(Times(history, a), width)
    ensures Recent(history, a, cutoff) == RecentOf(Times(history, a), cutoff)
  {
    if history != [] {
      var front, last := history[..|history| - 1], history[|history| - 1];
      OneAccountSuffices(front, a, width, cutoff);
      var ts := Times(front, a);
      if last.account == a {
        assert (ts + [last.time])[..|ts|] == ts;
      } else {
        assert ts + [] == ts;
      }
    }
  }

  /** The times of an account ascend exactly when its arrivals are in order, and are bounded
      by `t` exactly when its arrivals are. */
  lemma {:induction false} TimesInOrder(history: seq<Arrival>, a: string, t: real)
    ensures Ascending(Times(history, a)) <==> InOrder(history, a)
    ensures AtMost(Times(history, a), t) <==> NoneLater(history, a, t)
  {
    if history != [] {
      var front, last := history[..|history| - 1], history[|history| - 1];
      assert history == front + [last];
      var ts := Times(front, a);
      TimesInOrder(front, a, t);
      TimesInOrder(front, a, last.time);
      assert InOrder(history, a) <==> InOrder(front, a) && (last.account == a ==> NoneLater(front, a, last.time)) by {
        OrderOfLast(front, last, a);
      }
      assert NoneLater(history, a, t) <==> NoneLater(front, a, t) && (last.account == a ==> last.time <= t) by {
        BoundOfLast(front, last, a, t);
      }
      if last.account == a {
        AscendingAppend(ts, last.time);
      } else {
        assert ts + [] == ts;
      }
    }
  }

  lemma OrderOfLast(front: seq<Arrival>, last: Arrival, a: string)
    ensures InOrder(front + [last], a) <==> InOrder(front, a) && (last.account == a ==> NoneLater(front, a, last.time))
  {
    var history := front + [last];
    assert forall i :: 0 <= i < |front| ==> history[i] == front[i];
    assert history[|front|] == last;
  }

  lemma BoundOfLast(front: seq<Arrival>, last: Arrival, a: string, t: real)
    ensures NoneLater(front + [last], a, t) <==> NoneLater(front, a, t) && (last.account == a ==> last.time <= t)
  {
    var history := front + [last];
    assert forall i :: 0 <= i < |front| ==> history[i] == front[i];
    assert history[|front|] == last;
  }

  lemma AscendingAppend(ts: seq<real>, t: real)
    ensures Ascending(ts + [t]) <==> Ascending(ts) && AtMost(ts, t)
    ensures forall u :: AtMost(ts + [t], u) <==> AtMost(ts, u) && t <= u
  {
    var all := ts + [t];
    assert forall i :: 0 <= i < |ts| ==> all[i] == ts[i];
    assert all[|ts|] == t;
  }

  // ---- what the window keeps ----

  /** A window only ever loses arrivals from its front, and none that is recent now, as long
      as no cutoff so far was later than now's. */
  lemma {:induction false} WindowIsSuffix(ts: seq<real>, width: real, cutoff: real) returns (dropped: nat)
    requires AtMost(ts, cutoff + width)
    ensures dropped <= |ts| && WindowOf(ts, width) == ts[dropped..]
    ensures forall k :: 0 <= k < dropped ==> ts[k] < cutoff
  {
    dropped := 0;
    if ts != [] {
      var front, last := ts[..|ts| - 1], ts[|ts| - 1];
      var m := WindowIsSuffix(front, width, cutoff);
      assert WindowOf(front, width) + [last] == ts[m..];
      assert last - width <= cutoff;
      var more := DropStaleIsSuffix(ts[m..], last - width);
      dropped := m + more;
      assert ts[m..][more..] == ts[dropped..];
      forall k | 0 <= k < dropped ensures ts[k] < cutoff {
        if k < m {
          assert front[k] == ts[k];
        } else {
          assert ts[m..][k - m] == ts[k];
        }
      }
    }
  }

  lemma {:induction false} DropStaleIsSuffix(window: seq<real>, cutoff: real) returns (dropped: nat)
    ensures dropped <= |window| && DropStale(window, cutoff) == window[dropped..]
    ensures forall k :: 0 <= k < dropped ==> window[k] < cutoff
  {
    dropped := 0;
    if window != [] && window[0] < cutoff {
      var more := DropStaleIsSuffix(window[1..], cutoff);
      dropped := more + 1;
      forall k | 0 < k < dropped ensures window[k] < cutoff {
        assert window[1..][k - 1] == window[k];
      }
    }
  }

  /** Stale arrivals are not counted, whether in front of the window or inside it. */
  lemma {:induction false} RecentIsFewer(ts: seq<real>, dropped: nat, cutoff: real, stale: nat)
    requires dropped <= stale < |ts| && ts[stale] < cutoff && forall k :: 0 <= k < dropped ==> ts[k] < cutoff
    ensures |RecentOf(ts, cutoff)| < |ts| - dropped
  {
    var front := ts[..|ts| - 1];
    if stale < |front| {
      RecentIsFewer(front, dropped, cutoff, stale);
    } else {
      RecentIsAtMost(front, dropped, cutoff);
    }
  }

  lemma {:induction false} RecentIsAtMost(ts: seq<real>, dropped: nat, cutoff: real)
    requires dropped <= |ts| && forall k :: 0 <= k < dropped ==> ts[k] < cutoff
    ensures |RecentOf(ts, cutoff)| <= |ts| - dropped
  {
    if ts != [] {
      RecentIsAtMost(ts[..|ts| - 1], if dropped == |ts| then dropped - 1 else dropped, cutoff);
    }
  }

  lemma {:induction false} AllRecent(ts: seq<real>, dropped: nat, cutoff: real)
    requires dropped <= |ts| && forall k :: 0 <= k < dropped ==> ts[k] < cutoff
    requires forall k :: dropped <= k < |ts| ==> ts[k] >= cutoff
    ensures |RecentOf(ts, cutoff)| == |ts| - dropped
  {
    if ts != [] {
      AllRecent(ts[..|ts| - 1], if dropped == |ts| then dropped - 1 else dropped, cutoff);
    }
  }

  lemma {:induction false} FrontIsRecent(window: seq<real>, cutoff: real)
    ensures var kept := DropStale(window, cutoff); kept == [] || kept[0] >= cutoff
  {
    if window != [] && window[0] < cutoff {
      FrontIsRecent(window[1..], cutoff);
    }
  }

  /** A stale arrival stands behind a recent one. */
  ghost predicate StaleBehindRecent(ts: seq<real>, cutoff: real) {
    exists i, j :: 0 <= i < j < |ts| && ts[i] >= cutoff && ts[j] < cutoff
  }

  /** If the last arrival is not itself late, the window never misses a recent arrival, and
      counts a stale one exactly when one stands behind a recent one. */
  lemma CountOf(ts: seq<real>, width: real)
    requires ts != [] && AtMost(ts, ts[|ts| - 1])
    ensures var cutoff := ts[|ts| - 1] - width;
            && |WindowOf(ts, width)| >= |RecentOf(ts, cutoff)|
            && (|WindowOf(ts, width)| == |RecentOf(ts, cutoff)| <==> !StaleBehindRecent(ts, cutoff))
  {
    var last := ts[|ts| - 1];
    var cutoff := last - width;
    var dropped := WindowIsSuffix(ts, width, cutoff);
    RecentIsAtMost(ts, dropped, cutoff);
    FrontIsRecent(WindowOf(ts[..|ts| - 1], width) + [last], cutoff);
    assert dropped < |ts| ==> ts[dropped] == ts[dropped..][0] >= cutoff;
    if StaleBehindRecent(ts, cutoff) {
      var i, j :| 0 <= i < j < |ts| && ts[i] >= cutoff && ts[j] < cutoff;
      RecentIsFewer(ts, dropped, cutoff, j);
    } else {
      AllRecent(ts, dropped, cutoff);
    }
  }

  // ---- exactly when ----

  /** The evicting window agrees with the full history: if the clock never went back between
      arrivals of the last arrival's account, the count returned for it is the number of all
      arrivals of that account, ever, that are no older than the window. */
  lemma EvictingCountIsExact(history: seq<Arrival>, width: real)
    requires history != [] && InOrder(history, history[|history| - 1].account)
    ensures var last := history[|history| - 1];
            |WindowAfter(history, last.account, width)| == |Recent(history, last.account, last.time - width)|
  {
    hide InOrder;
    var last := history[|history| - 1];
    OneAccountSuffices(history, last.account, width, last.time - width);
    TimesInOrder(history, last.account, last.time);
    CountOf(Times(history, last.account), width);
  }

  ghost predicate NoneLater(history: seq<Arrival>, a: string, t: real) {
    forall i :: 0 <= i < |history| && history[i].account == a ==> history[i].time <= t
  }

  /** After `history`, the count returned for an arrival of `a` at `t` is the right one. */
  ghost predicate CountIsRight(history: seq<Arrival>, a: string, t: real, width: real) {
    var all := history + [Arrival(a, t)];
    |WindowAfter(all, a, width)| == |Recent(all, a, t - width)|
  }

  /** Two arrivals of account `a`: a recent one, and after it one that is stale already. */
  ghost predicate Overtaken(history: seq<Arrival>, a: string, cutoff: real) {
    exists i, j :: 0 <= i < j < |history| && history[i].account == a && history[j].account == a &&
                   history[i].time >= cutoff && history[j].time < cutoff
  }

  lemma {:induction false} OvertakenTimes(history: seq<Arrival>, a: string, cutoff: real)
    ensures StaleBehindRecent(Times(history, a), cutoff) <==> Overtaken(history, a, cutoff)
    ensures (exists i :: 0 <= i < |Times(history, a)| && Times(history, a)[i] >= cutoff) <==>
              SomeRecent(history, a, cutoff)
  {
    if history != [] {
      var front, last := history[..|history| - 1], history[|history| - 1];
      assert history == front + [last];
      OvertakenTimes(front, a, cutoff);
      OvertakenAppend(front, last, a, cutoff);
      if last.account == a {
        StaleAppend(Times(front, a), last.time, cutoff);
      } else {
        assert Times(front, a) + [] == Times(front, a);
      }
    }
  }

  ghost predicate SomeRecent(history: seq<Arrival>, a: string, cutoff: real) {
    exists i :: 0 <= i < |history| && history[i].account == a && history[i].time >= cutoff
  }

  lemma OvertakenAppend(front: seq<Arrival>, last: Arrival, a: string, cutoff: real)
    ensures Overtaken(front + [last], a, cutoff) <==>
            Overtaken(front, a, cutoff) || (last.account == a && last.time < cutoff && SomeRecent(front, a, cutoff))
    ensures SomeRecent(front + [last], a, cutoff) <==>
            SomeRecent(front, a, cutoff) || (last.account == a && last.time >= cutoff)
  {
    var all := front + [last];
    assert forall i :: 0 <= i < |front| ==> all[i] == front[i];
    assert all[|front|] == last;
  }

  lemma StaleAppend(ts: seq<real>, t: real, cutoff: real)
    ensures StaleBehindRecent(ts + [t], cutoff) <==>
            StaleBehindRecent(ts, cutoff) || (t < cutoff && exists i :: 0 <= i < |ts| && ts[i] >= cutoff)
    ensures (exists i :: 0 <= i < |ts + [t]| && (ts + [t])[i] >= cutoff) <==>
            (t >= cutoff || exists i :: 0 <= i < |ts| && ts[i] >= cutoff)
  {
    var all := ts + [t];
    assert forall i :: 0 <= i < |ts| ==> all[i] == ts[i];
    assert all[|ts|] == t;
  }

  /** The exact condition for one width and one arrival that is not itself late: the count is
      right if and only if no arrival of the account that is stale by now came after one that
      is not.  It is never too low. */
  lemma CountIsRightExactly(history: seq<Arrival>, a: string, t: real, width: real)
    requires NoneLater(history, a, t)
    ensures CountIsRight(history, a, t, width) <==> !Overtaken(history, a, t - width)
    ensures var all := history + [Arrival(a, t)]; |WindowAfter(all, a, width)| >= |Recent(all, a, t - width)|
  {
    hide InOrder, Ascending;
    var all, cutoff := history + [Arrival(a, t)], t - width;
    assert all[..|all| - 1] == history;
    OneAccountSuffices(all, a, width, cutoff);
    TimesInOrder(history, a, t);
    AscendingAppend(Times(history, a), t);
    CountOf(Times(all, a), width);
    OvertakenTimes(all, a, cutoff);
    OvertakenAppend(history, Arrival(a, t), a, cutoff);
  }

  /** So the next count of an account is right for every width and every arrival that is not
      itself late, if and only if the clock never went back between the account's arrivals. */
  lemma CountIsRightExactlyInOrder(history: seq<Arrival>, a: string)
    ensures InOrder(history, a) <==> forall t, width :: NoneLater(history, a, t) ==> CountIsRight(history, a, t, width)
  {
    hide CountIsRight, NoneLater;
    if InOrder(history, a) {
      forall t, width | NoneLater(history, a, t) ensures CountIsRight(history, a, t, width) {
        CountIsRightExactly(history, a, t, width);
      }
    } else {
      var i, j :| 0 <= i <= j < |history| && history[i].account == a && history[j].account == a &&
                  history[i].time > history[j].time;
      var t := Latest(Times(history, a));
      TimesInOrder(history, a, t);
      CountIsRightExactly(history, a, t, t - history[i].time);
      assert Overtaken(history, a, t - (t - history[i].time));
    }
  }

  lemma {:induction false} Latest(ts: seq<real>) returns (t: real)
    ensures AtMost(ts, t)
  {
    t := 0.0;
    if ts != [] {
      var rest := Latest(ts[..|ts| - 1]);
      t := if ts[|ts| - 1] > rest then ts[|ts| - 1] else rest;
    }
  }

  /** A concrete wrong count: a stale arrival behind a fresh one is not evicted. */
  lemma BackwardClockOvercounts(a: string)
    ensures var history := [Arrival(a, 100.0), Arrival(a, 0.0), Arrival(a, 110.0)];
            |WindowAfter(history, a, 60.0)| == 3 && |Recent(history, a, 110.0 - 60.0)| == 2
  {
    var h1, h2 := [Arrival(a, 100.0)], [Arrival(a, 100.0), Arrival(a, 0.0)];
    var h3 := [Arrival(a, 100.0), Arrival(a, 0.0), Arrival(a, 110.0)];
    assert h3[..2] == h2 && h2[..1] == h1 && h1[..0] == [];
    assert WindowAfter(h1, a, 60.0) == [100.0];
    assert WindowAfter(h2, a, 60.0) == [100.0, 0.0];
    assert WindowAfter(h3, a, 60.0) == [100.0, 0.0, 110.0];
    assert Recent(h1, a, 50.0) == [100.0];
    assert Recent(h2, a, 50.0) == [100.0];
  }

  /** An arrival that is itself late can be counted too low: what it should count may have been
      evicted by a later one. */
  lemma LateArrivalUndercounts(a: string)
    ensures var history := [Arrival(a, 0.0), Arrival(a, 100.0), Arrival(a, 50.0)];
            |WindowAfter(history, a, 60.0)| == 2 && |Recent(history, a, 50.0 - 60.0)| == 3
  {
    var h1, h2 := [Arrival(a, 0.0)], [Arrival(a, 0.0), Arrival(a, 100.0)];
    var h3 := [Arrival(a, 0.0), Arrival(a, 100.0), Arrival(a, 50.0)];
    assert h3[..2] == h2 && h2[..1] == h1 && h1[..0] == [];
    assert WindowAfter(h1, a, 60.0) == [0.0];
    assert WindowAfter(h2, a, 60.0) == DropStale([0.0, 100.0], 40.0);
    assert [0.0, 100.0][1..] == [100.0];
    assert WindowAfter(h2, a, 60.0) == [100.0];
    assert WindowAfter(h3, a, 60.0) == [100.0, 50.0];
    assert Recent(h1, a, -10.0) == [0.0];
    assert Recent(h2, a, -10.0) == [0.0, 100.0];
  }
}

/** Applying committed entries: whatever a node replays, its ledger stays the fold of a
    committed prefix. */
module RaftApply {
  import opened Wrappers
  import opened LedgerModel
  import opened LedgerProofs
  import opened RaftLog
  import opened RaftStep
  import opened RaftHistory
  import opened RaftActions

  lemma CommandsSplit(a: Log, b: Log)
    ensures Commands(a + b) == Commands(a) + Commands(b)
  {
  }

  /** Replaying part of an applied prefix. */
  lemma ReplayedPartChangesNothing(initial: Ledger, applied: Log, part: Log)
    requires forall e :: e in part ==> e in applied
    ensures Fold(Fold(initial, Commands(applied)), Commands(part)) == Fold(initial, Commands(applied))
  {
    FoldKeys(initial, Commands(applied));
    forall c | c in Commands(part) ensures c in Commands(applied) {
      var i :| 0 <= i < |part| && Commands(part)[i] == c;
      assert part[i] in applied;
      var j :| 0 <= j < |applied| && applied[j] == part[i];
      assert Commands(applied)[j] == c;
    }
    KnownEntriesChangeNothing(Fold(initial, Commands(applied)), Commands(part));
  }

  /** Over a ledger that has applied `log[..k]`, applying `log[from..upto]` gives the ledger
      that has applied the longer of the two prefixes. */
  lemma ReplayReaches(initial: Ledger, log: Log, k: nat, from: nat, upto: nat)
    requires from <= k <= |log| && from <= upto <= |log|
    ensures Fold(Fold(initial, Commands(log[..k])), Commands(log[from..upto])) ==
              Fold(initial, Commands(log[..Max(k, upto)]))
  {
    var q := Commands(log[..k]);
    if upto <= k {
      assert log[from..upto] == log[..k][from..upto];
      ReplayedPartChangesNothing(initial, log[..k], log[from..upto]);
    } else {
      assert log[from..upto] == log[from..k] + log[k..upto];
      assert log[..upto] == log[..k] + log[k..upto];
      CommandsSplit(log[from..k], log[k..upto]);
      CommandsSplit(log[..k], log[k..upto]);
      assert log[from..k] == log[..k][from..];
      ReplayedPartChangesNothing(initial, log[..k], log[from..k]);
      FoldAppend(Fold(initial, q), Commands(log[from..k]), Commands(log[k..upto]));
      FoldAppend(initial, q, Commands(log[k..upto]));
    }
  }

  /** A node that moves its commit index to a committed `n` and applies up to it. */
  lemma ApplyKeepsStore(h: History, initial: Ledger, s: Node, n: nat)
    requires HistoryInv(h) && GoodLog(h, s.log, s.term) && NodeLedger(h, initial, s)
    requires s.lastApplied == s.commitIndex < n <= |s.log| && Committed(h, s.log, n, s.term)
    ensures NodeStore(h, initial, ApplyCommitted(s.(commitIndex := n)))
  {
    var s' := ApplyCommitted(s.(commitIndex := n));
    var u: nat, p :| CommittedBy(h, s.log, n, s.term, u, p);
    assert CommittedBy(h, s'.log, n, s'.term, u, p);
    ApplyKeepsLedger(h, initial, s, n, u, p);
  }

  lemma ApplyKeepsLedger(h: History, initial: Ledger, s: Node, n: nat, u: nat, p: int)
    requires HistoryInv(h) && NodeLedger(h, initial, s)
    requires s.lastApplied == s.commitIndex < n <= |s.log| && CommittedBy(h, s.log, n, s.term, u, p)
    ensures NodeLedger(h, initial, ApplyCommitted(s.(commitIndex := n)))
  {
    hide HistoryInv, Fold, IsQuorum, AllAcked;
    var s' := ApplyCommitted(s.(commitIndex := n));
    var t: nat, m, k :| LedgerAt(h, initial, s, t, m, k);
    if k != 0 {
      CertifiedPrefixesAgree(h, t, m, u, p);
    }
    if k <= n {
      CatchUpLedger(h, initial, s, n, t, m, k, u, p);
      assert LedgerAt(h, initial, s', u, p, n);
    } else {
      ReplayLedger(h, initial, s, n, t, m, k);
      assert LedgerAt(h, initial, s', t, m, k);
    }
  }

  lemma CatchUpLedger(h: History, initial: Ledger, s: Node, n: nat, t: nat, m: int, k: int, u: nat, p: int)
    requires LedgerAt(h, initial, s, t, m, k) && k <= n <= |s.log|
    requires u in h.llog && Agree(s.log, h.llog[u], n)
    requires k != 0 ==> Agree(s.log, h.llog[t], k)
    ensures Fold(s.ledger, Commands(s.log[s.lastApplied..n])) == Fold(initial, Commands(h.llog[u][..n]))
  {
    assert k != 0 ==> s.log[..k] == h.llog[t][..k];
    assert k == 0 ==> Commands(s.log[..k]) == [];
    ReplayReaches(initial, s.log, k, s.lastApplied, n);
    assert s.log[..n] == h.llog[u][..n];
  }

  lemma ReplayLedger(h: History, initial: Ledger, s: Node, n: nat, t: nat, m: int, k: int)
    requires LedgerAt(h, initial, s, t, m, k) && s.lastApplied <= n < k && n <= |s.log| && Agree(s.log, h.llog[t], n)
    ensures Fold(s.ledger, Commands(s.log[s.lastApplied..n])) == s.ledger
  {
    var l := h.llog[t];
    assert s.log[s.lastApplied..n] == l[s.lastApplied..n];
    ReplayReaches(initial, l, k, s.lastApplied, n);
  }
}

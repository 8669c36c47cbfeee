/** What the ledger promises over whole command sequences: crash replay and duplicate
    proposals are invisible, money is conserved, and nothing is overdrawn. */
module LedgerProofs {
  import opened LedgerModel

  function Ids(es: seq<LedgerEntry>): set<EntryId> {
    set e | e in es :: e.id
  }

  /** The sequence that keeps only the first occurrence of each entry id. */
  function FirstOccurrences(es: seq<LedgerEntry>): seq<LedgerEntry> {
    if es == [] then []
    else
      var front, last := es[..|es| - 1], es[|es| - 1];
      FirstOccurrences(front) + (if last.id in Ids(front) then [] else [last])
  }

  /** The sum of the deltas on account `a` of the entries that were not known before and
      that `results` records as accepted. */
  function AcceptedDelta(known: set<EntryId>, results: map<EntryId, ApplyResult>,
                         es: seq<LedgerEntry>, a: AccountId): real
  {
    if es == [] then 0.0
    else
      var last := es[|es| - 1];
      AcceptedDelta(known, results, es[..|es| - 1], a) +
      (if last.account == a && last.id !in known && last.id in results && results[last.id].accepted
       then last.delta else 0.0)
  }

  // ---- results are remembered ----

  lemma {:induction false} FoldKeys(l: Ledger, es: seq<LedgerEntry>)
    ensures Fold(l, es).results.Keys == l.results.Keys + Ids(es)
  {
    if es != [] {
      var front, last := es[..|es| - 1], es[|es| - 1];
      FoldKeys(l, front);
      assert es == front + [last];
      assert Ids(es) == Ids(front) + {last.id};
    }
  }

  lemma {:induction false} FoldAppend(l: Ledger, a: seq<LedgerEntry>, b: seq<LedgerEntry>)
    ensures Fold(l, a + b) == Fold(Fold(l, a), b)
    ensures Outcomes(l, a + b) == Outcomes(l, a) + Outcomes(Fold(l, a), b)
  {
    if b == [] {
      assert a + b == a;
    } else {
      assert (a + b)[..|a + b| - 1] == a + b[..|b| - 1];
      FoldAppend(l, a, b[..|b| - 1]);
    }
  }

  /** A remembered result never changes. */
  lemma {:induction false} FoldKeepsResults(l: Ledger, es: seq<LedgerEntry>, id: EntryId)
    requires id in l.results
    ensures id in Fold(l, es).results && Fold(l, es).results[id] == l.results[id]
  {
    if es != [] {
      FoldKeepsResults(l, es[..|es| - 1], id);
    }
  }

  // ---- replay ----

  /** Over a ledger that already remembers all of `q`, applying `q` again changes nothing. */
  lemma {:induction false} KnownEntriesChangeNothing(l: Ledger, q: seq<LedgerEntry>)
    requires Ids(q) <= l.results.Keys
    ensures Fold(l, q) == l
    ensures |Outcomes(l, q)| == |q|
    ensures forall i :: 0 <= i < |q| ==> q[i].id in l.results && Outcomes(l, q)[i] == l.results[q[i].id]
  {
    if q != [] {
      var front := q[..|q| - 1];
      assert forall e :: e in front ==> e in q;
      assert q[|q| - 1].id in Ids(q);
      KnownEntriesChangeNothing(l, front);
    }
  }

  lemma {:induction false} OutcomesAreRemembered(l: Ledger, q: seq<LedgerEntry>)
    ensures |Outcomes(l, q)| == |q|
    ensures forall i :: 0 <= i < |q| ==>
              q[i].id in Fold(l, q).results && Outcomes(l, q)[i] == Fold(l, q).results[q[i].id]
  {
    if q != [] {
      OutcomesAreRemembered(l, q[..|q| - 1]);
    }
  }

  /** Crash replay: a restarted node applies `q` again and then `r` over a ledger that has
      already applied `q`.  The ledger, and every result returned on the way, are those of
      applying `q` and `r` once. */
  lemma ReplayIsInvisible(l: Ledger, q: seq<LedgerEntry>, r: seq<LedgerEntry>)
    ensures Fold(Fold(l, q), q + r) == Fold(l, q + r)
    ensures Outcomes(Fold(l, q), q + r) == Outcomes(l, q + r)
  {
    var once := Fold(l, q);
    FoldKeys(l, q);
    KnownEntriesChangeNothing(once, q);
    OutcomesAreRemembered(l, q);
    FoldAppend(once, q, r);
    FoldAppend(l, q, r);
    assert Outcomes(once, q) == Outcomes(l, q);
  }

  /** Applying entry `i` of an already applied prefix `q` is a no-op. */
  lemma ReapplyIsNoOp(l: Ledger, q: seq<LedgerEntry>, i: nat)
    requires i < |q|
    ensures Apply(Fold(l, q), q[i]) == Fold(l, q)
  {
    FoldKeys(l, q);
    assert q[i].id in Ids(q);
  }

  // ---- duplicate proposals ----

  lemma IdsAppend(es: seq<LedgerEntry>, e: LedgerEntry)
    ensures Ids(es + [e]) == Ids(es) + {e.id}
    ensures forall i :: 0 <= i < |es| ==> es[i].id in Ids(es)
  {
  }

  lemma {:induction false} FirstOccurrencesIds(es: seq<LedgerEntry>)
    ensures Ids(FirstOccurrences(es)) == Ids(es)
    ensures forall i, j :: 0 <= i < j < |FirstOccurrences(es)| ==>
              FirstOccurrences(es)[i].id != FirstOccurrences(es)[j].id
  {
    if es != [] {
      var front, last := es[..|es| - 1], es[|es| - 1];
      FirstOccurrencesIds(front);
      assert es == front + [last];
      assert Ids(es) == Ids(front) + {last.id};
      IdsAppend(FirstOccurrences(front), last);
    }
  }

  /** Any log gives the ledger of the log that keeps only first occurrences. */
  lemma {:induction false} DuplicatesAreInvisible(l: Ledger, es: seq<LedgerEntry>)
    ensures Fold(l, FirstOccurrences(es)) == Fold(l, es)
  {
    if es != [] {
      var front, last := es[..|es| - 1], es[|es| - 1];
      DuplicatesAreInvisible(l, front);
      if last.id in Ids(front) {
        FoldKeys(l, front);
        assert FirstOccurrences(es) == FirstOccurrences(front);
      } else {
        assert FirstOccurrences(es)[..|FirstOccurrences(es)| - 1] == FirstOccurrences(front);
      }
    }
  }

  // ---- conservation ----

  lemma {:induction false} AcceptedDeltaFrame(known: set<EntryId>,
                                              r: map<EntryId, ApplyResult>, r': map<EntryId, ApplyResult>,
                                              es: seq<LedgerEntry>, a: AccountId)
    requires forall e :: e in es ==> e.id in r && e.id in r' && r'[e.id] == r[e.id]
    ensures AcceptedDelta(known, r', es, a) == AcceptedDelta(known, r, es, a)
  {
    if es != [] {
      AcceptedDeltaFrame(known, r, r', es[..|es| - 1], a);
    }
  }

  /** One application moves exactly one balance, and only by an accepted new entry. */
  lemma ApplyMovesOneBalance(l: Ledger, e: LedgerEntry, a: AccountId)
    ensures Apply(l, e).Balance(a)
         == l.Balance(a)
            + (if e.account == a && e.id !in l.results && Apply(l, e).results[e.id].accepted then e.delta else 0.0)
    ensures forall id :: id in l.results ==> id in Apply(l, e).results && Apply(l, e).results[id] == l.results[id]
    ensures e.id in Apply(l, e).results
  {
  }

  /** A known id adds nothing to the first occurrences, a new one adds its entry. */
  lemma AcceptedDeltaAppend(known: set<EntryId>, r: map<EntryId, ApplyResult>, front: seq<LedgerEntry>,
                            last: LedgerEntry, a: AccountId)
    ensures AcceptedDelta(known, r, FirstOccurrences(front + [last]), a)
         == AcceptedDelta(known, r, FirstOccurrences(front), a)
            + (if last.id !in Ids(front) + known && last.account == a && last.id in r && r[last.id].accepted
               then last.delta else 0.0)
  {
    var es, fo := front + [last], FirstOccurrences(front);
    assert es[..|es| - 1] == front && es[|es| - 1] == last;
    var all := fo + [last];
    assert all[..|all| - 1] == fo && all[|all| - 1] == last;
    assert FirstOccurrences(es) == if last.id in Ids(front) then fo else all;
  }

  /** Each balance is its initial value plus the deltas of the distinct accepted entries on
      that account: no command is lost, applied twice, or charged elsewhere. */
  lemma {:induction false} Conservation(l: Ledger, es: seq<LedgerEntry>, a: AccountId)
    ensures Fold(l, es).Balance(a)
         == l.Balance(a) + AcceptedDelta(l.results.Keys, Fold(l, es).results, FirstOccurrences(es), a)
  {
    if es != [] {
      var front, last := es[..|es| - 1], es[|es| - 1];
      Conservation(l, front, a);
      assert es == front + [last];
      ConservationStep(l, Fold(l, front), front, last, a);
    }
  }

  lemma KnownFirstOccurrences(es: seq<LedgerEntry>)
    ensures forall e :: e in FirstOccurrences(es) ==> e.id in Ids(es)
  {
    FirstOccurrencesIds(es);
    var fo := FirstOccurrences(es);
    assert forall e :: e in fo ==> e.id in Ids(fo);
  }

  lemma ConservationStep(l: Ledger, before: Ledger, front: seq<LedgerEntry>, last: LedgerEntry, a: AccountId)
    requires before == Fold(l, front)
    requires before.Balance(a)
          == l.Balance(a) + AcceptedDelta(l.results.Keys, before.results, FirstOccurrences(front), a)
    ensures Apply(before, last).Balance(a)
         == l.Balance(a)
            + AcceptedDelta(l.results.Keys, Apply(before, last).results, FirstOccurrences(front + [last]), a)
  {
    FoldKeys(l, front);
    KnownFirstOccurrences(front);
    ApplyMovesOneBalance(before, last, a);
    var after, fo := Apply(before, last), FirstOccurrences(front);
    hide Fold, Apply, Outcome, FirstOccurrences, AcceptedDelta, Ids;
    AcceptedDeltaFrame(l.results.Keys, before.results, after.results, fo, a);
    AcceptedDeltaAppend(l.results.Keys, after.results, front, last, a);
  }

  /** No balance is ever driven below zero: after any sequence, a balance that is not its
      initial value is non-negative. */
  lemma {:induction false} NeverOverdrawn(l: Ledger, es: seq<LedgerEntry>, a: AccountId)
    ensures Fold(l, es).Balance(a) == l.Balance(a) || Fold(l, es).Balance(a) >= 0.0
    ensures l.Balance(a) >= 0.0 ==> Fold(l, es).Balance(a) >= 0.0
  {
    if es != [] {
      NeverOverdrawn(l, es[..|es| - 1], a);
    }
  }

  // ---- no double spend ----

  /** A new entry is accepted exactly when the balance that the earlier entries left covers
      it, and the balance reported is the one it leaves. */
  lemma AcceptedExactlyWhenCovered(l: Ledger, es: seq<LedgerEntry>, i: nat)
    requires i < |es| && es[i].id !in l.results && es[i].id !in Ids(es[..i])
    ensures |Outcomes(l, es)| == |es|
    ensures Outcomes(l, es)[i].accepted <==> Fold(l, es[..i]).Balance(es[i].account) + es[i].delta >= 0.0
    ensures Outcomes(l, es)[i].resultingBalance == Fold(l, es[..i + 1]).Balance(es[i].account)
  {
    assert es == es[..i + 1] + es[i + 1..];
    FoldAppend(l, es[..i + 1], es[i + 1..]);
    OutcomesAreRemembered(l, es);
    OutcomesAreRemembered(l, es[..i + 1]);
    assert es[..i + 1][..i] == es[..i];
    FoldKeys(l, es[..i]);
  }

  /** No double spend, anywhere in a log.  The debits at `i` and `j` are new entries on one
      account.  The first is accepted exactly when it is covered.  The second is then accepted
      exactly when what the entries in between added makes up for the first; so two debits
      that the balance covers one at a time but not together are not both accepted unless
      money arrived in between, and a rejected one changes nothing. */
  lemma NoDoubleSpend(l: Ledger, es: seq<LedgerEntry>, i: nat, j: nat)
    requires i < j < |es| && es[i].account == es[j].account
    requires es[i].id !in l.results && es[i].id !in Ids(es[..i]) && es[j].id !in l.results && es[j].id !in Ids(es[..j])
    ensures |Outcomes(l, es)| == |es|
    ensures var a, first, second := es[i].account, Outcomes(l, es)[i], Outcomes(l, es)[j];
            var before := Fold(l, es[..i]).Balance(a);
            var between := Fold(l, es[..j]).Balance(a) - Fold(l, es[..i + 1]).Balance(a);
            && (first.accepted <==> before + es[i].delta >= 0.0)
            && (first.accepted ==> (second.accepted <==> before + es[i].delta + between + es[j].delta >= 0.0))
            && (before + es[i].delta + es[j].delta < 0.0 && between <= 0.0 ==> !(first.accepted && second.accepted))
            && (!second.accepted ==> Fold(l, es[..j + 1]) == Fold(l, es[..j]).(results := Fold(l, es[..j + 1]).results))
  {
    AcceptedExactlyWhenCovered(l, es, i);
    AcceptedExactlyWhenCovered(l, es, j);
    LastOutcome(l, es, i);
    LastOutcome(l, es, j);
  }

  /** The balance right after a new entry, and the rejected entry that leaves all balances. */
  lemma LastOutcome(l: Ledger, es: seq<LedgerEntry>, i: nat)
    requires i < |es| && es[i].id !in l.results && es[i].id !in Ids(es[..i]) && |Outcomes(l, es)| == |es|
    requires Outcomes(l, es)[i].accepted <==> Fold(l, es[..i]).Balance(es[i].account) + es[i].delta >= 0.0
    ensures var before, after := Fold(l, es[..i]), Fold(l, es[..i + 1]);
            if Outcomes(l, es)[i].accepted
            then after.Balance(es[i].account) == before.Balance(es[i].account) + es[i].delta
            else after == before.(results := after.results)
  {
    FoldKeys(l, es[..i]);
    assert es[..i + 1][..i] == es[..i];
  }

  // ---- results name their entries ----

  /** Every remembered result is that of the entry it is remembered under. */
  ghost predicate Keyed(l: Ledger) {
    forall id :: id in l.results ==> l.results[id].id == id
  }

  /** Every result returned names the entry it was returned for, replayed or not. */
  lemma {:induction false} ResultsNameEntries(l: Ledger, es: seq<LedgerEntry>)
    requires Keyed(l)
    ensures Keyed(Fold(l, es)) && |Outcomes(l, es)| == |es|
    ensures forall i :: 0 <= i < |es| ==> Outcomes(l, es)[i].id == es[i].id
  {
    if es != [] {
      ResultsNameEntries(l, es[..|es| - 1]);
    }
  }
}

/** The ledger that committed Raft entries are applied to: what one application does,
    as a function on values. */
module LedgerModel {
  import opened Wrappers

  type AccountId = string
  type EntryId = string

  datatype LedgerEntry = LedgerEntry(transaction: string, account: AccountId, delta: real, id: EntryId)

  datatype ApplyResult = ApplyResult(id: EntryId, accepted: bool, resultingBalance: real)

  /** `balances` only holds accounts that were given or credited; `results` remembers the
      outcome of every entry id ever applied. */
  datatype Ledger = Ledger(balances: map<AccountId, real>, results: map<EntryId, ApplyResult>) {
    function Balance(a: AccountId): real {
      Get(balances, a, 0.0)
    }
  }

  /** The outcome of an entry: the remembered one, or the overdraft check. */
  function Outcome(l: Ledger, e: LedgerEntry): ApplyResult {
    if e.id in l.results then
      l.results[e.id]
    else if l.Balance(e.account) + e.delta < 0.0 then
      ApplyResult(e.id, false, l.Balance(e.account))
    else
      ApplyResult(e.id, true, l.Balance(e.account) + e.delta)
  }

  function Apply(l: Ledger, e: LedgerEntry): Ledger {
    if e.id in l.results then
      l
    else
      var r := Outcome(l, e);
      Ledger(if r.accepted then l.balances[e.account := r.resultingBalance] else l.balances,
             l.results[e.id := r])
  }

  /** Applying a whole command sequence in order. */
  function Fold(l: Ledger, es: seq<LedgerEntry>): Ledger {
    if es == [] then l else Apply(Fold(l, es[..|es| - 1]), es[|es| - 1])
  }

  /** What `apply` returned for each command of the sequence. */
  function Outcomes(l: Ledger, es: seq<LedgerEntry>): seq<ApplyResult> {
    if es == [] then []
    else Outcomes(l, es[..|es| - 1]) + [Outcome(Fold(l, es[..|es| - 1]), es[|es| - 1])]
  }
}

/** The ledger object that a Raft node applies committed entries to. */
module LedgerObject {
  import opened LedgerModel

  class LedgerStateMachine {
    var balances: map<AccountId, real>
    var results: map<EntryId, ApplyResult>

    /** The abstract value of the object. */
    function Snapshot(): Ledger
      reads this
    {
      Ledger(balances, results)
    }

    constructor (initialBalances: map<AccountId, real>)
      ensures Snapshot() == Ledger(initialBalances, map[])
    {
      balances := initialBalances;
      results := map[];
    }

    method Balance(account: AccountId) returns (b: real)
      ensures b == if account in balances then balances[account] else 0.0
      ensures b == Snapshot().Balance(account)
    {
      b := if account in balances then balances[account] else 0.0;
    }

    /** Applies one entry; a remembered entry gets its remembered result and changes nothing. */
    method Apply(command: LedgerEntry) returns (result: ApplyResult)
      modifies this
      ensures Snapshot() == LedgerModel.Apply(old(Snapshot()), command)
      ensures result == Outcome(old(Snapshot()), command)
      ensures command.id in results && results[command.id] == result
    {
      if command.id in results {
        return results[command.id];
      }
      var current := if command.account in balances then balances[command.account] else 0.0;
      var newBalance := current + command.delta;
      if newBalance < 0.0 {
        result := ApplyResult(command.id, false, current);
      } else {
        balances := balances[command.account := newBalance];
        result := ApplyResult(command.id, true, newBalance);
      }
      results := results[command.id := result];
    }
  }
}

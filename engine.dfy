/**
 * The payment engine: owns the accounts by client id and the ledger of
 * deposits by transaction id, and updates both in place, one record at a
 * time. Each method is proved to do exactly what the matching transition in
 * module Ledger describes, and `Process` keeps the engine invariant.
 */
module Engine {
  import opened Models
  import opened Ledger

  class PaymentEngine {
    var accounts: map<ClientId, Account>
    var transactions: map<TxId, TransactionInfo>

    /** The engine's two maps as one value. */
    function State(): EngineState
      reads this
    {
      EngineState(accounts, transactions)
    }

    /** The engine invariant: see `Ledger.Consistent`. */
    ghost predicate Valid()
      reads this
    {
      Consistent(State())
    }

    /** A fresh engine: no accounts, an empty ledger. */
    constructor ()
      ensures State() == Empty()
      ensures Valid()
    {
      accounts := map[];
      transactions := map[];
    }

    /** Returns the client's account, first inserting a zero-balance one if it is absent. */
    method GetOrCreateAccount(clientId: ClientId) returns (account: Account)
      modifies this
      ensures clientId in old(accounts) ==> account == old(accounts)[clientId]
      ensures clientId !in old(accounts) ==> account == NewAccount(clientId)
      ensures accounts == old(accounts)[clientId := account]
      ensures transactions == old(transactions)
    {
      if clientId !in accounts {
        accounts := accounts[clientId := NewAccount(clientId)];
      }
      account := accounts[clientId];
    }

    /** Processes one record; see `Ledger.Process` for what that means. */
    method Process(record: InputRecord) returns (result: Result)
      modifies this
      ensures Processed(result, State()) == Ledger.Process(old(State()), record)
      ensures old(Valid()) ==> Valid()
    {
      ghost var before := State();
      if (record.recordType == Deposit || record.recordType == Withdrawal)
         && record.txId in transactions
      {
        // Duplicate deposit or withdrawal id: ignored.
        result := Ok;
      } else {
        match record.recordType
        case Deposit => result := HandleDeposit(record);
        case Withdrawal => result := HandleWithdrawal(record);
        case Dispute => result := HandleDispute(record);
        case Resolve => result := HandleResolve(record);
        case Chargeback => result := HandleChargeback(record);
      }
      if Consistent(before) {
        ProcessPreservesConsistent(before, record);
      }
    }

    method HandleDeposit(record: InputRecord) returns (result: Result)
      modifies this
      ensures Processed(result, State()) == Ledger.HandleDeposit(old(State()), record)
    {
      if record.amount.None? {
        return Err(InvalidTransaction(MissingAmount));
      }
      var amount := record.amount.value;
      if amount <= 0.0 {
        return Err(InvalidTransaction(NonPositiveAmount));
      }
      var account := GetOrCreateAccount(record.clientId);
      account := account.Deposit(amount);
      accounts := accounts[record.clientId := account];
      transactions := transactions[record.txId := TransactionInfo(record.clientId, amount, Normal)];
      return Ok;
    }

    method HandleWithdrawal(record: InputRecord) returns (result: Result)
      modifies this
      ensures Processed(result, State()) == Ledger.HandleWithdrawal(old(State()), record)
    {
      if record.amount.None? {
        return Err(InvalidTransaction(MissingAmount));
      }
      var amount := record.amount.value;
      if amount <= 0.0 {
        return Err(InvalidTransaction(NonPositiveAmount));
      }
      var account := GetOrCreateAccount(record.clientId);
      // The success flag is deliberately not surfaced.
      var applied := account.Withdraw(amount);
      accounts := accounts[record.clientId := applied.account];
      return Ok;
    }

    method HandleDispute(record: InputRecord) returns (result: Result)
      modifies this
      ensures Processed(result, State()) == Ledger.HandleDispute(old(State()), record)
    {
      if record.txId !in transactions {
        return Ok;
      }
      var info := transactions[record.txId];
      if info.state != Normal {
        return Ok;
      }
      if info.clientId !in accounts {
        return Ok;
      }
      var applied := accounts[info.clientId].Hold(info.amount);
      accounts := accounts[info.clientId := applied.account];
      if applied.ok {
        transactions := transactions[record.txId := info.(state := Disputed)];
      }
      return Ok;
    }

    method HandleResolve(record: InputRecord) returns (result: Result)
      modifies this
      ensures Processed(result, State()) == Ledger.HandleResolve(old(State()), record)
    {
      if record.txId !in transactions {
        return Ok;
      }
      var info := transactions[record.txId];
      if info.state != Disputed {
        return Ok;
      }
      if info.clientId !in accounts {
        return Ok;
      }
      var applied := accounts[info.clientId].Release(info.amount);
      accounts := accounts[info.clientId := applied.account];
      if applied.ok {
        transactions := transactions[record.txId := info.(state := Normal)];
      }
      return Ok;
    }

    method HandleChargeback(record: InputRecord) returns (result: Result)
      modifies this
      ensures Processed(result, State()) == Ledger.HandleChargeback(old(State()), record)
    {
      if record.txId !in transactions {
        return Ok;
      }
      var info := transactions[record.txId];
      if info.state != Disputed {
        return Ok;
      }
      if info.clientId !in accounts {
        return Ok;
      }
      var applied := accounts[info.clientId].Chargeback(info.amount);
      accounts := accounts[info.clientId := applied.account];
      if applied.ok {
        transactions := transactions[record.txId := info.(state := ChargedBack)];
      }
      return Ok;
    }

    /** All accounts as output records, in no particular order. */
    function GetAccounts(): (out: set<OutputRecord>)
      reads this
      ensures forall c :: c in accounts ==> accounts[c].ToOutputRecord() in out
      ensures forall o :: o in out ==> exists c :: c in accounts && o == accounts[c].ToOutputRecord()
    {
      Snapshot(accounts)
    }
  }
}

/**
 * The repository's own tests, replayed against the model.
 *
 * The account tests apply one `Account` operation to the account the test
 * builds. The engine tests and the CSV cases feed the test's records to
 * `Ledger.Process` in order, starting from `Ledger.Empty()`, the state of a
 * new engine. A scenario is spread over several lemmas of one or a few
 * transitions each, one assertion per transition. The state a lemma ends in
 * is a named constant, and the lemma that continues the scenario starts from
 * that constant and says in its comment which lemma it follows. So every
 * state a scenario passes through is reached from a new engine.
 * `Engine.PaymentEngine.Process` is proved to compute exactly
 * `Ledger.Process`, so each replay is also what the engine does when fed
 * the same records one after another.
 */
module Scenarios {
  import opened Models
  import opened Ledger

  // ---------------------------------------------------------------------
  // Account tests

  /** A deposit of 10 into a new account. */
  lemma AccountDepositCase()
  {
    var acc := NewAccount(1).Deposit(10.0);
    assert acc == Account(1, 10.0, 0.0, false);
    assert acc.Total() == 10.0;
  }

  /** Withdrawals of 50, exactly 100 and 150 from 100 available; the last is refused. */
  lemma AccountWithdrawCases()
  {
    var acc := NewAccount(1).(available := 100.0);
    assert acc.Withdraw(50.0) == Applied(true, Account(1, 50.0, 0.0, false));
    assert acc.Withdraw(100.0) == Applied(true, Account(1, 0.0, 0.0, false));
    assert acc.Withdraw(150.0) == Applied(false, Account(1, 100.0, 0.0, false));
  }

  /** Holds of 50 and 150 against 100 available; the second is refused. */
  lemma AccountHoldCases()
  {
    var acc := NewAccount(1).(available := 100.0);
    assert acc.Hold(50.0) == Applied(true, Account(1, 50.0, 50.0, false));
    assert acc.Hold(150.0) == Applied(false, Account(1, 100.0, 0.0, false));
  }

  /** Releases of 50 and 100 against 50 held; the second is refused. */
  lemma AccountReleaseCases()
  {
    var acc := NewAccount(1).(held := 50.0);
    assert acc.Release(50.0) == Applied(true, Account(1, 50.0, 0.0, false));
    assert acc.Release(100.0) == Applied(false, Account(1, 0.0, 50.0, false));
  }

  /** Chargebacks of 50 and 100 against 50 held on an unlocked account; only the first locks it. */
  lemma AccountChargebackCases()
  {
    var acc := NewAccount(1).(held := 50.0);
    assert acc.Chargeback(50.0) == Applied(true, Account(1, 0.0, 0.0, true));
    assert acc.Chargeback(100.0) == Applied(false, Account(1, 0.0, 50.0, false));
  }

  /** A locked account takes deposits and chargebacks and refuses the rest. */
  lemma LockedAccountBehaviour()
  {
    var acc := NewAccount(1).(available := 100.0, locked := true);
    assert acc.Deposit(50.0) == Account(1, 150.0, 0.0, true);
    acc := Account(1, 150.0, 0.0, true);
    assert acc.Withdraw(50.0) == Applied(false, acc);
    assert acc.Hold(50.0) == Applied(false, acc);
    acc := Account(1, 100.0, 50.0, true);
    assert acc.Release(50.0) == Applied(false, acc);
    assert acc.Chargeback(50.0) == Applied(true, Account(1, 100.0, 0.0, true));
    var other := NewAccount(2).(held := 30.0, locked := true);
    assert other.Chargeback(50.0) == Applied(false, other);
  }

  // ---------------------------------------------------------------------
  // Engine tests

  /** After `deposit 1 1 100.0`. */
  const OneDeposit := EngineState(map[1 := Account(1, 100.0, 0.0, false)], map[1 := TransactionInfo(1, 100.0, Normal)])
  /** After that deposit is disputed. */
  const OneDisputed := EngineState(map[1 := Account(1, 0.0, 100.0, false)], map[1 := TransactionInfo(1, 100.0, Disputed)])
  /** After that dispute is charged back. */
  const OneChargedBack := EngineState(map[1 := Account(1, 0.0, 0.0, true)], map[1 := TransactionInfo(1, 100.0, ChargedBack)])

  /**
   * The first record of the engine tests at src/engine.rs:323-380 and
   * 395-428 and of two CSV cases: a deposit of 100 for client 1 on a new
   * engine creates the account and the ledger entry.
   */
  lemma NewEngineDeposit()
  {
    assert Process(Empty(), InputRecord(Deposit, 1, 1, Some(100.0))) == Processed(Ok, OneDeposit);
  }

  /** After `NewEngineDeposit`: withdraw 30, then a withdrawal of 80 that is refused but still `Ok`; only the deposit is in the ledger. */
  lemma DepositAndWithdraw()
  {
    var debited := EngineState(map[1 := Account(1, 70.0, 0.0, false)], OneDeposit.transactions);
    assert Process(OneDeposit, InputRecord(Withdrawal, 1, 2, Some(30.0))) == Processed(Ok, debited);
    assert Process(debited, InputRecord(Withdrawal, 1, 3, Some(80.0))) == Processed(Ok, debited);
  }

  /** After `NewEngineDeposit`: a dispute moves the deposit's 100 from available to held. */
  lemma DepositDisputed()
  {
    assert Process(OneDeposit, InputRecord(Dispute, 1, 1, None)).state == OneDisputed;
  }

  /** After `DepositDisputed`: the resolve restores the state before the dispute; the entry is `Normal` again and stays in the ledger. */
  lemma FullDisputeCycle()
  {
    assert Process(OneDisputed, InputRecord(Resolve, 1, 1, None)) == Processed(Ok, OneDeposit);
  }

  /** After `DepositDisputed`: the chargeback locks the account and marks the entry `ChargedBack`. */
  lemma DisputeThenChargeback()
  {
    assert Process(OneDisputed, InputRecord(Chargeback, 1, 1, None)) == Processed(Ok, OneChargedBack);
  }

  /** After `DisputeThenChargeback`: a later resolve or dispute of the charged-back deposit changes nothing. */
  lemma ChargedBackStaysCharged()
  {
    assert Process(OneChargedBack, InputRecord(Resolve, 1, 1, None)).state == OneChargedBack;
    assert Process(OneChargedBack, InputRecord(Dispute, 1, 1, None)).state == OneChargedBack;
  }

  /** On a new engine, claims about an unknown transaction create nothing. */
  lemma UnknownTransactionIgnored(kind: TransactionType)
    requires kind == Dispute || kind == Resolve || kind == Chargeback
  {
    assert Process(Empty(), InputRecord(kind, 1, 99, None)) == Processed(Ok, Empty());
  }

  /** After `NewEngineDeposit`: a resolve or chargeback of the undisputed deposit changes nothing. */
  lemma WrongStateIgnored(kind: TransactionType)
    requires kind == Resolve || kind == Chargeback
  {
    assert Process(OneDeposit, InputRecord(kind, 1, 1, None)) == Processed(Ok, OneDeposit);
  }

  /** After `DepositDisputed`: a second dispute changes nothing. */
  lemma DisputeAlreadyDisputed()
  {
    assert Process(OneDisputed, InputRecord(Dispute, 1, 1, None)) == Processed(Ok, OneDisputed);
  }

  // ---------------------------------------------------------------------
  // CSV cases

  /** Simple deposits and withdrawals: after `deposit 1 1 1.0`. */
  const SimpleFirst := EngineState(map[1 := Account(1, 1.0, 0.0, false)], map[1 := TransactionInfo(1, 1.0, Normal)])
  /** After the `deposit 2 2 2.0` and `deposit 1 3 2.0` that follow. */
  const SimpleDeposited := EngineState(
    map[1 := Account(1, 3.0, 0.0, false), 2 := Account(2, 2.0, 0.0, false)],
    map[1 := TransactionInfo(1, 1.0, Normal), 2 := TransactionInfo(2, 2.0, Normal), 3 := TransactionInfo(1, 2.0, Normal)])

  /** The first deposit on a new engine. */
  lemma SimpleOpening()
  {
    assert Process(Empty(), InputRecord(Deposit, 1, 1, Some(1.0))).state == SimpleFirst;
  }

  /** After the `withdrawal 1 4 1.5` and the refused `withdrawal 2 5 3.0` that follow. */
  const SimpleFinal := EngineState(SimpleDeposited.accounts[1 := Account(1, 1.5, 0.0, false)], SimpleDeposited.transactions)

  /** After `SimpleOpening`: two more deposits, one for a second client. */
  lemma SimpleDeposits()
  {
    var s2 := EngineState(SimpleFirst.accounts[2 := Account(2, 2.0, 0.0, false)], SimpleFirst.transactions[2 := TransactionInfo(2, 2.0, Normal)]);
    assert Process(SimpleFirst, InputRecord(Deposit, 2, 2, Some(2.0))).state == s2;
    assert Process(s2, InputRecord(Deposit, 1, 3, Some(2.0))).state == SimpleDeposited;
  }

  /** After `SimpleDeposits`: client 1's withdrawal is paid and client 2's is refused. */
  lemma SimpleWithdrawals()
  {
    assert Process(SimpleDeposited, InputRecord(Withdrawal, 1, 4, Some(1.5))).state == SimpleFinal;
    assert Process(SimpleFinal, InputRecord(Withdrawal, 2, 5, Some(3.0))).state == SimpleFinal;
  }

  /** After `SimpleWithdrawals`: the report is exactly the two expected rows. */
  lemma SimpleReport()
  {
    var accounts := SimpleFinal.accounts;
    var row1 := OutputRecord(1, 1.5, 0.0, 1.5, false);
    var row2 := OutputRecord(2, 2.0, 0.0, 2.0, false);
    assert accounts[1].ToOutputRecord() == row1;
    assert accounts[2].ToOutputRecord() == row2;
    assert Snapshot(accounts) == {row1, row2};
  }

  /** Ignore errors and invalid operations, after `NewEngineDeposit`: a dispute of an unknown id and a resolve of an undisputed deposit are silent. */
  lemma NoOpsOpening()
  {
    assert Process(OneDeposit, InputRecord(Dispute, 1, 99, None)).state == OneDeposit;
    assert Process(OneDeposit, InputRecord(Resolve, 1, 1, None)).state == OneDeposit;
  }

  /** Ignore errors and invalid operations: after the refused `withdrawal 1 2 200.0`, `deposit 2 3 50.0` and `chargeback 1 1`. */
  const NoOpsFinal := EngineState(OneDeposit.accounts[2 := Account(2, 50.0, 0.0, false)], OneDeposit.transactions[3 := TransactionInfo(2, 50.0, Normal)])

  /** After `NoOpsOpening`: an overdraft is silent, a new client gets its deposit, and a chargeback of an undisputed deposit is silent. */
  lemma NoOpsClosing()
  {
    assert Process(OneDeposit, InputRecord(Withdrawal, 1, 2, Some(200.0))).state == OneDeposit;
    assert Process(OneDeposit, InputRecord(Deposit, 2, 3, Some(50.0))).state == NoOpsFinal;
    assert Process(NoOpsFinal, InputRecord(Chargeback, 1, 1, None)).state == NoOpsFinal;
  }

  /** After `NoOpsClosing`: the report is exactly the two expected rows. */
  lemma NoOpsReport()
  {
    var accounts := NoOpsFinal.accounts;
    var row1 := OutputRecord(1, 100.0, 0.0, 100.0, false);
    var row2 := OutputRecord(2, 50.0, 0.0, 50.0, false);
    assert accounts[1].ToOutputRecord() == row1;
    assert accounts[2].ToOutputRecord() == row2;
    assert Snapshot(accounts) == {row1, row2};
  }

  /** Dispute, resolve and chargeback: after `deposit 1 1 100.0` and `deposit 1 2 50.0`. */
  const TwoDeposits := EngineState(map[1 := Account(1, 150.0, 0.0, false)],
    map[1 := TransactionInfo(1, 100.0, Normal), 2 := TransactionInfo(1, 50.0, Normal)])
  /** After the `dispute 1 1` that follows. */
  const FirstDisputed := EngineState(map[1 := Account(1, 50.0, 100.0, false)],
    map[1 := TransactionInfo(1, 100.0, Disputed), 2 := TransactionInfo(1, 50.0, Normal)])
  /** After the `withdrawal 1 3 20.0` that follows, which draws on the undisputed deposit. */
  const DrawnWhileDisputed := EngineState(map[1 := Account(1, 30.0, 100.0, false)], FirstDisputed.transactions)
  /** After the `resolve 1 1` that follows. */
  const FirstResolved := EngineState(map[1 := Account(1, 130.0, 0.0, false)],
    map[1 := TransactionInfo(1, 100.0, Normal), 2 := TransactionInfo(1, 50.0, Normal)])
  /** After the `dispute 1 2` that follows. */
  const SecondDisputed := EngineState(map[1 := Account(1, 80.0, 50.0, false)],
    map[1 := TransactionInfo(1, 100.0, Normal), 2 := TransactionInfo(1, 50.0, Disputed)])
  /** After the closing `chargeback 1 2`. */
  const SecondChargedBack := EngineState(map[1 := Account(1, 80.0, 0.0, true)],
    map[1 := TransactionInfo(1, 100.0, Normal), 2 := TransactionInfo(1, 50.0, ChargedBack)])

  /** After `NewEngineDeposit`: a second deposit for client 1. */
  lemma DisputeScenarioOpening()
  {
    assert Process(OneDeposit, InputRecord(Deposit, 1, 2, Some(50.0))).state == TwoDeposits;
  }

  /** After `DisputeScenarioOpening`: the first deposit is disputed. */
  lemma DisputeScenarioDispute()
  {
    assert Process(TwoDeposits, InputRecord(Dispute, 1, 1, None)).state == FirstDisputed;
  }

  /** After `DisputeScenarioDispute`: while deposit 1 is disputed, a withdrawal of 20 is paid from the available 50. */
  lemma WithdrawalDuringDispute()
  {
    assert Process(FirstDisputed, InputRecord(Withdrawal, 1, 3, Some(20.0))).state == DrawnWhileDisputed;
  }

  /** After `WithdrawalDuringDispute`: the resolve releases the 100 held. */
  lemma ResolveAfterWithdrawal()
  {
    assert Process(DrawnWhileDisputed, InputRecord(Resolve, 1, 1, None)).state == FirstResolved;
  }

  /** After `ResolveAfterWithdrawal`: deposit 2 is disputed. */
  lemma SecondDispute()
  {
    assert Process(FirstResolved, InputRecord(Dispute, 1, 2, None)).state == SecondDisputed;
  }

  /** After `SecondDispute`: deposit 2 is charged back, which locks the account. */
  lemma SecondDisputeChargedBack()
  {
    assert Process(SecondDisputed, InputRecord(Chargeback, 1, 2, None)).state == SecondChargedBack;
  }

  /** After `SecondDisputeChargedBack`: the report is exactly the one expected row. */
  lemma DisputeScenarioReport()
  {
    var accounts := SecondChargedBack.accounts;
    var row := OutputRecord(1, 80.0, 0.0, 80.0, true);
    assert accounts[1].ToOutputRecord() == row;
    assert Snapshot(accounts) == {row};
  }

  /** Whitespace and precision: after `deposit 1 1 1.1234`. */
  const PreciseFirst := EngineState(map[1 := Account(1, 1.1234, 0.0, false)], map[1 := TransactionInfo(1, 1.1234, Normal)])

  /** After the `deposit 1 2 2.5` and `withdrawal 1 3 0.5` that follow. */
  const PreciseFinal := EngineState(map[1 := Account(1, 3.1234, 0.0, false)], PreciseFirst.transactions[2 := TransactionInfo(1, 2.5, Normal)])

  /** The first deposit on a new engine. */
  lemma PreciseOpening()
  {
    assert Process(Empty(), InputRecord(Deposit, 1, 1, Some(1.1234))).state == PreciseFirst;
  }

  /** After `PreciseOpening`: amounts with four fractional digits add up exactly. */
  lemma ExactDecimals()
  {
    var s2 := EngineState(map[1 := Account(1, 3.6234, 0.0, false)], PreciseFinal.transactions);
    assert Process(PreciseFirst, InputRecord(Deposit, 1, 2, Some(2.5))).state == s2;
    assert Process(s2, InputRecord(Withdrawal, 1, 3, Some(0.5))).state == PreciseFinal;
  }

  /** After `ExactDecimals`: the report is exactly the one expected row. */
  lemma PreciseReport()
  {
    var accounts := PreciseFinal.accounts;
    var row := OutputRecord(1, 3.1234, 0.0, 3.1234, false);
    assert accounts[1].ToOutputRecord() == row;
    assert Snapshot(accounts) == {row};
  }

  /** A zero withdrawal on a new engine is rejected before any account is created, so the report is empty. */
  lemma ZeroWithdrawalRejected()
  {
    assert Process(Empty(), InputRecord(Withdrawal, 1, 1, Some(0.0)))
      == Processed(Err(InvalidTransaction(NonPositiveAmount)), Empty());
    assert Snapshot(map[]) == {};
  }
}

/**
 * The payment engine's behaviour as pure transitions over its two maps:
 * accounts by client and the ledger of deposits by transaction id.
 * `Process` is the specification that the imperative engine in module
 * Engine is proved to implement; the lemmas here state what it promises.
 */
module Ledger {
  import opened Models

  /** Why a deposit or withdrawal record was rejected. */
  datatype InvalidReason = MissingAmount | NonPositiveAmount

  datatype PaymentError = InvalidTransaction(reason: InvalidReason)

  /** The engine's `Result<(), PaymentError>`. */
  datatype Result = Ok | Err(error: PaymentError)

  datatype EngineState = EngineState(
    accounts: map<ClientId, Account>,
    transactions: map<TxId, TransactionInfo>)

  /** The outcome of processing one record: what the caller sees and the state afterwards. */
  datatype Processed = Processed(result: Result, state: EngineState)

  function Empty(): EngineState
  {
    EngineState(map[], map[])
  }

  /** Deposit and withdrawal need an amount that is present and strictly positive. */
  predicate PositiveAmount(amount: Option<real>)
  {
    amount.Some? && amount.value > 0.0
  }

  /**
   * The account a client has, or the zero-balance account that is created
   * for it on first reference.
   */
  function AccountOf(accounts: map<ClientId, Account>, clientId: ClientId): Account
  {
    if clientId in accounts then accounts[clientId] else NewAccount(clientId)
  }

  /** Processes one record: duplicate deposit/withdrawal ids are dropped, the rest dispatched. */
  function Process(s: EngineState, r: InputRecord): (p: Processed)
    ensures p.result.Err? ==> p.state == s
    ensures p.state.accounts.Keys >= s.accounts.Keys
    ensures p.state.transactions.Keys >= s.transactions.Keys
  {
    if (r.recordType == Deposit || r.recordType == Withdrawal) && r.txId in s.transactions then
      Processed(Ok, s)
    else
      match r.recordType
      case Deposit => HandleDeposit(s, r)
      case Withdrawal => HandleWithdrawal(s, r)
      case Dispute => HandleDispute(s, r)
      case Resolve => HandleResolve(s, r)
      case Chargeback => HandleChargeback(s, r)
  }

  /** Credits the client and records the deposit as a `Normal` ledger entry. */
  function HandleDeposit(s: EngineState, r: InputRecord): (p: Processed)
    ensures p.result.Err? <==> !PositiveAmount(r.amount)
    ensures p.result.Err? ==> p.state == s
    ensures p.result.Ok? ==> p.state.accounts.Keys == s.accounts.Keys + {r.clientId}
    ensures p.result.Ok? ==> p.state.transactions.Keys == s.transactions.Keys + {r.txId}
  {
    match r.amount
    case None => Processed(Err(InvalidTransaction(MissingAmount)), s)
    case Some(amount) =>
      if amount <= 0.0 then
        Processed(Err(InvalidTransaction(NonPositiveAmount)), s)
      else
        var account := AccountOf(s.accounts, r.clientId).Deposit(amount);
        var info := TransactionInfo(r.clientId, amount, Normal);
        Processed(Ok, EngineState(s.accounts[r.clientId := account], s.transactions[r.txId := info]))
  }

  /** Debits the client if the account allows it; a refused withdrawal is still `Ok`. */
  function HandleWithdrawal(s: EngineState, r: InputRecord): (p: Processed)
    ensures p.result.Err? <==> !PositiveAmount(r.amount)
    ensures p.result.Err? ==> p.state == s
    ensures p.result.Ok? ==> p.state.accounts.Keys == s.accounts.Keys + {r.clientId}
    ensures p.state.transactions == s.transactions
  {
    match r.amount
    case None => Processed(Err(InvalidTransaction(MissingAmount)), s)
    case Some(amount) =>
      if amount <= 0.0 then
        Processed(Err(InvalidTransaction(NonPositiveAmount)), s)
      else
        var account := AccountOf(s.accounts, r.clientId).Withdraw(amount).account;
        Processed(Ok, EngineState(s.accounts[r.clientId := account], s.transactions))
  }

  /** Holds the funds of a `Normal` deposit; acts on the client stored in the ledger. */
  function HandleDispute(s: EngineState, r: InputRecord): (p: Processed)
    ensures p.result == Ok
    ensures p.state.accounts.Keys == s.accounts.Keys
    ensures p.state.transactions.Keys == s.transactions.Keys
  {
    if r.txId !in s.transactions then Processed(Ok, s)
    else
      var info := s.transactions[r.txId];
      if info.state != Normal then Processed(Ok, s)
      else if info.clientId !in s.accounts then Processed(Ok, s)
      else
        var held := s.accounts[info.clientId].Hold(info.amount);
        if held.ok then
          Processed(Ok, EngineState(
            s.accounts[info.clientId := held.account],
            s.transactions[r.txId := info.(state := Disputed)]))
        else
          Processed(Ok, s)
  }

  /** Releases the funds of a `Disputed` deposit and makes it `Normal` again. */
  function HandleResolve(s: EngineState, r: InputRecord): (p: Processed)
    ensures p.result == Ok
    ensures p.state.accounts.Keys == s.accounts.Keys
    ensures p.state.transactions.Keys == s.transactions.Keys
  {
    if r.txId !in s.transactions then Processed(Ok, s)
    else
      var info := s.transactions[r.txId];
      if info.state != Disputed then Processed(Ok, s)
      else if info.clientId !in s.accounts then Processed(Ok, s)
      else
        var released := s.accounts[info.clientId].Release(info.amount);
        if released.ok then
          Processed(Ok, EngineState(
            s.accounts[info.clientId := released.account],
            s.transactions[r.txId := info.(state := Normal)]))
        else
          Processed(Ok, s)
  }

  /** Charges back a `Disputed` deposit, locking the account; the entry becomes `ChargedBack`. */
  function HandleChargeback(s: EngineState, r: InputRecord): (p: Processed)
    ensures p.result == Ok
    ensures p.state.accounts.Keys == s.accounts.Keys
    ensures p.state.transactions.Keys == s.transactions.Keys
  {
    if r.txId !in s.transactions then Processed(Ok, s)
    else
      var info := s.transactions[r.txId];
      if info.state != Disputed then Processed(Ok, s)
      else if info.clientId !in s.accounts then Processed(Ok, s)
      else
        var charged := s.accounts[info.clientId].Chargeback(info.amount);
        if charged.ok then
          Processed(Ok, EngineState(
            s.accounts[info.clientId := charged.account],
            s.transactions[r.txId := info.(state := ChargedBack)]))
        else
          Processed(Ok, s)
  }

  // ---------------------------------------------------------------------------
  // Held funds as the sum of disputed deposits
  // ---------------------------------------------------------------------------

  /** What one ledger entry contributes to the held funds of `clientId`. */
  function Contribution(info: TransactionInfo, clientId: ClientId): real
  {
    if info.clientId == clientId && info.state == Disputed then info.amount else 0.0
  }

  /** The ledger entry that `DisputedSum` splits off first. */
  ghost function PickKey(txs: map<TxId, TransactionInfo>): (t: TxId)
    requires |txs| != 0
    ensures t in txs
  {
    var t :| t in txs; t
  }

  /** The sum of the amounts of `clientId`'s disputed deposits. */
  ghost function DisputedSum(txs: map<TxId, TransactionInfo>, clientId: ClientId): real
    decreases |txs|
  {
    if |txs| == 0 then 0.0
    else
      var t := PickKey(txs);
      assert |txs - {t}| < |txs| by { assert (txs - {t}).Keys == txs.Keys - {t}; }
      Contribution(txs[t], clientId) + DisputedSum(txs - {t}, clientId)
  }

  /** The sum may be split off at any entry, not only the one its definition picks. */
  lemma {:induction false} DisputedSumRemove(txs: map<TxId, TransactionInfo>, t: TxId, clientId: ClientId)
    requires t in txs
    ensures DisputedSum(txs, clientId) == Contribution(txs[t], clientId) + DisputedSum(txs - {t}, clientId)
    decreases |txs|
  {
    var u := PickKey(txs);
    if u != t {
      assert (txs - {u}).Keys == txs.Keys - {u};
      assert (txs - {t}).Keys == txs.Keys - {t};
      DisputedSumRemove(txs - {u}, t, clientId);
      DisputedSumRemove(txs - {t}, u, clientId);
      assert txs - {u} - {t} == txs - {t} - {u};
    }
  }

  /** Overwriting an entry changes the sum by the difference of the two contributions. */
  lemma DisputedSumUpdate(txs: map<TxId, TransactionInfo>, t: TxId, info: TransactionInfo, clientId: ClientId)
    requires t in txs
    ensures DisputedSum(txs[t := info], clientId)
         == DisputedSum(txs, clientId) - Contribution(txs[t], clientId) + Contribution(info, clientId)
  {
    DisputedSumRemove(txs, t, clientId);
    DisputedSumRemove(txs[t := info], t, clientId);
    assert txs[t := info] - {t} == txs - {t};
  }

  /** Adding a new entry adds its contribution. */
  lemma DisputedSumInsert(txs: map<TxId, TransactionInfo>, t: TxId, info: TransactionInfo, clientId: ClientId)
    requires t !in txs
    ensures DisputedSum(txs[t := info], clientId) == DisputedSum(txs, clientId) + Contribution(info, clientId)
  {
    DisputedSumRemove(txs[t := info], t, clientId);
    assert txs[t := info] - {t} == txs;
  }

  /** A client that owns no ledger entry has nothing held. */
  lemma {:induction false} DisputedSumOfStranger(txs: map<TxId, TransactionInfo>, clientId: ClientId)
    requires forall t :: t in txs ==> txs[t].clientId != clientId
    ensures DisputedSum(txs, clientId) == 0.0
    decreases |txs|
  {
    if |txs| != 0 {
      var t := PickKey(txs);
      assert (txs - {t}).Keys == txs.Keys - {t};
      DisputedSumOfStranger(txs - {t}, clientId);
    }
  }

  /** With non-negative amounts the sum is non-negative. */
  lemma {:induction false} DisputedSumNonNegative(txs: map<TxId, TransactionInfo>, clientId: ClientId)
    requires forall t :: t in txs ==> txs[t].amount >= 0.0
    ensures DisputedSum(txs, clientId) >= 0.0
    decreases |txs|
  {
    if |txs| != 0 {
      var t := PickKey(txs);
      assert (txs - {t}).Keys == txs.Keys - {t};
      DisputedSumNonNegative(txs - {t}, clientId);
    }
  }

  // ---------------------------------------------------------------------------
  // The engine invariant
  // ---------------------------------------------------------------------------

  /**
   * What holds of the engine's maps after every record: accounts are stored
   * under their own client id; every ledger entry belongs to a client that has
   * an account and carries a positive amount; a charged-back deposit's client
   * is locked; available funds are never negative; and held funds are exactly
   * the sum of the client's disputed deposits.
   */
  ghost predicate Consistent(s: EngineState)
  {
    Structured(s) && BalancesMatchLedger(s)
  }

  ghost predicate AccountsKeyedByClient(accounts: map<ClientId, Account>)
  {
    forall c :: c in accounts ==> accounts[c].clientId == c
  }

  ghost predicate LedgerWellFormed(s: EngineState)
  {
    forall t :: t in s.transactions ==>
      s.transactions[t].clientId in s.accounts && s.transactions[t].amount > 0.0
  }

  ghost predicate ChargedBackLocked(s: EngineState)
  {
    forall t :: t in s.transactions && s.transactions[t].state == ChargedBack ==>
      s.transactions[t].clientId in s.accounts && s.accounts[s.transactions[t].clientId].locked
  }

  ghost predicate BalancesMatchLedger(s: EngineState)
  {
    forall c :: c in s.accounts ==>
      s.accounts[c].available >= 0.0 && s.accounts[c].held == DisputedSum(s.transactions, c)
  }

  lemma EmptyIsConsistent()
    ensures Consistent(Empty())
    ensures Empty().accounts == map[] && Empty().transactions == map[]
  {
  }

  /** Held funds are never negative, and cover every one of the client's disputed deposits. */
  lemma HeldCoversDisputed(s: EngineState, t: TxId)
    requires Consistent(s)
    requires t in s.transactions && s.transactions[t].state == Disputed
    ensures s.transactions[t].clientId in s.accounts
    ensures s.accounts[s.transactions[t].clientId].held >= s.transactions[t].amount
  {
    var info := s.transactions[t];
    DisputedSumRemove(s.transactions, t, info.clientId);
    var rest := s.transactions - {t};
    assert forall u :: u in rest ==> rest[u].amount >= 0.0 by {
      forall u | u in rest ensures rest[u].amount >= 0.0 {
        assert u in s.transactions;
      }
    }
    DisputedSumNonNegative(rest, info.clientId);
  }

  lemma HeldNonNegative(s: EngineState, c: ClientId)
    requires Consistent(s) && c in s.accounts
    ensures s.accounts[c].held >= 0.0
  {
    DisputedSumNonNegative(s.transactions, c);
  }

  /**
   * The structural parts of the invariant: accounts stay keyed by client,
   * ledger entries stay owned and positive, charged-back entries stay locked.
   */
  ghost predicate Structured(s: EngineState)
  {
    AccountsKeyedByClient(s.accounts) && LedgerWellFormed(s) && ChargedBackLocked(s)
  }

  lemma DepositKeepsStructure(s: EngineState, r: InputRecord)
    requires Structured(s)
    ensures Structured(HandleDeposit(s, r).state)
  {
  }

  lemma WithdrawalKeepsStructure(s: EngineState, r: InputRecord)
    requires Structured(s)
    ensures Structured(HandleWithdrawal(s, r).state)
  {
  }

  lemma DisputeKeepsStructure(s: EngineState, r: InputRecord)
    requires Structured(s)
    ensures Structured(HandleDispute(s, r).state)
  {
  }

  lemma ResolveKeepsStructure(s: EngineState, r: InputRecord)
    requires Structured(s)
    ensures Structured(HandleResolve(s, r).state)
  {
  }

  lemma ChargebackKeepsStructure(s: EngineState, r: InputRecord)
    requires Structured(s)
    ensures Structured(HandleChargeback(s, r).state)
  {
  }

  /** Crediting a client and adding a `Normal` entry leaves every client's held funds matched. */
  lemma CreditKeepsBalances(s: EngineState, t: TxId, c: ClientId, amount: real)
    requires BalancesMatchLedger(s) && LedgerWellFormed(s)
    requires t !in s.transactions && amount > 0.0
    ensures BalancesMatchLedger(EngineState(
      s.accounts[c := AccountOf(s.accounts, c).Deposit(amount)],
      s.transactions[t := TransactionInfo(c, amount, Normal)]))
  {
    var info := TransactionInfo(c, amount, Normal);
    if c !in s.accounts {
      DisputedSumOfStranger(s.transactions, c);
    }
    forall d | d in s.accounts || d == c
      ensures DisputedSum(s.transactions[t := info], d) == DisputedSum(s.transactions, d)
    {
      DisputedSumInsert(s.transactions, t, info, d);
    }
  }

  lemma DepositKeepsBalances(s: EngineState, r: InputRecord)
    requires Consistent(s) && r.txId !in s.transactions
    ensures BalancesMatchLedger(HandleDeposit(s, r).state)
  {
    if PositiveAmount(r.amount) {
      CreditKeepsBalances(s, r.txId, r.clientId, r.amount.value);
    }
  }

  /** Replacing one account by another with the same held funds keeps every client matched. */
  lemma AccountUpdateKeepsBalances(s: EngineState, c: ClientId, a: Account)
    requires BalancesMatchLedger(s) && LedgerWellFormed(s)
    requires a.available >= 0.0 && a.held == AccountOf(s.accounts, c).held
    ensures BalancesMatchLedger(EngineState(s.accounts[c := a], s.transactions))
  {
    if c !in s.accounts {
      DisputedSumOfStranger(s.transactions, c);
    }
  }

  lemma WithdrawalKeepsBalances(s: EngineState, r: InputRecord)
    requires Consistent(s)
    ensures BalancesMatchLedger(HandleWithdrawal(s, r).state)
  {
    if PositiveAmount(r.amount) {
      var before := AccountOf(s.accounts, r.clientId);
      if r.clientId in s.accounts {
        assert before.available >= 0.0;
      }
      AccountUpdateKeepsBalances(s, r.clientId, before.Withdraw(r.amount.value).account);
    }
  }

  /**
   * Moving one ledger entry to a new state, together with its owner's account
   * whose held funds change by the difference of the entry's contributions,
   * keeps every client matched.
   */
  lemma RestateKeepsBalances(s: EngineState, t: TxId, state: TransactionState, a: Account)
    requires BalancesMatchLedger(s) && t in s.transactions
    requires s.transactions[t].clientId in s.accounts && a.available >= 0.0
    requires a.held == s.accounts[s.transactions[t].clientId].held
      - Contribution(s.transactions[t], s.transactions[t].clientId)
      + Contribution(s.transactions[t].(state := state), s.transactions[t].clientId)
    ensures BalancesMatchLedger(EngineState(
      s.accounts[s.transactions[t].clientId := a],
      s.transactions[t := s.transactions[t].(state := state)]))
  {
    var updated := s.transactions[t].(state := state);
    forall c | c in s.accounts
      ensures DisputedSum(s.transactions[t := updated], c)
           == DisputedSum(s.transactions, c) - Contribution(s.transactions[t], c) + Contribution(updated, c)
    {
      DisputedSumUpdate(s.transactions, t, updated, c);
    }
  }

  lemma DisputeKeepsBalances(s: EngineState, r: InputRecord)
    requires Consistent(s)
    ensures BalancesMatchLedger(HandleDispute(s, r).state)
  {
    if r.txId in s.transactions {
      var info := s.transactions[r.txId];
      if info.state == Normal && info.clientId in s.accounts {
        var applied := s.accounts[info.clientId].Hold(info.amount);
        if applied.ok {
          RestateKeepsBalances(s, r.txId, Disputed, applied.account);
        }
      }
    }
  }

  lemma ResolveKeepsBalances(s: EngineState, r: InputRecord)
    requires Consistent(s)
    ensures BalancesMatchLedger(HandleResolve(s, r).state)
  {
    if r.txId in s.transactions {
      var info := s.transactions[r.txId];
      if info.state == Disputed && info.clientId in s.accounts {
        var applied := s.accounts[info.clientId].Release(info.amount);
        if applied.ok {
          assert info.amount > 0.0 && s.accounts[info.clientId].available >= 0.0;
          RestateKeepsBalances(s, r.txId, Normal, applied.account);
        }
      }
    }
  }

  lemma ChargebackKeepsBalances(s: EngineState, r: InputRecord)
    requires Consistent(s)
    ensures BalancesMatchLedger(HandleChargeback(s, r).state)
  {
    if r.txId in s.transactions {
      var info := s.transactions[r.txId];
      if info.state == Disputed && info.clientId in s.accounts {
        var applied := s.accounts[info.clientId].Chargeback(info.amount);
        if applied.ok {
          assert s.accounts[info.clientId].available >= 0.0;
          RestateKeepsBalances(s, r.txId, ChargedBack, applied.account);
        }
      }
    }
  }

  /** Every record, valid or not, keeps the engine invariant. */
  lemma ProcessPreservesConsistent(s: EngineState, r: InputRecord)
    requires Consistent(s)
    ensures Consistent(Process(s, r).state)
  {
    if !((r.recordType == Deposit || r.recordType == Withdrawal) && r.txId in s.transactions) {
      match r.recordType
      case Deposit => DepositKeepsStructure(s, r); DepositKeepsBalances(s, r);
      case Withdrawal => WithdrawalKeepsStructure(s, r); WithdrawalKeepsBalances(s, r);
      case Dispute => DisputeKeepsStructure(s, r); DisputeKeepsBalances(s, r);
      case Resolve => ResolveKeepsStructure(s, r); ResolveKeepsBalances(s, r);
      case Chargeback => ChargebackKeepsStructure(s, r); ChargebackKeepsBalances(s, r);
    }
  }

  // ---------------------------------------------------------------------------
  // What processing one record does
  // ---------------------------------------------------------------------------

  /** A deposit or withdrawal whose id is already in the ledger is dropped without error. */
  lemma DuplicateIsIgnored(s: EngineState, r: InputRecord)
    requires r.recordType == Deposit || r.recordType == Withdrawal
    requires r.txId in s.transactions
    ensures Process(s, r) == Processed(Ok, s)
  {
  }

  /** A new deposit or withdrawal without a positive amount is rejected and changes nothing. */
  lemma InvalidAmountIsRejected(s: EngineState, r: InputRecord)
    requires r.recordType == Deposit || r.recordType == Withdrawal
    requires r.txId !in s.transactions && !PositiveAmount(r.amount)
    ensures Process(s, r).state == s
    ensures Process(s, r).result
         == Err(InvalidTransaction(if r.amount.None? then MissingAmount else NonPositiveAmount))
  {
  }

  /** A valid new deposit credits the client (creating the account) and is recorded as `Normal`. */
  lemma DepositEffect(s: EngineState, r: InputRecord)
    requires r.recordType == Deposit && r.txId !in s.transactions && PositiveAmount(r.amount)
    ensures var p := Process(s, r); var before := AccountOf(s.accounts, r.clientId);
      && p.result == Ok
      && p.state.accounts == s.accounts[r.clientId := before.Deposit(r.amount.value)]
      && (r.clientId !in s.accounts ==> p.state.accounts[r.clientId].clientId == r.clientId)
      && p.state.accounts[r.clientId].available == before.available + r.amount.value
      && p.state.accounts[r.clientId].held == before.held
      && p.state.accounts[r.clientId].locked == before.locked
      && p.state.transactions == s.transactions[r.txId := TransactionInfo(r.clientId, r.amount.value, Normal)]
  {
  }

  /**
   * A valid new withdrawal debits the client only when the account is unlocked
   * and has the funds, yet returns `Ok` either way; the ledger is untouched.
   */
  lemma WithdrawalEffect(s: EngineState, r: InputRecord)
    requires r.recordType == Withdrawal && r.txId !in s.transactions && PositiveAmount(r.amount)
    ensures var p := Process(s, r); var before := AccountOf(s.accounts, r.clientId);
      var x := r.amount.value;
      && p.result == Ok
      && p.state.transactions == s.transactions
      && p.state.accounts == s.accounts[r.clientId := before.Withdraw(x).account]
      && (r.clientId !in s.accounts ==> p.state.accounts[r.clientId].clientId == r.clientId)
      && p.state.accounts[r.clientId].available
         == (if !before.locked && before.available >= x then before.available - x else before.available)
      && p.state.accounts[r.clientId].held == before.held
      && p.state.accounts[r.clientId].locked == before.locked
  {
  }

  /**
   * Dispute, resolve and chargeback never fail, never create an account or a
   * ledger entry, and ignore the record's own client id and amount.
   */
  lemma DisputeFamilyIsSilent(s: EngineState, r: InputRecord, other: ClientId, amount: Option<real>)
    requires r.recordType == Dispute || r.recordType == Resolve || r.recordType == Chargeback
    ensures Process(s, r).result == Ok
    ensures Process(s, r).state.accounts.Keys == s.accounts.Keys
    ensures Process(s, r).state.transactions.Keys == s.transactions.Keys
    ensures Process(s, r) == Process(s, r.(clientId := other, amount := amount))
  {
  }

  /** Unknown ids and entries in the wrong state leave the engine as it was. */
  lemma WrongStateIsNoOp(s: EngineState, r: InputRecord)
    requires r.recordType == Dispute || r.recordType == Resolve || r.recordType == Chargeback
    requires r.txId !in s.transactions
          || (r.recordType == Dispute && s.transactions[r.txId].state != Normal)
          || (r.recordType != Dispute && s.transactions[r.txId].state != Disputed)
    ensures Process(s, r) == Processed(Ok, s)
  {
  }

  /**
   * A dispute of a `Normal` entry holds its amount on the stored client's
   * account, and the entry becomes `Disputed` exactly when the hold succeeds.
   */
  lemma DisputeEffect(s: EngineState, r: InputRecord)
    requires r.recordType == Dispute && r.txId in s.transactions
    requires s.transactions[r.txId].state == Normal
    requires s.transactions[r.txId].clientId in s.accounts
    ensures var info := s.transactions[r.txId]; var a := s.accounts[info.clientId];
      var p := Process(s, r).state;
      && (!a.locked && a.available >= info.amount ==>
            && p.accounts == s.accounts[info.clientId := a.(available := a.available - info.amount,
                                                            held := a.held + info.amount)]
            && p.transactions == s.transactions[r.txId := info.(state := Disputed)])
      && (a.locked || a.available < info.amount ==> p == s)
  {
  }

  /**
   * Resolving a `Disputed` entry succeeds exactly when the client is not locked:
   * the invariant guarantees the held funds cover it. The entry goes back to
   * `Normal` and stays in the ledger, so it can be disputed again.
   */
  lemma ResolveEffect(s: EngineState, r: InputRecord)
    requires Consistent(s)
    requires r.recordType == Resolve && r.txId in s.transactions
    requires s.transactions[r.txId].state == Disputed
    ensures var info := s.transactions[r.txId]; var a := s.accounts[info.clientId];
      var p := Process(s, r).state;
      && (!a.locked ==>
            && p.accounts == s.accounts[info.clientId := a.(available := a.available + info.amount,
                                                            held := a.held - info.amount)]
            && p.transactions == s.transactions[r.txId := info.(state := Normal)])
      && (a.locked ==> p == s)
  {
    HeldCoversDisputed(s, r.txId);
  }

  /**
   * Charging back a `Disputed` entry always succeeds under the invariant: the
   * held funds drop by its amount, the client is locked and the entry becomes
   * `ChargedBack`.
   */
  lemma ChargebackEffect(s: EngineState, r: InputRecord)
    requires Consistent(s)
    requires r.recordType == Chargeback && r.txId in s.transactions
    requires s.transactions[r.txId].state == Disputed
    ensures var info := s.transactions[r.txId]; var a := s.accounts[info.clientId];
      var p := Process(s, r).state;
      && p.accounts == s.accounts[info.clientId := a.(held := a.held - info.amount, locked := true)]
      && p.transactions == s.transactions[r.txId := info.(state := ChargedBack)]
  {
    HeldCoversDisputed(s, r.txId);
  }

  /** Disputing the same transaction twice in a row has the effect of disputing it once. */
  lemma DisputeIsIdempotent(s: EngineState, r: InputRecord)
    requires r.recordType == Dispute
    ensures Process(Process(s, r).state, r) == Processed(Ok, Process(s, r).state)
  {
  }

  /**
   * A successful dispute immediately followed by a resolve of the same
   * transaction restores accounts and ledger exactly.
   */
  lemma DisputeThenResolveRestores(s: EngineState, t: TxId, c: ClientId)
    requires Consistent(s)
    requires Process(s, InputRecord(Dispute, c, t, None)).state != s
    ensures Process(Process(s, InputRecord(Dispute, c, t, None)).state, InputRecord(Resolve, c, t, None)).state == s
  {
    var info := s.transactions[t];
    var a := s.accounts[info.clientId];
    HeldNonNegative(s, info.clientId);
    assert a.Hold(info.amount).ok;
    HoldThenRelease(a, info.amount);
    var s1 := Process(s, InputRecord(Dispute, c, t, None)).state;
    assert s1.accounts[info.clientId := a] == s.accounts;
    assert s1.transactions[t := info] == s.transactions;
  }

  /** A charged-back entry is final: no record changes it again. */
  lemma ChargedBackIsFinal(s: EngineState, r: InputRecord, t: TxId)
    requires t in s.transactions && s.transactions[t].state == ChargedBack
    ensures t in Process(s, r).state.transactions
    ensures Process(s, r).state.transactions[t] == s.transactions[t]
  {
  }

  /** Processing never unlocks an account and never removes one. */
  lemma LockIsMonotoneInEngine(s: EngineState, r: InputRecord, c: ClientId)
    requires c in s.accounts && s.accounts[c].locked
    ensures c in Process(s, r).state.accounts && Process(s, r).state.accounts[c].locked
  {
  }

  /**
   * Withdrawals are not recorded in the ledger, so a dispute naming a
   * withdrawal's id right after it is treated as unknown and does nothing.
   */
  lemma WithdrawalCannotBeDisputed(s: EngineState, w: InputRecord, c: ClientId)
    requires w.recordType == Withdrawal && w.txId !in s.transactions
    ensures var s1 := Process(s, w).state;
      Process(s1, InputRecord(Dispute, c, w.txId, None)) == Processed(Ok, s1)
  {
  }

  /**
   * For the same reason a later deposit may reuse a withdrawal's id: it is
   * accepted and recorded under that id as an ordinary `Normal` entry, which
   * a dispute of the id then acts on.
   */
  lemma DepositCanReuseWithdrawalId(s: EngineState, w: InputRecord, d: InputRecord)
    requires w.recordType == Withdrawal && w.txId !in s.transactions
    requires d.recordType == Deposit && d.txId == w.txId && PositiveAmount(d.amount)
    ensures var s1 := Process(s, w).state; var p := Process(s1, d);
      && p.result == Ok
      && p.state.transactions == s.transactions[d.txId := TransactionInfo(d.clientId, d.amount.value, Normal)]
      && d.clientId in p.state.accounts
  {
    var s1 := Process(s, w).state;
    assert s1.transactions == s.transactions;
    DepositEffect(s1, d);
  }

  /**
   * Because withdrawal ids are never recorded, the duplicate check does not
   * catch a repeated withdrawal: the same record applied twice debits twice.
   */
  lemma RepeatedWithdrawalDebitsTwice(s: EngineState, w: InputRecord)
    requires w.recordType == Withdrawal && w.txId !in s.transactions && PositiveAmount(w.amount)
    requires w.clientId in s.accounts && !s.accounts[w.clientId].locked
    requires s.accounts[w.clientId].available >= 2.0 * w.amount.value
    ensures var s2 := Process(Process(s, w).state, w).state;
      s2.accounts[w.clientId].available == s.accounts[w.clientId].available - 2.0 * w.amount.value
  {
    WithdrawalEffect(s, w);
    WithdrawalEffect(Process(s, w).state, w);
  }

  // ---------------------------------------------------------------------------
  // The snapshot handed to the output writer
  // ---------------------------------------------------------------------------

  /** One output record per account, in no particular order. */
  function Snapshot(accounts: map<ClientId, Account>): (out: set<OutputRecord>)
    ensures forall c :: c in accounts ==> accounts[c].ToOutputRecord() in out
    ensures forall o :: o in out ==> exists c :: c in accounts && o == accounts[c].ToOutputRecord()
  {
    set c | c in accounts :: accounts[c].ToOutputRecord()
  }

  /** With accounts keyed by client, the snapshot has exactly one record per account. */
  lemma {:induction false} SnapshotHasOneRecordPerAccount(accounts: map<ClientId, Account>)
    requires AccountsKeyedByClient(accounts)
    ensures |Snapshot(accounts)| == |accounts|
    ensures forall o :: o in Snapshot(accounts) ==>
      o.clientId in accounts && o == accounts[o.clientId].ToOutputRecord()
    decreases |accounts|
  {
    if |accounts| != 0 {
      var c :| c in accounts;
      var rest := accounts - {c};
      assert rest.Keys == accounts.Keys - {c};
      SnapshotHasOneRecordPerAccount(rest);
      var o := accounts[c].ToOutputRecord();
      assert o !in Snapshot(rest);
      forall x | x in Snapshot(accounts) ensures x in Snapshot(rest) + {o} {
        var d :| d in accounts && x == accounts[d].ToOutputRecord();
        if d != c {
          assert d in rest;
        }
      }
      forall x | x in Snapshot(rest) ensures x in Snapshot(accounts) {
        var d :| d in rest && x == rest[d].ToOutputRecord();
        assert d in accounts;
      }
      assert Snapshot(accounts) == Snapshot(rest) + {o};
    }
  }
}

/**
 * Plain data of the payments engine and the per-client balance holder.
 *
 * Amounts are exact decimals in the system; only addition, subtraction and
 * comparison are ever applied to them, so they are modelled as `real`.
 */
module Models {

  /** Client identifiers are unsigned 16-bit integers. */
  type ClientId = x: int | 0 <= x < 0x1_0000

  /** Transaction identifiers are unsigned 32-bit integers. */
  type TxId = x: int | 0 <= x < 0x1_0000_0000

  datatype Option<T> = None | Some(value: T)

  /** The five kinds of record the engine understands. */
  datatype TransactionType = Deposit | Withdrawal | Dispute | Resolve | Chargeback

  /** One already-parsed input row; `amount` is absent for the dispute family. */
  datatype InputRecord = InputRecord(
    recordType: TransactionType,
    clientId: ClientId,
    txId: TxId,
    amount: Option<real>)

  /** The reporting projection of an account. */
  datatype OutputRecord = OutputRecord(
    clientId: ClientId,
    available: real,
    held: real,
    total: real,
    locked: bool)

  /**
   * Dispute state of a ledger entry. The engine writes a third state,
   * `ChargedBack`, after a successful chargeback, so it is part of the model.
   */
  datatype TransactionState = Normal | Disputed | ChargedBack

  /** What the ledger remembers about a deposit so that it can be disputed later. */
  datatype TransactionInfo = TransactionInfo(clientId: ClientId, amount: real, state: TransactionState)

  /** Outcome of a guarded account operation: its success flag and the account afterwards. */
  datatype Applied = Applied(ok: bool, account: Account)

  /** One client's balances. */
  datatype Account = Account(clientId: ClientId, available: real, held: real, locked: bool)
  {
    function Total(): real
    {
      available + held
    }

    /** Adds to the available funds; allowed even on a locked account. */
    function Deposit(amount: real): (a: Account)
      ensures a.available == available + amount
      ensures a.held == held && a.locked == locked && a.clientId == clientId
    {
      this.(available := available + amount)
    }

    /** Takes funds out of `available`; refused on a locked account or when funds are short. */
    function Withdraw(amount: real): (r: Applied)
      ensures r.ok <==> !locked && available >= amount
      ensures r.ok ==> r.account.available == available - amount && r.account.held == held
      ensures r.ok ==> r.account.locked == locked && r.account.clientId == clientId
      ensures !r.ok ==> r.account == this
    {
      if !locked && available >= amount then
        Applied(true, this.(available := available - amount))
      else
        Applied(false, this)
    }

    /** Moves funds from `available` to `held` for a dispute; the total is kept. */
    function Hold(amount: real): (r: Applied)
      ensures r.ok <==> !locked && available >= amount
      ensures r.ok ==> r.account.available == available - amount && r.account.held == held + amount
      ensures r.ok ==> r.account.locked == locked && r.account.clientId == clientId
      ensures !r.ok ==> r.account == this
    {
      if !locked && available >= amount then
        Applied(true, this.(available := available - amount, held := held + amount))
      else
        Applied(false, this)
    }

    /** Moves funds from `held` back to `available` when a dispute is resolved. */
    function Release(amount: real): (r: Applied)
      ensures r.ok <==> !locked && held >= amount
      ensures r.ok ==> r.account.available == available + amount && r.account.held == held - amount
      ensures r.ok ==> r.account.locked == locked && r.account.clientId == clientId
      ensures !r.ok ==> r.account == this
    {
      if !locked && held >= amount then
        Applied(true, this.(held := held - amount, available := available + amount))
      else
        Applied(false, this)
    }

    /** Removes held funds and locks the account; the lock flag does not block it. */
    function Chargeback(amount: real): (r: Applied)
      ensures r.ok <==> held >= amount
      ensures r.ok ==> r.account.available == available && r.account.held == held - amount
      ensures r.ok ==> r.account.locked && r.account.clientId == clientId
      ensures !r.ok ==> r.account == this
    {
      if held >= amount then
        Applied(true, this.(held := held - amount, locked := true))
      else
        Applied(false, this)
    }

    /** The reporting projection, whose total is always available plus held. */
    function ToOutputRecord(): (o: OutputRecord)
      ensures o.clientId == clientId && o.available == available && o.held == held
      ensures o.locked == locked
      ensures o.total == o.available + o.held
    {
      OutputRecord(clientId, available, held, Total(), locked)
    }
  }

  /** A fresh account for `clientId`: no funds and not locked. */
  function NewAccount(clientId: ClientId): (a: Account)
    ensures a.clientId == clientId && !a.locked
    ensures a.available == 0.0 && a.held == 0.0
  {
    Account(clientId, 0.0, 0.0, false)
  }

  /**
   * How each operation moves the total: a deposit adds the amount, a
   * successful withdrawal or chargeback takes it away, and a hold or release
   * only shifts funds between `available` and `held`. A refused operation
   * leaves the total as it was.
   */
  lemma TotalEffects(a: Account, amount: real)
    ensures a.Deposit(amount).Total() == a.Total() + amount
    ensures var w := a.Withdraw(amount); w.account.Total() == if w.ok then a.Total() - amount else a.Total()
    ensures a.Hold(amount).account.Total() == a.Total()
    ensures a.Release(amount).account.Total() == a.Total()
    ensures var c := a.Chargeback(amount); c.account.Total() == if c.ok then a.Total() - amount else a.Total()
  {
  }

  /** A successful hold followed by a release of the same amount restores the account exactly. */
  lemma HoldThenRelease(a: Account, amount: real)
    requires a.held >= 0.0 && a.Hold(amount).ok
    ensures a.Hold(amount).account.Release(amount).ok
    ensures a.Hold(amount).account.Release(amount).account == a
  {
  }

  /** No account operation ever clears the lock flag. */
  lemma LockIsMonotone(a: Account, amount: real)
    requires a.locked
    ensures a.Deposit(amount).locked
    ensures a.Withdraw(amount).account.locked
    ensures a.Hold(amount).account.locked
    ensures a.Release(amount).account.locked
    ensures a.Chargeback(amount).account.locked
  {
  }

  /** On a locked account every operation except deposit and chargeback is refused. */
  lemma LockedAccountRefuses(a: Account, amount: real)
    requires a.locked
    ensures !a.Withdraw(amount).ok && !a.Hold(amount).ok && !a.Release(amount).ok
    ensures a.Chargeback(amount).ok <==> a.held >= amount
  {
  }

  /** With a positive amount, no operation drives a non-negative balance below zero. */
  lemma OperationsKeepBalancesNonNegative(a: Account, amount: real)
    requires amount > 0.0 && a.available >= 0.0 && a.held >= 0.0
    ensures a.Deposit(amount).available >= 0.0
    ensures var w := a.Withdraw(amount).account; w.available >= 0.0 && w.held >= 0.0
    ensures var h := a.Hold(amount).account; h.available >= 0.0 && h.held >= 0.0
    ensures var r := a.Release(amount).account; r.available >= 0.0 && r.held >= 0.0
    ensures var c := a.Chargeback(amount).account; c.available >= 0.0 && c.held >= 0.0
  {
  }
}

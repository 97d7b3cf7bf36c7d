# payments-engine, modelled in Dafny

The payments engine replays a stream of transaction records against client
accounts. There are five kinds of record: deposit, withdrawal, dispute,
resolve and chargeback. After the replay it reports each client's available,
held and total funds and whether the account is locked. This project models
the engine's core in Dafny 4.11 and proves what it promises.

The core has two parts:
- the per-client `Account` with its five guarded balance operations
  (`src/models.rs`);
- the `PaymentEngine`, which owns the accounts by client id and a ledger of
  deposits by transaction id, and dispatches each record to a handler
  (`src/engine.rs`).

Files:

- `models.dfy`, module `Models`:
  - the records (`InputRecord`, `OutputRecord`, `TransactionInfo`) and the enums;
  - client ids bounded to the unsigned 16-bit range and transaction ids to the unsigned 32-bit range;
  - `Account` and its operations. Each guarded operation returns its success flag together with the account afterwards.
- `ledger.dfy`, module `Ledger`:
  - the engine's behaviour as pure transitions over its two maps (`Process` and one function per handler);
  - the engine invariant `Consistent` and the proof that every record keeps it;
  - lemmas on what each kind of record does;
  - the output snapshot.
- `engine.dfy`, module `Engine`:
  - the class `PaymentEngine` with the two maps as fields;
  - methods that update them in place, in the order the handlers do. Each method is proved to produce exactly the state and result of the matching `Ledger` transition;
  - `Process` additionally keeps `Valid()`.
- `scenarios.dfy`, module `Scenarios`: the repository's unit tests and CSV cases, replayed against the model.
  - The account tests (`src/engine.rs:187-320`) apply each case's operation to the account the test builds, and check the success flag and the balances.
  - The engine tests (`src/engine.rs:322-428`) and the CSV cases (`src/csv_handler.rs:88-141`) start from `Ledger.Empty()`, a new engine, and feed the records to `Ledger.Process` in order, one transition per assertion.
  - A scenario is split over several small lemmas. Each lemma ends in a named state, and the next lemma starts from it.

The engine invariant (`Ledger.Consistent`) says:
- every account is stored under its own client id;
- every ledger entry belongs to a client that has an account, and carries a positive amount;
- the client of a charged-back entry is locked;
- available funds are never negative;
- each client's held funds equal the sum of the amounts of that client's `Disputed` ledger entries.

The constructor establishes it and `Process` keeps it. From it follow:
- a resolve or chargeback of a disputed deposit always finds the funds held (`HeldCoversDisputed`);
- the "account missing" branches of the three dispute handlers are never taken on a reachable state.

Amounts are exact decimals with `+`, `-` and comparisons only, and are modelled as `real`.

### Where the code differs from its own declarations and comments

The model follows what the code does in each case.

- **Transaction states.** `src/models.rs:118-121` declares only `Normal` and `Disputed`. However, `src/engine.rs:163` writes `TransactionState::ChargedBack` and the test at `src/engine.rs:379` expects it. The model therefore has three states.
  - Nothing is ever removed from `transactions`: a resolve sets the entry back to `Normal` (`src/engine.rs:135`) and a chargeback marks it `ChargedBack` (`src/engine.rs:163`).
  - Because a resolved entry is `Normal` again (test `src/engine.rs:359`), the deposit can be disputed again.
  - A `ChargedBack` entry is not acted on by any handler again (`Ledger.ChargedBackIsFinal`).
- **Duplicate withdrawals.** The comment at `src/engine.rs:29-33` says duplicate deposit and withdrawal transactions are ignored. The check guarding it looks the id up only in the ledger (`src/engine.rs:30-31`), and only deposits are entered there (`src/engine.rs:60-67`). A withdrawal that reuses an earlier withdrawal's id is therefore applied again (`Ledger.RepeatedWithdrawalDebitsTwice`), and a dispute naming a withdrawal's id right after it does nothing (`Ledger.WithdrawalCannotBeDisputed`). The same ledger-only check also lets a later deposit reuse a withdrawal's id: the deposit is accepted and recorded under that id (`Ledger.DepositCanReuseWithdrawalId`), and a dispute of the id then acts on the deposit. Both run against the "already processed" comment at `src/engine.rs:29-33`.

## Model

| member | source | states |
|---|---|---|
| `Models.NewAccount` | src/models.rs:44-51 | a fresh account has the given client id, no available or held funds, and is not locked |
| `Models.Account.Total` | src/models.rs:53-55 | the total is available plus held; `Models.TotalEffects` states how each operation moves it and `Models.Account.ToOutputRecord` that the report carries it |
| `Models.Account.Deposit` | src/models.rs:58-60 | a deposit always adds the amount to `available`, even on a locked account, and changes neither `held` nor `locked` |
| `Models.Account.Withdraw` | src/models.rs:64-71 | succeeds exactly when the account is unlocked and `available >= amount`; on success only `available` falls, by the amount; on failure the account is unchanged |
| `Models.Account.Hold` | src/models.rs:74-82 | succeeds exactly when unlocked and `available >= amount`; on success the amount moves from `available` to `held`; on failure nothing changes |
| `Models.Account.Release` | src/models.rs:85-93 | succeeds exactly when unlocked and `held >= amount`; on success the amount moves from `held` back to `available`; on failure nothing changes |
| `Models.Account.Chargeback` | src/models.rs:96-104 | succeeds exactly when `held >= amount`, whatever the lock; on success `held` falls by the amount, `available` is kept and the account becomes locked; on failure nothing changes |
| `Models.Account.ToOutputRecord` | src/models.rs:106-114 | the report copies client id, available, held and locked, and its total is available plus held |
| `Models.TotalEffects` | src/models.rs:53-104 | the total (available plus held) rises by a deposit, falls by a successful withdrawal or chargeback, and is kept by hold, release and every refused operation |
| `Models.HoldThenRelease` | src/models.rs:74-93 | a successful hold followed by a release of the same amount succeeds and restores the account exactly |
| `Models.LockIsMonotone` | src/models.rs:58-104 | no account operation unlocks a locked account |
| `Models.LockedAccountRefuses` | src/models.rs:64-104 | on a locked account withdraw, hold and release are refused, and chargeback succeeds exactly when the held funds cover it |
| `Models.OperationsKeepBalancesNonNegative` | src/models.rs:58-104 | with a positive amount, no operation takes non-negative available or held funds below zero |
| `Ledger.Process` | src/engine.rs:26-44 | an error leaves both maps unchanged, and processing never removes an account or a ledger entry |
| `Ledger.HandleDeposit` | src/engine.rs:47-69 | fails exactly when the amount is missing or not positive, and then changes nothing; otherwise the client gains an account if it had none and the ledger gains the transaction id |
| `Ledger.HandleWithdrawal` | src/engine.rs:72-84 | fails exactly when the amount is missing or not positive, and then changes nothing; otherwise the client gains an account if it had none; the ledger is never touched |
| `Ledger.HandleDispute` | src/engine.rs:87-112 | always `Ok`; never adds or removes an account or a ledger entry |
| `Ledger.HandleResolve` | src/engine.rs:115-139 | always `Ok`; never adds or removes an account or a ledger entry |
| `Ledger.HandleChargeback` | src/engine.rs:142-167 | always `Ok`; never adds or removes an account or a ledger entry |
| `Ledger.EmptyIsConsistent` | src/engine.rs:14-16 | a new engine has no accounts and an empty ledger, and satisfies the engine invariant |
| `Ledger.HeldCoversDisputed` | src/engine.rs:124-161 | under the invariant a disputed deposit's client has an account whose held funds cover the deposit, so resolve and chargeback find the funds they need |
| `Ledger.HeldNonNegative` | src/engine.rs:26-167 | under the invariant no account has negative held funds |
| `Ledger.DepositKeepsStructure` | src/engine.rs:47-69 | a deposit keeps accounts keyed by client, ledger entries owned and positive, and charged-back clients locked |
| `Ledger.WithdrawalKeepsStructure` | src/engine.rs:72-84 | a withdrawal keeps the same structural facts |
| `Ledger.DisputeKeepsStructure` | src/engine.rs:87-112 | a dispute keeps the same structural facts |
| `Ledger.ResolveKeepsStructure` | src/engine.rs:115-139 | a resolve keeps the same structural facts |
| `Ledger.ChargebackKeepsStructure` | src/engine.rs:142-167 | a chargeback keeps the same structural facts, locking the client of the entry it marks `ChargedBack` |
| `Ledger.DepositKeepsBalances` | src/engine.rs:55-67 | a new deposit keeps every available balance non-negative and every held balance equal to the client's disputed sum |
| `Ledger.WithdrawalKeepsBalances` | src/engine.rs:80-83 | a withdrawal keeps available non-negative and held equal to the disputed sum |
| `Ledger.DisputeKeepsBalances` | src/engine.rs:105-110 | a dispute moves exactly the entry's amount into held as the entry becomes `Disputed`, keeping held equal to the disputed sum |
| `Ledger.ResolveKeepsBalances` | src/engine.rs:133-137 | a resolve releases exactly the entry's amount as the entry leaves `Disputed`, keeping held equal to the disputed sum |
| `Ledger.ChargebackKeepsBalances` | src/engine.rs:161-165 | a chargeback removes exactly the entry's amount from held as the entry leaves `Disputed`, keeping held equal to the disputed sum |
| `Ledger.ProcessPreservesConsistent` | src/engine.rs:26-167 | every record, valid or not, keeps the engine invariant |
| `Ledger.DuplicateIsIgnored` | src/engine.rs:29-35 | a deposit or withdrawal whose id is already in the ledger returns `Ok` and changes nothing |
| `Ledger.InvalidAmountIsRejected` | src/engine.rs:47-78 | a new deposit or withdrawal without a positive amount is rejected with the matching reason and changes nothing, so no account is created |
| `Ledger.DepositEffect` | src/engine.rs:55-67 | a valid new deposit replaces only the client's entry in `accounts`, with the existing or a new account for that client credited; the amount is added to `available` even when locked; the deposit is recorded as `Normal` under its id |
| `Ledger.WithdrawalEffect` | src/engine.rs:80-83 | a valid new withdrawal replaces only the client's entry in `accounts`, with the existing or a new account for that client after `withdraw`; it debits only when unlocked with enough funds, returns `Ok` either way and leaves the ledger unchanged |
| `Ledger.DisputeFamilyIsSilent` | src/engine.rs:87-167 | dispute, resolve and chargeback always return `Ok`, never create an account or ledger entry, and ignore the record's own client id and amount |
| `Ledger.WrongStateIsNoOp` | src/engine.rs:88-153 | an unknown id, a dispute of a non-`Normal` entry, or a resolve or chargeback of a non-`Disputed` entry changes nothing |
| `Ledger.DisputeEffect` | src/engine.rs:96-110 | a dispute of a `Normal` entry holds its amount on the stored client's account, and the entry becomes `Disputed` exactly when that hold succeeds; it needs only that the stored client has an account, not the balance invariant |
| `Ledger.ResolveEffect` | src/engine.rs:124-137 | under the invariant a resolve of a `Disputed` entry succeeds exactly when the client is unlocked, releases the amount and sets the entry back to `Normal`, keeping it in the ledger |
| `Ledger.ChargebackEffect` | src/engine.rs:151-165 | under the invariant a chargeback of a `Disputed` entry always succeeds: held falls by the amount, the client is locked and the entry becomes `ChargedBack` |
| `Ledger.DisputeIsIdempotent` | src/engine.rs:96-98 | disputing the same transaction twice in a row has the effect of disputing it once |
| `Ledger.DisputeThenResolveRestores` | src/engine.rs:87-139 | under the invariant a successful dispute followed by a resolve of the same transaction restores accounts and ledger exactly |
| `Ledger.ChargedBackIsFinal` | src/engine.rs:151-165 | a `ChargedBack` entry stays in the ledger and no record changes it again |
| `Ledger.LockIsMonotoneInEngine` | src/engine.rs:26-167 | processing never removes or unlocks a locked account |
| `Ledger.WithdrawalCannotBeDisputed` | src/engine.rs:72-93 | withdrawals are not entered in the ledger, so a dispute of a withdrawal's id right after it does nothing |
| `Ledger.DepositCanReuseWithdrawalId` | src/engine.rs:29-35 | after a withdrawal with a new id, a valid deposit reusing that id is accepted and recorded as a `Normal` ledger entry under it, because the duplicate check looks only in the ledger and withdrawals are never entered there (src/engine.rs:60-67) |
| `Ledger.RepeatedWithdrawalDebitsTwice` | src/engine.rs:29-35 | the duplicate check misses withdrawal ids: the same withdrawal processed twice debits the account twice |
| `Ledger.Snapshot` | src/engine.rs:170-175 | the report holds the output record of every account and nothing else |
| `Ledger.SnapshotHasOneRecordPerAccount` | src/engine.rs:170-175 | with accounts keyed by client, the report has exactly one record per account, each equal to that client's account's output record |
| `Engine.PaymentEngine.constructor` | src/engine.rs:14-16 | a new engine has empty maps and satisfies the invariant |
| `Engine.PaymentEngine.GetOrCreateAccount` | src/engine.rs:19-23 | returns the client's account, first inserting a zero-balance one when absent; the ledger is untouched |
| `Engine.PaymentEngine.Process` | src/engine.rs:26-44 | the in-place update yields exactly `Ledger.Process` of the old state, and keeps the engine invariant |
| `Engine.PaymentEngine.HandleDeposit` | src/engine.rs:47-69 | the in-place deposit yields exactly `Ledger.HandleDeposit` of the old state |
| `Engine.PaymentEngine.HandleWithdrawal` | src/engine.rs:72-84 | the in-place withdrawal yields exactly `Ledger.HandleWithdrawal` of the old state |
| `Engine.PaymentEngine.HandleDispute` | src/engine.rs:87-112 | the in-place dispute yields exactly `Ledger.HandleDispute` of the old state |
| `Engine.PaymentEngine.HandleResolve` | src/engine.rs:115-139 | the in-place resolve yields exactly `Ledger.HandleResolve` of the old state |
| `Engine.PaymentEngine.HandleChargeback` | src/engine.rs:142-167 | the in-place chargeback yields exactly `Ledger.HandleChargeback` of the old state |
| `Engine.PaymentEngine.GetAccounts` | src/engine.rs:170-175 | the engine's report holds the output record of every account and nothing else |

## Left out

- `Account` is a value, not an object. `Models.Account` is a datatype, and each `&mut self` operation returns its success flag together with the updated account. The engine writes that account back into its map. Rust reaches the same account through `get_mut` / `entry`, and the map holds accounts by value, so no aliasing is lost. `GetOrCreateAccount` returns the account rather than a mutable reference, and the handlers store the result back.
- Decimal arithmetic is modelled as exact `real` arithmetic. Neither the scale of `rust_decimal::Decimal` (`Decimal::new(0, 4)` only affects how zero prints) nor its overflow behaviour is modelled.
- Iteration order of `get_accounts` is modelled as a set of output records. It depends on `HashMap` order. The writer's sort by client id is part of the CSV layer.
- `src/csv_handler.rs` is not part of this model: CSV reading and writing, trimming, skipping malformed rows, `eprintln!` warnings, `{:.4}` formatting, and the loop that feeds records to `process` and ignores their errors. Its test cases appear only as scenarios.
- `src/main.rs` (argument check, exit codes, stdout) and `tests/cli.rs` (process-spawning tests) are not part of this model.
- `src/errors.rs`: the csv, io and decimal error wrappers are left out. The model keeps only `InvalidTransaction`, with the reason (missing or non-positive amount) in place of the message text.
- Serde deserialization of records and its field renames are not modelled. Records arrive already typed.

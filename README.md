# Wallet ledger engine — Dafny model

A model of the ledger core of a Laravel wallet package. Each owner (a user model using the
`HasWallet` trait) has at most one wallet. A wallet holds a stored balance and an append-only
sequence of transaction records. Every record has an amount, a unique hash, a type, an
`accepted` flag, its meta, the balance snapshot taken after it, and a timestamp. The model
covers:

- the record's creation hook (`src/Transaction.php`): a missing hash is filled in, then the
  amount, the type and the meta size are checked, in that order;
- the signed amount of a record, and the reconciliation `actualBalance(date)`;
- the owner-side mutators (`src/HasWallet.php`): `deposit`, `failDeposit`, `withdraw`,
  `forceWithdraw` and `failWithdraw`, plus `canWithdraw`, the balance accessor and the
  unbounded `actualBalance()`;
- the legacy wallet-side mutators (`src/Wallet.php`): `credit` and `debit`, the default
  balance, and that class's own `actualBalance()`, which does not look at `accepted`.

Amounts are integers in minor units (`currency_precision` is 2, so one unit is 0.01). Meta is
modelled only by the byte length of its JSON encoding. Timestamps are integers that the
caller supplies. The configuration (the credit-type set and the debit-type set) is an explicit
`Config` value. `DefaultConfig()` gives the published defaults.

Structure, one module per source file:

- `common.dfy`, module `Common`: `Option`, the error taxonomy, `Outcome`, `Result`.
- `config.dfy`, module `WalletConfig`: the configuration and its defaults.
- `transaction.dfy`, module `Transactions`:
  - the `Txn` record;
  - the hook as a class `Draft` whose `Creating` method assigns the hash in place;
  - the pure functions `FillHash`, `Validate`, `Insert`, `SignedAmount`, `Total`,
    `Reconcile` and `ActualBalanceAsOf`.
- `wallet.dfy`, module `Wallets`:
  - the class `Wallet`, with fields `balance: int` and `txns: seq<Txn>`, and its methods
    `Credit` and `Debit`;
  - the pure step functions `CreditStep` and `DebitStep` that those methods are proved to
    implement;
  - `LegacyActualBalance`.
- `has_wallet.dfy`, module `HasWallet`:
  - the class `Owner`, with field `wallet: Wallet?`, and its five mutators;
  - the pure step functions `DepositStep` and `WithdrawStep`;
  - `Op`, and `Run`, which folds a sequence of operations;
  - the ledger invariants and their preservation lemmas.

Each mutating method is proved equal to its step function. On success the new state is the
step's result. On failure the state is exactly the old one. That is how the model states that
the enclosing `DB::transaction` rolls back the balance change, the record insert and the
wallet creation together. The method bodies follow the source's order: they create the
wallet, change the balance, build and validate the record, and on failure restore what they
changed.

Decisions where the code's behaviour is a judgment call, following the code:

- A refused (accepted, non-forced, insufficient) withdrawal throws inside the database
  transaction. No record is logged, and a wallet created by that call is rolled back too.
- The meta ceiling is the constant 65535 that src/Transaction.php:68 hard-codes. The
  configured `max_meta_size` (config/wallet.php:49) is not read by the code, so it is not
  part of `Config`.
- `deposit` accepts any allowed type, debit types included, and still adds the amount.
  `withdraw` likewise subtracts for a credit type. So the reconciliation invariant
  (`RunKeepsLedger`) is proved only for operations whose accepted type is classified the way
  the operation treats it (`Typed`).
- `Wallet::actualBalance` counts records whether or not they were accepted
  (`LegacyAuditCountsRejected`). When both audits read the same sets and every record is
  accepted, they agree (`LegacyAuditAgreesWhenAllAccepted`). Under the fallback sets they do not
  (`FallbackAuditCountsNothing`).
- `credit` and `debit` default to the types `credit` and `debit`. The published configuration
  lists neither. Under it, the record hook refuses those defaults and the whole call rolls back
  (`LegacyDefaultTypesRejected`).
- The code reads the type sets from the `wallet` configuration key, but the service provider
  merges the package configuration under the key `config` (src/WalletServiceProvider.php:12).
  When the key is absent each reader uses its own fallback. The record hook and the owner-side
  audit fall back to the published sets (`DefaultConfig`). `Wallet::actualBalance` falls back to
  `credit` and `debit` (`LegacyAuditFallback`). So `LegacyActualBalance` takes its own sets.
  Under the fallbacks it counts none of the records the hook accepts
  (`FallbackAuditCountsNothing`, `FallbackCreditInvisibleToAudit`).
- The check inside `withdraw` reads the owner's cached `wallet` relation, which `deposit` and
  `withdraw` never refresh. `WithdrawAsWritten` models that, and "## Findings" shows it
  overdrawing without force. `WithdrawStep`, the `Owner` methods and `RunKeepsNonNegative`
  model the check against the locked wallet row, which is what the code does on an owner
  instance whose relation is not yet loaded or is current. `actualBalance` reads the same cached
  relation, which is not modelled (see "## Left out").
- PHP's `empty` treats the string "0" as empty, so a caller-supplied hash "0" is replaced as
  well (`EmptyHash`).

## Model

| member | source | states |
|---|---|---|
| `Transactions.FillHash` | src/Transaction.php:33-36 | an empty hash ("" or "0") is replaced by the generated one; a non-empty hash is kept and nothing else changes; a non-empty generated hash leaves a non-empty hash |
| `Transactions.Validate` | src/Transaction.php:52-71 | passes iff amount > 0, the type is in the credit or debit set, and meta ≤ 65535 bytes; the error is InvalidAmount iff amount ≤ 0, InvalidTransactionType iff the amount is valid and the type is unknown, MetaTooLarge iff both pass and meta > 65535 (exactly 65535 is accepted) |
| `Transactions.Draft.constructor` | src/Transaction.php:14-22 | the draft holds exactly the given attributes |
| `Transactions.Draft.Creating` | src/Transaction.php:31-41 | the hook assigns the hash in place as `FillHash` does, then returns the validation outcome of the updated record |
| `Transactions.Insert` | src/Transaction.php:31-41 | the hook then the insert: succeeds iff the filled record is well formed and its hash is not already taken; the success appends exactly that record; a validation failure is reported as is, otherwise the failure is HashConflict |
| `Transactions.InsertKeepsHashesUnique` | src/Transaction.php:34-36 | a successful insert keeps all record hashes distinct |
| `Transactions.AppendFreshHash` | src/Transaction.php:34-36 | appending a record whose hash is not taken keeps the hashes distinct |
| `Transactions.SignedAmount` | src/Transaction.php:84-88 | +amount for a credit type, -amount for every other type (unknown types included); for a positive amount, positive iff the type is a credit type |
| `Transactions.Total` | src/Transaction.php:105-115 | the filtered sum of amounts is non-negative when every amount is positive, and 0 when the filter selects nothing |
| `Transactions.TotalAppend` | src/Transaction.php:105-115 | appending a record adds its amount exactly when the filter selects it |
| `Transactions.TotalSkipsUncounted` | src/Transaction.php:105-115 | a record the filter rejects contributes nothing wherever it stands |
| `Transactions.TotalAsOfAfterAll` | src/Transaction.php:108-114 | a date bound at or after every timestamp gives the unbounded sum |
| `Transactions.ActualBalanceAsOf` | src/Transaction.php:93-119 | 0 when the record has no wallet; 0 when every record is rejected or later than the date (the date defaults to now) |
| `Transactions.AsOfSkipsFiltered` | src/Transaction.php:105-117 | a record with `accepted` false or created after the date does not change the as-of balance |
| `Transactions.ReconcileIsSignedTotal` | src/Transaction.php:84-88 | when no type is both credit and debit and every type is known, the reconciliation equals the sum of the accepted records' signed amounts |
| `WalletConfig.DefaultConfigClassifies` | config/wallet.php:29-34 | in the published configuration the credit and debit sets are disjoint: deposit and refund are credit-only; withdraw, payout and reverse are debit-only |
| `WalletConfig.FallbackSetsDisjoint` | src/Wallet.php:134-140 | no type the hook accepts under its fallback sets (src/Transaction.php:59-60) is one of `Wallet::actualBalance`'s fallback types `credit` and `debit` |
| `Wallets.DefaultBalance` | src/Wallet.php:21-29 | a missing balance reads as 0 (creation hook and `balance()`, src/Wallet.php:54-57); a given one is kept |
| `Wallets.ValidateAmount` | src/Wallet.php:62-67 | passes iff amount > 0, otherwise fails with InvalidAmount |
| `Wallets.CreditStep` | src/Wallet.php:72-94 | InvalidAmount for amount ≤ 0 before the lookup; then WalletNotFound if the id does not resolve; then InvalidTransactionType for an unknown type; succeeds iff all checks pass and the hash is free, adding exactly `amount` and appending exactly one record of the given type |
| `Wallets.DebitStep` | src/Wallet.php:101-127 | as `CreditStep`, plus InsufficientBalance when not forced and balance < amount; succeeds iff forced or balance ≥ amount (so balance == amount leaves 0); subtracts exactly `amount`, which a forced debit may take below 0; never negative when not forced |
| `Wallets.Wallet.constructor` | src/Wallet.php:21-29 | a new wallet starts with the default balance and no records |
| `Wallets.Wallet.Credit` | src/Wallet.php:72-94 | the method's outcome and new state are those of `CreditStep`; on failure the wallet is unchanged |
| `Wallets.Wallet.Debit` | src/Wallet.php:101-127 | the method's outcome and new state are those of `DebitStep`; on failure the wallet is unchanged |
| `Wallets.LegacyActualBalance` | src/Wallet.php:132-143 | the audit's credit-type amounts minus its debit-type amounts, whatever `accepted` says; 0 when no record has a type in the audit's sets |
| `Wallets.LegacyAuditAgreesWhenAllAccepted` | src/Wallet.php:132-143 | when the legacy audit reads the same sets as the owner-side one and every record is accepted, `Wallet::actualBalance` equals the owner-side reconciliation |
| `Wallets.LegacyAuditCountsRejected` | src/Wallet.php:132-143 | reading the same sets, a rejected credit-type record raises `Wallet::actualBalance` by its amount and leaves the accepted-only reconciliation unchanged |
| `Wallets.CreditKeepsLegacyReconciled` | src/Wallet.php:84-91 | with a type the legacy audit counts as a credit only, `credit` keeps balance == `Wallet::actualBalance` |
| `Wallets.DebitKeepsLegacyReconciled` | src/Wallet.php:117-124 | with a type the legacy audit counts as a debit only, `debit` keeps balance == `Wallet::actualBalance` |
| `Wallets.LegacyDefaultTypesRejected` | src/Wallet.php:72-127 | under the published configuration, `credit` with its default type, and `debit` with its default type when it passes the balance check, fail with InvalidTransactionType |
| `Wallets.FallbackAuditCountsNothing` | src/Wallet.php:132-143 | with the hook and the legacy audit at their fallback sets, `Wallet::actualBalance` is 0 on any records the hook accepted |
| `Wallets.FallbackCreditInvisibleToAudit` | src/Wallet.php:72-94 | with every set at its fallback, a successful `credit` raises the balance by `amount` and leaves `Wallet::actualBalance` unchanged |
| `HasWallet.BalanceOf` | src/HasWallet.php:16-19 | an owner without a wallet reads 0, otherwise the stored balance |
| `HasWallet.Opened` | src/HasWallet.php:73-80 | a missing wallet is created with balance 0 and no records; an existing one is used as it is |
| `HasWallet.CanWithdraw` | src/HasWallet.php:47-62 | InvalidAmount iff amount ≤ 0; otherwise exactly `balance >= amount` |
| `HasWallet.DepositStep` | src/HasWallet.php:67-95 | InvalidAmount first, then InvalidTransactionType, then MetaTooLarge, then HashConflict for a taken hash; succeeds iff all pass and the hash is free; the balance rises by `amount` iff accepted; exactly one record is appended, with the given `accepted` and a snapshot equal to the new balance |
| `HasWallet.WithdrawStep` | src/HasWallet.php:108-139 | InvalidAmount first; InsufficientBalance when accepted, not forced and balance < amount (nothing logged); then InvalidTransactionType, MetaTooLarge and HashConflict in that order; succeeds iff the amount is valid, the balance check passes or is skipped, the record is valid and the hash is free; subtracts `amount` iff accepted and appends one record whose snapshot is the new balance; never below 0 from a non-negative balance when not forced. This is the check against the locked row, which the code performs only while the owner's relation is unloaded or current (see `WithdrawAsWritten`) |
| `HasWallet.ReadCachedBalance` | src/HasWallet.php:16-19 | `$this->balance` through the relation: a loaded value is returned unchanged however the row has moved; an unloaded relation loads the row's balance (0 without a wallet) and keeps it |
| `HasWallet.WithdrawAsWritten` | src/HasWallet.php:108-139 | `withdraw` with the check of src/HasWallet.php:124 reading the cached relation: refuses when the cached balance is below the amount, and equals `WithdrawStep` whenever the cache is unloaded or current |
| `HasWallet.StaleCacheOverdraws` | src/HasWallet.php:122-127 | balance 100, two unforced withdrawals of 60 on one owner instance: both pass the cached check and leave -20; `WithdrawStep` refuses the second |
| `HasWallet.StaleDefaultRefuses` | src/HasWallet.php:16-19 | a balance read before the wallet exists caches 0; after a deposit of 100 the cached check refuses a withdrawal of 50 that `WithdrawStep` allows |
| `HasWallet.DefaultDepositOnFreshOwner` | src/HasWallet.php:67-95 | `deposit(100)` with default type, meta and `accepted` on an owner without a wallet leaves balance 100 and one accepted record with snapshot 100 |
| `HasWallet.ActualBalance` | src/HasWallet.php:160-176 | 0 for an owner without a wallet, and 0 when no record is accepted |
| `HasWallet.AsOfAfterAllIsActualBalance` | src/Transaction.php:105-117 | a record's `actualBalance(date)` with the date at or after every timestamp equals the owner's unbounded `actualBalance()` (src/HasWallet.php:160-176) |
| `HasWallet.FailedAttemptIsNeutral` | src/HasWallet.php:100-103 | `failDeposit` and `failWithdraw` (src/HasWallet.php:152-155) keep the balance and append one record with `accepted` false and a snapshot equal to the unchanged balance |
| `HasWallet.ForceWithdrawIgnoresBalance` | src/HasWallet.php:144-147 | `forceWithdraw` with a valid record never fails on balance grounds, lowers the balance by `amount`, logs an accepted record, and goes negative when the amount exceeds the balance |
| `HasWallet.AbsentWalletIsFreshWallet` | src/HasWallet.php:73-80 | every operation on an owner without a wallet gives what it gives on a zero-balance wallet with no records |
| `HasWallet.ReconcileAppend` | src/HasWallet.php:160-176 | appending a record moves the reconciliation by its amount if it is an accepted credit and by minus its amount if it is an accepted debit |
| `HasWallet.AppendKeepsReconciled` | src/HasWallet.php:82-92 | for a record typed as the mutator treats it, the reconciliation moves exactly as the balance did |
| `HasWallet.SnapshotsExtend` | src/HasWallet.php:86-93 | a record whose snapshot is the reconciliation of the history including it extends a history whose snapshots all track the reconciliation |
| `HasWallet.SnapshotAt` | src/HasWallet.php:86-93 | under the snapshot invariant, the snapshot of record i is the reconciliation of records 0..i |
| `HasWallet.ApplyKeepsLedger` | src/HasWallet.php:67-139 | one successful typed operation preserves balance == `actualBalance()` and the snapshot invariant |
| `HasWallet.RunKeepsLedger` | src/HasWallet.php:160-176 | with accepted deposits credit-typed and accepted withdrawals debit-typed, any sequence of operations preserves stored balance == `actualBalance()`, and every snapshot equals the reconciliation of the records up to it |
| `HasWallet.FreshOwnerStaysReconciled` | src/HasWallet.php:67-176 | starting from an owner without a wallet, any such sequence ends with stored balance == `actualBalance()` |
| `HasWallet.RunKeepsRecordsSound` | src/Transaction.php:31-71 | along any sequence of owner operations every stored record passes the creation checks and no two records share a hash |
| `HasWallet.RunKeepsNonNegative` | src/HasWallet.php:122-127 | without forced withdrawals a non-negative balance never goes below zero, for withdrawals checked against the locked row (`WithdrawStep`); the code as written can overdraw through a stale cache (`StaleCacheOverdraws`) |
| `HasWallet.Owner.Deposit` | src/HasWallet.php:67-95 | outcome and new state are those of `DepositStep`; on failure the state, including the absence of a wallet, is unchanged; a wallet created by a successful call is fresh |
| `HasWallet.Owner.FailDeposit` | src/HasWallet.php:100-103 | a deposit with `accepted` false, as `DepositStep` gives it |
| `HasWallet.Owner.Withdraw` | src/HasWallet.php:108-139 | outcome and new state are those of `WithdrawStep`; on failure, the refused withdrawal included, the state is unchanged |
| `HasWallet.Owner.ForceWithdraw` | src/HasWallet.php:144-147 | an accepted, forced withdrawal, as `WithdrawStep` gives it |
| `HasWallet.Owner.FailWithdraw` | src/HasWallet.php:152-155 | a withdrawal with `accepted` false and no force, as `WithdrawStep` gives it |

## Left out

- Row locks (`lockForUpdate`) and concurrent interleavings: each operation is one sequential atomic step. Serializability is the storage layer's job, so no property about concurrent deposits is stated.
- The mechanics of `DB::transaction`: a failure is modelled only as "the previous state is kept".
- PHP `float` amounts and casts: amounts are integers in minor units. Rounding and float comparison are not modelled.
- Str::uuid: a generated hash is a parameter, required to be non-empty as a UUID is. The unique index on `hash` is modelled as a HashConflict failure against the wallet's own records only. Uniqueness across wallets needs the whole table, which the model does not hold.
- JSON encoding of meta: meta is only its encoded length. An absent meta on a legacy record encodes as `null`, 4 bytes.
- Wall-clock `now()` and `created_at`: integer timestamps from the caller. Datetime strings are compared as integers.
- Eloquent relationships and the config-driven model and table names (`wallet()`, `transactions()`, `user()`, the constructor's table name): ORM plumbing. An owner's wallet is a nullable reference.
- `Wallets.Wallet.Credit` and `Wallets.Wallet.Debit`: the lookup `find($this->id)` becomes the parameter `found`. The fresh instance that the code updates is identified with the wallet itself, so the staleness of the caller's own instance is not modelled.
- `HasWallet.ActualBalance`: the model reads the current wallet row. The code reads the owner's cached `wallet` relation (src/HasWallet.php:162), whose default (src/HasWallet.php:28-30) is a wallet with no id. An instance that read `balance`, `canWithdraw` or `actualBalance()` before its wallet existed sums no records afterwards. So after `deposit(100)` it returns 0, where the model gives 100.
- `HasWallet.CanWithdraw`: the code reads the owner's cached `wallet` relation, which can be stale inside `withdraw`. This function reads the wallet row being mutated. `ReadCachedBalance` and `WithdrawAsWritten` model the cached read.
- `HasWallet.Owner.Withdraw`: the class has a single wallet object per owner and no relation cache, so it implements the corrected check of `WithdrawStep`, not the stale one of `WithdrawAsWritten`.
- Legacy records lack a `balance` value, so their snapshot is absent. The test schema declares that column NOT NULL (tests/TestCase.php:82), and that insert failure is not modelled. Their `accepted` takes the column default, true (tests/TestCase.php:80).
- `transfer` and `WalletManager`: only declared in the facade's doc comment (src/WalletFacade.php:17), with no implementation. They are not part of this model.
- src/WalletServiceProvider.php and src/WalletFacade.php: dependency-injection and publishing wiring.
- The `?:` default of `actualBalance(date)` treats any falsy date as absent. The model represents an absent date by `None` only.

## Findings

| source | as written | input that shows it | evidently intended | confidence | as-written member | corrected member |
|---|---|---|---|---|---|---|
| src/HasWallet.php:61,124 | the insufficient-balance check of `withdraw` reads `$this->balance`, the owner's cached `wallet` relation, which `deposit` and `withdraw` never refresh because they update a separately fetched, locked instance | one owner instance at balance 100: `withdraw(60)` (the check caches 100, the row goes to 40), then `withdraw(60)` again — the check sees 100 and the row goes to -20 without force | compare against the locked row's balance, so an unforced withdrawal never takes the balance below zero | not executed | `HasWallet.StaleCacheOverdraws` | `HasWallet.RunKeepsNonNegative` |

/**
 * The wallet row and its legacy mutators `credit` and `debit`, which act on a wallet id
 * directly, and its own reconciliation, which ignores the `accepted` flag.
 */
module Wallets {
  import opened Common
  import opened WalletConfig
  import opened Transactions

  /** The stored state of one wallet: its balance column and its records, oldest first. */
  datatype WalletRow = WalletRow(balance: int, txns: seq<Txn>)

  /** `balance ?? 0`: a wallet with no balance reads as, and is created with, 0. */
  function DefaultBalance(b: Option<int>): (r: int)
    ensures b.None? ==> r == 0
    ensures b.Some? ==> r == b.value
  {
    match b
    case None => 0
    case Some(v) => v
  }

  /** Length of the JSON encoding of an absent meta, "null". */
  const NullMetaBytes: nat := 4

  /** The type `credit` and `debit` use when the caller gives none. */
  const DefaultCreditType: string := "credit"
  const DefaultDebitType: string := "debit"

  /** `validateAmount`: only a strictly positive amount passes. */
  function ValidateAmount(amount: int): (o: Outcome)
    ensures o.Pass? <==> amount > 0
    ensures o.Fail? ==> o.error == InvalidAmount
  {
    if amount <= 0 then Fail(InvalidAmount) else Pass
  }

  /**
   * The record `credit` and `debit` create: only type and amount are given, so the hash is
   * left to the hook, the meta is null, no balance snapshot is stored and `accepted` takes
   * the column default, true.
   */
  function LegacyRecord(amount: int, kind: string, now: int): Txn
  {
    Txn(amount, "", kind, true, NullMetaBytes, None, now)
  }

  /** `credit`: validate, find the wallet, add the amount, create the record; all or nothing. */
  function CreditStep(cfg: Config, row: WalletRow, found: bool, amount: int, kind: string, uuid: string, now: int): (r: Result<WalletRow>)
    requires !EmptyHash(uuid)
    ensures amount <= 0 ==> r == Err(InvalidAmount)
    ensures amount > 0 && !found ==> r == Err(WalletNotFound)
    ensures amount > 0 && found && !Allowed(cfg, kind) ==> r == Err(InvalidTransactionType)
    ensures r.Ok? <==> amount > 0 && found && Allowed(cfg, kind) && !HashTaken(row.txns, uuid)
    ensures r.Ok? ==> r.value.balance == row.balance + amount
    ensures r.Ok? ==> r.value.txns == row.txns + [LegacyRecord(amount, kind, now).(hash := uuid)]
  {
    match ValidateAmount(amount)
    case Fail(e) => Err(e)
    case Pass =>
      if !found then Err(WalletNotFound)
      else
        match Insert(cfg, row.txns, LegacyRecord(amount, kind, now), uuid)
        case Err(e) => Err(e)
        case Ok(ts) => Ok(WalletRow(row.balance + amount, ts))
  }

  /** `debit`: as `credit`, but refused when not forced and the balance is below the amount. */
  function DebitStep(cfg: Config, row: WalletRow, found: bool, amount: int, kind: string, force: bool, uuid: string, now: int): (r: Result<WalletRow>)
    requires !EmptyHash(uuid)
    ensures amount <= 0 ==> r == Err(InvalidAmount)
    ensures amount > 0 && !found ==> r == Err(WalletNotFound)
    ensures amount > 0 && found && !force && row.balance < amount ==> r == Err(InsufficientBalance)
    ensures r.Ok? <==> amount > 0 && found && (force || row.balance >= amount) && Allowed(cfg, kind) && !HashTaken(row.txns, uuid)
    ensures r.Ok? ==> r.value.balance == row.balance - amount
    ensures r.Ok? ==> r.value.txns == row.txns + [LegacyRecord(amount, kind, now).(hash := uuid)]
    ensures r.Ok? && !force ==> r.value.balance >= 0
  {
    match ValidateAmount(amount)
    case Fail(e) => Err(e)
    case Pass =>
      if !found then Err(WalletNotFound)
      else if !force && row.balance < amount then Err(InsufficientBalance)
      else
        match Insert(cfg, row.txns, LegacyRecord(amount, kind, now), uuid)
        case Err(e) => Err(e)
        case Ok(ts) => Ok(WalletRow(row.balance - amount, ts))
  }

  /**
   * `Wallet::actualBalance`: amounts of the audit's credit types minus amounts of its debit
   * types, accepted or not. The audit's sets are a parameter of their own: when the `wallet`
   * configuration is not loaded they fall back to `LegacyAuditFallback()`, not to the sets
   * the record hook falls back to.
   */
  function LegacyActualBalance(audit: Config, txns: seq<Txn>): (r: int)
    ensures (forall i :: 0 <= i < |txns| ==> !Allowed(audit, txns[i].kind)) ==> r == 0
  {
    Total(txns, Filter(audit.creditTypes, false, None)) - Total(txns, Filter(audit.debitTypes, false, None))
  }

  lemma {:induction false} TotalIgnoresAcceptedWhenAllAccepted(txns: seq<Txn>, types: set<string>)
    requires forall i :: 0 <= i < |txns| ==> txns[i].accepted
    ensures Total(txns, Filter(types, false, None)) == Total(txns, Filter(types, true, None))
  {
    if txns != [] {
      TotalIgnoresAcceptedWhenAllAccepted(txns[1..], types);
    }
  }

  /** Reading the same sets, the legacy audit agrees with the owner-side one when nothing was rejected. */
  lemma LegacyAuditAgreesWhenAllAccepted(cfg: Config, txns: seq<Txn>)
    requires forall i :: 0 <= i < |txns| ==> txns[i].accepted
    ensures LegacyActualBalance(cfg, txns) == Reconcile(cfg, txns, None)
  {
    TotalIgnoresAcceptedWhenAllAccepted(txns, cfg.creditTypes);
    TotalIgnoresAcceptedWhenAllAccepted(txns, cfg.debitTypes);
  }

  /** Reading the same sets, a rejected credit-type record moves the legacy audit by its amount and the owner-side audit not at all. */
  lemma LegacyAuditCountsRejected(cfg: Config, txns: seq<Txn>, t: Txn)
    requires CreditOnly(cfg, t.kind) && !t.accepted
    ensures LegacyActualBalance(cfg, txns + [t]) == LegacyActualBalance(cfg, txns) + t.amount
    ensures Reconcile(cfg, txns + [t], None) == Reconcile(cfg, txns, None)
  {
    TotalAppend(txns, t, Filter(cfg.creditTypes, false, None));
    TotalAppend(txns, t, Filter(cfg.debitTypes, false, None));
    TotalAppend(txns, t, Filter(cfg.creditTypes, true, None));
    TotalAppend(txns, t, Filter(cfg.debitTypes, true, None));
  }

  /** With a type the audit counts as a credit only, `credit` keeps the balance equal to the legacy audit. */
  lemma CreditKeepsLegacyReconciled(cfg: Config, audit: Config, row: WalletRow, found: bool, amount: int, kind: string, uuid: string, now: int)
    requires !EmptyHash(uuid) && CreditOnly(audit, kind)
    requires row.balance == LegacyActualBalance(audit, row.txns)
    requires CreditStep(cfg, row, found, amount, kind, uuid, now).Ok?
    ensures var next := CreditStep(cfg, row, found, amount, kind, uuid, now).value;
            next.balance == LegacyActualBalance(audit, next.txns)
  {
    var t := LegacyRecord(amount, kind, now).(hash := uuid);
    TotalAppend(row.txns, t, Filter(audit.creditTypes, false, None));
    TotalAppend(row.txns, t, Filter(audit.debitTypes, false, None));
  }

  /** With a type the audit counts as a debit only, `debit` keeps the balance equal to the legacy audit. */
  lemma DebitKeepsLegacyReconciled(cfg: Config, audit: Config, row: WalletRow, found: bool, amount: int, kind: string, force: bool, uuid: string, now: int)
    requires !EmptyHash(uuid) && DebitOnly(audit, kind)
    requires row.balance == LegacyActualBalance(audit, row.txns)
    requires DebitStep(cfg, row, found, amount, kind, force, uuid, now).Ok?
    ensures var next := DebitStep(cfg, row, found, amount, kind, force, uuid, now).value;
            next.balance == LegacyActualBalance(audit, next.txns)
  {
    var t := LegacyRecord(amount, kind, now).(hash := uuid);
    TotalAppend(row.txns, t, Filter(audit.creditTypes, false, None));
    TotalAppend(row.txns, t, Filter(audit.debitTypes, false, None));
  }

  /**
   * With every set at its fallback, the legacy audit counts none of the records the hook
   * accepts, so it reads 0 however much was credited or debited.
   */
  lemma FallbackAuditCountsNothing(txns: seq<Txn>)
    requires forall i :: 0 <= i < |txns| ==> Allowed(DefaultConfig(), txns[i].kind)
    ensures LegacyActualBalance(LegacyAuditFallback(), txns) == 0
  {
    forall i | 0 <= i < |txns| ensures !Allowed(LegacyAuditFallback(), txns[i].kind) {
      FallbackSetsDisjoint(txns[i].kind);
    }
  }

  /** With every set at its fallback, a successful `credit` raises the balance but not the legacy audit. */
  lemma FallbackCreditInvisibleToAudit(row: WalletRow, found: bool, amount: int, kind: string, uuid: string, now: int)
    requires !EmptyHash(uuid) && CreditStep(DefaultConfig(), row, found, amount, kind, uuid, now).Ok?
    ensures var next := CreditStep(DefaultConfig(), row, found, amount, kind, uuid, now).value;
            next.balance == row.balance + amount
            && LegacyActualBalance(LegacyAuditFallback(), next.txns) == LegacyActualBalance(LegacyAuditFallback(), row.txns)
  {
    var t := LegacyRecord(amount, kind, now).(hash := uuid);
    FallbackSetsDisjoint(kind);
    TotalAppend(row.txns, t, Filter(LegacyAuditFallback().creditTypes, false, None));
    TotalAppend(row.txns, t, Filter(LegacyAuditFallback().debitTypes, false, None));
  }

  /** Under the published configuration the legacy default types are refused by the record hook. */
  lemma LegacyDefaultTypesRejected(row: WalletRow, amount: int, force: bool, uuid: string, now: int)
    requires !EmptyHash(uuid) && amount > 0
    ensures CreditStep(DefaultConfig(), row, true, amount, DefaultCreditType, uuid, now) == Err(InvalidTransactionType)
    ensures amount <= row.balance || force ==>
              DebitStep(DefaultConfig(), row, true, amount, DefaultDebitType, force, uuid, now) == Err(InvalidTransactionType)
  {
  }

  /** A wallet row as the database holds it. */
  class Wallet {
    var balance: int
    var txns: seq<Txn>

    /** Creating a wallet; the `creating` hook defaults a missing balance to 0. */
    constructor (initial: Option<int>)
      ensures Row() == WalletRow(DefaultBalance(initial), [])
    {
      balance := DefaultBalance(initial);
      txns := [];
    }

    function Row(): WalletRow
      reads this
    {
      WalletRow(balance, txns)
    }

    /** `credit(amount, type)`; `found` is whether the locked lookup of this wallet's id found a row. */
    method Credit(cfg: Config, found: bool, amount: int, kind: string, uuid: string, now: int) returns (o: Outcome)
      requires !EmptyHash(uuid)
      modifies this
      ensures var r := CreditStep(cfg, old(Row()), found, amount, kind, uuid, now);
              o == OutcomeOf(r) && Row() == (if r.Ok? then r.value else old(Row()))
    {
      o := ValidateAmount(amount);
      if o.Fail? {
        return;
      }
      if !found {
        return Fail(WalletNotFound);
      }
      var before := balance;
      balance := balance + amount;
      var draft := new Draft(LegacyRecord(amount, kind, now));
      o := draft.Creating(cfg, uuid);
      if o.Pass? && HashTaken(txns, draft.hash) {
        o := Fail(HashConflict);
      }
      if o.Fail? {
        // the database transaction rolls the balance back
        balance := before;
        return;
      }
      txns := txns + [draft.Record()];
    }

    /** `debit(amount, type, force)`; `found` as for `Credit`. */
    method Debit(cfg: Config, found: bool, amount: int, kind: string, force: bool, uuid: string, now: int) returns (o: Outcome)
      requires !EmptyHash(uuid)
      modifies this
      ensures var r := DebitStep(cfg, old(Row()), found, amount, kind, force, uuid, now);
              o == OutcomeOf(r) && Row() == (if r.Ok? then r.value else old(Row()))
    {
      o := ValidateAmount(amount);
      if o.Fail? {
        return;
      }
      if !found {
        return Fail(WalletNotFound);
      }
      if !force && balance < amount {
        return Fail(InsufficientBalance);
      }
      var before := balance;
      balance := balance - amount;
      var draft := new Draft(LegacyRecord(amount, kind, now));
      o := draft.Creating(cfg, uuid);
      if o.Pass? && HashTaken(txns, draft.hash) {
        o := Fail(HashConflict);
      }
      if o.Fail? {
        balance := before;
        return;
      }
      txns := txns + [draft.Record()];
    }
  }
}

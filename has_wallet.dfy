/**
 * The owner-side mutator: an owner has at most one wallet, created with balance 0 by the
 * first mutation; each mutation validates the amount, then, as one database transaction,
 * creates the wallet if absent, adjusts the balance and creates a record carrying the new
 * balance. Any failure inside the transaction rolls all of it back.
 */
module HasWallet {
  import opened Common
  import opened WalletConfig
  import opened Transactions
  import opened Wallets

  /** What `deposit` and `withdraw` use for the arguments the caller leaves out. */
  const DefaultDepositType: string := "deposit"
  const DefaultWithdrawType: string := "withdraw"
  const EmptyMetaBytes: nat := 2   // the JSON encoding of an empty meta array, "[]"
  const DefaultAccepted: bool := true
  const DefaultForce: bool := false

  /** `getBalanceAttribute`: an owner without a wallet reads balance 0. */
  function BalanceOf(w: Option<WalletRow>): (r: int)
    ensures w.None? ==> r == 0
    ensures w.Some? ==> r == w.value.balance
  {
    match w
    case None => 0
    case Some(row) => row.balance
  }

  /** The wallet a mutation works on: the owner's, or a new one created with balance 0. */
  function Opened(w: Option<WalletRow>): (row: WalletRow)
    ensures w.None? ==> row == WalletRow(0, [])
    ensures w.Some? ==> row == w.value
    ensures row.balance == BalanceOf(w)
  {
    match w
    case None => WalletRow(0, [])
    case Some(row) => row
  }

  /** `canWithdraw`: refuses a non-positive amount, otherwise compares it with the balance. */
  function CanWithdraw(w: Option<WalletRow>, amount: int): (r: Result<bool>)
    ensures r == Err(InvalidAmount) <==> amount <= 0
    ensures amount > 0 ==> r == Ok(BalanceOf(w) >= amount)
  {
    match ValidateAmount(amount)
    case Fail(e) => Err(e)
    case Pass => Ok(BalanceOf(w) >= amount)
  }

  /** `deposit`: the balance grows by `amount` only if accepted; one record is logged either way. */
  function DepositStep(cfg: Config, w: Option<WalletRow>, amount: int, kind: string, metaBytes: nat,
                       accepted: bool, uuid: string, now: int): (r: Result<WalletRow>)
    requires !EmptyHash(uuid)
    ensures amount <= 0 ==> r == Err(InvalidAmount)
    ensures amount > 0 && !Allowed(cfg, kind) ==> r == Err(InvalidTransactionType)
    ensures amount > 0 && Allowed(cfg, kind) && metaBytes > MetaLimit ==> r == Err(MetaTooLarge)
    ensures amount > 0 && Allowed(cfg, kind) && metaBytes <= MetaLimit && HashTaken(Opened(w).txns, uuid) ==> r == Err(HashConflict)
    ensures r.Ok? <==> amount > 0 && Allowed(cfg, kind) && metaBytes <= MetaLimit && !HashTaken(Opened(w).txns, uuid)
    ensures r.Ok? ==> r.value.balance == BalanceOf(w) + (if accepted then amount else 0)
    ensures r.Ok? ==> r.value.txns == Opened(w).txns + [Txn(amount, uuid, kind, accepted, metaBytes, Some(r.value.balance), now)]
  {
    match ValidateAmount(amount)
    case Fail(e) => Err(e)
    case Pass =>
      var row := Opened(w);
      var balance := if accepted then row.balance + amount else row.balance;
      match Insert(cfg, row.txns, Txn(amount, uuid, kind, accepted, metaBytes, Some(balance), now), uuid)
      case Err(e) => Err(e)
      case Ok(ts) => Ok(WalletRow(balance, ts))
  }

  /**
   * `withdraw`: an accepted, non-forced withdrawal larger than the balance throws inside
   * the transaction, so nothing is logged; otherwise as `deposit` with the amount subtracted.
   */
  function WithdrawStep(cfg: Config, w: Option<WalletRow>, amount: int, kind: string, metaBytes: nat,
                        accepted: bool, force: bool, uuid: string, now: int): (r: Result<WalletRow>)
    requires !EmptyHash(uuid)
    ensures amount <= 0 ==> r == Err(InvalidAmount)
    ensures amount > 0 && accepted && !force && BalanceOf(w) < amount ==> r == Err(InsufficientBalance)
    ensures amount > 0 && (!accepted || force || BalanceOf(w) >= amount) && !Allowed(cfg, kind) ==> r == Err(InvalidTransactionType)
    ensures amount > 0 && (!accepted || force || BalanceOf(w) >= amount) && Allowed(cfg, kind) && metaBytes > MetaLimit ==> r == Err(MetaTooLarge)
    ensures (amount > 0 && (!accepted || force || BalanceOf(w) >= amount) && Allowed(cfg, kind) && metaBytes <= MetaLimit
             && HashTaken(Opened(w).txns, uuid)) ==> r == Err(HashConflict)
    ensures r.Ok? <==> amount > 0 && (!accepted || force || BalanceOf(w) >= amount)
                       && Allowed(cfg, kind) && metaBytes <= MetaLimit && !HashTaken(Opened(w).txns, uuid)
    ensures r.Ok? ==> r.value.balance == BalanceOf(w) - (if accepted then amount else 0)
    ensures r.Ok? ==> r.value.txns == Opened(w).txns + [Txn(amount, uuid, kind, accepted, metaBytes, Some(r.value.balance), now)]
    ensures r.Ok? && !force ==> (BalanceOf(w) >= 0 ==> r.value.balance >= 0)
  {
    match ValidateAmount(amount)
    case Fail(e) => Err(e)
    case Pass =>
      var row := Opened(w);
      if accepted && !force && CanWithdraw(Some(row), amount) != Ok(true) then Err(InsufficientBalance)
      else
        var balance := if accepted then row.balance - amount else row.balance;
        match Insert(cfg, row.txns, Txn(amount, uuid, kind, accepted, metaBytes, Some(balance), now), uuid)
        case Err(e) => Err(e)
        case Ok(ts) => Ok(WalletRow(balance, ts))
  }

  /**
   * `$this->balance` inside `withdraw`, as the code reads it: through the owner's `wallet`
   * relation, whose balance is loaded once (`cache`) and then kept even though `deposit` and
   * `withdraw` update a separately fetched instance.
   */
  function ReadCachedBalance(w: Option<WalletRow>, cache: Option<int>): (r: (int, Option<int>))
    ensures cache.Some? ==> r == (cache.value, cache)
    ensures cache.None? ==> r == (BalanceOf(w), Some(BalanceOf(w)))
  {
    match cache
    case Some(b) => (b, cache)
    case None => (BalanceOf(w), Some(BalanceOf(w)))
  }

  /**
   * `withdraw` as written: the same as `WithdrawStep` except that the balance check reads the
   * owner's cached relation. Also returns the cache afterwards.
   */
  function WithdrawAsWritten(cfg: Config, w: Option<WalletRow>, cache: Option<int>, amount: int, kind: string,
                             metaBytes: nat, accepted: bool, force: bool, uuid: string, now: int): (r: (Result<WalletRow>, Option<int>))
    requires !EmptyHash(uuid)
    ensures amount > 0 && accepted && !force && ReadCachedBalance(Some(Opened(w)), cache).0 < amount
            ==> r.0 == Err(InsufficientBalance)
    ensures (cache.None? || cache == Some(BalanceOf(w))) ==> r.0 == WithdrawStep(cfg, w, amount, kind, metaBytes, accepted, force, uuid, now)
  {
    match ValidateAmount(amount)
    case Fail(e) => (Err(e), cache)
    case Pass =>
      var row := Opened(w);
      var (seen, cache') := if accepted && !force then ReadCachedBalance(Some(row), cache) else (0, cache);
      if accepted && !force && !(seen >= amount) then (Err(InsufficientBalance), cache')
      else
        var balance := if accepted then row.balance - amount else row.balance;
        match Insert(cfg, row.txns, Txn(amount, uuid, kind, accepted, metaBytes, Some(balance), now), uuid)
        case Err(e) => (Err(e), cache')
        case Ok(ts) => (Ok(WalletRow(balance, ts)), cache')
  }

  /**
   * On one owner instance with balance 100, two unforced withdrawals of 60 both pass the
   * cached check and leave -20; the check against the locked row refuses the second.
   */
  lemma StaleCacheOverdraws()
    ensures var first := WithdrawAsWritten(DefaultConfig(), Some(WalletRow(100, [])), None, 60,
                                           DefaultWithdrawType, EmptyMetaBytes, DefaultAccepted, DefaultForce, "a", 1);
            first.0.Ok? && first.0.value.balance == 40 && first.1 == Some(100)
            && WithdrawAsWritten(DefaultConfig(), Some(first.0.value), first.1, 60,
                                 DefaultWithdrawType, EmptyMetaBytes, DefaultAccepted, DefaultForce, "b", 2).0.Ok?
            && WithdrawAsWritten(DefaultConfig(), Some(first.0.value), first.1, 60,
                                 DefaultWithdrawType, EmptyMetaBytes, DefaultAccepted, DefaultForce, "b", 2).0.value.balance == -20
            && WithdrawStep(DefaultConfig(), Some(first.0.value), 60,
                            DefaultWithdrawType, EmptyMetaBytes, DefaultAccepted, DefaultForce, "b", 2) == Err(InsufficientBalance)
  {
    var first := WithdrawAsWritten(DefaultConfig(), Some(WalletRow(100, [])), None, 60,
                                   DefaultWithdrawType, EmptyMetaBytes, DefaultAccepted, DefaultForce, "a", 1);
    assert !HashTaken(first.0.value.txns, "b") by {
      assert first.0.value.txns[0].hash == "a";
    }
  }

  /**
   * Reading the balance of an owner without a wallet caches the default 0; after a deposit of
   * 100 the cached check refuses a withdrawal of 50 that the check against the row allows.
   */
  lemma StaleDefaultRefuses()
    ensures var cache := ReadCachedBalance(None, None).1;
            var deposited := DepositStep(DefaultConfig(), None, 100, DefaultDepositType, EmptyMetaBytes, DefaultAccepted, "a", 1);
            cache == Some(0) && deposited.Ok? && deposited.value.balance == 100
            && WithdrawAsWritten(DefaultConfig(), Some(deposited.value), cache, 50,
                                 DefaultWithdrawType, EmptyMetaBytes, DefaultAccepted, DefaultForce, "b", 2).0 == Err(InsufficientBalance)
            && WithdrawStep(DefaultConfig(), Some(deposited.value), 50,
                            DefaultWithdrawType, EmptyMetaBytes, DefaultAccepted, DefaultForce, "b", 2).Ok?
  {
    var deposited := DepositStep(DefaultConfig(), None, 100, DefaultDepositType, EmptyMetaBytes, DefaultAccepted, "a", 1);
    assert !HashTaken(deposited.value.txns, "b") by {
      assert deposited.value.txns[0].hash == "a";
    }
  }

  /** `deposit(100)` with every default on an owner without a wallet: balance 100, one accepted record with snapshot 100. */
  lemma DefaultDepositOnFreshOwner(uuid: string, now: int)
    requires !EmptyHash(uuid)
    ensures var r := DepositStep(DefaultConfig(), None, 100, DefaultDepositType, EmptyMetaBytes, DefaultAccepted, uuid, now);
            r.Ok? && r.value.balance == 100 && |r.value.txns| == 1
            && r.value.txns[0].accepted && r.value.txns[0].balance == Some(100)
  {
  }

  /** `actualBalance()`: accepted credits minus accepted debits; 0 for an owner without a wallet. */
  function ActualBalance(cfg: Config, w: Option<WalletRow>): (r: int)
    ensures w.None? ==> r == 0
    ensures w.Some? && (forall i :: 0 <= i < |w.value.txns| ==> !w.value.txns[i].accepted) ==> r == 0
  {
    match w
    case None => 0
    case Some(row) => Reconcile(cfg, row.txns, None)
  }

  /** A record's as-of balance taken at or after every timestamp is the owner's unbounded reconciliation. */
  lemma AsOfAfterAllIsActualBalance(cfg: Config, row: WalletRow, date: int, now: int)
    requires forall i :: 0 <= i < |row.txns| ==> row.txns[i].createdAt <= date
    ensures ActualBalanceAsOf(cfg, Some(row.txns), Some(date), now) == ActualBalance(cfg, Some(row))
  {
    TotalAsOfAfterAll(row.txns, cfg.creditTypes, true, date);
    TotalAsOfAfterAll(row.txns, cfg.debitTypes, true, date);
  }

  /** The five owner operations; the fail and force variants delegate to deposit and withdraw. */
  datatype Op =
    | Deposit(amount: int, kind: string, metaBytes: nat, accepted: bool, uuid: string, at: int)
    | FailDeposit(amount: int, kind: string, metaBytes: nat, uuid: string, at: int)
    | Withdraw(amount: int, kind: string, metaBytes: nat, accepted: bool, force: bool, uuid: string, at: int)
    | ForceWithdraw(amount: int, kind: string, metaBytes: nat, uuid: string, at: int)
    | FailWithdraw(amount: int, kind: string, metaBytes: nat, uuid: string, at: int)

  function Apply(cfg: Config, w: Option<WalletRow>, op: Op): Result<WalletRow>
    requires !EmptyHash(op.uuid)
  {
    match op
    case Deposit(a, k, m, acc, u, t) => DepositStep(cfg, w, a, k, m, acc, u, t)
    case FailDeposit(a, k, m, u, t) => DepositStep(cfg, w, a, k, m, false, u, t)
    case Withdraw(a, k, m, acc, f, u, t) => WithdrawStep(cfg, w, a, k, m, acc, f, u, t)
    case ForceWithdraw(a, k, m, u, t) => WithdrawStep(cfg, w, a, k, m, true, true, u, t)
    case FailWithdraw(a, k, m, u, t) => WithdrawStep(cfg, w, a, k, m, false, false, u, t)
  }

  /** Every operation carries a generated (non-empty) hash. */
  predicate HashesGiven(ops: seq<Op>)
  {
    forall i :: 0 <= i < |ops| ==> !EmptyHash(ops[i].uuid)
  }

  /** The owner's wallet after `ops` run one after another; a failed operation changes nothing. */
  function Run(cfg: Config, w: Option<WalletRow>, ops: seq<Op>): Option<WalletRow>
    requires HashesGiven(ops)
    decreases |ops|
  {
    if ops == [] then w
    else
      var next := match Apply(cfg, w, ops[0]) case Ok(row) => Some(row) case Err(_) => w;
      Run(cfg, next, ops[1..])
  }

  /** A failed deposit or withdrawal logs one rejected record and leaves the balance alone. */
  lemma FailedAttemptIsNeutral(cfg: Config, w: Option<WalletRow>, op: Op)
    requires op.FailDeposit? || op.FailWithdraw?
    requires !EmptyHash(op.uuid) && Apply(cfg, w, op).Ok?
    ensures var row := Apply(cfg, w, op).value;
            row.balance == BalanceOf(w) && |row.txns| == |Opened(w).txns| + 1
            && !row.txns[|row.txns| - 1].accepted && row.txns[|row.txns| - 1].balance == Some(BalanceOf(w))
  {
  }

  /** A forced withdrawal is never refused for the balance and may leave it negative. */
  lemma ForceWithdrawIgnoresBalance(cfg: Config, w: Option<WalletRow>, amount: int, kind: string, metaBytes: nat, uuid: string, now: int)
    requires !EmptyHash(uuid) && amount > 0 && Allowed(cfg, kind) && metaBytes <= MetaLimit
    requires !HashTaken(Opened(w).txns, uuid)
    ensures var r := Apply(cfg, w, ForceWithdraw(amount, kind, metaBytes, uuid, now));
            r.Ok? && r.value.balance == BalanceOf(w) - amount
            && r.value.txns[|r.value.txns| - 1].accepted
    ensures BalanceOf(w) < amount ==> Apply(cfg, w, ForceWithdraw(amount, kind, metaBytes, uuid, now)).value.balance < 0
  {
  }

  /** An owner without a wallet behaves as one whose wallet has balance 0 and no records. */
  lemma AbsentWalletIsFreshWallet(cfg: Config, op: Op)
    requires !EmptyHash(op.uuid)
    ensures Apply(cfg, None, op) == Apply(cfg, Some(WalletRow(0, [])), op)
  {
  }

  /** The stored balance equals the reconciled balance. */
  ghost predicate Reconciled(cfg: Config, w: Option<WalletRow>)
  {
    BalanceOf(w) == ActualBalance(cfg, w)
  }

  /** Every record's snapshot is the reconciled balance of the records up to and including it. */
  ghost predicate SnapshotsTrack(cfg: Config, txns: seq<Txn>)
    decreases |txns|
  {
    txns == []
    || (txns[|txns| - 1].balance == Some(Reconcile(cfg, txns, None)) && SnapshotsTrack(cfg, txns[..|txns| - 1]))
  }

  ghost predicate Ledger(cfg: Config, w: Option<WalletRow>)
  {
    Reconciled(cfg, w) && (w.Some? ==> SnapshotsTrack(cfg, w.value.txns))
  }

  /** Deposits use credit-only types and withdrawals debit-only types, whenever they are accepted. */
  predicate Typed(cfg: Config, op: Op)
  {
    match op
    case Deposit(_, k, _, acc, _, _) => acc ==> CreditOnly(cfg, k)
    case FailDeposit(_, _, _, _, _) => true
    case Withdraw(_, k, _, acc, _, _, _) => acc ==> DebitOnly(cfg, k)
    case ForceWithdraw(_, k, _, _, _) => DebitOnly(cfg, k)
    case FailWithdraw(_, _, _, _, _) => true
  }

  /** Appending one record moves the reconciliation by that record's contribution. */
  lemma ReconcileAppend(cfg: Config, txns: seq<Txn>, t: Txn)
    ensures Reconcile(cfg, txns + [t], None) == Reconcile(cfg, txns, None)
              + (if t.accepted && t.kind in cfg.creditTypes then t.amount else 0)
              - (if t.accepted && t.kind in cfg.debitTypes then t.amount else 0)
  {
    TotalAppend(txns, t, Filter(cfg.creditTypes, true, None));
    TotalAppend(txns, t, Filter(cfg.debitTypes, true, None));
  }

  /** A typed record moves the reconciliation exactly as the mutator moved the balance. */
  lemma AppendKeepsReconciled(cfg: Config, txns: seq<Txn>, t: Txn)
    requires t.accepted ==> CreditOnly(cfg, t.kind) || DebitOnly(cfg, t.kind)
    ensures Reconcile(cfg, txns + [t], None)
              == Reconcile(cfg, txns, None) + (if !t.accepted then 0 else if CreditOnly(cfg, t.kind) then t.amount else -t.amount)
  {
    ReconcileAppend(cfg, txns, t);
  }

  /** A record whose snapshot is the reconciliation including it extends the tracked snapshots. */
  lemma SnapshotsExtend(cfg: Config, txns: seq<Txn>, t: Txn)
    requires SnapshotsTrack(cfg, txns)
    requires t.balance == Some(Reconcile(cfg, txns + [t], None))
    ensures SnapshotsTrack(cfg, txns + [t])
  {
  }

  /** Under the snapshot invariant, every record's snapshot is the reconciliation of its prefix. */
  lemma {:induction false} SnapshotAt(cfg: Config, txns: seq<Txn>, i: nat)
    requires SnapshotsTrack(cfg, txns) && i < |txns|
    ensures txns[i].balance == Some(Reconcile(cfg, txns[..i + 1], None))
    decreases |txns|
  {
    if i < |txns| - 1 {
      var front := txns[..|txns| - 1];
      SnapshotAt(cfg, front, i);
      assert front[..i + 1] == txns[..i + 1];
    } else {
      assert txns[..i + 1] == txns;
    }
  }

  lemma ApplyKeepsLedger(cfg: Config, w: Option<WalletRow>, op: Op)
    requires !EmptyHash(op.uuid) && Typed(cfg, op) && Ledger(cfg, w)
    requires Apply(cfg, w, op).Ok?
    ensures Ledger(cfg, Some(Apply(cfg, w, op).value))
  {
    var row := Opened(w);
    var next := Apply(cfg, w, op).value;
    var t := next.txns[|next.txns| - 1];
    assert next.txns == row.txns + [t];
    assert row.balance == Reconcile(cfg, row.txns, None);
    AppendKeepsReconciled(cfg, row.txns, t);
    assert next.balance == Reconcile(cfg, next.txns, None);
    SnapshotsExtend(cfg, row.txns, t);
  }

  /**
   * With deposits typed as credits and withdrawals as debits, any sequence of operations
   * keeps the stored balance equal to `actualBalance()` and each snapshot equal to the
   * reconciled balance of its prefix.
   */
  lemma {:induction false} RunKeepsLedger(cfg: Config, w: Option<WalletRow>, ops: seq<Op>)
    requires HashesGiven(ops) && (forall i :: 0 <= i < |ops| ==> Typed(cfg, ops[i]))
    requires Ledger(cfg, w)
    ensures Ledger(cfg, Run(cfg, w, ops))
    decreases |ops|
  {
    if ops != [] {
      if Apply(cfg, w, ops[0]).Ok? {
        ApplyKeepsLedger(cfg, w, ops[0]);
      }
      var next := match Apply(cfg, w, ops[0]) case Ok(row) => Some(row) case Err(_) => w;
      RunKeepsLedger(cfg, next, ops[1..]);
    }
  }

  /** Starting from an owner with no wallet, the stored balance always equals `actualBalance()`. */
  lemma FreshOwnerStaysReconciled(cfg: Config, ops: seq<Op>)
    requires HashesGiven(ops) && (forall i :: 0 <= i < |ops| ==> Typed(cfg, ops[i]))
    ensures BalanceOf(Run(cfg, None, ops)) == ActualBalance(cfg, Run(cfg, None, ops))
  {
    RunKeepsLedger(cfg, None, ops);
  }

  /** Every record is one the creation hook accepts, and no two share a hash. */
  ghost predicate RecordsSound(cfg: Config, w: Option<WalletRow>)
  {
    w.Some? ==> HashesUnique(w.value.txns) && forall i :: 0 <= i < |w.value.txns| ==> WellFormed(cfg, w.value.txns[i])
  }

  lemma {:induction false} RunKeepsRecordsSound(cfg: Config, w: Option<WalletRow>, ops: seq<Op>)
    requires HashesGiven(ops) && RecordsSound(cfg, w)
    ensures RecordsSound(cfg, Run(cfg, w, ops))
    decreases |ops|
  {
    if ops != [] {
      var r := Apply(cfg, w, ops[0]);
      if r.Ok? {
        var row := Opened(w);
        var t := r.value.txns[|r.value.txns| - 1];
        assert r.value.txns == row.txns + [t];
        AppendFreshHash(row.txns, t);
      }
      var next := match r case Ok(row) => Some(row) case Err(_) => w;
      RunKeepsRecordsSound(cfg, next, ops[1..]);
    }
  }

  /** Neither a forced withdrawal nor a withdrawal with `force` set. */
  predicate Unforced(op: Op)
  {
    !op.ForceWithdraw? && !(op.Withdraw? && op.force)
  }

  /** Without forced withdrawals a balance that starts non-negative never goes below zero. */
  lemma {:induction false} RunKeepsNonNegative(cfg: Config, w: Option<WalletRow>, ops: seq<Op>)
    requires HashesGiven(ops) && (forall i :: 0 <= i < |ops| ==> Unforced(ops[i]))
    requires BalanceOf(w) >= 0
    ensures BalanceOf(Run(cfg, w, ops)) >= 0
    decreases |ops|
  {
    if ops != [] {
      var next := match Apply(cfg, w, ops[0]) case Ok(row) => Some(row) case Err(_) => w;
      RunKeepsNonNegative(cfg, next, ops[1..]);
    }
  }

  /** An owner, holding at most one wallet. */
  class Owner {
    var wallet: Wallet?

    /** An owner that has no wallet yet; the wallet relation has nothing loaded. */
    constructor ()
      ensures State() == None
    {
      wallet := null;
    }

    function State(): Option<WalletRow>
      reads this, wallet
    {
      if wallet == null then None else Some(wallet.Row())
    }

    /** `deposit(amount, type, meta, accepted)`; `uuid` is the hash generated for the record. */
    method Deposit(cfg: Config, amount: int, kind: string, metaBytes: nat, accepted: bool, uuid: string, now: int)
      returns (o: Outcome)
      requires !EmptyHash(uuid)
      modifies this, wallet
      ensures var r := DepositStep(cfg, old(State()), amount, kind, metaBytes, accepted, uuid, now);
              o == OutcomeOf(r) && State() == (if r.Ok? then Some(r.value) else old(State()))
      ensures old(wallet) != null || o.Fail? ==> wallet == old(wallet)
      ensures old(wallet) == null && o.Pass? ==> fresh(wallet)
    {
      o := ValidateAmount(amount);
      if o.Fail? {
        return;
      }
      var original := wallet;
      var w := wallet;
      if w == null {
        w := new Wallet(Some(0));
        wallet := w;
      }
      var previous := w.balance;
      if accepted {
        w.balance := w.balance + amount;
      }
      var draft := new Draft(Txn(amount, uuid, kind, accepted, metaBytes, Some(w.balance), now));
      o := draft.Creating(cfg, uuid);
      if o.Pass? && HashTaken(w.txns, draft.hash) {
        o := Fail(HashConflict);
      }
      if o.Fail? {
        // the database transaction rolls back the balance change and the wallet creation
        w.balance := previous;
        wallet := original;
        return;
      }
      w.txns := w.txns + [draft.Record()];
    }

    /** `failDeposit`: a deposit logged as not accepted. */
    method FailDeposit(cfg: Config, amount: int, kind: string, metaBytes: nat, uuid: string, now: int)
      returns (o: Outcome)
      requires !EmptyHash(uuid)
      modifies this, wallet
      ensures var r := DepositStep(cfg, old(State()), amount, kind, metaBytes, false, uuid, now);
              o == OutcomeOf(r) && State() == (if r.Ok? then Some(r.value) else old(State()))
      ensures old(wallet) != null || o.Fail? ==> wallet == old(wallet)
      ensures old(wallet) == null && o.Pass? ==> fresh(wallet)
    {
      o := Deposit(cfg, amount, kind, metaBytes, false, uuid, now);
    }

    /** `withdraw(amount, type, meta, accepted, force)`. */
    method Withdraw(cfg: Config, amount: int, kind: string, metaBytes: nat, accepted: bool, force: bool, uuid: string, now: int)
      returns (o: Outcome)
      requires !EmptyHash(uuid)
      modifies this, wallet
      ensures var r := WithdrawStep(cfg, old(State()), amount, kind, metaBytes, accepted, force, uuid, now);
              o == OutcomeOf(r) && State() == (if r.Ok? then Some(r.value) else old(State()))
      ensures old(wallet) != null || o.Fail? ==> wallet == old(wallet)
      ensures old(wallet) == null && o.Pass? ==> fresh(wallet)
    {
      o := ValidateAmount(amount);
      if o.Fail? {
        return;
      }
      var original := wallet;
      var w := wallet;
      if w == null {
        w := new Wallet(Some(0));
        wallet := w;
      }
      var previous := w.balance;
      if accepted {
        if !force && CanWithdraw(Some(w.Row()), amount) != Ok(true) {
          // thrown inside the transaction: the wallet creation is rolled back, nothing is logged
          wallet := original;
          return Fail(InsufficientBalance);
        }
        w.balance := w.balance - amount;
      }
      var draft := new Draft(Txn(amount, uuid, kind, accepted, metaBytes, Some(w.balance), now));
      o := draft.Creating(cfg, uuid);
      if o.Pass? && HashTaken(w.txns, draft.hash) {
        o := Fail(HashConflict);
      }
      if o.Fail? {
        w.balance := previous;
        wallet := original;
        return;
      }
      w.txns := w.txns + [draft.Record()];
    }

    /** `forceWithdraw`: an accepted withdrawal that skips the balance check. */
    method ForceWithdraw(cfg: Config, amount: int, kind: string, metaBytes: nat, uuid: string, now: int)
      returns (o: Outcome)
      requires !EmptyHash(uuid)
      modifies this, wallet
      ensures var r := WithdrawStep(cfg, old(State()), amount, kind, metaBytes, true, true, uuid, now);
              o == OutcomeOf(r) && State() == (if r.Ok? then Some(r.value) else old(State()))
      ensures old(wallet) != null || o.Fail? ==> wallet == old(wallet)
      ensures old(wallet) == null && o.Pass? ==> fresh(wallet)
    {
      o := Withdraw(cfg, amount, kind, metaBytes, true, true, uuid, now);
    }

    /** `failWithdraw`: a withdrawal logged as not accepted. */
    method FailWithdraw(cfg: Config, amount: int, kind: string, metaBytes: nat, uuid: string, now: int)
      returns (o: Outcome)
      requires !EmptyHash(uuid)
      modifies this, wallet
      ensures var r := WithdrawStep(cfg, old(State()), amount, kind, metaBytes, false, false, uuid, now);
              o == OutcomeOf(r) && State() == (if r.Ok? then Some(r.value) else old(State()))
      ensures old(wallet) != null || o.Fail? ==> wallet == old(wallet)
      ensures old(wallet) == null && o.Pass? ==> fresh(wallet)
    {
      o := Withdraw(cfg, amount, kind, metaBytes, false, false, uuid, now);
    }
  }
}

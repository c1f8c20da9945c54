/**
 * The transaction record: its creation hook (hash default, then validation in a fixed
 * order), its signed amount, and the reconciliation sums over a wallet's records.
 */
module Transactions {
  import opened Common
  import opened WalletConfig

  /** The creation hook's hard-coded ceiling on the encoded meta, in bytes. */
  const MetaLimit: nat := 65535

  /**
   * One ledger record. `metaBytes` is the length of the JSON-encoded meta; `balance` is
   * the wallet balance snapshot, absent on records that were created without one.
   */
  datatype Txn = Txn(
    amount: int,
    hash: string,
    kind: string,
    accepted: bool,
    metaBytes: nat,
    balance: Option<int>,
    createdAt: int)

  /** PHP's `empty` on a string: the empty string and "0". */
  predicate EmptyHash(h: string)
  {
    h == "" || h == "0"
  }

  /** The first step of the creation hook: a missing hash is replaced by a generated one. */
  function FillHash(t: Txn, generated: string): (r: Txn)
    ensures !EmptyHash(t.hash) ==> r == t
    ensures EmptyHash(t.hash) ==> r == t.(hash := generated)
    ensures !EmptyHash(generated) ==> !EmptyHash(r.hash)
  {
    if EmptyHash(t.hash) then t.(hash := generated) else t
  }

  /** What the creation hook demands of a record. */
  predicate WellFormed(cfg: Config, t: Txn)
  {
    t.amount > 0 && Allowed(cfg, t.kind) && t.metaBytes <= MetaLimit
  }

  /** The hook's three checks, in order: amount, then type, then meta size. */
  function Validate(cfg: Config, t: Txn): (o: Outcome)
    ensures o.Pass? <==> WellFormed(cfg, t)
    ensures o == Fail(InvalidAmount) <==> t.amount <= 0
    ensures o == Fail(InvalidTransactionType) <==> t.amount > 0 && !Allowed(cfg, t.kind)
    ensures o == Fail(MetaTooLarge) <==> t.amount > 0 && Allowed(cfg, t.kind) && t.metaBytes > MetaLimit
  {
    if t.amount <= 0 then Fail(InvalidAmount)
    else if !Allowed(cfg, t.kind) then Fail(InvalidTransactionType)
    else if t.metaBytes > MetaLimit then Fail(MetaTooLarge)
    else Pass
  }

  /** Whether some record already carries hash `h`. */
  predicate HashTaken(txns: seq<Txn>, h: string)
  {
    exists i :: 0 <= i < |txns| && txns[i].hash == h
  }

  /** No two records share a hash (the unique index on `hash`). */
  ghost predicate HashesUnique(txns: seq<Txn>)
  {
    forall i, j :: 0 <= i < j < |txns| ==> txns[i].hash != txns[j].hash
  }

  /**
   * Creating a record on a wallet whose records are `txns`: the hook runs, then the insert,
   * which the unique index refuses when the hash is already taken.
   */
  function Insert(cfg: Config, txns: seq<Txn>, t: Txn, generated: string): (r: Result<seq<Txn>>)
    requires !EmptyHash(generated)
    ensures r.Ok? <==> WellFormed(cfg, FillHash(t, generated)) && !HashTaken(txns, FillHash(t, generated).hash)
    ensures r.Ok? ==> r.value == txns + [FillHash(t, generated)]
    ensures Validate(cfg, t).Fail? ==> r == Err(Validate(cfg, t).error)
    ensures r.Err? && Validate(cfg, t).Pass? ==> r.error == HashConflict
  {
    var created := FillHash(t, generated);
    match Validate(cfg, created)
    case Fail(e) => Err(e)
    case Pass => if HashTaken(txns, created.hash) then Err(HashConflict) else Ok(txns + [created])
  }

  /** An inserted record keeps the record sequence free of duplicate hashes. */
  lemma InsertKeepsHashesUnique(cfg: Config, txns: seq<Txn>, t: Txn, generated: string)
    requires !EmptyHash(generated) && HashesUnique(txns)
    requires Insert(cfg, txns, t, generated).Ok?
    ensures HashesUnique(Insert(cfg, txns, t, generated).value)
  {
  }

  /** Appending a record whose hash is not taken keeps the hashes unique. */
  lemma AppendFreshHash(txns: seq<Txn>, t: Txn)
    requires HashesUnique(txns) && !HashTaken(txns, t.hash)
    ensures HashesUnique(txns + [t])
  {
  }

  /**
   * A record being created. Its creation hook assigns the hash in place before it validates;
   * once created, a record is only ever read, as a `Txn` value.
   */
  class Draft {
    const amount: int
    var hash: string
    const kind: string
    const accepted: bool
    const metaBytes: nat
    const balance: Option<int>
    const createdAt: int

    constructor (t: Txn)
      ensures Record() == t
    {
      amount, hash, kind, accepted := t.amount, t.hash, t.kind, t.accepted;
      metaBytes, balance, createdAt := t.metaBytes, t.balance, t.createdAt;
    }

    function Record(): Txn
      reads this
    {
      Txn(amount, hash, kind, accepted, metaBytes, balance, createdAt)
    }

    /** The `creating` hook: fill in a missing hash, then validate the attributes. */
    method Creating(cfg: Config, generated: string) returns (o: Outcome)
      modifies this
      ensures Record() == FillHash(old(Record()), generated)
      ensures o == Validate(cfg, Record())
    {
      if EmptyHash(hash) {
        hash := generated;
      }
      o := Validate(cfg, Record());
    }
  }

  /** The amount with the sign of its type: positive for credit types, negative for every other type. */
  function SignedAmount(cfg: Config, t: Txn): (r: int)
    ensures t.kind in cfg.creditTypes ==> r == t.amount
    ensures t.kind !in cfg.creditTypes ==> r == -t.amount
    ensures t.amount > 0 ==> (r > 0 <==> t.kind in cfg.creditTypes)
  {
    if t.kind in cfg.creditTypes then t.amount else -t.amount
  }

  /** Which records one of the reconciliation sums adds up. */
  datatype Filter = Filter(types: set<string>, acceptedOnly: bool, asOf: Option<int>)

  predicate Counts(f: Filter, t: Txn)
  {
    t.kind in f.types && (f.acceptedOnly ==> t.accepted) && (f.asOf.Some? ==> t.createdAt <= f.asOf.value)
  }

  /** Every record has a strictly positive amount. */
  ghost predicate AllPositive(txns: seq<Txn>)
  {
    forall i :: 0 <= i < |txns| ==> txns[i].amount > 0
  }

  /** The SQL `sum('amount')` over the records `f` selects. */
  function Total(txns: seq<Txn>, f: Filter): (r: int)
    ensures AllPositive(txns) ==> r >= 0
    ensures (forall i :: 0 <= i < |txns| ==> !Counts(f, txns[i])) ==> r == 0
  {
    if txns == [] then 0
    else
      assert AllPositive(txns) ==> AllPositive(txns[1..]);
      (if Counts(f, txns[0]) then txns[0].amount else 0) + Total(txns[1..], f)
  }

  lemma {:induction false} TotalAppend(txns: seq<Txn>, t: Txn, f: Filter)
    ensures Total(txns + [t], f) == Total(txns, f) + (if Counts(f, t) then t.amount else 0)
  {
    if txns == [] {
      assert [t][1..] == [];
    } else {
      assert (txns + [t])[1..] == txns[1..] + [t];
      TotalAppend(txns[1..], t, f);
    }
  }

  /** A record the filter rejects contributes nothing, wherever it stands. */
  lemma {:induction false} TotalSkipsUncounted(a: seq<Txn>, t: Txn, b: seq<Txn>, f: Filter)
    requires !Counts(f, t)
    ensures Total(a + [t] + b, f) == Total(a + b, f)
  {
    if a == [] {
      assert [t] + b == [t] + b && ([t] + b)[1..] == b;
      assert a + [t] + b == [t] + b && a + b == b;
    } else {
      assert (a + [t] + b)[1..] == a[1..] + [t] + b;
      assert (a + b)[1..] == a[1..] + b;
      TotalSkipsUncounted(a[1..], t, b, f);
    }
  }

  /** A date bound at or after every record's timestamp bounds nothing. */
  lemma {:induction false} TotalAsOfAfterAll(txns: seq<Txn>, types: set<string>, acceptedOnly: bool, date: int)
    requires forall i :: 0 <= i < |txns| ==> txns[i].createdAt <= date
    ensures Total(txns, Filter(types, acceptedOnly, Some(date))) == Total(txns, Filter(types, acceptedOnly, None))
  {
    if txns != [] {
      TotalAsOfAfterAll(txns[1..], types, acceptedOnly, date);
    }
  }

  /** Accepted credits minus accepted debits, optionally bounded by a date. */
  function Reconcile(cfg: Config, txns: seq<Txn>, asOf: Option<int>): int
  {
    Total(txns, Filter(cfg.creditTypes, true, asOf)) - Total(txns, Filter(cfg.debitTypes, true, asOf))
  }

  /** Every record is rejected or created after `date`. */
  ghost predicate NothingCountsBy(txns: seq<Txn>, date: int)
  {
    forall i :: 0 <= i < |txns| ==> !txns[i].accepted || txns[i].createdAt > date
  }

  /**
   * `actualBalance(date)` on a record: 0 when the record has no wallet, otherwise the
   * reconciliation of the wallet's records created at or before `date` (default: `now`).
   */
  function ActualBalanceAsOf(cfg: Config, wallet: Option<seq<Txn>>, date: Option<int>, now: int): (r: int)
    ensures wallet.None? ==> r == 0
    ensures wallet.Some? && NothingCountsBy(wallet.value, if date.Some? then date.value else now) ==> r == 0
  {
    var bound := if date.Some? then date.value else now;
    match wallet
    case None => 0
    case Some(txns) => Reconcile(cfg, txns, Some(bound))
  }

  /** A rejected record, or one created after the date, changes no as-of balance. */
  lemma AsOfSkipsFiltered(cfg: Config, a: seq<Txn>, t: Txn, b: seq<Txn>, date: int, now: int)
    requires !t.accepted || t.createdAt > date
    ensures ActualBalanceAsOf(cfg, Some(a + [t] + b), Some(date), now) == ActualBalanceAsOf(cfg, Some(a + b), Some(date), now)
  {
    TotalSkipsUncounted(a, t, b, Filter(cfg.creditTypes, true, Some(date)));
    TotalSkipsUncounted(a, t, b, Filter(cfg.debitTypes, true, Some(date)));
  }

  /** The sum of the signed amounts of the accepted records. */
  function SignedTotal(cfg: Config, txns: seq<Txn>): int
  {
    if txns == [] then 0
    else (if txns[0].accepted then SignedAmount(cfg, txns[0]) else 0) + SignedTotal(cfg, txns[1..])
  }

  /**
   * When no type is both a credit and a debit and every record has a known type, the
   * reconciliation is the sum of the accepted records' signed amounts.
   */
  lemma {:induction false} ReconcileIsSignedTotal(cfg: Config, txns: seq<Txn>)
    requires cfg.creditTypes !! cfg.debitTypes
    requires forall i :: 0 <= i < |txns| ==> Allowed(cfg, txns[i].kind)
    ensures Reconcile(cfg, txns, None) == SignedTotal(cfg, txns)
  {
    if txns != [] {
      ReconcileIsSignedTotal(cfg, txns[1..]);
    }
  }
}

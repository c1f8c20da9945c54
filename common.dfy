/** Failure-carrying values shared by the ledger modules. */
module Common {

  datatype Option<T> = None | Some(value: T)

  /** The failures the ledger raises; each one aborts the surrounding database transaction. */
  datatype Error =
    | InvalidAmount           // amount not strictly positive
    | InvalidTransactionType  // type in neither the credit nor the debit set
    | MetaTooLarge            // encoded meta longer than the limit
    | InsufficientBalance     // accepted, non-forced debit larger than the balance
    | WalletNotFound          // the locked lookup of a wallet id found no row
    | HashConflict            // the unique index on the record hash refused the insert

  datatype Outcome = Pass | Fail(error: Error)

  datatype Result<T> = Ok(value: T) | Err(error: Error)

  /** Forgets the value of a result, keeping only whether (and why) it failed. */
  function OutcomeOf<T>(r: Result<T>): (o: Outcome)
    ensures o.Pass? <==> r.Ok?
    ensures r.Err? ==> o == Fail(r.error)
  {
    match r
    case Ok(_) => Pass
    case Err(e) => Fail(e)
  }
}

/** The configuration the ledger reads: which transaction types are credits and which are debits. */
module WalletConfig {

  datatype Config = Config(creditTypes: set<string>, debitTypes: set<string>)

  /** The published defaults: `credit_types` and `debit_types`. */
  function DefaultConfig(): Config
  {
    Config({"deposit", "refund"}, {"withdraw", "payout", "reverse"})
  }

  /**
   * The sets `Wallet::actualBalance` falls back to when the `wallet` configuration is not
   * loaded; the record hook and the owner-side audit fall back to `DefaultConfig()` instead.
   */
  function LegacyAuditFallback(): Config
  {
    Config({"credit"}, {"debit"})
  }

  /** A type the creation hook accepts. */
  predicate Allowed(cfg: Config, kind: string)
  {
    kind in cfg.creditTypes || kind in cfg.debitTypes
  }

  /** A type that only the credit sums count. */
  predicate CreditOnly(cfg: Config, kind: string)
  {
    kind in cfg.creditTypes && kind !in cfg.debitTypes
  }

  /** A type that only the debit sums count. */
  predicate DebitOnly(cfg: Config, kind: string)
  {
    kind in cfg.debitTypes && kind !in cfg.creditTypes
  }

  /** The published defaults classify every type at most once: two credit types, three debit types. */
  lemma DefaultConfigClassifies()
    ensures DefaultConfig().creditTypes !! DefaultConfig().debitTypes
    ensures CreditOnly(DefaultConfig(), "deposit") && CreditOnly(DefaultConfig(), "refund")
    ensures DebitOnly(DefaultConfig(), "withdraw") && DebitOnly(DefaultConfig(), "payout")
    ensures DebitOnly(DefaultConfig(), "reverse")
  {
  }

  /** No type the hook accepts under the published sets is one the legacy fallback audit counts. */
  lemma FallbackSetsDisjoint(kind: string)
    requires Allowed(DefaultConfig(), kind)
    ensures !Allowed(LegacyAuditFallback(), kind)
  {
  }
}

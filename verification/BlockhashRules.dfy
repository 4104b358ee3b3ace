/** When a signed transaction may be resent, replaced, or is out of time. */
module BlockhashRules {
  import opened Wrappers
  import opened Chain

  /** A transaction is valid through `lastValid` inclusive. */
  predicate IsBlockhashExpired(height: nat, lastValid: nat) {
    height > lastValid
  }

  predicate ShouldRebroadcast(level: Option<Level>, expired: bool) {
    !expired && (level.None? || level.value.AtProcessed?)
  }

  predicate CanReplaceBlockhash(level: Option<Level>, expired: bool) {
    expired && level.None?
  }

  /** No answer of the two rules ever allows both to resend a transaction and to replace it. */
  lemma NeverResendAndReplace(level: Option<Level>, expired: bool)
    ensures !(ShouldRebroadcast(level, expired) && CanReplaceBlockhash(level, expired))
  {
  }

  /** A blockhash that may be replaced belongs to a transaction that can never land. */
  lemma ReplaceableIsDead(c: ChainState, tx: Tx, status: Option<SigStatus>, height: nat)
    requires Truthful(c, tx, status) && height <= c.height
    requires CanReplaceBlockhash(if status.None? then None else Some(status.value.level), IsBlockhashExpired(height, tx.lastValid))
    ensures Dead(c, tx)
  {
    AbsentAndExpiredIsDead(c, tx);
  }
}

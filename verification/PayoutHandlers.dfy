/**
 * What each payout handler does to the shared rows, as a function of the rows and of the
 * answers it gets from the cluster. The services' methods are proved equal to these.
 */
module PayoutHandlers {
  import opened Wrappers
  import opened SettlementProgram
  import opened Chain
  import opened BlockhashRules
  import opened Ledger
  import Money

  datatype Refusal =
    | NotFound | HeldShare | BatchNotPayable | AlreadyPaid | NonPositiveAmount | NoActiveWallet | PreviousStillValid
    | WrongStatus | AlreadyOnChain | NoSigner | NoWallet | NoAllocationHash | NoMint
    | MissingMetadata | BlockhashMismatch | BlockhashExpired

  function SetRow(db: Db, id: Id, rail: Option<Rail>, status: RowStatus): Db {
    if id in db.rows then db.(rows := db.rows[id := db.rows[id].(payoutRail := rail, status := status)]) else db
  }

  function SetRowStatus(db: Db, id: Id, status: RowStatus): Db {
    if id in db.rows then SetRow(db, id, db.rows[id].payoutRail, status) else db
  }

  // ----- API: createUsdcPayout

  function CreateRefusal(db: Db, id: Id, wallet: Option<Owner>, height: nat): Option<Refusal> {
    if id !in db.rows || db.rows[id].batch !in db.batches then Some(NotFound)
    else if db.rows[id].worker.None? then Some(HeldShare)
    else if !AcceptsPayouts(db.batches[db.rows[id].batch].status) then Some(BatchNotPayable)
    else if db.rows[id].status == RowPaid then Some(AlreadyPaid)
    else if db.rows[id].net <= 0 then Some(NonPositiveAmount)
    else if wallet.None? then Some(NoActiveWallet)
    else if id in db.payouts && db.payouts[id].status == Failed && db.payouts[id].lastValid.Some?
            && !IsBlockhashExpired(height, db.payouts[id].lastValid.value) then Some(PreviousStillValid)
    else None
  }

  /** The row status an existing, not failed, payout calls for. */
  function HealedStatus(p: PayoutStatus): Option<RowStatus> {
    match p
    case Finalized => Some(RowPaid)
    case Created | Initiated | Submitted | Confirmed => Some(RowPending)
    case _ => None
  }

  function NewPayout(db: Db, id: Id, wallet: Owner): Payout
    requires id in db.rows && db.rows[id].batch in db.batches && db.rows[id].worker.Some? && 0 <= db.rows[id].net
  {
    var row := db.rows[id];
    Payout(Usdc, row.worker.value, db.batches[row.batch].venue, Some(wallet),
           Money.CentsToUsdcBaseUnits(row.net), row.net, Created, None, None, None, None, None, 0, None)
  }

  function CreateUsdcPayout(db: Db, id: Id, wallet: Option<Owner>, height: nat): Db {
    if CreateRefusal(db, id, wallet, height).Some? then db
    else if id in db.payouts && db.payouts[id].status != Failed then
      var row, healed := db.rows[id], HealedStatus(db.payouts[id].status);
      if healed.None? || (row.status == healed.value && row.payoutRail == Some(Usdc)) then db
      else
        var db' := SetRow(db, id, Some(Usdc), healed.value);
        if healed.value == RowPaid then RefreshBatch(db', row.batch) else db'
    else
      SetRow(db.(payouts := db.payouts[id := NewPayout(db, id, wallet.value)]), id, Some(Usdc), RowPending)
  }

  // ----- API: buildTransaction

  /** Configuration and cluster answers that buildTransaction reads. */
  datatype BuildInput = BuildInput(
    signer: Option<Pubkey>, mint: Option<Pubkey>, record: Option<Record>, height: nat, blockhash: nat, lastValid: nat)

  predicate Rebuildable(s: PayoutStatus) {
    s == Created || s == Initiated || s == Failed
  }

  function BuildRefusal(db: Db, id: Id, input: BuildInput): Option<Refusal> {
    if id !in db.payouts || id !in db.rows || db.rows[id].batch !in db.batches then Some(NotFound)
    else
      var p := db.payouts[id];
      if !Rebuildable(p.status) then Some(WrongStatus)
      else if input.record.Some? then Some(AlreadyOnChain)
      else if p.status != Created && p.lastValid.Some? && !IsBlockhashExpired(input.height, p.lastValid.value)
      then Some(PreviousStillValid)
      else if input.signer.None? then Some(NoSigner)
      else if p.wallet.None? then Some(NoWallet)
      else if db.batches[db.rows[id].batch].allocationHash.None? then Some(NoAllocationHash)
      else if input.mint.None? then Some(NoMint)
      else None
  }

  function BuiltTx(db: Db, id: Id, input: BuildInput): Tx
    requires BuildRefusal(db, id, input).None?
  {
    var p := db.payouts[id];
    Tx(SettleCall(id, db.batches[db.rows[id].batch].allocationHash.value, p.amountBaseUnits, p.venue,
                  input.signer.value, p.wallet.value, input.mint.value),
       input.blockhash, input.lastValid)
  }

  function BuildTransaction(db: Db, id: Id, input: BuildInput): Db {
    if BuildRefusal(db, id, input).Some? then db
    else
      db.(payouts := db.payouts[id := db.payouts[id].(
                                   status := Initiated, blockhash := Some(input.blockhash), lastValid := Some(input.lastValid),
                                   txSignature := None, signedTransaction := None, attempts := 0, signer := input.signer, reason := None)])
  }

  // ----- API: submitSigned, first up to the compare-and-set claim, then from it on

  datatype SubmitCheck = Refused(why: Refusal) | AlreadySubmitted | MayClaim

  function CheckSubmission(db: Db, id: Id, tx: Tx): SubmitCheck {
    if id !in db.payouts then Refused(NotFound)
    else
      var p := db.payouts[id];
      if p.status == Submitted || p.status == Confirmed || p.status == Finalized then AlreadySubmitted
      else if p.status != Initiated then Refused(WrongStatus)
      else if p.blockhash.None? || p.lastValid.None? then Refused(MissingMetadata)
      else if tx.blockhash != p.blockhash.value then Refused(BlockhashMismatch)
      else MayClaim
  }

  /** `lastValid` is the value the request read with its row, `height` the one it sampled after. */
  predicate ClaimSucceeds(db: Db, id: Id, lastValid: nat, height: nat) {
    !IsBlockhashExpired(height, lastValid) && id in db.payouts && db.payouts[id].status == Initiated
  }

  function ClaimSubmission(db: Db, id: Id, tx: Tx, lastValid: nat, height: nat, sendFailed: bool): Db {
    if id !in db.payouts || db.payouts[id].status != Initiated then db
    else if IsBlockhashExpired(height, lastValid) then
      SetRowStatus(db.(payouts := db.payouts[id := db.payouts[id].(status := Failed, reason := Some(ExpiredBeforeSubmit))]),
                   id, RowFailed)
    else
      var p := db.payouts[id].(status := Submitted, txSignature := Some(tx), signedTransaction := Some(tx), attempts := 1);
      db.(payouts := db.payouts[id := if sendFailed then p.(reason := Some(InitialBroadcastError)) else p])
  }

  // ----- API: registerLegacyEvidence

  function LegacyRefusal(db: Db, id: Id): Option<Refusal> {
    if id !in db.rows || db.rows[id].batch !in db.batches then Some(NotFound)
    else if db.rows[id].worker.None? then Some(HeldShare)
    else if db.rows[id].status == RowPaid then
      if id in db.payouts && db.payouts[id].status == Finalized then None else Some(AlreadyPaid)
    else if !AcceptsPayouts(db.batches[db.rows[id].batch].status) then Some(BatchNotPayable)
    else None
  }

  function RegisterLegacyEvidence(db: Db, id: Id, rail: Rail): Db {
    if LegacyRefusal(db, id).Some? || db.rows[id].status == RowPaid then db
    else
      var row := db.rows[id];
      var payout :=
        if id in db.payouts then db.payouts[id].(rail := rail, status := Finalized)
        else Payout(rail, row.worker.value, db.batches[row.batch].venue, None, 0, row.net, Finalized,
                    None, None, None, None, None, 0, None);
      RefreshBatch(SetRow(db.(payouts := db.payouts[id := payout]), id, Some(rail), RowPaid), row.batch)
  }

  // ----- worker: what a look at the cluster decides

  /** One snapshot of answers for a payout's signature and record, the record at "finalized". */
  datatype RpcView = RpcView(status: Option<SigStatus>, height: nat, root: nat, finalizedTx: bool, record: Option<Record>)

  datatype Verdict = Leave | SawConfirmed | Finalize | Fail(reason: Reason)

  predicate Expired(p: Payout, height: nat) {
    p.lastValid.Some? && IsBlockhashExpired(height, p.lastValid.value)
  }

  /** failIfObservedForkWasDropped, up to its writes. */
  predicate ForkWasDropped(expired: bool, slot: nat, v: RpcView) {
    expired && slot < v.root && !v.finalizedTx
  }

  function RecordOrFail(v: RpcView, reason: Reason): Verdict {
    if v.record.Some? then Finalize else Fail(reason)
  }

  function ConfirmationVerdict(p: Payout, signature: Tx, v: RpcView): Verdict {
    if p.status == Finalized || p.status == Failed || p.txSignature != Some(signature) then Leave
    else
      var expired := Expired(p, v.height);
      match v.status
      case None => if CanReplaceBlockhash(None, expired) then RecordOrFail(v, TransactionDropped) else Leave
      case Some(st) =>
        if st.failed then RecordOrFail(v, OnChainError)
        else if st.level.AtFinalized? then (if v.record.Some? then Finalize else Leave)
        else if ForkWasDropped(expired, st.slot, v) then RecordOrFail(v, ForkDroppedAfterExpiry)
        else if st.level.AtConfirmed? && p.status == Submitted then SawConfirmed
        else Leave
  }

  predicate ConfirmationResends(p: Payout, signature: Tx, v: RpcView) {
    && p.status != Finalized && p.status != Failed && p.txSignature == Some(signature) && p.signedTransaction.Some?
    && (v.status.Some? ==> !v.status.value.failed)
    && !Expired(p, v.height)
    && ShouldRebroadcast(if v.status.None? then None else Some(v.status.value.level), false)
  }

  function ReconcileVerdict(p: Payout, v: RpcView, abandoned: bool): Verdict {
    if p.rail != Usdc || !InFlight(p.status) then Leave
    else if v.record.Some? then Finalize
    else
      var expired := Expired(p, v.height);
      match (if p.txSignature.Some? then v.status else None)
      case None =>
        if p.lastValid.Some? && CanReplaceBlockhash(None, expired)
        then Fail(if p.txSignature.Some? then TransactionDropped else ExpiredBeforeSubmit)
        else if p.lastValid.None? && abandoned then Fail(LegacyAttemptTimeout)
        else Leave
      case Some(st) =>
        if st.failed then Fail(OnChainError)
        else if st.level.AtFinalized? then Fail(FinalizedWithoutSettlement)
        else if ForkWasDropped(expired, st.slot, v) then Fail(ForkDroppedAfterExpiry)
        else if st.level.AtConfirmed? && p.status == Submitted then SawConfirmed
        else Leave
  }

  predicate ReconcileResends(p: Payout, v: RpcView) {
    && p.rail == Usdc && InFlight(p.status) && v.record.None?
    && p.txSignature.Some? && p.signedTransaction.Some?
    && !Expired(p, v.height)
    && (match v.status
        case None => p.lastValid.Some?
        case Some(st) => !st.failed && st.level.AtProcessed?)
  }

  /** The writes a verdict leads to. */
  function ApplyVerdict(db: Db, id: Id, verdict: Verdict): Db {
    if id !in db.payouts then db
    else
      match verdict
      case Leave => db
      case SawConfirmed => db.(payouts := db.payouts[id := db.payouts[id].(status := Confirmed)])
      case Fail(reason) =>
        SetRowStatus(db.(payouts := db.payouts[id := db.payouts[id].(status := Failed, reason := Some(reason))]), id, RowFailed)
      case Finalize =>
        var db' := SetRowStatus(db.(payouts := db.payouts[id := db.payouts[id].(status := Finalized, reason := None)]), id, RowPaid);
        if id in db'.rows then RefreshBatch(db', db'.rows[id].batch) else db'
  }

  function CountResend(db: Db, id: Id, resends: bool): Db {
    if resends && id in db.payouts && (db.payouts[id].status == Submitted || db.payouts[id].status == Confirmed)
    then db.(payouts := db.payouts[id := db.payouts[id].(attempts := db.payouts[id].attempts + 1)])
    else db
  }

  function ProcessConfirmation(db: Db, id: Id, signature: Tx, v: RpcView): Db {
    if id !in db.payouts then db
    else CountResend(ApplyVerdict(db, id, ConfirmationVerdict(db.payouts[id], signature, v)),
                     id, ConfirmationResends(db.payouts[id], signature, v))
  }

  function ReconcileTurn(db: Db, id: Id, v: RpcView, abandoned: bool): Db {
    if id !in db.payouts then db
    else CountResend(ApplyVerdict(db, id, ReconcileVerdict(db.payouts[id], v, abandoned)),
                     id, ReconcileResends(db.payouts[id], v))
  }

  /** The PayoutSettled indexer. */
  function SettledEvent(db: Db, id: Id): Db {
    if id in db.payouts && (db.payouts[id].status == Submitted || db.payouts[id].status == Initiated)
    then db.(payouts := db.payouts[id := db.payouts[id].(status := Confirmed)])
    else db
  }
}

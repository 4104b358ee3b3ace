/**
 * What each payout handler answers and writes, read off the rows before and after, field by
 * field; and over whole runs, whose wallet a settlement pays.
 */
module PayoutAnswers {
  import opened Wrappers
  import opened SettlementProgram
  import opened Chain
  import opened Ledger
  import opened PayoutHandlers
  import opened LedgerHandlers
  import opened Protocol
  import opened ProtocolInvariant
  import SettlementWorker

  /** Everything but the payout and the row of this id, and the status of the row's batch. */
  ghost predicate Elsewhere(db: Db, db': Db, id: Id) {
    && db'.payouts.Keys <= db.payouts.Keys + {id} && db.payouts.Keys <= db'.payouts.Keys && db'.rows.Keys == db.rows.Keys
    && (forall k :: k in db.payouts && k != id ==> db'.payouts[k] == db.payouts[k])
    && (forall k :: k in db.rows && k != id ==> db'.rows[k] == db.rows[k])
    && db'.batches.Keys == db.batches.Keys
    && (forall b :: b in db.batches ==> db'.batches[b] == db.batches[b].(status := db'.batches[b].status))
    && (forall b :: b in db.batches && !(id in db.rows && db.rows[id].batch == b) ==> db'.batches[b] == db.batches[b])
  }

  /** Of a row only the payment columns change. */
  predicate OnlyPaymentColumns(db: Db, db': Db, id: Id) {
    id in db.rows ==> id in db'.rows && db'.rows[id] == db.rows[id].(payoutRail := db'.rows[id].payoutRail, status := db'.rows[id].status)
  }

  // ----- createUsdcPayout

  /** A payout the worker may be asked for again: none yet, or a failed one whose last blockhash is out of time. */
  predicate Free(db: Db, id: Id, height: nat) {
    id in db.payouts ==> db.payouts[id].status == Failed && (db.payouts[id].lastValid.Some? ==> db.payouts[id].lastValid.value < height)
  }

  lemma CreatesExactlyWhen(db: Db, id: Id, wallet: Option<Owner>, height: nat)
    ensures CreateRefusal(db, id, wallet, height).None? <==>
      && id in db.rows && db.rows[id].batch in db.batches && db.rows[id].worker.Some?
      && (db.batches[db.rows[id].batch].status == Payable || db.batches[db.rows[id].batch].status == PartiallyPaid)
      && db.rows[id].status != RowPaid && 0 < db.rows[id].net && wallet.Some?
      && (Free(db, id, height) || (id in db.payouts && db.payouts[id].status != Failed))
  {
  }

  /** The refusal is that of the first check that fails. */
  lemma CreateChecksInOrder(db: Db, id: Id, wallet: Option<Owner>, height: nat)
    ensures CreateRefusal(db, id, wallet, height) ==
      if id !in db.rows || db.rows[id].batch !in db.batches then Some(NotFound)
      else FirstFailing([
        (db.rows[id].worker == None, HeldShare),
        (db.batches[db.rows[id].batch].status !in {Payable, PartiallyPaid}, BatchNotPayable),
        (db.rows[id].status == RowPaid, AlreadyPaid),
        (db.rows[id].net < 1, NonPositiveAmount),
        (wallet == None, NoActiveWallet),
        (!Free(db, id, height) && db.payouts[id].status == Failed, PreviousStillValid)])
  {
    if id in db.rows && db.rows[id].batch in db.batches {
      FirstOfSix(db.rows[id].worker == None, db.batches[db.rows[id].batch].status !in {Payable, PartiallyPaid},
                 db.rows[id].status == RowPaid, db.rows[id].net < 1, wallet == None,
                 !Free(db, id, height) && db.payouts[id].status == Failed,
                 HeldShare, BatchNotPayable, AlreadyPaid, NonPositiveAmount, NoActiveWallet, PreviousStillValid);
    }
  }

  lemma FirstOfSix<E>(b1: bool, b2: bool, b3: bool, b4: bool, b5: bool, b6: bool, e1: E, e2: E, e3: E, e4: E, e5: E, e6: E)
    ensures FirstFailing([(b1, e1), (b2, e2), (b3, e3), (b4, e4), (b5, e5), (b6, e6)]) ==
      if b1 then Some(e1) else if b2 then Some(e2) else if b3 then Some(e3) else if b4 then Some(e4)
      else if b5 then Some(e5) else if b6 then Some(e6) else None
  {
    var checks := [(b1, e1), (b2, e2), (b3, e3), (b4, e4), (b5, e5), (b6, e6)];
    FirstThenRest(checks);
    assert checks[1..][1..] == checks[2..] && checks[2..][1..] == checks[3..] && checks[3..][1..] == checks[4..];
    assert checks[4..][1..] == checks[5..] && checks[5..][1..] == [];
    FirstThenRest(checks[1..]);
    FirstThenRest(checks[2..]);
    FirstThenRest(checks[3..]);
    FirstThenRest(checks[4..]);
    FirstThenRest(checks[5..]);
  }

  /**
   * A payout made anew is to the wallet the request found, for the row's worker, the batch's
   * venue and all of the row's net, with nothing left of the attempt before.
   */
  lemma ANewPayoutIsForTheWalletFound(db: Db, id: Id, wallet: Option<Owner>, height: nat)
    requires CreateRefusal(db, id, wallet, height).None? && Free(db, id, height)
    ensures
      var after := CreateUsdcPayout(db, id, wallet, height);
      && id in after.payouts && id in db.rows && db.rows[id].batch in db.batches && id in after.rows
      && var p := after.payouts[id];
      && p.wallet == wallet && db.rows[id].worker == Some(p.worker) && p.venue == db.batches[db.rows[id].batch].venue
      && p.amountUsdCents == db.rows[id].net && p.amountBaseUnits == 10_000 * db.rows[id].net
      && p.rail == Usdc && p.status == Created && p.attempts == 0
      && p.txSignature.None? && p.signedTransaction.None? && p.blockhash.None? && p.lastValid.None? && p.signer.None? && p.reason.None?
      && after.rows[id] == db.rows[id].(payoutRail := Some(Usdc), status := RowPending)
      && after.batches == db.batches && Elsewhere(db, after, id)
  {
  }

  /** Asked for again, a payout that is not failed stays as it is, and its row says so again. */
  lemma CreatingAgainOnlyHealsTheRow(db: Db, id: Id, wallet: Option<Owner>, height: nat)
    requires CreateRefusal(db, id, wallet, height).None? && !Free(db, id, height)
    ensures
      var after := CreateUsdcPayout(db, id, wallet, height);
      && id in db.payouts && id in db.rows && after.payouts == db.payouts && id in after.rows
      && OnlyPaymentColumns(db, after, id) && Elsewhere(db, after, id)
      && (db.payouts[id].status == Finalized ==> after.rows[id].status == RowPaid && after.rows[id].payoutRail == Some(Usdc))
      && (db.payouts[id].status == Created || InFlight(db.payouts[id].status) ==>
            after.rows[id].status == RowPending && after.rows[id].payoutRail == Some(Usdc) && after.batches == db.batches)
  {
  }

  lemma ARefusedCreateChangesNothing(db: Db, id: Id, wallet: Option<Owner>, height: nat)
    requires CreateRefusal(db, id, wallet, height).Some?
    ensures CreateUsdcPayout(db, id, wallet, height) == db
  {
  }

  // ----- buildTransaction

  lemma BuildsExactlyWhen(db: Db, id: Id, input: BuildInput)
    ensures BuildRefusal(db, id, input).None? <==>
      && id in db.payouts && id in db.rows && db.rows[id].batch in db.batches
      && var p := db.payouts[id];
      && p.status in {Created, Initiated, Failed} && input.record.None?
      && (p.status != Created && p.lastValid.Some? ==> p.lastValid.value < input.height)
      && input.signer.Some? && p.wallet.Some? && db.batches[db.rows[id].batch].allocationHash.Some? && input.mint.Some?
  {
  }

  lemma BuildChecksInOrder(db: Db, id: Id, input: BuildInput)
    ensures BuildRefusal(db, id, input) ==
      if id !in db.payouts || id !in db.rows || db.rows[id].batch !in db.batches then Some(NotFound)
      else if db.payouts[id].status !in {Created, Initiated, Failed} then Some(WrongStatus)
      else FirstFailing([
        (input.record != None, AlreadyOnChain),
        (db.payouts[id].status in {Initiated, Failed} && db.payouts[id].lastValid.Some? && input.height <= db.payouts[id].lastValid.value,
         PreviousStillValid),
        (input.signer == None, NoSigner),
        (db.payouts[id].wallet == None, NoWallet),
        (db.batches[db.rows[id].batch].allocationHash == None, NoAllocationHash),
        (input.mint == None, NoMint)])
  {
    if id in db.payouts && id in db.rows && db.rows[id].batch in db.batches && db.payouts[id].status in {Created, Initiated, Failed} {
      FirstOfSix(
        input.record != None,
        db.payouts[id].status in {Initiated, Failed} && db.payouts[id].lastValid.Some? && input.height <= db.payouts[id].lastValid.value,
        input.signer == None, db.payouts[id].wallet == None,
        db.batches[db.rows[id].batch].allocationHash == None, input.mint == None,
        AlreadyOnChain, PreviousStillValid, NoSigner, NoWallet, NoAllocationHash, NoMint);
    }
  }

  /** The transaction pays the payout's amount to the payout's wallet, and the row tracks its blockhash and nothing of the one before. */
  lemma TheTransactionPaysThePayout(db: Db, id: Id, input: BuildInput)
    requires BuildRefusal(db, id, input).None?
    ensures
      var after, tx, p := BuildTransaction(db, id, input), BuiltTx(db, id, input), db.payouts[id];
      && tx.call.payment == id && tx.call.amount == p.amountBaseUnits && p.wallet == Some(tx.call.wallet) && tx.call.venue == p.venue
      && db.batches[db.rows[id].batch].allocationHash == Some(tx.call.allocationHash)
      && input.signer == Some(tx.call.authority) && input.mint == Some(tx.call.mint)
      && tx.blockhash == input.blockhash && tx.lastValid == input.lastValid
      && id in after.payouts
      && var q := after.payouts[id];
      && q.status == Initiated && q.blockhash == Some(tx.blockhash) && q.lastValid == Some(tx.lastValid) && q.signer == input.signer
      && q.txSignature.None? && q.signedTransaction.None? && q.attempts == 0 && q.reason.None?
      && q.wallet == p.wallet && q.amountBaseUnits == p.amountBaseUnits && q.amountUsdCents == p.amountUsdCents
      && q.rail == p.rail && q.worker == p.worker && q.venue == p.venue
      && after.rows == db.rows && after.batches == db.batches && Elsewhere(db, after, id)
  {
  }

  lemma ARefusedBuildChangesNothing(db: Db, id: Id, input: BuildInput)
    requires BuildRefusal(db, id, input).Some?
    ensures BuildTransaction(db, id, input) == db
  {
  }

  // ----- submitSigned

  /** A submit repeated after it went out is answered, not refused; only the bytes of the tracked blockhash may be claimed. */
  lemma SubmitAnswers(db: Db, id: Id, tx: Tx)
    ensures CheckSubmission(db, id, tx) == AlreadySubmitted <==> id in db.payouts && db.payouts[id].status in {Submitted, PayoutStatus.Confirmed, Finalized}
    ensures CheckSubmission(db, id, tx) == MayClaim <==>
      id in db.payouts && db.payouts[id].status == Initiated && db.payouts[id].blockhash == Some(tx.blockhash) && db.payouts[id].lastValid.Some?
    ensures CheckSubmission(db, id, tx) == Refused(NotFound) <==> id !in db.payouts
    ensures CheckSubmission(db, id, tx) == Refused(WrongStatus) <==>
      id in db.payouts && db.payouts[id].status !in {Initiated, Submitted, PayoutStatus.Confirmed, Finalized}
    ensures CheckSubmission(db, id, tx) == Refused(BlockhashMismatch) <==>
      id in db.payouts && db.payouts[id].status == Initiated && db.payouts[id].lastValid.Some?
      && db.payouts[id].blockhash.Some? && db.payouts[id].blockhash.value != tx.blockhash
    ensures CheckSubmission(db, id, tx) == Refused(MissingMetadata) <==>
      id in db.payouts && db.payouts[id].status == Initiated && (db.payouts[id].blockhash.None? || db.payouts[id].lastValid.None?)
  {
  }

  /** A claim either persists the bytes as submitted, or fails the payout as too late, or finds it claimed and does nothing. */
  lemma ClaimWrites(db: Db, id: Id, tx: Tx, lastValid: nat, height: nat, sendFailed: bool)
    ensures
      var after, open := ClaimSubmission(db, id, tx, lastValid, height, sendFailed), id in db.payouts && db.payouts[id].status == Initiated;
      && (ClaimSucceeds(db, id, lastValid, height) <==> open && height <= lastValid)
      && (!open ==> after == db)
      && (open && lastValid < height ==>
            && id in after.payouts && after.payouts[id] == db.payouts[id].(status := Failed, reason := Some(ExpiredBeforeSubmit))
            && OnlyPaymentColumns(db, after, id) && Elsewhere(db, after, id) && after.batches == db.batches
            && (id in db.rows ==> after.rows[id].status == RowFailed && after.rows[id].payoutRail == db.rows[id].payoutRail))
      && (open && height <= lastValid ==>
            && id in after.payouts && after.payouts[id].status == Submitted && after.payouts[id].attempts == 1
            && after.payouts[id].txSignature == Some(tx) && after.payouts[id].signedTransaction == Some(tx)
            && after.payouts[id].reason == (if sendFailed then Some(InitialBroadcastError) else db.payouts[id].reason)
            && after.payouts[id].(status := Initiated, attempts := db.payouts[id].attempts, txSignature := db.payouts[id].txSignature,
                                  signedTransaction := db.payouts[id].signedTransaction, reason := db.payouts[id].reason) == db.payouts[id]
            && after.rows == db.rows && after.batches == db.batches && Elsewhere(db, after, id))
  {
  }

  // ----- registerLegacyEvidence

  lemma EvidenceTakenExactlyWhen(db: Db, id: Id)
    ensures LegacyRefusal(db, id).None? <==>
      && id in db.rows && db.rows[id].batch in db.batches && db.rows[id].worker.Some?
      && (if db.rows[id].status == RowPaid then id in db.payouts && db.payouts[id].status == Finalized
          else db.batches[db.rows[id].batch].status in {Payable, PartiallyPaid})
    ensures LegacyRefusal(db, id) == Some(NotFound) <==> id !in db.rows || db.rows[id].batch !in db.batches
    ensures LegacyRefusal(db, id) == Some(HeldShare) <==> id in db.rows && db.rows[id].batch in db.batches && db.rows[id].worker.None?
    ensures LegacyRefusal(db, id).Some? ==> LegacyRefusal(db, id).value in {NotFound, HeldShare, AlreadyPaid, BatchNotPayable}
    ensures LegacyRefusal(db, id) == Some(AlreadyPaid) ==> db.rows[id].status == RowPaid
  {
  }

  /** Evidence pays the row by its rail: the net of a row without a payout, and the payout's amount otherwise. */
  lemma EvidencePaysTheRow(db: Db, id: Id, rail: Rail)
    requires LegacyRefusal(db, id).None?
    ensures
      var after := RegisterLegacyEvidence(db, id, rail);
      && (db.rows[id].status == RowPaid ==> after == db)
      && (db.rows[id].status != RowPaid ==>
            && id in after.payouts && id in after.rows
            && after.payouts[id].rail == rail && after.payouts[id].status == Finalized
            && after.rows[id] == db.rows[id].(payoutRail := Some(rail), status := RowPaid)
            && Elsewhere(db, after, id)
            && (if id in db.payouts
                then after.payouts[id].(rail := db.payouts[id].rail, status := db.payouts[id].status) == db.payouts[id]
                else after.payouts[id].amountUsdCents == db.rows[id].net && db.rows[id].worker == Some(after.payouts[id].worker)
                     && after.payouts[id].venue == db.batches[db.rows[id].batch].venue && after.payouts[id].wallet.None?
                     && after.payouts[id].txSignature.None? && after.payouts[id].lastValid.None?))
  {
  }

  lemma RefusedEvidenceChangesNothing(db: Db, id: Id, rail: Rail)
    requires LegacyRefusal(db, id).Some?
    ensures RegisterLegacyEvidence(db, id, rail) == db
  {
  }

  // ----- the worker's verdicts

  /** The payout is still open and the job's signature is the one it tracks. */
  predicate Tracks(p: Payout, signature: Tx) {
    p.status !in {Finalized, Failed} && p.txSignature == Some(signature)
  }

  predicate OutOfTime(p: Payout, v: RpcView) {
    p.lastValid.Some? && p.lastValid.value < v.height
  }

  /** Seen on a fork that the root has passed, out of time, and in no finalized block. */
  predicate SeenOnADeadFork(p: Payout, v: RpcView) {
    v.status.Some? && !v.status.value.failed && v.status.value.level != AtFinalized
    && OutOfTime(p, v) && v.status.value.slot < v.root && !v.finalizedTx
  }

  /** What the confirmation handler decides, and when. */
  lemma ConfirmationDecides(p: Payout, signature: Tx, v: RpcView)
    ensures
      var verdict, failed, unseen := ConfirmationVerdict(p, signature, v), v.status.Some? && v.status.value.failed, v.status.None? && OutOfTime(p, v);
      var final := v.status.Some? && !failed && v.status.value.level == AtFinalized;
      && (verdict == Finalize <==> Tracks(p, signature) && v.record.Some? && (failed || final || unseen || SeenOnADeadFork(p, v)))
      && (verdict == Fail(OnChainError) <==> Tracks(p, signature) && v.record.None? && failed)
      && (verdict == Fail(TransactionDropped) <==> Tracks(p, signature) && v.record.None? && unseen)
      && (verdict == Fail(ForkDroppedAfterExpiry) <==> Tracks(p, signature) && v.record.None? && SeenOnADeadFork(p, v))
      && (verdict == SawConfirmed <==>
            Tracks(p, signature) && p.status == Submitted && v.status.Some? && !failed
            && v.status.value.level == AtConfirmed && !SeenOnADeadFork(p, v))
      && (verdict.Fail? ==> verdict.reason in {OnChainError, TransactionDropped, ForkDroppedAfterExpiry})
  {
  }

  /** A signature in time is sent again at every poll that has not seen it beyond "processed", the first included. */
  lemma ConfirmationResendsWhen(p: Payout, signature: Tx, v: RpcView)
    ensures ConfirmationResends(p, signature, v) <==>
      && Tracks(p, signature) && p.signedTransaction.Some? && !OutOfTime(p, v)
      && (v.status.None? || (v.status.value.level == AtProcessed && !v.status.value.failed))
  {
  }

  /** What a turn of the sweep decides, and when. */
  lemma SweepDecides(p: Payout, v: RpcView, abandoned: bool)
    requires p.txSignature.None? ==> v.status.None?
    ensures
      var verdict, swept, failed := ReconcileVerdict(p, v, abandoned), p.rail == Usdc && p.status in {Initiated, Submitted, PayoutStatus.Confirmed},
                                    v.status.Some? && v.status.value.failed;
      && (verdict == Finalize <==> swept && v.record.Some?)
      && (verdict == Fail(OnChainError) <==> swept && v.record.None? && failed)
      && (verdict == Fail(FinalizedWithoutSettlement) <==>
            swept && v.record.None? && v.status.Some? && !failed && v.status.value.level == AtFinalized)
      && (verdict == Fail(ForkDroppedAfterExpiry) <==> swept && v.record.None? && SeenOnADeadFork(p, v))
      && (verdict == Fail(TransactionDropped) <==>
            swept && v.record.None? && v.status.None? && OutOfTime(p, v) && p.txSignature.Some?)
      && (verdict == Fail(ExpiredBeforeSubmit) <==>
            swept && v.record.None? && v.status.None? && OutOfTime(p, v) && p.txSignature.None?)
      && (verdict == Fail(LegacyAttemptTimeout) <==>
            swept && v.record.None? && v.status.None? && p.lastValid.None? && abandoned)
      && (verdict == SawConfirmed <==>
            swept && v.record.None? && p.status == Submitted && v.status.Some? && !failed
            && v.status.value.level == AtConfirmed && !SeenOnADeadFork(p, v))
      && verdict != Fail(InitialBroadcastError)
  {
  }

  lemma SweepResendsWhen(p: Payout, v: RpcView)
    ensures ReconcileResends(p, v) <==>
      && p.rail == Usdc && p.status in {Initiated, Submitted, PayoutStatus.Confirmed} && v.record.None?
      && p.txSignature.Some? && p.signedTransaction.Some? && !OutOfTime(p, v)
      && (if v.status.None? then p.lastValid.Some? else v.status.value.level == AtProcessed && !v.status.value.failed)
  {
  }

  /** What the sweep's query leaves out a turn would leave alone, and what it returns is in flight. */
  lemma TheQueryMissesNothing(db: Db, id: Id, v: RpcView, abandoned: bool)
    ensures id in db.payouts && !SettlementWorker.IsStale(db, id) ==>
      ReconcileVerdict(db.payouts[id], v, abandoned) == Leave && !ReconcileResends(db.payouts[id], v)
    ensures SettlementWorker.IsStale(db, id) ==> id in db.payouts && InFlight(db.payouts[id].status)
  {
  }

  /** What a verdict writes: payout and row together, and nothing of anybody else's. */
  lemma VerdictsWrite(db: Db, id: Id, verdict: Verdict)
    requires id in db.payouts && id in db.rows
    ensures
      var after, p := ApplyVerdict(db, id, verdict), db.payouts[id];
      && Elsewhere(db, after, id) && OnlyPaymentColumns(db, after, id) && id in after.payouts
      && after.rows[id].payoutRail == db.rows[id].payoutRail
      && match verdict
         case Leave => after == db
         case SawConfirmed => after.payouts[id] == p.(status := PayoutStatus.Confirmed) && after.rows == db.rows && after.batches == db.batches
         case Finalize => after.payouts[id] == p.(status := Finalized, reason := None) && after.rows[id].status == RowPaid
         case Fail(why) =>
           after.payouts[id] == p.(status := Failed, reason := Some(why)) && after.rows[id].status == RowFailed && after.batches == db.batches
  {
  }

  /** A resend is counted on the payout while it is submitted or confirmed, and changes nothing else. */
  lemma ResendsAreCounted(db: Db, id: Id, resends: bool)
    ensures
      var after, counted := CountResend(db, id, resends), resends && id in db.payouts && db.payouts[id].status in {Submitted, PayoutStatus.Confirmed};
      && after.rows == db.rows && after.batches == db.batches && Elsewhere(db, after, id)
      && (counted ==> id in after.payouts && after.payouts[id] == db.payouts[id].(attempts := db.payouts[id].attempts + 1))
      && (!counted ==> after == db)
  {
  }

  /** A turn of either handler counts a resend or writes its verdict, never both. */
  lemma TurnsWriteOneThing(db: Db, id: Id, signature: Tx, v: RpcView, abandoned: bool)
    requires id in db.payouts
    ensures
      var p := db.payouts[id];
      && ProcessConfirmation(db, id, signature, v) ==
           (if ConfirmationResends(p, signature, v) then CountResend(db, id, true) else ApplyVerdict(db, id, ConfirmationVerdict(p, signature, v)))
      && ReconcileTurn(db, id, v, abandoned) ==
           (if ReconcileResends(p, v) then CountResend(db, id, true) else ApplyVerdict(db, id, ReconcileVerdict(p, v, abandoned)))
  {
  }

  /** The event confirms a payout being initiated or submitted, and touches nothing else. */
  lemma TheEventConfirms(db: Db, id: Id)
    ensures
      var after := SettledEvent(db, id);
      && after.rows == db.rows && after.batches == db.batches && after.payouts.Keys == db.payouts.Keys && Elsewhere(db, after, id)
      && (id in db.payouts && db.payouts[id].status in {Initiated, Submitted} ==>
            after.payouts[id] == db.payouts[id].(status := PayoutStatus.Confirmed))
      && (!(id in db.payouts && db.payouts[id].status in {Initiated, Submitted}) ==> after == db)
  {
  }

  // ----- over whole runs: whose wallet is paid

  /** The step makes the payout, for the first time or anew after a failed attempt. */
  ghost predicate MakesPayout(s: State, step: ProtocolStep, id: Id) {
    step.CreatePayout? && step.id == id && CreateRefusal(s.db, id, step.wallet, s.chain.height).None? && Free(s.db, id, s.chain.height)
  }

  /** The wallet that the last request to make the payout found, if there was one. */
  ghost function WalletAskedFor(s: State, steps: seq<ProtocolStep>, id: Id, last: Option<Owner>): Option<Owner>
    decreases |steps|
  {
    if steps == [] || !Enabled(s, steps[0]) then last
    else WalletAskedFor(Apply(s, steps[0]), steps[1..], id, if MakesPayout(s, steps[0], id) then steps[0].wallet else last)
  }

  function WalletOf(db: Db, id: Id): Option<Owner> {
    if id in db.payouts then db.payouts[id].wallet else None
  }

  predicate SameWallet(db: Db, db': Db, id: Id) {
    WalletOf(db', id) == WalletOf(db, id)
  }

  lemma CreateWallet(db: Db, k: Id, wallet: Option<Owner>, height: nat, id: Id)
    ensures WalletOf(CreateUsdcPayout(db, k, wallet, height), id) ==
      if k == id && CreateRefusal(db, id, wallet, height).None? && Free(db, id, height) then wallet else WalletOf(db, id)
  {
    if CreateRefusal(db, k, wallet, height).Some? {
      ARefusedCreateChangesNothing(db, k, wallet, height);
    } else if Free(db, k, height) {
      ANewPayoutIsForTheWalletFound(db, k, wallet, height);
    } else {
      CreatingAgainOnlyHealsTheRow(db, k, wallet, height);
    }
  }

  lemma BuildWallet(db: Db, k: Id, input: BuildInput, id: Id)
    ensures SameWallet(db, BuildTransaction(db, k, input), id)
  {
  }

  lemma ClaimWallet(db: Db, k: Id, tx: Tx, lastValid: nat, height: nat, sendFailed: bool, id: Id)
    ensures SameWallet(db, ClaimSubmission(db, k, tx, lastValid, height, sendFailed), id)
  {
  }

  lemma LegacyWallet(db: Db, k: Id, rail: Rail, id: Id)
    ensures SameWallet(db, RegisterLegacyEvidence(db, k, rail), id)
  {
  }

  lemma VerdictWallet(db: Db, k: Id, verdict: Verdict, resends: bool, id: Id)
    ensures SameWallet(db, CountResend(ApplyVerdict(db, k, verdict), k, resends), id)
  {
  }

  lemma ConfirmationWallet(db: Db, k: Id, signature: Tx, v: RpcView, id: Id)
    ensures SameWallet(db, ProcessConfirmation(db, k, signature, v), id)
  {
    if k in db.payouts {
      VerdictWallet(db, k, ConfirmationVerdict(db.payouts[k], signature, v), ConfirmationResends(db.payouts[k], signature, v), id);
    }
  }

  lemma ReconcileWallet(db: Db, k: Id, v: RpcView, abandoned: bool, id: Id)
    ensures SameWallet(db, ReconcileTurn(db, k, v, abandoned), id)
  {
    if k in db.payouts {
      VerdictWallet(db, k, ReconcileVerdict(db.payouts[k], v, abandoned), ReconcileResends(db.payouts[k], v), id);
    }
  }

  lemma WorkerWallet(s: State, step: ProtocolStep, id: Id)
    requires Enabled(s, step) && (step.Confirmation? || step.Reconcile?)
    ensures SameWallet(s.db, Apply(s, step).db, id)
  {
    if step.Confirmation? {
      ConfirmationWritesDb(s, step);
      ConfirmationWallet(s.db, step.id, step.signature, View(s, step.id, step.signature, step.status, s.chain.height), id);
    } else {
      ReconcileWritesDb(s, step);
      ReconcileWallet(s.db, step.id, TurnView(s, step.id, step.status, step.height), step.abandoned, id);
    }
  }

  lemma OtherWallet(s: State, step: ProtocolStep, id: Id)
    requires Enabled(s, step) && (step.CheckSubmit? || step.Cluster? || step.DeliverEvent?)
    ensures SameWallet(s.db, Apply(s, step).db, id)
  {
  }

  lemma BatchWallet(s: State, step: ProtocolStep, id: Id)
    requires Enabled(s, step) && (step.CalculateBatch? || step.ApproveBatch? || step.RejectBatch? || step.Attach?)
    ensures SameWallet(s.db, Apply(s, step).db, id)
  {
  }

  lemma StepWallet(s: State, step: ProtocolStep, id: Id)
    requires Enabled(s, step)
    ensures WalletOf(Apply(s, step).db, id) == if MakesPayout(s, step, id) then step.wallet else WalletOf(s.db, id)
  {
    if step.CreatePayout? {
      CreateWallet(s.db, step.id, step.wallet, s.chain.height, id);
    } else if step.Build? {
      BuildWallet(s.db, step.id, BuildAnswers(s, step), id);
    } else if step.ClaimSubmit? {
      ClaimWallet(s.db, step.request.id, step.request.tx, step.request.lastValid, step.height, step.sendFailed, id);
    } else if step.Legacy? {
      LegacyWallet(s.db, step.id, step.rail, id);
    } else if step.Confirmation? || step.Reconcile? {
      WorkerWallet(s, step, id);
    } else if step.CalculateBatch? || step.ApproveBatch? || step.RejectBatch? || step.Attach? {
      BatchWallet(s, step, id);
    } else {
      OtherWallet(s, step, id);
    }
  }

  lemma {:induction false} RunWallet(s: State, steps: seq<ProtocolStep>, s': State, id: Id)
    requires Run(s, steps, s')
    ensures WalletOf(s'.db, id) == WalletAskedFor(s, steps, id, WalletOf(s.db, id))
    decreases |steps|
  {
    if steps != [] {
      StepWallet(s, steps[0], id);
      RunWallet(Apply(s, steps[0]), steps[1..], s', id);
    }
  }

  /** After any run from the start, a USDC payout that is finalized was settled to the wallet its last request found. */
  lemma SettlementsPayTheWalletAskedFor(s0: State, steps: seq<ProtocolStep>, s: State, id: Id)
    requires Initial(s0) && Run(s0, steps, s)
    requires id in s.db.payouts && s.db.payouts[id].status == Finalized && s.db.payouts[id].rail == Usdc
    ensures FinalizedRecord(s.chain, id).Some?
    ensures WalletAskedFor(s0, steps, id, None) == Some(FinalizedRecord(s.chain, id).value.wallet)
  {
    InitialIsOk(s0);
    RunKeepsInv(s0, steps, s);
    RunWallet(s0, steps, s, id);
    assert PayoutTracked(s, id);
  }

  /** And whatever was built and can still land, or landed while the payout was in flight, pays that wallet too. */
  lemma LiveTransactionsPayTheWalletAskedFor(s0: State, steps: seq<ProtocolStep>, s: State, tx: Tx)
    requires Initial(s0) && Run(s0, steps, s) && tx in s.built && s.chain.height <= tx.lastValid
    ensures WalletAskedFor(s0, steps, tx.call.payment, None) == Some(tx.call.wallet)
  {
    InitialIsOk(s0);
    RunKeepsInv(s0, steps, s);
    RunWallet(s0, steps, s, tx.call.payment);
    assert TxOk(s, tx);
  }
}

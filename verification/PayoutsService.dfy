/** The payout endpoints as they run, statement by statement, each equal to its function in PayoutHandlers. */
module PayoutsService {
  import opened Wrappers
  import opened SettlementProgram
  import opened Chain
  import opened BlockhashRules
  import opened Ledger
  import opened Database
  import Handlers = PayoutHandlers
  import opened PayoutHandlers
  import Money

  class PayoutsApi {
    const db: Tables
    /** What was handed to the cluster, in order. */
    var broadcast: seq<Tx>

    constructor (db: Tables)
      ensures this.db == db && broadcast == []
    {
      this.db := db;
      broadcast := [];
    }

    method CreateUsdcPayout(id: Id, wallet: Option<Owner>, height: nat) returns (r: Result<Payout, Refusal>)
      modifies db
      ensures db.View() == Handlers.CreateUsdcPayout(old(db.View()), id, wallet, height)
      ensures match CreateRefusal(old(db.View()), id, wallet, height)
              case Some(why) => r == Err(why)
              case None => id in db.payouts && r == Ok(db.payouts[id])
      ensures r.Ok? && (id !in old(db.payouts) || old(db.payouts)[id].status == Failed) ==>
        && id in db.rows && db.rows[id].batch in db.batches
        && r.value.wallet == wallet && Some(r.value.worker) == db.rows[id].worker && r.value.venue == db.batches[db.rows[id].batch].venue
        && r.value.amountUsdCents == db.rows[id].net && r.value.amountBaseUnits == 10_000 * db.rows[id].net
        && r.value.rail == Usdc && r.value.status == Created && r.value.attempts == 0
        && r.value.txSignature.None? && r.value.signedTransaction.None? && r.value.blockhash.None? && r.value.lastValid.None?
      ensures r.Ok? && id in old(db.payouts) && old(db.payouts)[id].status != Failed ==> db.payouts == old(db.payouts)
    {
      if id !in db.rows || db.rows[id].batch !in db.batches { return Err(NotFound); }
      var row := db.rows[id];
      var batch := db.batches[row.batch];
      if row.worker.None? { return Err(HeldShare); }
      if batch.status != Payable && batch.status != PartiallyPaid { return Err(BatchNotPayable); }
      if row.status == RowPaid { return Err(AlreadyPaid); }
      if row.net <= 0 { return Err(NonPositiveAmount); }
      if wallet.None? { return Err(NoActiveWallet); }
      if id in db.payouts && db.payouts[id].status != Failed {
        HealRow(id, db.payouts[id].status);
        return Ok(db.payouts[id]);
      }
      if id in db.payouts && db.payouts[id].lastValid.Some? && !IsBlockhashExpired(height, db.payouts[id].lastValid.value) {
        return Err(PreviousStillValid);
      }
      var amountBaseUnits := Money.CentsToUsdcBaseUnits(row.net);
      var payout := Payout(Usdc, row.worker.value, batch.venue, wallet, amountBaseUnits, row.net, Created,
                           None, None, None, None, None, 0, None);
      db.payouts := db.payouts[id := payout];
      db.UpdateRow(id, Some(Usdc), RowPending);
      return Ok(payout);
    }

    /** A retry of create also repairs the row status. */
    method HealRow(id: Id, status: PayoutStatus)
      requires id in db.rows
      modifies db
      ensures db.View() ==
        var before, healed := old(db.View()), HealedStatus(status);
        if healed.None? || (before.rows[id].status == healed.value && before.rows[id].payoutRail == Some(Usdc)) then before
        else
          var after := SetRow(before, id, Some(Usdc), healed.value);
          if healed.value == RowPaid then RefreshBatch(after, before.rows[id].batch) else after
    {
      var row := db.rows[id];
      var rowStatus :=
        if status == Finalized then Some(RowPaid)
        else if status == Created || status == Initiated || status == Submitted || status == PayoutStatus.Confirmed then Some(RowPending)
        else None;
      if rowStatus.Some? && (row.status != rowStatus.value || row.payoutRail != Some(Usdc)) {
        db.UpdateRow(id, Some(Usdc), rowStatus.value);
        if rowStatus == Some(RowPaid) {
          db.RefreshBatchPaymentStatus(row.batch);
        }
      }
    }

    /** Returns the unsigned transaction. */
    method BuildTransaction(id: Id, input: BuildInput) returns (r: Result<Tx, Refusal>)
      modifies db
      ensures db.View() == Handlers.BuildTransaction(old(db.View()), id, input)
      ensures match BuildRefusal(old(db.View()), id, input)
              case Some(why) => r == Err(why)
              case None => r == Ok(BuiltTx(old(db.View()), id, input))
    {
      if id !in db.payouts || id !in db.rows || db.rows[id].batch !in db.batches { return Err(NotFound); }
      var payout := db.payouts[id];
      var batch := db.batches[db.rows[id].batch];
      if payout.status != Created && payout.status != Initiated && payout.status != Failed { return Err(WrongStatus); }
      if input.record.Some? { return Err(AlreadyOnChain); }
      if (payout.status == Initiated || payout.status == Failed) && payout.lastValid.Some? {
        if !IsBlockhashExpired(input.height, payout.lastValid.value) { return Err(PreviousStillValid); }
      }
      if input.signer.None? { return Err(NoSigner); }
      if payout.wallet.None? { return Err(NoWallet); }
      if batch.allocationHash.None? { return Err(NoAllocationHash); }
      if input.mint.None? { return Err(NoMint); }
      var call := SettleCall(id, batch.allocationHash.value, payout.amountBaseUnits, payout.venue,
                             input.signer.value, payout.wallet.value, input.mint.value);
      var next := payout;
      next := next.(status := Initiated);
      next := next.(blockhash := Some(input.blockhash), lastValid := Some(input.lastValid));
      next := next.(signedTransaction := None, txSignature := None, attempts := 0);
      next := next.(signer := input.signer, reason := None);
      db.payouts := db.payouts[id := next];
      return Ok(Tx(call, input.blockhash, input.lastValid));
    }

    method CheckSubmission(id: Id, tx: Tx) returns (check: SubmitCheck)
      ensures check == Handlers.CheckSubmission(db.View(), id, tx)
    {
      if id !in db.payouts { return Refused(NotFound); }
      var payout := db.payouts[id];
      if payout.status == Submitted || payout.status == PayoutStatus.Confirmed || payout.status == Finalized { return AlreadySubmitted; }
      if payout.status != Initiated { return Refused(WrongStatus); }
      if payout.blockhash.None? || payout.lastValid.None? { return Refused(MissingMetadata); }
      if tx.blockhash != payout.blockhash.value { return Refused(BlockhashMismatch); }
      return MayClaim;
    }

    /** From the height sample on; `lastValid` was read with the row. Other requests may have run in between. */
    method ClaimSubmission(id: Id, tx: Tx, lastValid: nat, height: nat, sendFailed: bool)
      modifies db, this`broadcast
      ensures db.View() == Handlers.ClaimSubmission(old(db.View()), id, tx, lastValid, height, sendFailed)
      ensures broadcast == old(broadcast) + if ClaimSucceeds(old(db.View()), id, lastValid, height) then [tx] else []
    {
      var claimable := id in db.payouts && db.payouts[id].status == Initiated;
      if IsBlockhashExpired(height, lastValid) {
        if claimable {
          db.payouts := db.payouts[id := db.payouts[id].(status := Failed, reason := Some(ExpiredBeforeSubmit))];
          db.UpdateRowStatus(id, RowFailed);
        }
        return;
      }
      if !claimable { return; }
      db.payouts := db.payouts[id :=
        db.payouts[id].(status := Submitted, txSignature := Some(tx), signedTransaction := Some(tx), attempts := 1)];
      // persisted before it is sent
      broadcast := broadcast + [tx];
      if sendFailed && db.payouts[id].status == Submitted {
        db.payouts := db.payouts[id := db.payouts[id].(reason := Some(InitialBroadcastError))];
      }
    }

    method SubmitSigned(id: Id, tx: Tx, height: nat, sendFailed: bool) returns (check: SubmitCheck)
      modifies db, this`broadcast
      ensures check == Handlers.CheckSubmission(old(db.View()), id, tx)
      ensures db.View() ==
        if check == MayClaim
        then Handlers.ClaimSubmission(old(db.View()), id, tx, old(db.payouts[id].lastValid.value), height, sendFailed)
        else old(db.View())
      ensures broadcast == old(broadcast) +
        if check == MayClaim && height <= old(db.payouts)[id].lastValid.value then [tx] else []
    {
      check := CheckSubmission(id, tx);
      if check == MayClaim {
        ClaimSubmission(id, tx, db.payouts[id].lastValid.value, height, sendFailed);
      }
    }

    method RegisterLegacyEvidence(id: Id, rail: Rail) returns (r: Result<Payout, Refusal>)
      modifies db
      ensures db.View() == Handlers.RegisterLegacyEvidence(old(db.View()), id, rail)
      ensures match LegacyRefusal(old(db.View()), id)
              case Some(why) => r == Err(why)
              case None => id in db.payouts && r == Ok(db.payouts[id])
    {
      if id !in db.rows || db.rows[id].batch !in db.batches { return Err(NotFound); }
      var row := db.rows[id];
      var batch := db.batches[row.batch];
      if row.worker.None? { return Err(HeldShare); }
      if row.status == RowPaid {
        if id !in db.payouts || db.payouts[id].status != Finalized { return Err(AlreadyPaid); }
        return Ok(db.payouts[id]);
      }
      if batch.status != Payable && batch.status != PartiallyPaid { return Err(BatchNotPayable); }
      var payout;
      if id in db.payouts {
        payout := db.payouts[id].(rail := rail, status := Finalized);
      } else {
        payout := Payout(rail, row.worker.value, batch.venue, None, 0, row.net, Finalized, None, None, None, None, None, 0, None);
      }
      db.payouts := db.payouts[id := payout];
      db.UpdateRow(id, Some(rail), RowPaid);
      db.RefreshBatchPaymentStatus(row.batch);
      return Ok(payout);
    }
  }
}

/** The settlement worker's handlers as they run, each equal to its function in PayoutHandlers. */
module SettlementWorker {
  import opened Wrappers
  import opened SettlementProgram
  import opened Chain
  import opened BlockhashRules
  import opened Ledger
  import opened Database
  import Handlers = PayoutHandlers
  import opened PayoutHandlers

  // ----- one payout's writes, as verdicts

  function LevelSeen(v: RpcView): Option<Level> {
    if v.status.None? then None else Some(v.status.value.level)
  }

  lemma ReconfirmedThenDecided(db: Db, id: Id, verdict: Verdict)
    requires verdict.Finalize? || verdict.Fail?
    ensures ApplyVerdict(ApplyVerdict(db, id, SawConfirmed), id, verdict) == ApplyVerdict(db, id, verdict)
  {
    if id in db.payouts {
      var confirmed := db.payouts[id].(status := PayoutStatus.Confirmed);
      var p := if verdict.Finalize? then confirmed.(status := Finalized, reason := None)
               else confirmed.(status := Failed, reason := Some(verdict.reason));
      assert db.payouts[id := confirmed][id := p] == db.payouts[id := p];
    }
  }

  // ----- a sweep as successive turns

  function Sweep(db: Db, stale: seq<Id>, views: seq<RpcView>, abandoned: seq<bool>): Db
    requires |views| == |stale| == |abandoned|
  {
    if stale == [] then db
    else
      var n := |stale| - 1;
      ReconcileTurn(Sweep(db, stale[..n], views[..n], abandoned[..n]), stale[n], views[n], abandoned[n])
  }

  lemma {:induction false} TurnsAreApart(db: Db, stale: seq<Id>, views: seq<RpcView>, abandoned: seq<bool>, id: Id)
    requires |views| == |stale| == |abandoned| && id !in stale
    ensures id in Sweep(db, stale, views, abandoned).payouts <==> id in db.payouts
    ensures id in db.payouts ==> Sweep(db, stale, views, abandoned).payouts[id] == db.payouts[id]
    decreases |stale|
  {
    if stale != [] {
      var n := |stale| - 1;
      TurnsAreApart(db, stale[..n], views[..n], abandoned[..n], id);
    }
  }

  /** What a sweep hands to the cluster: the stored bytes of every payout whose turn resends. */
  function SweepSends(payouts: map<Id, Payout>, stale: seq<Id>, views: seq<RpcView>, n: nat): seq<Tx>
    requires n <= |stale| == |views| && forall i :: 0 <= i < |stale| ==> stale[i] in payouts
  {
    if n == 0 then [] else
      var p := payouts[stale[n - 1]];
      SweepSends(payouts, stale, views, n - 1) + if ReconcileResends(p, views[n - 1]) then [p.signedTransaction.value] else []
  }

  lemma SweepStep(db: Db, stale: seq<Id>, views: seq<RpcView>, abandoned: seq<bool>, n: nat)
    requires |views| == |stale| == |abandoned| && n < |stale|
    ensures Sweep(db, stale[..n + 1], views[..n + 1], abandoned[..n + 1])
         == ReconcileTurn(Sweep(db, stale[..n], views[..n], abandoned[..n]), stale[n], views[n], abandoned[n])
  {
    assert stale[..n + 1][..n] == stale[..n] && views[..n + 1][..n] == views[..n] && abandoned[..n + 1][..n] == abandoned[..n];
  }

  /** A row the sweep's query returns. */
  predicate IsStale(db: Db, id: Id) {
    id in db.payouts && db.payouts[id].rail == Usdc && InFlight(db.payouts[id].status)
  }

  class Worker {
    const db: Tables
    /** What was handed to the cluster, in order. */
    var broadcast: seq<Tx>

    constructor (db: Tables)
      ensures this.db == db && broadcast == []
    {
      this.db := db;
      broadcast := [];
    }

    method MarkFailed(id: Id, reason: Reason)
      requires id in db.payouts
      modifies db
      ensures db.View() == ApplyVerdict(old(db.View()), id, Fail(reason))
    {
      var payout := db.payouts[id];
      db.payouts := db.payouts[id := payout.(status := Failed, reason := Some(reason))];
      db.UpdateRowStatus(id, RowFailed);
    }

    /** Nothing to do for a payout that is gone or finalized; else the record decides, and without one it throws. */
    method FinalizeFromChain(id: Id, record: Option<Record>) returns (threw: bool)
      modifies db
      ensures threw <==> id in old(db.payouts) && old(db.payouts)[id].status != Finalized && record.None?
      ensures db.View() ==
        if id in old(db.payouts) && old(db.payouts)[id].status != Finalized && record.Some?
        then ApplyVerdict(old(db.View()), id, Finalize) else old(db.View())
    {
      if id !in db.payouts { return false; }
      var payout := db.payouts[id];
      if payout.status == Finalized { return false; }
      if record.None? { return true; }
      db.payouts := db.payouts[id := payout.(status := Finalized, reason := None)];
      db.UpdateRowStatus(id, RowPaid);
      if id in db.rows {
        db.RefreshBatchPaymentStatus(db.rows[id].batch);
      }
      return false;
    }

    method MarkConfirmed(id: Id)
      requires id in db.payouts
      modifies db
      ensures db.View() == ApplyVerdict(old(db.View()), id, SawConfirmed)
    {
      var payout := db.payouts[id];
      db.payouts := db.payouts[id := payout.(status := PayoutStatus.Confirmed)];
    }

    /** A record at "finalized" decides; without one the payout failed. */
    method FinalizeOrFail(id: Id, v: RpcView, reason: Reason)
      requires id in db.payouts && db.payouts[id].status != Finalized
      modifies db
      ensures db.View() == ApplyVerdict(old(db.View()), id, RecordOrFail(v, reason))
    {
      if v.record.Some? {
        var _ := FinalizeFromChain(id, v.record);
      } else {
        MarkFailed(id, reason);
      }
    }

    method FailIfObservedForkWasDropped(id: Id, slot: nat, blockhashExpired: bool, v: RpcView) returns (dropped: bool)
      requires id in db.payouts && db.payouts[id].status != Finalized
      modifies db
      ensures dropped == ForkWasDropped(blockhashExpired, slot, v)
      ensures db.View() == if dropped then ApplyVerdict(old(db.View()), id, RecordOrFail(v, ForkDroppedAfterExpiry)) else old(db.View())
    {
      if !blockhashExpired { return false; }
      if v.root <= slot { return false; }
      if v.finalizedTx { return false; }
      FinalizeOrFail(id, v, ForkDroppedAfterExpiry);
      return true;
    }

    /** The bytes come from the row as it was read when the handler began. */
    method RebroadcastSameTransaction(id: Id, payout: Payout)
      modifies db, this`broadcast
      ensures db.View() ==
        CountResend(old(db.View()), id, payout.txSignature.Some? && payout.signedTransaction.Some?)
      ensures broadcast == old(broadcast) +
        if payout.txSignature.Some? && payout.signedTransaction.Some? then [payout.signedTransaction.value] else []
    {
      if payout.txSignature.None? || payout.signedTransaction.None? { return; }
      if id in db.payouts && (db.payouts[id].status == Submitted || db.payouts[id].status == PayoutStatus.Confirmed) {
        db.payouts := db.payouts[id := db.payouts[id].(attempts := db.payouts[id].attempts + 1)];
      }
      broadcast := broadcast + [payout.signedTransaction.value];
    }

    /** The event of a settlement, as the indexer hears it. */
    method OnPayoutSettled(id: Id)
      modifies db
      ensures db.View() == SettledEvent(old(db.View()), id)
    {
      if id !in db.payouts { return; }
      var payout := db.payouts[id];
      if payout.status == Submitted || payout.status == Initiated {
        db.payouts := db.payouts[id := payout.(status := PayoutStatus.Confirmed)];
      }
    }

    method ProcessConfirmation(id: Id, signature: Tx, v: RpcView)
      modifies db, this`broadcast
      ensures db.View() == Handlers.ProcessConfirmation(old(db.View()), id, signature, v)
      ensures broadcast == old(broadcast) +
        if id in old(db.payouts) && ConfirmationResends(old(db.payouts)[id], signature, v)
        then [old(db.payouts)[id].signedTransaction.value] else []
    {
      if id !in db.payouts { return; }
      var payout := db.payouts[id];
      if payout.status == Finalized || payout.status == Failed { return; }
      if payout.txSignature != Some(signature) { return; }
      if v.status.Some? && v.status.value.failed {
        FinalizeOrFail(id, v, OnChainError);
        return;
      }
      if v.status.Some? && v.status.value.level.AtFinalized? {
        var _ := FinalizeFromChain(id, v.record);
        return;
      }
      var blockhashExpired := payout.lastValid.Some? && IsBlockhashExpired(v.height, payout.lastValid.value);
      if v.status.Some? && v.status.value.level.AtConfirmed? {
        ConfirmedTurn(id, payout, blockhashExpired, v);
        return;
      }
      if payout.lastValid.Some? {
        if v.status.None? && CanReplaceBlockhash(None, blockhashExpired) {
          FinalizeOrFail(id, v, TransactionDropped);
          return;
        }
        if blockhashExpired {
          var _ := FailIfObservedForkWasDropped(id, v.status.value.slot, blockhashExpired, v);
          return;
        }
      }
      if ShouldRebroadcast(LevelSeen(v), false) {
        RebroadcastSameTransaction(id, payout);
      }
    }

    /** Seen at "confirmed": keep polling, unless the fork it was seen on is gone. */
    method ConfirmedTurn(id: Id, payout: Payout, blockhashExpired: bool, v: RpcView)
      requires id in db.payouts && db.payouts[id] == payout && payout.status != Finalized && v.status.Some?
      modifies db
      ensures db.View() == ApplyVerdict(old(db.View()), id,
        if ForkWasDropped(blockhashExpired, v.status.value.slot, v) then RecordOrFail(v, ForkDroppedAfterExpiry)
        else if payout.status == Submitted then SawConfirmed else Leave)
    {
      if payout.status == Submitted {
        MarkConfirmed(id);
        ReconfirmedThenDecided(old(db.View()), id, RecordOrFail(v, ForkDroppedAfterExpiry));
      }
      var _ := FailIfObservedForkWasDropped(id, v.status.value.slot, blockhashExpired, v);
    }

    /** One payout's turn in the sweep. */
    method ReconcileTurn(id: Id, payout: Payout, v: RpcView, abandoned: bool)
      requires id in db.payouts && db.payouts[id] == payout && payout.rail == Usdc && InFlight(payout.status)
      requires payout.txSignature.None? ==> v.status.None?
      modifies db, this`broadcast
      ensures db.View() == Handlers.ReconcileTurn(old(db.View()), id, v, abandoned)
      ensures broadcast == old(broadcast) + if ReconcileResends(payout, v) then [payout.signedTransaction.value] else []
    {
      if v.record.Some? {
        var _ := FinalizeFromChain(id, v.record);
        return;
      }
      var blockhashExpired := payout.lastValid.Some? && IsBlockhashExpired(v.height, payout.lastValid.value);
      if v.status.Some? && v.status.value.failed {
        MarkFailed(id, OnChainError);
      } else if v.status.Some? && v.status.value.level.AtFinalized? {
        MarkFailed(id, FinalizedWithoutSettlement);
      } else if v.status.Some? && v.status.value.level.AtConfirmed? {
        ConfirmedTurn(id, payout, blockhashExpired, v);
      } else if v.status.Some? {
        var dropped := FailIfObservedForkWasDropped(id, v.status.value.slot, blockhashExpired, v);
        if !dropped && ShouldRebroadcast(Some(AtProcessed), blockhashExpired) {
          RebroadcastSameTransaction(id, payout);
        }
      } else {
        UnseenTurn(id, payout, blockhashExpired, abandoned);
      }
    }

    /** No status at all. */
    method UnseenTurn(id: Id, payout: Payout, blockhashExpired: bool, abandoned: bool)
      requires id in db.payouts && db.payouts[id] == payout
      requires blockhashExpired ==> payout.lastValid.Some?
      modifies db, this`broadcast
      ensures
        var resends := payout.lastValid.Some? && !blockhashExpired && payout.txSignature.Some? && payout.signedTransaction.Some?;
        var verdict :=
          if blockhashExpired then Fail(if payout.txSignature.Some? then TransactionDropped else ExpiredBeforeSubmit)
          else if payout.lastValid.None? && abandoned then Fail(LegacyAttemptTimeout) else Leave;
        && db.View() == CountResend(ApplyVerdict(old(db.View()), id, verdict), id, resends)
        && broadcast == old(broadcast) + if resends then [payout.signedTransaction.value] else []
    {
      if payout.lastValid.Some? && CanReplaceBlockhash(None, blockhashExpired) {
        MarkFailed(id, if payout.txSignature.Some? then TransactionDropped else ExpiredBeforeSubmit);
      } else if payout.lastValid.Some? && ShouldRebroadcast(None, blockhashExpired) {
        RebroadcastSameTransaction(id, payout);
      } else if payout.lastValid.None? && abandoned {
        MarkFailed(id, LegacyAttemptTimeout);
      }
    }

    /**
     * The sweep. It works on the rows its query returned at the start; as their ids are
     * distinct that is the same as reading each row when its turn comes.
     */
    method ReconcileStalePayouts(stale: seq<Id>, views: seq<RpcView>, abandoned: seq<bool>)
      requires |views| == |stale| == |abandoned|
      requires forall i, j :: 0 <= i < j < |stale| ==> stale[i] != stale[j]
      requires forall i :: 0 <= i < |stale| ==> stale[i] in db.payouts
      requires forall i :: 0 <= i < |stale| ==>
        IsStale(db.View(), stale[i]) && (db.payouts[stale[i]].txSignature.None? ==> views[i].status.None?)
      modifies db, this`broadcast
      ensures db.View() == Sweep(old(db.View()), stale, views, abandoned)
      ensures broadcast == old(broadcast) + SweepSends(old(db.payouts), stale, views, |stale|)
    {
      var snapshot := db.payouts;
      for n := 0 to |stale|
        invariant broadcast == old(broadcast) + SweepSends(snapshot, stale, views, n)
        invariant db.View() == Sweep(old(db.View()), stale[..n], views[..n], abandoned[..n])
      {
        TurnsAreApart(old(db.View()), stale[..n], views[..n], abandoned[..n], stale[n]);
        SweepStep(old(db.View()), stale, views, abandoned, n);
        assert IsStale(old(db.View()), stale[n]);
        ReconcileTurn(stale[n], snapshot[stale[n]], views[n], abandoned[n]);
      }
      assert stale[..|stale|] == stale && views[..|stale|] == views && abandoned[..|stale|] == abandoned;
    }
  }
}

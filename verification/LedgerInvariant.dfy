/** Every handler keeps the ledger consistent. */
module LedgerInvariant {
  import opened Wrappers
  import opened Sums
  import opened SettlementProgram
  import opened Chain
  import opened Ledger
  import opened PayoutHandlers
  import opened LedgerHandlers
  import AllocationEngine

  // ----- changes of one row and its payout

  ghost predicate SameMoney(r: Row, r': Row) {
    r.batch == r'.batch && r.net == r'.net && r.worker == r'.worker
  }

  lemma SameNet(rows: map<Id, Row>, id: Id, row: Row, b: Id)
    requires id in rows && SameMoney(rows[id], row)
    ensures NetOf(rows[id := row], b) == NetOf(rows, b)
  {
  }

  /** One row and its payout differ; everything else is as before. */
  ghost predicate OnlyAt(db: Db, id: Id, row: Row, payouts: map<Id, Payout>) {
    && id in db.rows && SameMoney(db.rows[id], row)
    && (forall k :: k != id ==> (k in payouts <==> k in db.payouts))
    && (forall k :: k in db.payouts && k != id ==> payouts[k] == db.payouts[k])
    && (id in db.payouts ==> id in payouts)
  }

  lemma OtherRowsKept(db: Db, id: Id, row: Row, payouts: map<Id, Payout>, batches: map<Id, Batch>)
    requires LedgerOk(db) && OnlyAt(db, id, row, payouts) && batches.Keys == db.batches.Keys
    requires forall b :: b in batches ==> IsApproved(batches[b].status) == IsApproved(db.batches[b].status)
    ensures forall k :: k in db.rows && k != id ==> RowOk(Db(batches, db.rows[id := row], payouts), k)
    ensures forall k :: k in payouts && k != id ==> PayoutOk(Db(batches, db.rows[id := row], payouts), k)
  {
    var db' := Db(batches, db.rows[id := row], payouts);
    forall k | k in db.rows && k != id ensures RowOk(db', k) {
      assert RowOk(db, k);
    }
    forall k | k in payouts && k != id ensures PayoutOk(db', k) {
      assert PayoutOk(db, k);
    }
  }

  /** A batch none of whose rows gets paid or unpaid. */
  lemma BatchKept(db: Db, id: Id, row: Row, payouts: map<Id, Payout>, b: Id)
    requires b in db.batches && BatchOk(db, b) && id in db.rows && SameMoney(db.rows[id], row)
    requires row.batch == b ==> (row.status == RowPaid) == (db.rows[id].status == RowPaid)
    ensures BatchOk(Db(db.batches, db.rows[id := row], payouts), b)
  {
    var rows := db.rows[id := row];
    SameNet(db.rows, id, row, b);
    assert forall k :: k in rows ==> InBatch(db.rows, b, k) == InBatch(rows, b, k);
    if db.batches[b].status == PartiallyPaid {
      var k :| k in db.rows && InBatch(db.rows, b, k) && db.rows[k].status == RowPaid;
      assert InBatch(rows, b, k);
    }
  }

  /** A change that neither pays nor unpays keeps every batch as it is. */
  lemma UpdateKeepsLedger(db: Db, id: Id, row: Row, payouts: map<Id, Payout>)
    requires LedgerOk(db) && OnlyAt(db, id, row, payouts)
    requires (row.status == RowPaid) == (db.rows[id].status == RowPaid)
    requires RowOk(Db(db.batches, db.rows[id := row], payouts), id)
    requires id in payouts ==> PayoutOk(Db(db.batches, db.rows[id := row], payouts), id)
    ensures LedgerOk(Db(db.batches, db.rows[id := row], payouts))
  {
    OtherRowsKept(db, id, row, payouts, db.batches);
    forall b | b in db.batches ensures BatchOk(Db(db.batches, db.rows[id := row], payouts), b) {
      BatchKept(db, id, row, payouts, b);
    }
  }

  lemma RolledUpIsRight(db: Db, b: Id)
    requires b in db.batches && IsApproved(db.batches[b].status)
    ensures b in RefreshBatch(db, b).batches && RollUpOk(RefreshBatch(db, b), b)
  {
  }

  lemma RefreshKeepsOthers(db: Db, b: Id, c: Id)
    requires c in db.batches && c != b && BatchOk(db, c)
    ensures c in RefreshBatch(db, b).batches && BatchOk(RefreshBatch(db, b), c)
  {
  }

  lemma PaidBatchOk(db: Db, id: Id, row: Row, payouts: map<Id, Payout>, b: Id)
    requires b in db.batches && BatchOk(db, b) && id in db.rows && SameMoney(db.rows[id], row)
    requires row.batch in db.batches && IsApproved(db.batches[row.batch].status)
    ensures
      var db' := RefreshBatch(Db(db.batches, db.rows[id := row], payouts), row.batch);
      b in db'.batches && BatchOk(db', b)
  {
    var mid := Db(db.batches, db.rows[id := row], payouts);
    if b == row.batch {
      SameNet(db.rows, id, row, b);
      RolledUpIsRight(mid, b);
    } else {
      BatchKept(db, id, row, payouts, b);
      RefreshKeepsOthers(mid, row.batch, b);
    }
  }

  /** Refreshing a batch changes no more than its status, and keeps it approved. */
  lemma RefreshKeepsRows(db: Db, b: Id)
    ensures
      var db' := RefreshBatch(db, b);
      && db'.rows == db.rows && db'.payouts == db.payouts && db'.batches.Keys == db.batches.Keys
      && (forall c :: c in db.batches ==> IsApproved(db'.batches[c].status) == IsApproved(db.batches[c].status))
  {
  }

  lemma PayingKeepsRows(db: Db, id: Id, row: Row, payouts: map<Id, Payout>, batches: map<Id, Batch>)
    requires LedgerOk(db) && OnlyAt(db, id, row, payouts) && batches.Keys == db.batches.Keys
    requires RowOk(Db(db.batches, db.rows[id := row], payouts), id)
    ensures forall k :: k in db.rows ==> RowOk(Db(batches, db.rows[id := row], payouts), k)
  {
    forall k | k in db.rows ensures RowOk(Db(batches, db.rows[id := row], payouts), k) {
      if k != id { assert RowOk(db, k); }
    }
  }

  lemma PayingKeepsPayouts(db: Db, id: Id, row: Row, payouts: map<Id, Payout>, batches: map<Id, Batch>)
    requires LedgerOk(db) && OnlyAt(db, id, row, payouts) && id in payouts && batches.Keys == db.batches.Keys
    requires forall b :: b in batches ==> IsApproved(batches[b].status) == IsApproved(db.batches[b].status)
    requires PayoutOk(Db(db.batches, db.rows[id := row], payouts), id)
    ensures forall k :: k in payouts ==> PayoutOk(Db(batches, db.rows[id := row], payouts), k)
  {
    forall k | k in payouts ensures PayoutOk(Db(batches, db.rows[id := row], payouts), k) {
      if k != id { assert PayoutOk(db, k); }
    }
  }

  lemma PayingKeepsBatches(db: Db, id: Id, row: Row, payouts: map<Id, Payout>)
    requires forall b :: b in db.batches ==> BatchOk(db, b)
    requires id in db.rows && SameMoney(db.rows[id], row) && row.batch in db.batches && IsApproved(db.batches[row.batch].status)
    ensures
      var db' := RefreshBatch(Db(db.batches, db.rows[id := row], payouts), row.batch);
      forall b :: b in db'.batches ==> BatchOk(db', b)
  {
    var db' := RefreshBatch(Db(db.batches, db.rows[id := row], payouts), row.batch);
    forall b | b in db'.batches ensures BatchOk(db', b) {
      PaidBatchOk(db, id, row, payouts, b);
    }
  }

  /** Paying a row and refreshing its batch. */
  lemma PayingKeepsLedger(db: Db, id: Id, row: Row, payouts: map<Id, Payout>)
    requires LedgerOk(db) && OnlyAt(db, id, row, payouts) && id in payouts
    requires row.batch in db.batches && IsApproved(db.batches[row.batch].status)
    requires RowOk(Db(db.batches, db.rows[id := row], payouts), id)
    requires PayoutOk(Db(db.batches, db.rows[id := row], payouts), id)
    ensures LedgerOk(RefreshBatch(Db(db.batches, db.rows[id := row], payouts), row.batch))
  {
    var mid := Db(db.batches, db.rows[id := row], payouts);
    var db' := RefreshBatch(mid, row.batch);
    RefreshKeepsRows(mid, row.batch);
    PayingKeepsRows(db, id, row, payouts, db'.batches);
    PayingKeepsPayouts(db, id, row, payouts, db'.batches);
    PayingKeepsBatches(db, id, row, payouts);
    assert db' == Db(db'.batches, db.rows[id := row], payouts);
    LedgerFromParts(db');
  }

  // ----- payout handlers

  lemma CreateKeepsLedger(db: Db, id: Id, wallet: Option<Owner>, height: nat)
    requires LedgerOk(db)
    ensures LedgerOk(CreateUsdcPayout(db, id, wallet, height))
  {
    var db' := CreateUsdcPayout(db, id, wallet, height);
    if db' != db {
      assert RowOk(db, id);
      if id in db.payouts { assert PayoutOk(db, id); }
      UpdateKeepsLedger(db, id, db'.rows[id], db'.payouts);
      assert db' == Db(db.batches, db.rows[id := db'.rows[id]], db'.payouts);
    }
  }

  /** Same money, same rail, and no part in being paid. */
  predicate Unpaying(p: Payout, p': Payout) {
    && p.status != Finalized && p'.status != Finalized && p'.status != PayoutReversed && p'.status != PayoutCorrected
    && p'.amountUsdCents == p.amountUsdCents && p'.amountBaseUnits == p.amountBaseUnits && p'.rail == p.rail
  }

  /** A payout changed in place, its row untouched. */
  lemma PayoutUpdateKeepsLedger(db: Db, id: Id, p: Payout)
    requires LedgerOk(db) && id in db.payouts && Unpaying(db.payouts[id], p)
    ensures LedgerOk(db.(payouts := db.payouts[id := p]))
  {
    assert PayoutOk(db, id) && RowOk(db, id);
    assert db.rows[id := db.rows[id]] == db.rows;
    assert RowOk(Db(db.batches, db.rows, db.payouts[id := p]), id);
    assert PayoutOk(Db(db.batches, db.rows, db.payouts[id := p]), id);
    UpdateKeepsLedger(db, id, db.rows[id], db.payouts[id := p]);
  }

  lemma PayoutChangeKeepsLedger(db: Db, id: Id, p: Payout, status: RowStatus)
    requires LedgerOk(db) && id in db.payouts && Unpaying(db.payouts[id], p) && status != RowPaid
    ensures LedgerOk(SetRowStatus(db.(payouts := db.payouts[id := p]), id, status))
  {
    assert PayoutOk(db, id) && RowOk(db, id);
    UpdateKeepsLedger(db, id, db.rows[id].(status := status), db.payouts[id := p]);
  }

  lemma BuildKeepsLedger(db: Db, id: Id, input: BuildInput)
    requires LedgerOk(db)
    ensures LedgerOk(BuildTransaction(db, id, input))
  {
    if BuildRefusal(db, id, input).None? {
      PayoutUpdateKeepsLedger(db, id, BuildTransaction(db, id, input).payouts[id]);
    }
  }

  lemma ClaimKeepsLedger(db: Db, id: Id, tx: Tx, lastValid: nat, height: nat, sendFailed: bool)
    requires LedgerOk(db)
    ensures LedgerOk(ClaimSubmission(db, id, tx, lastValid, height, sendFailed))
  {
    if id in db.payouts && db.payouts[id].status == Initiated {
      var p := ClaimSubmission(db, id, tx, lastValid, height, sendFailed).payouts[id];
      PayoutUpdateKeepsLedger(db, id, p);
      PayoutChangeKeepsLedger(db, id, p, RowFailed);
    }
  }

  lemma LegacyKeepsLedger(db: Db, id: Id, rail: Rail)
    requires LedgerOk(db) && rail != Usdc
    ensures LedgerOk(RegisterLegacyEvidence(db, id, rail))
  {
    if LegacyRefusal(db, id).None? && db.rows[id].status != RowPaid {
      var db' := RegisterLegacyEvidence(db, id, rail);
      assert RowOk(db, id);
      if id in db.payouts { assert PayoutOk(db, id); }
      PayingKeepsLedger(db, id, db.rows[id].(payoutRail := Some(rail), status := RowPaid), db'.payouts);
    }
  }

  lemma VerdictKeepsLedger(db: Db, id: Id, verdict: Verdict)
    requires LedgerOk(db)
    requires id in db.payouts && verdict != Leave ==> db.payouts[id].status != Finalized
    ensures LedgerOk(ApplyVerdict(db, id, verdict))
  {
    if id in db.payouts && verdict != Leave {
      var db' := ApplyVerdict(db, id, verdict);
      assert PayoutOk(db, id) && RowOk(db, id);
      if verdict == Finalize {
        PayingKeepsLedger(db, id, db.rows[id].(status := RowPaid), db'.payouts);
      } else {
        PayoutUpdateKeepsLedger(db, id, db'.payouts[id]);
        PayoutChangeKeepsLedger(db, id, db'.payouts[id], RowFailed);
      }
    }
  }

  lemma CountedResend(db: Db, id: Id)
    requires id in db.payouts
    ensures
      var after := CountResend(db, id, true);
      after == db || (id in after.payouts && after == db.(payouts := db.payouts[id := after.payouts[id]]) && Unpaying(db.payouts[id], after.payouts[id]))
  {
  }

  lemma ResendKeepsLedger(db: Db, id: Id, resends: bool)
    requires LedgerOk(db)
    ensures LedgerOk(CountResend(db, id, resends))
  {
    if resends && id in db.payouts {
      CountedResend(db, id);
      var after := CountResend(db, id, true);
      if after != db { PayoutUpdateKeepsLedger(db, id, after.payouts[id]); }
    }
  }

  lemma LedgerFromParts(db: Db)
    requires forall id :: id in db.rows ==> RowOk(db, id)
    requires forall id :: id in db.payouts ==> PayoutOk(db, id)
    requires forall b :: b in db.batches ==> BatchOk(db, b)
    ensures LedgerOk(db)
  {
  }

  lemma ConfirmationKeepsLedger(db: Db, id: Id, signature: Tx, v: RpcView)
    requires LedgerOk(db)
    ensures LedgerOk(ProcessConfirmation(db, id, signature, v))
  {
    if id in db.payouts {
      var verdict := ConfirmationVerdict(db.payouts[id], signature, v);
      VerdictKeepsLedger(db, id, verdict);
      ResendKeepsLedger(ApplyVerdict(db, id, verdict), id, ConfirmationResends(db.payouts[id], signature, v));
    }
  }

  lemma ReconcileKeepsLedger(db: Db, id: Id, v: RpcView, abandoned: bool)
    requires LedgerOk(db)
    ensures LedgerOk(ReconcileTurn(db, id, v, abandoned))
  {
    if id in db.payouts {
      var verdict := ReconcileVerdict(db.payouts[id], v, abandoned);
      VerdictKeepsLedger(db, id, verdict);
      ResendKeepsLedger(ApplyVerdict(db, id, verdict), id, ReconcileResends(db.payouts[id], v));
    }
  }

  lemma EventKeepsLedger(db: Db, id: Id)
    requires LedgerOk(db)
    ensures LedgerOk(SettledEvent(db, id))
  {
    if id in db.payouts && (db.payouts[id].status == Submitted || db.payouts[id].status == Initiated) {
      PayoutUpdateKeepsLedger(db, id, db.payouts[id].(status := PayoutStatus.Confirmed));
    }
  }

  // ----- batch handlers

  /** Rows of other batches, and all payouts, untouched. */
  lemma OtherBatchUnaffected(db: Db, db': Db, b: Id, c: Id)
    requires c != b && c in db.batches && BatchOk(db, c) && c in db'.batches && db'.batches[c] == db.batches[c]
    requires forall id :: (id in db.rows && db.rows[id].batch == c) <==> (id in db'.rows && db'.rows[id].batch == c)
    requires forall id :: id in db.rows && db.rows[id].batch == c ==> db'.rows[id] == db.rows[id]
    ensures BatchOk(db', c)
  {
    assert NetOf(db'.rows, c) == NetOf(db.rows, c);
    if db.batches[c].status == PartiallyPaid {
      var k :| k in db.rows && InBatch(db.rows, c, k) && db.rows[k].status == RowPaid;
      assert InBatch(db'.rows, c, k);
    }
  }

  lemma NewRowsCarry(b: Id, shares: seq<AllocationEngine.Share>, ids: seq<Id>, rails: map<Id, Rail>)
    requires |ids| == |shares| && forall i, j :: 0 <= i < j < |ids| ==> ids[i] != ids[j]
    ensures SumMap(NetOf(NewRows(b, shares, ids, rails), b)) == SumSeq(AllocationEngine.AmountsOf(shares))
  {
    var rows := NewRows(b, shares, ids, rails);
    SumOfRows(ids, AllocationEngine.AmountsOf(shares), NetOf(rows, b));
  }

  /** What a calculation stores carries exactly its pool, unless it goes to review. */
  lemma CalculateKeepsLedger(db: Db, b: Id, venue: Id, a: AllocationEngine.Allocation, hash: Hash, ids: seq<Id>, rails: map<Id, Rail>)
    requires LedgerOk(db) && FreshIds(db, ids, |a.shares|)
    requires forall i :: 0 <= i < |a.shares| ==> 0 <= a.shares[i].amount
    requires !AllocationEngine.HasBlockingIssue(a.issues) ==> SumSeq(AllocationEngine.AmountsOf(a.shares)) == a.pool
    ensures LedgerOk(Calculate(db, b, venue, a, hash, ids, rails))
  {
    if MayCalculate(db, b) {
      var db' := Calculate(db, b, venue, a, hash, ids, rails);
      forall id | id in db'.rows ensures RowOk(db', id) {
        CalculateKeepsRow(db, b, venue, a, hash, ids, rails, id);
      }
      forall id | id in db'.payouts ensures PayoutOk(db', id) {
        CalculateKeepsPayout(db, b, venue, a, hash, ids, rails, id);
      }
      forall c | c in db'.batches ensures BatchOk(db', c) {
        CalculateKeepsBatch(db, b, venue, a, hash, ids, rails, c);
      }
      LedgerFromParts(db');
    }
  }

  lemma CalculateKeepsBatch(
    db: Db, b: Id, venue: Id, a: AllocationEngine.Allocation, hash: Hash, ids: seq<Id>, rails: map<Id, Rail>, c: Id)
    requires LedgerOk(db) && FreshIds(db, ids, |a.shares|) && MayCalculate(db, b)
    requires !AllocationEngine.HasBlockingIssue(a.issues) ==> SumSeq(AllocationEngine.AmountsOf(a.shares)) == a.pool
    requires c in Calculate(db, b, venue, a, hash, ids, rails).batches
    ensures BatchOk(Calculate(db, b, venue, a, hash, ids, rails), c)
  {
    if c == b {
      CalculatedBatchIsOk(db, b, venue, a, hash, ids, rails);
    } else {
      assert BatchOk(db, c);
      NewRowsInBatch(b, a.shares, ids, rails);
      OtherBatchUnaffected(db, Calculate(db, b, venue, a, hash, ids, rails), b, c);
    }
  }

  lemma NewRowsInBatch(b: Id, shares: seq<AllocationEngine.Share>, ids: seq<Id>, rails: map<Id, Rail>)
    requires |ids| == |shares| && forall i, j :: 0 <= i < j < |ids| ==> ids[i] != ids[j]
    ensures forall id :: id in NewRows(b, shares, ids, rails) ==> id in ids && NewRows(b, shares, ids, rails)[id].batch == b
  {
    forall id | id in NewRows(b, shares, ids, rails) ensures id in ids && NewRows(b, shares, ids, rails)[id].batch == b {
      NewRowAt(b, shares, ids, rails, id);
    }
  }

  lemma CalculateKeepsPayout(
    db: Db, b: Id, venue: Id, a: AllocationEngine.Allocation, hash: Hash, ids: seq<Id>, rails: map<Id, Rail>, id: Id)
    requires LedgerOk(db) && FreshIds(db, ids, |a.shares|) && id in db.payouts
    ensures PayoutOk(Calculate(db, b, venue, a, hash, ids, rails), id)
  {
    assert PayoutOk(db, id);
    PaidRowsStay(db, b, venue, a, hash, ids, rails, id);
  }

  lemma CalculateKeepsRow(
    db: Db, b: Id, venue: Id, a: AllocationEngine.Allocation, hash: Hash, ids: seq<Id>, rails: map<Id, Rail>, id: Id)
    requires LedgerOk(db) && FreshIds(db, ids, |a.shares|) && MayCalculate(db, b)
    requires forall i :: 0 <= i < |a.shares| ==> 0 <= a.shares[i].amount
    requires id in Calculate(db, b, venue, a, hash, ids, rails).rows
    ensures RowOk(Calculate(db, b, venue, a, hash, ids, rails), id)
  {
    if id in NewRows(b, a.shares, ids, rails) {
      NewRowIsOk(db, b, venue, a, hash, ids, rails, id);
    } else {
      assert RowOk(db, id);
    }
  }

  lemma NewRowIsOk(
    db: Db, b: Id, venue: Id, a: AllocationEngine.Allocation, hash: Hash, ids: seq<Id>, rails: map<Id, Rail>, id: Id)
    requires FreshIds(db, ids, |a.shares|) && MayCalculate(db, b)
    requires forall i :: 0 <= i < |a.shares| ==> 0 <= a.shares[i].amount
    requires id in NewRows(b, a.shares, ids, rails)
    ensures id in Calculate(db, b, venue, a, hash, ids, rails).rows && RowOk(Calculate(db, b, venue, a, hash, ids, rails), id)
  {
    NewRowAt(b, a.shares, ids, rails, id);
  }

  /** A calculation leaves the row of every payout as it is. */
  lemma PaidRowsStay(db: Db, b: Id, venue: Id, a: AllocationEngine.Allocation, hash: Hash, ids: seq<Id>, rails: map<Id, Rail>, id: Id)
    requires LedgerOk(db) && FreshIds(db, ids, |a.shares|) && id in db.payouts
    ensures
      var db' := Calculate(db, b, venue, a, hash, ids, rails);
      id in db'.rows && db'.rows[id] == db.rows[id]
      && (db.rows[id].batch in db'.batches && db'.batches[db.rows[id].batch] == db.batches[db.rows[id].batch])
  {
    assert PayoutOk(db, id);
    if MayCalculate(db, b) {
      NewRowKeys(b, a.shares, ids, rails);
    }
  }

  lemma NewRowKeys(b: Id, shares: seq<AllocationEngine.Share>, ids: seq<Id>, rails: map<Id, Rail>)
    requires |ids| == |shares| && forall i, j :: 0 <= i < j < |ids| ==> ids[i] != ids[j]
    ensures forall id :: id in NewRows(b, shares, ids, rails) ==> id in ids
  {
  }

  lemma NewRowAt(b: Id, shares: seq<AllocationEngine.Share>, ids: seq<Id>, rails: map<Id, Rail>, id: Id)
    requires |ids| == |shares| && forall i, j :: 0 <= i < j < |ids| ==> ids[i] != ids[j]
    requires id in NewRows(b, shares, ids, rails)
    ensures exists i :: 0 <= i < |ids| && ids[i] == id && NewRows(b, shares, ids, rails)[id] == NewRow(b, shares[i], rails)
  {
  }

  /** Whose share a stored row is. */
  function RecipientOf(row: Row): Option<AllocationEngine.Key> {
    if row.worker.Some? then Some(AllocationEngine.WorkerKey(row.worker.value))
    else if row.external.Some? then Some(AllocationEngine.HeldKey(row.external.value.0, row.external.value.1))
    else None
  }

  predicate IsShare(row: Row, share: AllocationEngine.Share) {
    RecipientOf(row) == Some(share.key) && row.net == row.pooled == share.amount && row.status == RowUnpaid
  }

  lemma NewRowIsShare(b: Id, share: AllocationEngine.Share, rails: map<Id, Rail>)
    ensures IsShare(NewRow(b, share, rails), share) && NewRow(b, share, rails).batch == b
  {
  }

  lemma NewRowOf(b: Id, shares: seq<AllocationEngine.Share>, ids: seq<Id>, rails: map<Id, Rail>, i: nat)
    requires |ids| == |shares| && i < |ids| && forall i, j :: 0 <= i < j < |ids| ==> ids[i] != ids[j]
    ensures ids[i] in NewRows(b, shares, ids, rails) && IsShare(NewRows(b, shares, ids, rails)[ids[i]], shares[i])
  {
    NewRowIsShare(b, shares[i], rails);
    NewRowAt(b, shares, ids, rails, ids[i]);
  }

  /** After a calculation the batch's rows are its shares, one row each, unpaid; nobody else's rows change. */
  lemma RowsAreShares(db: Db, b: Id, venue: Id, a: AllocationEngine.Allocation, hash: Hash, ids: seq<Id>, rails: map<Id, Rail>)
    requires FreshIds(db, ids, |a.shares|) && MayCalculate(db, b)
    ensures var rows := Calculate(db, b, venue, a, hash, ids, rails).rows;
      && (forall id :: InBatch(rows, b, id) ==> id in ids)
      && (forall i :: 0 <= i < |ids| ==> ids[i] in rows && IsShare(rows[ids[i]], a.shares[i]))
      && (forall id :: id in db.rows && db.rows[id].batch != b ==> id in rows && rows[id] == db.rows[id])
  {
    var added := NewRows(b, a.shares, ids, rails);
    forall i | 0 <= i < |ids| ensures ids[i] in added && IsShare(added[ids[i]], a.shares[i]) {
      NewRowOf(b, a.shares, ids, rails, i);
    }
    forall id | id in added ensures id in ids {
      NewRowAt(b, a.shares, ids, rails, id);
    }
  }

  lemma CalculatedNet(db: Db, b: Id, added: map<Id, Row>)
    requires forall id :: id in added ==> added[id].batch == b
    ensures NetOf(OtherRows(db.rows, b) + added, b) == NetOf(added, b)
  {
  }

  lemma CalculatedBatchIsOk(db: Db, b: Id, venue: Id, a: AllocationEngine.Allocation, hash: Hash, ids: seq<Id>, rails: map<Id, Rail>)
    requires FreshIds(db, ids, |a.shares|) && MayCalculate(db, b)
    requires !AllocationEngine.HasBlockingIssue(a.issues) ==> SumSeq(AllocationEngine.AmountsOf(a.shares)) == a.pool
    ensures BatchOk(Calculate(db, b, venue, a, hash, ids, rails), b)
  {
    var added := NewRows(b, a.shares, ids, rails);
    forall id | id in added ensures added[id].batch == b {
      NewRowAt(b, a.shares, ids, rails, id);
    }
    CalculatedNet(db, b, added);
    NewRowsCarry(b, a.shares, ids, rails);
    StoredBatchIsOk(Calculate(db, b, venue, a, hash, ids, rails), b, a);
  }

  lemma StoredBatchIsOk(db': Db, b: Id, a: AllocationEngine.Allocation)
    requires b in db'.batches && db'.batches[b].pool == a.pool && db'.batches[b].status == CalculatedStatus(a)
    requires !AllocationEngine.HasBlockingIssue(a.issues) ==> SumMap(NetOf(db'.rows, b)) == a.pool
    ensures BatchOk(db', b)
  {
  }

  lemma BatchChangeKeepsLedger(db: Db, b: Id, status: BatchStatus)
    requires LedgerOk(db) && b in db.batches && !IsApproved(db.batches[b].status)
    requires status == Draft || (status == Payable && db.batches[b].status == BatchStatus.Calculated)
    ensures LedgerOk(db.(batches := db.batches[b := db.batches[b].(status := status)]))
  {
    var db' := db.(batches := db.batches[b := db.batches[b].(status := status)]);
    assert BatchOk(db, b);
    forall id | id in db'.rows ensures RowOk(db', id) {
      assert RowOk(db, id);
    }
    forall id | id in db'.payouts ensures PayoutOk(db', id) {
      assert PayoutOk(db, id);
    }
    forall id | id in db.rows && InBatch(db.rows, b, id) ensures db.rows[id].status != RowPaid {
      assert RowOk(db, id) && (id in db.payouts ==> PayoutOk(db, id));
    }
    forall c | c in db'.batches ensures BatchOk(db', c) {
      if c != b {
        assert BatchOk(db, c);
        OtherBatchUnaffected(db, db', b, c);
      }
    }
  }

  lemma ApproveKeepsLedger(db: Db, b: Id)
    requires LedgerOk(db)
    ensures LedgerOk(Approve(db, b))
  {
    if b in db.batches && db.batches[b].status == BatchStatus.Calculated {
      BatchChangeKeepsLedger(db, b, Payable);
    }
  }

  lemma RejectKeepsLedger(db: Db, b: Id)
    requires LedgerOk(db)
    ensures LedgerOk(Reject(db, b))
  {
    if b in db.batches && (db.batches[b].status == BatchStatus.Calculated || db.batches[b].status == ReviewRequired) {
      BatchChangeKeepsLedger(db, b, Draft);
    }
  }

  /** Attaching moves a held share to its worker and changes the total of no batch. */
  lemma AttachKeepsTotals(db: Db, held: Id, worker: Id, existing: Option<Id>, b: Id)
    requires IsHeld(db, held) && FindsOwnRow(db, db.rows[held].batch, worker, existing)
    ensures existing.Some? ==> existing.value in db.rows && existing.value != held
    ensures SumMap(NetOf(AttachHeld(db, held, worker, existing).rows, b)) == SumMap(NetOf(db.rows, b))
  {
    var db' := AttachHeld(db, held, worker, existing);
    var net, net' := NetOf(db.rows, b), NetOf(db'.rows, b);
    match existing
    case None => assert net' == net;
    case Some(own) =>
      if db.rows[held].batch == b {
        var merged := db.rows[own].net + db.rows[held].net;
        assert net' == net[own := merged] - {held};
        SumRemove(net[own := merged], held);
        SumUpdate(net, own, merged);
      } else {
        assert net' == net;
      }
  }

  lemma AttachKeepsBatch(db: Db, held: Id, worker: Id, existing: Option<Id>, b: Id)
    requires IsHeld(db, held) && db.rows[held].status != RowPaid && FindsOwnRow(db, db.rows[held].batch, worker, existing)
    requires b in db.batches && BatchOk(db, b)
    ensures existing.Some? ==> existing.value in db.rows && existing.value != held
    ensures BatchOk(AttachHeld(db, held, worker, existing), b)
  {
    var db' := AttachHeld(db, held, worker, existing);
    AttachKeepsTotals(db, held, worker, existing, b);
    forall id | id in db'.rows
      ensures id in db.rows && InBatch(db.rows, b, id) == InBatch(db'.rows, b, id) && db'.rows[id].status == db.rows[id].status
    {
    }
    if db.batches[b].status == PartiallyPaid {
      var k :| k in db.rows && InBatch(db.rows, b, k) && db.rows[k].status == RowPaid;
      assert k in db'.rows && InBatch(db'.rows, b, k);
    }
  }

  lemma AttachKeepsLedger(db: Db, held: Id, worker: Id, existing: Option<Id>)
    requires LedgerOk(db) && IsHeld(db, held) && FindsOwnRow(db, db.rows[held].batch, worker, existing)
    ensures existing.Some? ==> existing.value in db.rows && existing.value != held
    ensures LedgerOk(AttachHeld(db, held, worker, existing))
  {
    var db' := AttachHeld(db, held, worker, existing);
    assert RowOk(db, held);
    forall id | id in db'.rows ensures RowOk(db', id) {
      assert RowOk(db, id);
    }
    forall id | id in db'.payouts ensures PayoutOk(db', id) {
      assert PayoutOk(db, id);
    }
    forall b | b in db'.batches ensures BatchOk(db', b) {
      assert BatchOk(db, b);
      AttachKeepsBatch(db, held, worker, existing, b);
    }
    LedgerFromParts(db');
  }

  // ----- what a merge does to the roll-up

  predicate OnlyHeldIsUnpaid(db: Db, held: Id)
    requires held in db.rows
  {
    forall id :: id in db.rows && InBatch(db.rows, db.rows[held].batch, id) && id != held ==> db.rows[id].status == RowPaid
  }

  /**
   * Attaching does not refresh the batch. Its roll-up stays right except when the held share is
   * merged away as the last unpaid row: then every row is paid and the batch still says partially.
   */
  lemma AttachKeepsRollUp(db: Db, held: Id, worker: Id, existing: Option<Id>)
    requires LedgerOk(db) && IsHeld(db, held) && FindsOwnRow(db, db.rows[held].batch, worker, existing)
    requires db.batches[db.rows[held].batch].status == RolledUp(db.rows, db.rows[held].batch)
    ensures existing.Some? ==> existing.value in db.rows && existing.value != held
    ensures
      var after, b := AttachHeld(db, held, worker, existing), db.rows[held].batch;
      after.batches[b].status == RolledUp(after.rows, b) <==> !(existing.Some? && OnlyHeldIsUnpaid(db, held))
  {
    assert RowOk(db, held);
    match existing
    case None => TakenOverRollUp(db, held, worker);
    case Some(own) => MergedRollUp(db, held, worker, own);
  }

  lemma TakenOverRollUp(db: Db, held: Id, worker: Id)
    requires IsHeld(db, held)
    ensures RolledUp(AttachHeld(db, held, worker, None).rows, db.rows[held].batch) == RolledUp(db.rows, db.rows[held].batch)
  {
    var after, b := AttachHeld(db, held, worker, None).rows, db.rows[held].batch;
    assert forall id :: InBatch(after, b, id) == InBatch(db.rows, b, id);
    assert forall id :: id in db.rows ==> after[id].status == db.rows[id].status;
  }

  lemma MergedRollUp(db: Db, held: Id, worker: Id, own: Id)
    requires IsHeld(db, held) && db.rows[held].status != RowPaid && own != held && InBatch(db.rows, db.rows[held].batch, own)
    ensures
      var after, b := AttachHeld(db, held, worker, Some(own)).rows, db.rows[held].batch;
      RolledUp(after, b) == if OnlyHeldIsUnpaid(db, held) then FullyPaid else RolledUp(db.rows, b)
  {
    var after, b := AttachHeld(db, held, worker, Some(own)).rows, db.rows[held].batch;
    assert forall id :: InBatch(after, b, id) <==> InBatch(db.rows, b, id) && id != held;
    assert forall id :: id in after ==> after[id].status == db.rows[id].status;
    assert InBatch(db.rows, b, held) && InBatch(after, b, own);
  }
}

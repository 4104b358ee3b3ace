/** What calculating, approving and rejecting a batch answer and store, read off the tables before and after. */
module BatchAnswers {
  import opened Wrappers
  import opened SettlementProgram
  import opened Ledger
  import opened LedgerHandlers
  import opened BatchServices
  import Engine = AllocationEngine

  /** A calculation is refused for the first thing missing, or because the batch has been approved. */
  lemma CalculatesExactlyWhen(
    db: Db, b: Id, venue: Option<Id>, policy: Option<Engine.Policy>, tips: seq<Engine.Tip>, shifts: seq<Engine.Shift>)
    ensures
      var refusal, open := CalculateRefusal(db, b, venue, policy, tips, shifts),
                           b in db.batches ==> db.batches[b].status in {Draft, BatchStatus.Calculated, ReviewRequired};
      && (refusal == Some(VenueNotFound) <==> venue.None?)
      && (refusal == Some(PolicyNotFound) <==> venue.Some? && policy.None?)
      && (refusal == Some(NoEvidence) <==> venue.Some? && policy.Some? && |tips| + |shifts| == 0)
      && (refusal == Some(BatchLocked) <==> venue.Some? && policy.Some? && |tips| + |shifts| > 0 && !open)
      && (refusal.None? <==> venue.Some? && policy.Some? && |tips| + |shifts| > 0 && open)
  {
  }

  /** Who a stored row is for. */
  predicate RowIsFor(row: Row, key: Engine.Key) {
    match key
    case WorkerKey(w) => row.worker == Some(w) && row.external.None?
    case HeldKey(provider, external) => row.worker.None? && row.external == Some((provider, external))
  }

  /** The batch has the allocation's pool and hash and waits for approval, or for review if anything blocks it. */
  lemma CalculationStoresTheBatch(db: Db, b: Id, venue: Id, a: Engine.Allocation, hash: Hash, ids: seq<Id>, rails: map<Id, Rail>)
    requires FreshIds(db, ids, |a.shares|)
    requires b in db.batches ==> db.batches[b].status in {Draft, BatchStatus.Calculated, ReviewRequired}
    ensures
      var after := Calculate(db, b, venue, a, hash, ids, rails);
      && after.payouts == db.payouts && after.batches.Keys == db.batches.Keys + {b}
      && (forall c :: c in db.batches && c != b ==> after.batches[c] == db.batches[c])
      && after.batches[b].venue == venue && after.batches[b].pool == a.pool && after.batches[b].allocationHash == Some(hash)
      && after.batches[b].status == (if exists i :: 0 <= i < |a.issues| && a.issues[i].blocking then ReviewRequired else BatchStatus.Calculated)
  {
  }

  /** What a share's row says: unpaid, with the planned rail of its worker. */
  predicate RowSays(row: Row, b: Id, share: Engine.Share, rails: map<Id, Rail>) {
    && row.batch == b && RowIsFor(row, share.key) && row.net == row.pooled == share.amount
    && row.status == RowUnpaid && row.payoutRail.None?
    && row.plannedRail == if row.worker.Some? && row.worker.value in rails then Some(rails[row.worker.value]) else None
  }

  lemma NewRowSays(b: Id, share: Engine.Share, rails: map<Id, Rail>)
    ensures RowSays(NewRow(b, share, rails), b, share, rails)
  {
  }

  /** Its rows are one for each share and no others; rows of other batches stay. */
  lemma CalculationStoresTheRows(db: Db, b: Id, venue: Id, a: Engine.Allocation, hash: Hash, ids: seq<Id>, rails: map<Id, Rail>)
    requires FreshIds(db, ids, |a.shares|)
    requires b in db.batches ==> db.batches[b].status in {Draft, BatchStatus.Calculated, ReviewRequired}
    ensures
      var rows := Calculate(db, b, venue, a, hash, ids, rails).rows;
      && (forall id :: id in db.rows && db.rows[id].batch != b ==> id in rows && rows[id] == db.rows[id])
      && (forall id :: id in rows ==> id in ids || (id in db.rows && db.rows[id].batch != b))
      && (forall i :: 0 <= i < |ids| ==> ids[i] in rows && RowSays(rows[ids[i]], b, a.shares[i], rails))
  {
    var added := NewRows(b, a.shares, ids, rails);
    assert Calculate(db, b, venue, a, hash, ids, rails).rows == OtherRows(db.rows, b) + added;
    forall id ensures id in added <==> id in ids {
      NewRowIs(b, a.shares, ids, rails, id);
    }
    forall i | 0 <= i < |ids| ensures ids[i] in added && RowSays(added[ids[i]], b, a.shares[i], rails) {
      NewRowIs(b, a.shares, ids, rails, ids[i]);
      NewRowSays(b, a.shares[i], rails);
    }
  }

  /** Approval makes a calculated batch payable, rejection makes a calculated or reviewed one a draft; nothing else changes. */
  lemma DecisionsStore(db: Db, b: Id)
    ensures
      var approved, calculated := Approve(db, b), b in db.batches && db.batches[b].status == BatchStatus.Calculated;
      && approved.rows == db.rows && approved.payouts == db.payouts
      && (calculated ==> approved.batches == db.batches[b := db.batches[b].(status := Payable)])
      && (!calculated ==> approved.batches == db.batches)
    ensures
      var rejected, open := Reject(db, b), b in db.batches && db.batches[b].status in {BatchStatus.Calculated, ReviewRequired};
      && rejected.rows == db.rows && rejected.payouts == db.payouts
      && (open ==> rejected.batches == db.batches[b := db.batches[b].(status := Draft)])
      && (!open ==> rejected.batches == db.batches)
  {
  }
}

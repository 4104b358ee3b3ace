/** Calculating, approving and rejecting batches, and attaching held shares: effects on the rows. */
module LedgerHandlers {
  import opened Wrappers
  import opened SettlementProgram
  import opened Ledger
  import opened AllocationEngine

  predicate Recalculable(s: BatchStatus) {
    s == Draft || s == BatchStatus.Calculated || s == ReviewRequired
  }

  predicate MayCalculate(db: Db, b: Id) {
    b in db.batches ==> Recalculable(db.batches[b].status)
  }

  function CalculatedStatus(a: Allocation): BatchStatus {
    if HasBlockingIssue(a.issues) then ReviewRequired else BatchStatus.Calculated
  }

  function NewRow(b: Id, share: Share, rails: map<Id, Rail>): Row {
    match share.key
    case WorkerKey(w) =>
      Row(b, Some(w), None, share.amount, share.amount, if w in rails then Some(rails[w]) else None, None, RowUnpaid)
    case HeldKey(p, e) =>
      Row(b, None, Some((p, e)), share.amount, share.amount, None, None, RowUnpaid)
  }

  predicate FreshIds(db: Db, ids: seq<Id>, n: nat) {
    && |ids| == n
    && (forall i, j :: 0 <= i < j < |ids| ==> ids[i] != ids[j])
    && (forall i :: 0 <= i < |ids| ==> ids[i] !in db.rows && ids[i] !in db.payouts)
  }

  function NewRows(b: Id, shares: seq<Share>, ids: seq<Id>, rails: map<Id, Rail>): map<Id, Row>
    requires |ids| == |shares|
    requires forall i, j :: 0 <= i < j < |ids| ==> ids[i] != ids[j]
  {
    map i | 0 <= i < |ids| :: ids[i] := NewRow(b, shares[i], rails)
  }

  function OtherRows(rows: map<Id, Row>, b: Id): map<Id, Row> {
    map id | id in rows && rows[id].batch != b :: rows[id]
  }

  /** The rows of the batch are replaced by one row per share. */
  function Calculate(db: Db, b: Id, venue: Id, a: Allocation, hash: Hash, ids: seq<Id>, rails: map<Id, Rail>): Db
    requires FreshIds(db, ids, |a.shares|)
  {
    if !MayCalculate(db, b) then db
    else
      db.(batches := db.batches[b := Batch(venue, a.pool, Some(hash), CalculatedStatus(a))],
          rows := OtherRows(db.rows, b) + NewRows(b, a.shares, ids, rails))
  }

  function Approve(db: Db, b: Id): Db {
    if b in db.batches && db.batches[b].status == BatchStatus.Calculated
    then db.(batches := db.batches[b := db.batches[b].(status := Payable)]) else db
  }

  function Reject(db: Db, b: Id): Db {
    if b in db.batches && (db.batches[b].status == BatchStatus.Calculated || db.batches[b].status == ReviewRequired)
    then db.(batches := db.batches[b := db.batches[b].(status := Draft)]) else db
  }

  /** The answer of the query for the worker's own row in a batch. */
  ghost predicate FindsOwnRow(db: Db, b: Id, worker: Id, existing: Option<Id>) {
    match existing
    case Some(id) => InBatch(db.rows, b, id) && db.rows[id].worker == Some(worker)
    case None => forall id :: id in db.rows && InBatch(db.rows, b, id) ==> db.rows[id].worker != Some(worker)
  }

  predicate IsHeld(db: Db, id: Id) {
    id in db.rows && db.rows[id].worker.None?
  }

  /** One held row handed to its worker: merged into the worker's own row, or taken over. */
  function AttachHeld(db: Db, held: Id, worker: Id, existing: Option<Id>): Db
    requires IsHeld(db, held) && (existing.Some? ==> existing.value in db.rows && existing.value != held)
  {
    match existing
    case Some(own) =>
      var row := db.rows[own];
      db.(rows := db.rows[own := row.(pooled := row.pooled + db.rows[held].pooled, net := row.net + db.rows[held].net)] - {held})
    case None =>
      db.(rows := db.rows[held := db.rows[held].(worker := Some(worker))])
  }
}

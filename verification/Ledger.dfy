/** The rows the services share: allocation batches, worker allocations and payouts. */
module Ledger {
  import opened Wrappers
  import opened Sums
  import opened SettlementProgram
  import opened Chain

  datatype Rail = CashRetained | CashDrawer | Payroll | PayoutProvider | BankReference | Usdc

  datatype BatchStatus =
    | Draft | Calculated | ReviewRequired | Approved | Payable | PartiallyPaid | FullyPaid
    | BatchCorrected | BatchReversed | BatchDisputed

  datatype Batch = Batch(venue: Id, pool: int, allocationHash: Option<Hash>, status: BatchStatus)

  datatype RowStatus = RowUnpaid | RowPending | RowPaid | RowFailed

  /** A worker allocation; `worker` is None while the share is held for an unconnected worker. */
  datatype Row = Row(
    batch: Id, worker: Option<Id>, external: Option<(Id, Id)>, pooled: int, net: int,
    plannedRail: Option<Rail>, payoutRail: Option<Rail>, status: RowStatus)

  datatype PayoutStatus = Created | Initiated | Submitted | Confirmed | Finalized | Failed | PayoutReversed | PayoutCorrected

  datatype Reason =
    | TransactionDropped | ForkDroppedAfterExpiry | ExpiredBeforeSubmit | FinalizedWithoutSettlement
    | OnChainError | LegacyAttemptTimeout | InitialBroadcastError

  datatype Payout = Payout(
    rail: Rail, worker: Id, venue: Id, wallet: Option<Owner>, amountBaseUnits: nat, amountUsdCents: int, status: PayoutStatus,
    txSignature: Option<Tx>, signedTransaction: Option<Tx>, blockhash: Option<nat>, lastValid: Option<nat>,
    signer: Option<Pubkey>, attempts: nat, reason: Option<Reason>)

  /** Payouts are keyed by payment id, which is the id of the allocation row they pay. */
  datatype Db = Db(batches: map<Id, Batch>, rows: map<Id, Row>, payouts: map<Id, Payout>)

  predicate AcceptsPayouts(s: BatchStatus) {
    s == Payable || s == PartiallyPaid
  }

  predicate IsApproved(s: BatchStatus) {
    s == Payable || s == PartiallyPaid || s == FullyPaid
  }

  predicate InFlight(s: PayoutStatus) {
    s == Initiated || s == Submitted || s == Confirmed
  }

  predicate InBatch(rows: map<Id, Row>, b: Id, id: Id) {
    id in rows && rows[id].batch == b
  }

  /** The status a batch deserves for its rows: nobody, everybody or somebody paid. */
  function RolledUp(rows: map<Id, Row>, b: Id): BatchStatus {
    if forall id :: id in rows && InBatch(rows, b, id) ==> rows[id].status != RowPaid then Payable
    else if forall id :: id in rows && InBatch(rows, b, id) ==> rows[id].status == RowPaid then FullyPaid
    else PartiallyPaid
  }

  function RefreshBatch(db: Db, b: Id): Db {
    if b in db.batches && IsApproved(db.batches[b].status)
    then db.(batches := db.batches[b := db.batches[b].(status := RolledUp(db.rows, b))])
    else db
  }

  /** The net cents each row of a batch carries. */
  ghost function NetOf(rows: map<Id, Row>, b: Id): map<nat, int> {
    map id | id in rows && rows[id].batch == b :: rows[id].net
  }

  /** The cents of the payouts made for the rows of a batch. */
  ghost function PayoutsOf(db: Db, b: Id): map<nat, int> {
    map id | id in db.rows && db.rows[id].batch == b && id in db.payouts :: db.payouts[id].amountUsdCents
  }

  // ----- the invariant of the ledger

  /** A row's money, owner and payment state agree with its payout. */
  ghost predicate RowOk(db: Db, id: Id)
    requires id in db.rows
  {
    var r := db.rows[id];
    && r.batch in db.batches
    && 0 <= r.net
    && (r.status == RowPaid <==> id in db.payouts && db.payouts[id].status == Finalized)
    && (r.worker.None? ==> id !in db.payouts)
  }

  ghost predicate PayoutOk(db: Db, id: Id)
    requires id in db.payouts
  {
    var p := db.payouts[id];
    && id in db.rows && db.rows[id].batch in db.batches && IsApproved(db.batches[db.rows[id].batch].status)
    && 0 <= p.amountUsdCents <= db.rows[id].net
    && (p.rail == Usdc ==> p.amountBaseUnits == p.amountUsdCents * 10_000)
    && (p.rail != Usdc ==> p.status == Finalized)
    && p.status != PayoutReversed && p.status != PayoutCorrected
  }

  ghost predicate RollUpOk(db: Db, b: Id)
    requires b in db.batches
  {
    match db.batches[b].status
    case Payable => forall id :: id in db.rows && InBatch(db.rows, b, id) ==> db.rows[id].status != RowPaid
    case PartiallyPaid => exists id :: id in db.rows && InBatch(db.rows, b, id) && db.rows[id].status == RowPaid
    case FullyPaid => forall id :: id in db.rows && InBatch(db.rows, b, id) ==> db.rows[id].status == RowPaid
    case _ => true
  }

  predicate CarriesItsPool(s: BatchStatus) {
    s == Calculated || IsApproved(s)
  }

  ghost predicate BatchOk(db: Db, b: Id)
    requires b in db.batches
  {
    && RollUpOk(db, b)
    && (CarriesItsPool(db.batches[b].status) ==> SumMap(NetOf(db.rows, b)) == db.batches[b].pool)
    && db.batches[b].status != Approved
  }

  ghost predicate LedgerOk(db: Db) {
    && (forall id :: id in db.rows ==> RowOk(db, id))
    && (forall id :: id in db.payouts ==> PayoutOk(db, id))
    && (forall b :: b in db.batches ==> BatchOk(db, b))
  }

  lemma EmptyLedgerIsOk()
    ensures LedgerOk(Db(map[], map[], map[]))
  {
  }

  /** No batch ever promises more than its pool. */
  lemma PayoutsWithinPool(db: Db, b: Id)
    requires LedgerOk(db) && b in db.batches && CarriesItsPool(db.batches[b].status)
    ensures SumMap(PayoutsOf(db, b)) <= db.batches[b].pool
  {
    forall id | id in PayoutsOf(db, b) ensures PayoutsOf(db, b)[id] <= NetOf(db.rows, b)[id] {
      assert PayoutOk(db, id);
    }
    forall id | id in NetOf(db.rows, b) ensures 0 <= NetOf(db.rows, b)[id] {
      assert RowOk(db, id);
    }
    SumAtMost(PayoutsOf(db, b), NetOf(db.rows, b));
    assert BatchOk(db, b);
  }
}

/** The tables the services read and write, updated in place. */
module Database {
  import opened Wrappers
  import opened Ledger
  import opened PayoutHandlers

  class Tables {
    var batches: map<Id, Batch>
    var rows: map<Id, Row>
    var payouts: map<Id, Payout>

    ghost function View(): Db
      reads this
    {
      Db(batches, rows, payouts)
    }

    constructor ()
      ensures View() == Db(map[], map[], map[])
    {
      batches, rows, payouts := map[], map[], map[];
    }

    /** workerAllocation.update of the payment columns */
    method UpdateRow(id: Id, rail: Option<Rail>, status: RowStatus)
      modifies this`rows
      ensures View() == SetRow(old(View()), id, rail, status)
    {
      if id in rows {
        rows := rows[id := rows[id].(payoutRail := rail, status := status)];
      }
    }

    method UpdateRowStatus(id: Id, status: RowStatus)
      modifies this`rows
      ensures View() == SetRowStatus(old(View()), id, status)
    {
      if id in rows {
        UpdateRow(id, rows[id].payoutRail, status);
      }
    }

    /** refreshBatchPaymentStatus: count the paid rows, then write where the batch is approved. */
    method RefreshBatchPaymentStatus(b: Id)
      modifies this`batches
      ensures View() == RefreshBatch(old(View()), b)
    {
      var allocations := set id | id in rows && InBatch(rows, b, id);
      var paid := set id | id in allocations && rows[id].status == RowPaid;
      var status := if |paid| == 0 then Payable else if |paid| == |allocations| then FullyPaid else PartiallyPaid;
      CountsRollUp(rows, b, allocations, paid);
      if b in batches && IsApproved(batches[b].status) {
        batches := batches[b := batches[b].(status := status)];
      }
    }
  }

  lemma SubsetCount(part: set<Id>, whole: set<Id>)
    requires part <= whole && |part| == |whole|
    ensures part == whole
  {
    var rest := whole - part;
    assert whole == part + rest;
    assert |rest| == 0;
  }

  /** Counting paid rows tells nobody, everybody and somebody apart. */
  lemma CountsRollUp(rows: map<Id, Row>, b: Id, allocations: set<Id>, paid: set<Id>)
    requires forall id :: id in allocations <==> InBatch(rows, b, id)
    requires forall id :: id in paid <==> InBatch(rows, b, id) && rows[id].status == RowPaid
    ensures RolledUp(rows, b) == if |paid| == 0 then Payable else if |paid| == |allocations| then FullyPaid else PartiallyPaid
  {
    forall id | id in rows && InBatch(rows, b, id) ensures id in allocations && (id in paid <==> rows[id].status == RowPaid) {
    }
    if |paid| == |allocations| {
      SubsetCount(paid, allocations);
    }
    assert paid == {} || exists id :: id in paid && id in rows && InBatch(rows, b, id);
    if |paid| < |allocations| {
      assert allocations != paid;
      assert exists id :: id in allocations && id !in paid && InBatch(rows, b, id);
    }
  }
}

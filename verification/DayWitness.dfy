/** The dollar of the settled run once more: calculated under a second policy version, approved, and paid in cash. */
module DayWitness {
  import opened Wrappers
  import opened Sums
  import opened Ledger
  import opened PayoutHandlers
  import opened LedgerHandlers
  import opened Protocol
  import opened ProtocolWitness
  import Engine = AllocationEngine
  import opened Chain
  import opened LatePayments
  import opened VenueDays

  const THE_DAY := Day(1, 0)
  const SAME_DAY: Id -> Day := (b: Id) => THE_DAY

  const AGAIN := CalculateBatch(13, 1, POLICY, [TIP], [SHIFT], ALLOCATION, 10, [17], map[])
  const ROW_AGAIN := ROW.(batch := 13)
  const PAID_AGAIN := Payout(CashDrawer, 4, 1, None, 0, 100, Finalized, None, None, None, None, None, 0, None)

  function BatchAgain(status: BatchStatus): map<Id, Batch> {
    S10.db.batches[13 := Batch(1, 100, Some(10), status)]
  }

  const TWICE_CALCULATED := S10.(db := S10.db.(
    batches := BatchAgain(BatchStatus.Calculated), rows := S10.db.rows[17 := ROW_AGAIN]))
  const TWICE_APPROVED := TWICE_CALCULATED.(db := TWICE_CALCULATED.db.(batches := BatchAgain(Payable)))
  const TWICE_PAID := TWICE_CALCULATED.(db := Db(
    BatchAgain(FullyPaid), S10.db.rows[17 := ROW_AGAIN.(payoutRail := Some(CashDrawer), status := RowPaid)],
    S10.db.payouts[17 := PAID_AGAIN]))

  lemma RowAgain()
    ensures NewRows(13, ALLOCATION.shares, [17], map[]) == map[17 := ROW_AGAIN]
  {
    var rows := NewRows(13, ALLOCATION.shares, [17], map[]);
    assert NewRow(13, ALLOCATION.shares[0], map[]) == ROW_AGAIN;
    assert [17][0] == 17 && rows[17] == ROW_AGAIN && rows.Keys == {17};
  }

  lemma MayCalculateAgain()
    ensures FreshIds(S10.db, [17], |ALLOCATION.shares|) && Enabled(S10, AGAIN)
  {
    EngineAllocates();
  }

  lemma StoresAgain()
    requires FreshIds(S10.db, [17], |ALLOCATION.shares|)
    ensures Calculate(S10.db, 13, 1, ALLOCATION, 10, [17], map[]) == TWICE_CALCULATED.db
  {
    RowAgain();
    assert OtherRows(S10.db.rows, 13) == S10.db.rows;
    assert S10.db.rows + map[17 := ROW_AGAIN] == S10.db.rows[17 := ROW_AGAIN];
    assert CalculatedStatus(ALLOCATION) == BatchStatus.Calculated;
  }

  lemma CalculatesAgain()
    ensures Enabled(S10, AGAIN) && Apply(S10, AGAIN) == TWICE_CALCULATED
  {
    MayCalculateAgain();
    StoresAgain();
  }

  lemma ApprovesAgain()
    ensures Enabled(TWICE_CALCULATED, ApproveBatch(13)) && Apply(TWICE_CALCULATED, ApproveBatch(13)) == TWICE_APPROVED
    ensures SecondApproval(TWICE_CALCULATED.db, ApproveBatch(13), SAME_DAY, THE_DAY)
  {
    assert 3 in ApprovedOn(TWICE_CALCULATED.db, SAME_DAY, THE_DAY);
  }

  lemma AllPaidAgain()
    ensures RolledUp(TWICE_PAID.db.rows, 13) == FullyPaid
  {
    assert InBatch(TWICE_PAID.db.rows, 13, 17);
  }

  lemma TakesCash()
    ensures RegisterLegacyEvidence(TWICE_APPROVED.db, 17, CashDrawer) == TWICE_PAID.db
  {
    AllPaidAgain();
    var db := TWICE_APPROVED.db;
    var paid := db.(payouts := db.payouts[17 := PAID_AGAIN]);
    var rows := TWICE_PAID.db.rows;
    assert db.rows[17 := ROW_AGAIN.(payoutRail := Some(CashDrawer), status := RowPaid)] == rows;
    assert SetRow(paid, 17, Some(CashDrawer), RowPaid) == Db(BatchAgain(Payable), rows, TWICE_PAID.db.payouts);
    assert BatchAgain(Payable)[13 := Batch(1, 100, Some(10), FullyPaid)] == BatchAgain(FullyPaid);
  }

  lemma PaysAgain()
    ensures Enabled(TWICE_APPROVED, Legacy(17, CashDrawer)) && Apply(TWICE_APPROVED, Legacy(17, CashDrawer)) == TWICE_PAID
  {
    TakesCash();
  }

  lemma NoOtherRecord()
    ensures HasRecord(TWICE_PAID, 7) && RecordsAt(TWICE_PAID.chain, 1)[7].amount == 1_000_000 && !HasRecord(TWICE_PAID, 17)
    ensures !HasRecord(TWICE_APPROVED, 17)
  {
    TxSettles();
    assert [LANDED][..1] == [LANDED] && [LANDED][..0] == [];
  }

  /** One tip of a dollar, a dollar on the chain and a dollar in cash, and the evidence was for a quiet payment. */
  lemma ADayCanPayItsTipsTwice()
    ensures Reachable(TWICE_PAID) && Enabled(S10, AGAIN) && Engine.Pool(POLICY, [TIP]) == 100
    ensures SecondApproval(TWICE_CALCULATED.db, ApproveBatch(13), SAME_DAY, THE_DAY) && Quiet(TWICE_APPROVED, 17)
    ensures SumMap(PaidOn(TWICE_PAID, SAME_DAY, THE_DAY)) == 2_000_000
  {
    ADollarCanBePaid();
    CalculatesAgain();
    OneStepFurther(S10, AGAIN);
    ApprovesAgain();
    OneStepFurther(TWICE_CALCULATED, ApproveBatch(13));
    PaysAgain();
    OneStepFurther(TWICE_APPROVED, Legacy(17, CashDrawer));
    PoolOfOne();
    NoOtherRecord();
    TwoDollars();
  }

  lemma TwoDollars()
    ensures SumMap(PaidOn(TWICE_PAID, SAME_DAY, THE_DAY)) == 2_000_000
  {
    NoOtherRecord();
    var paid := PaidOn(TWICE_PAID, SAME_DAY, THE_DAY);
    assert paid == map[7 := 1_000_000, 17 := 1_000_000];
    SumRemove(paid, 7);
    SumRemove(paid - {7}, 17);
    assert paid - {7} - {17} == map[];
  }
}

/**
 * Two runs in which a held share reaches its worker too late: a dollar split evenly between
 * a worker and an unconnected one, who turns out to be the same person.
 */
module MergeWitness {
  import opened Wrappers
  import opened Sums
  import opened SettlementProgram
  import opened Ledger
  import opened PayoutHandlers
  import opened LedgerHandlers
  import opened Protocol
  import opened ProtocolWitness
  import opened RollUps
  import Engine = AllocationEngine
  import Apportionment

  const HELD_SHIFT := Engine.Shift(None, 0, 1, 0, 60, Engine.ShiftCompleted)
  const HELD_KEY := Engine.HeldKey(0, 1)
  const HALVES := Engine.Allocation(
    100, 120.0, [Engine.Share(HELD_KEY, 60.0, 50), Engine.Share(KEY, 60.0, 50)], [Engine.Issue(Engine.UnmappedWorker, false)])
  const SCORES := map[HELD_KEY := 60.0, KEY := 60.0]

  lemma ScoresOfTwo()
    ensures Engine.Scores(POLICY, [SHIFT, HELD_SHIFT]) == SCORES && SumMapReal(SCORES) == 120.0
  {
    ScoreOfOne();
    Engine.ScoresStep(POLICY, [SHIFT], HELD_SHIFT);
    assert [SHIFT] + [HELD_SHIFT] == [SHIFT, HELD_SHIFT];
    SumRemoveReal(SCORES, HELD_KEY);
    assert SCORES - {HELD_KEY} == map[KEY := 60.0];
  }

  lemma QuotasOfTwo()
    ensures Apportionment.Proportional(100, [60.0, 60.0], 120.0) == [50.0, 50.0]
  {
    assert Apportionment.Quota(100, 120.0)(60.0) == 50.0;
  }

  lemma EvenSplit()
    ensures Apportionment.Apportions([50.0, 50.0], Apportionment.Positions(2), 100, [50, 50])
  {
    assert [50.0, 50.0][1..] == [50.0] && [50.0][1..] == [] && [50, 50][1..] == [50] && [50][1..] == [];
    assert SumReal([50.0]) == 50.0 && SumSeq([50]) == 50;
    assert (50.0).Floor == 50;
  }

  lemma SplitsInHalves()
    ensures SumMapReal(SCORES) == 120.0 && Engine.SplitsPool(100, SCORES, HALVES.shares)
  {
    ScoresOfTwo();
    QuotasOfTwo();
    EvenSplit();
    HalvesListed();
  }

  lemma HalvesListed()
    ensures Engine.KeysOf(HALVES.shares) == [HELD_KEY, KEY]
    ensures Engine.ScoresOf(HALVES.shares) == [60.0, 60.0] && Engine.AmountsOf(HALVES.shares) == [50, 50]
  {
  }

  lemma OneUnmapped()
    ensures Engine.Flat((s: Engine.Shift) => Engine.ShiftIssues(POLICY, s), [SHIFT, HELD_SHIFT]) == HALVES.issues
  {
    NoIssues();
    assert [SHIFT, HELD_SHIFT][..1] == [SHIFT];
  }

  lemma EngineHalves()
    ensures Engine.Allocates(POLICY, [TIP], [SHIFT, HELD_SHIFT], HALVES)
  {
    PoolOfOne();
    ScoresOfTwo();
    SplitsInHalves();
    NoIssues();
    OneUnmapped();
  }

  // ----- the states of the two runs

  const HELD_ROW := Row(3, None, Some((0, 1)), 50, 50, None, None, RowUnpaid)
  const OWN_ROW := Row(3, Some(4), None, 50, 50, None, None, RowUnpaid)

  const CALCULATE := CalculateBatch(3, 1, POLICY, [TIP], [SHIFT, HELD_SHIFT], HALVES, 8, [7, 9], map[])
  const ATTACH := Attach(7, 4, Some(9))

  const HALVED := EMPTY.(db := Db(BatchWith(BatchStatus.Calculated), map[7 := HELD_ROW, 9 := OWN_ROW], map[]))
  const APPROVED := EMPTY.(db := Db(BatchWith(Payable), map[7 := HELD_ROW, 9 := OWN_ROW], map[]))

  const CASH := Payout(CashDrawer, 4, 1, None, 0, 50, Finalized, None, None, None, None, None, 0, None)
  const PAID_ROW := OWN_ROW.(payoutRail := Some(CashDrawer), status := RowPaid)
  const HALF_PAID := EMPTY.(db := Db(BatchWith(PartiallyPaid), map[7 := HELD_ROW, 9 := PAID_ROW], map[9 := CASH]))
  const STUCK := EMPTY.(db := Db(BatchWith(PartiallyPaid), map[9 := PAID_ROW.(pooled := 100, net := 100)], map[9 := CASH]))

  const STARTED := CREATED.(amountBaseUnits := 500_000, amountUsdCents := 50)
  const PENDING_ROW := OWN_ROW.(payoutRail := Some(Usdc), status := RowPending)
  const IN_FLIGHT := EMPTY.(db := Db(BatchWith(Payable), map[7 := HELD_ROW, 9 := PENDING_ROW], map[9 := STARTED]))
  const SHORT := EMPTY.(db := Db(BatchWith(Payable), map[9 := PENDING_ROW.(pooled := 100, net := 100)], map[9 := STARTED]))

  lemma TwoRows()
    ensures NewRows(3, HALVES.shares, [7, 9], map[]) == map[7 := HELD_ROW, 9 := OWN_ROW]
  {
    var rows := NewRows(3, HALVES.shares, [7, 9], map[]);
    assert NewRow(3, HALVES.shares[0], map[]) == HELD_ROW && NewRow(3, HALVES.shares[1], map[]) == OWN_ROW;
    assert [7, 9][0] == 7 && [7, 9][1] == 9;
    assert rows[7] == HELD_ROW && rows[9] == OWN_ROW && rows.Keys == {7, 9};
  }

  lemma MayCalculateHalves()
    ensures FreshIds(EMPTY.db, [7, 9], |HALVES.shares|) && Enabled(EMPTY, CALCULATE)
  {
    EngineHalves();
  }

  lemma StoresHalves()
    requires FreshIds(EMPTY.db, [7, 9], |HALVES.shares|)
    ensures Calculate(EMPTY.db, 3, 1, HALVES, 8, [7, 9], map[]) == HALVED.db
  {
    TwoRows();
    assert CalculatedStatus(HALVES) == BatchStatus.Calculated;
  }

  lemma CalculatesHalves()
    ensures Enabled(EMPTY, CALCULATE) && Apply(EMPTY, CALCULATE) == HALVED
  {
    MayCalculateHalves();
    StoresHalves();
  }

  lemma ReachesApproved()
    ensures Reachable(APPROVED)
  {
    assert Run(EMPTY, [], EMPTY) && Reachable(EMPTY);
    CalculatesHalves();
    OneStepFurther(EMPTY, CALCULATE);
    ApprovesHalves();
    OneStepFurther(HALVED, ApproveBatch(3));
  }

  lemma ApprovesHalves()
    ensures Apply(HALVED, ApproveBatch(3)) == APPROVED
  {
  }

  lemma PaysHalf()
    ensures Apply(APPROVED, Legacy(9, CashDrawer)) == HALF_PAID
  {
    var rows := map[7 := HELD_ROW, 9 := PAID_ROW];
    assert InBatch(rows, 3, 7) && InBatch(rows, 3, 9);
    assert RolledUp(rows, 3) == PartiallyPaid;
    assert APPROVED.db.rows[9 := PAID_ROW] == rows;
    assert SetRow(APPROVED.db.(payouts := map[9 := CASH]), 9, Some(CashDrawer), RowPaid) == Db(BatchWith(Payable), rows, map[9 := CASH]);
    assert RegisterLegacyEvidence(APPROVED.db, 9, CashDrawer) == HALF_PAID.db;
  }

  lemma MergesIntoPaid()
    ensures Enabled(HALF_PAID, ATTACH) && Apply(HALF_PAID, ATTACH) == STUCK && MergesLastUnpaid(HALF_PAID.db, ATTACH, 3)
  {
    assert InBatch(HALF_PAID.db.rows, 3, 9);
  }

  /**
   * Merged into a row paid in cash: every row is paid, half of the worker's dollar is not, and
   * the batch still says partially paid.
   */
  lemma AMergeCanStayUnpaid()
    ensures Reachable(STUCK) && STUCK.db.payouts[9].status == Finalized && STUCK.db.payouts[9].amountUsdCents == 50
    ensures STUCK.db.rows[9].status == RowPaid && STUCK.db.rows[9].net == 100
    ensures STUCK.db.batches[3].status == PartiallyPaid && RolledUp(STUCK.db.rows, 3) == FullyPaid
  {
    ReachesApproved();
    PaysHalf();
    OneStepFurther(APPROVED, Legacy(9, CashDrawer));
    MergesIntoPaid();
    OneStepFurther(HALF_PAID, ATTACH);
    StuckIsAllPaid();
  }

  lemma StuckIsAllPaid()
    ensures RolledUp(STUCK.db.rows, 3) == FullyPaid
  {
    assert InBatch(STUCK.db.rows, 3, 9);
  }

  lemma StartsHalf()
    ensures Apply(APPROVED, CreatePayout(9, Some(Wallet(6)))) == IN_FLIGHT
    ensures Enabled(IN_FLIGHT, ATTACH) && Apply(IN_FLIGHT, ATTACH) == SHORT
  {
    assert InBatch(IN_FLIGHT.db.rows, 3, 9);
  }

  /** Nor need the row be paid: a payout only just created already has its amount. */
  lemma AMergeCanComeTooLate()
    ensures Reachable(SHORT) && SHORT.db.payouts[9].status == Created
    ensures SHORT.db.payouts[9].amountUsdCents == 50 && SHORT.db.rows[9].net == 100
  {
    ReachesApproved();
    OneStepFurther(APPROVED, CreatePayout(9, Some(Wallet(6))));
    StartsHalf();
    OneStepFurther(IN_FLIGHT, ATTACH);
  }
}

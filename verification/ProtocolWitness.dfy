/** A run of the whole protocol, from an empty database to a settled payout: the theorems speak of something. */
module ProtocolWitness {
  import opened Wrappers
  import opened Sums
  import opened SettlementProgram
  import opened Chain
  import opened Ledger
  import opened PayoutHandlers
  import opened LedgerHandlers
  import opened Protocol
  import Engine = AllocationEngine
  import Apportionment

  lemma {:induction false} RunLonger(s0: State, steps: seq<ProtocolStep>, s: State, step: ProtocolStep)
    requires Run(s0, steps, s) && Enabled(s, step)
    ensures Run(s0, steps + [step], Apply(s, step))
    decreases |steps|
  {
    if steps == [] {
      assert [step][1..] == [];
    } else {
      RunLonger(Apply(s0, steps[0]), steps[1..], s, step);
      assert (steps + [step])[0] == steps[0] && (steps + [step])[1..] == steps[1..] + [step];
    }
  }

  lemma OneStepFurther(s: State, step: ProtocolStep)
    requires Reachable(s) && Enabled(s, step)
    ensures Reachable(Apply(s, step))
  {
    var s0, steps :| Initial(s0) && Run(s0, steps, s);
    RunLonger(s0, steps, s, step);
  }

  // ----- one worker, one tip of a dollar

  const POLICY := Engine.Policy(map[0 := 1.0], {}, map[Engine.CardTip := true])
  const TIP := Engine.Tip(Engine.CardTip, 100, Engine.Completed, Engine.NoRefund)
  const SHIFT := Engine.Shift(Some(4), 0, 0, 0, 60, Engine.ShiftCompleted)
  const KEY := Engine.WorkerKey(4)
  const ALLOCATION := Engine.Allocation(100, 60.0, [Engine.Share(KEY, 60.0, 100)], [])

  lemma TotalOfOne<T>(f: T -> int, g: T -> real, x: T)
    ensures Total(f, [x]) == f(x) && TotalReal(g, [x]) == g(x)
  {
    TotalAppend(f, g, [], x);
    assert [] + [x] == [x];
  }

  lemma PoolOfOne()
    ensures Engine.Pool(POLICY, [TIP]) == 100
  {
    TotalOfOne((t: Engine.Tip) => Engine.TipValue(POLICY, t), (t: Engine.Tip) => 0.0, TIP);
  }

  lemma ScoreOfOne()
    ensures Engine.Scores(POLICY, [SHIFT]) == map[KEY := 60.0]
    ensures SumMapReal(map[KEY := 60.0]) == 60.0
  {
    TotalOfOne((s: Engine.Shift) => 0, (s: Engine.Shift) => Engine.ShiftScore(POLICY, KEY, s), SHIFT);
    assert Engine.ScoreOf(POLICY, [SHIFT], KEY) == 60.0;
    assert SHIFT in [SHIFT];
    SumRemoveReal(map[KEY := 60.0], KEY);
    assert map[KEY := 60.0] - {KEY} == map[];
  }

  lemma QuotaOfOne()
    ensures Apportionment.Proportional(100, [60.0], 60.0) == [100.0]
  {
    assert Apportionment.Quota(100, 60.0)(60.0) == 100.0;
  }

  lemma AllToOne()
    ensures Apportionment.Apportions([100.0], Apportionment.Positions(1), 100, [100])
  {
    assert [100.0][1..] == [] && [100][1..] == [];
    assert (100.0).Floor == 100;
  }

  lemma NoIssues()
    ensures Engine.Flat((t: Engine.Tip) => Engine.TipIssues(POLICY, t), [TIP]) == []
    ensures Engine.Flat((s: Engine.Shift) => Engine.ShiftIssues(POLICY, s), [SHIFT]) == []
  {
    assert [TIP][..0] == [] && [SHIFT][..0] == [];
  }

  lemma EngineAllocates()
    ensures Engine.Allocates(POLICY, [TIP], [SHIFT], ALLOCATION)
  {
    PoolOfOne();
    ScoreOfOne();
    SplitsToOne();
    NoIssues();
  }

  lemma SplitsToOne()
    ensures SumMapReal(map[KEY := 60.0]) == 60.0 && Engine.SplitsPool(100, map[KEY := 60.0], ALLOCATION.shares)
  {
    ScoreOfOne();
    QuotaOfOne();
    AllToOne();
    assert Engine.KeysOf(ALLOCATION.shares) == [KEY];
    assert Engine.ScoresOf(ALLOCATION.shares) == [60.0] && Engine.AmountsOf(ALLOCATION.shares) == [100];
  }

  // ----- the states of the run

  const GENESIS := Accounts(0, 9, false, map[1 := Venue(5, true)], map[Vault(1) := 1_000_000], map[], map[1 := 1_000_000])
  const CALL := SettleCall(7, 8, 1_000_000, 1, 5, Wallet(6), 9)
  const TX := Tx(CALL, 11, 20)
  const EMPTY := State(Db(map[], map[], map[]), ChainState(GENESIS, [], 0, 0), {}, {}, {}, {})

  const ROW := Row(3, Some(4), None, 100, 100, None, None, RowUnpaid)
  const ROW_PENDING := ROW.(payoutRail := Some(Usdc), status := RowPending)
  const CREATED := Payout(Usdc, 4, 1, Some(Wallet(6)), 1_000_000, 100, Created, None, None, None, None, None, 0, None)
  const BUILT := CREATED.(status := Initiated, blockhash := Some(11), lastValid := Some(20), signer := Some(5))
  const SENT := BUILT.(status := Submitted, txSignature := Some(TX), signedTransaction := Some(TX), attempts := 1)

  function BatchWith(status: BatchStatus): map<Id, Batch> {
    map[3 := Batch(1, 100, Some(8), status)]
  }

  const S1 := EMPTY.(db := Db(BatchWith(BatchStatus.Calculated), map[7 := ROW], map[]))
  const S2 := EMPTY.(db := Db(BatchWith(Payable), map[7 := ROW], map[]))
  const S3 := EMPTY.(db := Db(BatchWith(Payable), map[7 := ROW_PENDING], map[7 := CREATED]))
  const S4 := EMPTY.(db := Db(BatchWith(Payable), map[7 := ROW_PENDING], map[7 := BUILT]), built := {TX})
  const S5 := S4.(requests := {Request(7, TX, 20)})
  const S6 := S5.(db := Db(BatchWith(Payable), map[7 := ROW_PENDING], map[7 := SENT]), sent := {TX})

  const LANDED := Landed(SettleTx(TX), 1, 1, 0)
  const S7 := S6.(chain := ChainState(GENESIS, [LANDED], 0, 0), events := {7})
  const S8 := S7.(chain := ChainState(GENESIS, [LANDED], 1, 0))
  const S9 := S7.(chain := ChainState(GENESIS, [LANDED], 1, 1))
  const SETTLED := SENT.(status := Finalized)
  const S10 := S9.(db := Db(BatchWith(FullyPaid), map[7 := ROW_PENDING.(status := RowPaid)], map[7 := SETTLED]))

  const CALCULATE_ONE := CalculateBatch(3, 1, POLICY, [TIP], [SHIFT], ALLOCATION, 8, [7], map[])

  lemma MayCalculateOne()
    ensures FreshIds(EMPTY.db, [7], |ALLOCATION.shares|) && Enabled(EMPTY, CALCULATE_ONE)
  {
    EngineAllocates();
  }

  lemma StoresOne()
    requires FreshIds(EMPTY.db, [7], |ALLOCATION.shares|)
    ensures Calculate(EMPTY.db, 3, 1, ALLOCATION, 8, [7], map[]) == S1.db
  {
    OneRow();
    assert CalculatedStatus(ALLOCATION) == BatchStatus.Calculated;
  }

  lemma Calculates()
    ensures Enabled(EMPTY, CALCULATE_ONE) && Apply(EMPTY, CALCULATE_ONE) == S1
  {
    MayCalculateOne();
    StoresOne();
  }

  lemma OneRow()
    ensures NewRows(3, ALLOCATION.shares, [7], map[]) == map[7 := ROW]
  {
    var rows := NewRows(3, ALLOCATION.shares, [7], map[]);
    assert NewRow(3, ALLOCATION.shares[0], map[]) == ROW;
    assert [7][0] == 7 && rows[7] == ROW && rows.Keys == {7};
  }

  lemma Creates()
    ensures Apply(S1, ApproveBatch(3)) == S2 && Apply(S2, CreatePayout(7, Some(Wallet(6)))) == S3
  {
  }

  lemma Builds()
    ensures Enabled(S3, Build(7, Some(5), Some(9), 11, 20)) && Apply(S3, Build(7, Some(5), Some(9), 11, 20)) == S4
  {
    assert ConfirmedRecord(S3.chain, 7).None?;
    assert BuiltTx(S3.db, 7, BuildAnswers(S3, Build(7, Some(5), Some(9), 11, 20))) == TX;
  }

  lemma Submits()
    ensures Enabled(S4, CheckSubmit(7, TX)) && Apply(S4, CheckSubmit(7, TX)) == S5
    ensures Enabled(S5, ClaimSubmit(Request(7, TX, 20), 0, false)) && Apply(S5, ClaimSubmit(Request(7, TX, 20), 0, false)) == S6
  {
  }

  lemma TxSettles()
    ensures Succeeded(GENESIS, [LANDED], 0) && Execute(GENESIS, InstructionOf(SettleTx(TX)), 0).Ok?
    ensures 7 in Replay(GENESIS, [LANDED]).records
  {
    assert [LANDED][..0] == [];
    assert SettleError(GENESIS, CALL).None?;
  }

  lemma Lands()
    ensures Enabled(S6, Cluster(Land(LANDED))) && Apply(S6, Cluster(Land(LANDED))) == S7
  {
    TxSettles();
    assert Step(S6.chain, Land(LANDED)) == S7.chain;
  }

  lemma Roots()
    ensures Enabled(S7, Cluster(ConfirmUpTo(1))) && Apply(S7, Cluster(ConfirmUpTo(1))) == S8
    ensures Enabled(S8, Cluster(RootUpTo(1))) && Apply(S8, Cluster(RootUpTo(1))) == S9
  {
  }

  const RECONCILE := Reconcile(7, Some(SigStatus(AtFinalized, 1, false)), 1, false)

  lemma SeesRecord()
    ensures FinalizedRecord(S9.chain, 7).Some?
  {
    TxSettles();
    assert [LANDED][..1] == [LANDED];
  }

  lemma FinalizesPayout()
    ensures ApplyVerdict(S9.db, 7, Finalize) == S10.db
  {
    assert InBatch(S10.db.rows, 3, 7);
  }

  lemma Reconciles()
    ensures Enabled(S9, RECONCILE) && Apply(S9, RECONCILE) == S10
  {
    SeenFinalized();
    SeesRecord();
    FinalizesPayout();
  }

  lemma SeenFinalized()
    ensures Truthful(S9.chain, TX, Some(SigStatus(AtFinalized, 1, false)))
  {
    TxSettles();
    var c := S9.chain;
    assert LandedAt(c, TX, 0);
    forall i | LandedAt(c, TX, i)
      ensures Some(SigStatus(AtFinalized, 1, false)) == Some(SigStatus(LevelOf(c, c.landed[i]), c.landed[i].slot, !Succeeded(c.genesis, c.landed, i)))
    {
      assert i == 0 && c.landed[i] == LANDED && LevelOf(c, LANDED) == AtFinalized;
    }
  }

  lemma ReachesBuilt()
    ensures Reachable(S4)
  {
    assert Run(EMPTY, [], EMPTY) && Reachable(EMPTY);
    Calculates();
    OneStepFurther(EMPTY, CALCULATE_ONE);
    Creates();
    OneStepFurther(S1, ApproveBatch(3));
    OneStepFurther(S2, CreatePayout(7, Some(Wallet(6))));
    Builds();
    OneStepFurther(S3, Build(7, Some(5), Some(9), 11, 20));
  }

  lemma ReachesSent()
    ensures Reachable(S6)
  {
    ReachesBuilt();
    Submits();
    OneStepFurther(S4, CheckSubmit(7, TX));
    OneStepFurther(S5, ClaimSubmit(Request(7, TX, 20), 0, false));
  }

  lemma ReachesLanded()
    ensures Reachable(S7)
  {
    ReachesSent();
    Lands();
    OneStepFurther(S6, Cluster(Land(LANDED)));
  }

  /** From nothing to a dollar on the chain, its payout finalized, its row and its batch paid. */
  lemma ADollarCanBePaid()
    ensures Reachable(S10) && S10.db.payouts[7].status == Finalized && S10.db.payouts[7].rail == Usdc
    ensures S10.db.rows[7].status == RowPaid && S10.db.batches[3].status == FullyPaid
    ensures SettledBy(S10.chain, TX)
  {
    ReachesLanded();
    Roots();
    OneStepFurther(S7, Cluster(ConfirmUpTo(1)));
    OneStepFurther(S8, Cluster(RootUpTo(1)));
    Reconciles();
    OneStepFurther(S9, RECONCILE);
    TxSettles();
    assert LandedAt(S10.chain, TX, 0);
  }
}

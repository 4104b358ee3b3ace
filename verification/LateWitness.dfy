/** Two runs, from a payout just sent, in which its settlement comes after the payout was given up. */
module LateWitness {
  import opened Wrappers
  import opened SettlementProgram
  import opened Chain
  import opened Ledger
  import opened PayoutHandlers
  import opened Protocol
  import opened ProtocolWitness
  import opened LatePayments
  import opened CarefulRuns

  // ----- cash, and then the chain

  lemma CanPayNext()
    ensures CouldPayNext(S6, TX, LANDED)
  {
    Lands();
    TxSettles();
  }

  const PAID_IN_CASH := S6.(db := Db(
    BatchWith(FullyPaid), map[7 := ROW.(payoutRail := Some(CashDrawer), status := RowPaid)],
    map[7 := SENT.(rail := CashDrawer, status := Finalized)]))
  const PAID_TWICE := PAID_IN_CASH.(chain := ChainState(GENESIS, [LANDED], 0, 0), events := {7})

  lemma TakesEvidence()
    ensures Apply(S6, Legacy(7, CashDrawer)) == PAID_IN_CASH && !Quiet(S6, 7)
  {
    assert InBatch(PAID_IN_CASH.db.rows, 3, 7);
    assert RegisterLegacyEvidence(S6.db, 7, CashDrawer) == PAID_IN_CASH.db;
  }

  lemma SettlesToo()
    ensures Enabled(PAID_IN_CASH, Cluster(Land(LANDED))) && Apply(PAID_IN_CASH, Cluster(Land(LANDED))) == PAID_TWICE
    ensures HasRecord(PAID_TWICE, 7) && RecordsAt(PAID_TWICE.chain, 1)[7].amount == 1_000_000
  {
    TxSettles();
    assert Step(PAID_IN_CASH.chain, Land(LANDED)) == PAID_TWICE.chain;
    assert [LANDED][..1] == [LANDED] && [LANDED][..0] == [];
  }

  /** Evidence accepted while the transaction was out: two dollars from a pool of one. */
  lemma ADollarCanBePaidTwice()
    ensures Reachable(PAID_TWICE) && PAID_TWICE.db.batches[3].pool == 100
    ensures PaidInCash(PAID_TWICE.db, 7) == 1_000_000 && PaidOnChain(PAID_TWICE, 7) == 1_000_000
    ensures HastyEvidence(S6, Legacy(7, CashDrawer)) && CouldPayNext(S6, TX, LANDED)
  {
    ReachesSent();
    CanPayNext();
    TakesEvidence();
    OneStepFurther(S6, Legacy(7, CashDrawer));
    SettlesToo();
    OneStepFurther(PAID_IN_CASH, Cluster(Land(LANDED)));
  }

  // ----- an error, and then the settlement

  const PAUSE := Landed(OtherCall(SetPaused(true, 0)), 1, 1, 0)
  const PAUSED := S6.(chain := ChainState(GENESIS, [PAUSE], 0, 0))
  const REFUSED := S6.(chain := ChainState(GENESIS, [PAUSE, LANDED], 0, 0))

  const GIVEN_UP := Db(
    BatchWith(Payable), map[7 := ROW_PENDING.(status := RowFailed)], map[7 := SENT.(status := Failed, reason := Some(OnChainError))])
  const FAILED := REFUSED.(db := GIVEN_UP)
  const DROPPED := S6.(db := GIVEN_UP)
  const SETTLED_LATE := S7.(db := GIVEN_UP)
  const CONFIRMED_LATE := S8.(db := GIVEN_UP)
  const FINALIZED_LATE := S9.(db := GIVEN_UP)

  const SEEN_FAILED := Some(SigStatus(AtProcessed, 1, true))

  lemma PausesFirst()
    ensures Enabled(S6, Cluster(Land(PAUSE))) && Apply(S6, Cluster(Land(PAUSE))) == PAUSED
  {
    assert Step(S6.chain, Land(PAUSE)) == PAUSED.chain;
  }

  lemma IsRefused()
    ensures !Succeeded(GENESIS, [PAUSE, LANDED], 1) && Execute(Replay(GENESIS, [PAUSE]), InstructionOf(SettleTx(TX)), 0).Err?
    ensures RecordsAt(REFUSED.chain, 0) == map[]
  {
    assert [PAUSE, LANDED][..1] == [PAUSE] && [PAUSE][..0] == [];
    assert Replay(GENESIS, [PAUSE]) == GENESIS.(paused := true);
    assert Execute(GENESIS.(paused := true), InstructionOf(SettleTx(TX)), 0).Err?;
  }

  lemma LandsRefused()
    ensures Enabled(PAUSED, Cluster(Land(LANDED))) && Apply(PAUSED, Cluster(Land(LANDED))) == REFUSED
  {
    IsRefused();
    assert Step(PAUSED.chain, Land(LANDED)) == REFUSED.chain;
  }

  lemma SeesTheError()
    ensures Truthful(REFUSED.chain, TX, SEEN_FAILED)
  {
    IsRefused();
    var c := REFUSED.chain;
    assert LandedAt(c, TX, 1);
    forall i | LandedAt(c, TX, i)
      ensures SEEN_FAILED == Some(SigStatus(LevelOf(c, c.landed[i]), c.landed[i].slot, !Succeeded(c.genesis, c.landed, i)))
    {
      assert i == 1 && c.landed[i] == LANDED && LevelOf(c, LANDED) == AtProcessed;
    }
  }

  lemma GivesUp()
    ensures Enabled(REFUSED, Confirmation(7, TX, SEEN_FAILED)) && Apply(REFUSED, Confirmation(7, TX, SEEN_FAILED)) == FAILED
    ensures HastyError(REFUSED, Confirmation(7, TX, SEEN_FAILED))
  {
    SeesTheError();
    DecidesToFail();
    assert ApplyVerdict(REFUSED.db, 7, Fail(OnChainError)) == GIVEN_UP;
  }

  /** The error is one that a dropped fork takes back. */
  lemma FailedOnAForkToBeDropped()
    ensures CouldPayAfterDrop(REFUSED, TX, 0, LANDED) && OnChain(REFUSED.chain, TX)
  {
    CanPayNext();
    assert LandedAt(REFUSED.chain, TX, 1);
    assert [PAUSE, LANDED][..0] == [];
    assert Apply(REFUSED, Cluster(DropFork(0))) == S6;
  }

  lemma DecidesToFail()
    ensures ConfirmationVerdict(SENT, TX, View(REFUSED, 7, TX, SEEN_FAILED, 0)) == Fail(OnChainError)
    ensures !ConfirmationResends(SENT, TX, View(REFUSED, 7, TX, SEEN_FAILED, 0))
  {
    IsRefused();
    assert FinalizedRecord(REFUSED.chain, 7).None?;
  }

  lemma Forgets()
    ensures Enabled(FAILED, Cluster(DropFork(0))) && Apply(FAILED, Cluster(DropFork(0))) == DROPPED
  {
    assert [PAUSE, LANDED][..0] == [];
    assert Step(FAILED.chain, DropFork(0)) == DROPPED.chain;
  }

  lemma SettlesLate()
    ensures Enabled(DROPPED, Cluster(Land(LANDED))) && Apply(DROPPED, Cluster(Land(LANDED))) == SETTLED_LATE
  {
    TxSettles();
    assert Step(DROPPED.chain, Land(LANDED)) == SETTLED_LATE.chain;
  }

  lemma IsRootedLate()
    ensures Enabled(SETTLED_LATE, Cluster(ConfirmUpTo(1))) && Apply(SETTLED_LATE, Cluster(ConfirmUpTo(1))) == CONFIRMED_LATE
    ensures Enabled(CONFIRMED_LATE, Cluster(RootUpTo(1))) && Apply(CONFIRMED_LATE, Cluster(RootUpTo(1))) == FINALIZED_LATE
  {
  }

  lemma ReachesFailed()
    ensures Reachable(FAILED)
  {
    ReachesSent();
    PausesFirst();
    OneStepFurther(S6, Cluster(Land(PAUSE)));
    LandsRefused();
    OneStepFurther(PAUSED, Cluster(Land(LANDED)));
    GivesUp();
    OneStepFurther(REFUSED, Confirmation(7, TX, SEEN_FAILED));
  }

  /** An error believed at "processed", a fork dropped, the same transaction landing again: settled, and given up. */
  lemma AnErrorCanBeTakenBack()
    ensures Reachable(FINALIZED_LATE) && FinalizedRecord(FINALIZED_LATE.chain, 7).Some?
    ensures FINALIZED_LATE.db.payouts[7].status == Failed && FINALIZED_LATE.db.rows[7].status == RowFailed
    ensures CouldPayAfterDrop(REFUSED, TX, 0, LANDED) && OnChain(REFUSED.chain, TX)
  {
    FailedOnAForkToBeDropped();
    ReachesFailed();
    Forgets();
    OneStepFurther(FAILED, Cluster(DropFork(0)));
    SettlesLate();
    OneStepFurther(DROPPED, Cluster(Land(LANDED)));
    IsRootedLate();
    OneStepFurther(SETTLED_LATE, Cluster(ConfirmUpTo(1)));
    OneStepFurther(CONFIRMED_LATE, Cluster(RootUpTo(1)));
    SeesRecord();
  }
}

/**
 * When a batch's status is exactly what its rows deserve: always, until the last unpaid row
 * is merged away, and never again after that.
 */
module RollUps {
  import opened Wrappers
  import opened SettlementProgram
  import opened Chain
  import opened Ledger
  import opened PayoutHandlers
  import opened LedgerHandlers
  import opened LedgerInvariant
  import opened Protocol
  import opened ProtocolInvariant
  import Engine = AllocationEngine

  /** An approved batch says exactly what its rows deserve. */
  predicate Exact(db: Db, b: Id) {
    b in db.batches && IsApproved(db.batches[b].status) ==> db.batches[b].status == RolledUp(db.rows, b)
  }

  /** The step merges the last unpaid share of an approved batch into a paid row. */
  predicate MergesLastUnpaid(db: Db, step: ProtocolStep, b: Id) {
    && step.Attach? && step.existing.Some? && step.held in db.rows && db.rows[step.held].batch == b
    && b in db.batches && IsApproved(db.batches[b].status) && OnlyHeldIsUnpaid(db, step.held)
  }

  /** Same status and the same rows, paid or not. */
  ghost predicate SameRollUp(db: Db, db': Db, b: Id) {
    && (b in db'.batches <==> b in db.batches)
    && (b in db.batches ==> db'.batches[b].status == db.batches[b].status)
    && (forall id :: InBatch(db'.rows, b, id) <==> InBatch(db.rows, b, id))
    && (forall id :: id in db.rows && InBatch(db.rows, b, id) ==> (db'.rows[id].status == RowPaid <==> db.rows[id].status == RowPaid))
  }

  lemma SameRollUpSameExact(db: Db, db': Db, b: Id)
    requires SameRollUp(db, db', b)
    ensures Exact(db', b) <==> Exact(db, b)
  {
    assert forall id :: id in db'.rows && InBatch(db'.rows, b, id) ==> id in db.rows && InBatch(db.rows, b, id);
    assert forall id :: id in db.rows && InBatch(db.rows, b, id) ==> id in db'.rows && InBatch(db'.rows, b, id);
  }

  /** With a row still unpaid the status cannot be wrong. */
  lemma UnpaidMeansExact(db: Db, b: Id, id: Id)
    requires LedgerOk(db) && id in db.rows && InBatch(db.rows, b, id) && db.rows[id].status != RowPaid
    ensures Exact(db, b)
  {
    assert RowOk(db, id) && BatchOk(db, b);
    if db.batches[b].status == PartiallyPaid {
      var k :| k in db.rows && InBatch(db.rows, b, k) && db.rows[k].status == RowPaid;
    }
  }

  lemma RefreshedIsExact(db: Db, b: Id)
    ensures Exact(RefreshBatch(db, b), b)
  {
  }

  lemma RefreshLeavesOthers(db: Db, c: Id, b: Id)
    requires b != c
    ensures Exact(RefreshBatch(db, c), b) <==> Exact(db, b)
  {
  }

  // ----- payout handlers

  /** An unpaid row gets paid and its batch is refreshed. */
  lemma PayingIsExact(db: Db, id: Id, row: Row, payouts: map<Id, Payout>, b: Id)
    requires LedgerOk(db) && id in db.rows && SameMoney(db.rows[id], row) && db.rows[id].status != RowPaid
    ensures Exact(RefreshBatch(Db(db.batches, db.rows[id := row], payouts), row.batch), b) <==> Exact(db, b)
  {
    var mid := Db(db.batches, db.rows[id := row], payouts);
    if b == row.batch {
      UnpaidMeansExact(db, b, id);
      RefreshedIsExact(mid, b);
    } else {
      assert SameRollUp(db, mid, b);
      SameRollUpSameExact(db, mid, b);
      RefreshLeavesOthers(mid, row.batch, b);
    }
  }

  /** A row changes, but not whether it is paid. */
  lemma UnpayingIsExact(db: Db, id: Id, row: Row, payouts: map<Id, Payout>, b: Id)
    requires id in db.rows && SameMoney(db.rows[id], row) && (row.status == RowPaid <==> db.rows[id].status == RowPaid)
    ensures Exact(Db(db.batches, db.rows[id := row], payouts), b) <==> Exact(db, b)
  {
    assert SameRollUp(db, Db(db.batches, db.rows[id := row], payouts), b);
    SameRollUpSameExact(db, Db(db.batches, db.rows[id := row], payouts), b);
  }

  lemma CreateIsExact(db: Db, id: Id, wallet: Option<Owner>, height: nat, b: Id)
    requires LedgerOk(db)
    ensures Exact(CreateUsdcPayout(db, id, wallet, height), b) <==> Exact(db, b)
  {
    var db' := CreateUsdcPayout(db, id, wallet, height);
    if db' != db {
      assert RowOk(db, id);
      UnpayingIsExact(db, id, db'.rows[id], db'.payouts, b);
      assert db' == Db(db.batches, db.rows[id := db'.rows[id]], db'.payouts);
    }
  }

  lemma LegacyIsExact(db: Db, id: Id, rail: Rail, b: Id)
    requires LedgerOk(db)
    ensures Exact(RegisterLegacyEvidence(db, id, rail), b) <==> Exact(db, b)
  {
    if LegacyRefusal(db, id).None? && db.rows[id].status != RowPaid {
      PayingIsExact(db, id, db.rows[id].(payoutRail := Some(rail), status := RowPaid), RegisterLegacyEvidence(db, id, rail).payouts, b);
    }
  }

  lemma FailedIsExact(db: Db, id: Id, p: Payout, b: Id)
    requires LedgerOk(db) && id in db.payouts && db.payouts[id].status != Finalized
    ensures Exact(SetRowStatus(db.(payouts := db.payouts[id := p]), id, RowFailed), b) <==> Exact(db, b)
  {
    assert PayoutOk(db, id) && RowOk(db, id);
    UnpayingIsExact(db, id, db.rows[id].(status := RowFailed), db.payouts[id := p], b);
  }

  lemma ClaimIsExact(db: Db, id: Id, tx: Tx, lastValid: nat, height: nat, sendFailed: bool, b: Id)
    requires LedgerOk(db)
    ensures Exact(ClaimSubmission(db, id, tx, lastValid, height, sendFailed), b) <==> Exact(db, b)
  {
    if id in db.payouts && db.payouts[id].status == Initiated {
      FailedIsExact(db, id, ClaimSubmission(db, id, tx, lastValid, height, sendFailed).payouts[id], b);
    }
  }

  lemma VerdictIsExact(db: Db, id: Id, verdict: Verdict, resends: bool, b: Id)
    requires LedgerOk(db)
    requires id in db.payouts && db.payouts[id].status == Finalized ==> verdict == Leave
    ensures Exact(CountResend(ApplyVerdict(db, id, verdict), id, resends), b) <==> Exact(db, b)
  {
    if id in db.payouts && verdict.Finalize? {
      assert PayoutOk(db, id) && RowOk(db, id);
      PayingIsExact(db, id, db.rows[id].(status := RowPaid), ApplyVerdict(db, id, verdict).payouts, b);
    } else if id in db.payouts && verdict.Fail? {
      FailedIsExact(db, id, ApplyVerdict(db, id, verdict).payouts[id], b);
    }
  }

  // ----- batch handlers

  lemma OtherBatchesSame(db: Db, c: Id, venue: Id, a: Engine.Allocation, hash: Hash, ids: seq<Id>, rails: map<Id, Rail>, b: Id)
    requires FreshIds(db, ids, |a.shares|) && MayCalculate(db, c) && b != c
    ensures SameRollUp(db, Calculate(db, c, venue, a, hash, ids, rails), b)
  {
    var added := NewRows(c, a.shares, ids, rails);
    NewRowKeys(c, a.shares, ids, rails);
    forall id | id in added ensures added[id].batch == c && id !in db.rows {
      NewRowAt(c, a.shares, ids, rails, id);
    }
  }

  lemma CalculateIsExact(db: Db, c: Id, venue: Id, a: Engine.Allocation, hash: Hash, ids: seq<Id>, rails: map<Id, Rail>, b: Id)
    requires FreshIds(db, ids, |a.shares|)
    ensures Exact(Calculate(db, c, venue, a, hash, ids, rails), b) <==> Exact(db, b)
  {
    if MayCalculate(db, c) && b != c {
      OtherBatchesSame(db, c, venue, a, hash, ids, rails, b);
      SameRollUpSameExact(db, Calculate(db, c, venue, a, hash, ids, rails), b);
    }
  }

  lemma ApproveIsExact(db: Db, c: Id, b: Id)
    requires LedgerOk(db)
    ensures Exact(Approve(db, c), b) <==> Exact(db, b)
  {
    if b == c && b in db.batches && db.batches[b].status == BatchStatus.Calculated {
      forall id | id in db.rows && InBatch(db.rows, b, id) ensures db.rows[id].status != RowPaid {
        assert RowOk(db, id) && (id in db.payouts ==> PayoutOk(db, id));
      }
    }
  }

  lemma AttachIsExact(db: Db, step: ProtocolStep, b: Id)
    requires LedgerOk(db) && step.Attach? && IsHeld(db, step.held)
    requires FindsOwnRow(db, db.rows[step.held].batch, step.worker, step.existing)
    ensures step.existing.Some? ==> step.existing.value in db.rows && step.existing.value != step.held
    ensures Exact(AttachHeld(db, step.held, step.worker, step.existing), b) <==> Exact(db, b) && !MergesLastUnpaid(db, step, b)
  {
    var held, db' := step.held, AttachHeld(db, step.held, step.worker, step.existing);
    assert RowOk(db, held);
    if b != db.rows[held].batch {
      assert SameRollUp(db, db', b);
      SameRollUpSameExact(db, db', b);
    } else {
      UnpaidMeansExact(db, b, held);
      if IsApproved(db.batches[b].status) {
        AttachKeepsRollUp(db, held, step.worker, step.existing);
      }
    }
  }

  // ----- every step, every run

  lemma ApiIsExact(s: State, step: ProtocolStep, b: Id)
    requires Inv(s) && Enabled(s, step)
    requires step.CreatePayout? || step.Build? || step.CheckSubmit? || step.ClaimSubmit? || step.Legacy?
    ensures Exact(Apply(s, step).db, b) <==> Exact(s.db, b)
  {
    match step
    case CreatePayout(id, wallet) => CreateIsExact(s.db, id, wallet, s.chain.height, b);
    case Legacy(id, rail) => LegacyIsExact(s.db, id, rail, b);
    case ClaimSubmit(r, height, sendFailed) => ClaimIsExact(s.db, r.id, r.tx, r.lastValid, height, sendFailed, b);
    case Build(_, _, _, _, _) =>
    case CheckSubmit(_, _) =>
  }

  lemma ConfirmationIsExact(db: Db, id: Id, signature: Tx, v: RpcView, b: Id)
    requires LedgerOk(db)
    ensures Exact(ProcessConfirmation(db, id, signature, v), b) <==> Exact(db, b)
  {
    if id in db.payouts {
      VerdictIsExact(db, id, ConfirmationVerdict(db.payouts[id], signature, v), ConfirmationResends(db.payouts[id], signature, v), b);
    }
  }

  lemma ReconcileIsExact(db: Db, id: Id, v: RpcView, abandoned: bool, b: Id)
    requires LedgerOk(db)
    ensures Exact(ReconcileTurn(db, id, v, abandoned), b) <==> Exact(db, b)
  {
    if id in db.payouts {
      VerdictIsExact(db, id, ReconcileVerdict(db.payouts[id], v, abandoned), ReconcileResends(db.payouts[id], v), b);
    }
  }

  lemma WorkerIsExact(s: State, step: ProtocolStep, b: Id)
    requires Inv(s) && Enabled(s, step) && (step.Confirmation? || step.Reconcile? || step.DeliverEvent?)
    ensures Exact(Apply(s, step).db, b) <==> Exact(s.db, b)
  {
    match step
    case Confirmation(id, signature, status) =>
      ConfirmationIsExact(s.db, id, signature, View(s, id, signature, status, s.chain.height), b);
    case Reconcile(id, status, height, abandoned) =>
      ReconcileIsExact(s.db, id, TurnView(s, id, status, height), abandoned, b);
    case DeliverEvent(_) =>
  }

  lemma BatchIsExact(s: State, step: ProtocolStep, b: Id)
    requires Inv(s) && Enabled(s, step)
    requires step.CalculateBatch? || step.ApproveBatch? || step.RejectBatch? || step.Attach?
    ensures Exact(Apply(s, step).db, b) <==> Exact(s.db, b) && !MergesLastUnpaid(s.db, step, b)
  {
    match step
    case CalculateBatch(c, venue, _, _, _, a, hash, ids, rails) => CalculateIsExact(s.db, c, venue, a, hash, ids, rails, b);
    case ApproveBatch(c) => ApproveIsExact(s.db, c, b);
    case RejectBatch(_) =>
    case Attach(_, _, _) => AttachIsExact(s.db, step, b);
  }

  /** A step keeps a batch's status exact, or wrong, except that merging away the last unpaid row makes it wrong. */
  lemma StepKeepsExact(s: State, step: ProtocolStep, b: Id)
    requires Inv(s) && Enabled(s, step)
    ensures Exact(Apply(s, step).db, b) <==> Exact(s.db, b) && !MergesLastUnpaid(s.db, step, b)
  {
    if step.CreatePayout? || step.Build? || step.CheckSubmit? || step.ClaimSubmit? || step.Legacy? {
      ApiIsExact(s, step, b);
    } else if step.Confirmation? || step.Reconcile? || step.DeliverEvent? {
      WorkerIsExact(s, step, b);
    } else if step.CalculateBatch? || step.ApproveBatch? || step.RejectBatch? || step.Attach? {
      BatchIsExact(s, step, b);
    }
  }

  /** Somewhere in the run the batch's last unpaid row is merged away. */
  ghost predicate LosesLastUnpaid(s: State, steps: seq<ProtocolStep>, b: Id)
    decreases |steps|
  {
    steps != [] && Enabled(s, steps[0])
    && (MergesLastUnpaid(s.db, steps[0], b) || LosesLastUnpaid(Apply(s, steps[0]), steps[1..], b))
  }

  lemma {:induction false} RunKeepsExact(s: State, steps: seq<ProtocolStep>, s': State, b: Id)
    requires Inv(s) && Run(s, steps, s')
    ensures Exact(s'.db, b) <==> Exact(s.db, b) && !LosesLastUnpaid(s, steps, b)
    decreases |steps|
  {
    if steps != [] {
      var next := Apply(s, steps[0]);
      StepKeepsExact(s, steps[0], b);
      StepKeepsInv(s, steps[0]);
      RunKeepsExact(next, steps[1..], s', b);
    }
  }

  /** After any run from the start an approved batch's status is exact if and only if its last unpaid row was never merged away. */
  lemma RollUpIsExact(s0: State, steps: seq<ProtocolStep>, s: State, b: Id)
    requires Initial(s0) && Run(s0, steps, s) && b in s.db.batches && IsApproved(s.db.batches[b].status)
    ensures s.db.batches[b].status == RolledUp(s.db.rows, b) <==> !LosesLastUnpaid(s0, steps, b)
  {
    InitialIsOk(s0);
    RunKeepsExact(s0, steps, s, b);
  }
}

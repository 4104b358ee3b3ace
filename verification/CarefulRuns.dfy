/**
 * What holds of a settlement's payout when evidence is taken for quiet payments only and an
 * on-chain error is believed only once it is final.
 */
module CarefulRuns {
  import opened Wrappers
  import opened Sums
  import opened SettlementProgram
  import opened Chain
  import opened BlockhashRules
  import opened Refusals
  import opened Ledger
  import opened PayoutHandlers
  import opened Protocol
  import opened ProtocolInvariant
  import opened ProtocolTheorems
  import opened Shortfalls
  import opened LatePayments

  // ----- on-chain errors

  predicate WorkerTurn(step: ProtocolStep, id: Id) {
    (step.Confirmation? && step.id == id) || (step.Reconcile? && step.id == id)
  }

  ghost function VerdictOf(s: State, step: ProtocolStep, id: Id): Verdict
    requires WorkerTurn(step, id)
  {
    if id !in s.db.payouts then Leave
    else if step.Confirmation?
    then ConfirmationVerdict(s.db.payouts[id], step.signature, View(s, id, step.signature, step.status, s.chain.height))
    else ReconcileVerdict(s.db.payouts[id], TurnView(s, id, step.status, step.height), step.abandoned)
  }

  function HeightSeen(s: State, step: ProtocolStep): nat {
    match step case Reconcile(_, _, height, _) => height case _ => s.chain.height
  }

  /** The error was read at "finalized", or after the row's blockhash had expired. */
  predicate ErrorIsFinal(s: State, step: ProtocolStep, id: Id)
    requires WorkerTurn(step, id) && id in s.db.payouts
  {
    (step.status.Some? && step.status.value.level.AtFinalized?) || Expired(s.db.payouts[id], HeightSeen(s, step))
  }

  lemma ErrorGrounds(p: Payout, signature: Tx, v: RpcView, abandoned: bool)
    ensures ConfirmationVerdict(p, signature, v) == Fail(OnChainError) ==>
      p.txSignature == Some(signature) && p.status != Finalized && p.status != Failed && v.status.Some? && v.status.value.failed
    ensures ReconcileVerdict(p, v, abandoned) == Fail(OnChainError) ==>
      p.txSignature.Some? && InFlight(p.status) && v.status.Some? && v.status.value.failed
  {
  }

  lemma ConfirmationErrorIsOfTheSignature(s: State, id: Id, signature: Tx, status: Option<SigStatus>)
    requires Inv(s) && id in s.db.payouts
    requires ConfirmationVerdict(s.db.payouts[id], signature, View(s, id, signature, status, s.chain.height)) == Fail(OnChainError)
    ensures
      var p := s.db.payouts[id];
      InFlight(p.status) && p.txSignature == Some(signature) && status.Some? && status.value.failed
  {
    ErrorGrounds(s.db.payouts[id], signature, View(s, id, signature, status, s.chain.height), false);
    SignedIsInFlight(s, id);
  }

  /** The turn's verdict is about the tracked signature, by a truthful status. */
  lemma ErrorIsOfTheSignature(s: State, step: ProtocolStep, id: Id)
    requires Inv(s) && Enabled(s, step) && WorkerTurn(step, id) && id in s.db.payouts && VerdictOf(s, step, id) == Fail(OnChainError)
    ensures
      var p := s.db.payouts[id];
      && InFlight(p.status) && p.txSignature.Some? && step.status.Some? && step.status.value.failed
      && Truthful(s.chain, p.txSignature.value, step.status) && HeightSeen(s, step) <= s.chain.height
  {
    match step
    case Confirmation(_, signature, status) => ConfirmationErrorIsOfTheSignature(s, id, signature, status);
    case Reconcile(_, status, height, abandoned) =>
      var p, v := s.db.payouts[id], TurnView(s, id, status, height);
      ErrorGrounds(p, Tx(SettleCall(0, 0, 0, 0, 0, Wallet(0), 0), 0, 0), v, abandoned);
  }

  /** A failed status, truthfully final, is of a transaction that has not paid and cannot. */
  lemma FailedSignatureIsHarmless(s: State, t: Tx, status: SigStatus)
    requires WellFormed(s.chain) && Truthful(s.chain, t, Some(status)) && status.failed
    requires status.level.AtFinalized? || t.lastValid < s.chain.height
    ensures Harmless(s, t)
  {
    if OnChain(s.chain, t) {
      var i :| LandedAt(s.chain, t, i);
      assert !Succeeded(s.chain.genesis, s.chain.landed, i);
    }
  }

  lemma FinalErrorCannotPay(s: State, step: ProtocolStep, id: Id)
    requires Inv(s) && Enabled(s, step) && WorkerTurn(step, id) && id in s.db.payouts && VerdictOf(s, step, id) == Fail(OnChainError)
    requires ErrorIsFinal(s, step, id)
    ensures NoneCanPay(s, id)
  {
    ErrorIsOfTheSignature(s, step, id);
    var signature := s.db.payouts[id].txSignature.value;
    if !step.status.value.level.AtFinalized? { SignatureExpiresWithRow(s, id, HeightSeen(s, step)); }
    FailedSignatureIsHarmless(s, signature, step.status.value);
    OnlyTheSignature(s, id, signature);
  }

  /** Of a payout in flight only the tracked signature could still pay. */
  lemma OnlyTheSignature(s: State, id: Id, signature: Tx)
    requires Inv(s) && id in s.db.payouts && InFlight(s.db.payouts[id].status) && s.db.payouts[id].txSignature == Some(signature)
    requires Harmless(s, signature)
    ensures NoneCanPay(s, id)
  {
    forall t | t in s.built && t.call.payment == id ensures Harmless(s, t) {
      assert TxOk(s, t);
      if SettledBy(s.chain, t) { SettledIsSent(s, t); }
    }
  }

  predicate OnlyDbChanges(s: State, s': State, id: Id) {
    s' == s.(db := s'.db) && id in s'.db.payouts && s'.db.payouts[id].status == Failed
  }

  lemma ConfirmationFailWrites(s: State, id: Id, signature: Tx, status: Option<SigStatus>)
    requires Inv(s) && Enabled(s, Confirmation(id, signature, status)) && id in s.db.payouts
    requires ConfirmationVerdict(s.db.payouts[id], signature, View(s, id, signature, status, s.chain.height)).Fail?
    ensures OnlyDbChanges(s, Apply(s, Confirmation(id, signature, status)), id)
  {
    var p, v := s.db.payouts[id], View(s, id, signature, status, s.chain.height);
    WorkerSendsNothingNew(s, Confirmation(id, signature, status));
    FailedPayoutIs(s.db, id, ConfirmationVerdict(p, signature, v), ConfirmationResends(p, signature, v));
  }

  lemma ReconcileFailWrites(s: State, id: Id, status: Option<SigStatus>, height: nat, abandoned: bool)
    requires Inv(s) && Enabled(s, Reconcile(id, status, height, abandoned)) && id in s.db.payouts
    requires ReconcileVerdict(s.db.payouts[id], TurnView(s, id, status, height), abandoned).Fail?
    ensures OnlyDbChanges(s, Apply(s, Reconcile(id, status, height, abandoned)), id)
  {
    var p, v := s.db.payouts[id], TurnView(s, id, status, height);
    WorkerSendsNothingNew(s, Reconcile(id, status, height, abandoned));
    FailedPayoutIs(s.db, id, ReconcileVerdict(p, v, abandoned), ReconcileResends(p, v));
  }

  lemma FailedPayoutIs(db: Db, id: Id, verdict: Verdict, resends: bool)
    requires id in db.payouts && verdict.Fail?
    ensures
      var after := CountResend(ApplyVerdict(db, id, verdict), id, resends);
      id in after.payouts && after.payouts[id].status == Failed
  {
  }

  lemma FailWrites(s: State, step: ProtocolStep, id: Id)
    requires Inv(s) && Enabled(s, step) && WorkerTurn(step, id) && id in s.db.payouts && VerdictOf(s, step, id).Fail?
    ensures OnlyDbChanges(s, Apply(s, step), id)
  {
    match step
    case Confirmation(_, signature, status) => ConfirmationFailWrites(s, id, signature, status);
    case Reconcile(_, status, height, abandoned) => ReconcileFailWrites(s, id, status, height, abandoned);
  }

  /** Failed for an error that is final, by either handler, a payment stays unsettled until somebody rebuilds it. */
  lemma FinalErrorsAreFinal(s: State, step: ProtocolStep, id: Id)
    requires Inv(s) && Enabled(s, step) && WorkerTurn(step, id) && id in s.db.payouts && VerdictOf(s, step, id) == Fail(OnChainError)
    requires ErrorIsFinal(s, step, id)
    ensures
      var failed := Apply(s, step);
      id in failed.db.payouts && failed.db.payouts[id].status == Failed && NeverSettles(failed, id)
  {
    FinalErrorCannotPay(s, step, id);
    FailWrites(s, step, id);
    StepKeepsInv(s, step);
    FailedNeverSettles(s, Apply(s, step), id);
  }

  lemma FailedNeverSettles(s: State, failed: State, id: Id)
    requires Inv(failed) && OnlyDbChanges(s, failed, id) && NoneCanPay(s, id)
    ensures NeverSettles(failed, id)
  {
    SameNetwork(s, failed, id);
    assert Closed(failed, id);
    ClosedNeverSettles(failed, id);
  }

  /**
   * Below that a fork may take the error back, one that is gone already or one still to be
   * dropped: if the signature could pay then, it may pay a payout that is failed.
   */
  lemma EarlyErrorsCanBeTakenBack(s: State, step: ProtocolStep, id: Id, t: Tx, keep: nat, at: Landed)
    requires Inv(s) && Enabled(s, step) && WorkerTurn(step, id) && id in s.db.payouts && VerdictOf(s, step, id) == Fail(OnChainError)
    requires t.call.payment == id && CouldPayAfterDrop(s, t, keep, at)
    ensures !ErrorIsFinal(s, step, id)
    ensures
      var failed := Apply(s, step);
      && CouldPayAfterDrop(failed, t, keep, at)
      && var paid := Apply(Apply(failed, Cluster(DropFork(keep))), Cluster(Land(at)));
      HasRecord(paid, id) && id in paid.db.payouts && paid.db.payouts[id].status == Failed
  {
    FailWrites(s, step, id);
    RewrittenIsPaid(s, Apply(s, step), t, keep, at);
    EarlyOrHarmless(s, step, id, t, keep, at);
  }

  lemma EarlyOrHarmless(s: State, step: ProtocolStep, id: Id, t: Tx, keep: nat, at: Landed)
    requires Inv(s) && Enabled(s, step) && WorkerTurn(step, id) && id in s.db.payouts && VerdictOf(s, step, id) == Fail(OnChainError)
    requires t.call.payment == id && CouldPayAfterDrop(s, t, keep, at)
    ensures !ErrorIsFinal(s, step, id)
  {
    if ErrorIsFinal(s, step, id) {
      FinalErrorCannotPay(s, step, id);
      PayableIsNotHarmless(s, t, keep, at);
      assert false;
    }
  }

  /** The signature of a believed error has not paid, so it is harmless exactly when it is hopeless. */
  lemma FailedSignatureHasNotPaid(s: State, t: Tx, status: SigStatus)
    requires Truthful(s.chain, t, Some(status)) && status.failed
    ensures !SettledBy(s.chain, t)
  {
  }

  lemma SignatureDecides(s: State, id: Id, signature: Tx)
    requires Inv(s) && id in s.db.payouts && InFlight(s.db.payouts[id].status) && s.db.payouts[id].txSignature == Some(signature)
    requires !SettledBy(s.chain, signature)
    ensures NoneCanPay(s, id) <==> Hopeless(s, signature)
  {
    assert PayoutTracked(s, id) && signature in s.built;
    if Hopeless(s, signature) { OnlyTheSignature(s, id, signature); }
  }

  /**
   * For both handlers exactly: after an error is believed the payment is never settled, until
   * somebody rebuilds it, if and only if the signature is out of time, in a confirmed block, or
   * barred by the program. Otherwise the cluster alone can settle it, and the payout stays failed.
   */
  lemma ErrorIsFinalIff(s: State, step: ProtocolStep, id: Id)
    requires Inv(s) && Enabled(s, step) && WorkerTurn(step, id) && id in s.db.payouts && VerdictOf(s, step, id) == Fail(OnChainError)
    requires VaultsHaveRoom(s, id)
    ensures
      var failed, c := Apply(s, step), s.chain;
      && s.db.payouts[id].txSignature.Some?
      && var t := s.db.payouts[id].txSignature.value;
      && var hopeless := t.lastValid <= c.height || ConfirmedIn(c, t) || Barred(ConfirmedAccounts(c), t.call);
      && id in failed.db.payouts && failed.db.payouts[id].status == Failed
      && (NeverSettles(failed, id) <==> hopeless) && (ClusterSettles(failed, id) <==> !hopeless)
  {
    ErrorIsOfTheSignature(s, step, id);
    FailWrites(s, step, id);
    StepKeepsInv(s, step);
    SignatureIsSent(s, id);
    var t := s.db.payouts[id].txSignature.value;
    FailedSignatureHasNotPaid(s, t, step.status.value);
    SignatureDecides(s, id, t);
    FailedSettlesIff(s, Apply(s, step), id);
  }

  lemma FailedSettlesIff(s: State, failed: State, id: Id)
    requires Inv(failed) && OnlyDbChanges(s, failed, id) && VaultsHaveRoom(s, id)
    ensures (NeverSettles(failed, id) <==> NoneCanPay(s, id)) && (ClusterSettles(failed, id) <==> !NoneCanPay(s, id))
  {
    RewrittenSettlesIff(s, failed, id);
  }

  lemma SignatureIsSent(s: State, id: Id)
    requires Inv(s) && id in s.db.payouts && s.db.payouts[id].txSignature.Some?
    ensures s.db.payouts[id].txSignature.value in s.sent
  {
    assert PayoutTracked(s, id);
  }

  // ----- settled after it was given up

  /** The payment is settled for good and its payout is failed, or made anew after that. */
  ghost predicate Stuck(s: State, id: Id) {
    id in s.db.payouts && AtRest(s.db.payouts[id].status) && FinalizedRecord(s.chain, id).Some?
  }

  predicate AtRest(status: PayoutStatus) {
    status == Failed || status == Created
  }

  predicate RestsOn(db: Db, db': Db, id: Id) {
    id in db.payouts && AtRest(db.payouts[id].status) ==> id in db'.payouts && AtRest(db'.payouts[id].status)
  }

  lemma CreateRestsOn(db: Db, k: Id, wallet: Option<Owner>, height: nat, id: Id)
    ensures RestsOn(db, CreateUsdcPayout(db, k, wallet, height), id)
  {
  }

  lemma ClaimRestsOn(db: Db, k: Id, tx: Tx, lastValid: nat, height: nat, sendFailed: bool, id: Id)
    ensures RestsOn(db, ClaimSubmission(db, k, tx, lastValid, height, sendFailed), id)
  {
  }

  lemma VerdictRestsOn(db: Db, k: Id, verdict: Verdict, resends: bool, id: Id)
    requires k in db.payouts && AtRest(db.payouts[k].status) ==> verdict == Leave
    ensures RestsOn(db, CountResend(ApplyVerdict(db, k, verdict), k, resends), id)
  {
  }

  lemma RestingTurn(p: Payout, v: RpcView, abandoned: bool)
    ensures AtRest(p.status) ==> ReconcileVerdict(p, v, abandoned) == Leave
  {
  }

  lemma RestingConfirmation(s: State, k: Id, signature: Tx, v: RpcView)
    requires Inv(s) && k in s.db.payouts && AtRest(s.db.payouts[k].status)
    ensures ConfirmationVerdict(s.db.payouts[k], signature, v) == Leave
  {
    assert PayoutTracked(s, k);
  }

  lemma ConfirmationRestsOn(s: State, k: Id, signature: Tx, v: RpcView, id: Id)
    requires Inv(s)
    ensures RestsOn(s.db, ProcessConfirmation(s.db, k, signature, v), id)
  {
    if k in s.db.payouts {
      var p := s.db.payouts[k];
      if AtRest(p.status) { RestingConfirmation(s, k, signature, v); }
      VerdictRestsOn(s.db, k, ConfirmationVerdict(p, signature, v), ConfirmationResends(p, signature, v), id);
    }
  }

  lemma ReconcileRestsOn(s: State, k: Id, v: RpcView, abandoned: bool, id: Id)
    requires Inv(s)
    ensures RestsOn(s.db, ReconcileTurn(s.db, k, v, abandoned), id)
  {
    if k in s.db.payouts {
      var p := s.db.payouts[k];
      RestingTurn(p, v, abandoned);
      VerdictRestsOn(s.db, k, ReconcileVerdict(p, v, abandoned), ReconcileResends(p, v), id);
    }
  }

  lemma EventRestsOn(db: Db, k: Id, id: Id)
    ensures RestsOn(db, SettledEvent(db, k), id)
  {
  }

  /** A finalized record is a confirmed one, and refuses every rebuild. */
  lemma SettledIsNotRebuilt(s: State, step: ProtocolStep, id: Id)
    requires Inv(s) && Enabled(s, step) && Rebuilds(step, id) && FinalizedRecord(s.chain, id).Some?
    ensures Apply(s, step) == s
  {
    FinalizedIsConfirmed(s.chain, id);
  }

  lemma FinalizedIsConfirmed(c: ChainState, id: Id)
    requires WellFormed(c) && FinalizedRecord(c, id).Some?
    ensures ConfirmedRecord(c, id).Some?
  {
    var n, m := FinalizedLen(c.landed, c.root), ConfirmedLen(c.landed, c.height);
    if n > 0 { PrefixesByPosition(c, n - 1); }
    RecordsSurvive(c.genesis, c.landed[..m], n);
    assert c.landed[..m][..n] == c.landed[..n];
  }

  lemma StepKeepsStuck(s: State, step: ProtocolStep, id: Id)
    requires Inv(s) && Enabled(s, step) && Stuck(s, id) && !(step.Legacy? && step.id == id)
    ensures Stuck(Apply(s, step), id)
  {
    StepKeepsRecord(s, step, id);
    if Rebuilds(step, id) {
      SettledIsNotRebuilt(s, step, id);
    } else {
      StepRestsOn(s, step, id);
    }
  }

  lemma WorkerRestsOn(s: State, step: ProtocolStep, id: Id)
    requires Inv(s) && Enabled(s, step) && (step.Confirmation? || step.Reconcile? || step.DeliverEvent?)
    ensures RestsOn(s.db, Apply(s, step).db, id)
  {
    if step.Confirmation? {
      ConfirmationWritesDb(s, step);
      ConfirmationRestsOn(s, step.id, step.signature, View(s, step.id, step.signature, step.status, s.chain.height), id);
    } else if step.Reconcile? {
      ReconcileWritesDb(s, step);
      ReconcileRestsOn(s, step.id, TurnView(s, step.id, step.status, step.height), step.abandoned, id);
    } else {
      EventRestsOn(s.db, step.id, id);
    }
  }

  lemma BatchStepRestsOn(s: State, step: ProtocolStep, id: Id)
    requires Enabled(s, step) && (step.CalculateBatch? || step.ApproveBatch? || step.RejectBatch? || step.Attach?)
    ensures RestsOn(s.db, Apply(s, step).db, id)
  {
  }

  lemma OtherRestsOn(s: State, step: ProtocolStep, id: Id)
    requires Enabled(s, step) && (step.CheckSubmit? || step.Cluster? || (step.Build? && step.id != id) || (step.Legacy? && step.id != id))
    ensures RestsOn(s.db, Apply(s, step).db, id)
  {
  }

  lemma StepRestsOn(s: State, step: ProtocolStep, id: Id)
    requires Inv(s) && Enabled(s, step) && !Rebuilds(step, id) && !(step.Legacy? && step.id == id)
    ensures RestsOn(s.db, Apply(s, step).db, id)
  {
    if step.CreatePayout? {
      CreateRestsOn(s.db, step.id, step.wallet, s.chain.height, id);
    } else if step.ClaimSubmit? {
      ClaimRestsOn(s.db, step.request.id, step.request.tx, step.request.lastValid, step.height, step.sendFailed, id);
    } else if step.Confirmation? || step.Reconcile? || step.DeliverEvent? {
      WorkerRestsOn(s, step, id);
    } else if step.CalculateBatch? || step.ApproveBatch? || step.RejectBatch? || step.Attach? {
      BatchStepRestsOn(s, step, id);
    } else {
      OtherRestsOn(s, step, id);
    }
  }

  predicate NoEvidenceFor(steps: seq<ProtocolStep>, id: Id) {
    forall i :: 0 <= i < |steps| ==> !(steps[i].Legacy? && steps[i].id == id)
  }

  /** No handler ever finds out: short of evidence on another rail, the payout is never finalized. */
  lemma {:induction false} GivenUpIsNeverNoticed(s: State, steps: seq<ProtocolStep>, s': State, id: Id)
    requires Inv(s) && Run(s, steps, s') && Stuck(s, id)
    requires NoEvidenceFor(steps, id)
    ensures Stuck(s', id)
    decreases |steps|
  {
    if steps != [] {
      StepKeepsInv(s, steps[0]);
      StepKeepsStuck(s, steps[0], id);
      GivenUpIsNeverNoticed(Apply(s, steps[0]), steps[1..], s', id);
    }
  }

  // ----- careful runs

  /** Evidence for a payment that is not quiet. */
  predicate HastyEvidence(s: State, step: ProtocolStep) {
    step.Legacy? && Accepted(s, step.id) && !Quiet(s, step.id)
  }

  /** A payout failed for an error that is not final. */
  ghost predicate HastyError(s: State, step: ProtocolStep) {
    (step.Confirmation? || step.Reconcile?) && step.id in s.db.payouts
    && VerdictOf(s, step, step.id) == Fail(OnChainError) && !ErrorIsFinal(s, step, step.id)
  }

  /** The payout is still followed, or nothing can pay any more. */
  ghost predicate Followed(s: State, id: Id) {
    id in s.db.payouts ==>
      var p := s.db.payouts[id];
      InFlight(p.status) || (p.status == Finalized && p.rail == Usdc) || NoneCanPay(s, id)
  }

  lemma DroppedCannotPay(s: State, id: Id)
    requires Inv(s) && id in s.db.payouts && InFlight(s.db.payouts[id].status) && s.db.payouts[id].txSignature.Some?
    requires Dead(s.chain, s.db.payouts[id].txSignature.value) && Expired(s.db.payouts[id], s.chain.height)
    ensures NoneCanPay(s, id)
  {
    DropIsFounded(s, id, s.db.payouts[id].txSignature.value);
    forall t | t in s.built && t.call.payment == id ensures Harmless(s, t) {
      assert Spent(s.chain, t);
    }
  }

  lemma ConfirmationDropCannotPay(s: State, id: Id, signature: Tx, status: Option<SigStatus>)
    requires Inv(s) && id in s.db.payouts && Truthful(s.chain, signature, status)
    requires
      var verdict := ConfirmationVerdict(s.db.payouts[id], signature, View(s, id, signature, status, s.chain.height));
      verdict == Fail(TransactionDropped) || verdict == Fail(ForkDroppedAfterExpiry)
    ensures NoneCanPay(s, id)
  {
    ConfirmationIsFounded(s, id, signature, status);
    DroppedCannotPay(s, id);
  }

  /** The sweep's other reasons: nothing was submitted, a contradiction in the chain, or no blockhash at all. */
  lemma SweepReasons(p: Payout, v: RpcView, abandoned: bool)
    requires ReconcileVerdict(p, v, abandoned).Fail? && p.lastValid.Some?
    ensures
      var reason := ReconcileVerdict(p, v, abandoned).reason;
      && InFlight(p.status) && v.record.None?
      && (reason == OnChainError || reason == TransactionDropped || reason == ForkDroppedAfterExpiry
          || (reason == ExpiredBeforeSubmit && p.txSignature.None?)
          || (p.txSignature.Some? && v.status.Some? && v.status.value.level.AtFinalized? && !v.status.value.failed))
  {
  }

  /** A status that is finalized and not failed has its finalized record. */
  lemma FinalizedStatusHasRecord(s: State, t: Tx, status: SigStatus)
    requires Inv(s) && Truthful(s.chain, t, Some(status)) && status.level.AtFinalized? && !status.failed
    ensures FinalizedRecord(s.chain, t.call.payment).Some?
  {
    assert OnChain(s.chain, t);
    var i :| LandedAt(s.chain, t, i);
    PrefixesByPosition(s.chain, i);
    SettledLeavesRecord(s.chain, t, i, FinalizedLen(s.chain.landed, s.chain.root));
  }

  lemma ReconcileFailureCannotPay(s: State, id: Id, status: Option<SigStatus>, height: nat, abandoned: bool)
    requires Inv(s) && id in s.db.payouts && Enabled(s, Reconcile(id, status, height, abandoned))
    requires
      var verdict := ReconcileVerdict(s.db.payouts[id], TurnView(s, id, status, height), abandoned);
      verdict.Fail? && verdict.reason != OnChainError
    ensures NoneCanPay(s, id)
  {
    var p, v := s.db.payouts[id], TurnView(s, id, status, height);
    var reason := ReconcileVerdict(p, v, abandoned).reason;
    ReconcileGrounds(p, v, abandoned);
    assert PayoutTracked(s, id);
    SweepReasons(p, v, abandoned);
    if reason == TransactionDropped || reason == ForkDroppedAfterExpiry {
      ReconcileIsFounded(s, id, status, height, abandoned);
      DroppedCannotPay(s, id);
    } else if p.txSignature.None? {
      UnsentCannotPay(s, id);
    } else {
      FinalizedStatusHasRecord(s, p.txSignature.value, status.value);
      assert false;
    }
  }

  lemma OnlyDropsOrErrors(p: Payout, signature: Tx, v: RpcView)
    ensures ConfirmationVerdict(p, signature, v).Fail? ==>
      ConfirmationVerdict(p, signature, v).reason in {OnChainError, TransactionDropped, ForkDroppedAfterExpiry}
  {
  }

  /** A failure for any reason but an on-chain error is given only when nothing can pay any more. */
  lemma OtherFailuresCannotPay(s: State, step: ProtocolStep, id: Id)
    requires Inv(s) && Enabled(s, step) && WorkerTurn(step, id) && id in s.db.payouts
    requires VerdictOf(s, step, id).Fail? && VerdictOf(s, step, id) != Fail(OnChainError)
    ensures NoneCanPay(s, id)
  {
    match step
    case Confirmation(_, signature, status) =>
      OnlyDropsOrErrors(s.db.payouts[id], signature, View(s, id, signature, status, s.chain.height));
      ConfirmationDropCannotPay(s, id, signature, status);
    case Reconcile(_, status, height, abandoned) => ReconcileFailureCannotPay(s, id, status, height, abandoned);
  }

  /** The payout goes out of flight, and not by its own settlement. */
  predicate Retired(db: Db, db': Db, id: Id) {
    && id in db.payouts && InFlight(db.payouts[id].status) && id in db'.payouts && !InFlight(db'.payouts[id].status)
    && !(db'.payouts[id].status == Finalized && db'.payouts[id].rail == Usdc)
  }

  lemma EvidenceRetires(db: Db, k: Id, rail: Rail, id: Id)
    requires Retired(db, RegisterLegacyEvidence(db, k, rail), id)
    ensures k == id && LegacyRefusal(db, id).None? && db.rows[id].status != RowPaid
  {
  }

  lemma ClaimRetires(db: Db, k: Id, tx: Tx, lastValid: nat, height: nat, sendFailed: bool, id: Id)
    requires Retired(db, ClaimSubmission(db, k, tx, lastValid, height, sendFailed), id)
    ensures k == id && db.payouts[id].status == Initiated && IsBlockhashExpired(height, lastValid)
  {
  }

  lemma CreateRetiresNone(db: Db, k: Id, wallet: Option<Owner>, height: nat, id: Id)
    ensures !Retired(db, CreateUsdcPayout(db, k, wallet, height), id)
  {
  }

  lemma BuildRetiresNone(db: Db, k: Id, input: BuildInput, id: Id)
    ensures !Retired(db, BuildTransaction(db, k, input), id)
  {
  }

  lemma VerdictRetires(db: Db, k: Id, verdict: Verdict, resends: bool, id: Id)
    requires Retired(db, CountResend(ApplyVerdict(db, k, verdict), k, resends), id) && db.payouts[id].rail == Usdc
    ensures k == id && verdict.Fail?
  {
  }

  lemma ConfirmationRetires(s: State, k: Id, signature: Tx, status: Option<SigStatus>, id: Id)
    requires Inv(s) && Enabled(s, Confirmation(k, signature, status))
    requires Retired(s.db, ProcessConfirmation(s.db, k, signature, View(s, k, signature, status, s.chain.height)), id)
    ensures k == id && ConfirmationVerdict(s.db.payouts[id], signature, View(s, id, signature, status, s.chain.height)).Fail?
  {
    assert PayoutTracked(s, id);
    if k in s.db.payouts {
      var p, v := s.db.payouts[k], View(s, k, signature, status, s.chain.height);
      VerdictRetires(s.db, k, ConfirmationVerdict(p, signature, v), ConfirmationResends(p, signature, v), id);
    }
  }

  lemma ReconcileRetires(s: State, k: Id, status: Option<SigStatus>, height: nat, abandoned: bool, id: Id)
    requires Inv(s) && Enabled(s, Reconcile(k, status, height, abandoned))
    requires Retired(s.db, ReconcileTurn(s.db, k, TurnView(s, k, status, height), abandoned), id)
    ensures k == id && ReconcileVerdict(s.db.payouts[id], TurnView(s, id, status, height), abandoned).Fail?
  {
    assert PayoutTracked(s, id);
    if k in s.db.payouts {
      var p, v := s.db.payouts[k], TurnView(s, k, status, height);
      VerdictRetires(s.db, k, ReconcileVerdict(p, v, abandoned), ReconcileResends(p, v), id);
    }
  }

  lemma EventRetiresNone(db: Db, k: Id, id: Id)
    ensures !Retired(db, SettledEvent(db, k), id)
  {
  }

  lemma TurnRetires(s: State, step: ProtocolStep, id: Id)
    requires Inv(s) && Enabled(s, step) && (step.Confirmation? || step.Reconcile? || step.DeliverEvent?)
    requires Retired(s.db, Apply(s, step).db, id)
    ensures WorkerTurn(step, id) && VerdictOf(s, step, id).Fail?
  {
    if step.Confirmation? {
      ConfirmationWritesDb(s, step);
      ConfirmationRetires(s, step.id, step.signature, step.status, id);
    } else if step.Reconcile? {
      ReconcileWritesDb(s, step);
      ReconcileRetires(s, step.id, step.status, step.height, step.abandoned, id);
    } else {
      EventRetiresNone(s.db, step.id, id);
    }
  }

  lemma OthersKeepPayouts(s: State, step: ProtocolStep)
    requires Enabled(s, step)
    requires step.CheckSubmit? || step.Cluster? || step.CalculateBatch? || step.ApproveBatch? || step.RejectBatch? || step.Attach?
    ensures Apply(s, step).db.payouts == s.db.payouts
  {
  }

  lemma RetiringStep(s: State, step: ProtocolStep, id: Id)
    requires Inv(s) && Enabled(s, step) && Retired(s.db, Apply(s, step).db, id)
    ensures step.Legacy? || step.ClaimSubmit? || step.Confirmation? || step.Reconcile? || step.DeliverEvent?
  {
    if step.CreatePayout? {
      CreateRetiresNone(s.db, step.id, step.wallet, s.chain.height, id);
    } else if step.Build? {
      BuildRetiresNone(s.db, step.id, BuildAnswers(s, step), id);
    } else if step.CheckSubmit? || step.Cluster? || step.CalculateBatch? || step.ApproveBatch? || step.RejectBatch? || step.Attach? {
      OthersKeepPayouts(s, step);
    }
  }

  /** Whatever takes a payout out of flight, other than its own settlement, takes it when nothing can pay any more. */
  lemma RetiredCannotPay(s: State, step: ProtocolStep, id: Id)
    requires Inv(s) && Enabled(s, step) && !HastyEvidence(s, step) && !HastyError(s, step)
    requires Retired(s.db, Apply(s, step).db, id)
    ensures NoneCanPay(s, id)
  {
    RetiringStep(s, step, id);
    if step.Legacy? {
      EvidenceRetires(s.db, step.id, step.rail, id);
      QuietCannotPay(s, id);
    } else if step.ClaimSubmit? {
      ClaimRetires(s.db, step.request.id, step.request.tx, step.request.lastValid, step.height, step.sendFailed, id);
      assert PayoutTracked(s, id);
      UnsentCannotPay(s, id);
    } else {
      TurnRetires(s, step, id);
      if VerdictOf(s, step, id) == Fail(OnChainError) {
        FinalErrorCannotPay(s, step, id);
      } else {
        OtherFailuresCannotPay(s, step, id);
      }
    }
  }

  /** And it sends nothing for the payout. */
  lemma RetiredSendsNothing(s: State, step: ProtocolStep, id: Id)
    requires Inv(s) && Enabled(s, step) && Retired(s.db, Apply(s, step).db, id)
    ensures SentBefore(s, Apply(s, step), id)
  {
    RetiringStep(s, step, id);
    if step.ClaimSubmit? {
      ClaimRetires(s.db, step.request.id, step.request.tx, step.request.lastValid, step.height, step.sendFailed, id);
    } else {
      NothingNewIsSent(s, step, id);
    }
  }

  // ----- every careful step, every careful run

  lemma NewPayoutsAreClosed(s: State, step: ProtocolStep, id: Id)
    requires Inv(s) && Enabled(s, step) && id !in s.db.payouts
    ensures Followed(Apply(s, step), id)
  {
    if Rebuilds(step, id) {
      assert Apply(s, step) == s;
    } else if !(step.ClaimSubmit? && step.request.id == id) {
      BuiltHasPayout(s);
      NothingNewIsSent(s, step, id);
    }
  }

  lemma RebuiltIsInFlight(s: State, step: ProtocolStep, id: Id)
    requires Enabled(s, step) && Rebuilds(step, id) && id in s.db.payouts
    ensures Apply(s, step) == s || (id in Apply(s, step).db.payouts && Apply(s, step).db.payouts[id].status == Initiated)
  {
  }

  lemma StepKeepsFollowed(s: State, step: ProtocolStep, id: Id)
    requires Inv(s) && Enabled(s, step) && !HastyEvidence(s, step) && !HastyError(s, step) && Followed(s, id)
    ensures Followed(Apply(s, step), id)
  {
    if id !in s.db.payouts {
      NewPayoutsAreClosed(s, step, id);
    } else if Rebuilds(step, id) {
      RebuiltIsInFlight(s, step, id);
    } else if InFlight(s.db.payouts[id].status) {
      PayoutsStay(s, step, id);
      if Retired(s.db, Apply(s, step).db, id) {
        RetiredCannotPay(s, step, id);
        RetiredSendsNothing(s, step, id);
        StepKeepsNoneCanPay(s, step, id);
      }
    } else if s.db.payouts[id].status == Finalized && s.db.payouts[id].rail == Usdc {
      PayoutsStay(s, step, id);
    } else {
      StepKeepsClosed(s, step, id);
    }
  }

  /** No evidence for a payment that is not quiet, no payout failed for an error that is not final. */
  ghost predicate Careful(s: State, steps: seq<ProtocolStep>)
    decreases |steps|
  {
    steps == []
    || (Enabled(s, steps[0]) && !HastyEvidence(s, steps[0]) && !HastyError(s, steps[0]) && Careful(Apply(s, steps[0]), steps[1..]))
  }

  lemma {:induction false} CarefulRunKeepsFollowed(s: State, steps: seq<ProtocolStep>, s': State, id: Id)
    requires Inv(s) && Run(s, steps, s') && Careful(s, steps) && Followed(s, id)
    ensures Inv(s') && Followed(s', id)
    decreases |steps|
  {
    if steps != [] {
      StepKeepsInv(s, steps[0]);
      StepKeepsFollowed(s, steps[0], id);
      CarefulRunKeepsFollowed(Apply(s, steps[0]), steps[1..], s', id);
    }
  }

  /**
   * After any careful run a payment that is settled, finalized or not yet, has a payout that is
   * finalized as USDC, or in flight and tracking the very transaction that settled it.
   */
  lemma SettledMeansFollowed(s0: State, steps: seq<ProtocolStep>, s: State, id: Id) returns (tx: Tx)
    requires Initial(s0) && Run(s0, steps, s) && Careful(s0, steps) && HasRecord(s, id)
    ensures tx.call.payment == id && SettledBy(s.chain, tx) && id in s.db.payouts
    ensures
      var p := s.db.payouts[id];
      (p.status == Finalized && p.rail == Usdc) || (InFlight(p.status) && p.txSignature == Some(tx) && Current(s.db, p, tx))
  {
    InitialIsOk(s0);
    CarefulRunKeepsFollowed(s0, steps, s, id);
    tx := RecordHasSettler(s, id);
    SettlerIsTracked(s, id, tx);
  }

  lemma SettlerIsTracked(s: State, id: Id, tx: Tx)
    requires Inv(s) && Followed(s, id) && tx in s.built && tx.call.payment == id && SettledBy(s.chain, tx)
    ensures id in s.db.payouts
    ensures
      var p := s.db.payouts[id];
      (p.status == Finalized && p.rail == Usdc) || (InFlight(p.status) && p.txSignature == Some(tx) && Current(s.db, p, tx))
  {
    assert TxOk(s, tx);
    SettledIsSent(s, tx);
    assert !Harmless(s, tx);
  }

  /** In particular one whose settlement is finalized. */
  lemma FinalizedMeansFollowed(s0: State, steps: seq<ProtocolStep>, s: State, id: Id)
    requires Initial(s0) && Run(s0, steps, s) && Careful(s0, steps) && FinalizedRecord(s.chain, id).Some?
    ensures id in s.db.payouts
    ensures (s.db.payouts[id].status == Finalized && s.db.payouts[id].rail == Usdc) || InFlight(s.db.payouts[id].status)
  {
    InitialIsOk(s0);
    RunKeepsInv(s0, steps, s);
    FinalizedIsOnTheFork(s, id);
    var tx := SettledMeansFollowed(s0, steps, s, id);
  }

  // ----- cash and chain together

  /** A payout finalized by evidence has nothing out that could pay it again. */
  ghost predicate PaidOnce(s: State, id: Id) {
    id in s.db.payouts && s.db.payouts[id].status == Finalized && s.db.payouts[id].rail != Usdc ==> NoneCanPay(s, id)
  }

  /** Only accepted evidence finalizes a payout on another rail. */
  lemma OnlyEvidenceIsCash(s: State, step: ProtocolStep, id: Id)
    requires Inv(s) && Enabled(s, step) && !step.Legacy? && id in Apply(s, step).db.payouts
    requires Apply(s, step).db.payouts[id].status == Finalized && Apply(s, step).db.payouts[id].rail != Usdc
    ensures id in s.db.payouts && s.db.payouts[id].status == Finalized && s.db.payouts[id].rail != Usdc
  {
    StepKeepsRails(s, step, id);
    if id in s.db.payouts { assert PayoutTracked(s, id) && PayoutOk(s.db, id); }
  }

  predicate RailsKept(db: Db, db': Db, id: Id) {
    id in db'.payouts && db'.payouts[id].rail != Usdc ==> id in db.payouts && db.payouts[id].rail != Usdc
  }

  lemma CreateKeepsRails(db: Db, k: Id, wallet: Option<Owner>, height: nat, id: Id)
    ensures RailsKept(db, CreateUsdcPayout(db, k, wallet, height), id)
  {
  }

  lemma BuildKeepsRails(db: Db, k: Id, input: BuildInput, id: Id)
    ensures RailsKept(db, BuildTransaction(db, k, input), id)
  {
  }

  lemma ClaimKeepsRails(db: Db, k: Id, tx: Tx, lastValid: nat, height: nat, sendFailed: bool, id: Id)
    ensures RailsKept(db, ClaimSubmission(db, k, tx, lastValid, height, sendFailed), id)
  {
  }

  lemma VerdictKeepsRails(db: Db, k: Id, verdict: Verdict, resends: bool, id: Id)
    ensures RailsKept(db, CountResend(ApplyVerdict(db, k, verdict), k, resends), id)
  {
  }

  lemma WorkerKeepsRails(s: State, step: ProtocolStep, id: Id)
    requires Enabled(s, step) && (step.Confirmation? || step.Reconcile? || step.DeliverEvent?)
    ensures RailsKept(s.db, Apply(s, step).db, id)
  {
    match step
    case Confirmation(k, signature, status) =>
      if k in s.db.payouts {
        var p, v := s.db.payouts[k], View(s, k, signature, status, s.chain.height);
        VerdictKeepsRails(s.db, k, ConfirmationVerdict(p, signature, v), ConfirmationResends(p, signature, v), id);
      }
    case Reconcile(k, status, height, abandoned) =>
      if k in s.db.payouts {
        var p, v := s.db.payouts[k], TurnView(s, k, status, height);
        VerdictKeepsRails(s.db, k, ReconcileVerdict(p, v, abandoned), ReconcileResends(p, v), id);
      }
    case DeliverEvent(_) =>
  }

  /** No other step puts a payout on another rail. */
  lemma StepKeepsRails(s: State, step: ProtocolStep, id: Id)
    requires Enabled(s, step) && !step.Legacy?
    ensures RailsKept(s.db, Apply(s, step).db, id)
  {
    match step
    case CreatePayout(k, wallet) => CreateKeepsRails(s.db, k, wallet, s.chain.height, id);
    case Build(k, _, _, _, _) => BuildKeepsRails(s.db, k, BuildAnswers(s, step), id);
    case ClaimSubmit(r, height, sendFailed) => ClaimKeepsRails(s.db, r.id, r.tx, r.lastValid, height, sendFailed, id);
    case Confirmation(_, _, _) => WorkerKeepsRails(s, step, id);
    case Reconcile(_, _, _, _) => WorkerKeepsRails(s, step, id);
    case DeliverEvent(_) => WorkerKeepsRails(s, step, id);
    case _ =>
  }

  lemma LegacyFinalizes(s: State, step: ProtocolStep, id: Id)
    requires Inv(s) && Enabled(s, step) && step.Legacy? && id in Apply(s, step).db.payouts
    requires !(id in s.db.payouts && Apply(s, step).db.payouts[id] == s.db.payouts[id])
    ensures step.id == id && Accepted(s, id)
  {
  }

  lemma LegacyPaysOnce(s: State, step: ProtocolStep, id: Id)
    requires Inv(s) && Enabled(s, step) && step.Legacy? && !HastyEvidence(s, step) && id in Apply(s, step).db.payouts
    requires !(id in s.db.payouts && Apply(s, step).db.payouts[id] == s.db.payouts[id])
    ensures NoneCanPay(Apply(s, step), id)
  {
    LegacyFinalizes(s, step, id);
    QuietCannotPay(s, id);
    SameNetwork(s, Apply(s, step), id);
  }

  lemma StepKeepsPaidOnce(s: State, step: ProtocolStep, id: Id)
    requires Inv(s) && Enabled(s, step) && !HastyEvidence(s, step) && PaidOnce(s, id)
    ensures PaidOnce(Apply(s, step), id)
  {
    var s' := Apply(s, step);
    if id in s'.db.payouts && s'.db.payouts[id].status == Finalized && s'.db.payouts[id].rail != Usdc {
      if step.Legacy? && !(id in s.db.payouts && s'.db.payouts[id] == s.db.payouts[id]) {
        LegacyPaysOnce(s, step, id);
      } else {
        if !step.Legacy? { OnlyEvidenceIsCash(s, step, id); }
        StepKeepsClosed(s, step, id);
      }
    }
  }

  ghost predicate QuietEvidenceOnly(s: State, steps: seq<ProtocolStep>)
    decreases |steps|
  {
    steps == [] || (Enabled(s, steps[0]) && !HastyEvidence(s, steps[0]) && QuietEvidenceOnly(Apply(s, steps[0]), steps[1..]))
  }

  lemma {:induction false} RunKeepsPaidOnce(s: State, steps: seq<ProtocolStep>, s': State, id: Id)
    requires Inv(s) && Run(s, steps, s') && QuietEvidenceOnly(s, steps) && PaidOnce(s, id)
    ensures Inv(s') && PaidOnce(s', id)
    decreases |steps|
  {
    if steps != [] {
      StepKeepsInv(s, steps[0]);
      StepKeepsPaidOnce(s, steps[0], id);
      RunKeepsPaidOnce(Apply(s, steps[0]), steps[1..], s', id);
    }
  }

  /** What a row was paid by evidence, in base units. */
  function PaidInCash(db: Db, id: Id): int {
    if id in db.payouts && db.payouts[id].status == Finalized && db.payouts[id].rail != Usdc then 10_000 * db.payouts[id].amountUsdCents else 0
  }

  /** And on the chain, on whatever part of the fork. */
  function PaidOnChain(s: State, id: Id): int {
    if HasRecord(s, id) then RecordsAt(s.chain, |s.chain.landed|)[id].amount else 0
  }

  ghost function PaidInAll(s: State, b: Id): map<nat, int> {
    map id | id in s.db.rows && s.db.rows[id].batch == b :: PaidInCash(s.db, id) + PaidOnChain(s, id)
  }

  lemma RowPaidWithinNet(s: State, id: Id)
    requires Inv(s) && PaidOnce(s, id) && id in s.db.rows
    ensures 0 <= PaidInCash(s.db, id) + PaidOnChain(s, id) <= 10_000 * s.db.rows[id].net
  {
    assert RowOk(s.db, id);
    if id in s.db.payouts { assert PayoutOk(s.db, id); }
    if PaidInCash(s.db, id) != 0 { NoRecordWhenClosed(s, id); }
    if HasRecord(s, id) { SettledRow(s, id); }
  }

  /** If evidence was only ever taken for quiet payments, no batch pays more than its pool in cash and on the chain together. */
  lemma CashAndChainWithinPool(s0: State, steps: seq<ProtocolStep>, s: State, b: Id)
    requires Initial(s0) && Run(s0, steps, s) && QuietEvidenceOnly(s0, steps)
    requires b in s.db.batches && CarriesItsPool(s.db.batches[b].status)
    ensures SumMap(PaidInAll(s, b)) <= 10_000 * s.db.batches[b].pool
  {
    InitialIsOk(s0);
    RunKeepsInv(s0, steps, s);
    var paid, net := PaidInAll(s, b), NetOf(s.db.rows, b);
    forall id | id in paid ensures paid[id] <= BaseUnits(net)[id] {
      RunKeepsPaidOnce(s0, steps, s, id);
      RowPaidWithinNet(s, id);
    }
    forall id | id in net ensures 0 <= net[id] {
      assert RowOk(s.db, id);
    }
    SumAtMost(paid, BaseUnits(net));
    SumOfBaseUnits(net);
    assert BatchOk(s.db, b);
  }
}

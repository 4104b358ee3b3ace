/** What holds in every run of the payout protocol. */
module ProtocolTheorems {
  import opened Wrappers
  import opened Sums
  import opened SettlementProgram
  import opened Chain
  import opened BlockhashRules
  import opened Ledger
  import opened PayoutHandlers
  import opened Protocol
  import opened ProtocolInvariant

  // ----- retries never pay twice

  /** It was sent, is not on the surviving fork, and a block may still take it. */
  ghost predicate CanStillLand(s: State, t: Tx) {
    t in s.sent && s.chain.height < t.lastValid && !OnChain(s.chain, t)
  }

  /** When a blockhash is recorded for a payout, every signature sent for it before is expired, and none has paid. */
  lemma NewBlockhashOnlyWhenOldOnesAreSpent(s: State, step: ProtocolStep, t: Tx)
    requires Reachable(s) && step.Build? && Enabled(s, step)
    requires BuildRefusal(s.db, step.id, BuildAnswers(s, step)).None?
    requires t in s.sent && t.call.payment == step.id
    ensures t.lastValid < s.chain.height && !SettledBy(s.chain, t)
  {
    ReachableIsOk(s);
    EarlierAreSpent(s, step, t);
  }

  /** Whatever settlement the cluster takes into a block next is one of these. */
  lemma OnlyTheseLand(s: State, at: Landed)
    requires Enabled(s, Cluster(Land(at))) && at.what.SettleTx?
    ensures CanStillLand(s, at.what.tx)
  {
  }

  /** At most one signature of a payout can still land. */
  lemma AtMostOneCanStillLand(s: State, t: Tx, t': Tx)
    requires Reachable(s) && CanStillLand(s, t) && CanStillLand(s, t') && t.call.payment == t'.call.payment
    ensures t == t'
  {
    ReachableIsOk(s);
    assert OneLiveTx(s);
  }

  /** So whatever settlements of a payment the cluster could take into a block next, they are one and the same. */
  lemma AtMostOneCanLandNext(s: State, at: Landed, at': Landed)
    requires Reachable(s) && Enabled(s, Cluster(Land(at))) && Enabled(s, Cluster(Land(at')))
    requires at.what.SettleTx? && at'.what.SettleTx? && at.what.tx.call.payment == at'.what.tx.call.payment
    ensures at.what == at'.what
  {
    OnlyTheseLand(s, at);
    OnlyTheseLand(s, at');
    AtMostOneCanStillLand(s, at.what.tx, at'.what.tx);
  }

  /** No turn of either handler sends a payout's bytes again and retires the payout. */
  lemma NeverResendsAndRetires(p: Payout, signature: Tx, v: RpcView, abandoned: bool)
    ensures ConfirmationResends(p, signature, v) ==> ConfirmationVerdict(p, signature, v) == Leave
    ensures ReconcileResends(p, v) ==> ReconcileVerdict(p, v, abandoned) == Leave
  {
    NeverResendAndReplace(if v.status.None? then None else Some(v.status.value.level), Expired(p, v.height));
  }

  /** Nor does the surviving fork ever hold two settlements of one payment. */
  lemma OneSettlementOnTheFork(s: State, t: Tx, t': Tx)
    requires Reachable(s) && SettledBy(s.chain, t) && SettledBy(s.chain, t') && t.call.payment == t'.call.payment
    ensures t == t'
  {
    ReachableIsOk(s);
    var i :| LandedAt(s.chain, t, i) && Succeeded(s.chain.genesis, s.chain.landed, i);
    var j :| LandedAt(s.chain, t', j) && Succeeded(s.chain.genesis, s.chain.landed, j);
    if i < j {
      SecondIsRefused(s.chain, t, i, t', j);
    } else if j < i {
      SecondIsRefused(s.chain, t', j, t, i);
    }
  }

  lemma SecondIsRefused(c: ChainState, t: Tx, i: int, t': Tx, j: int)
    requires LandedAt(c, t, i) && Succeeded(c.genesis, c.landed, i) && LandedAt(c, t', j)
    requires t.call.payment == t'.call.payment && i < j
    ensures !Succeeded(c.genesis, c.landed, j)
  {
    SettledLeavesRecord(c, t, i, j);
  }

  // ----- drop verdicts

  lemma {:induction false} RunKeepsDead(s: State, steps: seq<ProtocolStep>, s': State, t: Tx)
    requires Run(s, steps, s') && Dead(s.chain, t)
    ensures Dead(s'.chain, t)
    decreases |steps|
  {
    if steps != [] {
      var next := Apply(s, steps[0]);
      if steps[0].Cluster? {
        DeadStaysDead(s.chain, steps[0].step, t);
      }
      RunKeepsDead(next, steps[1..], s', t);
    }
  }

  /** A payout failed as dropped has a signature in no finalized block, then or in any later state. */
  lemma DropVerdictsAreSound(s: State, id: Id, steps: seq<ProtocolStep>, s': State)
    requires Reachable(s) && id in s.db.payouts && DropVerdict(s.db.payouts[id]) && Run(s, steps, s')
    ensures s.db.payouts[id].txSignature.Some?
    ensures !InFinalizedBlock(s'.chain, s.db.payouts[id].txSignature.value)
  {
    ReachableIsOk(s);
    assert PayoutTracked(s, id);
    var signature := s.db.payouts[id].txSignature.value;
    RunKeepsDead(s, steps, s', signature);
    assert !OnChain(s'.chain, signature);
  }

  predicate Rebuilds(step: ProtocolStep, id: Id) {
    step.Build? && step.id == id
  }

  lemma StepKeepsUnsettled(s: State, step: ProtocolStep, id: Id)
    requires Unsettled(s, id) && Enabled(s, step) && !Rebuilds(step, id)
    ensures Unsettled(Apply(s, step), id)
  {
    var s' := Apply(s, step);
    forall t | t in s'.built && t.call.payment == id ensures Spent(s'.chain, t) {
      assert t in s.built;
      if step.Cluster? { SpentStaysSpent(s.chain, step.step, t); }
    }
  }

  lemma {:induction false} RunKeepsUnsettled(s: State, steps: seq<ProtocolStep>, s': State, id: Id)
    requires Run(s, steps, s') && Unsettled(s, id)
    requires forall i :: 0 <= i < |steps| ==> !Rebuilds(steps[i], id)
    ensures Unsettled(s', id)
    decreases |steps|
  {
    if steps != [] {
      StepKeepsUnsettled(s, steps[0], id);
      RunKeepsUnsettled(Apply(s, steps[0]), steps[1..], s', id);
    }
  }

  /** The transaction behind a record. */
  lemma RecordHasSettler(s: State, id: Id) returns (tx: Tx)
    requires NetworkOk(s) && id in RecordsAt(s.chain, |s.chain.landed|)
    ensures tx in s.built && tx.call.payment == id && SettledBy(s.chain, tx)
    ensures RecordsAt(s.chain, |s.chain.landed|)[id].amount == tx.call.amount
  {
    var i := RecordComesFromTx(s.chain, |s.chain.landed|, id);
    tx := s.chain.landed[i].what.tx;
    assert LandedAt(s.chain, tx, i);
  }

  lemma NoRecordWhenUnsettled(s: State, id: Id)
    requires NetworkOk(s) && Unsettled(s, id)
    ensures id !in RecordsAt(s.chain, |s.chain.landed|)
  {
    if id in RecordsAt(s.chain, |s.chain.landed|) {
      var tx := RecordHasSettler(s, id);
      assert false;
    }
  }

  /** Nor is the payment itself settled, on any fork and for as long as nobody builds it a new transaction. */
  lemma DroppedPaymentStaysUnpaid(s: State, id: Id, steps: seq<ProtocolStep>, s': State)
    requires Reachable(s) && id in s.db.payouts && DropVerdict(s.db.payouts[id]) && Run(s, steps, s')
    requires forall i :: 0 <= i < |steps| ==> !Rebuilds(steps[i], id)
    ensures id !in RecordsAt(s'.chain, |s'.chain.landed|)
  {
    ReachableIsOk(s);
    forall t | t in s.built && t.call.payment == id ensures Spent(s.chain, t) {
      assert TxOk(s, t);
    }
    RunKeepsUnsettled(s, steps, s', id);
    RunKeepsInv(s, steps, s');
    NoRecordWhenUnsettled(s', id);
  }

  // ----- settlements

  ghost predicate RecordStays(c: ChainState, c': ChainState, id: Id) {
    FinalizedRecord(c, id).Some? ==>
      FinalizedRecord(c', id).Some? && SameTerms(FinalizedRecord(c, id).value, FinalizedRecord(c', id).value)
  }

  lemma StepKeepsRecord(s: State, step: ProtocolStep, id: Id)
    requires Inv(s) && Enabled(s, step)
    ensures RecordStays(s.chain, Apply(s, step).chain, id)
  {
    if step.Cluster? && FinalizedRecord(s.chain, id).Some? {
      FinalizedRecordsAreForever(s.chain, step.step, id);
    }
  }

  /** A finalized settlement stays, with its terms, through every later step. */
  lemma {:induction false} SettlementsAreForever(s: State, steps: seq<ProtocolStep>, s': State, id: Id)
    requires Inv(s) && Run(s, steps, s')
    ensures RecordStays(s.chain, s'.chain, id)
    decreases |steps|
  {
    if steps != [] {
      StepKeepsInv(s, steps[0]);
      StepKeepsRecord(s, steps[0], id);
      SettlementsAreForever(Apply(s, steps[0]), steps[1..], s', id);
    }
  }

  /**
   * An allocation is paid exactly when its payout is finalized; a finalized USDC payout has a
   * finalized settlement with exactly its terms: its cents in base units, its wallet and venue,
   * and the allocation hash of its batch.
   */
  lemma PaidMeansSettled(s: State, id: Id)
    requires Reachable(s) && id in s.db.rows
    ensures s.db.rows[id].status == RowPaid <==> id in s.db.payouts && s.db.payouts[id].status == Finalized
    ensures id in s.db.payouts && s.db.payouts[id].status == Finalized && s.db.payouts[id].rail == Usdc ==>
              var p, record := s.db.payouts[id], FinalizedRecord(s.chain, id);
              && record.Some? && record.value.amount == p.amountBaseUnits == 10_000 * p.amountUsdCents
              && p.wallet == Some(record.value.wallet) && p.venue == record.value.venue
              && HashFor(s.db, id) == Some(record.value.allocationHash)
  {
    ReachableIsOk(s);
    assert RowOk(s.db, id);
    if id in s.db.payouts {
      assert PayoutTracked(s, id) && PayoutOk(s.db, id);
    }
  }

  /** The batch status tells the truth about its rows. */
  lemma RollUpIsSound(s: State, b: Id)
    requires Reachable(s) && b in s.db.batches
    ensures s.db.batches[b].status == Payable ==>
              forall id :: id in s.db.rows && InBatch(s.db.rows, b, id) ==> s.db.rows[id].status != RowPaid
    ensures s.db.batches[b].status == PartiallyPaid ==>
              exists id :: id in s.db.rows && InBatch(s.db.rows, b, id) && s.db.rows[id].status == RowPaid
    ensures s.db.batches[b].status == FullyPaid ==>
              forall id :: id in s.db.rows && InBatch(s.db.rows, b, id) ==> s.db.rows[id].status == RowPaid
  {
    ReachableIsOk(s);
    assert BatchOk(s.db, b);
  }

  // ----- money

  /** The rows of a calculated, payable or paid batch carry exactly its pool. */
  lemma RowsCarryThePool(s: State, b: Id)
    requires Reachable(s) && b in s.db.batches && CarriesItsPool(s.db.batches[b].status)
    ensures SumMap(NetOf(s.db.rows, b)) == s.db.batches[b].pool
  {
    ReachableIsOk(s);
    assert BatchOk(s.db, b);
  }

  /** The amounts settled on the surviving fork for the rows of a batch. */
  ghost function SettledOf(s: State, b: Id): map<nat, int> {
    var records := RecordsAt(s.chain, |s.chain.landed|);
    map id | id in s.db.rows && s.db.rows[id].batch == b && id in records :: records[id].amount as int
  }

  function BaseUnits(m: map<nat, int>): map<nat, int> {
    map k | k in m :: 10_000 * m[k]
  }

  lemma {:induction false} SumOfBaseUnits(m: map<nat, int>)
    ensures SumMap(BaseUnits(m)) == 10_000 * SumMap(m)
    decreases |m|
  {
    if m == map[] {
      assert BaseUnits(m) == map[];
    } else {
      var k := Pick(m);
      SumRemove(BaseUnits(m), k);
      assert BaseUnits(m) - {k} == BaseUnits(m - {k});
      SumOfBaseUnits(m - {k});
    }
  }

  lemma SettledRow(s: State, id: Id)
    requires NetworkOk(s) && id in RecordsAt(s.chain, |s.chain.landed|)
    ensures id in s.db.payouts && id in s.db.rows
    ensures RecordsAt(s.chain, |s.chain.landed|)[id].amount <= 10_000 * s.db.rows[id].net
  {
    var tx := RecordHasSettler(s, id);
    assert TxOk(s, tx);
  }

  lemma PaidWithinPool(s: State, b: Id)
    requires Inv(s) && b in s.db.batches && PayoutsOf(s.db, b) != map[]
    ensures SumMap(PayoutsOf(s.db, b)) <= s.db.batches[b].pool
  {
    assert PayoutOk(s.db, Pick(PayoutsOf(s.db, b)));
    PayoutsWithinPool(s.db, b);
  }

  lemma SettledWithinPool(s: State, b: Id)
    requires Inv(s) && b in s.db.batches && SettledOf(s, b) != map[]
    ensures SumMap(SettledOf(s, b)) <= 10_000 * s.db.batches[b].pool
  {
    var settled, net := SettledOf(s, b), NetOf(s.db.rows, b);
    forall id | id in settled ensures id in s.db.payouts && settled[id] <= BaseUnits(net)[id] {
      SettledRow(s, id);
    }
    forall id | id in net ensures 0 <= net[id] {
      assert RowOk(s.db, id);
    }
    assert PayoutOk(s.db, Pick(settled)) && BatchOk(s.db, b);
    SumAtMost(settled, BaseUnits(net));
    SumOfBaseUnits(net);
  }

  /** No batch pays out more than its pool in its payouts, nor, taken alone, on the chain. */
  lemma NoBatchPaysMoreThanItsPool(s: State, b: Id)
    requires Reachable(s) && b in s.db.batches
    ensures PayoutsOf(s.db, b) != map[] ==> SumMap(PayoutsOf(s.db, b)) <= s.db.batches[b].pool
    ensures SettledOf(s, b) != map[] ==> SumMap(SettledOf(s, b)) <= 10_000 * s.db.batches[b].pool
  {
    ReachableIsOk(s);
    if PayoutsOf(s.db, b) != map[] { PaidWithinPool(s, b); }
    if SettledOf(s, b) != map[] { SettledWithinPool(s, b); }
  }

  // ----- nothing stays in flight for ever

  /** The slot a status reports is behind the root. */
  predicate RootPassed(status: Option<SigStatus>, root: nat) {
    status.Some? ==> status.value.slot < root
  }

  /** Past its blockhash and past any observed slot, the next reconcile turn settles the payout's fate. */
  lemma ReconcileResolves(s: State, id: Id, status: Option<SigStatus>, height: nat, abandoned: bool)
    requires Reachable(s) && id in s.db.payouts && InFlight(s.db.payouts[id].status)
    requires Enabled(s, Reconcile(id, status, height, abandoned))
    requires Expired(s.db.payouts[id], height) && RootPassed(status, s.chain.root)
    ensures
      var after := Apply(s, Reconcile(id, status, height, abandoned)).db;
      id in after.payouts && (after.payouts[id].status == Finalized || after.payouts[id].status == Failed)
  {
    ReachableIsOk(s);
    assert PayoutTracked(s, id);
    var p, v := s.db.payouts[id], TurnView(s, id, status, height);
    if p.txSignature.Some? && status.Some? && !status.value.level.AtFinalized? {
      ReportedBehindRootIsGone(s.chain, p.txSignature.value, status.value);
    }
    DecidedBehindRoot(p, v, abandoned);
    VerdictEndsFlight(s.db, id, ReconcileVerdict(p, v, abandoned), ReconcileResends(p, v));
  }

  lemma DecidedBehindRoot(p: Payout, v: RpcView, abandoned: bool)
    requires p.rail == Usdc && InFlight(p.status) && Expired(p, v.height)
    requires p.txSignature.Some? && v.status.Some? && !v.status.value.level.AtFinalized? ==> v.status.value.slot < v.root && !v.finalizedTx
    ensures ReconcileVerdict(p, v, abandoned).Finalize? || ReconcileVerdict(p, v, abandoned).Fail?
  {
  }

  lemma VerdictEndsFlight(db: Db, id: Id, verdict: Verdict, resends: bool)
    requires id in db.payouts && (verdict.Finalize? || verdict.Fail?)
    ensures
      var after := CountResend(ApplyVerdict(db, id, verdict), id, resends);
      id in after.payouts && (after.payouts[id].status == Finalized || after.payouts[id].status == Failed)
  {
  }

  lemma ReportedBehindRootIsGone(c: ChainState, t: Tx, status: SigStatus)
    requires Truthful(c, t, Some(status)) && status.slot < c.root && !status.level.AtFinalized?
    ensures !InFinalizedBlock(c, t)
  {
  }

  /** How long a payout may still be in flight: blocks to its expiry, and one turn. */
  function Patience(s: State, id: Id): nat {
    if id in s.db.payouts && InFlight(s.db.payouts[id].status) then
      var p := s.db.payouts[id];
      1 + (if p.lastValid.Some? && s.chain.height <= p.lastValid.value then p.lastValid.value - s.chain.height + 1 else 0)
    else 0
  }

  /** The payout does not enter flight, nor is it given another expiry height. */
  predicate GetsNoTime(db: Db, db': Db, id: Id) {
    id in db'.payouts && InFlight(db'.payouts[id].status) ==>
      id in db.payouts && InFlight(db.payouts[id].status) && db'.payouts[id].lastValid == db.payouts[id].lastValid
  }

  lemma VerdictGetsNoTime(db: Db, k: Id, verdict: Verdict, resends: bool, id: Id)
    requires verdict == SawConfirmed ==> k in db.payouts && db.payouts[k].status == Submitted
    ensures GetsNoTime(db, CountResend(ApplyVerdict(db, k, verdict), k, resends), id)
  {
  }

  lemma ApiGetsNoTime(s: State, step: ProtocolStep, id: Id)
    requires Enabled(s, step) && !Rebuilds(step, id)
    requires step.CreatePayout? || step.Build? || step.CheckSubmit? || step.ClaimSubmit? || step.Legacy?
    ensures GetsNoTime(s.db, Apply(s, step).db, id)
  {
  }

  lemma WorkerGetsNoTime(s: State, step: ProtocolStep, id: Id)
    requires Enabled(s, step) && (step.Confirmation? || step.Reconcile? || step.DeliverEvent?)
    ensures GetsNoTime(s.db, Apply(s, step).db, id)
  {
    match step
    case Confirmation(k, signature, status) =>
      if k in s.db.payouts {
        var p, v := s.db.payouts[k], View(s, k, signature, status, s.chain.height);
        VerdictGetsNoTime(s.db, k, ConfirmationVerdict(p, signature, v), ConfirmationResends(p, signature, v), id);
      }
    case Reconcile(k, status, height, abandoned) =>
      if k in s.db.payouts {
        var p, v := s.db.payouts[k], TurnView(s, k, status, height);
        VerdictGetsNoTime(s.db, k, ReconcileVerdict(p, v, abandoned), ReconcileResends(p, v), id);
      }
    case DeliverEvent(_) =>
  }

  lemma StepGetsNoTime(s: State, step: ProtocolStep, id: Id)
    requires Enabled(s, step) && !Rebuilds(step, id)
    ensures GetsNoTime(s.db, Apply(s, step).db, id) && s.chain.height <= Apply(s, step).chain.height
  {
    if step.Confirmation? || step.Reconcile? || step.DeliverEvent? {
      WorkerGetsNoTime(s, step, id);
    } else if step.CreatePayout? || step.Build? || step.CheckSubmit? || step.ClaimSubmit? || step.Legacy? {
      ApiGetsNoTime(s, step, id);
    }
  }

  lemma {:induction false} RunGetsNoTime(s: State, steps: seq<ProtocolStep>, s': State, id: Id)
    requires Run(s, steps, s') && forall i :: 0 <= i < |steps| ==> !Rebuilds(steps[i], id)
    ensures GetsNoTime(s.db, s'.db, id) && s.chain.height <= s'.chain.height
    decreases |steps|
  {
    if steps != [] {
      StepGetsNoTime(s, steps[0], id);
      RunGetsNoTime(Apply(s, steps[0]), steps[1..], s', id);
    }
  }

  /**
   * Only a rebuild starts the clock again: in any other run patience never grows, it shrinks
   * with every block as long as there is more than the last turn's worth, and once the
   * height has passed the expiry there is no more than that.
   */
  lemma PatienceNeverGrows(s: State, steps: seq<ProtocolStep>, s': State, id: Id)
    requires Run(s, steps, s') && forall i :: 0 <= i < |steps| ==> !Rebuilds(steps[i], id)
    ensures Patience(s', id) <= Patience(s, id)
    ensures Patience(s, id) > 1 && s.chain.height < s'.chain.height ==> Patience(s', id) < Patience(s, id)
    ensures id in s.db.payouts && s.db.payouts[id].lastValid.Some? && s.db.payouts[id].lastValid.value < s'.chain.height ==>
              Patience(s', id) <= 1
  {
    RunGetsNoTime(s, steps, s', id);
  }

  /** Out of patience, the next turn behind the root ends the flight. */
  lemma LastTurnEndsTheFlight(s: State, id: Id, status: Option<SigStatus>, abandoned: bool)
    requires Reachable(s) && Patience(s, id) == 1
    requires Enabled(s, Reconcile(id, status, s.chain.height, abandoned)) && RootPassed(status, s.chain.root)
    ensures Patience(Apply(s, Reconcile(id, status, s.chain.height, abandoned)), id) == 0
  {
    ReachableIsOk(s);
    assert PayoutTracked(s, id);
    ReconcileResolves(s, id, status, s.chain.height, abandoned);
  }
}

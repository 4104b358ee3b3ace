/**
 * Payments that arrive after their payout was given up on the chain: finalized on another rail
 * on the strength of evidence, or failed for an error that a fork takes back. When that can
 * happen, when it cannot, and what then holds of every run.
 */
module LatePayments {
  import opened Wrappers
  import opened SettlementProgram
  import opened Chain
  import opened Refusals
  import opened Ledger
  import opened PayoutHandlers
  import opened Protocol
  import opened ProtocolInvariant
  import opened ProtocolTheorems
  import opened Shortfalls

  // ----- transactions that cannot pay any more

  /** It is in a block that no rollback reaches. */
  ghost predicate ConfirmedIn(c: ChainState, t: Tx) {
    exists i :: LandedAt(c, t, i) && c.landed[i].height <= c.height
  }

  /** The program's accounts at the confirmed height, and at the end of the fork. */
  function ConfirmedAccounts(c: ChainState): Accounts {
    Replay(c.genesis, c.landed[..ConfirmedLen(c.landed, c.height)])
  }

  function LatestAccounts(c: ChainState): Accounts {
    Replay(c.genesis, c.landed)
  }

  /** It is out of time, was never sent, is in a confirmed block, or the program will never accept it. */
  ghost predicate Hopeless(s: State, t: Tx) {
    t.lastValid <= s.chain.height || t !in s.sent || ConfirmedIn(s.chain, t) || Barred(ConfirmedAccounts(s.chain), t.call)
  }

  /** It has not paid and never will. */
  ghost predicate Harmless(s: State, t: Tx) {
    !SettledBy(s.chain, t) && Hopeless(s, t)
  }

  ghost predicate NoneCanPay(s: State, id: Id) {
    forall t :: t in s.built && t.call.payment == id ==> Harmless(s, t)
  }

  /** A payout that no handler sends anything for, with nothing out that could still pay. */
  ghost predicate Closed(s: State, id: Id) {
    id in s.db.payouts && !InFlight(s.db.payouts[id].status) && NoneCanPay(s, id)
  }

  predicate HasRecord(s: State, id: Id) {
    id in RecordsAt(s.chain, |s.chain.landed|)
  }

  lemma NoRecordWhenClosed(s: State, id: Id)
    requires NetworkOk(s) && NoneCanPay(s, id)
    ensures !HasRecord(s, id)
  {
    if HasRecord(s, id) {
      var tx := RecordHasSettler(s, id);
      assert false;
    }
  }

  lemma FinalizedIsOnTheFork(s: State, id: Id)
    requires NetworkOk(s) && FinalizedRecord(s.chain, id).Some?
    ensures HasRecord(s, id)
  {
    RecordsStay(s.chain, FinalizedLen(s.chain.landed, s.chain.root), id);
  }

  lemma RecordsStay(c: ChainState, n: nat, id: Id)
    requires n <= |c.landed| && id in RecordsAt(c, n)
    ensures id in RecordsAt(c, |c.landed|)
  {
    RecordsSurvive(c.genesis, c.landed, n);
    assert c.landed[..|c.landed|] == c.landed;
  }

  lemma ConfirmedStays(c: ChainState, step: ChainStep, t: Tx)
    requires CanStep(c, step) && ConfirmedIn(c, t)
    ensures ConfirmedIn(Step(c, step), t)
  {
    var i :| LandedAt(c, t, i) && c.landed[i].height <= c.height;
    assert LandedAt(Step(c, step), t, i);
  }

  lemma ConfirmedPrefixGrows(c: ChainState, step: ChainStep)
    requires CanStep(c, step)
    ensures
      var c', n := Step(c, step), ConfirmedLen(c.landed, c.height);
      n <= ConfirmedLen(c'.landed, c'.height) && c'.landed[..n] == c.landed[..n]
  {
    var c', n := Step(c, step), ConfirmedLen(c.landed, c.height);
    if 0 < n {
      assert c.landed[n - 1].height <= c.height;
      assert n <= |c'.landed| && c'.landed[n - 1] == c.landed[n - 1];
    }
  }

  lemma BarredFromPrefix(c: ChainState, n: nat, m: nat, call: SettleCall)
    requires n <= m <= |c.landed| && Barred(Replay(c.genesis, c.landed[..n]), call)
    ensures Barred(Replay(c.genesis, c.landed[..m]), call)
  {
    assert c.landed[..m][..n] == c.landed[..n];
    BarredOnTheFork(c.genesis, c.landed[..m], n, call);
  }

  lemma BarredForGood(c: ChainState, step: ChainStep, call: SettleCall)
    requires CanStep(c, step) && Barred(ConfirmedAccounts(c), call)
    ensures Barred(ConfirmedAccounts(Step(c, step)), call)
  {
    var c' := Step(c, step);
    ConfirmedPrefixGrows(c, step);
    BarredFromPrefix(c', ConfirmedLen(c.landed, c.height), ConfirmedLen(c'.landed, c'.height), call);
  }

  lemma BarredNow(c: ChainState, call: SettleCall)
    requires Barred(ConfirmedAccounts(c), call)
    ensures Barred(LatestAccounts(c), call) && SettleError(LatestAccounts(c), call).Some?
  {
    BarredFromPrefix(c, ConfirmedLen(c.landed, c.height), |c.landed|, call);
    assert c.landed[..|c.landed|] == c.landed;
    BarredIsRefused(LatestAccounts(c), call);
  }

  lemma HopelessStays(s: State, step: ChainStep, t: Tx)
    requires Enabled(s, Cluster(step)) && Hopeless(s, t)
    ensures Hopeless(Apply(s, Cluster(step)), t)
  {
    if ConfirmedIn(s.chain, t) {
      ConfirmedStays(s.chain, step, t);
    } else if Barred(ConfirmedAccounts(s.chain), t.call) {
      BarredForGood(s.chain, step, t.call);
    }
  }

  lemma HarmlessStays(s: State, step: ChainStep, t: Tx)
    requires NetworkOk(s) && Enabled(s, Cluster(step)) && Harmless(s, t)
    ensures Harmless(Apply(s, Cluster(step)), t)
  {
    HopelessStays(s, step, t);
    if SettledBy(Step(s.chain, step), t) {
      if step.Land? && step.at.what == SettleTx(t) {
        LandsToNoAvail(s, step, t);
      } else {
        SettledWasSettled(s.chain, step, t);
      }
      assert false;
    }
  }

  /** If the cluster takes a harmless transaction into a block at all, the program refuses it there. */
  lemma LandsToNoAvail(s: State, step: ChainStep, t: Tx)
    requires NetworkOk(s) && Enabled(s, Cluster(step)) && Harmless(s, t) && step.Land? && step.at.what == SettleTx(t)
    ensures !SettledBy(Step(s.chain, step), t)
  {
    var c, c' := s.chain, Step(s.chain, step);
    BarredNow(c, t.call);
    forall i | LandedAt(c', t, i) ensures !Succeeded(c'.genesis, c'.landed, i) {
      StepKeepsPlaces(c, step, t, i);
      assert c'.landed[..|c.landed|] == c.landed;
    }
  }

  // ----- nothing is built or sent for a payout at rest

  predicate SentBefore(s: State, s': State, id: Id) {
    && (forall t :: t in s'.sent && t.call.payment == id ==> t in s.sent)
    && (forall t :: t in s'.built && t.call.payment == id ==> t in s.built)
  }

  lemma ResendSendsNothingNew(s: State, id: Id, verdict: Verdict, resends: bool)
    requires Inv(s) && id in s.db.payouts && Founded(s, id, verdict)
    ensures Resend(s.(db := CountResend(ApplyVerdict(s.db, id, verdict), id, resends)), id, resends).sent == s.sent
  {
    VerdictKeepsNetwork(s, id, verdict);
    var s1 := s.(db := ApplyVerdict(s.db, id, verdict));
    ResendKeepsNetwork(s1, id, resends);
    ResendKeepsNetwork(s1.(db := CountResend(s1.db, id, resends)), id, resends);
  }

  lemma WorkerSendsNothingNew(s: State, step: ProtocolStep)
    requires Inv(s) && Enabled(s, step) && (step.Confirmation? || step.Reconcile? || step.DeliverEvent?)
    ensures Apply(s, step).sent == s.sent
  {
    match step
    case Confirmation(k, signature, status) =>
      if k in s.db.payouts {
        var v := View(s, k, signature, status, s.chain.height);
        ConfirmationIsFounded(s, k, signature, status);
        ResendSendsNothingNew(s, k, ConfirmationVerdict(s.db.payouts[k], signature, v), ConfirmationResends(s.db.payouts[k], signature, v));
      }
    case Reconcile(k, status, height, abandoned) =>
      if k in s.db.payouts {
        var v := TurnView(s, k, status, height);
        ReconcileIsFounded(s, k, status, height, abandoned);
        ResendSendsNothingNew(s, k, ReconcileVerdict(s.db.payouts[k], v, abandoned), ReconcileResends(s.db.payouts[k], v));
      }
    case DeliverEvent(_) =>
  }

  lemma ClaimSendsNothingNew(s: State, step: ProtocolStep, id: Id)
    requires Enabled(s, step) && step.ClaimSubmit?
    requires step.request in s.requests ==> step.request.tx.call.payment == step.request.id
    requires step.request.id == id ==> id in s.db.payouts && s.db.payouts[id].status != Initiated
    ensures SentBefore(s, Apply(s, step), id)
  {
  }

  lemma BuildSendsNothingNew(s: State, step: ProtocolStep, id: Id)
    requires Enabled(s, step) && step.Build? && step.id != id
    ensures SentBefore(s, Apply(s, step), id)
  {
  }

  /** Only a claim of a payout being initiated sends anything new for it. */
  lemma NothingNewIsSent(s: State, step: ProtocolStep, id: Id)
    requires Inv(s) && Enabled(s, step) && !Rebuilds(step, id)
    requires step.ClaimSubmit? && step.request.id == id ==> id in s.db.payouts && s.db.payouts[id].status != Initiated
    ensures SentBefore(s, Apply(s, step), id)
  {
    if step.Confirmation? || step.Reconcile? || step.DeliverEvent? {
      WorkerSendsNothingNew(s, step);
    } else if step.ClaimSubmit? {
      ClaimSendsNothingNew(s, step, id);
    } else if step.Build? {
      BuildSendsNothingNew(s, step, id);
    }
  }

  lemma StepKeepsNoneCanPay(s: State, step: ProtocolStep, id: Id)
    requires Inv(s) && Enabled(s, step) && NoneCanPay(s, id) && SentBefore(s, Apply(s, step), id)
    ensures NoneCanPay(Apply(s, step), id)
  {
    var s' := Apply(s, step);
    forall t | t in s'.built && t.call.payment == id ensures Harmless(s', t) {
      assert Harmless(s, t);
      if step.Cluster? { HarmlessStays(s, step.step, t); }
    }
  }

  /** A finalized payout is not rebuilt. */
  lemma FinalizedIsNotRebuilt(s: State, step: ProtocolStep, id: Id)
    requires Enabled(s, step) && Rebuilds(step, id) && id in s.db.payouts && s.db.payouts[id].status == Finalized
    ensures Apply(s, step) == s
  {
  }

  lemma StepKeepsClosed(s: State, step: ProtocolStep, id: Id)
    requires Inv(s) && Enabled(s, step) && Closed(s, id)
    requires Rebuilds(step, id) ==> s.db.payouts[id].status == Finalized
    ensures Closed(Apply(s, step), id)
  {
    if Rebuilds(step, id) {
      FinalizedIsNotRebuilt(s, step, id);
    } else {
      NothingNewIsSent(s, step, id);
      StepKeepsNoneCanPay(s, step, id);
      StepGetsNoTime(s, step, id);
      PayoutsStay(s, step, id);
    }
  }

  /** Nobody rebuilds the payout; a finalized one nobody can. */
  predicate LeftAlone(s: State, steps: seq<ProtocolStep>, id: Id) {
    id in s.db.payouts && (s.db.payouts[id].status == Finalized || forall i :: 0 <= i < |steps| ==> !Rebuilds(steps[i], id))
  }

  lemma LeftAloneOn(s: State, steps: seq<ProtocolStep>, id: Id)
    requires Inv(s) && steps != [] && Enabled(s, steps[0]) && LeftAlone(s, steps, id)
    ensures LeftAlone(Apply(s, steps[0]), steps[1..], id)
  {
    PayoutsStay(s, steps[0], id);
  }

  lemma {:induction false} RunKeepsClosed(s: State, steps: seq<ProtocolStep>, s': State, id: Id)
    requires Inv(s) && Run(s, steps, s') && Closed(s, id) && LeftAlone(s, steps, id)
    ensures Inv(s') && Closed(s', id) && !HasRecord(s', id)
    decreases |steps|
  {
    if steps == [] {
      NoRecordWhenClosed(s, id);
    } else {
      LeftAloneOn(s, steps, id);
      StepKeepsInv(s, steps[0]);
      StepKeepsClosed(s, steps[0], id);
      RunKeepsClosed(Apply(s, steps[0]), steps[1..], s', id);
    }
  }

  // ----- transactions that can still pay

  /** The cluster could take the transaction into its next block, and the program would accept it there. */
  ghost predicate CouldPayNext(s: State, t: Tx, at: Landed) {
    && at.what == SettleTx(t) && Enabled(s, Cluster(Land(at)))
    && SettleError(Replay(s.chain.genesis, s.chain.landed), t.call).None?
  }

  lemma LandingSettles(c: ChainState, t: Tx, at: Landed)
    requires at.what == SettleTx(t) && SettleError(Replay(c.genesis, c.landed), t.call).None?
    ensures t.call.payment in RecordsAt(Step(c, Land(at)), |c.landed| + 1)
  {
    var landed := c.landed + [at];
    assert landed[..|landed|] == landed && landed[..|landed| - 1] == c.landed;
  }

  lemma PaysNext(s: State, t: Tx, at: Landed)
    requires CouldPayNext(s, t, at)
    ensures HasRecord(Apply(s, Cluster(Land(at))), t.call.payment) && Apply(s, Cluster(Land(at))).db == s.db
  {
    LandingSettles(s.chain, t, at);
  }

  /** The fork is dropped down to some length, which may be all of it, and then the transaction is accepted. */
  ghost predicate CouldPayAfterDrop(s: State, t: Tx, keep: nat, at: Landed) {
    Enabled(s, Cluster(DropFork(keep))) && CouldPayNext(Apply(s, Cluster(DropFork(keep))), t, at)
  }

  lemma PaysAfterDrop(s: State, t: Tx, keep: nat, at: Landed)
    requires CouldPayAfterDrop(s, t, keep, at)
    ensures
      var dropped := Apply(s, Cluster(DropFork(keep)));
      && Enabled(dropped, Cluster(Land(at)))
      && var paid := Apply(dropped, Cluster(Land(at)));
      HasRecord(paid, t.call.payment) && paid.db == s.db
  {
    PaysNext(Apply(s, Cluster(DropFork(keep))), t, at);
  }

  /** Whatever a handler has written to the tables in between. */
  lemma RewrittenIsPaid(s: State, after: State, t: Tx, keep: nat, at: Landed)
    requires after == s.(db := after.db) && CouldPayAfterDrop(s, t, keep, at)
    ensures CouldPayAfterDrop(after, t, keep, at)
    ensures
      var paid := Apply(Apply(after, Cluster(DropFork(keep))), Cluster(Land(at)));
      HasRecord(paid, t.call.payment) && paid.db == after.db
  {
    PaysAfterDrop(after, t, keep, at);
  }

  /** What could pay, now or after a dropped fork, is not harmless. */
  lemma PayableIsNotHarmless(s: State, t: Tx, keep: nat, at: Landed)
    requires NetworkOk(s) && CouldPayAfterDrop(s, t, keep, at)
    ensures t in s.built && !Harmless(s, t)
  {
    var dropped := Apply(s, Cluster(DropFork(keep)));
    if Harmless(s, t) {
      HopelessStays(s, DropFork(keep), t);
      if ConfirmedIn(dropped.chain, t) {
        assert OnChain(dropped.chain, t);
      } else {
        BarredNow(dropped.chain, t.call);
      }
      assert false;
    }
  }

  lemma SettledHasRecord(s: State, t: Tx)
    requires SettledBy(s.chain, t)
    ensures HasRecord(s, t.call.payment)
  {
    var i :| LandedAt(s.chain, t, i) && Succeeded(s.chain.genesis, s.chain.landed, i);
    SettledLeavesRecord(s.chain, t, i, |s.chain.landed|);
  }

  predicate OnlyCluster(steps: seq<ProtocolStep>) {
    forall i :: 0 <= i < |steps| ==> steps[i].Cluster?
  }

  /** The cluster alone, with no help from the services, can bring the settlement about. */
  ghost predicate ClusterSettles(s: State, id: Id) {
    exists steps, s' :: OnlyCluster(steps) && Run(s, steps, s') && s'.db == s.db && HasRecord(s', id)
  }

  lemma SettlesAlready(s: State, id: Id)
    requires HasRecord(s, id)
    ensures ClusterSettles(s, id)
  {
    assert OnlyCluster([]) && Run(s, [], s);
  }

  lemma SettlesAStepEarlier(s: State, step: ChainStep, id: Id)
    requires Enabled(s, Cluster(step)) && ClusterSettles(Apply(s, Cluster(step)), id)
    ensures ClusterSettles(s, id)
  {
    var next := Apply(s, Cluster(step));
    var steps, s' :| OnlyCluster(steps) && Run(next, steps, s') && s'.db == next.db && HasRecord(s', id);
    var longer := [Cluster(step)] + steps;
    assert longer[1..] == steps && OnlyCluster(longer) && Run(s, longer, s');
  }

  // ----- how the cluster brings a settlement about

  /** Off the fork and in time, with room for blocks of this slot at the next height. */
  ghost predicate Waiting(s: State, t: Tx, slot: nat) {
    && t in s.sent && !OnChain(s.chain, t) && s.chain.height < t.lastValid && s.chain.root < slot
    && (s.chain.landed != [] ==>
          var last := s.chain.landed[|s.chain.landed| - 1];
          last.slot <= slot && last.height <= s.chain.height + 1)
  }

  function NextBlock(s: State, what: Carried, slot: nat, now: int): Landed {
    Landed(what, slot, s.chain.height + 1, now)
  }

  lemma CallLands(s: State, t: Tx, slot: nat, call: Call)
    requires Waiting(s, t, slot) && !call.instruction.SettlePayout?
    ensures
      var step := Cluster(Land(NextBlock(s, OtherCall(call.instruction), slot, call.now)));
      && Enabled(s, step) && Waiting(Apply(s, step), t, slot)
      && LatestAccounts(Apply(s, step).chain) == After(LatestAccounts(s.chain), call.instruction, call.now)
  {
    var at := NextBlock(s, OtherCall(call.instruction), slot, call.now);
    var c' := Step(s.chain, Land(at));
    assert c'.landed[..|s.chain.landed|] == s.chain.landed;
    forall i ensures !LandedAt(c', t, i) {
      assert !LandedAt(s.chain, t, i);
    }
  }

  lemma PaysAtOnce(s: State, t: Tx, slot: nat)
    requires Waiting(s, t, slot) && SettleError(LatestAccounts(s.chain), t.call).None?
    ensures ClusterSettles(s, t.call.payment)
  {
    var at := NextBlock(s, SettleTx(t), slot, 0);
    PaysNext(s, t, at);
    SettlesAlready(Apply(s, Cluster(Land(at))), t.call.payment);
    SettlesAStepEarlier(s, Land(at), t.call.payment);
  }

  /** The state after the call has landed. */
  lemma AfterACall(s: State, t: Tx, slot: nat, call: Call) returns (at: Landed, next: State)
    requires Waiting(s, t, slot) && !call.instruction.SettlePayout?
    ensures Enabled(s, Cluster(Land(at))) && next == Apply(s, Cluster(Land(at))) && Waiting(next, t, slot)
    ensures LatestAccounts(next.chain) == After(LatestAccounts(s.chain), call.instruction, call.now)
  {
    at := NextBlock(s, OtherCall(call.instruction), slot, call.now);
    CallLands(s, t, slot, call);
    next := Apply(s, Cluster(Land(at)));
  }

  lemma {:induction false} PaysAfterCalls(s: State, t: Tx, slot: nat, calls: seq<Call>)
    requires Waiting(s, t, slot) && NoSettlement(calls) && SettleError(RunCalls(LatestAccounts(s.chain), calls), t.call).None?
    ensures ClusterSettles(s, t.call.payment)
    decreases |calls|
  {
    if calls == [] {
      PaysAtOnce(s, t, slot);
    } else {
      var at, next := AfterACall(s, t, slot, calls[0]);
      RunUnfolds(LatestAccounts(s.chain), calls);
      PaysAfterCalls(next, t, slot, calls[1..]);
      SettlesAStepEarlier(s, Land(at), t.call.payment);
    }
  }

  /** The fork down to its confirmed blocks. */
  lemma DropsToConfirmed(s: State, t: Tx) returns (slot: nat)
    requires WellFormed(s.chain) && !Harmless(s, t) && !SettledBy(s.chain, t)
    ensures
      var step := Cluster(DropFork(ConfirmedLen(s.chain.landed, s.chain.height)));
      && Enabled(s, step) && Waiting(Apply(s, step), t, slot)
      && LatestAccounts(Apply(s, step).chain) == ConfirmedAccounts(s.chain)
  {
    var c, n := s.chain, ConfirmedLen(s.chain.landed, s.chain.height);
    slot := c.root + 1 + if n == 0 then 0 else c.landed[n - 1].slot;
    forall i ensures !LandedAt(Step(c, DropFork(n)), t, i) {
      if 0 <= i < n {
        PrefixesByPosition(c, i);
        assert !LandedAt(c, t, i);
      }
    }
  }

  /** Where a vault is to be paid, the payment fits. A wallet too full for it counts as barred. */
  predicate VaultsHaveRoom(s: State, id: Id) {
    forall t :: t in s.sent && t.call.payment == id && t.call.wallet.Vault? ==> HasRoom(ConfirmedAccounts(s.chain), t.call)
  }

  /** What is not harmless the cluster can make pay, whatever it failed for on a fork that is not confirmed. */
  lemma NotHarmlessCanPay(s: State, t: Tx)
    requires Inv(s) && VaultsHaveRoom(s, t.call.payment) && !Harmless(s, t)
    ensures ClusterSettles(s, t.call.payment)
  {
    if SettledBy(s.chain, t) {
      SettledHasRecord(s, t);
      SettlesAlready(s, t.call.payment);
    } else {
      var slot := DropsToConfirmed(s, t);
      var keep := ConfirmedLen(s.chain.landed, s.chain.height);
      PaysWhenCured(Apply(s, Cluster(DropFork(keep))), t, slot);
      SettlesAStepEarlier(s, DropFork(keep), t.call.payment);
    }
  }

  lemma PaysWhenCured(s: State, t: Tx, slot: nat)
    requires Waiting(s, t, slot) && !Barred(LatestAccounts(s.chain), t.call) && HasRoom(LatestAccounts(s.chain), t.call)
    ensures ClusterSettles(s, t.call.payment)
  {
    var a := LatestAccounts(s.chain);
    if t.call.payment in a.records {
      assert s.chain.landed[..|s.chain.landed|] == s.chain.landed;
      SettlesAlready(s, t.call.payment);
    } else {
      CuresWork(a, t.call);
      PaysAfterCalls(s, t, slot, Cures(a, t.call));
    }
  }

  /** In no run from here that leaves the payout alone is the payment ever settled. */
  ghost predicate NeverSettles(s: State, id: Id) {
    forall steps, s' :: Run(s, steps, s') && LeftAlone(s, steps, id) ==> !HasRecord(s', id)
  }

  lemma ClosedNeverSettles(s: State, id: Id)
    requires Inv(s) && Closed(s, id)
    ensures NeverSettles(s, id)
  {
    forall steps, s' | Run(s, steps, s') && LeftAlone(s, steps, id) ensures !HasRecord(s', id) {
      RunKeepsClosed(s, steps, s', id);
    }
  }

  lemma ClusterIsARun(s: State, id: Id)
    requires ClusterSettles(s, id) && id in s.db.payouts
    ensures !NeverSettles(s, id)
  {
    var steps, s' :| OnlyCluster(steps) && Run(s, steps, s') && s'.db == s.db && HasRecord(s', id);
    assert LeftAlone(s, steps, id);
  }

  /**
   * A payout out of flight, failed or finalized for whatever reason, is never settled afterwards
   * if and only if nothing that is out can still pay; otherwise the cluster alone can settle it.
   */
  lemma NeverSettlesIff(s: State, id: Id)
    requires Inv(s) && id in s.db.payouts && !InFlight(s.db.payouts[id].status) && VaultsHaveRoom(s, id)
    ensures NeverSettles(s, id) <==> NoneCanPay(s, id)
    ensures ClusterSettles(s, id) <==> !NoneCanPay(s, id)
  {
    if NoneCanPay(s, id) {
      ClosedNeverSettles(s, id);
      if ClusterSettles(s, id) { ClusterIsARun(s, id); }
    } else {
      var t :| t in s.built && t.call.payment == id && !Harmless(s, t);
      NotHarmlessCanPay(s, t);
      ClusterIsARun(s, id);
    }
  }

  lemma SameNetwork(s: State, s': State, id: Id)
    requires s' == s.(db := s'.db)
    ensures NoneCanPay(s', id) == NoneCanPay(s, id) && VaultsHaveRoom(s', id) == VaultsHaveRoom(s, id)
  {
    forall t ensures Harmless(s', t) == Harmless(s, t) {
    }
  }

  // ----- evidence

  /**
   * What could be checked before accepting evidence: nothing was ever built, or the last
   * blockhash is out of time, or nothing was submitted under it; and there is no record yet.
   */
  predicate Quiet(s: State, id: Id) {
    && ConfirmedRecord(s.chain, id).None?
    && (id in s.db.payouts ==>
          var p := s.db.payouts[id];
          p.lastValid.None? || Expired(p, s.chain.height) || (InFlight(p.status) && p.txSignature.None?))
  }

  lemma UnsentCannotPay(s: State, id: Id)
    requires Inv(s) && id in s.db.payouts && InFlight(s.db.payouts[id].status) && s.db.payouts[id].txSignature.None?
    ensures NoneCanPay(s, id)
  {
    forall t | t in s.built && t.call.payment == id ensures Harmless(s, t) {
      assert TxOk(s, t);
      if SettledBy(s.chain, t) { SettledIsSent(s, t); }
    }
  }

  lemma OutOfTimeCannotPay(s: State, id: Id)
    requires Inv(s) && id in s.db.payouts && ConfirmedRecord(s.chain, id).None?
    requires s.db.payouts[id].lastValid.None? || Expired(s.db.payouts[id], s.chain.height)
    ensures NoneCanPay(s, id)
  {
    forall t | t in s.built && t.call.payment == id ensures Harmless(s, t) {
      assert TxOk(s, t);
      if SettledBy(s.chain, t) { ExpiredSettlementIsVisible(s.chain, t); }
    }
  }

  lemma QuietCannotPay(s: State, id: Id)
    requires Inv(s) && Quiet(s, id)
    ensures NoneCanPay(s, id)
  {
    if id !in s.db.payouts {
      BuiltHasPayout(s);
    } else if s.db.payouts[id].lastValid.None? || Expired(s.db.payouts[id], s.chain.height) {
      OutOfTimeCannotPay(s, id);
    } else {
      UnsentCannotPay(s, id);
    }
  }

  lemma BuiltHasPayout(s: State)
    requires Inv(s)
    ensures forall t :: t in s.built ==> t.call.payment in s.db.payouts
  {
    forall t | t in s.built ensures t.call.payment in s.db.payouts {
      assert TxOk(s, t);
    }
  }

  /** The evidence is taken: the payout becomes finalized on its rail. */
  predicate Accepted(s: State, id: Id) {
    LegacyRefusal(s.db, id).None? && s.db.rows[id].status != RowPaid
  }

  lemma EvidenceWrites(s: State, id: Id, rail: Rail)
    requires Inv(s) && rail != Usdc && Accepted(s, id)
    ensures
      var s' := Apply(s, Legacy(id, rail));
      && s' == s.(db := s'.db) && id in s'.db.payouts
      && s'.db.payouts[id].status == Finalized && s'.db.payouts[id].rail == rail
  {
  }

  lemma QuietEvidenceCloses(s: State, id: Id, rail: Rail)
    requires Inv(s) && rail != Usdc && Accepted(s, id) && Quiet(s, id) && Enabled(s, Legacy(id, rail))
    ensures
      var after := Apply(s, Legacy(id, rail));
      Inv(after) && Closed(after, id) && after.db.payouts[id].status == Finalized && after.db.payouts[id].rail == rail
  {
    QuietCannotPay(s, id);
    EvidenceWrites(s, id, rail);
    StepKeepsInv(s, Legacy(id, rail));
    SameNetwork(s, Apply(s, Legacy(id, rail)), id);
  }

  lemma ClosedIsTheLastWord(s: State, id: Id, steps: seq<ProtocolStep>, s': State)
    requires Inv(s) && Closed(s, id) && s.db.payouts[id].status == Finalized && Run(s, steps, s')
    ensures !HasRecord(s', id) && id in s'.db.payouts && s'.db.payouts[id] == s.db.payouts[id]
  {
    RunKeepsClosed(s, steps, s', id);
    FinalizedIsForGood(s, steps, s', id);
  }

  /** Evidence for a payment that is quiet is the last word: it is never settled on the chain as well. */
  lemma QuietEvidenceIsFinal(s: State, id: Id, rail: Rail, steps: seq<ProtocolStep>, s': State)
    requires Inv(s) && rail != Usdc && Accepted(s, id) && Quiet(s, id)
    requires Enabled(s, Legacy(id, rail)) && Run(Apply(s, Legacy(id, rail)), steps, s')
    ensures !HasRecord(s', id) && id in s'.db.payouts && s'.db.payouts[id].status == Finalized && s'.db.payouts[id].rail == rail
  {
    QuietEvidenceCloses(s, id, rail);
    ClosedIsTheLastWord(Apply(s, Legacy(id, rail)), id, steps, s');
  }

  /** If a sent transaction could pay, now or after a dropped fork, evidence accepted now can be followed by the settlement: the share is paid twice. */
  lemma EvidenceCanBePaidTwice(s: State, id: Id, rail: Rail, t: Tx, keep: nat, at: Landed)
    requires Inv(s) && rail != Usdc && Accepted(s, id) && Enabled(s, Legacy(id, rail))
    requires t.call.payment == id && CouldPayAfterDrop(s, t, keep, at)
    ensures
      var after := Apply(s, Legacy(id, rail));
      && CouldPayAfterDrop(after, t, keep, at)
      && var twice := Apply(Apply(after, Cluster(DropFork(keep))), Cluster(Land(at)));
      HasRecord(twice, id) && id in twice.db.payouts && twice.db.payouts[id].status == Finalized && twice.db.payouts[id].rail == rail
  {
    EvidenceWrites(s, id, rail);
    RewrittenIsPaid(s, Apply(s, Legacy(id, rail)), t, keep, at);
  }

  /**
   * Evidence is final, and no run ever settles the payment as well, if and only if nothing that
   * is out can still pay; otherwise the cluster alone can settle what was paid already.
   */
  lemma EvidenceIsFinalIff(s: State, id: Id, rail: Rail)
    requires Inv(s) && rail != Usdc && Accepted(s, id) && Enabled(s, Legacy(id, rail)) && VaultsHaveRoom(s, id)
    ensures NeverSettles(Apply(s, Legacy(id, rail)), id) <==> NoneCanPay(s, id)
    ensures ClusterSettles(Apply(s, Legacy(id, rail)), id) <==> !NoneCanPay(s, id)
  {
    EvidenceWrites(s, id, rail);
    StepKeepsInv(s, Legacy(id, rail));
    RewrittenSettlesIff(s, Apply(s, Legacy(id, rail)), id);
  }

  lemma RewrittenSettlesIff(s: State, after: State, id: Id)
    requires Inv(after) && after == s.(db := after.db) && VaultsHaveRoom(s, id)
    requires id in after.db.payouts && !InFlight(after.db.payouts[id].status)
    ensures NeverSettles(after, id) <==> NoneCanPay(s, id)
    ensures ClusterSettles(after, id) <==> !NoneCanPay(s, id)
  {
    SameNetwork(s, after, id);
    NeverSettlesIff(after, id);
  }
}

/**
 * What a payout still lacks of its row's money. A payout is made for the whole net; only a
 * held share merged into the row afterwards opens a gap, and only a new payout closes it.
 */
module Shortfalls {
  import opened Wrappers
  import opened SettlementProgram
  import opened Chain
  import opened Ledger
  import opened PayoutHandlers
  import opened LedgerHandlers
  import opened LedgerInvariant
  import opened Protocol
  import opened ProtocolInvariant
  import Engine = AllocationEngine

  function Shortfall(db: Db, id: Id): int {
    if id in db.payouts && id in db.rows then db.rows[id].net - db.payouts[id].amountUsdCents else 0
  }

  /** A failed payout is made anew, for what its row carries now. */
  predicate StartsAnew(s: State, step: ProtocolStep, id: Id) {
    step.CreatePayout? && step.id == id && id in s.db.payouts && s.db.payouts[id].status == Failed
    && CreateRefusal(s.db, id, step.wallet, s.chain.height).None?
  }

  /** The cents a step merges into a row that has its payout already. */
  function MergedInto(s: State, step: ProtocolStep, id: Id): int {
    if step.Attach? && step.existing == Some(id) && step.held in s.db.rows && id in s.db.payouts then s.db.rows[step.held].net else 0
  }

  /** What a step makes of a shortfall: it adds what it merges in, or starts anew at nothing. */
  function ShortfallAfter(s: State, step: ProtocolStep, id: Id, sofar: int): int {
    if StartsAnew(s, step, id) then 0 else sofar + MergedInto(s, step, id)
  }

  // ----- one step

  lemma CreateShortfall(db: Db, k: Id, wallet: Option<Owner>, height: nat, id: Id)
    requires LedgerOk(db)
    ensures Shortfall(CreateUsdcPayout(db, k, wallet, height), id) ==
            if k == id && CreateRefusal(db, k, wallet, height).None? && id in db.payouts && db.payouts[id].status == Failed
            then 0 else Shortfall(db, id)
  {
    CreateKeepsRowNets(db, k, wallet, height, id);
    CreateMakesWhole(db, k, wallet, height, id);
  }

  lemma CreateKeepsRowNets(db: Db, k: Id, wallet: Option<Owner>, height: nat, id: Id)
    ensures
      var db' := CreateUsdcPayout(db, k, wallet, height);
      (id in db'.rows <==> id in db.rows) && (id in db.rows ==> db'.rows[id].net == db.rows[id].net)
  {
  }

  /** Create makes or remakes this payout for its row's net, or leaves it. */
  lemma CreateMakesWhole(db: Db, k: Id, wallet: Option<Owner>, height: nat, id: Id)
    ensures
      var db', made := CreateUsdcPayout(db, k, wallet, height),
        k == id && CreateRefusal(db, k, wallet, height).None? && (id in db.payouts ==> db.payouts[id].status == Failed);
      if made then id in db.rows && id in db'.payouts && db'.payouts[id].amountUsdCents == db.rows[id].net
      else (id in db'.payouts <==> id in db.payouts) && (id in db.payouts ==> db'.payouts[id] == db.payouts[id])
  {
  }

  lemma LegacyShortfall(db: Db, k: Id, rail: Rail, id: Id)
    requires LedgerOk(db)
    ensures Shortfall(RegisterLegacyEvidence(db, k, rail), id) == Shortfall(db, id)
  {
  }

  /** No verdict, resend, rebuild, claim or event touches an amount. */
  lemma WorkerShortfall(db: Db, k: Id, verdict: Verdict, resends: bool, id: Id)
    ensures Shortfall(CountResend(ApplyVerdict(db, k, verdict), k, resends), id) == Shortfall(db, id)
  {
  }

  lemma CalculateShortfall(db: Db, b: Id, venue: Id, a: Engine.Allocation, hash: Hash, ids: seq<Id>, rails: map<Id, Rail>, id: Id)
    requires LedgerOk(db) && FreshIds(db, ids, |a.shares|)
    ensures Shortfall(Calculate(db, b, venue, a, hash, ids, rails), id) == Shortfall(db, id)
  {
    if id in db.payouts {
      assert PayoutOk(db, id);
      PaidRowsStay(db, b, venue, a, hash, ids, rails, id);
    }
  }

  lemma AttachShortfall(db: Db, held: Id, worker: Id, existing: Option<Id>, id: Id)
    requires LedgerOk(db) && IsHeld(db, held) && FindsOwnRow(db, db.rows[held].batch, worker, existing)
    ensures existing.Some? ==> existing.value in db.rows && existing.value != held
    ensures Shortfall(AttachHeld(db, held, worker, existing), id) ==
            Shortfall(db, id) + if existing == Some(id) && id in db.payouts then db.rows[held].net else 0
  {
    assert RowOk(db, held);
  }

  lemma BuildShortfall(db: Db, k: Id, input: BuildInput, id: Id)
    ensures Shortfall(BuildTransaction(db, k, input), id) == Shortfall(db, id)
  {
  }

  lemma ClaimShortfall(db: Db, k: Id, tx: Tx, lastValid: nat, height: nat, sendFailed: bool, id: Id)
    ensures Shortfall(ClaimSubmission(db, k, tx, lastValid, height, sendFailed), id) == Shortfall(db, id)
  {
  }

  lemma ApiShortfall(s: State, step: ProtocolStep, id: Id)
    requires Inv(s) && Enabled(s, step)
    requires step.CreatePayout? || step.Build? || step.CheckSubmit? || step.ClaimSubmit? || step.Legacy?
    ensures Shortfall(Apply(s, step).db, id) == if StartsAnew(s, step, id) then 0 else Shortfall(s.db, id)
  {
    match step
    case CreatePayout(k, wallet) => CreateShortfall(s.db, k, wallet, s.chain.height, id);
    case Legacy(k, rail) => LegacyShortfall(s.db, k, rail, id);
    case Build(k, _, _, _, _) => BuildShortfall(s.db, k, BuildAnswers(s, step), id);
    case CheckSubmit(_, _) =>
    case ClaimSubmit(r, height, sendFailed) => ClaimShortfall(s.db, r.id, r.tx, r.lastValid, height, sendFailed, id);
  }

  lemma WorkerStepShortfall(s: State, step: ProtocolStep, id: Id)
    requires Enabled(s, step) && (step.Confirmation? || step.Reconcile? || step.DeliverEvent?)
    ensures Shortfall(Apply(s, step).db, id) == Shortfall(s.db, id)
  {
    match step
    case Confirmation(k, signature, status) =>
      if k in s.db.payouts {
        var p, v := s.db.payouts[k], View(s, k, signature, status, s.chain.height);
        WorkerShortfall(s.db, k, ConfirmationVerdict(p, signature, v), ConfirmationResends(p, signature, v), id);
      }
    case Reconcile(k, status, height, abandoned) =>
      if k in s.db.payouts {
        var p, v := s.db.payouts[k], TurnView(s, k, status, height);
        WorkerShortfall(s.db, k, ReconcileVerdict(p, v, abandoned), ReconcileResends(p, v), id);
      }
    case DeliverEvent(_) =>
  }

  /** Every step of the protocol moves a payout's shortfall by exactly what it merges in, or starts it anew at nothing. */
  lemma StepMovesShortfall(s: State, step: ProtocolStep, id: Id)
    requires Inv(s) && Enabled(s, step)
    ensures Shortfall(Apply(s, step).db, id) == ShortfallAfter(s, step, id, Shortfall(s.db, id))
  {
    if step.CreatePayout? || step.Build? || step.CheckSubmit? || step.ClaimSubmit? || step.Legacy? {
      ApiShortfall(s, step, id);
    } else if step.Confirmation? || step.Reconcile? || step.DeliverEvent? {
      WorkerStepShortfall(s, step, id);
    } else if step.CalculateBatch? {
      CalculateShortfall(s.db, step.b, step.venue, step.allocation, step.hash, step.ids, step.rails, id);
    } else if step.Attach? {
      AttachShortfall(s.db, step.held, step.worker, step.existing, id);
    }
  }

  /** A payout of its row's whole net stays one, whatever its status, unless a share worth something is merged in. */
  lemma WholeUntilAMerge(s: State, step: ProtocolStep, id: Id)
    requires Inv(s) && Enabled(s, step) && id in s.db.payouts && s.db.payouts[id].amountUsdCents == s.db.rows[id].net
    ensures
      var after := Apply(s, step).db;
      && id in after.payouts && id in after.rows
      && (after.payouts[id].amountUsdCents == after.rows[id].net
          <==> !(step.Attach? && step.existing == Some(id) && s.db.rows[step.held].net != 0))
  {
    StepMovesShortfall(s, step, id);
    StepKeepsInv(s, step);
    PayoutsStay(s, step, id);
    assert PayoutOk(Apply(s, step).db, id);
  }

  // ----- payouts stay, finalized ones as they are

  predicate Persists(db: Db, db': Db, id: Id) {
    id in db.payouts ==> id in db'.payouts && (db.payouts[id].status == Finalized ==> db'.payouts[id] == db.payouts[id])
  }

  lemma VerdictPersists(db: Db, k: Id, verdict: Verdict, resends: bool, id: Id)
    requires k in db.payouts && db.payouts[k].status == Finalized ==> verdict == Leave
    ensures Persists(db, CountResend(ApplyVerdict(db, k, verdict), k, resends), id)
  {
  }

  lemma WorkerPersists(s: State, step: ProtocolStep, id: Id)
    requires Enabled(s, step) && (step.Confirmation? || step.Reconcile? || step.DeliverEvent?)
    ensures Persists(s.db, Apply(s, step).db, id)
  {
    match step
    case Confirmation(k, signature, status) =>
      if k in s.db.payouts {
        var p, v := s.db.payouts[k], View(s, k, signature, status, s.chain.height);
        VerdictPersists(s.db, k, ConfirmationVerdict(p, signature, v), ConfirmationResends(p, signature, v), id);
      }
    case Reconcile(k, status, height, abandoned) =>
      if k in s.db.payouts {
        var p, v := s.db.payouts[k], TurnView(s, k, status, height);
        VerdictPersists(s.db, k, ReconcileVerdict(p, v, abandoned), ReconcileResends(p, v), id);
      }
    case DeliverEvent(_) =>
  }

  lemma CreatePersists(db: Db, k: Id, wallet: Option<Owner>, height: nat, id: Id)
    ensures Persists(db, CreateUsdcPayout(db, k, wallet, height), id)
  {
  }

  lemma LegacyPersists(db: Db, k: Id, rail: Rail, id: Id)
    requires LedgerOk(db)
    ensures Persists(db, RegisterLegacyEvidence(db, k, rail), id)
  {
    assert k in db.rows ==> RowOk(db, k);
  }

  lemma BuildPersists(db: Db, k: Id, input: BuildInput, id: Id)
    ensures Persists(db, BuildTransaction(db, k, input), id)
  {
  }

  lemma ApiPersists(s: State, step: ProtocolStep, id: Id)
    requires Inv(s) && Enabled(s, step)
    requires step.CreatePayout? || step.Build? || step.Legacy?
    ensures Persists(s.db, Apply(s, step).db, id)
  {
    match step
    case CreatePayout(k, wallet) => CreatePersists(s.db, k, wallet, s.chain.height, id);
    case Legacy(k, rail) => LegacyPersists(s.db, k, rail, id);
    case Build(k, _, _, _, _) => BuildPersists(s.db, k, BuildAnswers(s, step), id);
  }

  lemma SubmitPersists(s: State, step: ProtocolStep, id: Id)
    requires Enabled(s, step) && (step.CheckSubmit? || step.ClaimSubmit?)
    ensures Persists(s.db, Apply(s, step).db, id)
  {
  }

  lemma PayoutsStay(s: State, step: ProtocolStep, id: Id)
    requires Inv(s) && Enabled(s, step)
    ensures Persists(s.db, Apply(s, step).db, id)
  {
    if step.CreatePayout? || step.Build? || step.Legacy? {
      ApiPersists(s, step, id);
    } else if step.CheckSubmit? || step.ClaimSubmit? {
      SubmitPersists(s, step, id);
    } else if step.Confirmation? || step.Reconcile? || step.DeliverEvent? {
      WorkerPersists(s, step, id);
    }
  }

  /** A finalized payout never changes again. */
  lemma {:induction false} FinalizedIsForGood(s: State, steps: seq<ProtocolStep>, s': State, id: Id)
    requires Inv(s) && Run(s, steps, s') && id in s.db.payouts && s.db.payouts[id].status == Finalized
    ensures id in s'.db.payouts && s'.db.payouts[id] == s.db.payouts[id]
    decreases |steps|
  {
    if steps != [] {
      PayoutsStay(s, steps[0], id);
      StepKeepsInv(s, steps[0]);
      FinalizedIsForGood(Apply(s, steps[0]), steps[1..], s', id);
    }
  }

  // ----- runs

  /** The cents merged into a row since its payout was last made, counted on from `sofar`. */
  ghost function MergedSince(s: State, steps: seq<ProtocolStep>, id: Id, sofar: int): int
    decreases |steps|
  {
    if steps == [] || !Enabled(s, steps[0]) then sofar
    else MergedSince(Apply(s, steps[0]), steps[1..], id, ShortfallAfter(s, steps[0], id, sofar))
  }

  lemma {:induction false} RunMovesShortfall(s: State, steps: seq<ProtocolStep>, s': State, id: Id, sofar: int)
    requires Inv(s) && Run(s, steps, s') && Shortfall(s.db, id) == sofar
    ensures Shortfall(s'.db, id) == MergedSince(s, steps, id, sofar)
    decreases |steps|
  {
    if steps != [] {
      var next, moved := Apply(s, steps[0]), ShortfallAfter(s, steps[0], id, sofar);
      StepMovesShortfall(s, steps[0], id);
      StepKeepsInv(s, steps[0]);
      RunMovesShortfall(next, steps[1..], s', id, moved);
    }
  }

  /** In every run from the start, a payout lacks exactly the cents merged into its row since it was made. */
  lemma PayoutsLackWhatWasMerged(s0: State, steps: seq<ProtocolStep>, s: State, id: Id)
    requires Initial(s0) && Run(s0, steps, s) && id in s.db.payouts
    ensures id in s.db.rows && s.db.rows[id].net - s.db.payouts[id].amountUsdCents == MergedSince(s0, steps, id, 0)
    ensures s.db.payouts[id].amountUsdCents == s.db.rows[id].net <==> MergedSince(s0, steps, id, 0) == 0
  {
    InitialIsOk(s0);
    RunKeepsInv(s0, steps, s);
    RunMovesShortfall(s0, steps, s, id, 0);
    assert PayoutOk(s.db, id);
  }

  /** The cents a run merges into a row. */
  ghost function MergedBy(s: State, steps: seq<ProtocolStep>, id: Id): int
    decreases |steps|
  {
    if steps == [] || !Enabled(s, steps[0]) then 0
    else MergedInto(s, steps[0], id) + MergedBy(Apply(s, steps[0]), steps[1..], id)
  }

  /** Cents merged into a row after its payout is finalized stay unpaid for ever. */
  lemma {:induction false} MergedAfterwardsStaysUnpaid(s: State, steps: seq<ProtocolStep>, s': State, id: Id)
    requires Inv(s) && Run(s, steps, s') && id in s.db.payouts && s.db.payouts[id].status == Finalized
    ensures id in s'.db.rows && id in s'.db.payouts && s'.db.payouts[id] == s.db.payouts[id]
    ensures s'.db.rows[id].net - s'.db.payouts[id].amountUsdCents
         == s.db.rows[id].net - s.db.payouts[id].amountUsdCents + MergedBy(s, steps, id)
    decreases |steps|
  {
    assert PayoutOk(s.db, id);
    if steps != [] {
      var next := Apply(s, steps[0]);
      StepMovesShortfall(s, steps[0], id);
      PayoutsStay(s, steps[0], id);
      StepKeepsInv(s, steps[0]);
      assert PayoutOk(next.db, id);
      MergedAfterwardsStaysUnpaid(next, steps[1..], s', id);
    }
  }
}

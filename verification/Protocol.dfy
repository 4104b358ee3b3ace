/**
 * The payout protocol as one transition system: the shared rows, every transaction ever
 * built and every one ever sent, the submit requests between their check and their claim,
 * and the cluster. Each handler, and each payout's turn in a sweep, is one step; a submit is
 * two, because two tabs may both pass the check. Sending and landing are separate steps.
 */
module Protocol {
  import opened Wrappers
  import opened SettlementProgram
  import opened Chain
  import opened Ledger
  import opened PayoutHandlers
  import opened LedgerHandlers
  import Engine = AllocationEngine

  /** A submit that passed its check; `lastValid` is what it read with the row. */
  datatype Request = Request(id: Id, tx: Tx, lastValid: nat)

  datatype State = State(
    db: Db, chain: ChainState, built: set<Tx>, sent: set<Tx>, requests: set<Request>, events: set<Id>)

  datatype ProtocolStep =
    | CreatePayout(id: Id, wallet: Option<Owner>)
    | Build(id: Id, signer: Option<Pubkey>, mint: Option<Pubkey>, blockhash: nat, lastValid: nat)
    | CheckSubmit(id: Id, tx: Tx)
    | ClaimSubmit(request: Request, height: nat, sendFailed: bool)
    | Legacy(id: Id, rail: Rail)
    | CalculateBatch(
        b: Id, venue: Id, policy: Engine.Policy, tips: seq<Engine.Tip>, shifts: seq<Engine.Shift>,
        allocation: Engine.Allocation, hash: Hash, ids: seq<Id>, rails: map<Id, Rail>)
    | ApproveBatch(b: Id)
    | RejectBatch(b: Id)
    | Attach(held: Id, worker: Id, existing: Option<Id>)
    | Confirmation(id: Id, signature: Tx, status: Option<SigStatus>)
    | Reconcile(id: Id, status: Option<SigStatus>, height: nat, abandoned: bool)
    | DeliverEvent(id: Id)
    | Cluster(step: ChainStep)

  // ----- the answers the handlers get

  function BuildAnswers(s: State, step: ProtocolStep): BuildInput
    requires step.Build?
  {
    BuildInput(step.signer, step.mint, ConfirmedRecord(s.chain, step.id), s.chain.height, step.blockhash, step.lastValid)
  }

  ghost function View(s: State, id: Id, signature: Tx, status: Option<SigStatus>, height: nat): RpcView {
    RpcView(status, height, s.chain.root, InFinalizedBlock(s.chain, signature), FinalizedRecord(s.chain, id))
  }

  /** The view of a reconcile turn; a payout without a signature asks about none. */
  ghost function TurnView(s: State, id: Id, status: Option<SigStatus>, height: nat): RpcView {
    if id in s.db.payouts && s.db.payouts[id].txSignature.Some?
    then View(s, id, s.db.payouts[id].txSignature.value, status, height)
    else RpcView(None, height, s.chain.root, false, FinalizedRecord(s.chain, id))
  }

  ghost predicate Enabled(s: State, step: ProtocolStep) {
    match step
    case CreatePayout(_, _) => true
    // a fresh blockhash is still valid, and a blockhash has one expiry height
    case Build(_, _, _, blockhash, lastValid) =>
      s.chain.height <= lastValid && forall t :: t in s.built && t.blockhash == blockhash ==> t.lastValid == lastValid
    // the signed bytes are those of a transaction built for this payout
    case CheckSubmit(id, tx) => tx in s.built && tx.call.payment == id
    // the height was sampled at some time before the claim
    case ClaimSubmit(request, height, _) => request in s.requests && height <= s.chain.height
    case Legacy(_, rail) => rail != Usdc
    case CalculateBatch(b, _, policy, tips, shifts, allocation, _, ids, _) =>
      && Engine.ValidPolicy(policy) && Engine.Allocates(policy, tips, shifts, allocation)
      && (forall i :: 0 <= i < |tips| ==> 0 <= tips[i].amount)
      && FreshIds(s.db, ids, |allocation.shares|)
    case ApproveBatch(_) => true
    case RejectBatch(_) => true
    case Attach(held, worker, existing) =>
      IsHeld(s.db, held) && FindsOwnRow(s.db, s.db.rows[held].batch, worker, existing)
    case Confirmation(_, signature, status) => Truthful(s.chain, signature, status)
    case Reconcile(id, status, height, _) =>
      && height <= s.chain.height
      && (id in s.db.payouts && s.db.payouts[id].txSignature.Some? ==> Truthful(s.chain, s.db.payouts[id].txSignature.value, status))
    case DeliverEvent(id) => id in s.events
    case Cluster(step) => CanStep(s.chain, step) && (step.Land? && step.at.what.SettleTx? ==> step.at.what.tx in s.sent)
  }

  /** A settlement that succeeds emits its event. */
  function NewEvents(s: State, step: ChainStep): set<Id> {
    match step
    case Land(at) =>
      if at.what.SettleTx?
         && Execute(Replay(s.chain.genesis, s.chain.landed), InstructionOf(at.what), at.now).Ok?
      then {at.what.tx.call.payment} else {}
    case _ => {}
  }

  ghost function Apply(s: State, step: ProtocolStep): State
    requires Enabled(s, step)
  {
    match step
    case CreatePayout(id, wallet) => s.(db := CreateUsdcPayout(s.db, id, wallet, s.chain.height))
    case Build(id, _, _, _, _) =>
      var input := BuildAnswers(s, step);
      if BuildRefusal(s.db, id, input).Some? then s
      else s.(db := BuildTransaction(s.db, id, input), built := s.built + {BuiltTx(s.db, id, input)})
    case CheckSubmit(id, tx) =>
      if CheckSubmission(s.db, id, tx) == MayClaim
      then s.(requests := s.requests + {Request(id, tx, s.db.payouts[id].lastValid.value)}) else s
    case ClaimSubmit(r, height, sendFailed) =>
      s.(db := ClaimSubmission(s.db, r.id, r.tx, r.lastValid, height, sendFailed),
         sent := if ClaimSucceeds(s.db, r.id, r.lastValid, height) then s.sent + {r.tx} else s.sent)
    case Legacy(id, rail) => s.(db := RegisterLegacyEvidence(s.db, id, rail))
    case CalculateBatch(b, venue, _, _, _, allocation, hash, ids, rails) =>
      s.(db := Calculate(s.db, b, venue, allocation, hash, ids, rails))
    case ApproveBatch(b) => s.(db := Approve(s.db, b))
    case RejectBatch(b) => s.(db := Reject(s.db, b))
    case Attach(held, worker, existing) => s.(db := AttachHeld(s.db, held, worker, existing))
    case Confirmation(id, signature, status) =>
      var v := View(s, id, signature, status, s.chain.height);
      Resend(s.(db := ProcessConfirmation(s.db, id, signature, v)), id,
             id in s.db.payouts && ConfirmationResends(s.db.payouts[id], signature, v))
    case Reconcile(id, status, height, abandoned) =>
      var v := TurnView(s, id, status, height);
      Resend(s.(db := ReconcileTurn(s.db, id, v, abandoned)), id,
             id in s.db.payouts && ReconcileResends(s.db.payouts[id], v))
    case DeliverEvent(id) => s.(db := SettledEvent(s.db, id))
    case Cluster(step) => s.(chain := Step(s.chain, step), events := s.events + NewEvents(s, step))
  }

  /** rebroadcastSameTransaction sends the stored bytes again. */
  function Resend(s: State, id: Id, resends: bool): State {
    if resends && id in s.db.payouts && s.db.payouts[id].signedTransaction.Some?
    then s.(sent := s.sent + {s.db.payouts[id].signedTransaction.value}) else s
  }

  /** What the worker's turns do to the tables. */
  lemma ConfirmationWritesDb(s: State, step: ProtocolStep)
    requires Enabled(s, step) && step.Confirmation?
    ensures Apply(s, step).db ==
            ProcessConfirmation(s.db, step.id, step.signature, View(s, step.id, step.signature, step.status, s.chain.height))
  {
  }

  lemma ReconcileWritesDb(s: State, step: ProtocolStep)
    requires Enabled(s, step) && step.Reconcile?
    ensures Apply(s, step).db == ReconcileTurn(s.db, step.id, TurnView(s, step.id, step.status, step.height), step.abandoned)
  {
  }

  // ----- runs

  ghost predicate Initial(s: State) {
    s.db == Db(map[], map[], map[]) && s.built == {} && s.sent == {} && s.requests == {} && s.events == {}
    && s.chain.landed == [] && s.chain.genesis.records == map[]
  }

  ghost predicate Run(s: State, steps: seq<ProtocolStep>, s': State)
    decreases |steps|
  {
    if steps == [] then s == s'
    else Enabled(s, steps[0]) && Run(Apply(s, steps[0]), steps[1..], s')
  }

  ghost predicate Reachable(s: State) {
    exists s0, steps :: Initial(s0) && Run(s0, steps, s)
  }

  // ----- what every run keeps

  /** Expired, and not what settled the payment. */
  ghost predicate Spent(c: ChainState, t: Tx) {
    t.lastValid < c.height && !SettledBy(c, t)
  }

  /** The allocation hash of the batch a row belongs to. */
  function HashFor(db: Db, id: Id): Option<Hash> {
    if id in db.rows && db.rows[id].batch in db.batches then db.batches[db.rows[id].batch].allocationHash else None
  }

  /** The transaction the payout row currently tracks: its blockhash, and the terms of the payout and its batch. */
  predicate Current(db: Db, p: Payout, t: Tx) {
    && p.blockhash == Some(t.blockhash) && p.lastValid == Some(t.lastValid)
    && p.amountBaseUnits == t.call.amount && p.wallet == Some(t.call.wallet) && p.venue == t.call.venue
    && HashFor(db, t.call.payment) == Some(t.call.allocationHash)
  }

  /** A settlement record carries exactly the terms of the payout and its batch. */
  predicate CarriesTerms(db: Db, id: Id, p: Payout, r: Record) {
    r.amount == p.amountBaseUnits && p.wallet == Some(r.wallet) && r.venue == p.venue && HashFor(db, id) == Some(r.allocationHash)
  }

  predicate DropVerdict(p: Payout) {
    p.status == Failed && (p.reason == Some(TransactionDropped) || p.reason == Some(ForkDroppedAfterExpiry))
  }

  ghost predicate TxOk(s: State, t: Tx) {
    var id := t.call.payment;
    && id in s.db.payouts && id in s.db.rows && t.call.amount <= 10_000 * s.db.rows[id].net
    && var p := s.db.payouts[id];
    && (s.chain.height <= t.lastValid ==> Current(s.db, p, t) && p.status != Created)
    && (p.lastValid.Some? ==> t.lastValid <= p.lastValid.value)
    && (InFlight(p.status) ==>
          Spent(s.chain, t) || (Current(s.db, p, t) && (t in s.sent ==> p.txSignature == Some(t))))
    && (DropVerdict(p) ==> Spent(s.chain, t))
  }

  /** The row's blockhash and expiry height are those of a transaction built for it. */
  ghost predicate FromBuild(s: State, id: Id, p: Payout) {
    exists t :: t in s.built && t.call.payment == id && p.blockhash == Some(t.blockhash) && p.lastValid == Some(t.lastValid)
  }

  ghost predicate PayoutTracked(s: State, id: Id)
    requires id in s.db.payouts
  {
    var p := s.db.payouts[id];
    && (InFlight(p.status) ==> p.lastValid.Some? && p.rail == Usdc)
    && (p.lastValid.Some? || p.blockhash.Some? ==> FromBuild(s, id, p))
    && (p.status == Initiated ==> p.txSignature.None?)
    && (p.status == Created ==> p.lastValid.None?)
    && (p.txSignature.Some? ==>
          p.txSignature.value in s.sent && p.txSignature.value.call.payment == id && p.lastValid.Some?)
    && p.signedTransaction == p.txSignature
    && (DropVerdict(p) ==> p.txSignature.Some? && Dead(s.chain, p.txSignature.value))
    && (p.status == Finalized && p.rail == Usdc ==>
          FinalizedRecord(s.chain, id).Some? && CarriesTerms(s.db, id, p, FinalizedRecord(s.chain, id).value))
  }

  ghost predicate OneLiveTx(s: State) {
    forall t, t' ::
      (t in s.built && t' in s.built && t.call.payment == t'.call.payment
       && s.chain.height <= t.lastValid && s.chain.height <= t'.lastValid) ==> t == t'
  }

  ghost predicate OneExpiryPerBlockhash(s: State) {
    forall t, t' :: t in s.built && t' in s.built && t.blockhash == t'.blockhash ==> t.lastValid == t'.lastValid
  }

  ghost predicate NetworkOk(s: State) {
    && WellFormed(s.chain)
    && s.sent <= s.built
    && (forall t, i :: LandedAt(s.chain, t, i) ==> t in s.sent)
    && (forall r :: r in s.requests ==> r.tx in s.built && r.tx.call.payment == r.id && r.tx.lastValid == r.lastValid)
    && OneLiveTx(s) && OneExpiryPerBlockhash(s)
    && (forall t :: t in s.built ==> TxOk(s, t))
    && (forall id :: id in s.db.payouts ==> PayoutTracked(s, id))
  }

  ghost predicate Inv(s: State) {
    LedgerOk(s.db) && NetworkOk(s)
  }
}

/**
 * A batch is one venue, business date and policy version: a day has as many as there are
 * versions, all over the same tips. What a day pays, and when it pays its tips more than once.
 */
module VenueDays {
  import opened Wrappers
  import opened Sums
  import opened SettlementProgram
  import opened Chain
  import opened Ledger
  import opened PayoutHandlers
  import opened Protocol
  import opened ProtocolInvariant
  import opened ProtocolTheorems
  import opened LatePayments
  import opened CarefulRuns

  datatype Day = Day(venue: Id, date: int)

  predicate ApprovedIn(db: Db, b: Id) {
    b in db.batches && IsApproved(db.batches[b].status)
  }

  /** `day` says which venue and date each batch is of. */
  function ApprovedOn(db: Db, day: Id -> Day, d: Day): set<Id> {
    set b | b in db.batches && ApprovedIn(db, b) && day(b) == d
  }

  ghost function PoolsOf(db: Db, batches: set<Id>): map<Id, int> {
    map b | b in batches && b in db.batches :: db.batches[b].pool
  }

  /** The net cents of all rows of these batches. */
  ghost function NetsOf(rows: map<Id, Row>, batches: set<Id>): map<Id, int> {
    map id | id in rows && rows[id].batch in batches :: rows[id].net
  }

  // ----- what a day's rows carry

  lemma TakenFromTheSecond(a: map<Id, int>, b: map<Id, int>, k: Id)
    requires a.Keys !! b.Keys && k in b
    ensures (a + b) - {k} == a + (b - {k})
  {
  }

  lemma {:induction false} SumTogether(a: map<Id, int>, b: map<Id, int>)
    requires a.Keys !! b.Keys
    ensures SumMap(a + b) == SumMap(a) + SumMap(b)
    decreases |b|
  {
    if b == map[] {
      assert a + b == a;
    } else {
      var k := Pick(b);
      SumRemove(a + b, k);
      TakenFromTheSecond(a, b, k);
      SumTogether(a, b - {k});
    }
  }

  lemma OneBatchMore(db: Db, batches: set<Id>, b: Id)
    requires b in batches && b in db.batches
    ensures SumMap(NetsOf(db.rows, batches)) == SumMap(NetsOf(db.rows, batches - {b})) + SumMap(NetOf(db.rows, b))
    ensures SumMap(PoolsOf(db, batches)) == SumMap(PoolsOf(db, batches - {b})) + db.batches[b].pool
  {
    assert NetsOf(db.rows, batches) == NetsOf(db.rows, batches - {b}) + NetOf(db.rows, b);
    SumTogether(NetsOf(db.rows, batches - {b}), NetOf(db.rows, b));
    SumRemove(PoolsOf(db, batches), b);
    assert PoolsOf(db, batches) - {b} == PoolsOf(db, batches - {b});
  }

  lemma {:induction false} RowsCarryThePools(db: Db, batches: set<Id>)
    requires LedgerOk(db) && forall b :: b in batches ==> ApprovedIn(db, b)
    ensures SumMap(NetsOf(db.rows, batches)) == SumMap(PoolsOf(db, batches))
    decreases |batches|
  {
    if batches == {} {
      assert NetsOf(db.rows, batches) == map[] && PoolsOf(db, batches) == map[];
    } else {
      var b :| b in batches;
      OneBatchMore(db, batches, b);
      assert BatchOk(db, b);
      RowsCarryThePools(db, batches - {b});
    }
  }

  // ----- what a day pays

  predicate OnDay(db: Db, day: Id -> Day, d: Day, id: Id) {
    id in db.rows && id in db.payouts && day(db.rows[id].batch) == d
  }

  /** The cents of all payouts made for a day. */
  ghost function PayoutsOn(db: Db, day: Id -> Day, d: Day): map<Id, int> {
    map id | id in db.payouts && OnDay(db, day, d, id) :: db.payouts[id].amountUsdCents
  }

  /** What a day has paid on the chain, in base units; and in cash and on the chain together. */
  ghost function SettledOn(s: State, day: Id -> Day, d: Day): map<Id, int> {
    map id | id in s.db.payouts && OnDay(s.db, day, d, id) :: PaidOnChain(s, id)
  }

  ghost function PaidOn(s: State, day: Id -> Day, d: Day): map<Id, int> {
    map id | id in s.db.payouts && OnDay(s.db, day, d, id) :: PaidInCash(s.db, id) + PaidOnChain(s, id)
  }

  lemma PaidForApproved(db: Db, day: Id -> Day, d: Day, id: Id)
    requires LedgerOk(db) && OnDay(db, day, d, id)
    ensures id in NetsOf(db.rows, ApprovedOn(db, day, d)) && db.payouts[id].amountUsdCents <= db.rows[id].net
  {
    assert PayoutOk(db, id);
  }

  lemma WithinPools(db: Db, day: Id -> Day, d: Day, paid: map<Id, int>)
    requires LedgerOk(db)
    requires forall id :: id in paid ==> OnDay(db, day, d, id) && paid[id] <= 10_000 * db.rows[id].net
    ensures SumMap(paid) <= 10_000 * SumMap(PoolsOf(db, ApprovedOn(db, day, d)))
  {
    var approved := ApprovedOn(db, day, d);
    var nets := NetsOf(db.rows, approved);
    RowsCarryThePools(db, approved);
    SumOfBaseUnits(nets);
    forall id | id in paid ensures id in nets {
      PaidForApproved(db, day, d, id);
    }
    forall id | id in nets ensures 0 <= nets[id] {
      assert RowOk(db, id);
    }
    SumAtMost(paid, BaseUnits(nets));
  }

  lemma PayoutsWithinPools(db: Db, day: Id -> Day, d: Day)
    requires LedgerOk(db)
    ensures SumMap(PayoutsOn(db, day, d)) <= SumMap(PoolsOf(db, ApprovedOn(db, day, d)))
  {
    var paid := PayoutsOn(db, day, d);
    forall id | id in paid ensures BaseUnits(paid)[id] <= 10_000 * db.rows[id].net {
      PaidForApproved(db, day, d, id);
    }
    WithinPools(db, day, d, BaseUnits(paid));
    SumOfBaseUnits(paid);
  }

  /** In every reachable state a day's payouts, and its settlements taken alone, stay within the pools of its approved batches. */
  lemma ADayPaysItsApprovedPools(s: State, day: Id -> Day, d: Day)
    requires Reachable(s)
    ensures SumMap(PayoutsOn(s.db, day, d)) <= SumMap(PoolsOf(s.db, ApprovedOn(s.db, day, d)))
    ensures SumMap(SettledOn(s, day, d)) <= 10_000 * SumMap(PoolsOf(s.db, ApprovedOn(s.db, day, d)))
  {
    ReachableIsOk(s);
    PayoutsWithinPools(s.db, day, d);
    var settled := SettledOn(s, day, d);
    forall id | id in settled ensures settled[id] <= 10_000 * s.db.rows[id].net {
      assert RowOk(s.db, id);
      if HasRecord(s, id) { SettledRow(s, id); }
    }
    WithinPools(s.db, day, d, settled);
  }

  lemma PaidTogether(s0: State, steps: seq<ProtocolStep>, s: State, day: Id -> Day, d: Day)
    requires Initial(s0) && Run(s0, steps, s) && QuietEvidenceOnly(s0, steps)
    ensures Inv(s) && SumMap(PaidOn(s, day, d)) <= 10_000 * SumMap(PoolsOf(s.db, ApprovedOn(s.db, day, d)))
  {
    InitialIsOk(s0);
    RunKeepsInv(s0, steps, s);
    var paid := PaidOn(s, day, d);
    forall id | id in paid ensures paid[id] <= 10_000 * s.db.rows[id].net {
      RunKeepsPaidOnce(s0, steps, s, id);
      RowPaidWithinNet(s, id);
    }
    WithinPools(s.db, day, d, paid);
  }

  // ----- one approved batch a day

  predicate OneApproved(db: Db, day: Id -> Day, d: Day) {
    forall b, c :: b in ApprovedOn(db, day, d) && c in ApprovedOn(db, day, d) ==> b == c
  }

  lemma OnePool(db: Db, day: Id -> Day, b: Id)
    requires OneApproved(db, day, day(b)) && ApprovedIn(db, b)
    ensures SumMap(PoolsOf(db, ApprovedOn(db, day, day(b)))) == db.batches[b].pool
  {
    var pools := PoolsOf(db, ApprovedOn(db, day, day(b)));
    assert b in ApprovedOn(db, day, day(b));
    assert pools.Keys == {b};
    SumRemove(pools, b);
    assert pools - {b} == map[];
  }

  predicate NewlyApproved(db: Db, step: ProtocolStep, b: Id) {
    step.ApproveBatch? && step.b == b && b in db.batches && db.batches[b].status == BatchStatus.Calculated
  }

  predicate ApprovedSame(db: Db, db': Db, b: Id) {
    ApprovedIn(db', b) <==> ApprovedIn(db, b)
  }

  lemma CreateApprovesNone(db: Db, k: Id, wallet: Option<Owner>, height: nat, b: Id)
    ensures ApprovedSame(db, CreateUsdcPayout(db, k, wallet, height), b)
  {
  }

  lemma ClaimApprovesNone(db: Db, k: Id, tx: Tx, lastValid: nat, height: nat, sendFailed: bool, b: Id)
    ensures ApprovedSame(db, ClaimSubmission(db, k, tx, lastValid, height, sendFailed), b)
  {
  }

  lemma LegacyApprovesNone(db: Db, k: Id, rail: Rail, b: Id)
    ensures ApprovedSame(db, RegisterLegacyEvidence(db, k, rail), b)
  {
  }

  lemma VerdictApprovesNone(db: Db, k: Id, verdict: Verdict, resends: bool, b: Id)
    ensures ApprovedSame(db, CountResend(ApplyVerdict(db, k, verdict), k, resends), b)
  {
  }

  lemma ConfirmationApprovesNone(db: Db, k: Id, signature: Tx, v: RpcView, b: Id)
    ensures ApprovedSame(db, ProcessConfirmation(db, k, signature, v), b)
  {
    if k in db.payouts {
      VerdictApprovesNone(db, k, ConfirmationVerdict(db.payouts[k], signature, v), ConfirmationResends(db.payouts[k], signature, v), b);
    }
  }

  lemma ReconcileApprovesNone(db: Db, k: Id, v: RpcView, abandoned: bool, b: Id)
    ensures ApprovedSame(db, ReconcileTurn(db, k, v, abandoned), b)
  {
    if k in db.payouts {
      VerdictApprovesNone(db, k, ReconcileVerdict(db.payouts[k], v, abandoned), ReconcileResends(db.payouts[k], v), b);
    }
  }

  lemma WorkerApprovesNone(s: State, step: ProtocolStep, b: Id)
    requires Enabled(s, step) && (step.Confirmation? || step.Reconcile?)
    ensures ApprovedSame(s.db, Apply(s, step).db, b)
  {
    if step.Confirmation? {
      ConfirmationWritesDb(s, step);
      ConfirmationApprovesNone(s.db, step.id, step.signature, View(s, step.id, step.signature, step.status, s.chain.height), b);
    } else {
      ReconcileWritesDb(s, step);
      ReconcileApprovesNone(s.db, step.id, TurnView(s, step.id, step.status, step.height), step.abandoned, b);
    }
  }

  lemma BatchStepApproves(s: State, step: ProtocolStep, b: Id)
    requires Enabled(s, step) && (step.CalculateBatch? || step.ApproveBatch? || step.RejectBatch? || step.Attach?)
    ensures ApprovedIn(Apply(s, step).db, b) <==> ApprovedIn(s.db, b) || NewlyApproved(s.db, step, b)
  {
  }

  lemma OtherStepApprovesNone(s: State, step: ProtocolStep, b: Id)
    requires Enabled(s, step) && (step.Build? || step.CheckSubmit? || step.DeliverEvent? || step.Cluster?)
    ensures ApprovedSame(s.db, Apply(s, step).db, b)
  {
  }

  /** Approval is for good, and approving a calculated batch is the only way to it. */
  lemma StepApproves(s: State, step: ProtocolStep, b: Id)
    requires Enabled(s, step)
    ensures ApprovedIn(Apply(s, step).db, b) <==> ApprovedIn(s.db, b) || NewlyApproved(s.db, step, b)
  {
    if step.CreatePayout? {
      CreateApprovesNone(s.db, step.id, step.wallet, s.chain.height, b);
    } else if step.ClaimSubmit? {
      ClaimApprovesNone(s.db, step.request.id, step.request.tx, step.request.lastValid, step.height, step.sendFailed, b);
    } else if step.Legacy? {
      LegacyApprovesNone(s.db, step.id, step.rail, b);
    } else if step.Confirmation? || step.Reconcile? {
      WorkerApprovesNone(s, step, b);
    } else if step.CalculateBatch? || step.ApproveBatch? || step.RejectBatch? || step.Attach? {
      BatchStepApproves(s, step, b);
    } else {
      OtherStepApprovesNone(s, step, b);
    }
  }

  /** A batch is approved although another one of its day is, under another policy version. */
  predicate SecondApproval(db: Db, step: ProtocolStep, day: Id -> Day, d: Day) {
    step.ApproveBatch? && NewlyApproved(db, step, step.b) && day(step.b) == d && ApprovedOn(db, day, d) != {}
  }

  lemma ApprovedOnNext(s: State, step: ProtocolStep, day: Id -> Day, d: Day)
    requires Enabled(s, step)
    ensures ApprovedOn(Apply(s, step).db, day, d) ==
            ApprovedOn(s.db, day, d) + (if step.ApproveBatch? && NewlyApproved(s.db, step, step.b) && day(step.b) == d then {step.b} else {})
  {
    var s' := Apply(s, step);
    forall b ensures b in ApprovedOn(s'.db, day, d) <==>
                     b in ApprovedOn(s.db, day, d) || (NewlyApproved(s.db, step, b) && day(b) == d)
    {
      StepApproves(s, step, b);
    }
  }

  lemma StepKeepsOneApproved(s: State, step: ProtocolStep, day: Id -> Day, d: Day)
    requires Enabled(s, step)
    ensures OneApproved(Apply(s, step).db, day, d) <==> OneApproved(s.db, day, d) && !SecondApproval(s.db, step, day, d)
  {
    ApprovedOnNext(s, step, day, d);
    if SecondApproval(s.db, step, day, d) {
      var other :| other in ApprovedOn(s.db, day, d);
      assert other != step.b && {other, step.b} <= ApprovedOn(Apply(s, step).db, day, d);
    }
  }

  ghost predicate ApprovesTwice(s: State, steps: seq<ProtocolStep>, day: Id -> Day, d: Day)
    decreases |steps|
  {
    steps != [] && Enabled(s, steps[0])
    && (SecondApproval(s.db, steps[0], day, d) || ApprovesTwice(Apply(s, steps[0]), steps[1..], day, d))
  }

  lemma {:induction false} RunKeepsOneApproved(s: State, steps: seq<ProtocolStep>, s': State, day: Id -> Day, d: Day)
    requires Run(s, steps, s')
    ensures OneApproved(s'.db, day, d) <==> OneApproved(s.db, day, d) && !ApprovesTwice(s, steps, day, d)
    decreases |steps|
  {
    if steps != [] {
      StepKeepsOneApproved(s, steps[0], day, d);
      RunKeepsOneApproved(Apply(s, steps[0]), steps[1..], s', day, d);
    }
  }

  /** After any run a day has at most one approved batch if and only if none was approved beside another. */
  lemma OneApprovedIff(s0: State, steps: seq<ProtocolStep>, s: State, day: Id -> Day, d: Day)
    requires Initial(s0) && Run(s0, steps, s)
    ensures OneApproved(s.db, day, d) <==> !ApprovesTwice(s0, steps, day, d)
  {
    RunKeepsOneApproved(s0, steps, s, day, d);
  }

  /**
   * If no batch of the day was approved beside another, and evidence was taken for quiet payments
   * only, the whole day has paid at most the one approved pool, in cash and on the chain together.
   */
  lemma ADayPaysItsTipsOnce(s0: State, steps: seq<ProtocolStep>, s: State, day: Id -> Day, b: Id)
    requires Initial(s0) && Run(s0, steps, s) && QuietEvidenceOnly(s0, steps) && !ApprovesTwice(s0, steps, day, day(b))
    requires ApprovedIn(s.db, b)
    ensures SumMap(PayoutsOn(s.db, day, day(b))) <= s.db.batches[b].pool
    ensures SumMap(PaidOn(s, day, day(b))) <= 10_000 * s.db.batches[b].pool
  {
    OneApprovedIff(s0, steps, s, day, day(b));
    OnePool(s.db, day, b);
    PaidTogether(s0, steps, s, day, day(b));
    PayoutsWithinPools(s.db, day, day(b));
  }
}

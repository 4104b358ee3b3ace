/**
 * The cluster as the services see it: one surviving fork of landed transactions, a confirmed
 * block height and a finalized root slot.
 *
 * Assumptions about the cluster, each a clause of `CanStep` or of `Truthful`:
 *  - the confirmed height and the root never go back, and no rollback reaches below them;
 *  - a transaction lands at most once on a fork, in a block above the confirmed height and
 *    not above its own last valid block height;
 *  - a signature status names the surviving inclusion when there is one; when there is none
 *    it is absent or a stale, not finalized, observation of a discarded fork;
 *  - settle_payout is only ever signed for transactions built by the payout service.
 */
module Chain {
  import opened Wrappers
  import opened SettlementProgram

  /** A signed settle_payout transaction. Signing is deterministic, so it stands for its own signature. */
  datatype Tx = Tx(call: SettleCall, blockhash: nat, lastValid: nat)

  datatype Carried = SettleTx(tx: Tx) | OtherCall(instruction: Instruction)

  datatype Landed = Landed(what: Carried, slot: nat, height: nat, now: int)

  datatype ChainState = ChainState(genesis: Accounts, landed: seq<Landed>, height: nat, root: nat)

  function InstructionOf(what: Carried): Instruction {
    match what
    case SettleTx(tx) => SettlePayout(tx.call)
    case OtherCall(i) => i
  }

  function Replay(a: Accounts, landed: seq<Landed>): Accounts {
    if landed == [] then a
    else
      var last := landed[|landed| - 1];
      After(Replay(a, landed[..|landed| - 1]), InstructionOf(last.what), last.now)
  }

  predicate Succeeded(a: Accounts, landed: seq<Landed>, i: int)
    requires 0 <= i < |landed|
  {
    Execute(Replay(a, landed[..i]), InstructionOf(landed[i].what), landed[i].now).Ok?
  }

  /** How many of the landed transactions are at or below the root slot. */
  function FinalizedLen(landed: seq<Landed>, root: nat): (n: nat)
    ensures n <= |landed|
    ensures 0 < n ==> landed[n - 1].slot <= root
    ensures forall i :: n <= i < |landed| ==> root < landed[i].slot
  {
    if landed == [] then 0
    else if landed[|landed| - 1].slot <= root then |landed|
    else FinalizedLen(landed[..|landed| - 1], root)
  }

  /** How many of the landed transactions are at or below the confirmed height. */
  function ConfirmedLen(landed: seq<Landed>, height: nat): (n: nat)
    ensures n <= |landed|
    ensures 0 < n ==> landed[n - 1].height <= height
    ensures forall i :: n <= i < |landed| ==> height < landed[i].height
  {
    if landed == [] then 0
    else if landed[|landed| - 1].height <= height then |landed|
    else ConfirmedLen(landed[..|landed| - 1], height)
  }

  function RecordsAt(c: ChainState, n: nat): map<Id, Record>
    requires n <= |c.landed|
  {
    Replay(c.genesis, c.landed[..n]).records
  }

  /** fetchSettlementRecord(..., "finalized") */
  function FinalizedRecord(c: ChainState, p: Id): Option<Record> {
    var records := RecordsAt(c, FinalizedLen(c.landed, c.root));
    if p in records then Some(records[p]) else None
  }

  /** fetchSettlementRecord at the default commitment, "confirmed" */
  function ConfirmedRecord(c: ChainState, p: Id): Option<Record> {
    var records := RecordsAt(c, ConfirmedLen(c.landed, c.height));
    if p in records then Some(records[p]) else None
  }

  predicate LandedAt(c: ChainState, tx: Tx, i: int) {
    0 <= i < |c.landed| && c.landed[i].what == SettleTx(tx)
  }

  ghost predicate OnChain(c: ChainState, tx: Tx) {
    exists i :: LandedAt(c, tx, i)
  }

  /** getTransaction(signature, "finalized") finds it. */
  ghost predicate InFinalizedBlock(c: ChainState, tx: Tx) {
    exists i :: LandedAt(c, tx, i) && c.landed[i].slot <= c.root
  }

  /** The transaction is in the surviving fork and moved the money. */
  ghost predicate SettledBy(c: ChainState, tx: Tx) {
    exists i :: LandedAt(c, tx, i) && Succeeded(c.genesis, c.landed, i)
  }

  /** The transaction is in no surviving block and can enter none. */
  ghost predicate Dead(c: ChainState, tx: Tx) {
    tx.lastValid < c.height && !OnChain(c, tx)
  }

  // ----- signature statuses

  datatype Level = AtProcessed | AtConfirmed | AtFinalized

  datatype SigStatus = SigStatus(level: Level, slot: nat, failed: bool)

  function LevelOf(c: ChainState, at: Landed): Level {
    if at.slot <= c.root then AtFinalized else if at.height <= c.height then AtConfirmed else AtProcessed
  }

  ghost predicate Truthful(c: ChainState, tx: Tx, status: Option<SigStatus>) {
    && (forall i :: LandedAt(c, tx, i) ==>
          status == Some(SigStatus(LevelOf(c, c.landed[i]), c.landed[i].slot, !Succeeded(c.genesis, c.landed, i))))
    && (!OnChain(c, tx) ==> status.None? || status.value.level != AtFinalized)
  }

  // ----- what the cluster may do on its own

  ghost predicate WellFormed(c: ChainState) {
    && c.genesis.records == map[]
    && (forall i, j :: 0 <= i < j < |c.landed| ==>
          c.landed[i].slot <= c.landed[j].slot && c.landed[i].height <= c.landed[j].height)
    && (forall i :: 0 <= i < |c.landed| ==> c.landed[i].slot <= c.root ==> c.landed[i].height <= c.height)
    && (forall tx, i, j :: LandedAt(c, tx, i) && LandedAt(c, tx, j) ==> i == j)
    && (forall tx, i :: LandedAt(c, tx, i) ==> c.landed[i].height <= tx.lastValid)
    && (forall i :: 0 <= i < |c.landed| && c.landed[i].what.OtherCall? ==> !c.landed[i].what.instruction.SettlePayout?)
  }

  datatype ChainStep =
    | Land(at: Landed)
    | DropFork(keep: nat)
    | ConfirmUpTo(height: nat)
    | RootUpTo(slot: nat)

  ghost predicate CanStep(c: ChainState, step: ChainStep) {
    match step
    case Land(at) =>
      && c.root < at.slot && c.height < at.height
      && (|c.landed| > 0 ==> c.landed[|c.landed| - 1].slot <= at.slot && c.landed[|c.landed| - 1].height <= at.height)
      && (at.what.SettleTx? ==> at.height <= at.what.tx.lastValid && !OnChain(c, at.what.tx))
      && (at.what.OtherCall? ==> !at.what.instruction.SettlePayout?)
    case DropFork(keep) =>
      keep <= |c.landed| && forall i :: keep <= i < |c.landed| ==> c.height < c.landed[i].height
    case ConfirmUpTo(height) =>
      c.height <= height
    case RootUpTo(slot) =>
      c.root <= slot && forall i :: 0 <= i < |c.landed| ==> c.landed[i].slot <= slot ==> c.landed[i].height <= c.height
  }

  function Step(c: ChainState, step: ChainStep): ChainState {
    match step
    case Land(at) => c.(landed := c.landed + [at])
    case DropFork(keep) => c.(landed := if keep <= |c.landed| then c.landed[..keep] else c.landed)
    case ConfirmUpTo(height) => c.(height := height)
    case RootUpTo(slot) => c.(root := slot)
  }

  lemma StepKeepsPlaces(c: ChainState, step: ChainStep, tx: Tx, i: int)
    requires CanStep(c, step) && LandedAt(Step(c, step), tx, i)
    ensures if i < |c.landed| then LandedAt(c, tx, i) else step == Land(Step(c, step).landed[i]) && i == |c.landed| && !OnChain(c, tx)
  {
  }

  lemma StepKeepsWellFormed(c: ChainState, step: ChainStep)
    requires WellFormed(c) && CanStep(c, step)
    ensures WellFormed(Step(c, step))
  {
    var c' := Step(c, step);
    forall tx, i, j | LandedAt(c', tx, i) && LandedAt(c', tx, j) ensures i == j {
      StepKeepsPlaces(c, step, tx, i);
      StepKeepsPlaces(c, step, tx, j);
    }
    forall tx, i | LandedAt(c', tx, i) ensures c'.landed[i].height <= tx.lastValid {
      StepKeepsPlaces(c, step, tx, i);
    }
  }

  // ----- lemmas about the surviving fork

  lemma {:induction false} RecordsSurvive(a: Accounts, landed: seq<Landed>, k: nat)
    requires k <= |landed|
    ensures RecordsKept(Replay(a, landed[..k]), Replay(a, landed))
    decreases |landed|
  {
    if k == |landed| {
      assert landed[..k] == landed;
    } else {
      var n := |landed| - 1;
      RecordsSurvive(a, landed[..n], k);
      assert landed[..n][..k] == landed[..k];
      ExecuteKeepsRecords(Replay(a, landed[..n]), InstructionOf(landed[n].what), landed[n].now);
      RecordsKeptTwice(Replay(a, landed[..k]), Replay(a, landed[..n]), Replay(a, landed));
    }
  }

  ghost predicate TermsOf(r: Record, tx: Tx, now: int) {
    r.amount == tx.call.amount && r.venue == tx.call.venue && r.wallet == tx.call.wallet
    && r.allocationHash == tx.call.allocationHash && r.settledAt == now
  }

  /** Every record was written by exactly the landed transaction it describes. */
  lemma {:induction false} RecordComesFromTx(c: ChainState, n: nat, p: Id) returns (i: nat)
    requires WellFormed(c) && n <= |c.landed| && p in RecordsAt(c, n)
    ensures i < n && c.landed[i].what.SettleTx? && c.landed[i].what.tx.call.payment == p
    ensures Succeeded(c.genesis, c.landed, i)
    ensures TermsOf(RecordsAt(c, n)[p], c.landed[i].what.tx, c.landed[i].now)
    decreases n
  {
    assert 0 < n;
    var m := n - 1;
    assert c.landed[..n][..m] == c.landed[..m];
    if p in RecordsAt(c, m) {
      i := RecordComesFromTx(c, m, p);
      RecordsSurvive(c.genesis, c.landed[..n], m);
    } else {
      i := m;
    }
  }

  /** A transaction that succeeded has left its record, at this and every longer prefix. */
  lemma SettledLeavesRecord(c: ChainState, tx: Tx, i: nat, n: nat)
    requires LandedAt(c, tx, i) && i < n <= |c.landed| && Succeeded(c.genesis, c.landed, i)
    ensures tx.call.payment in RecordsAt(c, n) && RecordsAt(c, n)[tx.call.payment].amount == tx.call.amount
  {
    assert c.landed[..i + 1][..i] == c.landed[..i];
    assert tx.call.payment in RecordsAt(c, i + 1);
    RecordsSurvive(c.genesis, c.landed[..n], i + 1);
    assert c.landed[..n][..i + 1] == c.landed[..i + 1];
  }

  lemma PrefixesByPosition(c: ChainState, i: nat)
    requires WellFormed(c) && i < |c.landed|
    ensures i < FinalizedLen(c.landed, c.root) <==> c.landed[i].slot <= c.root
    ensures i < ConfirmedLen(c.landed, c.height) <==> c.landed[i].height <= c.height
  {
  }

  lemma FinalizedPrefixGrows(c: ChainState, step: ChainStep)
    requires WellFormed(c) && CanStep(c, step)
    ensures
      var c', n := Step(c, step), FinalizedLen(c.landed, c.root);
      n <= FinalizedLen(c'.landed, c'.root) && c'.landed[..n] == c.landed[..n]
  {
    var c', n := Step(c, step), FinalizedLen(c.landed, c.root);
    if 0 < n {
      assert c.landed[n - 1].height <= c.height;
      assert n <= |c'.landed| && c'.landed[n - 1] == c.landed[n - 1];
    }
  }

  /** What is finalized stays finalized with the same terms, whatever the cluster does. */
  lemma FinalizedRecordsAreForever(c: ChainState, step: ChainStep, p: Id)
    requires WellFormed(c) && CanStep(c, step) && FinalizedRecord(c, p).Some?
    ensures FinalizedRecord(Step(c, step), p).Some?
    ensures SameTerms(FinalizedRecord(c, p).value, FinalizedRecord(Step(c, step), p).value)
  {
    var c' := Step(c, step);
    FinalizedPrefixGrows(c, step);
    var n, n' := FinalizedLen(c.landed, c.root), FinalizedLen(c'.landed, c'.root);
    assert c'.landed[..n'][..n] == c.landed[..n];
    RecordsSurvive(c.genesis, c'.landed[..n'], n);
  }

  /** A transaction keeps its place and its outcome as long as its block is below the confirmed height. */
  lemma SettledWasSettled(c: ChainState, step: ChainStep, tx: Tx)
    requires CanStep(c, step) && SettledBy(Step(c, step), tx)
    requires step.Land? ==> step.at.what != SettleTx(tx)
    ensures SettledBy(c, tx)
  {
    var c' := Step(c, step);
    var i :| LandedAt(c', tx, i) && Succeeded(c'.genesis, c'.landed, i);
    assert LandedAt(c, tx, i);
    assert c'.landed[..i] == c.landed[..i];
  }

  /** Dead is for ever. */
  lemma DeadStaysDead(c: ChainState, step: ChainStep, tx: Tx)
    requires CanStep(c, step) && Dead(c, tx)
    ensures Dead(Step(c, step), tx)
  {
    var c' := Step(c, step);
    forall i ensures !LandedAt(c', tx, i) {
      assert !LandedAt(c, tx, i);
    }
  }

  /** With nothing reported and the blockhash expired, the transaction is dead. */
  lemma AbsentAndExpiredIsDead(c: ChainState, tx: Tx)
    requires Truthful(c, tx, None) && tx.lastValid < c.height
    ensures Dead(c, tx)
  {
  }

  /** A reported slot that the root has passed, with no finalized transaction: a discarded fork. */
  lemma ObservedForkWasDropped(c: ChainState, tx: Tx, status: SigStatus)
    requires Truthful(c, tx, Some(status)) && tx.lastValid < c.height
    requires status.slot < c.root && !InFinalizedBlock(c, tx)
    ensures Dead(c, tx)
  {
  }

  /** An expired transaction that is on chain is confirmed; if it succeeded, its record is visible. */
  lemma ExpiredSettlementIsVisible(c: ChainState, tx: Tx)
    requires WellFormed(c) && tx.lastValid < c.height && SettledBy(c, tx)
    ensures ConfirmedRecord(c, tx.call.payment).Some?
  {
    var i :| LandedAt(c, tx, i) && Succeeded(c.genesis, c.landed, i);
    PrefixesByPosition(c, i);
    SettledLeavesRecord(c, tx, i, ConfirmedLen(c.landed, c.height));
  }
}

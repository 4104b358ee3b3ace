/** Every step of the protocol keeps its invariant. */
module ProtocolInvariant {
  import opened Wrappers
  import opened SettlementProgram
  import opened Chain
  import opened BlockhashRules
  import opened Ledger
  import opened PayoutHandlers
  import opened LedgerHandlers
  import opened LedgerInvariant
  import opened Protocol
  import opened Sums
  import Engine = AllocationEngine

  // ----- the cluster moves, the rows stay

  lemma SpentStaysSpent(c: ChainState, step: ChainStep, t: Tx)
    requires CanStep(c, step) && Spent(c, t)
    ensures Spent(Step(c, step), t)
  {
    if SettledBy(Step(c, step), t) {
      SettledWasSettled(c, step, t);
      assert false;
    }
  }

  lemma ClusterKeepsTx(s: State, step: ChainStep, t: Tx)
    requires NetworkOk(s) && CanStep(s.chain, step) && t in s.built
    ensures TxOk(s.(chain := Step(s.chain, step)), t)
  {
    assert TxOk(s, t);
    if Spent(s.chain, t) { SpentStaysSpent(s.chain, step, t); }
  }

  lemma ClusterKeepsPayout(s: State, step: ChainStep, id: Id)
    requires NetworkOk(s) && CanStep(s.chain, step) && id in s.db.payouts
    ensures PayoutTracked(s.(chain := Step(s.chain, step)), id)
  {
    assert PayoutTracked(s, id);
    var p, s' := s.db.payouts[id], s.(chain := Step(s.chain, step));
    assert FromBuild(s, id, p) ==> FromBuild(s', id, p);
    if DropVerdict(p) { DeadStaysDead(s.chain, step, p.txSignature.value); }
    if p.status == Finalized && p.rail == Usdc { FinalizedRecordsAreForever(s.chain, step, id); }
  }

  lemma LandedWasSent(s: State, step: ChainStep)
    requires NetworkOk(s) && CanStep(s.chain, step) && (step.Land? && step.at.what.SettleTx? ==> step.at.what.tx in s.sent)
    ensures forall t, i :: LandedAt(Step(s.chain, step), t, i) ==> t in s.sent
  {
    forall t, i | LandedAt(Step(s.chain, step), t, i) ensures t in s.sent {
      StepKeepsPlaces(s.chain, step, t, i);
    }
  }

  lemma ClusterKeepsNetwork(s: State, step: ChainStep)
    requires NetworkOk(s) && Enabled(s, Cluster(step))
    ensures NetworkOk(Apply(s, Cluster(step)))
  {
    var s' := Apply(s, Cluster(step));
    StepKeepsWellFormed(s.chain, step);
    LandedWasSent(s, step);
    forall t | t in s'.built ensures TxOk(s', t) {
      ClusterKeepsTx(s, step, t);
    }
    forall id | id in s'.db.payouts ensures PayoutTracked(s', id) {
      ClusterKeepsPayout(s, step, id);
    }
  }

  // ----- one payout moves, the others stay

  /** Rows with a payout stay, with at least their money and under the same allocation hash. */
  ghost predicate NetsKept(db: Db, db': Db) {
    forall k :: k in db.payouts && k in db.rows ==>
      k in db'.rows && db.rows[k].net <= db'.rows[k].net && (HashFor(db, k).Some? ==> HashFor(db', k) == HashFor(db, k))
  }

  ghost predicate OnlyPayout(s: State, s': State, id: Id) {
    && s'.chain == s.chain
    && (forall k :: k != id ==> (k in s'.db.payouts <==> k in s.db.payouts))
    && (forall k :: k != id && k in s.db.payouts ==> s'.db.payouts[k] == s.db.payouts[k])
    && NetsKept(s.db, s'.db)
    && (forall t: Tx :: t.call.payment != id ==> (t in s'.built <==> t in s.built) && (t in s'.sent <==> t in s.sent))
  }

  lemma OthersStayOk(s: State, s': State, id: Id)
    requires NetworkOk(s) && OnlyPayout(s, s', id)
    ensures forall t :: t in s'.built && t.call.payment != id ==> TxOk(s', t)
    ensures forall k :: k in s'.db.payouts && k != id ==> PayoutTracked(s', k)
  {
    forall t | t in s'.built && t.call.payment != id ensures TxOk(s', t) {
      assert TxOk(s, t);
    }
    forall k | k in s'.db.payouts && k != id ensures PayoutTracked(s', k) {
      assert PayoutTracked(s, k);
    }
  }

  /** What remains to be shown when a step changes one payout and builds nothing. */
  lemma NetworkFromPayout(s: State, s': State, id: Id)
    requires NetworkOk(s) && OnlyPayout(s, s', id) && s'.built == s.built && s'.requests == s.requests
    requires s.sent <= s'.sent <= s'.built
    requires forall t :: t in s.built && t.call.payment == id ==> TxOk(s', t)
    requires id in s'.db.payouts ==> PayoutTracked(s', id)
    ensures NetworkOk(s')
  {
    OthersStayOk(s, s', id);
    assert OneLiveTx(s);
  }

  /** Only the rows and one payout change. */
  ghost predicate Replaced(s: State, s': State, id: Id, p: Payout) {
    && s'.chain == s.chain && s'.built == s.built && s'.sent == s.sent && s'.requests == s.requests
    && s'.db.payouts == s.db.payouts[id := p] && NetsKept(s.db, s'.db)
  }

  predicate SameTracking(p: Payout, p': Payout) {
    && p'.blockhash == p.blockhash && p'.lastValid == p.lastValid && p'.amountBaseUnits == p.amountBaseUnits
    && p'.txSignature == p.txSignature && p'.signedTransaction == p.signedTransaction && p'.wallet == p.wallet && p'.venue == p.venue
  }

  /** A status may move on, but not back into flight, nor from Confirmed back to Initiated. */
  predicate MovesOn(p: Payout, p': Payout) {
    && (InFlight(p'.status) ==> InFlight(p.status) && p'.rail == p.rail)
    && (p'.status == Initiated ==> p.status == Initiated)
    && (p'.status == Created ==> p.status == Created)
  }

  ghost predicate Unsettled(s: State, id: Id) {
    forall t :: t in s.built && t.call.payment == id ==> Spent(s.chain, t)
  }

  /** What a verdict has to establish before it is written. */
  ghost predicate VerdictFounded(s: State, id: Id, p: Payout) {
    && (DropVerdict(p) ==> p.txSignature.Some? && Dead(s.chain, p.txSignature.value) && Unsettled(s, id))
    && (p.status == Finalized && p.rail == Usdc ==>
          FinalizedRecord(s.chain, id).Some? && CarriesTerms(s.db, id, p, FinalizedRecord(s.chain, id).value))
  }

  lemma StatusChangeKeepsNetwork(s: State, s': State, id: Id, p: Payout)
    requires NetworkOk(s) && id in s.db.payouts && Replaced(s, s', id, p)
    requires SameTracking(s.db.payouts[id], p) && MovesOn(s.db.payouts[id], p) && VerdictFounded(s, id, p)
    ensures NetworkOk(s')
  {
    forall t | t in s.built && t.call.payment == id ensures TxOk(s', t) {
      assert TxOk(s, t);
    }
    assert PayoutTracked(s, id);
    assert FromBuild(s, id, s.db.payouts[id]) ==> FromBuild(s', id, p);
    NetworkFromPayout(s, s', id);
  }

  // ----- API handlers

  /** A payout starts, or starts again after a failure, tracking nothing. */
  lemma StartKeepsNetwork(s: State, s': State, id: Id, p: Payout)
    requires NetworkOk(s) && Replaced(s, s', id, p)
    requires p.status == Created && p.lastValid.None? && p.blockhash.None? && p.txSignature.None? && p.signedTransaction.None?
    requires id in s.db.payouts ==>
               s.db.payouts[id].lastValid.Some? ==> s.db.payouts[id].lastValid.value < s.chain.height
    ensures NetworkOk(s')
  {
    forall t | t in s.built && t.call.payment == id ensures TxOk(s', t) {
      assert TxOk(s, t);
    }
    NetworkFromPayout(s, s', id);
  }

  /** Create leaves every payout as it is, or starts this one afresh. */
  lemma CreateHealsOrStarts(db: Db, id: Id, wallet: Option<Owner>, height: nat)
    ensures
      var db' := CreateUsdcPayout(db, id, wallet, height);
      && NetsKept(db, db')
      && (db'.payouts == db.payouts
          || (CreateRefusal(db, id, wallet, height).None? && db'.payouts == db.payouts[id := NewPayout(db, id, wallet.value)]
              && (id in db.payouts && db.payouts[id].lastValid.Some? ==> db.payouts[id].lastValid.value < height)))
  {
  }

  lemma CreateKeepsNetwork(s: State, id: Id, wallet: Option<Owner>)
    requires Inv(s)
    ensures NetworkOk(s.(db := CreateUsdcPayout(s.db, id, wallet, s.chain.height)))
  {
    CreateHealsOrStarts(s.db, id, wallet, s.chain.height);
    CreatedKeepsNetwork(s, id, wallet, CreateUsdcPayout(s.db, id, wallet, s.chain.height));
  }

  lemma CreatedKeepsNetwork(s: State, id: Id, wallet: Option<Owner>, db': Db)
    requires Inv(s) && NetsKept(s.db, db')
    requires db'.payouts != s.db.payouts ==>
      CreateRefusal(s.db, id, wallet, s.chain.height).None? && db'.payouts == s.db.payouts[id := NewPayout(s.db, id, wallet.value)]
      && (id in s.db.payouts && s.db.payouts[id].lastValid.Some? ==> s.db.payouts[id].lastValid.value < s.chain.height)
    ensures NetworkOk(s.(db := db'))
  {
    if db'.payouts == s.db.payouts {
      RowsChangeKeepsNetwork(s, db');
    } else {
      StartKeepsNetwork(s, s.(db := db'), id, NewPayout(s.db, id, wallet.value));
    }
  }

  /** A blockhash is recorded only when everything built before for the payout is expired and unsettled. */
  lemma EarlierAreSpent(s: State, step: ProtocolStep, t: Tx)
    requires Inv(s) && step.Build? && BuildRefusal(s.db, step.id, BuildAnswers(s, step)).None?
    requires t in s.built && t.call.payment == step.id
    ensures Spent(s.chain, t)
  {
    assert TxOk(s, t);
    if SettledBy(s.chain, t) {
      ExpiredSettlementIsVisible(s.chain, t);
      assert false;
    }
  }

  /** The new transaction is the tracked one, every earlier one is spent. */
  lemma BuiltTxOk(s: State, s': State, id: Id, p: Payout, t': Tx)
    requires NetworkOk(s) && id in s.db.payouts && id in s.db.rows && Unsettled(s, id)
    requires s' == s.(db := s.db.(payouts := s.db.payouts[id := p]), built := s.built + {t'})
    requires t'.call.payment == id && s.chain.height <= t'.lastValid && t'.call.amount <= 10_000 * s.db.rows[id].net
    requires Current(s.db, p, t') && p.status == Initiated
    ensures t' !in s.sent && forall t :: t in s'.built && t.call.payment == id ==> TxOk(s', t)
  {
    assert HashFor(s'.db, id) == HashFor(s.db, id);
    forall t | t in s'.built && t.call.payment == id ensures TxOk(s', t) {
      if t != t' { assert TxOk(s, t); }
    }
  }

  lemma BuiltKeepsNetwork(s: State, s': State, id: Id, p: Payout, t': Tx)
    requires NetworkOk(s) && id in s.db.payouts && id in s.db.rows && Unsettled(s, id)
    requires s' == s.(db := s.db.(payouts := s.db.payouts[id := p]), built := s.built + {t'})
    requires t'.call.payment == id && s.chain.height <= t'.lastValid && t'.call.amount <= 10_000 * s.db.rows[id].net
    requires forall t :: t in s.built && t.blockhash == t'.blockhash ==> t.lastValid == t'.lastValid
    requires Current(s.db, p, t') && p.status == Initiated && p.txSignature.None? && p.signedTransaction.None? && p.rail == Usdc
    ensures NetworkOk(s')
  {
    BuiltTxOk(s, s', id, p, t');
    OthersStayOk(s, s', id);
    assert PayoutTracked(s', id) by {
      assert t' in s'.built;
    }
    OneLiveAfterBuild(s, s', id, t');
  }

  lemma OneLiveAfterBuild(s: State, s': State, id: Id, t': Tx)
    requires NetworkOk(s) && Unsettled(s, id) && t'.call.payment == id && s'.chain == s.chain && s'.built == s.built + {t'}
    requires forall t :: t in s.built && t.blockhash == t'.blockhash ==> t.lastValid == t'.lastValid
    ensures OneLiveTx(s') && OneExpiryPerBlockhash(s')
  {
  }

  /** A build writes the tracking columns and nothing else, for the transaction it returns. */
  lemma BuildWrites(db: Db, id: Id, input: BuildInput)
    requires LedgerOk(db) && BuildRefusal(db, id, input).None?
    ensures
      var db', t := BuildTransaction(db, id, input), BuiltTx(db, id, input);
      && id in db'.payouts && db' == db.(payouts := db.payouts[id := db'.payouts[id]])
      && t.call.payment == id && t.lastValid == input.lastValid && t.blockhash == input.blockhash
      && t.call.amount <= 10_000 * db.rows[id].net && Current(db, db'.payouts[id], t)
      && db'.payouts[id].status == Initiated && db'.payouts[id].txSignature.None? && db'.payouts[id].signedTransaction.None?
      && db'.payouts[id].rail == Usdc
  {
    assert PayoutOk(db, id);
  }

  lemma BuildKeepsNetwork(s: State, step: ProtocolStep)
    requires Inv(s) && step.Build? && Enabled(s, step)
    ensures NetworkOk(Apply(s, step))
  {
    var s', id, input := Apply(s, step), step.id, BuildAnswers(s, step);
    if BuildRefusal(s.db, id, input).None? {
      forall t | t in s.built && t.call.payment == id ensures Spent(s.chain, t) {
        EarlierAreSpent(s, step, t);
      }
      BuildWrites(s.db, id, input);
      BuiltKeepsNetwork(s, s', id, s'.db.payouts[id], BuiltTx(s.db, id, input));
    }
  }

  /** The check compares blockhashes only, and that pins the expiry height too. */
  lemma CheckedLastValid(s: State, id: Id, tx: Tx)
    requires Inv(s) && tx in s.built && tx.call.payment == id && CheckSubmission(s.db, id, tx) == MayClaim
    ensures s.db.payouts[id].lastValid == Some(tx.lastValid)
  {
    assert TxOk(s, tx) && PayoutTracked(s, id);
  }

  lemma CheckKeepsNetwork(s: State, id: Id, tx: Tx)
    requires Inv(s) && Enabled(s, CheckSubmit(id, tx))
    ensures NetworkOk(Apply(s, CheckSubmit(id, tx)))
  {
    if CheckSubmission(s.db, id, tx) == MayClaim {
      CheckedLastValid(s, id, tx);
      RequestKeepsNetwork(s, Request(id, tx, tx.lastValid));
    }
  }

  lemma RequestKeepsNetwork(s: State, r: Request)
    requires NetworkOk(s) && r.tx in s.built && r.tx.call.payment == r.id && r.tx.lastValid == r.lastValid
    ensures NetworkOk(s.(requests := s.requests + {r}))
  {
    var s' := s.(requests := s.requests + {r});
    forall t | t in s'.built ensures TxOk(s', t) {
      assert TxOk(s, t);
    }
    forall k | k in s'.db.payouts ensures PayoutTracked(s', k) {
      assert PayoutTracked(s, k);
    }
  }

  /** The claim writes the signature, then sends. */
  lemma ClaimedKeepsNetwork(s: State, s': State, id: Id, p: Payout, tx: Tx)
    requires NetworkOk(s) && id in s.db.payouts && s.db.payouts[id].status == Initiated
    requires tx in s.built && tx.call.payment == id
    requires s' == s.(db := s.db.(payouts := s.db.payouts[id := p]), sent := s.sent + {tx})
    requires p == s.db.payouts[id].(status := Submitted, txSignature := Some(tx), signedTransaction := Some(tx), attempts := 1, reason := p.reason)
    ensures NetworkOk(s')
  {
    assert PayoutTracked(s, id);
    forall t | t in s.built && t.call.payment == id ensures TxOk(s', t) {
      assert TxOk(s, t);
    }
    assert FromBuild(s, id, s.db.payouts[id]) ==> FromBuild(s', id, p);
    NetworkFromPayout(s, s', id);
  }

  /** An expired claim fails the payout; another marks it submitted. */
  lemma ClaimWrites(db: Db, id: Id, tx: Tx, lastValid: nat, height: nat, sendFailed: bool)
    requires id in db.payouts && db.payouts[id].status == Initiated
    ensures
      var db', p := ClaimSubmission(db, id, tx, lastValid, height, sendFailed), db.payouts[id];
      && id in db'.payouts && db'.payouts == db.payouts[id := db'.payouts[id]] && NetsKept(db, db')
      && (if IsBlockhashExpired(height, lastValid)
          then db'.payouts[id] == p.(status := Failed, reason := Some(ExpiredBeforeSubmit))
          else db' == db.(payouts := db.payouts[id := db'.payouts[id]])
               && db'.payouts[id] == p.(status := Submitted, txSignature := Some(tx), signedTransaction := Some(tx), attempts := 1,
                                        reason := db'.payouts[id].reason))
  {
  }

  lemma ClaimKeepsNetwork(s: State, r: Request, height: nat, sendFailed: bool)
    requires Inv(s) && r in s.requests
    ensures
      var db' := ClaimSubmission(s.db, r.id, r.tx, r.lastValid, height, sendFailed);
      NetworkOk(s.(db := db', sent := if ClaimSucceeds(s.db, r.id, r.lastValid, height) then s.sent + {r.tx} else s.sent))
  {
    if r.id in s.db.payouts && s.db.payouts[r.id].status == Initiated {
      var db' := ClaimSubmission(s.db, r.id, r.tx, r.lastValid, height, sendFailed);
      ClaimWrites(s.db, r.id, r.tx, r.lastValid, height, sendFailed);
      if IsBlockhashExpired(height, r.lastValid) {
        StatusChangeKeepsNetwork(s, s.(db := db'), r.id, db'.payouts[r.id]);
      } else {
        ClaimedKeepsNetwork(s, s.(db := db', sent := s.sent + {r.tx}), r.id, db'.payouts[r.id], r.tx);
      }
    }
  }

  lemma LegacyKeepsNetwork(s: State, id: Id, rail: Rail)
    requires Inv(s) && rail != Usdc
    ensures NetworkOk(s.(db := RegisterLegacyEvidence(s.db, id, rail)))
  {
    if LegacyRefusal(s.db, id).None? && s.db.rows[id].status != RowPaid {
      PaidByLegacy(s.db, id, rail);
      EvidenceKeepsNetwork(s, id, RegisterLegacyEvidence(s.db, id, rail));
    }
  }

  /** What evidence writes: a finalized payout on another rail. */
  ghost predicate LegacyPaid(db: Db, db': Db, id: Id) {
    && NetsKept(db, db') && id in db'.payouts && db'.payouts == db.payouts[id := db'.payouts[id]]
    && db'.payouts[id].rail != Usdc && db'.payouts[id].status == Finalized
    && (if id in db.payouts then SameTracking(db.payouts[id], db'.payouts[id])
        else db'.payouts[id].lastValid.None? && db'.payouts[id].blockhash.None?
             && db'.payouts[id].txSignature.None? && db'.payouts[id].signedTransaction.None?)
  }

  lemma PaidByLegacy(db: Db, id: Id, rail: Rail)
    requires rail != Usdc && LegacyRefusal(db, id).None? && db.rows[id].status != RowPaid
    ensures LegacyPaid(db, RegisterLegacyEvidence(db, id, rail), id)
  {
  }

  lemma EvidenceKeepsNetwork(s: State, id: Id, db': Db)
    requires NetworkOk(s) && LegacyPaid(s.db, db', id)
    ensures NetworkOk(s.(db := db'))
  {
    if id in s.db.payouts {
      StatusChangeKeepsNetwork(s, s.(db := db'), id, db'.payouts[id]);
    } else {
      UntrackedKeepsNetwork(s, s.(db := db'), id, db'.payouts[id]);
    }
  }

  /** A payout that starts finalized has never had a transaction. */
  lemma UntrackedKeepsNetwork(s: State, s': State, id: Id, p: Payout)
    requires NetworkOk(s) && id !in s.db.payouts && Replaced(s, s', id, p)
    requires p.status == Finalized && p.rail != Usdc && p.lastValid.None? && p.blockhash.None?
    requires p.txSignature.None? && p.signedTransaction.None?
    ensures NetworkOk(s')
  {
    forall t | t in s.built ensures t.call.payment in s.db.payouts {
      assert TxOk(s, t);
    }
    NetworkFromPayout(s, s', id);
  }

  // ----- worker handlers

  /** A finalized record of a payout in flight is that of the tracked transaction, with its terms. */
  lemma FinalizedTermsAgree(s: State, id: Id)
    requires NetworkOk(s) && id in s.db.payouts && InFlight(s.db.payouts[id].status) && FinalizedRecord(s.chain, id).Some?
    ensures CarriesTerms(s.db, id, s.db.payouts[id], FinalizedRecord(s.chain, id).value)
  {
    var n := FinalizedLen(s.chain.landed, s.chain.root);
    var i := RecordComesFromTx(s.chain, n, id);
    var tx := s.chain.landed[i].what.tx;
    assert LandedAt(s.chain, tx, i);
    assert TxOk(s, tx);
  }

  lemma SettledIsSent(s: State, t: Tx)
    requires NetworkOk(s) && SettledBy(s.chain, t)
    ensures t in s.sent
  {
    var i :| LandedAt(s.chain, t, i) && Succeeded(s.chain.genesis, s.chain.landed, i);
  }

  lemma DeadIsUnsettled(c: ChainState, t: Tx)
    requires Dead(c, t)
    ensures !SettledBy(c, t)
  {
  }

  /** Once the tracked signature is dead and the row's blockhash expired, nothing settles the payment. */
  lemma DropIsFounded(s: State, id: Id, signature: Tx)
    requires NetworkOk(s) && id in s.db.payouts && InFlight(s.db.payouts[id].status)
    requires s.db.payouts[id].txSignature == Some(signature) && Expired(s.db.payouts[id], s.chain.height)
    requires Dead(s.chain, signature)
    ensures Unsettled(s, id)
  {
    forall t | t in s.built && t.call.payment == id ensures Spent(s.chain, t) {
      assert TxOk(s, t);
      if t in s.sent {
        DeadIsUnsettled(s.chain, signature);
      } else if SettledBy(s.chain, t) {
        SettledIsSent(s, t);
        assert false;
      }
    }
  }

  lemma SignatureExpiresWithRow(s: State, id: Id, height: nat)
    requires NetworkOk(s) && id in s.db.payouts && s.db.payouts[id].txSignature.Some?
    requires Expired(s.db.payouts[id], height) && height <= s.chain.height
    ensures s.db.payouts[id].txSignature.value.lastValid < s.chain.height
  {
    assert PayoutTracked(s, id);
    assert TxOk(s, s.db.payouts[id].txSignature.value);
  }

  /** Either drop reason, whichever handler gives it, is given for a dead signature only. */
  lemma DroppedIsDead(s: State, id: Id, height: nat, status: Option<SigStatus>, v: RpcView)
    requires NetworkOk(s) && id in s.db.payouts && s.db.payouts[id].txSignature.Some?
    requires height <= s.chain.height && Expired(s.db.payouts[id], height)
    requires v == View(s, id, s.db.payouts[id].txSignature.value, status, height)
    requires Truthful(s.chain, s.db.payouts[id].txSignature.value, status)
    requires status.None? || ForkWasDropped(true, status.value.slot, v)
    ensures Dead(s.chain, s.db.payouts[id].txSignature.value)
  {
    SignatureExpiresWithRow(s, id, height);
    if status.Some? {
      ObservedForkWasDropped(s.chain, s.db.payouts[id].txSignature.value, status.value);
    }
  }

  /** A verdict that would be written is founded in the cluster's state. */
  ghost predicate Founded(s: State, id: Id, verdict: Verdict)
    requires id in s.db.payouts
  {
    match verdict
    case Leave => true
    case SawConfirmed => s.db.payouts[id].status == Submitted
    case Finalize => InFlight(s.db.payouts[id].status) && FinalizedRecord(s.chain, id).Some?
    case Fail(reason) =>
      && InFlight(s.db.payouts[id].status)
      && (reason == TransactionDropped || reason == ForkDroppedAfterExpiry ==>
            s.db.payouts[id].txSignature.Some? && Dead(s.chain, s.db.payouts[id].txSignature.value)
            && Expired(s.db.payouts[id], s.chain.height))
  }

  /** What a verdict of the confirmation handler says about the payout and the answers it got. */
  lemma ConfirmationGrounds(p: Payout, signature: Tx, v: RpcView)
    ensures var verdict := ConfirmationVerdict(p, signature, v);
      && (verdict == SawConfirmed ==> p.status == Submitted)
      && (verdict.Finalize? || verdict.Fail? ==> p.status != Finalized && p.status != Failed && p.txSignature == Some(signature))
      && (verdict.Finalize? ==> v.record.Some?)
      && (verdict == Fail(TransactionDropped) || verdict == Fail(ForkDroppedAfterExpiry) ==>
            Expired(p, v.height) && (v.status.None? || ForkWasDropped(true, v.status.value.slot, v)))
  {
  }

  /** A payout with a signature that is neither finalized nor failed is in flight. */
  lemma SignedIsInFlight(s: State, id: Id)
    requires Inv(s) && id in s.db.payouts && s.db.payouts[id].txSignature.Some?
    requires s.db.payouts[id].status != Finalized && s.db.payouts[id].status != Failed
    ensures InFlight(s.db.payouts[id].status)
  {
    assert PayoutTracked(s, id) && PayoutOk(s.db, id);
  }

  lemma ConfirmationIsFounded(s: State, id: Id, signature: Tx, status: Option<SigStatus>)
    requires Inv(s) && id in s.db.payouts && Truthful(s.chain, signature, status)
    ensures Founded(s, id, ConfirmationVerdict(s.db.payouts[id], signature, View(s, id, signature, status, s.chain.height)))
  {
    var p, v := s.db.payouts[id], View(s, id, signature, status, s.chain.height);
    ConfirmationGrounds(p, signature, v);
    var verdict := ConfirmationVerdict(p, signature, v);
    if verdict.Finalize? || verdict.Fail? {
      SignedIsInFlight(s, id);
    }
    if verdict == Fail(TransactionDropped) || verdict == Fail(ForkDroppedAfterExpiry) {
      DroppedIsDead(s, id, s.chain.height, status, v);
    }
  }

  /** What a verdict of the sweep says about the payout and the answers it got. */
  lemma ReconcileGrounds(p: Payout, v: RpcView, abandoned: bool)
    ensures var verdict := ReconcileVerdict(p, v, abandoned);
      && (verdict == SawConfirmed ==> p.status == Submitted)
      && (verdict.Finalize? || verdict.Fail? ==> InFlight(p.status))
      && (verdict.Finalize? ==> v.record.Some?)
      && (verdict == Fail(TransactionDropped) || verdict == Fail(ForkDroppedAfterExpiry) ==>
            p.txSignature.Some? && Expired(p, v.height) && (v.status.None? || ForkWasDropped(true, v.status.value.slot, v)))
  {
  }

  lemma ReconcileIsFounded(s: State, id: Id, status: Option<SigStatus>, height: nat, abandoned: bool)
    requires Inv(s) && id in s.db.payouts && Enabled(s, Reconcile(id, status, height, abandoned))
    ensures Founded(s, id, ReconcileVerdict(s.db.payouts[id], TurnView(s, id, status, height), abandoned))
  {
    var p, v := s.db.payouts[id], TurnView(s, id, status, height);
    ReconcileGrounds(p, v, abandoned);
    var verdict := ReconcileVerdict(p, v, abandoned);
    if verdict == Fail(TransactionDropped) || verdict == Fail(ForkDroppedAfterExpiry) {
      DroppedIsDead(s, id, height, status, v);
    }
  }

  /** A verdict changes the payout's status and reason, and its row's status, only. */
  lemma VerdictWrites(s: State, id: Id, verdict: Verdict)
    requires id in s.db.payouts && verdict != Leave
    ensures
      var db' := ApplyVerdict(s.db, id, verdict);
      id in db'.payouts && Replaced(s, s.(db := db'), id, db'.payouts[id]) && SameTracking(s.db.payouts[id], db'.payouts[id])
      && db'.payouts[id] == s.db.payouts[id].(status := db'.payouts[id].status, reason := db'.payouts[id].reason)
      && db'.payouts[id].status == (match verdict case SawConfirmed => PayoutStatus.Confirmed case Finalize => Finalized case _ => Failed)
      && (verdict.Fail? ==> db'.payouts[id].reason == Some(verdict.reason))
  {
  }

  lemma VerdictKeepsNetwork(s: State, id: Id, verdict: Verdict)
    requires Inv(s) && id in s.db.payouts && Founded(s, id, verdict)
    ensures NetworkOk(s.(db := ApplyVerdict(s.db, id, verdict)))
  {
    if verdict != Leave {
      VerdictWrites(s, id, verdict);
      WrittenKeepsNetwork(s, id, verdict, ApplyVerdict(s.db, id, verdict));
    }
  }

  lemma WrittenKeepsNetwork(s: State, id: Id, verdict: Verdict, db': Db)
    requires Inv(s) && id in s.db.payouts && Founded(s, id, verdict) && verdict != Leave && id in db'.payouts
    requires Replaced(s, s.(db := db'), id, db'.payouts[id]) && SameTracking(s.db.payouts[id], db'.payouts[id])
    requires db'.payouts[id] == s.db.payouts[id].(status := db'.payouts[id].status, reason := db'.payouts[id].reason)
    requires db'.payouts[id].status == (match verdict case SawConfirmed => PayoutStatus.Confirmed case Finalize => Finalized case _ => Failed)
    requires verdict.Fail? ==> db'.payouts[id].reason == Some(verdict.reason)
    ensures NetworkOk(s.(db := db'))
  {
    if verdict == Finalize { FinalizedTermsAgree(s, id); }
    if DropVerdict(db'.payouts[id]) { DropIsFounded(s, id, s.db.payouts[id].txSignature.value); }
    StatusChangeKeepsNetwork(s, s.(db := db'), id, db'.payouts[id]);
  }

  /** Resending sends bytes that were sent before, and counts it. */
  lemma ResendKeepsNetwork(s: State, id: Id, resends: bool)
    requires NetworkOk(s)
    ensures Resend(s, id, resends) == s
    ensures NetworkOk(s.(db := CountResend(s.db, id, resends)))
  {
    if id in s.db.payouts {
      assert PayoutTracked(s, id);
      if resends && s.db.payouts[id].signedTransaction.Some? {
        assert s.sent + {s.db.payouts[id].signedTransaction.value} == s.sent;
      }
      var s' := s.(db := CountResend(s.db, id, resends));
      if s'.db.payouts[id] != s.db.payouts[id] {
        StatusChangeKeepsNetwork(s, s', id, s'.db.payouts[id]);
      } else {
        assert s.db.payouts[id := s.db.payouts[id]] == s.db.payouts;
      }
    }
  }

  lemma WorkerTurnKeepsNetwork(s: State, s': State, id: Id, verdict: Verdict, resends: bool)
    requires Inv(s) && id in s.db.payouts && Founded(s, id, verdict)
    requires s' == Resend(s.(db := CountResend(ApplyVerdict(s.db, id, verdict), id, resends)), id, resends)
    ensures NetworkOk(s')
  {
    VerdictKeepsNetwork(s, id, verdict);
    var s1 := s.(db := ApplyVerdict(s.db, id, verdict));
    ResendKeepsNetwork(s1, id, resends);
    ResendKeepsNetwork(s1.(db := CountResend(s1.db, id, resends)), id, resends);
  }

  lemma ConfirmationKeepsNetwork(s: State, id: Id, signature: Tx, status: Option<SigStatus>)
    requires Inv(s) && Enabled(s, Confirmation(id, signature, status))
    ensures NetworkOk(Apply(s, Confirmation(id, signature, status)))
  {
    if id in s.db.payouts {
      var v := View(s, id, signature, status, s.chain.height);
      ConfirmationIsFounded(s, id, signature, status);
      WorkerTurnKeepsNetwork(s, Apply(s, Confirmation(id, signature, status)), id,
                             ConfirmationVerdict(s.db.payouts[id], signature, v), ConfirmationResends(s.db.payouts[id], signature, v));
    }
  }

  lemma ReconcileKeepsNetwork(s: State, id: Id, status: Option<SigStatus>, height: nat, abandoned: bool)
    requires Inv(s) && Enabled(s, Reconcile(id, status, height, abandoned))
    ensures NetworkOk(Apply(s, Reconcile(id, status, height, abandoned)))
  {
    if id in s.db.payouts {
      var v := TurnView(s, id, status, height);
      ReconcileIsFounded(s, id, status, height, abandoned);
      WorkerTurnKeepsNetwork(s, Apply(s, Reconcile(id, status, height, abandoned)), id,
                             ReconcileVerdict(s.db.payouts[id], v, abandoned), ReconcileResends(s.db.payouts[id], v));
    }
  }

  lemma EventKeepsNetwork(s: State, id: Id)
    requires Inv(s)
    ensures NetworkOk(s.(db := SettledEvent(s.db, id)))
  {
    if id in s.db.payouts && (s.db.payouts[id].status == Submitted || s.db.payouts[id].status == Initiated) {
      var s' := s.(db := SettledEvent(s.db, id));
      StatusChangeKeepsNetwork(s, s', id, s'.db.payouts[id]);
    }
  }

  // ----- batch handlers: the payouts stay, their rows keep at least their money

  lemma RowsChangeKeepsNetwork(s: State, db': Db)
    requires NetworkOk(s) && db'.payouts == s.db.payouts && NetsKept(s.db, db')
    ensures NetworkOk(s.(db := db'))
  {
    var s' := s.(db := db');
    forall t | t in s'.built ensures TxOk(s', t) {
      assert TxOk(s, t);
    }
    forall k | k in s'.db.payouts ensures PayoutTracked(s', k) {
      assert PayoutTracked(s, k);
      assert FromBuild(s, k, s.db.payouts[k]) ==> FromBuild(s', k, s.db.payouts[k]);
    }
  }

  lemma CalculateKeepsNets(db: Db, b: Id, venue: Id, a: Engine.Allocation, hash: Hash, ids: seq<Id>, rails: map<Id, Rail>)
    requires LedgerOk(db) && FreshIds(db, ids, |a.shares|)
    ensures NetsKept(db, Calculate(db, b, venue, a, hash, ids, rails))
  {
    var db' := Calculate(db, b, venue, a, hash, ids, rails);
    forall k | k in db.payouts && k in db.rows
      ensures k in db'.rows && db'.rows[k] == db.rows[k] && HashFor(db', k) == HashFor(db, k)
    {
      PaidRowsStay(db, b, venue, a, hash, ids, rails, k);
      RowInItsBatch(db, k);
    }
  }

  lemma RowInItsBatch(db: Db, k: Id)
    requires LedgerOk(db) && k in db.rows
    ensures db.rows[k].batch in db.batches
  {
    assert RowOk(db, k);
  }

  lemma AttachKeepsNets(db: Db, held: Id, worker: Id, existing: Option<Id>)
    requires LedgerOk(db) && IsHeld(db, held) && FindsOwnRow(db, db.rows[held].batch, worker, existing)
    ensures existing.Some? ==> existing.value in db.rows && existing.value != held
    ensures NetsKept(db, AttachHeld(db, held, worker, existing))
  {
    assert RowOk(db, held);
  }

  /** The engine's result is one the ledger can store. */
  lemma AllocationFits(policy: Engine.Policy, tips: seq<Engine.Tip>, shifts: seq<Engine.Shift>, a: Engine.Allocation)
    requires Engine.ValidPolicy(policy) && Engine.Allocates(policy, tips, shifts, a)
    requires forall i :: 0 <= i < |tips| ==> 0 <= tips[i].amount
    ensures forall i :: 0 <= i < |a.shares| ==> 0 <= a.shares[i].amount
    ensures !Engine.HasBlockingIssue(a.issues) ==> SumSeq(Engine.AmountsOf(a.shares)) == a.pool
  {
    PoolNotNegative(policy, tips);
    Engine.SharesNotNegative(policy, tips, shifts, a);
    if !Engine.HasBlockingIssue(a.issues) {
      Engine.UnblockedAllocationIsExact(policy, tips, shifts, a);
    }
  }

  lemma {:induction false} PoolNotNegative(policy: Engine.Policy, tips: seq<Engine.Tip>)
    requires forall i :: 0 <= i < |tips| ==> 0 <= tips[i].amount
    ensures 0 <= Engine.Pool(policy, tips)
  {
    if tips != [] {
      PoolNotNegative(policy, tips[1..]);
    }
  }

  // ----- every step

  lemma ApiStepKeepsInv(s: State, step: ProtocolStep)
    requires Inv(s) && Enabled(s, step)
    requires step.CreatePayout? || step.Build? || step.CheckSubmit? || step.ClaimSubmit? || step.Legacy?
    ensures Inv(Apply(s, step))
  {
    match step
    case CreatePayout(id, wallet) =>
      CreateKeepsLedger(s.db, id, wallet, s.chain.height);
      CreateKeepsNetwork(s, id, wallet);
    case Build(id, _, _, _, _) =>
      BuildKeepsLedger(s.db, id, BuildAnswers(s, step));
      BuildKeepsNetwork(s, step);
    case CheckSubmit(id, tx) =>
      CheckKeepsNetwork(s, id, tx);
    case ClaimSubmit(r, height, sendFailed) =>
      ClaimKeepsLedger(s.db, r.id, r.tx, r.lastValid, height, sendFailed);
      ClaimKeepsNetwork(s, r, height, sendFailed);
    case Legacy(id, rail) =>
      LegacyKeepsLedger(s.db, id, rail);
      LegacyKeepsNetwork(s, id, rail);
  }

  lemma WorkerStepKeepsInv(s: State, step: ProtocolStep)
    requires Inv(s) && Enabled(s, step) && (step.Confirmation? || step.Reconcile? || step.DeliverEvent?)
    ensures Inv(Apply(s, step))
  {
    match step
    case Confirmation(id, signature, status) =>
      ConfirmationKeepsLedger(s.db, id, signature, View(s, id, signature, status, s.chain.height));
      ConfirmationKeepsNetwork(s, id, signature, status);
    case Reconcile(id, status, height, abandoned) =>
      ReconcileKeepsLedger(s.db, id, TurnView(s, id, status, height), abandoned);
      ReconcileKeepsNetwork(s, id, status, height, abandoned);
    case DeliverEvent(id) =>
      EventKeepsLedger(s.db, id);
      EventKeepsNetwork(s, id);
  }

  lemma CalculateKeepsInv(s: State, b: Id, venue: Id, a: Engine.Allocation, hash: Hash, ids: seq<Id>, rails: map<Id, Rail>)
    requires Inv(s) && FreshIds(s.db, ids, |a.shares|)
    requires forall i :: 0 <= i < |a.shares| ==> 0 <= a.shares[i].amount
    requires !Engine.HasBlockingIssue(a.issues) ==> SumSeq(Engine.AmountsOf(a.shares)) == a.pool
    ensures Inv(s.(db := Calculate(s.db, b, venue, a, hash, ids, rails)))
  {
    CalculateKeepsLedger(s.db, b, venue, a, hash, ids, rails);
    CalculateKeepsNets(s.db, b, venue, a, hash, ids, rails);
    RowsChangeKeepsNetwork(s, Calculate(s.db, b, venue, a, hash, ids, rails));
  }

  lemma CalculateStepKeepsInv(s: State, step: ProtocolStep)
    requires Inv(s) && step.CalculateBatch? && Enabled(s, step)
    ensures Inv(Apply(s, step))
  {
    AllocationFits(step.policy, step.tips, step.shifts, step.allocation);
    CalculateKeepsInv(s, step.b, step.venue, step.allocation, step.hash, step.ids, step.rails);
  }

  lemma ApproveKeepsInv(s: State, b: Id)
    requires Inv(s)
    ensures Inv(s.(db := Approve(s.db, b)))
  {
    ApproveKeepsLedger(s.db, b);
    RowsChangeKeepsNetwork(s, Approve(s.db, b));
  }

  lemma RejectKeepsInv(s: State, b: Id)
    requires Inv(s)
    ensures Inv(s.(db := Reject(s.db, b)))
  {
    RejectKeepsLedger(s.db, b);
    RowsChangeKeepsNetwork(s, Reject(s.db, b));
  }

  lemma AttachKeepsInv(s: State, held: Id, worker: Id, existing: Option<Id>)
    requires Inv(s) && IsHeld(s.db, held) && FindsOwnRow(s.db, s.db.rows[held].batch, worker, existing)
    ensures existing.Some? ==> existing.value in s.db.rows && existing.value != held
    ensures Inv(s.(db := AttachHeld(s.db, held, worker, existing)))
  {
    AttachKeepsLedger(s.db, held, worker, existing);
    AttachKeepsNets(s.db, held, worker, existing);
    RowsChangeKeepsNetwork(s, AttachHeld(s.db, held, worker, existing));
  }

  lemma BatchStepKeepsInv(s: State, step: ProtocolStep)
    requires Inv(s) && Enabled(s, step) && (step.ApproveBatch? || step.RejectBatch? || step.Attach?)
    ensures Inv(Apply(s, step))
  {
    match step
    case ApproveBatch(b) => ApproveKeepsInv(s, b);
    case RejectBatch(b) => RejectKeepsInv(s, b);
    case Attach(held, worker, existing) => AttachKeepsInv(s, held, worker, existing);
  }

  lemma StepKeepsInv(s: State, step: ProtocolStep)
    requires Inv(s) && Enabled(s, step)
    ensures Inv(Apply(s, step))
  {
    match step
    case CreatePayout(_, _) => ApiStepKeepsInv(s, step);
    case Build(_, _, _, _, _) => ApiStepKeepsInv(s, step);
    case CheckSubmit(_, _) => ApiStepKeepsInv(s, step);
    case ClaimSubmit(_, _, _) => ApiStepKeepsInv(s, step);
    case Legacy(_, _) => ApiStepKeepsInv(s, step);
    case CalculateBatch(_, _, _, _, _, _, _, _, _) => CalculateStepKeepsInv(s, step);
    case ApproveBatch(_) => BatchStepKeepsInv(s, step);
    case RejectBatch(_) => BatchStepKeepsInv(s, step);
    case Attach(_, _, _) => BatchStepKeepsInv(s, step);
    case Confirmation(_, _, _) => WorkerStepKeepsInv(s, step);
    case Reconcile(_, _, _, _) => WorkerStepKeepsInv(s, step);
    case DeliverEvent(_) => WorkerStepKeepsInv(s, step);
    case Cluster(chainStep) => ClusterKeepsNetwork(s, chainStep);
  }

  lemma InitialIsOk(s: State)
    requires Initial(s)
    ensures Inv(s)
  {
    EmptyLedgerIsOk();
  }

  lemma {:induction false} RunKeepsInv(s: State, steps: seq<ProtocolStep>, s': State)
    requires Inv(s) && Run(s, steps, s')
    ensures Inv(s')
    decreases |steps|
  {
    if steps != [] {
      StepKeepsInv(s, steps[0]);
      RunKeepsInv(Apply(s, steps[0]), steps[1..], s');
    }
  }

  lemma ReachableIsOk(s: State)
    requires Reachable(s)
    ensures Inv(s)
  {
    var s0, steps :| Initial(s0) && Run(s0, steps, s);
    InitialIsOk(s0);
    RunKeepsInv(s0, steps, s);
  }
}

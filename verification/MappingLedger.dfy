/** The two times of a mapping, as they leave the ledger: calculated and then attached, or calculated over the mapped shifts. */
module MappingLedger {
  import opened Wrappers
  import opened SettlementProgram
  import opened Ledger
  import opened LedgerHandlers
  import opened LedgerInvariant
  import opened MappingTiming
  import opened MappingNeutral
  import Engine = AllocationEngine

  /** One row of the batch for each recipient, and it carries the recipient's cents. */
  ghost predicate RowsHold(rows: map<Id, Row>, b: Id, cents: map<Engine.Key, int>) {
    && (forall id :: InBatch(rows, b, id) ==> RowHolds(rows[id], cents))
    && (forall k :: k in cents ==> exists id :: IsRowOf(rows, b, id, k))
    && (forall k, i, j :: IsRowOf(rows, b, i, k) && IsRowOf(rows, b, j, k) ==> i == j)
  }

  predicate RowHolds(row: Row, cents: map<Engine.Key, int>) {
    RecipientOf(row).Some? && RecipientOf(row).value in cents && row.net == cents[RecipientOf(row).value]
  }

  predicate IsRowOf(rows: map<Id, Row>, b: Id, id: Id, k: Engine.Key) {
    InBatch(rows, b, id) && RecipientOf(rows[id]) == Some(k)
  }

  lemma StoredShares(rows: map<Id, Row>, b: Id, shares: seq<Engine.Share>, ids: seq<Id>)
    requires Engine.Sorted(Engine.KeysOf(shares)) && |ids| == |shares|
    requires forall i, j :: 0 <= i < j < |ids| ==> ids[i] != ids[j]
    requires forall id :: InBatch(rows, b, id) ==> id in ids
    requires forall i :: 0 <= i < |ids| ==> InBatch(rows, b, ids[i]) && IsShare(rows[ids[i]], shares[i])
    ensures RowsHold(rows, b, CentsByRecipient(shares))
  {
    var keys, cents := Engine.KeysOf(shares), CentsByRecipient(shares);
    forall i | 0 <= i < |ids| ensures keys[i] in cents && cents[keys[i]] == shares[i].amount {
      AmountForPlace(shares, i);
      assert keys[i] in keys;
    }
    forall id | InBatch(rows, b, id) ensures RowHolds(rows[id], cents) {
      var i :| 0 <= i < |ids| && ids[i] == id;
      assert IsShare(rows[ids[i]], shares[i]);
    }
    forall k | k in cents ensures exists id :: IsRowOf(rows, b, id, k) {
      var i := PlaceOf(keys, k);
      assert IsRowOf(rows, b, ids[i], k);
    }
    OneRowEach(rows, b, shares, ids);
  }

  lemma OneRowEach(rows: map<Id, Row>, b: Id, shares: seq<Engine.Share>, ids: seq<Id>)
    requires Engine.Sorted(Engine.KeysOf(shares)) && |ids| == |shares|
    requires forall id :: InBatch(rows, b, id) ==> id in ids
    requires forall i :: 0 <= i < |ids| ==> InBatch(rows, b, ids[i]) && IsShare(rows[ids[i]], shares[i])
    ensures forall k, i, j :: IsRowOf(rows, b, i, k) && IsRowOf(rows, b, j, k) ==> i == j
  {
    var keys := Engine.KeysOf(shares);
    SortedIsDistinct(keys);
    forall k, id, id' | IsRowOf(rows, b, id, k) && IsRowOf(rows, b, id', k) ensures id == id' {
      var i :| 0 <= i < |ids| && ids[i] == id;
      var j :| 0 <= j < |ids| && ids[j] == id';
      assert keys[i] == k == keys[j];
    }
  }

  lemma CalculatedHolds(
    db: Db, b: Id, venue: Id, p: Engine.Policy, tips: seq<Engine.Tip>, shifts: seq<Engine.Shift>, a: Engine.Allocation,
    hash: Hash, ids: seq<Id>, rails: map<Id, Rail>)
    requires Engine.Allocates(p, tips, shifts, a) && FreshIds(db, ids, |a.shares|) && MayCalculate(db, b)
    ensures RowsHold(Calculate(db, b, venue, a, hash, ids, rails).rows, b, CentsByRecipient(a.shares))
  {
    RowsAreShares(db, b, venue, a, hash, ids, rails);
    RowsInBatch(db, b, venue, a, hash, ids, rails);
    StoredShares(Calculate(db, b, venue, a, hash, ids, rails).rows, b, a.shares, ids);
  }

  lemma RowsInBatch(db: Db, b: Id, venue: Id, a: Engine.Allocation, hash: Hash, ids: seq<Id>, rails: map<Id, Rail>)
    requires FreshIds(db, ids, |a.shares|) && MayCalculate(db, b)
    ensures forall i :: 0 <= i < |ids| ==> InBatch(Calculate(db, b, venue, a, hash, ids, rails).rows, b, ids[i])
  {
    forall i | 0 <= i < |ids| ensures ids[i] in NewRows(b, a.shares, ids, rails) {
      NewRowOf(b, a.shares, ids, rails, i);
    }
    forall id | id in NewRows(b, a.shares, ids, rails) ensures NewRows(b, a.shares, ids, rails)[id].batch == b {
      NewRowAt(b, a.shares, ids, rails, id);
    }
  }

  /** Attaching merges the cents as the rows. */
  lemma AttachedHolds(db: Db, held: Id, worker: Id, existing: Option<Id>, b: Id, cents: map<Engine.Key, int>, key: Engine.Key)
    requires RowsHold(db.rows, b, cents) && IsHeld(db, held) && IsRowOf(db.rows, b, held, key)
    requires FindsOwnRow(db, b, worker, existing)
    ensures existing.Some? ==> existing.value in db.rows && existing.value != held
    ensures RowsHold(AttachHeld(db, held, worker, existing).rows, b, Merged(cents, key, Engine.WorkerKey(worker)))
  {
    var after, own := AttachHeld(db, held, worker, existing).rows, Engine.WorkerKey(worker);
    assert RowHolds(db.rows[held], cents);
    match existing
    case None => TakenOverHolds(db.rows, after, held, worker, b, cents, key);
    case Some(row) => MergedHolds(db.rows, after, held, row, worker, b, cents, key);
  }

  lemma TakenOverHolds(
    rows: map<Id, Row>, after: map<Id, Row>, held: Id, worker: Id, b: Id, cents: map<Engine.Key, int>, key: Engine.Key)
    requires RowsHold(rows, b, cents) && IsRowOf(rows, b, held, key) && rows[held].worker.None?
    requires after == rows[held := rows[held].(worker := Some(worker))]
    requires forall id :: id in rows && InBatch(rows, b, id) ==> rows[id].worker != Some(worker)
    ensures RowsHold(after, b, Merged(cents, key, Engine.WorkerKey(worker)))
  {
    var own, merged := Engine.WorkerKey(worker), Merged(cents, key, Engine.WorkerKey(worker));
    assert RowHolds(rows[held], cents);
    NobodysRow(rows, b, cents, worker);
    assert IsRowOf(after, b, held, own);
    forall id, k | k != own && k != key ensures IsRowOf(after, b, id, k) <==> IsRowOf(rows, b, id, k) {
    }
    forall id | InBatch(after, b, id) ensures RowHolds(after[id], merged) {
      if id != held {
        assert RowHolds(rows[id], cents) && IsRowOf(rows, b, id, RecipientOf(rows[id]).value);
      }
    }
    forall k | k in merged ensures exists id :: IsRowOf(after, b, id, k) {
      if k != own {
        var id :| IsRowOf(rows, b, id, k);
        assert IsRowOf(after, b, id, k);
      }
    }
    forall k, i, j | IsRowOf(after, b, i, k) && IsRowOf(after, b, j, k) ensures i == j {
      if i != held && j != held {
        assert IsRowOf(rows, b, i, k) && IsRowOf(rows, b, j, k);
      }
    }
  }

  /** Without a row the worker has no cents. */
  lemma NobodysRow(rows: map<Id, Row>, b: Id, cents: map<Engine.Key, int>, worker: Id)
    requires RowsHold(rows, b, cents)
    requires forall id :: id in rows && InBatch(rows, b, id) ==> rows[id].worker != Some(worker)
    ensures Engine.WorkerKey(worker) !in cents
  {
    forall id ensures !IsRowOf(rows, b, id, Engine.WorkerKey(worker)) {
    }
  }

  lemma MergedHolds(
    rows: map<Id, Row>, after: map<Id, Row>, held: Id, row: Id, worker: Id, b: Id, cents: map<Engine.Key, int>, key: Engine.Key)
    requires RowsHold(rows, b, cents) && IsRowOf(rows, b, held, key) && rows[held].worker.None?
    requires InBatch(rows, b, row) && rows[row].worker == Some(worker)
    requires after == rows[row := rows[row].(pooled := rows[row].pooled + rows[held].pooled, net := rows[row].net + rows[held].net)] - {held}
    ensures RowsHold(after, b, Merged(cents, key, Engine.WorkerKey(worker)))
  {
    var own, merged := Engine.WorkerKey(worker), Merged(cents, key, Engine.WorkerKey(worker));
    assert RowHolds(rows[held], cents) && RowHolds(rows[row], cents) && IsRowOf(rows, b, row, own);
    forall id, k ensures IsRowOf(after, b, id, k) <==> IsRowOf(rows, b, id, k) && id != held {
    }
    forall id | InBatch(after, b, id) ensures RowHolds(after[id], merged) {
      if id != row {
        assert RowHolds(rows[id], cents) && IsRowOf(rows, b, id, RecipientOf(rows[id]).value);
      }
    }
    forall k | k in merged ensures exists id :: IsRowOf(after, b, id, k) {
      var id :| IsRowOf(rows, b, id, k);
      assert IsRowOf(after, b, id, k);
    }
  }

  /**
   * A batch calculated and then attached to, and one calculated over the mapped shifts, hold
   * rows for the same people that differ by at most a cent each, and by nothing at all if
   * and only if the late split meets the condition.
   */
  lemma LateOrEarlyPaysTheSame(
    db: Db, b: Id, venue: Id, p: Engine.Policy, tips: seq<Engine.Tip>, shifts: seq<Engine.Shift>, provider: Id, external: Id, worker: Id,
    late: Engine.Allocation, hash: Hash, ids: seq<Id>, rails: map<Id, Rail>,
    early: Engine.Allocation, hash': Hash, ids': seq<Id>, rails': map<Id, Rail>, held: Id, existing: Option<Id>)
    returns (attached: map<Engine.Key, int>, mapped: map<Engine.Key, int>)
    requires LateAndEarly(p, tips, shifts, provider, external, worker, late, early)
    requires MayCalculate(db, b) && FreshIds(db, ids, |late.shares|) && FreshIds(db, ids', |early.shares|)
    requires
      var calculated := Calculate(db, b, venue, late, hash, ids, rails);
      && IsHeld(calculated, held) && IsRowOf(calculated.rows, b, held, Engine.HeldKey(provider, external))
      && FindsOwnRow(calculated, b, worker, existing)
    ensures existing.Some? ==> existing.value in Calculate(db, b, venue, late, hash, ids, rails).rows && existing.value != held
    ensures RowsHold(AttachHeld(Calculate(db, b, venue, late, hash, ids, rails), held, worker, existing).rows, b, attached)
    ensures RowsHold(Calculate(db, b, venue, early, hash', ids', rails').rows, b, mapped)
    ensures attached.Keys == mapped.Keys && forall k :: k in mapped ==> -1 <= attached[k] - mapped[k] <= 1
    ensures attached == mapped <==>
      NeutralFor(Engine.Scores(p, shifts), late.pool, CentsByRecipient(late.shares), Engine.HeldKey(provider, external), Engine.WorkerKey(worker))
  {
    var calculated := Calculate(db, b, venue, late, hash, ids, rails);
    attached := Merged(CentsByRecipient(late.shares), Engine.HeldKey(provider, external), Engine.WorkerKey(worker));
    mapped := CentsByRecipient(early.shares);
    CalculatedHolds(db, b, venue, p, tips, shifts, late, hash, ids, rails);
    CalculatedHolds(db, b, venue, p, tips, MapShifts(provider, external, worker, shifts), early, hash', ids', rails');
    AttachedHolds(calculated, held, worker, existing, b, CentsByRecipient(late.shares), Engine.HeldKey(provider, external));
    SamePeople(p, tips, shifts, provider, external, worker, late, early);
    forall k | k in mapped ensures -1 <= attached[k] - mapped[k] <= 1 {
      MappingTimeMattersByACent(p, tips, shifts, provider, external, worker, late, early, k);
    }
    MappingTimeIsIrrelevantIff(p, tips, shifts, provider, external, worker, late, early);
  }

  lemma SamePeople(
    p: Engine.Policy, tips: seq<Engine.Tip>, shifts: seq<Engine.Shift>, provider: Id, external: Id, worker: Id,
    late: Engine.Allocation, early: Engine.Allocation)
    requires LateAndEarly(p, tips, shifts, provider, external, worker, late, early)
    ensures Merged(CentsByRecipient(late.shares), Engine.HeldKey(provider, external), Engine.WorkerKey(worker)).Keys == CentsByRecipient(early.shares).Keys
  {
    var held, own, scores := Engine.HeldKey(provider, external), Engine.WorkerKey(worker), Engine.Scores(p, shifts);
    if held !in scores || late.total == 0.0 {
      NothingToMove(p, tips, shifts, provider, external, worker, late, early);
    } else {
      SplitsOfBothRuns(p, tips, shifts, provider, external, worker, late, early);
      SplitPeople(late.pool, scores, late.shares);
      SplitPeople(early.pool, Moved(scores, held, own), early.shares);
    }
  }

  lemma SplitPeople(pool: int, scores: map<Engine.Key, real>, shares: seq<Engine.Share>)
    requires Engine.SplitsPool(pool, scores, shares)
    ensures CentsByRecipient(shares).Keys == scores.Keys
  {
  }
}

/** The endpoints that calculate, approve and reject batches, and the one that attaches held shares. */
module BatchServices {
  import opened Wrappers
  import opened Sums
  import opened SettlementProgram
  import opened Ledger
  import opened LedgerHandlers
  import opened LedgerInvariant
  import opened Database
  import Handlers = LedgerHandlers
  import Engine = AllocationEngine
  import MappingTiming

  datatype BatchError = VenueNotFound | PolicyNotFound | NoEvidence | BatchLocked | BatchNotFound | HasBlockingIssues | WrongBatchStatus

  // ----- planned rails

  /** The payout rail a shift's evidence names, if its worker is known. */
  datatype RailFact = RailFact(worker: Option<Id>, rail: Option<Rail>)

  predicate Says(facts: seq<RailFact>, worker: Id, rail: Rail) {
    exists i :: 0 <= i < |facts| && facts[i] == RailFact(Some(worker), Some(rail))
  }

  predicate Contradictory(facts: seq<RailFact>, worker: Id) {
    exists i, j :: 0 <= i < |facts| && 0 <= j < |facts| && facts[i].worker == facts[j].worker == Some(worker)
                   && facts[i].rail.Some? && facts[j].rail.Some? && facts[i].rail != facts[j].rail
  }

  /** A worker's rail is planned when the worker's shifts name one and only one. */
  ghost predicate PlansFrom(facts: seq<RailFact>, planned: map<Id, Rail>, conflicting: set<Id>) {
    && (forall w, r :: w in planned && planned[w] == r <==> Says(facts, w, r) && !Contradictory(facts, w))
    && (forall w :: w in conflicting <==> Contradictory(facts, w))
  }

  lemma OneMoreFact(facts: seq<RailFact>, fact: RailFact, w: Id)
    ensures forall r :: Says(facts + [fact], w, r) <==> Says(facts, w, r) || fact == RailFact(Some(w), Some(r))
    ensures Contradictory(facts + [fact], w) <==>
      Contradictory(facts, w) || (fact.worker == Some(w) && fact.rail.Some? && exists r :: r != fact.rail.value && Says(facts, w, r))
  {
    var all, n := facts + [fact], |facts|;
    forall r ensures Says(all, w, r) <==> Says(facts, w, r) || fact == RailFact(Some(w), Some(r)) {
      if Says(facts, w, r) {
        var i :| 0 <= i < n && facts[i] == RailFact(Some(w), Some(r));
        assert all[i] == facts[i];
      }
      assert all[n] == fact;
    }
    if Contradictory(facts, w) {
      var i, j :| 0 <= i < n && 0 <= j < n && facts[i].worker == facts[j].worker == Some(w)
                  && facts[i].rail.Some? && facts[j].rail.Some? && facts[i].rail != facts[j].rail;
      assert all[i] == facts[i] && all[j] == facts[j];
    }
    if fact.worker == Some(w) && fact.rail.Some? {
      if r :| r != fact.rail.value && Says(facts, w, r) {
        var i :| 0 <= i < n && facts[i] == RailFact(Some(w), Some(r));
        assert all[i] == facts[i] && all[n] == fact;
      }
    }
  }

  lemma OneRailUnlessContradictory(facts: seq<RailFact>, w: Id)
    ensures forall a, b :: Says(facts, w, a) && Says(facts, w, b) && a != b ==> Contradictory(facts, w)
  {
    forall a, b | Says(facts, w, a) && Says(facts, w, b) && a != b ensures Contradictory(facts, w) {
      var i :| 0 <= i < |facts| && facts[i] == RailFact(Some(w), Some(a));
      var j :| 0 <= j < |facts| && facts[j] == RailFact(Some(w), Some(b));
    }
  }

  lemma PlansStep(facts: seq<RailFact>, fact: RailFact, planned: map<Id, Rail>, conflicting: set<Id>, planned': map<Id, Rail>, conflicting': set<Id>)
    requires PlansFrom(facts, planned, conflicting)
    requires
      if fact.worker.None? || fact.rail.None? then planned' == planned && conflicting' == conflicting
      else
        var w, r := fact.worker.value, fact.rail.value;
        if w in planned && planned[w] != r then planned' == planned - {w} && conflicting' == conflicting + {w}
        else if w !in conflicting then planned' == planned[w := r] && conflicting' == conflicting
        else planned' == planned && conflicting' == conflicting
    ensures PlansFrom(facts + [fact], planned', conflicting')
  {
    forall w, r ensures w in planned' && planned'[w] == r <==> Says(facts + [fact], w, r) && !Contradictory(facts + [fact], w) {
      OneMoreFact(facts, fact, w);
      OneRailUnlessContradictory(facts, w);
      assert w in planned ==> Says(facts, w, planned[w]);
    }
    forall w ensures w in conflicting' <==> Contradictory(facts + [fact], w) {
      OneMoreFact(facts, fact, w);
      OneRailUnlessContradictory(facts, w);
      assert w in planned ==> Says(facts, w, planned[w]);
    }
  }

  method PlanRails(facts: seq<RailFact>) returns (planned: map<Id, Rail>, conflicting: set<Id>)
    ensures PlansFrom(facts, planned, conflicting)
  {
    planned, conflicting := map[], {};
    for n := 0 to |facts|
      invariant PlansFrom(facts[..n], planned, conflicting)
    {
      ghost var before, conflictsBefore := planned, conflicting;
      var fact := facts[n];
      assert facts[..n + 1] == facts[..n] + [fact];
      if fact.worker.Some? && fact.rail.Some? {
        var worker, rail := fact.worker.value, fact.rail.value;
        if worker in planned && planned[worker] != rail {
          conflicting := conflicting + {worker};
          planned := planned - {worker};
        } else if worker !in conflicting {
          planned := planned[worker := rail];
        }
      }
      PlansStep(facts[..n], fact, before, conflictsBefore, planned, conflicting);
    }
    assert facts[..|facts|] == facts;
  }

  // ----- calculate, approve, reject

  function IdsFrom(next: Id, n: nat): (ids: seq<Id>)
    ensures |ids| == n && forall i :: 0 <= i < n ==> ids[i] == next + i
  {
    seq(n, i requires 0 <= i < n => next + i)
  }

  /** The table once the first n rows are in. */
  function Inserted(rows: map<Id, Row>, b: Id, shares: seq<Engine.Share>, ids: seq<Id>, rails: map<Id, Rail>, n: nat): map<Id, Row>
    requires n <= |ids| == |shares|
  {
    if n == 0 then rows else Inserted(rows, b, shares, ids, rails, n - 1)[ids[n - 1] := NewRow(b, shares[n - 1], rails)]
  }

  lemma {:induction false} InsertedAt(
    rows: map<Id, Row>, b: Id, shares: seq<Engine.Share>, ids: seq<Id>, rails: map<Id, Rail>, n: nat, id: Id)
    requires n <= |ids| == |shares| && forall i, j :: 0 <= i < j < |ids| ==> ids[i] != ids[j]
    ensures id in Inserted(rows, b, shares, ids, rails, n) <==> id in rows || id in ids[..n]
    ensures id in rows && id !in ids[..n] ==> Inserted(rows, b, shares, ids, rails, n)[id] == rows[id]
    ensures forall i :: 0 <= i < n && ids[i] == id ==> Inserted(rows, b, shares, ids, rails, n)[id] == NewRow(b, shares[i], rails)
  {
    if n > 0 {
      InsertedAt(rows, b, shares, ids, rails, n - 1, id);
      assert ids[..n] == ids[..n - 1] + [ids[n - 1]];
    }
  }

  lemma NewRowIs(b: Id, shares: seq<Engine.Share>, ids: seq<Id>, rails: map<Id, Rail>, id: Id)
    requires |ids| == |shares| && forall i, j :: 0 <= i < j < |ids| ==> ids[i] != ids[j]
    ensures id in NewRows(b, shares, ids, rails) <==> id in ids
    ensures forall i :: 0 <= i < |ids| && ids[i] == id ==> NewRows(b, shares, ids, rails)[id] == NewRow(b, shares[i], rails)
  {
  }

  lemma InsertedAll(rows: map<Id, Row>, b: Id, shares: seq<Engine.Share>, ids: seq<Id>, rails: map<Id, Rail>)
    requires |ids| == |shares| && forall i, j :: 0 <= i < j < |ids| ==> ids[i] != ids[j]
    ensures Inserted(rows, b, shares, ids, rails, |ids|) == rows + NewRows(b, shares, ids, rails)
  {
    forall id
      ensures id in Inserted(rows, b, shares, ids, rails, |ids|) <==> id in rows + NewRows(b, shares, ids, rails)
      ensures id in rows + NewRows(b, shares, ids, rails) ==>
        Inserted(rows, b, shares, ids, rails, |ids|)[id] == (rows + NewRows(b, shares, ids, rails))[id]
    {
      InsertedOne(rows, b, shares, ids, rails, id);
    }
  }

  lemma InsertedOne(rows: map<Id, Row>, b: Id, shares: seq<Engine.Share>, ids: seq<Id>, rails: map<Id, Rail>, id: Id)
    requires |ids| == |shares| && forall i, j :: 0 <= i < j < |ids| ==> ids[i] != ids[j]
    ensures
      var after, expected := Inserted(rows, b, shares, ids, rails, |ids|), rows + NewRows(b, shares, ids, rails);
      (id in after <==> id in expected) && (id in expected ==> after[id] == expected[id])
  {
    InsertedAt(rows, b, shares, ids, rails, |ids|, id);
    NewRowIs(b, shares, ids, rails, id);
    assert ids[..|ids|] == ids;
  }

  function CalculateRefusal(
    db: Db, b: Id, venue: Option<Id>, policy: Option<Engine.Policy>, tips: seq<Engine.Tip>, shifts: seq<Engine.Shift>): Option<BatchError>
  {
    if venue.None? then Some(VenueNotFound)
    else if policy.None? then Some(PolicyNotFound)
    else if tips == [] && shifts == [] then Some(NoEvidence)
    else if !MayCalculate(db, b) then Some(BatchLocked)
    else None
  }

  class AllocationsApi {
    const db: Tables

    constructor (db: Tables)
      ensures this.db == db
    {
      this.db := db;
    }

    /** createMany */
    method InsertRows(b: Id, shares: seq<Engine.Share>, ids: seq<Id>, rails: map<Id, Rail>)
      requires FreshIds(db.View(), ids, |shares|)
      modifies db`rows
      ensures db.rows == old(db.rows) + NewRows(b, shares, ids, rails)
    {
      for n := 0 to |shares|
        invariant db.rows == Inserted(old(db.rows), b, shares, ids, rails, n)
      {
        db.rows := db.rows[ids[n] := NewRow(b, shares[n], rails)];
      }
      InsertedAll(old(db.rows), b, shares, ids, rails);
    }

    /**
     * `venue` and `policy` are what the lookups found; `b` is the batch of the venue, business
     * date and policy version, stored already or not; ids from `next` on are unused.
     */
    method Calculate(
      b: Id, venue: Option<Id>, policy: Option<Engine.Policy>, tips: seq<Engine.Tip>, shifts: seq<Engine.Shift>,
      facts: seq<RailFact>, next: Id, hashOf: (int, seq<Engine.Share>) -> Hash)
      returns (r: Result<Engine.Allocation, BatchError>)
      requires policy.Some? ==> Engine.ValidPolicy(policy.value)
      requires forall id :: id in db.rows ==> id < next && db.rows[id].batch in db.batches
      requires forall id :: id in db.payouts ==> id < next
      modifies db
      ensures r.Err? <==> CalculateRefusal(old(db.View()), b, venue, policy, tips, shifts).Some?
      ensures match r
        case Err(why) => db.View() == old(db.View()) && Some(why) == CalculateRefusal(old(db.View()), b, venue, policy, tips, shifts)
        case Ok(a) =>
          && Engine.Allocates(policy.value, tips, shifts, a)
          && FreshIds(old(db.View()), IdsFrom(next, |a.shares|), |a.shares|)
          && exists planned, conflicting :: PlansFrom(facts, planned, conflicting)
               && db.View() == Handlers.Calculate(old(db.View()), b, venue.value, a, hashOf(a.pool, a.shares), IdsFrom(next, |a.shares|), planned)
    {
      if venue.None? { return Err(VenueNotFound); }
      if policy.None? { return Err(PolicyNotFound); }
      if |tips| == 0 && |shifts| == 0 { return Err(NoEvidence); }
      if b in db.batches && !Recalculable(db.batches[b].status) { return Err(BatchLocked); }
      var result := Engine.ComputeAllocationBatch(policy.value, tips, shifts);
      var a := result.value;
      var planned, conflicting := PlanRails(facts);
      StoreCalculation(b, venue.value, a, hashOf(a.pool, a.shares), IdsFrom(next, |a.shares|), planned);
      return Ok(a);
    }

    /** The writes of a calculation, in one transaction. */
    method StoreCalculation(b: Id, venue: Id, a: Engine.Allocation, hash: Hash, ids: seq<Id>, planned: map<Id, Rail>)
      requires FreshIds(db.View(), ids, |a.shares|) && MayCalculate(db.View(), b)
      requires forall id :: id in db.rows ==> db.rows[id].batch in db.batches
      modifies db
      ensures db.View() == Handlers.Calculate(old(db.View()), b, venue, a, hash, ids, planned)
    {
      var status := if Engine.HasBlockingIssue(a.issues) then ReviewRequired else BatchStatus.Calculated;
      ghost var before := db.View();
      if b in db.batches {
        db.rows := OtherRows(db.rows, b);
      }
      assert db.rows == OtherRows(before.rows, b);
      db.batches := db.batches[b := Batch(venue, a.pool, Some(hash), status)];
      InsertRows(b, a.shares, ids, planned);
    }

    method Approve(b: Id) returns (error: Option<BatchError>)
      modifies db`batches
      ensures db.View() == Handlers.Approve(old(db.View()), b)
      ensures error.None? <==> b in old(db.batches) && old(db.batches)[b].status == BatchStatus.Calculated
      ensures error == Some(HasBlockingIssues) <==> b in old(db.batches) && old(db.batches)[b].status == ReviewRequired
    {
      if b !in db.batches { return Some(BatchNotFound); }
      if db.batches[b].status == ReviewRequired { return Some(HasBlockingIssues); }
      if db.batches[b].status != BatchStatus.Calculated { return Some(WrongBatchStatus); }
      db.batches := db.batches[b := db.batches[b].(status := Payable)];
      return None;
    }

    method Reject(b: Id) returns (error: Option<BatchError>)
      modifies db`batches
      ensures db.View() == Handlers.Reject(old(db.View()), b)
      ensures error.Some? ==> db.View() == old(db.View())
      ensures error.None? <==>
        b in old(db.batches) && (old(db.batches)[b].status == BatchStatus.Calculated || old(db.batches)[b].status == ReviewRequired)
    {
      if b !in db.batches { return Some(BatchNotFound); }
      if db.batches[b].status != BatchStatus.Calculated && db.batches[b].status != ReviewRequired { return Some(WrongBatchStatus); }
      db.batches := db.batches[b := db.batches[b].(status := Draft)];
      return None;
    }
  }

  // ----- attaching held shares

  /** A share held at the venue for an external worker. */
  predicate HeldFor(db: Db, id: Id, venue: Id, external: (Id, Id)) {
    id in db.rows && db.rows[id].worker.None? && db.rows[id].external == Some(external)
    && db.rows[id].batch in db.batches && db.batches[db.rows[id].batch].venue == venue
  }

  predicate OfWorker(row: Row, worker: Id, external: (Id, Id)) {
    row.worker == Some(worker) || (row.worker.None? && row.external == Some(external))
  }

  /** What a worker has in a batch, the worker's held shares included. */
  ghost function ClaimsOn(rows: map<Id, Row>, b: Id, worker: Id, external: (Id, Id)): map<nat, int> {
    map id | id in rows && rows[id].batch == b && OfWorker(rows[id], worker, external) :: rows[id].net
  }

  /** Nobody else's row changes, and in every batch the worker's claims keep their sum. */
  ghost predicate MovesOnlyClaims(db: Db, db': Db, worker: Id, external: (Id, Id)) {
    && db'.batches == db.batches && db'.payouts == db.payouts
    && (forall id :: id in db.rows && !OfWorker(db.rows[id], worker, external) ==> id in db'.rows && db'.rows[id] == db.rows[id])
    && (forall id :: id in db'.rows ==> id in db.rows)
    && (forall id :: id in db'.rows ==> db'.rows[id].batch == db.rows[id].batch)
    && (forall id :: id in db'.rows ==> OfWorker(db'.rows[id], worker, external) == OfWorker(db.rows[id], worker, external))
    && (forall b :: SumMap(ClaimsOn(db'.rows, b, worker, external)) == SumMap(ClaimsOn(db.rows, b, worker, external)))
  }

  /** Nothing is attached at another venue. */
  ghost predicate OtherVenuesKept(db: Db, db': Db, venue: Id) {
    forall id :: id in db.rows && !(db.rows[id].batch in db.batches && db.batches[db.rows[id].batch].venue == venue)
      ==> id in db'.rows && db'.rows[id] == db.rows[id]
  }

  /** The share is the worker's now, as a row of its own or merged into one the worker has in the batch. */
  ghost predicate Attached(db: Db, db': Db, id: Id, worker: Id)
    requires id in db.rows
  {
    if id in db'.rows then db'.rows[id].worker == Some(worker) && db'.rows[id].batch == db.rows[id].batch
    else exists own :: own in db'.rows && InBatch(db'.rows, db.rows[id].batch, own) && db'.rows[own].worker == Some(worker)
  }

  /** What attaching writes: a worker on the share, or its cents on the worker's own row and the share gone. */
  lemma AttachWrites(db: Db, held: Id, worker: Id, existing: Option<Id>)
    requires IsHeld(db, held) && (existing.Some? ==> existing.value in db.rows && existing.value != held)
    ensures
      var after := AttachHeld(db, held, worker, existing);
      && after.batches == db.batches && after.payouts == db.payouts
      && (forall id :: id in db.rows && id != held && existing != Some(id) ==> id in after.rows && after.rows[id] == db.rows[id])
      && (existing.None? ==> after.rows.Keys == db.rows.Keys && after.rows[held] == db.rows[held].(worker := Some(worker)))
      && (existing.Some? ==>
            var own := existing.value;
            && after.rows.Keys == db.rows.Keys - {held}
            && after.rows[own].net == db.rows[own].net + db.rows[held].net
            && after.rows[own].pooled == db.rows[own].pooled + db.rows[held].pooled
            && after.rows[own] == db.rows[own].(net := after.rows[own].net, pooled := after.rows[own].pooled))
  {
  }

  lemma AttachMovesOnlyClaims(db: Db, held: Id, worker: Id, existing: Option<Id>, external: (Id, Id))
    requires IsHeld(db, held) && db.rows[held].external == Some(external)
    requires FindsOwnRow(db, db.rows[held].batch, worker, existing)
    ensures existing.Some? ==> existing.value in db.rows && existing.value != held
    ensures MovesOnlyClaims(db, AttachHeld(db, held, worker, existing), worker, external)
  {
    var db' := AttachHeld(db, held, worker, existing);
    forall b ensures SumMap(ClaimsOn(db'.rows, b, worker, external)) == SumMap(ClaimsOn(db.rows, b, worker, external)) {
      AttachKeepsClaims(db, held, worker, existing, external, b);
    }
  }

  lemma AttachKeepsClaims(db: Db, held: Id, worker: Id, existing: Option<Id>, external: (Id, Id), b: Id)
    requires IsHeld(db, held) && db.rows[held].external == Some(external)
    requires FindsOwnRow(db, db.rows[held].batch, worker, existing)
    requires existing.Some? ==> existing.value in db.rows && existing.value != held
    ensures SumMap(ClaimsOn(AttachHeld(db, held, worker, existing).rows, b, worker, external)) == SumMap(ClaimsOn(db.rows, b, worker, external))
  {
    var claims := ClaimsOn(db.rows, b, worker, external);
    var claims' := ClaimsOn(AttachHeld(db, held, worker, existing).rows, b, worker, external);
    match existing
    case None => assert claims' == claims;
    case Some(own) =>
      if db.rows[held].batch == b {
        var merged := db.rows[own].net + db.rows[held].net;
        assert claims' == claims[own := merged] - {held};
        SumRemove(claims[own := merged], held);
        SumUpdate(claims, own, merged);
      } else {
        assert claims' == claims;
      }
  }

  /** The loop's invariant: what is still to do is what is still held, and only claims have moved. */
  ghost predicate Attaching(start: Db, now: Db, todo: set<Id>, venue: Id, worker: Id, external: (Id, Id)) {
    && (forall id :: HeldFor(now, id, venue, external) <==> id in todo)
    && MovesOnlyClaims(start, now, worker, external)
    && OtherVenuesKept(start, now, venue)
    && AllAttached(start, now, todo, venue, worker, external)
    && (LedgerOk(start) ==> LedgerOk(now))
  }

  /** All but those still to do are attached. */
  ghost predicate AllAttached(start: Db, now: Db, todo: set<Id>, venue: Id, worker: Id, external: (Id, Id)) {
    forall id :: HeldFor(start, id, venue, external) && id !in todo ==> Attached(start, now, id, worker)
  }

  lemma AttachedStays(start: Db, now: Db, held: Id, worker: Id, existing: Option<Id>, id: Id)
    requires IsHeld(now, held) && FindsOwnRow(now, now.rows[held].batch, worker, existing) && id in start.rows
    requires existing.Some? ==> existing.value in now.rows && existing.value != held
    requires Attached(start, now, id, worker)
    ensures Attached(start, AttachHeld(now, held, worker, existing), id, worker)
  {
    var after := AttachHeld(now, held, worker, existing);
    if id !in now.rows {
      var own :| own in now.rows && InBatch(now.rows, start.rows[id].batch, own) && now.rows[own].worker == Some(worker);
      assert InBatch(after.rows, start.rows[id].batch, own);
    }
  }

  lemma AttachAttaches(start: Db, now: Db, held: Id, worker: Id, existing: Option<Id>)
    requires IsHeld(now, held) && FindsOwnRow(now, now.rows[held].batch, worker, existing)
    requires existing.Some? ==> existing.value in now.rows && existing.value != held
    requires held in start.rows && start.rows[held].batch == now.rows[held].batch
    ensures Attached(start, AttachHeld(now, held, worker, existing), held, worker)
  {
    if existing.Some? {
      assert InBatch(AttachHeld(now, held, worker, existing).rows, start.rows[held].batch, existing.value);
    }
  }

  lemma AttachKeepsAttached(start: Db, now: Db, todo: set<Id>, venue: Id, worker: Id, external: (Id, Id), held: Id, existing: Option<Id>)
    requires Attaching(start, now, todo, venue, worker, external) && held in todo
    requires HeldFor(now, held, venue, external) && FindsOwnRow(now, now.rows[held].batch, worker, existing)
    requires existing.Some? ==> existing.value in now.rows && existing.value != held
    ensures AllAttached(start, AttachHeld(now, held, worker, existing), todo - {held}, venue, worker, external)
  {
    forall id | HeldFor(start, id, venue, external) && id !in todo - {held}
      ensures Attached(start, AttachHeld(now, held, worker, existing), id, worker)
    {
      if id == held { AttachAttaches(start, now, held, worker, existing); } else { AttachedStays(start, now, held, worker, existing, id); }
    }
  }

  lemma AttachStaysAtVenue(start: Db, now: Db, venue: Id, external: (Id, Id), held: Id, worker: Id, existing: Option<Id>)
    requires OtherVenuesKept(start, now, venue) && now.batches == start.batches && (forall id :: id in now.rows ==> id in start.rows)
    requires forall id :: id in now.rows ==> now.rows[id].batch == start.rows[id].batch
    requires HeldFor(now, held, venue, external) && FindsOwnRow(now, now.rows[held].batch, worker, existing)
    requires existing.Some? ==> existing.value in now.rows && existing.value != held
    ensures OtherVenuesKept(start, AttachHeld(now, held, worker, existing), venue)
  {
  }

  lemma AttachedIsNotHeld(db: Db, held: Id, worker: Id, existing: Option<Id>, venue: Id, external: (Id, Id))
    requires IsHeld(db, held) && FindsOwnRow(db, db.rows[held].batch, worker, existing)
    ensures existing.Some? ==> existing.value in db.rows && existing.value != held
    ensures forall id :: HeldFor(AttachHeld(db, held, worker, existing), id, venue, external) <==> HeldFor(db, id, venue, external) && id != held
  {
  }

  lemma AttachTurn(start: Db, now: Db, todo: set<Id>, venue: Id, worker: Id, external: (Id, Id), held: Id, existing: Option<Id>)
    requires Attaching(start, now, todo, venue, worker, external) && held in todo
    requires HeldFor(now, held, venue, external) && FindsOwnRow(now, now.rows[held].batch, worker, existing)
    ensures existing.Some? ==> existing.value in now.rows && existing.value != held
    ensures Attaching(start, AttachHeld(now, held, worker, existing), todo - {held}, venue, worker, external)
  {
    AttachedIsNotHeld(now, held, worker, existing, venue, external);
    AttachMovesOnlyClaims(now, held, worker, existing, external);
    AttachKeepsAttached(start, now, todo, venue, worker, external, held, existing);
    AttachStaysAtVenue(start, now, venue, external, held, worker, existing);
    MovesTwice(start, now, AttachHeld(now, held, worker, existing), worker, external);
    if LedgerOk(now) { AttachKeepsLedger(now, held, worker, existing); }
  }

  lemma MovesTwice(a: Db, b: Db, c: Db, worker: Id, external: (Id, Id))
    requires MovesOnlyClaims(a, b, worker, external) && MovesOnlyClaims(b, c, worker, external)
    ensures MovesOnlyClaims(a, c, worker, external)
  {
  }

  // ----- verifying a mapping

  datatype MappingStatus = MappingPending | MappingConfirmed | MappingRejected

  /** An external worker account a venue says belongs to a worker. */
  datatype Mapping = Mapping(venue: Id, provider: Id, external: Id, worker: Id, status: MappingStatus)

  datatype MappingError = MappingNotFound | MappingWasRejected

  function ShiftsAt(shifts: map<Id, seq<Engine.Shift>>, venue: Id): seq<Engine.Shift> {
    if venue in shifts then shifts[venue] else []
  }

  /** How many of the first n shifts the backfill fills in. */
  function FilledIn(provider: Id, external: Id, shifts: seq<Engine.Shift>, n: nat): nat
    requires n <= |shifts|
  {
    if n == 0 then 0
    else
      var s := shifts[n - 1];
      FilledIn(provider, external, shifts, n - 1) + if s.worker.None? && s.provider == provider && s.external == external then 1 else 0
  }

  lemma {:induction false} MapShiftsEach(provider: Id, external: Id, worker: Id, shifts: seq<Engine.Shift>)
    ensures |MappingTiming.MapShifts(provider, external, worker, shifts)| == |shifts|
    ensures forall i :: 0 <= i < |shifts| ==>
      MappingTiming.MapShifts(provider, external, worker, shifts)[i] == MappingTiming.MapShift(provider, external, worker, shifts[i])
  {
    if shifts != [] {
      MapShiftsEach(provider, external, worker, shifts[1..]);
    }
  }

  class MappingsApi {
    const db: Tables
    var mappings: map<Id, Mapping>
    /** Shift evidence by venue. */
    var shifts: map<Id, seq<Engine.Shift>>

    constructor (db: Tables)
      ensures this.db == db && mappings == map[] && shifts == map[]
    {
      this.db := db;
      mappings, shifts := map[], map[];
    }

    /** updateMany: the worker is filled in where the external worker's shifts have none. */
    method BackfillShifts(venue: Id, provider: Id, external: Id, worker: Id) returns (count: nat)
      modifies this`shifts
      ensures ShiftsAt(shifts, venue) == MappingTiming.MapShifts(provider, external, worker, old(ShiftsAt(shifts, venue)))
      ensures forall v :: v != venue ==> ShiftsAt(shifts, v) == old(ShiftsAt(shifts, v))
      ensures count == FilledIn(provider, external, old(ShiftsAt(shifts, venue)), |old(ShiftsAt(shifts, venue))|)
      ensures |ShiftsAt(shifts, venue)| == |old(ShiftsAt(shifts, venue))|
      ensures forall i :: 0 <= i < |ShiftsAt(shifts, venue)| ==>
        var before := old(ShiftsAt(shifts, venue))[i];
        var matches := before.worker.None? && before.provider == provider && before.external == external;
        ShiftsAt(shifts, venue)[i] == before.(worker := if matches then Some(worker) else before.worker)
    {
      var table := ShiftsAt(shifts, venue);
      ghost var before := table;
      count := 0;
      for i := 0 to |table|
        invariant |table| == |before|
        invariant forall j :: 0 <= j < i ==> table[j] == MappingTiming.MapShift(provider, external, worker, before[j])
        invariant forall j :: i <= j < |table| ==> table[j] == before[j]
        invariant count == FilledIn(provider, external, before, i)
      {
        var shift := table[i];
        if shift.worker.None? && shift.provider == provider && shift.external == external {
          table := table[i := shift.(worker := Some(worker))];
          count := count + 1;
        }
      }
      MapShiftsEach(provider, external, worker, before);
      shifts := shifts[venue := table];
    }

    /** A rejected mapping changes nothing; any other is confirmed, its shifts backfilled and its held shares attached. */
    method VerifyMapping(id: Id) returns (r: Result<(nat, nat), MappingError>)
      modifies this`mappings, this`shifts, db`rows
      ensures r.Ok? <==> id in old(mappings) && old(mappings)[id].status != MappingRejected
      ensures r.Err? ==> mappings == old(mappings) && shifts == old(shifts) && db.rows == old(db.rows)
      ensures r.Ok? ==>
        var m := old(mappings)[id];
        && mappings == old(mappings)[id := m.(status := MappingConfirmed)]
        && ShiftsAt(shifts, m.venue) == MappingTiming.MapShifts(m.provider, m.external, m.worker, ShiftsAt(old(shifts), m.venue))
        && r.value.0 == FilledIn(m.provider, m.external, ShiftsAt(old(shifts), m.venue), |ShiftsAt(old(shifts), m.venue)|)
        && r.value.1 == |set k | k in old(db.rows) && HeldFor(old(db.View()), k, m.venue, (m.provider, m.external))|
        && (forall k :: !HeldFor(db.View(), k, m.venue, (m.provider, m.external)))
        && MovesOnlyClaims(old(db.View()), db.View(), m.worker, (m.provider, m.external))
        && (forall k :: k in old(db.rows) && !(old(db.rows)[k].batch in db.batches && db.batches[old(db.rows)[k].batch].venue == m.venue) ==>
              k in db.rows && db.rows[k] == old(db.rows)[k])
        && (forall k ::
              && k in old(db.rows) && old(db.rows)[k].worker.None? && old(db.rows)[k].external == Some((m.provider, m.external))
              && old(db.rows)[k].batch in db.batches && db.batches[old(db.rows)[k].batch].venue == m.venue
              ==> Attached(old(db.View()), db.View(), k, m.worker))
        && (forall v :: v != m.venue ==> ShiftsAt(shifts, v) == ShiftsAt(old(shifts), v))
      ensures LedgerOk(old(db.View())) ==> LedgerOk(db.View())
    {
      if id !in mappings { return Err(MappingNotFound); }
      var mapping := mappings[id];
      if mapping.status == MappingRejected { return Err(MappingWasRejected); }
      mappings := mappings[id := mapping.(status := MappingConfirmed)];
      var backfilled := BackfillShifts(mapping.venue, mapping.provider, mapping.external, mapping.worker);
      var attached := AttachHeldAllocations(mapping.venue, (mapping.provider, mapping.external), mapping.worker);
      return Ok((backfilled, attached));
    }

    /** One transaction of the loop. */
    method AttachOne(held: Id, worker: Id) returns (ghost existing: Option<Id>)
      requires IsHeld(db.View(), held)
      modifies db`rows
      ensures FindsOwnRow(old(db.View()), old(db.rows)[held].batch, worker, existing)
      ensures existing.Some? ==> existing.value in old(db.rows) && existing.value != held
      ensures db.View() == AttachHeld(old(db.View()), held, worker, existing)
    {
      var allocation := db.rows[held];
      if own :| own in db.rows && InBatch(db.rows, allocation.batch, own) && db.rows[own].worker == Some(worker) {
        existing := Some(own);
        var row := db.rows[own];
        db.rows := db.rows[own := row.(pooled := row.pooled + allocation.pooled, net := row.net + allocation.net)];
        db.rows := db.rows - {held};
      } else {
        existing := None;
        db.rows := db.rows[held := allocation.(worker := Some(worker))];
      }
    }

    /**
     * Every held share of the external worker goes to the worker; nobody else's row changes,
     * no batch's claims gain or lose a cent, and the ledger stays consistent.
     */
    method AttachHeldAllocations(venue: Id, external: (Id, Id), worker: Id) returns (count: nat)
      modifies db`rows
      ensures forall id :: !HeldFor(db.View(), id, venue, external)
      ensures MovesOnlyClaims(old(db.View()), db.View(), worker, external)
      ensures forall id :: id in old(db.rows) && !(old(db.rows)[id].batch in db.batches && db.batches[old(db.rows)[id].batch].venue == venue) ==>
        id in db.rows && db.rows[id] == old(db.rows)[id]
      ensures forall id ::
        && id in old(db.rows) && old(db.rows)[id].worker.None? && old(db.rows)[id].external == Some(external)
        && old(db.rows)[id].batch in db.batches && db.batches[old(db.rows)[id].batch].venue == venue
        ==> Attached(old(db.View()), db.View(), id, worker)
      ensures LedgerOk(old(db.View())) ==> LedgerOk(db.View())
      ensures count == |set id | id in old(db.rows) && HeldFor(old(db.View()), id, venue, external)|
    {
      var rows, batches := db.rows, db.batches;
      var held := set id | id in rows && HeldFor(Db(batches, rows, map[]), id, venue, external);
      HeldIgnoresPayouts(db.View(), venue, external);
      assert held == set id | id in old(db.rows) && HeldFor(old(db.View()), id, venue, external);
      var todo := held;
      while todo != {}
        invariant Attaching(old(db.View()), db.View(), todo, venue, worker, external)
      {
        var id :| id in todo;
        assert HeldFor(db.View(), id, venue, external);
        ghost var before := db.View();
        var existing := AttachOne(id, worker);
        AttachTurn(old(db.View()), before, todo, venue, worker, external, id, existing);
        todo := todo - {id};
      }
      count := |held|;
    }
  }

  lemma HeldIgnoresPayouts(db: Db, venue: Id, external: (Id, Id))
    ensures forall id :: HeldFor(db, id, venue, external) <==> HeldFor(Db(db.batches, db.rows, map[]), id, venue, external)
  {
  }
}

/** What a rebuild of a venue's income promises, and the rebuild as the projector runs it. */
module IncomeRebuild {
  import opened Wrappers
  import opened Sums
  import opened IncomeProjection
  import opened IncomeLineage
  import Engine = AllocationEngine

  datatype Store = Store(book: Book, alerts: seq<StoredAlert>)

  // ----- alerts

  function ShiftAlerts(figures: WorkedShift -> Figures, entries: map<Id, Entry>, s: WorkedShift): seq<Alert> {
    if s.worker.None? then [UnmappedWorkerAlert(s.id)]
    else if HasSuperseded(entries, s.worker.value, s.id) then []
    else GapAlerts(s.worker.value, s.id, figures(s))
  }

  function Concat(f: WorkedShift -> seq<Alert>, shifts: seq<WorkedShift>, n: nat): seq<Alert>
    requires n <= |shifts|
  {
    if n == 0 then [] else Concat(f, shifts, n - 1) + f(shifts[n - 1])
  }

  /** The alerts of the first n shifts, given who had been corrected when the rebuild began. */
  function AlertsUpTo(figures: WorkedShift -> Figures, shifts: seq<WorkedShift>, entries: map<Id, Entry>, n: nat): seq<Alert>
    requires n <= |shifts|
  {
    Concat((s: WorkedShift) => ShiftAlerts(figures, entries, s), shifts, n)
  }

  predicate SomeonePaid(ev: Evidence, day: int) {
    var batch := BatchOn(ev, day);
    batch.Some? && exists i :: 0 <= i < |batch.value.rows| && batch.value.rows[i].paid
  }

  function TipAlerts(ev: Evidence, t: TipRecord): seq<Alert> {
    if t.refund != Engine.NoRefund && SomeonePaid(ev, t.day) then [RefundAdjustmentRequired(t.id, t.refund)] else []
  }

  function RefundAlerts(ev: Evidence, n: nat): seq<Alert>
    requires n <= |ev.tips|
  {
    if n == 0 then [] else RefundAlerts(ev, n - 1) + TipAlerts(ev, ev.tips[n - 1])
  }

  function AlertsFor(ev: Evidence, entries: map<Id, Entry>): seq<Alert> {
    AlertsUpTo(FiguresOf(ev), ev.shifts, entries, |ev.shifts|) + RefundAlerts(ev, |ev.tips|)
  }

  function ResolvedOnly(alerts: seq<StoredAlert>): seq<StoredAlert> {
    if alerts == [] then []
    else (if alerts[0].resolved then [alerts[0]] else []) + ResolvedOnly(alerts[1..])
  }

  function Unresolved(alerts: seq<Alert>): (r: seq<StoredAlert>)
    ensures |r| == |alerts| && forall i :: 0 <= i < |r| ==> r[i] == StoredAlert(alerts[i], false)
  {
    seq(|alerts|, i requires 0 <= i < |alerts| => StoredAlert(alerts[i], false))
  }

  /** The venue's unresolved alerts are replaced, its resolved ones kept. */
  ghost function RebuiltStore(ev: Evidence, store: Store): Store {
    Store(Rebuilt(ev, store.book), ResolvedOnly(store.alerts) + Unresolved(AlertsFor(ev, store.book.entries)))
  }

  // ----- one shift at a time

  lemma LineageThrough(figures: WorkedShift -> Figures, book: Book, s: WorkedShift, w: Id, shift: Id)
    requires Lineages(book)
    ensures Lineages(ProjectShift(figures, book, s))
    ensures HasSuperseded(ProjectShift(figures, book, s).entries, w, shift) <==> HasSuperseded(book.entries, w, shift)
    ensures s.worker == Some(w) && s.id == shift && !HasSuperseded(book.entries, w, shift) ==>
      var after := ProjectShift(figures, book, s).entries;
      HasBase(after, w, shift) && after[BaseOf(after, w, shift)].figures == figures(s) && after[BaseOf(after, w, shift)].active
  {
    assert HasLineage(book.entries, w, shift);
    var chain :| IsLineage(book.entries, w, shift, chain);
    ShortLineage(book.entries, w, shift, chain);
    if s.worker.Some? && !HasSuperseded(book.entries, s.worker.value, s.id) {
      UpsertKeepsLineages(book, s.worker.value, s.id, figures(s));
      UpsertedLineage(book, s.worker.value, s.id, figures(s), w, shift, chain);
    }
  }

  lemma UpsertedLineage(book: Book, worker: Id, shift: Id, figures: Figures, w: Id, sh: Id, chain: seq<Id>)
    requires Lineages(book) && !HasSuperseded(book.entries, worker, shift) && IsLineage(book.entries, w, sh, chain)
    ensures
      var after := Upsert(book, worker, shift, figures).entries;
      && (HasSuperseded(after, w, sh) <==> HasSuperseded(book.entries, w, sh))
      && ((w, sh) != (worker, shift) ==> IsLineage(after, w, sh, chain))
      && ((w, sh) == (worker, shift) ==>
            HasBase(after, w, sh) && after[BaseOf(after, w, sh)].figures == figures && after[BaseOf(after, w, sh)].active)
  {
    var book' := Upsert(book, worker, shift, figures);
    UpsertKeepsLineages(book, worker, shift, figures);
    ShortLineage(book.entries, w, sh, chain);
    if (w, sh) != (worker, shift) {
      OtherLineagesKept(book.entries, book'.entries, worker, shift, w, sh, chain);
      ShortLineage(book'.entries, w, sh, chain);
    } else {
      assert HasLineage(book'.entries, w, sh);
      var chain' :| IsLineage(book'.entries, w, sh, chain');
      ShortLineage(book'.entries, w, sh, chain');
      if chain == [] {
        assert Belongs(book'.entries, book.next, w, sh);
        assert forall id :: Belongs(book'.entries, id, w, sh) ==> id == book.next;
      } else {
        assert forall id :: Belongs(book'.entries, id, w, sh) <==> Belongs(book.entries, id, w, sh);
        assert forall id :: id in chain ==> id == chain[0];
        assert IsLink(book.entries, chain, 0) && chain[0] in chain;
      }
    }
  }

  // ----- all the shifts

  /** Nothing is left to do for the shift. */
  ghost predicate Projected(figures: WorkedShift -> Figures, book: Book, s: WorkedShift) {
    s.worker.None? || HasSuperseded(book.entries, s.worker.value, s.id)
    || (HasBase(book.entries, s.worker.value, s.id)
        && book.entries[BaseOf(book.entries, s.worker.value, s.id)].figures == figures(s)
        && book.entries[BaseOf(book.entries, s.worker.value, s.id)].active)
  }

  lemma ProjectedStays(figures: WorkedShift -> Figures, book: Book, s: WorkedShift, other: WorkedShift)
    requires Lineages(book) && Projected(figures, book, other) && other.id != s.id
    ensures Projected(figures, ProjectShift(figures, book, s), other)
  {
    if other.worker.Some? && s.worker.Some? && !HasSuperseded(book.entries, s.worker.value, s.id) {
      var w, sh := other.worker.value, other.id;
      assert HasLineage(book.entries, w, sh);
      var chain :| IsLineage(book.entries, w, sh, chain);
      UpsertedLineage(book, s.worker.value, s.id, figures(s), w, sh, chain);
      UpsertKeepsLineages(book, s.worker.value, s.id, figures(s));
      ShortLineage(book.entries, w, sh, chain);
      ShortLineage(ProjectShift(figures, book, s).entries, w, sh, chain);
    }
  }

  lemma ProjectedIsDone(figures: WorkedShift -> Figures, book: Book, s: WorkedShift)
    requires Projected(figures, book, s)
    ensures ProjectShift(figures, book, s) == book
  {
    if s.worker.Some? && !HasSuperseded(book.entries, s.worker.value, s.id) {
      var base := BaseOf(book.entries, s.worker.value, s.id);
      assert book.entries[base := book.entries[base]] == book.entries;
    }
  }

  ghost predicate SameSuperseded(a: Book, b: Book) {
    forall w, shift :: HasSuperseded(a.entries, w, shift) <==> HasSuperseded(b.entries, w, shift)
  }

  lemma {:induction false} RebuildProjects(figures: WorkedShift -> Figures, shifts: seq<WorkedShift>, book: Book, n: nat)
    requires Lineages(book) && DistinctShifts(shifts) && n <= |shifts|
    ensures forall i :: 0 <= i < n ==> Projected(figures, ProjectShifts(figures, shifts, book, n), shifts[i])
    ensures SameSuperseded(book, ProjectShifts(figures, shifts, book, n))
  {
    if n > 0 {
      RebuildProjects(figures, shifts, book, n - 1);
      RebuildKeepsLineages(figures, shifts, book, n - 1);
      var before, s := ProjectShifts(figures, shifts, book, n - 1), shifts[n - 1];
      forall w: Id, shift: Id
        ensures HasSuperseded(ProjectShifts(figures, shifts, book, n).entries, w, shift) <==> HasSuperseded(book.entries, w, shift)
      {
        LineageThrough(figures, before, s, w, shift);
      }
      forall i | 0 <= i < n ensures Projected(figures, ProjectShifts(figures, shifts, book, n), shifts[i]) {
        if i < n - 1 {
          ProjectedStays(figures, before, s, shifts[i]);
        } else if s.worker.Some? {
          LineageThrough(figures, before, s, s.worker.value, s.id);
        }
      }
    }
  }

  lemma {:induction false} NothingLeftToDo(figures: WorkedShift -> Figures, shifts: seq<WorkedShift>, book: Book, n: nat)
    requires n <= |shifts| && forall i :: 0 <= i < n ==> Projected(figures, book, shifts[i])
    ensures ProjectShifts(figures, shifts, book, n) == book
  {
    if n > 0 {
      NothingLeftToDo(figures, shifts, book, n - 1);
      ProjectedIsDone(figures, book, shifts[n - 1]);
    }
  }

  lemma {:induction false} SameConcat(f: WorkedShift -> seq<Alert>, g: WorkedShift -> seq<Alert>, shifts: seq<WorkedShift>, n: nat)
    requires n <= |shifts| && forall s :: f(s) == g(s)
    ensures Concat(f, shifts, n) == Concat(g, shifts, n)
  {
    if n > 0 {
      SameConcat(f, g, shifts, n - 1);
      assert f(shifts[n - 1]) == g(shifts[n - 1]);
    }
  }

  lemma AlertsDependOnSuperseded(figures: WorkedShift -> Figures, shifts: seq<WorkedShift>, a: Book, b: Book, n: nat)
    requires SameSuperseded(a, b) && n <= |shifts|
    ensures AlertsUpTo(figures, shifts, a.entries, n) == AlertsUpTo(figures, shifts, b.entries, n)
  {
    forall s ensures ShiftAlerts(figures, a.entries, s) == ShiftAlerts(figures, b.entries, s) {
      SameShiftAlerts(figures, a, b, s);
    }
    SameConcat((s: WorkedShift) => ShiftAlerts(figures, a.entries, s), (s: WorkedShift) => ShiftAlerts(figures, b.entries, s), shifts, n);
  }

  lemma SameShiftAlerts(figures: WorkedShift -> Figures, a: Book, b: Book, s: WorkedShift)
    requires SameSuperseded(a, b)
    ensures ShiftAlerts(figures, a.entries, s) == ShiftAlerts(figures, b.entries, s)
  {
    if s.worker.Some? {
      assert HasSuperseded(a.entries, s.worker.value, s.id) <==> HasSuperseded(b.entries, s.worker.value, s.id);
    }
  }

  lemma {:induction false} ResolvedAreKept(alerts: seq<StoredAlert>, added: seq<Alert>)
    ensures ResolvedOnly(ResolvedOnly(alerts) + Unresolved(added)) == ResolvedOnly(alerts)
    decreases |alerts| + |added|
  {
    var all := ResolvedOnly(alerts) + Unresolved(added);
    if alerts != [] {
      ResolvedAreKept(alerts[1..], added);
      if alerts[0].resolved {
        assert all == [alerts[0]] + (ResolvedOnly(alerts[1..]) + Unresolved(added));
        assert all[1..] == ResolvedOnly(alerts[1..]) + Unresolved(added);
      } else {
        assert all == ResolvedOnly(alerts[1..]) + Unresolved(added);
      }
    } else if added != [] {
      ResolvedAreKept([], added[1..]);
      assert all == Unresolved(added) && all[1..] == [] + Unresolved(added[1..]);
    }
  }

  // ----- what a rebuild promises

  /** Rebuilding twice is rebuilding once: the same entries and the same alerts. */
  lemma RebuildTwiceIsOnce(ev: Evidence, store: Store)
    requires Lineages(store.book) && DistinctShifts(ev.shifts)
    ensures RebuiltStore(ev, RebuiltStore(ev, store)) == RebuiltStore(ev, store)
  {
    var n, book, figures := |ev.shifts|, store.book, FiguresOf(ev);
    RebuildProjects(figures, ev.shifts, book, n);
    NothingLeftToDo(figures, ev.shifts, Rebuilt(ev, book), n);
    AlertsDependOnSuperseded(figures, ev.shifts, book, Rebuilt(ev, book), n);
    ResolvedAreKept(store.alerts, AlertsFor(ev, book.entries));
  }

  /** The same entries belong to the worker and shift, unchanged. */
  ghost predicate SameEntries(entries: map<Id, Entry>, entries': map<Id, Entry>, w: Id, shift: Id) {
    forall id ::
      (Belongs(entries', id, w, shift) <==> Belongs(entries, id, w, shift))
      && (Belongs(entries, id, w, shift) ==> entries'[id] == entries[id])
  }

  lemma TouchedElsewhere(entries: map<Id, Entry>, entries': map<Id, Entry>, worker: Id, shift: Id, w: Id, sh: Id)
    requires OnlyTouches(entries, entries', worker, shift) && (w, sh) != (worker, shift)
    ensures SameEntries(entries, entries', w, sh)
  {
    forall id
      ensures Belongs(entries', id, w, sh) <==> Belongs(entries, id, w, sh)
      ensures Belongs(entries, id, w, sh) ==> entries'[id] == entries[id]
    {
      assert Belongs(entries, id, w, sh) ==> !Belongs(entries, id, worker, shift);
      assert Belongs(entries', id, w, sh) ==> !Belongs(entries', id, worker, shift);
    }
  }

  lemma TurnLeavesCorrected(figures: WorkedShift -> Figures, book: Book, s: WorkedShift, w: Id, shift: Id)
    requires Lineages(book) && HasSuperseded(book.entries, w, shift)
    ensures SameEntries(book.entries, ProjectShift(figures, book, s).entries, w, shift)
  {
    if s.worker.Some? && !HasSuperseded(book.entries, s.worker.value, s.id) {
      UpsertKeepsLineages(book, s.worker.value, s.id, figures(s));
      TouchedElsewhere(book.entries, ProjectShift(figures, book, s).entries, s.worker.value, s.id, w, shift);
    }
  }

  lemma {:induction false} TurnsLeaveCorrected(
    figures: WorkedShift -> Figures, shifts: seq<WorkedShift>, book: Book, n: nat, w: Id, shift: Id)
    requires Lineages(book) && n <= |shifts| && HasSuperseded(book.entries, w, shift)
    ensures HasSuperseded(ProjectShifts(figures, shifts, book, n).entries, w, shift)
    ensures SameEntries(book.entries, ProjectShifts(figures, shifts, book, n).entries, w, shift)
  {
    if n > 0 {
      TurnsLeaveCorrected(figures, shifts, book, n - 1, w, shift);
      RebuildKeepsLineages(figures, shifts, book, n - 1);
      var before, s := ProjectShifts(figures, shifts, book, n - 1), shifts[n - 1];
      TurnLeavesCorrected(figures, before, s, w, shift);
      LineageThrough(figures, before, s, w, shift);
    }
  }

  /** Whoever has been corrected is left alone, entry by entry. */
  lemma CorrectedLineagesUntouched(ev: Evidence, book: Book, w: Id, shift: Id)
    requires Lineages(book) && HasSuperseded(book.entries, w, shift)
    ensures SameEntries(book.entries, Rebuilt(ev, book).entries, w, shift)
  {
    TurnsLeaveCorrected(FiguresOf(ev), ev.shifts, book, |ev.shifts|, w, shift);
  }

  function AllocationsIn(entries: map<Id, Entry>, ids: seq<Id>): (r: seq<int>)
    requires forall i :: 0 <= i < |ids| ==> ids[i] in entries
    ensures |r| == |ids| && forall i :: 0 <= i < |r| ==> r[i] == entries[ids[i]].figures.allocation
  {
    seq(|ids|, i requires 0 <= i < |ids| => entries[ids[i]].figures.allocation)
  }

  function PaymentsIn(entries: map<Id, Entry>, ids: seq<Id>): (r: seq<int>)
    requires forall i :: 0 <= i < |ids| ==> ids[i] in entries
    ensures |r| == |ids| && forall i :: 0 <= i < |r| ==> r[i] == entries[ids[i]].figures.paid
  {
    seq(|ids|, i requires 0 <= i < |ids| => entries[ids[i]].figures.paid)
  }

  function PayrollIn(entries: map<Id, Entry>, ids: seq<Id>): (r: seq<int>)
    requires forall i :: 0 <= i < |ids| ==> ids[i] in entries
    ensures |r| == |ids| && forall i :: 0 <= i < |r| ==> r[i] == entries[ids[i]].figures.payroll
  {
    seq(|ids|, i requires 0 <= i < |ids| => entries[ids[i]].figures.payroll)
  }

  lemma EntryIsCurrent(figures: WorkedShift -> Figures, shifts: seq<WorkedShift>, book: Book, s: WorkedShift, id: Id)
    requires Lineages(book) && DistinctShifts(shifts) && s in shifts && s.worker.Some?
    requires !HasSuperseded(book.entries, s.worker.value, s.id)
    requires Belongs(ProjectShifts(figures, shifts, book, |shifts|).entries, id, s.worker.value, s.id)
    ensures ProjectShifts(figures, shifts, book, |shifts|).entries[id].figures == figures(s)
  {
    var w, after := s.worker.value, ProjectShifts(figures, shifts, book, |shifts|);
    RebuildProjects(figures, shifts, book, |shifts|);
    RebuildKeepsLineages(figures, shifts, book, |shifts|);
    assert Projected(figures, after, s);
    assert HasLineage(after.entries, w, s.id);
    var chain :| IsLineage(after.entries, w, s.id, chain);
    ShortLineage(after.entries, w, s.id, chain);
    assert id in chain;
  }

  /**
   * After a rebuild the entries of a worker's uncorrected day carry exactly the allocation's
   * net and exactly the finalized payout, whatever was in the book before.
   */
  lemma EntriesConserveCents(ev: Evidence, book: Book, worker: Id, day: int, ids: seq<Id>)
    requires Lineages(book) && DistinctShifts(ev.shifts)
    requires
      var shifts := DayShifts(ev.shifts, worker, day);
      && shifts != [] && |ids| == |shifts|
      && (forall i :: 0 <= i < |shifts| ==> !HasSuperseded(book.entries, worker, shifts[i].id))
      && (forall i :: 0 <= i < |ids| ==> Belongs(Rebuilt(ev, book).entries, ids[i], worker, shifts[i].id))
    ensures SumSeq(AllocationsIn(Rebuilt(ev, book).entries, ids)) == NetFor(ev, worker, day)
    ensures SumSeq(PaymentsIn(Rebuilt(ev, book).entries, ids)) == PaidFor(ev, worker, day)
  {
    var shifts := DayShifts(ev.shifts, worker, day);
    DayConservesCents(ev, worker, day);
    forall i | 0 <= i < |shifts|
      ensures shifts[i].worker == Some(worker) && Rebuilt(ev, book).entries[ids[i]].figures == FiguresFor(ev, shifts[i])
    {
      assert shifts[i] in shifts;
      EntryIsCurrent(FiguresOf(ev), ev.shifts, book, shifts[i], ids[i]);
    }
    assert AllocationsIn(Rebuilt(ev, book).entries, ids) == AllocationShares(ev, shifts);
    assert PaymentsIn(Rebuilt(ev, book).entries, ids) == PaidShares(ev, shifts);
  }

  /** A shift in some report's period shows its payroll share. */
  lemma ShowsPayroll(ev: Evidence, k: nat, s: WorkedShift)
    requires k < |ev.payroll| && InPeriod(ev.payroll[k], s)
    ensures FiguresFor(ev, s).payroll == PayrollShare(ev, |ev.payroll|, s)
  {
    assert ev.payroll[k] in ev.payroll;
  }

  /** `ids` are the rebuilt entries of the report's shifts, none of them corrected. */
  ghost predicate EntriesOfReport(ev: Evidence, book: Book, k: nat, ids: seq<Id>)
    requires k < |ev.payroll|
  {
    var shifts, worker := PeriodShifts(ev.shifts, ev.payroll[k]), ev.payroll[k].worker;
    && shifts != [] && |ids| == |shifts|
    && (forall i :: 0 <= i < |shifts| ==> !HasSuperseded(book.entries, worker, shifts[i].id))
    && (forall i :: 0 <= i < |ids| ==> Belongs(Rebuilt(ev, book).entries, ids[i], worker, shifts[i].id))
  }

  lemma EntriesShowPayroll(ev: Evidence, book: Book, k: nat, ids: seq<Id>)
    requires Lineages(book) && DistinctShifts(ev.shifts) && k < |ev.payroll| && EntriesOfReport(ev, book, k, ids)
    ensures PayrollIn(Rebuilt(ev, book).entries, ids) == PayrollSharesOf(ev, PeriodShifts(ev.shifts, ev.payroll[k]))
  {
    var shifts := PeriodShifts(ev.shifts, ev.payroll[k]);
    forall i | 0 <= i < |shifts|
      ensures Rebuilt(ev, book).entries[ids[i]].figures.payroll == PayrollShare(ev, |ev.payroll|, shifts[i])
    {
      assert shifts[i] in shifts;
      EntryIsCurrent(FiguresOf(ev), ev.shifts, book, shifts[i], ids[i]);
      ShowsPayroll(ev, k, shifts[i]);
    }
  }

  /**
   * And the entries of the uncorrected shifts of a payroll report carry exactly its cents,
   * if no later report covers any of them.
   */
  lemma EntriesConservePayroll(ev: Evidence, book: Book, k: nat, ids: seq<Id>)
    requires Lineages(book) && DistinctShifts(ev.shifts) && k < |ev.payroll| && EntriesOfReport(ev, book, k, ids)
    requires forall m, s :: k < m < |ev.payroll| && s in PeriodShifts(ev.shifts, ev.payroll[k]) ==> !InPeriod(ev.payroll[m], s)
    ensures SumSeq(PayrollIn(Rebuilt(ev, book).entries, ids)) == ev.payroll[k].reported
  {
    PayrollConservesCents(ev, k);
    EntriesShowPayroll(ev, book, k, ids);
  }

  /** In general they carry its cents plus what later reports changed on its shifts. */
  lemma OverlappedEntriesShowTheRest(ev: Evidence, book: Book, k: nat, ids: seq<Id>)
    requires Lineages(book) && DistinctShifts(ev.shifts) && k < |ev.payroll| && EntriesOfReport(ev, book, k, ids)
    ensures SumSeq(PayrollIn(Rebuilt(ev, book).entries, ids)) == ev.payroll[k].reported + SumSeq(TakenOver(ev, k))
  {
    ReportShowsWhatWasNotTakenOver(ev, k);
    EntriesShowPayroll(ev, book, k, ids);
  }

  // ----- the rebuild and the correction as they run

  /** The four maps say of every shift what the evidence says. */
  ghost predicate MapsHold(
    ev: Evidence, tipsByShift: map<(Id, Id), int>, allocation: map<Id, int>, paid: map<Id, int>, payroll: map<Id, int>)
  {
    && (forall key :: OrZero(tipsByShift, key) == Earned(ev.tips, key))
    && (forall s :: s in ev.shifts ==> OrZero(allocation, s.id) == AllocationShare(ev, s))
    && (forall s :: s in ev.shifts ==> OrZero(paid, s.id) == PaidShare(ev, s))
    && (forall s :: s in ev.shifts ==> OrZero(payroll, s.id) == PayrollShare(ev, |ev.payroll|, s))
  }

  /** Where the shift loop is after n turns. */
  ghost predicate AfterTurns(ev: Evidence, before: Book, n: nat, book: Book, found: seq<Alert>, upserted: nat) {
    && n <= |ev.shifts|
    && book == ProjectShifts(FiguresOf(ev), ev.shifts, before, n)
    && found == AlertsUpTo(FiguresOf(ev), ev.shifts, before.entries, n)
    && upserted == Upserts(before.entries, ev.shifts, n)
  }

  class IncomeStore {
    var entries: map<Id, Entry>
    var next: Id
    var alerts: seq<StoredAlert>

    ghost function View(): Store
      reads this
    {
      Store(Book(entries, next), alerts)
    }

    ghost predicate Valid()
      reads this
    {
      Lineages(View().book)
    }

    constructor ()
      ensures Valid() && View() == Store(Book(map[], 0), [])
    {
      entries, next, alerts := map[], 0, [];
      new;
      EmptyBook(0);
    }

    /** findFirst without a correctionOf, then update or create. */
    method UpsertBase(worker: Id, shift: Id, figures: Figures)
      requires Valid()
      modifies this`entries, this`next
      ensures View().book == Upsert(old(View().book), worker, shift, figures)
    {
      assert HasLineage(entries, worker, shift);
      ghost var chain :| IsLineage(entries, worker, shift, chain);
      ShortLineage(entries, worker, shift, chain);
      if HasBase(entries, worker, shift) {
        var id :| id in entries && IsBase(entries, id, worker, shift);
        OneBase(entries, worker, shift, chain, id);
        entries := entries[id := entries[id].(figures := figures, active := true)];
      } else {
        entries := entries[next := Entry(worker, shift, figures, true, None, None)];
        next := next + 1;
      }
    }

    /** One turn of the shift loop; returns its alerts and whether it wrote an entry. */
    method ProjectOne(ev: Evidence, s: WorkedShift, earned: int, allocation: int, paid: int, payroll: int)
      returns (found: seq<Alert>, wrote: bool)
      requires Valid() && s in ev.shifts
      requires earned == Earned(ev.tips, (s.provider, s.external)) && allocation == AllocationShare(ev, s)
      requires paid == PaidShare(ev, s) && payroll == PayrollShare(ev, |ev.payroll|, s)
      modifies this`entries, this`next
      ensures found == ShiftAlerts(FiguresOf(ev), old(entries), s)
      ensures View().book == ProjectShift(FiguresOf(ev), old(View().book), s)
      ensures wrote <==> WritesEntry(old(entries), s)
    {
      if s.worker.None? { return [UnmappedWorkerAlert(s.id)], false; }
      var worker := s.worker.value;
      var figures := FiguresFrom(ev, s, earned, allocation, paid, payroll);
      if HasSuperseded(entries, worker, s.id) { return [], false; }
      UpsertBase(worker, s.id, figures);
      found := CollectGapAlerts(worker, s.id, figures);
      wrote := true;
    }

    /** The loop's turn for shift n of a rebuild that started from `before`. */
    method NextShift(
      ev: Evidence, n: nat, ghost before: Book, tipsByShift: map<(Id, Id), int>, allocation: map<Id, int>,
      paid: map<Id, int>, payroll: map<Id, int>, found: seq<Alert>, upserted: nat)
      returns (found': seq<Alert>, upserted': nat)
      requires Lineages(before) && DistinctShifts(ev.shifts) && n < |ev.shifts|
      requires MapsHold(ev, tipsByShift, allocation, paid, payroll)
      requires AfterTurns(ev, before, n, View().book, found, upserted)
      modifies this`entries, this`next
      ensures AfterTurns(ev, before, n + 1, View().book, found', upserted')
    {
      RebuildKeepsLineages(FiguresOf(ev), ev.shifts, before, n);
      StepOf(FiguresOf(ev), ev.shifts, before, n, View().book);
      var s := ev.shifts[n];
      var earned := OrZero(tipsByShift, (s.provider, s.external));
      var more, wrote := ProjectOne(ev, s, earned, OrZero(allocation, s.id), OrZero(paid, s.id), OrZero(payroll, s.id));
      found' := found + more;
      upserted' := if wrote then upserted + 1 else upserted;
    }

    /** The shift loop. */
    method ProjectAll(
      ev: Evidence, tipsByShift: map<(Id, Id), int>, allocation: map<Id, int>, paid: map<Id, int>, payroll: map<Id, int>)
      returns (found: seq<Alert>, upserted: nat)
      requires Valid() && DistinctShifts(ev.shifts) && MapsHold(ev, tipsByShift, allocation, paid, payroll)
      modifies this`entries, this`next
      ensures AfterTurns(ev, old(View().book), |ev.shifts|, View().book, found, upserted)
    {
      ghost var before := View().book;
      found, upserted := [], 0;
      for n := 0 to |ev.shifts|
        invariant AfterTurns(ev, before, n, View().book, found, upserted)
      {
        found, upserted := NextShift(ev, n, before, tipsByShift, allocation, paid, payroll, found, upserted);
      }
    }

    method RebuildVenueIncome(ev: Evidence) returns (entriesUpserted: nat, alertCount: nat)
      requires Valid() && DistinctShifts(ev.shifts)
      modifies this
      ensures Valid() && View() == RebuiltStore(ev, old(View()))
      ensures alertCount == |AlertsFor(ev, old(entries))|
      ensures entriesUpserted == Upserts(old(entries), ev.shifts, |ev.shifts|)
    {
      var tipsByShift := TipsByShift(ev.tips);
      var allocation, paid := DayShares(ev);
      var payroll := PayrollShares(ev, allocation);
      RebuildKeepsLineages(FiguresOf(ev), ev.shifts, View().book, |ev.shifts|);
      var found;
      found, entriesUpserted := ProjectAll(ev, tipsByShift, allocation, paid, payroll);
      var refunds := CollectRefundAlerts(ev);
      found := found + refunds;
      alerts := ResolvedOnly(alerts) + Unresolved(found);
      alertCount := |found|;
    }

    method CorrectEntry(id: Id, changes: Changes) returns (r: Result<Id, IncomeError>)
      requires Valid()
      modifies this`entries, this`next
      ensures Valid() && View().book == Corrected(old(View().book), id, changes)
      ensures match CorrectionRefusal(old(View().book), id)
              case Some(e) => r == Err(e)
              case None => r == Ok(old(next)) && entries[old(next)].correctionOf == Some(id)
      ensures r.Ok? ==>
        var before, after := old(entries)[id], entries[old(next)];
        && entries.Keys == old(entries).Keys + {old(next)} && entries[id] == before.(active := false)
        && (forall k :: k in old(entries) && k != id ==> entries[k] == old(entries)[k])
        && after.figures.earned == (if changes.earned.Some? then changes.earned.value else before.figures.earned)
        && after.figures.allocation == (if changes.allocation.Some? then changes.allocation.value else before.figures.allocation)
        && after.figures.paid == (if changes.paid.Some? then changes.paid.value else before.figures.paid)
        && after.figures.payroll == (if changes.payroll.Some? then changes.payroll.value else before.figures.payroll)
        && after.worker == before.worker && after.shift == before.shift && after.active
        && after.figures.payout == before.figures.payout && after.figures.withholding == before.figures.withholding
        && after.figures.rail == before.figures.rail && after.figures.grade == before.figures.grade
    {
      CorrectionKeepsLineages(View().book, id, changes);
      if id !in entries { return Err(EntryNotFound); }
      if !entries[id].active { return Err(NotTheActiveEntry); }
      var original := entries[id];
      var root := if original.original.Some? then original.original.value else id;
      entries := entries[id := original.(active := false)];
      entries := entries[next := Entry(original.worker, original.shift, Changed(original.figures, changes), true, Some(root), Some(id))];
      r := Ok(next);
      next := next + 1;
    }
  }

  /** An entry is written for the shift. */
  predicate WritesEntry(entries: map<Id, Entry>, s: WorkedShift) {
    s.worker.Some? && !HasSuperseded(entries, s.worker.value, s.id)
  }

  lemma StepOf(figures: WorkedShift -> Figures, shifts: seq<WorkedShift>, book: Book, n: nat, before: Book)
    requires Lineages(book) && DistinctShifts(shifts) && n < |shifts| && before == ProjectShifts(figures, shifts, book, n)
    ensures ProjectShifts(figures, shifts, book, n + 1) == ProjectShift(figures, before, shifts[n])
    ensures AlertsUpTo(figures, shifts, book.entries, n + 1)
         == AlertsUpTo(figures, shifts, book.entries, n) + ShiftAlerts(figures, before.entries, shifts[n])
    ensures Upserts(book.entries, shifts, n + 1) == Upserts(book.entries, shifts, n) + if WritesEntry(before.entries, shifts[n]) then 1 else 0
  {
    RebuildProjects(figures, shifts, book, n);
    SameShiftAlerts(figures, book, before, shifts[n]);
  }

  method CollectGapAlerts(worker: Id, shift: Id, f: Figures) returns (found: seq<Alert>)
    ensures found == GapAlerts(worker, shift, f)
  {
    found := [];
    if f.earned > 0 && f.allocation == 0 {
      found := found + [AllocationGap(worker, shift, f.earned, f.allocation)];
    }
    if f.allocation > 0 && f.paid == 0 {
      found := found + [PayoutGap(worker, shift, f.allocation, f.paid)];
    }
    if f.paid > 0 && f.payroll == 0 {
      found := found + [PayrollGap(worker, shift, f.paid, f.payroll, f.rail)];
    }
    if f.payroll > 0 && f.withholding != WithholdingConfirmed {
      found := found + [WithholdingUnknownAlert(worker, shift, f.payroll)];
    }
  }

  method CollectRefundAlerts(ev: Evidence) returns (found: seq<Alert>)
    ensures found == RefundAlerts(ev, |ev.tips|)
  {
    found := [];
    for n := 0 to |ev.tips|
      invariant found == RefundAlerts(ev, n)
    {
      var tip := ev.tips[n];
      if tip.refund != Engine.NoRefund && SomeonePaid(ev, tip.day) {
        found := found + [RefundAdjustmentRequired(tip.id, tip.refund)];
      }
    }
  }

  lemma OneBase(entries: map<Id, Entry>, worker: Id, shift: Id, chain: seq<Id>, id: Id)
    requires IsLineage(entries, worker, shift, chain) && IsBase(entries, id, worker, shift)
    ensures chain != [] && id == chain[0]
  {
    assert id in chain;
    var i :| 0 <= i < |chain| && chain[i] == id;
    assert IsLink(entries, chain, i);
  }

  /** How many of the first n shifts get an entry written: the mapped ones nobody has corrected. */
  function Upserts(entries: map<Id, Entry>, shifts: seq<WorkedShift>, n: nat): nat
    requires n <= |shifts|
  {
    if n == 0 then 0
    else Upserts(entries, shifts, n - 1) + if WritesEntry(entries, shifts[n - 1]) then 1 else 0
  }
}

/**
 * What an income entry, an alert and a correction say, read off the evidence and the entries
 * themselves, figure by figure.
 */
module IncomeAnswers {
  import opened Wrappers
  import opened Sums
  import opened IncomeSplit
  import opened Apportionment
  import opened IncomeProjection
  import opened IncomeLineage
  import opened IncomeRebuild
  import Ledger
  import Engine = AllocationEngine

  // ----- what is looked up

  /** The first match is the one found, and it is found if there is one. */
  lemma {:induction false} FirstIsFirst<T(!new)>(p: T -> bool, s: seq<T>)
    ensures First(p, s).Some? ==> exists i :: 0 <= i < |s| && s[i] == First(p, s).value && p(s[i]) && forall j :: 0 <= j < i ==> !p(s[j])
    ensures (exists x :: x in s && p(x)) ==> First(p, s).Some?
    decreases |s|
  {
    if s != [] {
      if p(s[0]) {
        assert s[0] == First(p, s).value;
      } else {
        FirstIsFirst(p, s[1..]);
        if First(p, s).Some? {
          var i :| 0 <= i < |s[1..]| && s[1..][i] == First(p, s).value && p(s[1..][i]) && forall j :: 0 <= j < i ==> !p(s[1..][j]);
          assert s[i + 1] == First(p, s).value;
          assert forall j :: 0 <= j < i + 1 ==> j == 0 || s[j] == s[1..][j - 1];
        }
      }
    }
  }

  /** Position k holds the first batch of the day. */
  predicate IsFirstBatch(ev: Evidence, day: int, k: int) {
    0 <= k < |ev.batches| && ev.batches[k].day == day && forall j :: 0 <= j < k ==> ev.batches[j].day != day
  }

  lemma TheBatchOfTheDay(ev: Evidence, day: int)
    ensures BatchOn(ev, day).None? <==> forall b :: b in ev.batches ==> b.day != day
    ensures BatchOn(ev, day).Some? ==> exists k :: IsFirstBatch(ev, day, k) && BatchOn(ev, day).value == ev.batches[k]
  {
    var onDay := (b: BatchFact) => b.day == day;
    FirstIsFirst(onDay, ev.batches);
    if BatchOn(ev, day).Some? {
      var k :| 0 <= k < |ev.batches| && ev.batches[k] == BatchOn(ev, day).value && onDay(ev.batches[k])
               && forall j :: 0 <= j < k ==> !onDay(ev.batches[j]);
      assert forall j :: 0 <= j < k ==> !onDay(ev.batches[j]) && ev.batches[j].day != day;
      assert IsFirstBatch(ev, day, k);
    }
  }

  /** The row, and the payout, that a worker's day is read from. */
  lemma TheRowOfTheWorker(ev: Evidence, worker: Id, day: int)
    ensures RowFor(ev, worker, day).Some? <==>
      BatchOn(ev, day).Some? && exists r :: r in BatchOn(ev, day).value.rows && r.worker == Some(worker)
    ensures RowFor(ev, worker, day).Some? ==>
      RowFor(ev, worker, day).value in BatchOn(ev, day).value.rows && RowFor(ev, worker, day).value.worker == Some(worker)
      && NetFor(ev, worker, day) == RowFor(ev, worker, day).value.net
    ensures RowFor(ev, worker, day).None? ==> NetFor(ev, worker, day) == 0 && PaidFor(ev, worker, day) == 0
  {
  }

  lemma TheFinalizedPayout(ev: Evidence, worker: Id, day: int)
    requires RowFor(ev, worker, day).Some?
    ensures
      var row, payout := RowFor(ev, worker, day).value, FinalPayout(RowFor(ev, worker, day));
      && (payout.Some? <==> exists p :: p in row.payouts && p.status == Ledger.Finalized)
      && (payout.Some? ==> payout.value in row.payouts && payout.value.status == Ledger.Finalized && PaidFor(ev, worker, day) == payout.value.amount)
      && (payout.None? ==> PaidFor(ev, worker, day) == 0)
  {
  }

  /** A report covers its worker's shifts from the noon of its first day to the noon of its last. */
  lemma ReportsCover(r: PayrollRecord, s: WorkedShift)
    ensures InPeriod(r, s) <==> s.worker == Some(r.worker) && r.periodStart <= s.day * 86_400 + 43_200 <= r.periodEnd
  {
  }

  lemma TheFirstReport(ev: Evidence, s: WorkedShift)
    ensures PayrollFor(ev, s).Some? <==> exists r :: r in ev.payroll && InPeriod(r, s)
    ensures PayrollFor(ev, s).Some? ==>
      exists k :: 0 <= k < |ev.payroll| && PayrollFor(ev, s).value == ev.payroll[k] && InPeriod(ev.payroll[k], s)
                  && forall j :: 0 <= j < k ==> !InPeriod(ev.payroll[j], s)
  {
    var covers := (r: PayrollRecord) => InPeriod(r, s);
    FirstIsFirst(covers, ev.payroll);
    if PayrollFor(ev, s).Some? {
      var k :| 0 <= k < |ev.payroll| && ev.payroll[k] == PayrollFor(ev, s).value && covers(ev.payroll[k])
               && forall j :: 0 <= j < k ==> !covers(ev.payroll[j]);
      assert forall j :: 0 <= j < k ==> !covers(ev.payroll[j]) && !InPeriod(ev.payroll[j], s);
    }
  }

  // ----- what an entry says

  /** One more tip adds all of its cents to the one shift it names, unless it was fully refunded or canceled. */
  lemma ATipIsEarnedOnce(tips: seq<TipRecord>, t: TipRecord, key: (Id, Id))
    ensures Earned([], key) == 0
    ensures Earned(tips + [t], key) == Earned(tips, key) +
      if t.provider == key.0 && t.shiftRef == key.1 && t.refund in {Engine.NoRefund, Engine.Partial}
         && t.payment in {Engine.Completed, Engine.Pending} then t.amount else 0
  {
    assert (tips + [t])[..|tips|] == tips && (tips + [t])[..|tips| + 1] == tips + [t];
    EarnedStep(tips + [t], |tips|, key);
  }

  /** The figures of a connected worker's entry, and where each of them comes from. */
  lemma EntriesSayWhatTheEvidenceSays(ev: Evidence, s: WorkedShift)
    requires s.worker.Some?
    ensures
      var f, row, report := FiguresFor(ev, s), RowFor(ev, s.worker.value, s.day), PayrollFor(ev, s);
      var payout := FinalPayout(row);
      && f.earned == Earned(ev.tips, (s.provider, s.external))
      && f.allocation == AllocationShare(ev, s) && f.paid == PaidShare(ev, s)
      && (report.Some? ==> f.payroll == PayrollShare(ev, |ev.payroll|, s))
      && (report.None? ==> f.payroll == 0 && f.withholding == WithholdingUnknown)
      && (f.withholding == WithholdingConfirmed <==> report.Some? && report.value.withheld.Some? && report.value.providerConfirmed)
      && (f.withholding == WithholdingPending <==> report.Some? && !(report.value.withheld.Some? && report.value.providerConfirmed))
      && (payout.Some? ==> f.payout == Some(payout.value.id) && f.rail == Some(payout.value.rail))
      && (payout.None? ==> f.payout.None? && f.rail == if row.Some? then row.value.payoutRail else None)
  {
  }

  /** Within the day a shift's payment is its minutes' exact part of the payout, to within a cent. */
  lemma PaymentFollowsMinutes(ev: Evidence, worker: Id, day: int, i: nat)
    requires DistinctShifts(ev.shifts) && i < |DayShifts(ev.shifts, worker, day)|
    requires SumSeq(Minutes(DayShifts(ev.shifts, worker, day))) > 0
    ensures
      var shifts := DayShifts(ev.shifts, worker, day);
      var exact := Quota(PaidFor(ev, worker, day), SumSeq(Minutes(shifts)) as real)(Minutes(shifts)[i] as real);
      exact - 1.0 < PaidShare(ev, shifts[i]) as real < exact + 1.0
  {
    var shifts := DayShifts(ev.shifts, worker, day);
    var paid, minutes := PaidFor(ev, worker, day), AsReals(Minutes(shifts));
    WhereKeepsDistinct((s: WorkedShift) => s.worker == Some(worker) && s.day == day, ev.shifts);
    assert shifts[i] in shifts;
    SliceAtPlace(shifts, Slices(paid, minutes), i);
    SumAsReals(Minutes(shifts));
    SliceNearQuota(paid, minutes, Slices(paid, minutes), i);
  }

  // ----- alerts

  /** Which gaps are reported for an entry, with which figures. */
  lemma GapsExactlyWhen(worker: Id, shift: Id, f: Figures, x: Alert)
    ensures x in GapAlerts(worker, shift, f) <==>
      match x
      case AllocationGap(w, s, earned, allocation) =>
        w == worker && s == shift && 0 < f.earned && f.allocation == 0 && earned == f.earned && allocation == 0
      case PayoutGap(w, s, allocation, paid) =>
        w == worker && s == shift && 0 < f.allocation && f.paid == 0 && allocation == f.allocation && paid == 0
      case PayrollGap(w, s, paid, payroll, rail) =>
        w == worker && s == shift && 0 < f.paid && f.payroll == 0 && paid == f.paid && payroll == 0 && rail == f.rail
      case WithholdingUnknownAlert(w, s, payroll) =>
        w == worker && s == shift && 0 < f.payroll && f.withholding in {WithholdingUnknown, WithholdingPending} && payroll == f.payroll
      case UnmappedWorkerAlert(_) => false
      case RefundAdjustmentRequired(_, _) => false
  {
  }

  /** No gap is reported twice for an entry. */
  lemma GapsAreReportedOnce(worker: Id, shift: Id, f: Figures, x: Alert)
    ensures multiset(GapAlerts(worker, shift, f))[x] <= 1
  {
  }

  /** A shift nobody is connected to is reported, one whose entry was corrected is not, and any other for its gaps. */
  lemma ShiftsAreReportedFor(ev: Evidence, entries: map<Id, Entry>, s: WorkedShift)
    ensures s.worker.None? ==> ShiftAlerts(FiguresOf(ev), entries, s) == [UnmappedWorkerAlert(s.id)]
    ensures s.worker.Some? && HasSuperseded(entries, s.worker.value, s.id) ==> ShiftAlerts(FiguresOf(ev), entries, s) == []
    ensures s.worker.Some? && !HasSuperseded(entries, s.worker.value, s.id) ==>
      ShiftAlerts(FiguresOf(ev), entries, s) == GapAlerts(s.worker.value, s.id, FiguresFor(ev, s))
  {
  }

  /** A refund calls for an adjustment exactly when somebody of that day's batch is paid already. */
  lemma RefundsExactlyWhen(ev: Evidence, t: TipRecord, x: Alert)
    ensures x in TipAlerts(ev, t) <==>
      && x == RefundAdjustmentRequired(t.id, t.refund) && t.refund in {Engine.Partial, Engine.Full}
      && BatchOn(ev, t.day).Some? && exists r :: r in BatchOn(ev, t.day).value.rows && r.paid
  {
    if BatchOn(ev, t.day).Some? {
      var rows := BatchOn(ev, t.day).value.rows;
      if r :| r in rows && r.paid {
        var i :| 0 <= i < |rows| && rows[i] == r;
        assert rows[i].paid;
      }
    }
  }

  /** Of the stored alerts a rebuild keeps exactly the resolved ones. */
  lemma {:induction false} ResolvedAreKept(alerts: seq<StoredAlert>, x: StoredAlert)
    ensures multiset(ResolvedOnly(alerts))[x] == if x.resolved then multiset(alerts)[x] else 0
    decreases |alerts|
  {
    if alerts != [] {
      assert alerts == [alerts[0]] + alerts[1..];
      ResolvedAreKept(alerts[1..], x);
    }
  }

  // ----- corrections

  function Given(change: Option<int>, before: int): int {
    if change.Some? then change.value else before
  }

  /**
   * A correction carries the changes that are given and otherwise what the corrected entry said;
   * of that one nothing changes but that it is no longer active; no other entry changes.
   */
  lemma CorrectionsCarryTheChanges(book: Book, id: Id, c: Changes)
    requires id in book.entries && book.entries[id].active && book.next !in book.entries
    ensures
      var after, e := Corrected(book, id, c), book.entries[id];
      && after.next == book.next + 1 && after.entries.Keys == book.entries.Keys + {book.next}
      && after.entries[id] == e.(active := false)
      && (forall k :: k in book.entries && k != id ==> after.entries[k] == book.entries[k])
      && var n := after.entries[book.next];
      && n.figures.earned == Given(c.earned, e.figures.earned) && n.figures.allocation == Given(c.allocation, e.figures.allocation)
      && n.figures.paid == Given(c.paid, e.figures.paid) && n.figures.payroll == Given(c.payroll, e.figures.payroll)
      && n.figures.payout == e.figures.payout && n.figures.withholding == e.figures.withholding
      && n.figures.rail == e.figures.rail && n.figures.grade == e.figures.grade
      && n.worker == e.worker && n.shift == e.shift && n.active && n.correctionOf == Some(id)
      && n.original == Some(if e.original.Some? then e.original.value else id)
  {
  }

  /** Only the active entry of a worker and shift can be corrected. */
  lemma CorrectsExactlyWhen(book: Book, id: Id)
    ensures CorrectionRefusal(book, id).None? <==> id in book.entries && book.entries[id].active
    ensures CorrectionRefusal(book, id) == Some(EntryNotFound) <==> id !in book.entries
  {
  }

  predicate IsActive(entries: map<Id, Entry>, id: Id, worker: Id, shift: Id) {
    Belongs(entries, id, worker, shift) && entries[id].active
  }

  lemma OneIsActive(book: Book, worker: Id, shift: Id, id: Id, other: Id)
    requires Lineages(book) && IsActive(book.entries, id, worker, shift) && IsActive(book.entries, other, worker, shift)
    ensures id == other
  {
    assert HasLineage(book.entries, worker, shift);
    var chain :| IsLineage(book.entries, worker, shift, chain);
    ActiveIsLast(book.entries, worker, shift, chain, id);
    ActiveIsLast(book.entries, worker, shift, chain, other);
  }

  /** The four figures a correction can change. */
  datatype Amounts = Amounts(earned: int, allocation: int, paid: int, payroll: int)

  function AmountsOf(f: Figures): Amounts {
    Amounts(f.earned, f.allocation, f.paid, f.payroll)
  }

  function GivenAll(c: Changes, a: Amounts): Amounts {
    Amounts(Given(c.earned, a.earned), Given(c.allocation, a.allocation), Given(c.paid, a.paid), Given(c.payroll, a.payroll))
  }

  /** The step corrects an entry of this worker and shift, and is accepted. */
  predicate CorrectsOne(book: Book, step: BookStep, worker: Id, shift: Id) {
    step.CorrectStep? && IsActive(book.entries, step.id, worker, shift)
  }

  /** The last amount given for each figure along the steps, starting from `last`. */
  ghost function LastGiven(book: Book, steps: seq<BookStep>, worker: Id, shift: Id, last: Amounts): Amounts
    decreases |steps|
  {
    if steps == [] then last
    else LastGiven(AfterStep(book, steps[0]), steps[1..], worker, shift,
                   if CorrectsOne(book, steps[0], worker, shift) then GivenAll(steps[0].changes, last) else last)
  }

  lemma ActiveAfterCorrecting(book: Book, step: BookStep, worker: Id, shift: Id, id: Id)
    requires Lineages(book) && IsActive(book.entries, id, worker, shift) && CorrectsOne(book, step, worker, shift)
    ensures
      var after := AfterStep(book, step);
      && IsActive(after.entries, book.next, worker, shift) && HasSuperseded(after.entries, worker, shift)
      && AmountsOf(after.entries[book.next].figures) == GivenAll(step.changes, AmountsOf(book.entries[id].figures))
  {
    OneIsActive(book, worker, shift, id, step.id);
    CorrectionsCarryTheChanges(book, step.id, step.changes);
    assert Belongs(AfterStep(book, step).entries, step.id, worker, shift);
  }

  lemma ActiveAfterAnother(book: Book, step: BookStep, worker: Id, shift: Id, id: Id)
    requires Lineages(book) && IsActive(book.entries, id, worker, shift) && !CorrectsOne(book, step, worker, shift)
    requires step.RebuildStep? ==> HasSuperseded(book.entries, worker, shift)
    ensures
      var after := AfterStep(book, step);
      && IsActive(after.entries, id, worker, shift) && after.entries[id] == book.entries[id]
      && (HasSuperseded(book.entries, worker, shift) ==> HasSuperseded(after.entries, worker, shift))
  {
    match step
    case RebuildStep(ev) =>
      CorrectedLineagesUntouched(ev, book, worker, shift);
      assert Belongs(book.entries, id, worker, shift);
      SupersededStays(book.entries, AfterStep(book, step).entries, worker, shift);
    case CorrectStep(k, changes) =>
      if CorrectionRefusal(book, k).None? {
        CorrectionsCarryTheChanges(book, k, changes);
        SupersededStaysActive(book, k, changes, worker, shift);
      }
  }

  lemma SupersededStays(entries: map<Id, Entry>, entries': map<Id, Entry>, worker: Id, shift: Id)
    requires SameEntries(entries, entries', worker, shift)
    ensures HasSuperseded(entries, worker, shift) ==> HasSuperseded(entries', worker, shift)
  {
    if HasSuperseded(entries, worker, shift) {
      var k :| k in entries && Belongs(entries, k, worker, shift) && !entries[k].active;
      assert Belongs(entries', k, worker, shift);
    }
  }

  lemma SupersededStaysActive(book: Book, id: Id, c: Changes, worker: Id, shift: Id)
    requires Lineages(book) && CorrectionRefusal(book, id).None?
    ensures HasSuperseded(book.entries, worker, shift) ==> HasSuperseded(Corrected(book, id, c).entries, worker, shift)
  {
    if HasSuperseded(book.entries, worker, shift) {
      var k :| k in book.entries && Belongs(book.entries, k, worker, shift) && !book.entries[k].active;
      CorrectionsCarryTheChanges(book, id, c);
      assert Belongs(Corrected(book, id, c).entries, k, worker, shift);
    }
  }

  predicate OnlyCorrections(steps: seq<BookStep>) {
    forall i :: 0 <= i < |steps| ==> steps[i].CorrectStep?
  }

  lemma StepKeepsLineages(book: Book, step: BookStep)
    requires Lineages(book)
    ensures Lineages(AfterStep(book, step))
  {
    match step
    case RebuildStep(ev) => RebuildKeepsLineages(FiguresOf(ev), ev.shifts, book, |ev.shifts|);
    case CorrectStep(id, changes) => CorrectionKeepsLineages(book, id, changes);
  }

  /**
   * Over any corrections of anybody's entries, and once an entry has been corrected over any
   * rebuilds as well, each figure of the active entry is the last one given for it.
   */
  lemma {:induction false} FiguresAreTheLastGiven(book: Book, steps: seq<BookStep>, worker: Id, shift: Id, id: Id) returns (active: Id)
    requires Lineages(book) && IsActive(book.entries, id, worker, shift)
    requires OnlyCorrections(steps) || HasSuperseded(book.entries, worker, shift)
    ensures
      var entries := AfterSteps(book, steps).entries;
      && IsActive(entries, active, worker, shift)
      && AmountsOf(entries[active].figures) == LastGiven(book, steps, worker, shift, AmountsOf(book.entries[id].figures))
    decreases |steps|
  {
    if steps == [] {
      active := id;
    } else {
      StepKeepsLineages(book, steps[0]);
      var next := AfterStep(book, steps[0]);
      if CorrectsOne(book, steps[0], worker, shift) {
        ActiveAfterCorrecting(book, steps[0], worker, shift, id);
        active := FiguresAreTheLastGiven(next, steps[1..], worker, shift, book.next);
      } else {
        ActiveAfterAnother(book, steps[0], worker, shift, id);
        active := FiguresAreTheLastGiven(next, steps[1..], worker, shift, id);
      }
    }
  }
}

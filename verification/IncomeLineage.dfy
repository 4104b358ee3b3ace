/**
 * One venue's income entries: rebuilt from evidence as often as anyone likes, corrected by
 * appending. Entry ids are handed out once and never again; an entry has always a shift.
 */
module IncomeLineage {
  import opened Wrappers
  import opened IncomeProjection
  import Ledger
  import Engine = AllocationEngine

  datatype Withholding = WithholdingUnknown | WithholdingPending | WithholdingConfirmed

  datatype Grade = GradeA | GradeB | GradeC | GradeD | GradeE

  datatype Figures = Figures(
    payout: Option<Id>, earned: int, allocation: int, paid: int, payroll: int,
    withholding: Withholding, rail: Option<Ledger.Rail>, grade: Grade)

  datatype Entry = Entry(worker: Id, shift: Id, figures: Figures, active: bool, original: Option<Id>, correctionOf: Option<Id>)

  datatype Alert =
    | UnmappedWorkerAlert(shift: Id)
    | AllocationGap(worker: Id, shift: Id, earned: int, allocation: int)
    | PayoutGap(worker: Id, shift: Id, allocation: int, paid: int)
    | PayrollGap(worker: Id, shift: Id, paid: int, payroll: int, rail: Option<Ledger.Rail>)
    | WithholdingUnknownAlert(worker: Id, shift: Id, payroll: int)
    | RefundAdjustmentRequired(tip: Id, refund: Engine.RefundStatus)

  datatype StoredAlert = StoredAlert(alert: Alert, resolved: bool)

  datatype Book = Book(entries: map<Id, Entry>, next: Id)

  // ----- what a shift's entry says

  function ComputeGrade(tips: bool, shift: bool, approved: bool, usdcFinalized: bool, attested: bool, payroll: bool): Grade {
    var base := tips && shift;
    if base && approved && (usdcFinalized || attested) && payroll then GradeA
    else if base && approved && usdcFinalized then GradeB
    else if base && approved && attested then GradeC
    else if base then GradeD
    else GradeE
  }

  function Rank(g: Grade): nat {
    match g case GradeA => 4 case GradeB => 3 case GradeC => 2 case GradeD => 1 case GradeE => 0
  }

  function PayrollFor(ev: Evidence, s: WorkedShift): Option<PayrollRecord> {
    First((r: PayrollRecord) => InPeriod(r, s), ev.payroll)
  }

  function WithholdingOf(record: Option<PayrollRecord>): Withholding {
    if record.None? then WithholdingUnknown
    else if record.value.withheld.Some? && record.value.providerConfirmed then WithholdingConfirmed
    else WithholdingPending
  }

  function FiguresFrom(ev: Evidence, s: WorkedShift, earned: int, allocation: int, paid: int, payroll: int): Figures {
    var row := if s.worker.Some? then RowFor(ev, s.worker.value, s.day) else None;
    var payout := FinalPayout(row);
    var batch := BatchOn(ev, s.day);
    var record := PayrollFor(ev, s);
    var reported := if record.Some? then payroll else 0;
    var rail := if payout.Some? then Some(payout.value.rail) else if row.Some? then row.value.payoutRail else None;
    Figures(
      if payout.Some? then Some(payout.value.id) else None, earned, allocation, paid, reported, WithholdingOf(record), rail,
      ComputeGrade(earned > 0 || (batch.Some? && batch.value.pool > 0), true, allocation > 0,
                   payout.Some? && payout.value.rail == Ledger.Usdc, payout.Some? && payout.value.rail != Ledger.Usdc,
                   WithholdingOf(record) == WithholdingConfirmed))
  }

  function FiguresFor(ev: Evidence, s: WorkedShift): Figures {
    FiguresFrom(ev, s, Earned(ev.tips, (s.provider, s.external)), AllocationShare(ev, s), PaidShare(ev, s),
                PayrollShare(ev, |ev.payroll|, s))
  }

  function FiguresOf(ev: Evidence): WorkedShift -> Figures {
    (s: WorkedShift) => FiguresFor(ev, s)
  }

  /** The evidence has a finalized payout, by USDC or not, of the worker's row of that day's batch. */
  ghost predicate PaidOut(ev: Evidence, s: WorkedShift, usdc: bool) {
    exists b, r, p ::
      && b in ev.batches && BatchOn(ev, s.day) == Some(b) && r in b.rows && r.worker == s.worker && r.worker.Some?
      && RowFor(ev, r.worker.value, s.day) == Some(r)
      && p in r.payouts && p.status == Ledger.Finalized && FinalPayout(Some(r)) == Some(p) && (p.rail == Ledger.Usdc) == usdc
  }

  /** What each grade vouches for, and that nothing else earns it. */
  lemma GradesAreBacked(ev: Evidence, s: WorkedShift)
    requires s.worker.Some?
    ensures
      var f, batch := FiguresFor(ev, s), BatchOn(ev, s.day);
      var seen, confirmed := f.earned > 0 || (batch.Some? && batch.value.pool > 0), f.withholding == WithholdingConfirmed;
      && (f.grade == GradeA <==> seen && f.allocation > 0 && confirmed && (PaidOut(ev, s, true) || PaidOut(ev, s, false)))
      && (f.grade == GradeB <==> seen && f.allocation > 0 && !confirmed && PaidOut(ev, s, true))
      && (f.grade == GradeC <==> seen && f.allocation > 0 && !confirmed && PaidOut(ev, s, false))
      && (f.grade == GradeE <==> !seen)
  {
    var batch, row := BatchOn(ev, s.day), RowFor(ev, s.worker.value, s.day);
    var payout := FinalPayout(row);
    if payout.Some? {
      assert batch.value in ev.batches && row.value in batch.value.rows && payout.value in row.value.payouts;
      assert PaidOut(ev, s, payout.value.rail == Ledger.Usdc);
    }
  }

  predicate TipsSeen(ev: Evidence, s: WorkedShift) {
    FiguresFor(ev, s).earned > 0 || (BatchOn(ev, s.day).Some? && BatchOn(ev, s.day).value.pool > 0)
  }

  /** Evidence that shows no less of a shift never gives it a lower grade. */
  lemma BetterEvidenceBetterGrade(ev: Evidence, ev': Evidence, s: WorkedShift)
    requires s.worker.Some? && (TipsSeen(ev, s) ==> TipsSeen(ev', s))
    requires FiguresFor(ev, s).allocation > 0 ==> FiguresFor(ev', s).allocation > 0
    requires PaidOut(ev, s, true) ==> PaidOut(ev', s, true)
    requires PaidOut(ev, s, false) ==> PaidOut(ev', s, true) || PaidOut(ev', s, false)
    requires FiguresFor(ev, s).withholding == WithholdingConfirmed ==> FiguresFor(ev', s).withholding == WithholdingConfirmed
    ensures Rank(FiguresFor(ev, s).grade) <= Rank(FiguresFor(ev', s).grade)
  {
    GradesAreBacked(ev, s);
    GradesAreBacked(ev', s);
  }

  function GapAlerts(worker: Id, shift: Id, f: Figures): seq<Alert> {
    (if f.earned > 0 && f.allocation == 0 then [AllocationGap(worker, shift, f.earned, f.allocation)] else []) +
    (if f.allocation > 0 && f.paid == 0 then [PayoutGap(worker, shift, f.allocation, f.paid)] else []) +
    (if f.paid > 0 && f.payroll == 0 then [PayrollGap(worker, shift, f.paid, f.payroll, f.rail)] else []) +
    (if f.payroll > 0 && f.withholding != WithholdingConfirmed then [WithholdingUnknownAlert(worker, shift, f.payroll)] else [])
  }

  // ----- lineages

  predicate Belongs(entries: map<Id, Entry>, id: Id, worker: Id, shift: Id) {
    id in entries && entries[id].worker == worker && entries[id].shift == shift
  }

  predicate HasSuperseded(entries: map<Id, Entry>, worker: Id, shift: Id) {
    exists id :: id in entries && Belongs(entries, id, worker, shift) && !entries[id].active
  }

  predicate IsBase(entries: map<Id, Entry>, id: Id, worker: Id, shift: Id) {
    Belongs(entries, id, worker, shift) && entries[id].correctionOf.None?
  }

  predicate HasBase(entries: map<Id, Entry>, worker: Id, shift: Id) {
    exists id :: id in entries && IsBase(entries, id, worker, shift)
  }

  /** An entry corrects the one before it, names the first as its original, and is active if it is the last. */
  predicate IsLink(entries: map<Id, Entry>, chain: seq<Id>, i: int)
    requires 0 <= i < |chain|
  {
    && chain[i] in entries
    && (entries[chain[i]].active <==> i == |chain| - 1)
    && entries[chain[i]].correctionOf == (if i == 0 then None else Some(chain[i - 1]))
    && entries[chain[i]].original == (if i == 0 then None else Some(chain[0]))
  }

  /** All the entries of one worker and shift, oldest first. */
  ghost predicate IsLineage(entries: map<Id, Entry>, worker: Id, shift: Id, chain: seq<Id>) {
    && (forall i, j :: 0 <= i < j < |chain| ==> chain[i] != chain[j])
    && (forall id :: Belongs(entries, id, worker, shift) <==> id in chain)
    && (forall i :: 0 <= i < |chain| ==> IsLink(entries, chain, i))
  }

  ghost predicate HasLineage(entries: map<Id, Entry>, worker: Id, shift: Id) {
    exists chain :: IsLineage(entries, worker, shift, chain)
  }

  ghost predicate Lineages(book: Book) {
    && (forall id :: id in book.entries ==> id < book.next)
    && (forall worker, shift :: HasLineage(book.entries, worker, shift))
  }

  lemma EmptyBook(next: Id)
    ensures Lineages(Book(map[], next))
  {
    forall worker: Id, shift: Id ensures HasLineage(map[], worker, shift) {
      assert IsLineage(map[], worker, shift, []);
    }
  }

  /** Entries of other workers or shifts are the same. */
  ghost predicate OnlyTouches(entries: map<Id, Entry>, entries': map<Id, Entry>, worker: Id, shift: Id) {
    && (forall id :: id in entries && !Belongs(entries, id, worker, shift) ==> id in entries' && entries'[id] == entries[id])
    && (forall id :: id in entries' && !Belongs(entries', id, worker, shift) ==> id in entries && entries'[id] == entries[id])
  }

  lemma OtherLineagesKept(entries: map<Id, Entry>, entries': map<Id, Entry>, worker: Id, shift: Id, w: Id, s: Id, chain: seq<Id>)
    requires OnlyTouches(entries, entries', worker, shift) && (w, s) != (worker, shift) && IsLineage(entries, w, s, chain)
    ensures IsLineage(entries', w, s, chain)
  {
    forall id ensures Belongs(entries', id, w, s) <==> Belongs(entries, id, w, s) {
      assert Belongs(entries, id, w, s) ==> !Belongs(entries, id, worker, shift);
      assert Belongs(entries', id, w, s) ==> !Belongs(entries', id, worker, shift);
    }
    forall i | 0 <= i < |chain| ensures IsLink(entries', chain, i) {
      assert IsLink(entries, chain, i) && chain[i] in chain;
      assert !Belongs(entries, chain[i], worker, shift);
    }
  }

  lemma LineagesFromOne(book: Book, book': Book, worker: Id, shift: Id, chain': seq<Id>)
    requires Lineages(book) && OnlyTouches(book.entries, book'.entries, worker, shift)
    requires forall id :: id in book'.entries ==> id < book'.next
    requires IsLineage(book'.entries, worker, shift, chain')
    ensures Lineages(book')
  {
    forall w: Id, s: Id ensures HasLineage(book'.entries, w, s) {
      if (w, s) == (worker, shift) {
        assert IsLineage(book'.entries, w, s, chain');
      } else {
        assert HasLineage(book.entries, w, s);
        var chain :| IsLineage(book.entries, w, s, chain);
        OtherLineagesKept(book.entries, book'.entries, worker, shift, w, s, chain);
      }
    }
  }

  // ----- rebuilding

  ghost function BaseOf(entries: map<Id, Entry>, worker: Id, shift: Id): (id: Id)
    requires HasBase(entries, worker, shift)
    ensures IsBase(entries, id, worker, shift)
  {
    var id :| id in entries && IsBase(entries, id, worker, shift); id
  }

  ghost function Upsert(book: Book, worker: Id, shift: Id, figures: Figures): Book {
    if HasBase(book.entries, worker, shift) then
      var base := BaseOf(book.entries, worker, shift);
      book.(entries := book.entries[base := book.entries[base].(figures := figures, active := true)])
    else
      Book(book.entries[book.next := Entry(worker, shift, figures, true, None, None)], book.next + 1)
  }

  /** A turn of the shift loop, for any way `figures` to fill an entry in. */
  ghost function ProjectShift(figures: WorkedShift -> Figures, book: Book, s: WorkedShift): Book {
    if s.worker.None? || HasSuperseded(book.entries, s.worker.value, s.id) then book
    else Upsert(book, s.worker.value, s.id, figures(s))
  }

  ghost function ProjectShifts(figures: WorkedShift -> Figures, shifts: seq<WorkedShift>, book: Book, n: nat): Book
    requires n <= |shifts|
  {
    if n == 0 then book else ProjectShift(figures, ProjectShifts(figures, shifts, book, n - 1), shifts[n - 1])
  }

  ghost function Rebuilt(ev: Evidence, book: Book): Book {
    ProjectShifts(FiguresOf(ev), ev.shifts, book, |ev.shifts|)
  }

  lemma ShortLineage(entries: map<Id, Entry>, worker: Id, shift: Id, chain: seq<Id>)
    requires IsLineage(entries, worker, shift, chain)
    ensures HasSuperseded(entries, worker, shift) <==> |chain| >= 2
    ensures HasBase(entries, worker, shift) <==> chain != []
    ensures HasBase(entries, worker, shift) ==> BaseOf(entries, worker, shift) == chain[0]
  {
    if chain != [] {
      assert IsLink(entries, chain, 0) && chain[0] in chain;
      assert Belongs(entries, chain[0], worker, shift);
    }
    forall id | Belongs(entries, id, worker, shift) ensures exists i :: 0 <= i < |chain| && chain[i] == id && IsLink(entries, chain, i) {
      assert id in chain;
    }
  }

  lemma UpsertKeepsLineages(book: Book, worker: Id, shift: Id, figures: Figures)
    requires Lineages(book) && !HasSuperseded(book.entries, worker, shift)
    ensures Lineages(Upsert(book, worker, shift, figures))
    ensures OnlyTouches(book.entries, Upsert(book, worker, shift, figures).entries, worker, shift)
  {
    var book' := Upsert(book, worker, shift, figures);
    assert HasLineage(book.entries, worker, shift);
    var chain :| IsLineage(book.entries, worker, shift, chain);
    ShortLineage(book.entries, worker, shift, chain);
    if chain == [] {
      assert IsLineage(book'.entries, worker, shift, [book.next]);
      LineagesFromOne(book, book', worker, shift, [book.next]);
    } else {
      assert chain[0] in chain && IsLink(book.entries, chain, 0);
      assert IsLineage(book'.entries, worker, shift, chain);
      LineagesFromOne(book, book', worker, shift, chain);
    }
  }

  lemma {:induction false} RebuildKeepsLineages(figures: WorkedShift -> Figures, shifts: seq<WorkedShift>, book: Book, n: nat)
    requires Lineages(book) && n <= |shifts|
    ensures Lineages(ProjectShifts(figures, shifts, book, n))
  {
    if n > 0 {
      RebuildKeepsLineages(figures, shifts, book, n - 1);
      var before, s := ProjectShifts(figures, shifts, book, n - 1), shifts[n - 1];
      if s.worker.Some? && !HasSuperseded(before.entries, s.worker.value, s.id) {
        UpsertKeepsLineages(before, s.worker.value, s.id, figures(s));
      }
    }
  }

  // ----- correcting

  datatype Changes = Changes(earned: Option<int>, allocation: Option<int>, paid: Option<int>, payroll: Option<int>)

  datatype IncomeError = EntryNotFound | NotTheActiveEntry

  function Changed(f: Figures, c: Changes): Figures {
    f.(earned := c.earned.GetOr(f.earned), allocation := c.allocation.GetOr(f.allocation),
       paid := c.paid.GetOr(f.paid), payroll := c.payroll.GetOr(f.payroll))
  }

  function CorrectionRefusal(book: Book, id: Id): Option<IncomeError> {
    if id !in book.entries then Some(EntryNotFound)
    else if !book.entries[id].active then Some(NotTheActiveEntry)
    else None
  }

  function Correction(id: Id, e: Entry, c: Changes): Entry {
    Entry(e.worker, e.shift, Changed(e.figures, c), true, Some(e.original.GetOr(id)), Some(id))
  }

  function Corrected(book: Book, id: Id, c: Changes): Book {
    if CorrectionRefusal(book, id).Some? then book
    else Book(book.entries[id := book.entries[id].(active := false)][book.next := Correction(id, book.entries[id], c)], book.next + 1)
  }

  lemma CorrectionKeepsLineages(book: Book, id: Id, c: Changes)
    requires Lineages(book)
    ensures Lineages(Corrected(book, id, c))
  {
    if CorrectionRefusal(book, id).None? {
      var e, book' := book.entries[id], Corrected(book, id, c);
      assert HasLineage(book.entries, e.worker, e.shift);
      var chain :| IsLineage(book.entries, e.worker, e.shift, chain);
      assert Belongs(book.entries, id, e.worker, e.shift);
      CorrectedChain(book, id, c, chain);
      LineagesFromOne(book, book', e.worker, e.shift, chain + [book.next]);
    }
  }

  lemma ActiveIsLast(entries: map<Id, Entry>, worker: Id, shift: Id, chain: seq<Id>, id: Id)
    requires IsLineage(entries, worker, shift, chain) && Belongs(entries, id, worker, shift) && entries[id].active
    ensures chain != [] && chain[|chain| - 1] == id
    ensures entries[id].original.GetOr(id) == chain[0]
  {
    assert id in chain;
    var i :| 0 <= i < |chain| && chain[i] == id;
    assert IsLink(entries, chain, i);
  }

  lemma CorrectedLink(book: Book, id: Id, c: Changes, chain: seq<Id>, i: int)
    requires CorrectionRefusal(book, id).None? && book.next !in book.entries
    requires 0 <= i < |chain| && chain[|chain| - 1] == id && (i < |chain| - 1 ==> chain[i] != id) && IsLink(book.entries, chain, i)
    ensures IsLink(Corrected(book, id, c).entries, chain + [book.next], i)
  {
  }

  lemma CorrectedLinks(book: Book, id: Id, c: Changes, chain: seq<Id>)
    requires CorrectionRefusal(book, id).None? && book.next !in book.entries
    requires IsLineage(book.entries, book.entries[id].worker, book.entries[id].shift, chain)
    ensures forall i :: 0 <= i <= |chain| ==> IsLink(Corrected(book, id, c).entries, chain + [book.next], i)
  {
    ActiveIsLast(book.entries, book.entries[id].worker, book.entries[id].shift, chain, id);
    forall i | 0 <= i <= |chain| ensures IsLink(Corrected(book, id, c).entries, chain + [book.next], i) {
      if i < |chain| { CorrectedLink(book, id, c, chain, i); }
    }
  }

  lemma CorrectedChain(book: Book, id: Id, c: Changes, chain: seq<Id>)
    requires CorrectionRefusal(book, id).None? && book.next !in book.entries
    requires IsLineage(book.entries, book.entries[id].worker, book.entries[id].shift, chain)
    ensures IsLineage(Corrected(book, id, c).entries, book.entries[id].worker, book.entries[id].shift, chain + [book.next])
  {
    var e, entries', chain' := book.entries[id], Corrected(book, id, c).entries, chain + [book.next];
    CorrectedLinks(book, id, c, chain);
    forall i | 0 <= i < |chain| ensures chain[i] != book.next {
      assert IsLink(book.entries, chain, i);
    }
    forall k ensures Belongs(entries', k, e.worker, e.shift) <==> k in chain' {
      CorrectedBelongs(book, id, c, k);
      assert Belongs(book.entries, k, e.worker, e.shift) <==> k in chain;
    }
  }

  lemma CorrectedBelongs(book: Book, id: Id, c: Changes, k: Id)
    requires CorrectionRefusal(book, id).None? && book.next !in book.entries
    ensures
      var e := book.entries[id];
      Belongs(Corrected(book, id, c).entries, k, e.worker, e.shift) <==> Belongs(book.entries, k, e.worker, e.shift) || k == book.next
  {
  }

  // ----- any sequence of rebuilds and corrections

  datatype BookStep = RebuildStep(ev: Evidence) | CorrectStep(id: Id, changes: Changes)

  ghost function AfterStep(book: Book, step: BookStep): Book {
    match step
    case RebuildStep(ev) => Rebuilt(ev, book)
    case CorrectStep(id, changes) => Corrected(book, id, changes)
  }

  ghost function AfterSteps(book: Book, steps: seq<BookStep>): Book
    decreases |steps|
  {
    if steps == [] then book else AfterSteps(AfterStep(book, steps[0]), steps[1..])
  }

  lemma {:induction false} StepsKeepLineages(book: Book, steps: seq<BookStep>)
    requires Lineages(book)
    ensures Lineages(AfterSteps(book, steps))
    decreases |steps|
  {
    if steps != [] {
      match steps[0] {
        case RebuildStep(ev) => RebuildKeepsLineages(FiguresOf(ev), ev.shifts, book, |ev.shifts|);
        case CorrectStep(id, changes) => CorrectionKeepsLineages(book, id, changes);
      }
      StepsKeepLineages(AfterStep(book, steps[0]), steps[1..]);
    }
  }

  /**
   * After any rebuilds and corrections the entries of a worker and shift, if there are any, form one
   * chain of corrections: one active entry, one base entry, and that base is everybody's original.
   */
  lemma EveryHistoryIsOneChain(steps: seq<BookStep>, worker: Id, shift: Id) returns (chain: seq<Id>)
    ensures
      var entries := AfterSteps(Book(map[], 0), steps).entries;
      && IsLineage(entries, worker, shift, chain)
      && (forall id :: Belongs(entries, id, worker, shift) ==>
            (entries[id].active <==> id == chain[|chain| - 1])
            && (IsBase(entries, id, worker, shift) <==> id == chain[0])
            && (id != chain[0] ==> entries[id].original == Some(chain[0])))
  {
    EmptyBook(0);
    StepsKeepLineages(Book(map[], 0), steps);
    var entries := AfterSteps(Book(map[], 0), steps).entries;
    assert HasLineage(entries, worker, shift);
    chain :| IsLineage(entries, worker, shift, chain);
    forall id | Belongs(entries, id, worker, shift)
      ensures (entries[id].active <==> id == chain[|chain| - 1]) && (IsBase(entries, id, worker, shift) <==> id == chain[0])
      ensures id != chain[0] ==> entries[id].original == Some(chain[0])
    {
      assert id in chain;
      var i :| 0 <= i < |chain| && chain[i] == id;
      assert IsLink(entries, chain, i);
    }
  }
}

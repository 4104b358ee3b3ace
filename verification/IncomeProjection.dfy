/**
 * What a venue's evidence says about each shift: how much of an allocation, of a finalized
 * payout and of a payroll report belongs to it. Instants are seconds, days count from an epoch.
 */
module IncomeProjection {
  import opened Wrappers
  import opened Sums
  import opened IncomeSplit
  import opened Apportionment
  import Ledger
  import Engine = AllocationEngine

  datatype WorkedShift = WorkedShift(id: Id, worker: Option<Id>, provider: Id, external: Id, day: int, minutes: int)
  datatype TipRecord = TipRecord(
    id: Id, provider: Id, shiftRef: Id, amount: int, payment: Engine.PaymentStatus, refund: Engine.RefundStatus, day: int)
  datatype PayoutFact = PayoutFact(id: Id, rail: Ledger.Rail, status: Ledger.PayoutStatus, amount: int)
  datatype RowFact = RowFact(worker: Option<Id>, net: int, payoutRail: Option<Ledger.Rail>, paid: bool, payouts: seq<PayoutFact>)
  datatype BatchFact = BatchFact(day: int, pool: int, rows: seq<RowFact>)
  datatype PayrollRecord = PayrollRecord(
    worker: Id, periodStart: int, periodEnd: int, reported: int, withheld: Option<int>, providerConfirmed: bool)

  /** Everything one rebuild reads; only approved batches are among the batches. */
  datatype Evidence = Evidence(
    shifts: seq<WorkedShift>, tips: seq<TipRecord>, batches: seq<BatchFact>, payroll: seq<PayrollRecord>)

  /** The shift id is the primary key. */
  ghost predicate DistinctShifts(shifts: seq<WorkedShift>) {
    forall i, j :: 0 <= i < j < |shifts| ==> shifts[i].id != shifts[j].id
  }

  // ----- looking things up

  function First<T(!new)>(p: T -> bool, s: seq<T>): (r: Option<T>)
    ensures r.Some? ==> r.value in s && p(r.value)
    ensures r.None? <==> forall x :: x in s ==> !p(x)
  {
    if s == [] then None else if p(s[0]) then Some(s[0]) else First(p, s[1..])
  }

  function Where<T(!new)>(p: T -> bool, s: seq<T>): (r: seq<T>)
    ensures forall x :: x in r <==> x in s && p(x)
  {
    if s == [] then [] else if p(s[|s| - 1]) then Where(p, s[..|s| - 1]) + [s[|s| - 1]] else Where(p, s[..|s| - 1])
  }

  function BatchOn(ev: Evidence, day: int): Option<BatchFact> {
    First((b: BatchFact) => b.day == day, ev.batches)
  }

  function RowFor(ev: Evidence, worker: Id, day: int): Option<RowFact> {
    var batch := BatchOn(ev, day);
    if batch.None? then None else First((r: RowFact) => r.worker == Some(worker), batch.value.rows)
  }

  function FinalPayout(row: Option<RowFact>): Option<PayoutFact> {
    if row.None? then None else First((p: PayoutFact) => p.status == Ledger.Finalized, row.value.payouts)
  }

  function NetFor(ev: Evidence, worker: Id, day: int): int {
    var row := RowFor(ev, worker, day);
    if row.Some? then row.value.net else 0
  }

  function PaidFor(ev: Evidence, worker: Id, day: int): int {
    var payout := FinalPayout(RowFor(ev, worker, day));
    if payout.Some? then payout.value.amount else 0
  }

  // ----- tips by shift

  predicate CountsAsEarned(t: TipRecord) {
    t.refund != Engine.Full && t.payment != Engine.Canceled
  }

  function Earned(tips: seq<TipRecord>, key: (Id, Id)): int {
    Total((t: TipRecord) => if CountsAsEarned(t) && (t.provider, t.shiftRef) == key then t.amount else 0, tips)
  }

  function OrZero<K>(m: map<K, int>, k: K): int {
    if k in m then m[k] else 0
  }

  lemma EarnedStep(tips: seq<TipRecord>, n: nat, key: (Id, Id))
    requires n < |tips|
    ensures Earned(tips[..n + 1], key) == Earned(tips[..n], key)
              + if CountsAsEarned(tips[n]) && (tips[n].provider, tips[n].shiftRef) == key then tips[n].amount else 0
  {
    assert tips[..n + 1] == tips[..n] + [tips[n]];
    TotalAppend((t: TipRecord) => if CountsAsEarned(t) && (t.provider, t.shiftRef) == key then t.amount else 0,
                (t: TipRecord) => 0.0, tips[..n], tips[n]);
  }

  method TipsByShift(tips: seq<TipRecord>) returns (byShift: map<(Id, Id), int>)
    ensures forall key :: OrZero(byShift, key) == Earned(tips, key)
  {
    byShift := map[];
    for n := 0 to |tips|
      invariant forall key :: OrZero(byShift, key) == Earned(tips[..n], key)
    {
      forall key ensures Earned(tips[..n + 1], key) == Earned(tips[..n], key)
        + if CountsAsEarned(tips[n]) && (tips[n].provider, tips[n].shiftRef) == key then tips[n].amount else 0
      {
        EarnedStep(tips, n, key);
      }
      var tip := tips[n];
      if tip.refund == Engine.Full || tip.payment == Engine.Canceled { continue; }
      var key := (tip.provider, tip.shiftRef);
      ghost var before := byShift;
      byShift := byShift[key := OrZero(byShift, key) + tip.amount];
      assert forall k :: OrZero(byShift, k) == OrZero(before, k) + if k == key then tip.amount else 0;
    }
    assert tips[..|tips|] == tips;
  }

  // ----- slices by shift

  /** The slice that falls to a shift when slices are handed out along a list of shifts. */
  function SliceAt(shifts: seq<WorkedShift>, slices: seq<int>, id: Id): int
    requires |slices| == |shifts|
  {
    if shifts == [] then 0
    else if shifts[0].id == id then slices[0]
    else SliceAt(shifts[1..], slices[1..], id)
  }

  lemma {:induction false} SliceAtPlace(shifts: seq<WorkedShift>, slices: seq<int>, i: nat)
    requires |slices| == |shifts| && DistinctShifts(shifts) && i < |shifts|
    ensures SliceAt(shifts, slices, shifts[i].id) == slices[i]
    decreases i
  {
    if i > 0 {
      SliceAtPlace(shifts[1..], slices[1..], i - 1);
    }
  }

  function DayShifts(shifts: seq<WorkedShift>, worker: Id, day: int): seq<WorkedShift> {
    Where((s: WorkedShift) => s.worker == Some(worker) && s.day == day, shifts)
  }

  function Minutes(shifts: seq<WorkedShift>): (r: seq<int>)
    ensures |r| == |shifts| && forall i :: 0 <= i < |r| ==> r[i] == if shifts[i].minutes > 0 then shifts[i].minutes else 0
  {
    seq(|shifts|, i requires 0 <= i < |shifts| => if shifts[i].minutes > 0 then shifts[i].minutes else 0)
  }

  function AllocationShare(ev: Evidence, s: WorkedShift): int {
    if s.worker.None? then 0 else
      var day := DayShifts(ev.shifts, s.worker.value, s.day);
      SliceAt(day, Slices(NetFor(ev, s.worker.value, s.day), AsReals(Minutes(day))), s.id)
  }

  function PaidShare(ev: Evidence, s: WorkedShift): int {
    if s.worker.None? then 0 else
      var day := DayShifts(ev.shifts, s.worker.value, s.day);
      SliceAt(day, Slices(PaidFor(ev, s.worker.value, s.day), AsReals(Minutes(day))), s.id)
  }

  function Noon(day: int): int {
    day * 86_400 + 43_200
  }

  predicate InPeriod(r: PayrollRecord, s: WorkedShift) {
    s.worker == Some(r.worker) && r.periodStart <= Noon(s.day) && r.periodEnd >= Noon(s.day)
  }

  function PeriodShifts(shifts: seq<WorkedShift>, r: PayrollRecord): seq<WorkedShift> {
    Where((s: WorkedShift) => InPeriod(r, s), shifts)
  }

  function AllocationShares(ev: Evidence, shifts: seq<WorkedShift>): (r: seq<int>)
    ensures |r| == |shifts| && forall i :: 0 <= i < |r| ==> r[i] == AllocationShare(ev, shifts[i])
  {
    seq(|shifts|, i requires 0 <= i < |shifts| => AllocationShare(ev, shifts[i]))
  }

  function PaidShares(ev: Evidence, shifts: seq<WorkedShift>): (r: seq<int>)
    ensures |r| == |shifts| && forall i :: 0 <= i < |r| ==> r[i] == PaidShare(ev, shifts[i])
  {
    seq(|shifts|, i requires 0 <= i < |shifts| => PaidShare(ev, shifts[i]))
  }

  function PayrollSlices(ev: Evidence, r: PayrollRecord): (slices: seq<int>)
    ensures |slices| == |PeriodShifts(ev.shifts, r)|
  {
    var period := PeriodShifts(ev.shifts, r);
    Slices(r.reported, AsReals(AllocationShares(ev, period)))
  }

  /** The last of the first n payroll records whose period the shift is in. */
  function LastCovering(payroll: seq<PayrollRecord>, n: nat, s: WorkedShift): (k: Option<nat>)
    requires n <= |payroll|
    ensures k.Some? ==> k.value < n && InPeriod(payroll[k.value], s) && forall m :: k.value < m < n ==> !InPeriod(payroll[m], s)
    ensures k.None? ==> forall m :: 0 <= m < n ==> !InPeriod(payroll[m], s)
  {
    if n == 0 then None else if InPeriod(payroll[n - 1], s) then Some(n - 1) else LastCovering(payroll, n - 1, s)
  }

  function ReportedShare(ev: Evidence, r: PayrollRecord, s: WorkedShift): int {
    SliceAt(PeriodShifts(ev.shifts, r), PayrollSlices(ev, r), s.id)
  }

  /** A shift's share of the first n payroll reports: that of the last one that covers it. */
  function PayrollShare(ev: Evidence, n: nat, s: WorkedShift): int
    requires n <= |ev.payroll|
  {
    var k := LastCovering(ev.payroll, n, s);
    if k.Some? then ReportedShare(ev, ev.payroll[k.value], s) else 0
  }

  // ----- conservation

  lemma {:induction false} WhereKeepsDistinct(p: WorkedShift -> bool, shifts: seq<WorkedShift>)
    requires DistinctShifts(shifts)
    ensures DistinctShifts(Where(p, shifts))
    decreases |shifts|
  {
    if shifts != [] {
      var front, last := shifts[..|shifts| - 1], shifts[|shifts| - 1];
      WhereKeepsDistinct(p, front);
      forall i | 0 <= i < |Where(p, front)| ensures Where(p, front)[i].id != last.id {
        assert Where(p, front)[i] in front;
      }
    }
  }

  /** For every worker and day the shares add up to the allocation's net and to the finalized payout. */
  lemma DayConservesCents(ev: Evidence, worker: Id, day: int)
    requires DistinctShifts(ev.shifts) && DayShifts(ev.shifts, worker, day) != []
    ensures SumSeq(AllocationShares(ev, DayShifts(ev.shifts, worker, day))) == NetFor(ev, worker, day)
    ensures SumSeq(PaidShares(ev, DayShifts(ev.shifts, worker, day))) == PaidFor(ev, worker, day)
  {
    var shifts := DayShifts(ev.shifts, worker, day);
    WhereKeepsDistinct((s: WorkedShift) => s.worker == Some(worker) && s.day == day, ev.shifts);
    var minutes := AsReals(Minutes(shifts));
    var net, paid := Slices(NetFor(ev, worker, day), minutes), Slices(PaidFor(ev, worker, day), minutes);
    forall i | 0 <= i < |shifts|
      ensures AllocationShare(ev, shifts[i]) == net[i] && PaidShare(ev, shifts[i]) == paid[i]
    {
      assert shifts[i] in shifts;
      SliceAtPlace(shifts, net, i);
      SliceAtPlace(shifts, paid, i);
    }
    assert AllocationShares(ev, shifts) == net && PaidShares(ev, shifts) == paid;
  }

  /** Within the day a shift's share is its minutes' exact part of the net, to within a cent. */
  lemma ShareFollowsMinutes(ev: Evidence, worker: Id, day: int, i: nat)
    requires DistinctShifts(ev.shifts) && i < |DayShifts(ev.shifts, worker, day)|
    requires SumSeq(Minutes(DayShifts(ev.shifts, worker, day))) > 0
    ensures
      var shifts := DayShifts(ev.shifts, worker, day);
      var exact := Quota(NetFor(ev, worker, day), SumSeq(Minutes(shifts)) as real)(Minutes(shifts)[i] as real);
      exact - 1.0 < AllocationShare(ev, shifts[i]) as real < exact + 1.0
  {
    var shifts := DayShifts(ev.shifts, worker, day);
    var net, minutes := NetFor(ev, worker, day), AsReals(Minutes(shifts));
    WhereKeepsDistinct((s: WorkedShift) => s.worker == Some(worker) && s.day == day, ev.shifts);
    assert shifts[i] in shifts;
    SliceAtPlace(shifts, Slices(net, minutes), i);
    SumAsReals(Minutes(shifts));
    SliceNearQuota(net, minutes, Slices(net, minutes), i);
  }

  function PayrollSharesOf(ev: Evidence, shifts: seq<WorkedShift>): (r: seq<int>)
    ensures |r| == |shifts| && forall i :: 0 <= i < |r| ==> r[i] == PayrollShare(ev, |ev.payroll|, shifts[i])
  {
    seq(|shifts|, i requires 0 <= i < |shifts| => PayrollShare(ev, |ev.payroll|, shifts[i]))
  }

  /** A shift no later report covers has its slice of this one. */
  lemma SliceOfTheReport(ev: Evidence, k: nat, i: nat)
    requires DistinctShifts(ev.shifts) && k < |ev.payroll| && i < |PeriodShifts(ev.shifts, ev.payroll[k])|
    requires forall m :: k < m < |ev.payroll| ==> !InPeriod(ev.payroll[m], PeriodShifts(ev.shifts, ev.payroll[k])[i])
    ensures PayrollShare(ev, |ev.payroll|, PeriodShifts(ev.shifts, ev.payroll[k])[i]) == PayrollSlices(ev, ev.payroll[k])[i]
  {
    var record := ev.payroll[k];
    var shifts := PeriodShifts(ev.shifts, record);
    WhereKeepsDistinct((s: WorkedShift) => InPeriod(record, s), ev.shifts);
    assert shifts[i] in shifts;
    assert LastCovering(ev.payroll, |ev.payroll|, shifts[i]) == Some(k);
    SliceAtPlace(shifts, PayrollSlices(ev, record), i);
  }

  /** A payroll report whose shifts no later report covers is spread over them to the cent. */
  lemma PayrollConservesCents(ev: Evidence, k: nat)
    requires DistinctShifts(ev.shifts) && k < |ev.payroll| && PeriodShifts(ev.shifts, ev.payroll[k]) != []
    requires forall m, s :: k < m < |ev.payroll| && s in PeriodShifts(ev.shifts, ev.payroll[k]) ==> !InPeriod(ev.payroll[m], s)
    ensures SumSeq(PayrollSharesOf(ev, PeriodShifts(ev.shifts, ev.payroll[k]))) == ev.payroll[k].reported
  {
    var shifts, slices := PeriodShifts(ev.shifts, ev.payroll[k]), PayrollSlices(ev, ev.payroll[k]);
    forall i | 0 <= i < |shifts| ensures PayrollShare(ev, |ev.payroll|, shifts[i]) == slices[i] {
      assert shifts[i] in shifts;
      SliceOfTheReport(ev, k, i);
    }
    assert PayrollSharesOf(ev, shifts) == slices;
  }

  /** What a report's shifts show beyond their slices of it: nothing, unless a later report covers the shift. */
  function TakenOver(ev: Evidence, k: nat): (r: seq<int>)
    requires k < |ev.payroll|
    ensures |r| == |PeriodShifts(ev.shifts, ev.payroll[k])|
  {
    var shifts := PeriodShifts(ev.shifts, ev.payroll[k]);
    seq(|shifts|, i requires 0 <= i < |shifts| =>
      if CoveredLater(ev, k, shifts[i]) then PayrollShare(ev, |ev.payroll|, shifts[i]) - PayrollSlices(ev, ev.payroll[k])[i] else 0)
  }

  predicate CoveredLater(ev: Evidence, k: nat, s: WorkedShift) {
    exists m :: k < m < |ev.payroll| && InPeriod(ev.payroll[m], s)
  }

  lemma {:induction false} SumsAddUp(a: seq<int>, b: seq<int>, c: seq<int>)
    requires |a| == |b| == |c| && forall i :: 0 <= i < |a| ==> a[i] == b[i] + c[i]
    ensures SumSeq(a) == SumSeq(b) + SumSeq(c)
  {
    if a != [] {
      SumsAddUp(a[1..], b[1..], c[1..]);
    }
  }

  /**
   * In general a report's shifts show its cents plus exactly what later reports changed: what
   * the shifts they cover show, less those shifts' slices of this report.
   */
  lemma ReportShowsWhatWasNotTakenOver(ev: Evidence, k: nat)
    requires DistinctShifts(ev.shifts) && k < |ev.payroll| && PeriodShifts(ev.shifts, ev.payroll[k]) != []
    ensures SumSeq(PayrollSharesOf(ev, PeriodShifts(ev.shifts, ev.payroll[k]))) == ev.payroll[k].reported + SumSeq(TakenOver(ev, k))
  {
    var shifts, slices := PeriodShifts(ev.shifts, ev.payroll[k]), PayrollSlices(ev, ev.payroll[k]);
    forall i | 0 <= i < |shifts| ensures PayrollShare(ev, |ev.payroll|, shifts[i]) == slices[i] + TakenOver(ev, k)[i] {
      if !CoveredLater(ev, k, shifts[i]) { SliceOfTheReport(ev, k, i); }
    }
    SumsAddUp(PayrollSharesOf(ev, shifts), slices, TakenOver(ev, k));
  }

  const ONE_SHIFT := WorkedShift(1, Some(1), 0, 0, 0, 60)

  /** Two reports of one period, of five cents and of seven, over one shift. */
  const TWO_REPORTS := Evidence(
    [ONE_SHIFT], [], [], [PayrollRecord(1, 0, 86_400, 5, None, false), PayrollRecord(1, 0, 86_400, 7, None, false)])

  /** With overlapping periods the earlier report's cents are replaced by the later one's. */
  lemma OverlapReplacesCents()
    ensures PeriodShifts(TWO_REPORTS.shifts, TWO_REPORTS.payroll[0]) == [ONE_SHIFT]
    ensures SumSeq(PayrollSharesOf(TWO_REPORTS, [ONE_SHIFT])) == 7 != TWO_REPORTS.payroll[0].reported
  {
    ShiftInPeriod(TWO_REPORTS.payroll[0]);
    ShiftInPeriod(TWO_REPORTS.payroll[1]);
    PayrollConservesCents(TWO_REPORTS, 1);
  }

  lemma ShiftInPeriod(r: PayrollRecord)
    requires r.worker == 1 && r.periodStart == 0 && r.periodEnd == 86_400
    ensures PeriodShifts([ONE_SHIFT], r) == [ONE_SHIFT]
  {
    assert InPeriod(r, ONE_SHIFT);
    WhereOfOne((s: WorkedShift) => InPeriod(r, s), ONE_SHIFT);
  }

  lemma WhereOfOne<T(!new)>(p: T -> bool, x: T)
    requires p(x)
    ensures Where(p, [x]) == [x]
  {
    assert [x][..0] == [];
    assert Where(p, [x][..0]) == [];
  }

  lemma SliceNearPart(ev: Evidence, r: PayrollRecord, i: nat)
    requires i < |PeriodShifts(ev.shifts, r)| && SumSeq(AllocationShares(ev, PeriodShifts(ev.shifts, r))) > 0
    ensures
      var shares := AllocationShares(ev, PeriodShifts(ev.shifts, r));
      var exact := Quota(r.reported, SumSeq(shares) as real)(shares[i] as real);
      exact - 1.0 < PayrollSlices(ev, r)[i] as real < exact + 1.0
  {
    var shares := AllocationShares(ev, PeriodShifts(ev.shifts, r));
    SumAsReals(shares);
    SliceNearQuota(r.reported, AsReals(shares), PayrollSlices(ev, r), i);
  }

  /** And a shift's share of the report is its allocation share's exact part, to within a cent. */
  lemma PayrollFollowsAllocation(ev: Evidence, k: nat, i: nat)
    requires DistinctShifts(ev.shifts) && k < |ev.payroll| && i < |PeriodShifts(ev.shifts, ev.payroll[k])|
    requires forall m :: k < m < |ev.payroll| ==> !InPeriod(ev.payroll[m], PeriodShifts(ev.shifts, ev.payroll[k])[i])
    requires SumSeq(AllocationShares(ev, PeriodShifts(ev.shifts, ev.payroll[k]))) > 0
    ensures
      var shifts := PeriodShifts(ev.shifts, ev.payroll[k]);
      var shares := AllocationShares(ev, shifts);
      var exact := Quota(ev.payroll[k].reported, SumSeq(shares) as real)(shares[i] as real);
      exact - 1.0 < PayrollShare(ev, |ev.payroll|, shifts[i]) as real < exact + 1.0
  {
    SliceOfTheReport(ev, k, i);
    SliceNearPart(ev, ev.payroll[k], i);
  }

  // ----- the maps, as the rebuild's loops fill them

  function ShiftsIn(groups: map<(Id, int), seq<WorkedShift>>, key: (Id, int)): seq<WorkedShift> {
    if key in groups then groups[key] else []
  }

  lemma DayShiftsStep(shifts: seq<WorkedShift>, n: nat, worker: Id, day: int)
    requires n < |shifts|
    ensures DayShifts(shifts[..n + 1], worker, day) ==
            DayShifts(shifts[..n], worker, day) + if shifts[n].worker == Some(worker) && shifts[n].day == day then [shifts[n]] else []
  {
    assert shifts[..n + 1][..n] == shifts[..n];
  }

  method GroupByWorkerDay(shifts: seq<WorkedShift>) returns (groups: map<(Id, int), seq<WorkedShift>>)
    ensures forall w, d :: ShiftsIn(groups, (w, d)) == DayShifts(shifts, w, d)
    ensures forall key :: key in groups ==> groups[key] != []
  {
    groups := map[];
    for n := 0 to |shifts|
      invariant forall w, d :: ShiftsIn(groups, (w, d)) == DayShifts(shifts[..n], w, d)
      invariant forall key :: key in groups ==> groups[key] != []
    {
      forall w: Id, d: int ensures DayShifts(shifts[..n + 1], w, d) ==
        DayShifts(shifts[..n], w, d) + if shifts[n].worker == Some(w) && shifts[n].day == d then [shifts[n]] else []
      {
        DayShiftsStep(shifts, n, w, d);
      }
      var shift := shifts[n];
      if shift.worker.None? { continue; }
      var key := (shift.worker.value, shift.day);
      ghost var before := groups;
      groups := groups[key := ShiftsIn(groups, key) + [shift]];
      assert forall k :: ShiftsIn(groups, k) == ShiftsIn(before, k) + if k == key then [shift] else [];
    }
    assert shifts[..|shifts|] == shifts;
  }

  /** Slices handed out along some of all shifts replace what these shifts had before. */
  ghost predicate Written(all: seq<WorkedShift>, shifts: seq<WorkedShift>, slices: seq<int>, m: map<Id, int>, m': map<Id, int>)
    requires |slices| == |shifts|
  {
    forall s :: s in all ==> OrZero(m', s.id) == if s in shifts then SliceAt(shifts, slices, s.id) else OrZero(m, s.id)
  }

  /** `shifts.forEach((shift, index) => m.set(shift.id, slices[index]))` */
  method SetSlices(m: map<Id, int>, shifts: seq<WorkedShift>, slices: seq<int>, ghost all: seq<WorkedShift>)
    returns (m': map<Id, int>)
    requires |slices| == |shifts| && DistinctShifts(shifts) && DistinctShifts(all)
    requires forall s :: s in shifts ==> s in all
    ensures Written(all, shifts, slices, m, m')
  {
    m' := m;
    for i := 0 to |shifts|
      invariant forall j :: 0 <= j < i ==> OrZero(m', shifts[j].id) == SliceAt(shifts, slices, shifts[j].id)
      invariant forall id :: (forall s :: s in shifts ==> s.id != id) ==> OrZero(m', id) == OrZero(m, id)
    {
      SliceAtPlace(shifts, slices, i);
      assert shifts[i] in shifts;
      m' := m'[shifts[i].id := slices[i]];
    }
    forall s | s in all && s !in shifts ensures OrZero(m', s.id) == OrZero(m, s.id) {
      forall x | x in shifts ensures x.id != s.id {
        if x.id == s.id { SameIdSameShift(all, x, s); }
      }
    }
  }

  lemma SameIdSameShift(shifts: seq<WorkedShift>, a: WorkedShift, b: WorkedShift)
    requires DistinctShifts(shifts) && a in shifts && b in shifts && a.id == b.id
    ensures a == b
  {
  }

  /** The shares are in the map, except those of the worker-days still to do. */
  ghost predicate SharedExcept(shifts: seq<WorkedShift>, share: WorkedShift -> int, todo: set<(Id, int)>, m: map<Id, int>) {
    forall s :: s in shifts ==> OrZero(m, s.id) == if s.worker.Some? && (s.worker.value, s.day) !in todo then share(s) else 0
  }

  lemma DayWritten(
    all: seq<WorkedShift>, share: WorkedShift -> int, key: (Id, int), todo: set<(Id, int)>, slices: seq<int>, m: map<Id, int>, m': map<Id, int>)
    requires SharedExcept(all, share, todo, m) && |slices| == |DayShifts(all, key.0, key.1)|
    requires forall s :: s in DayShifts(all, key.0, key.1) ==> share(s) == SliceAt(DayShifts(all, key.0, key.1), slices, s.id)
    requires Written(all, DayShifts(all, key.0, key.1), slices, m, m')
    ensures SharedExcept(all, share, todo - {key}, m')
  {
  }

  function AllocationShareOf(ev: Evidence): WorkedShift -> int {
    (s: WorkedShift) => AllocationShare(ev, s)
  }

  function PaidShareOf(ev: Evidence): WorkedShift -> int {
    (s: WorkedShift) => PaidShare(ev, s)
  }

  method DayShares(ev: Evidence) returns (shares: map<Id, int>, paid: map<Id, int>)
    requires DistinctShifts(ev.shifts)
    ensures forall s :: s in ev.shifts ==>
      OrZero(shares, s.id) == AllocationShare(ev, s) && OrZero(paid, s.id) == PaidShare(ev, s)
  {
    var groups := GroupByWorkerDay(ev.shifts);
    shares, paid := map[], map[];
    var todo := groups.Keys;
    forall s | s in ev.shifts && s.worker.Some? ensures (s.worker.value, s.day) in groups {
      assert s in DayShifts(ev.shifts, s.worker.value, s.day);
    }
    while todo != {}
      invariant todo <= groups.Keys
      invariant SharedExcept(ev.shifts, AllocationShareOf(ev), todo, shares)
      invariant SharedExcept(ev.shifts, PaidShareOf(ev), todo, paid)
    {
      var key :| key in todo;
      shares, paid := SetDay(ev, key, groups[key], todo, shares, paid);
      todo := todo - {key};
    }
  }

  /** One worker-day of the loop. */
  method SetDay(ev: Evidence, key: (Id, int), shifts: seq<WorkedShift>, ghost todo: set<(Id, int)>, shares: map<Id, int>, paid: map<Id, int>)
    returns (shares': map<Id, int>, paid': map<Id, int>)
    requires DistinctShifts(ev.shifts) && shifts == DayShifts(ev.shifts, key.0, key.1) && shifts != []
    requires SharedExcept(ev.shifts, AllocationShareOf(ev), todo, shares)
    requires SharedExcept(ev.shifts, PaidShareOf(ev), todo, paid)
    ensures SharedExcept(ev.shifts, AllocationShareOf(ev), todo - {key}, shares')
    ensures SharedExcept(ev.shifts, PaidShareOf(ev), todo - {key}, paid')
  {
    var first := shifts[0];
    assert first in shifts;
    var netSlices := SplitProportionally(NetFor(ev, first.worker.value, first.day), AsReals(Minutes(shifts)));
    var paidSlices := SplitProportionally(PaidFor(ev, first.worker.value, first.day), AsReals(Minutes(shifts)));
    WhereKeepsDistinct((s: WorkedShift) => s.worker == Some(key.0) && s.day == key.1, ev.shifts);
    shares' := SetSlices(shares, shifts, netSlices, ev.shifts);
    DayWritten(ev.shifts, AllocationShareOf(ev), key, todo, netSlices, shares, shares');
    paid' := SetSlices(paid, shifts, paidSlices, ev.shifts);
    DayWritten(ev.shifts, PaidShareOf(ev), key, todo, paidSlices, paid, paid');
  }

  method RecordSlices(ev: Evidence, record: PayrollRecord, shares: map<Id, int>) returns (slices: seq<int>)
    requires forall s :: s in ev.shifts ==> OrZero(shares, s.id) == AllocationShare(ev, s)
    ensures slices == PayrollSlices(ev, record)
  {
    var period := PeriodShifts(ev.shifts, record);
    var weights := seq(|period|, i requires 0 <= i < |period| => OrZero(shares, period[i].id));
    forall i | 0 <= i < |period| ensures weights[i] == AllocationShares(ev, period)[i] {
      assert period[i] in period;
    }
    assert weights == AllocationShares(ev, period);
    slices := SplitProportionally(record.reported, AsReals(weights));
  }

  /** The map agrees with the first n payroll records. */
  ghost predicate ReportsUpTo(ev: Evidence, n: nat, byShift: map<Id, int>)
    requires n <= |ev.payroll|
  {
    forall s :: s in ev.shifts ==> OrZero(byShift, s.id) == PayrollShare(ev, n, s)
  }

  lemma PayrollShareStep(ev: Evidence, n: nat, s: WorkedShift)
    requires n < |ev.payroll| && s in ev.shifts
    ensures
      var period := PeriodShifts(ev.shifts, ev.payroll[n]);
      PayrollShare(ev, n + 1, s) ==
        if s in period then SliceAt(period, PayrollSlices(ev, ev.payroll[n]), s.id) else PayrollShare(ev, n, s)
  {
  }

  lemma RecordReported(ev: Evidence, n: nat, before: map<Id, int>, after: map<Id, int>, slices: seq<int>)
    requires n < |ev.payroll| && ReportsUpTo(ev, n, before) && slices == PayrollSlices(ev, ev.payroll[n])
    requires Written(ev.shifts, PeriodShifts(ev.shifts, ev.payroll[n]), slices, before, after)
    ensures ReportsUpTo(ev, n + 1, after)
  {
    forall s | s in ev.shifts ensures OrZero(after, s.id) == PayrollShare(ev, n + 1, s) {
      PayrollShareStep(ev, n, s);
    }
  }

  method PayrollShares(ev: Evidence, shares: map<Id, int>) returns (byShift: map<Id, int>)
    requires DistinctShifts(ev.shifts)
    requires forall s :: s in ev.shifts ==> OrZero(shares, s.id) == AllocationShare(ev, s)
    ensures ReportsUpTo(ev, |ev.payroll|, byShift)
  {
    byShift := map[];
    for n := 0 to |ev.payroll|
      invariant ReportsUpTo(ev, n, byShift)
    {
      ghost var before := byShift;
      var slices := RecordSlices(ev, ev.payroll[n], shares);
      WhereKeepsDistinct((s: WorkedShift) => InPeriod(ev.payroll[n], s), ev.shifts);
      byShift := SetSlices(byShift, PeriodShifts(ev.shifts, ev.payroll[n]), slices, ev.shifts);
      RecordReported(ev, n, before, byShift, slices);
    }
  }
}

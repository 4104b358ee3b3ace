/**
 * One cent, and shifts of 31, 29 and 40 minutes, of which the second is held and turns out to
 * be the first worker's: mapped after the calculation the cent is another's than mapped before.
 */
module MappingWitness {
  import opened Wrappers
  import opened Sums
  import opened AllocationEngine
  import opened MappingTiming
  import opened MappingNeutral
  import opened ProtocolWitness

  const CENT := Tip(CardTip, 1, Completed, NoRefund)

  function Worked(worker: Option<Id>, minutes: int): Shift {
    Shift(worker, 1, 1, 0, minutes, ShiftCompleted)
  }

  const SHIFTS := [Worked(Some(1), 31), Worked(None, 29), Worked(Some(2), 40)]
  const MAPPED := [Worked(Some(1), 31), Worked(Some(1), 29), Worked(Some(2), 40)]
  const LATE := Allocation(1, 100.0, APART, [Issue(UnmappedWorker, false)])
  const EARLY := Allocation(1, 100.0, MERGED, [])

  lemma PoolOfACent()
    ensures Pool(POLICY, [CENT]) == 1
    ensures Flat((t: Tip) => TipIssues(POLICY, t), [CENT]) == []
  {
    TotalAppend((t: Tip) => TipValue(POLICY, t), (t: Tip) => 0.0, [], CENT);
    assert [] + [CENT] == [CENT] && [CENT][..0] == [];
  }

  lemma ThreeScores(a: Shift, b: Shift, c: Shift)
    ensures Scores(POLICY, [a, b, c]) == AddScore(POLICY, AddScore(POLICY, AddScore(POLICY, map[], a), b), c)
  {
    assert Scores(POLICY, []) == map[];
    ScoresStep(POLICY, [], a);
    ScoresStep(POLICY, [a], b);
    ScoresStep(POLICY, [a, b], c);
    assert [] + [a] == [a] && [a] + [b] == [a, b] && [a, b] + [c] == [a, b, c];
  }

  lemma LateScores()
    ensures Scores(POLICY, SHIFTS) == ScoresApart()
  {
    ThreeScores(SHIFTS[0], SHIFTS[1], SHIFTS[2]);
  }

  lemma MapsToMapped()
    ensures MapShifts(1, 1, 1, SHIFTS) == MAPPED
  {
    assert SHIFTS[1..] == [SHIFTS[1], SHIFTS[2]] && SHIFTS[1..][1..] == [SHIFTS[2]] && SHIFTS[1..][1..][1..] == [];
  }

  lemma ThreeIssues(a: Shift, b: Shift, c: Shift)
    ensures Flat((s: Shift) => ShiftIssues(POLICY, s), [a, b, c]) == ShiftIssues(POLICY, a) + ShiftIssues(POLICY, b) + ShiftIssues(POLICY, c)
  {
    var f := (s: Shift) => ShiftIssues(POLICY, s);
    assert [a, b, c][..2] == [a, b] && [a, b][..1] == [a] && [a][..0] == [];
    assert Flat(f, [a]) == [] + f(a) && Flat(f, [a, b]) == Flat(f, [a]) + f(b);
  }

  lemma LateIssues()
    ensures Flat((s: Shift) => ShiftIssues(POLICY, s), SHIFTS) == LATE.issues
  {
    ThreeIssues(SHIFTS[0], SHIFTS[1], SHIFTS[2]);
  }

  lemma AllocatesFrom(tips: seq<Tip>, shifts: seq<Shift>, scores: map<Key, real>, a: Allocation)
    requires Pool(POLICY, tips) == a.pool && Flat((t: Tip) => TipIssues(POLICY, t), tips) == []
    requires Scores(POLICY, shifts) == scores && SumMapReal(scores) == a.total && a.total > 0.0 && a.pool > 0
    requires SplitsPool(a.pool, scores, a.shares)
    requires Flat((s: Shift) => ShiftIssues(POLICY, s), shifts) == a.issues
    ensures Allocates(POLICY, tips, shifts, a)
  {
  }

  lemma LateAllocates()
    ensures Allocates(POLICY, [CENT], SHIFTS, LATE)
  {
    PoolOfACent();
    LateScores();
    TotalBefore();
    ApartSplits();
    LateIssues();
    AllocatesFrom([CENT], SHIFTS, ScoresApart(), LATE);
  }

  lemma EarlyAllocates()
    ensures Allocates(POLICY, [CENT], MAPPED, EARLY)
  {
    PoolOfACent();
    MapsToMapped();
    LateScores();
    MappingMovesTheScore(POLICY, 1, 1, 1, SHIFTS);
    TotalBefore();
    MovedKeepsTotal(ScoresApart(), HELD, WORKED);
    MergedSplits();
    ThreeIssues(MAPPED[0], MAPPED[1], MAPPED[2]);
  }

  /** Two runs of the engine, no two remainders tied, and the cent changes hands. */
  lemma MappingCanMoveACent()
    ensures LateAndEarly(POLICY, [CENT], SHIFTS, 1, 1, 1, LATE, EARLY)
    ensures Scores(POLICY, SHIFTS) == ScoresApart() && SumMapReal(ScoresApart()) > 0.0 && NoTies(QuotaMap(1, ScoresApart()))
    ensures AmountFor(LATE.shares, WorkerKey(2)) == 1 && AmountFor(EARLY.shares, WorkerKey(2)) == 0
  {
    LateAllocates();
    EarlyAllocates();
    MapsToMapped();
    LateScores();
    MergingCanMoveACent();
  }
}

/**
 * The allocation engine: which tips make the pool, what every recipient scored, and the
 * split of the pool, exact to the cent. Scores are exact fractions, not doubles; a
 * recipient key stands for the engine's text key, its order for localeCompare.
 */
module AllocationEngine {
  import opened Wrappers
  import opened Sums
  import opened Apportionment

  datatype TipType = CashTip | CardTip | QrTip | AutomaticGratuity | ServiceCharge
  datatype PaymentStatus = Completed | Pending | Canceled
  datatype RefundStatus = NoRefund | Partial | Full
  datatype ShiftStatus = InProgress | ShiftCompleted | ShiftApproved | Voided

  datatype Tip = Tip(tipType: TipType, amount: int, payment: PaymentStatus, refund: RefundStatus)
  datatype Shift = Shift(worker: Option<Id>, provider: Id, external: Id, role: Id, minutes: int, status: ShiftStatus)
  datatype Policy = Policy(weights: map<Id, real>, excluded: set<Id>, inclusion: map<TipType, bool>)

  datatype Key = HeldKey(provider: Id, external: Id) | WorkerKey(worker: Id)

  datatype IssueCode =
    | UnmappedWorker | NonPositiveMinutes | UnknownRole | RefundedExcluded | CanceledExcluded | EmptyPool | NoEligibleShifts
  datatype Issue = Issue(code: IssueCode, blocking: bool)

  datatype Share = Share(key: Key, score: real, amount: int)
  datatype Allocation = Allocation(pool: int, total: real, shares: seq<Share>, issues: seq<Issue>)

  /** The policy endpoint accepts only non-negative weights. */
  ghost predicate ValidPolicy(p: Policy) {
    forall role :: role in p.weights ==> 0.0 <= p.weights[role]
  }

  predicate Less(a: Key, b: Key) {
    match (a, b)
    case (HeldKey(p, e), HeldKey(p', e')) => p < p' || (p == p' && e < e')
    case (HeldKey(_, _), WorkerKey(_)) => true
    case (WorkerKey(_), HeldKey(_, _)) => false
    case (WorkerKey(w), WorkerKey(w')) => w < w'
  }

  // ----- what the inputs mean, one piece of evidence at a time

  predicate Included(p: Policy, t: Tip) {
    t.tipType in p.inclusion && p.inclusion[t.tipType]
  }

  function TipValue(p: Policy, t: Tip): int {
    if Included(p, t) && t.refund != Full && t.payment != Canceled then t.amount else 0
  }

  function Pool(p: Policy, tips: seq<Tip>): int {
    Total((t: Tip) => TipValue(p, t), tips)
  }

  predicate Eligible(p: Policy, s: Shift) {
    (s.status == ShiftCompleted || s.status == ShiftApproved) && s.role !in p.excluded
  }

  predicate Scored(p: Policy, s: Shift) {
    Eligible(p, s) && 0 < s.minutes && s.role in p.weights
  }

  function KeyOf(s: Shift): Key {
    if s.worker.Some? then WorkerKey(s.worker.value) else HeldKey(s.provider, s.external)
  }

  function ShiftScore(p: Policy, key: Key, s: Shift): real {
    if Scored(p, s) && KeyOf(s) == key then s.minutes as real * p.weights[s.role] else 0.0
  }

  function ScoreOf(p: Policy, shifts: seq<Shift>, key: Key): real {
    TotalReal((s: Shift) => ShiftScore(p, key, s), shifts)
  }

  ghost function Scores(p: Policy, shifts: seq<Shift>): map<Key, real> {
    map s | s in shifts && Scored(p, s) :: KeyOf(s) := ScoreOf(p, shifts, KeyOf(s))
  }

  function TipIssues(p: Policy, t: Tip): seq<Issue> {
    if !Included(p, t) then []
    else if t.refund == Full then [Issue(RefundedExcluded, false)]
    else if t.payment == Canceled then [Issue(CanceledExcluded, false)]
    else []
  }

  function ShiftIssues(p: Policy, s: Shift): seq<Issue> {
    if !Eligible(p, s) then []
    else
      (if s.worker.None? then [Issue(UnmappedWorker, false)] else []) +
      (if s.minutes <= 0 then [Issue(NonPositiveMinutes, true)]
       else if s.role !in p.weights then [Issue(UnknownRole, true)] else [])
  }

  function ClosingIssues(pool: int, total: real): seq<Issue> {
    (if pool == 0 then [Issue(EmptyPool, false)] else []) +
    (if total == 0.0 then [Issue(NoEligibleShifts, pool > 0)] else [])
  }

  function Flat<T>(f: T -> seq<Issue>, s: seq<T>): seq<Issue> {
    if s == [] then [] else Flat(f, s[..|s| - 1]) + f(s[|s| - 1])
  }

  // ----- what a correct allocation is

  function KeysOf(shares: seq<Share>): seq<Key> {
    seq(|shares|, i requires 0 <= i < |shares| => shares[i].key)
  }

  function ScoresOf(shares: seq<Share>): seq<real> {
    seq(|shares|, i requires 0 <= i < |shares| => shares[i].score)
  }

  function AmountsOf(shares: seq<Share>): seq<int> {
    seq(|shares|, i requires 0 <= i < |shares| => shares[i].amount)
  }

  ghost predicate Sorted(keys: seq<Key>) {
    forall i, j :: 0 <= i < j < |keys| ==> Less(keys[i], keys[j])
  }

  /** One share per scored recipient in key order, splitting the pool by largest remainder. */
  ghost predicate SplitsPool(pool: int, scores: map<Key, real>, shares: seq<Share>) {
    && SumMapReal(scores) > 0.0
    && Sorted(KeysOf(shares))
    && (forall k :: k in scores <==> k in KeysOf(shares))
    && (forall i :: 0 <= i < |shares| ==> shares[i].key in scores && shares[i].score == scores[shares[i].key])
    && Apportions(Proportional(pool, ScoresOf(shares), SumMapReal(scores)), Positions(|shares|), pool, AmountsOf(shares))
  }

  ghost predicate Allocates(p: Policy, tips: seq<Tip>, shifts: seq<Shift>, a: Allocation) {
    && a.pool == Pool(p, tips)
    && a.total == SumMapReal(Scores(p, shifts))
    && (if a.total == 0.0 then a.shares == [] else SplitsPool(a.pool, Scores(p, shifts), a.shares))
    && a.issues == Flat((t: Tip) => TipIssues(p, t), tips) + Flat((s: Shift) => ShiftIssues(p, s), shifts)
                   + ClosingIssues(a.pool, a.total)
  }

  predicate HasBlockingIssue(issues: seq<Issue>) {
    exists i :: 0 <= i < |issues| && issues[i].blocking
  }

  // ----- sorting keys, as the library sort does

  function InsertKey(keys: seq<Key>, k: Key): (r: seq<Key>)
    requires Sorted(keys) && k !in keys
    ensures Sorted(r) && |r| == |keys| + 1
    ensures forall x :: x in r <==> x == k || x in keys
  {
    if keys == [] then [k]
    else if Less(k, keys[0]) then [k] + keys
    else
      var rest := InsertKey(keys[1..], k);
      assert forall j :: 0 <= j < |rest| ==> rest[j] in rest;
      [keys[0]] + rest
  }

  function SortKeys(keys: seq<Key>): (r: seq<Key>)
    requires forall i, j :: 0 <= i < j < |keys| ==> keys[i] != keys[j]
    ensures Sorted(r) && |r| == |keys|
    ensures forall x :: x in r <==> x in keys
  {
    if keys == [] then [] else
      var rest := SortKeys(keys[1..]);
      assert keys[0] !in keys[1..];
      InsertKey(rest, keys[0])
  }

  lemma SortedTail(a: seq<Key>, k: Key)
    requires Sorted(a) && a != []
    ensures k in a[1..] <==> k in a && k != a[0]
  {
    assert a == [a[0]] + a[1..];
    assert a[0] !in a[1..];
  }

  lemma {:induction false} SortedListIsUnique(a: seq<Key>, b: seq<Key>)
    requires Sorted(a) && Sorted(b)
    requires forall k :: k in a <==> k in b
    ensures a == b
  {
    assert a == [] || a[0] in a;
    assert b == [] || b[0] in b;
    if a != [] && b != [] {
      assert a[0] in b && b[0] in a;
      assert a[0] == b[0];
      forall k ensures k in a[1..] <==> k in b[1..] {
        SortedTail(a, k);
        SortedTail(b, k);
      }
      SortedListIsUnique(a[1..], b[1..]);
    }
  }

  // ----- lemmas for the loops

  function AddScore(p: Policy, scores: map<Key, real>, s: Shift): map<Key, real> {
    if Scored(p, s) then
      var previous := if KeyOf(s) in scores then scores[KeyOf(s)] else 0.0;
      scores[KeyOf(s) := previous + s.minutes as real * p.weights[s.role]]
    else scores
  }

  lemma ScoreOfStep(p: Policy, shifts: seq<Shift>, s: Shift, k: Key)
    ensures ScoreOf(p, shifts + [s], k) == ScoreOf(p, shifts, k) + ShiftScore(p, k, s)
    ensures k !in Scores(p, shifts) ==> ScoreOf(p, shifts, k) == 0.0
    ensures k in Scores(p, shifts + [s]) <==> k in Scores(p, shifts) || (Scored(p, s) && k == KeyOf(s))
  {
    TotalAppend((x: Shift) => 0, (x: Shift) => ShiftScore(p, k, x), shifts, s);
    if k in Scores(p, shifts) {
      var x :| x in shifts && Scored(p, x) && KeyOf(x) == k;
      assert x in shifts + [s];
    } else {
      NothingScored(p, shifts, k);
    }
    assert s in shifts + [s];
  }

  lemma ScoresStep(p: Policy, shifts: seq<Shift>, s: Shift)
    ensures Scores(p, shifts + [s]) == AddScore(p, Scores(p, shifts), s)
  {
    var after, expected := Scores(p, shifts + [s]), AddScore(p, Scores(p, shifts), s);
    forall k
      ensures k in after <==> k in expected
      ensures k in after ==> after[k] == expected[k]
    {
      ScoreOfStep(p, shifts, s, k);
    }
  }

  lemma {:induction false} NothingScored(p: Policy, shifts: seq<Shift>, k: Key)
    requires forall s :: s in shifts && Scored(p, s) ==> KeyOf(s) != k
    ensures ScoreOf(p, shifts, k) == 0.0
  {
    if shifts != [] {
      assert shifts[0] in shifts;
      NothingScored(p, shifts[1..], k);
    }
  }

  lemma {:induction false} ScoreNotNegative(p: Policy, shifts: seq<Shift>, k: Key)
    requires ValidPolicy(p)
    ensures 0.0 <= ScoreOf(p, shifts, k)
  {
    if shifts != [] {
      ScoreNotNegative(p, shifts[1..], k);
    }
  }

  lemma {:induction false} SumNotNegative(m: map<Key, real>)
    requires forall k :: k in m ==> 0.0 <= m[k]
    ensures 0.0 <= SumMapReal(m)
    decreases |m|
  {
    if m != map[] {
      SumNotNegative(m - {Pick(m)});
    }
  }

  lemma TotalNotNegative(p: Policy, shifts: seq<Shift>)
    requires ValidPolicy(p)
    ensures 0.0 <= SumMapReal(Scores(p, shifts))
  {
    forall k | k in Scores(p, shifts) ensures 0.0 <= Scores(p, shifts)[k] {
      ScoreNotNegative(p, shifts, k);
    }
    SumNotNegative(Scores(p, shifts));
  }

  lemma FlatStep<T>(f: T -> seq<Issue>, s: seq<T>, i: nat)
    requires i < |s|
    ensures Flat(f, s[..i + 1]) == Flat(f, s[..i]) + f(s[i])
  {
    assert s[..i + 1][..i] == s[..i];
  }

  // ----- the engine, as its loops run

  method PoolTips(p: Policy, tips: seq<Tip>) returns (pool: int, issues: seq<Issue>)
    ensures pool == Pool(p, tips)
    ensures issues == Flat((t: Tip) => TipIssues(p, t), tips)
  {
    pool, issues := 0, [];
    ghost var value := (t: Tip) => TipValue(p, t);
    ghost var issuesOf := (t: Tip) => TipIssues(p, t);
    for i := 0 to |tips|
      invariant pool == Total(value, tips[..i])
      invariant issues == Flat(issuesOf, tips[..i])
    {
      var tip := tips[i];
      FlatStep(issuesOf, tips, i);
      TotalAppend(value, (t: Tip) => 0.0, tips[..i], tip);
      assert tips[..i + 1] == tips[..i] + [tip];
      if !(tip.tipType in p.inclusion && p.inclusion[tip.tipType]) { continue; }
      if tip.refund == Full {
        issues := issues + [Issue(RefundedExcluded, false)];
        continue;
      }
      if tip.payment == Canceled {
        issues := issues + [Issue(CanceledExcluded, false)];
        continue;
      }
      pool := pool + tip.amount;
    }
    assert tips[..|tips|] == tips;
  }

  ghost predicate Lists(scores: map<Key, real>, keys: seq<Key>) {
    && (forall i, j :: 0 <= i < j < |keys| ==> keys[i] != keys[j])
    && (forall i :: 0 <= i < |keys| ==> keys[i] in scores)
    && (forall k :: k in scores ==> k in keys)
  }

  /** Map.set appends a key it has not seen and keeps the place of one it has. */
  method NoteKey(scores: map<Key, real>, keys: seq<Key>, key: Key) returns (keys': seq<Key>)
    requires Lists(scores, keys)
    ensures Lists(scores[key := 0.0], keys')
  {
    keys' := if key in scores then keys else keys + [key];
  }

  /** One turn of the shift loop. */
  method ScoreShift(p: Policy, shift: Shift, scores: map<Key, real>, keys: seq<Key>)
    returns (scores': map<Key, real>, keys': seq<Key>, issues: seq<Issue>)
    requires Lists(scores, keys)
    ensures Lists(scores', keys')
    ensures issues == ShiftIssues(p, shift)
    ensures scores' == AddScore(p, scores, shift)
  {
    scores', keys', issues := scores, keys, [];
    if shift.status != ShiftCompleted && shift.status != ShiftApproved { return; }
    if shift.role in p.excluded { return; }
    if shift.worker.None? {
      issues := issues + [Issue(UnmappedWorker, false)];
    }
    if shift.minutes <= 0 {
      issues := issues + [Issue(NonPositiveMinutes, true)];
      return;
    }
    if shift.role !in p.weights {
      issues := issues + [Issue(UnknownRole, true)];
      return;
    }
    var score := shift.minutes as real * p.weights[shift.role];
    var key := if shift.worker.Some? then WorkerKey(shift.worker.value) else HeldKey(shift.provider, shift.external);
    keys' := NoteKey(scores, keys, key);
    var previous := if key in scores then scores[key] else 0.0;
    scores' := scores[key := previous + score];
    assert scores'.Keys == scores[key := 0.0].Keys;
    ghost var expected := AddScore(p, scores, shift);
    assert expected.Keys == scores'.Keys && expected[key] == scores'[key];
    assert forall k :: k in scores && k != key ==> expected[k] == scores[k];
  }

  /** The score map and, as a JavaScript Map keeps them, its keys in order of first insertion. */
  method ScoreShifts(p: Policy, shifts: seq<Shift>) returns (scores: map<Key, real>, keys: seq<Key>, issues: seq<Issue>)
    ensures scores == Scores(p, shifts)
    ensures Lists(scores, keys)
    ensures issues == Flat((s: Shift) => ShiftIssues(p, s), shifts)
  {
    scores, keys, issues := map[], [], [];
    ghost var issuesOf := (s: Shift) => ShiftIssues(p, s);
    for n := 0 to |shifts|
      invariant scores == Scores(p, shifts[..n])
      invariant Lists(scores, keys)
      invariant issues == Flat(issuesOf, shifts[..n])
    {
      FlatStep(issuesOf, shifts, n);
      ScoresStep(p, shifts[..n], shifts[n]);
      assert shifts[..n + 1] == shifts[..n] + [shifts[n]];
      var found;
      scores, keys, found := ScoreShift(p, shifts[n], scores, keys);
      issues := issues + found;
    }
    assert shifts[..|shifts|] == shifts;
  }

  /** Floors first, then one left-over cent each down the ranking. */
  method LargestRemainderSplit(quotas: seq<real>, pool: int) returns (shares: seq<int>)
    requires quotas != [] && SumReal(quotas) == pool as real
    ensures Apportions(quotas, Positions(|quotas|), pool, shares)
  {
    shares := Floors(quotas);
    FloorSum(quotas, shares);
    var leftover := pool - SumSeq(shares);
    var byRemainder := RankByRemainder(quotas, |quotas|);
    var n := 0;
    while n < |byRemainder|
      invariant 0 <= n <= |byRemainder| && 0 <= leftover
      invariant n + leftover == pool - SumSeq(Floors(quotas)) < |quotas|
      invariant HandedOut(quotas, byRemainder, n, shares)
    {
      if leftover <= 0 { break; }
      HandOutOne(quotas, byRemainder, n, shares);
      shares := shares[byRemainder[n] := shares[byRemainder[n]] + 1];
      leftover := leftover - 1;
      n := n + 1;
    }
    HandedOutApportions(quotas, byRemainder, pool, shares);
  }

  function Values(scores: map<Key, real>, keys: seq<Key>): (r: seq<real>)
    requires forall k :: k in keys ==> k in scores
    ensures |r| == |keys| && forall i :: 0 <= i < |keys| ==> r[i] == scores[keys[i]]
  {
    seq(|keys|, i requires 0 <= i < |keys| => assert keys[i] in keys; scores[keys[i]])
  }

  lemma TogetherTheySplit(pool: int, scores: map<Key, real>, keys: seq<Key>, values: seq<real>, amounts: seq<int>, shares: seq<Share>)
    requires SumMapReal(scores) > 0.0 && Sorted(keys) && forall k :: k in scores <==> k in keys
    requires |keys| == |values| == |amounts| == |shares|
    requires forall i :: 0 <= i < |keys| ==> values[i] == scores[keys[i]]
    requires Apportions(Proportional(pool, values, SumMapReal(scores)), Positions(|keys|), pool, amounts)
    requires forall i :: 0 <= i < |keys| ==> shares[i] == Share(keys[i], values[i], amounts[i])
    ensures SplitsPool(pool, scores, shares)
  {
    assert KeysOf(shares) == keys && ScoresOf(shares) == values && AmountsOf(shares) == amounts;
    assert forall i :: 0 <= i < |keys| ==> keys[i] in keys;
  }

  /** The engine. Its closing check that the shares add up to the pool never throws. */
  method ComputeAllocationBatch(p: Policy, tips: seq<Tip>, shifts: seq<Shift>) returns (r: Result<Allocation, string>)
    requires ValidPolicy(p)
    ensures r.Ok? && Allocates(p, tips, shifts, r.value)
  {
    var pool, tipIssues := PoolTips(p, tips);
    var scores, inserted, shiftIssues := ScoreShifts(p, shifts);
    var total := SumReal(Values(scores, inserted));
    SumOfEntries(inserted, Values(scores, inserted), scores);
    TotalNotNegative(p, shifts);
    var issues := tipIssues + shiftIssues + ClosingIssues(pool, total);
    if total == 0.0 {
      return Ok(Allocation(pool, total, [], issues));
    }
    var keys := SortKeys(inserted);
    var values := Values(scores, keys);
    assert forall i, j :: 0 <= i < j < |keys| ==> keys[i] != keys[j];
    SumOfEntries(keys, values, scores);
    assert keys == [] ==> SumReal(values) == 0.0;
    ProportionalSum(pool, values, total);
    var amounts := LargestRemainderSplit(Proportional(pool, values, total), pool);
    if SumSeq(amounts) != pool {
      return Err("Allocation invariant violated");
    }
    var shares := seq(|keys|, i requires 0 <= i < |keys| => Share(keys[i], values[i], amounts[i]));
    TogetherTheySplit(pool, scores, keys, values, amounts, shares);
    return Ok(Allocation(pool, total, shares, issues));
  }

  // ----- what the engine promises

  /** Exact to the cent, and no share a cent or more away from its exact quota. */
  lemma SplitIsExact(pool: int, scores: map<Key, real>, shares: seq<Share>, i: int)
    requires SplitsPool(pool, scores, shares) && 0 <= i < |shares|
    ensures SumSeq(AmountsOf(shares)) == pool
    ensures
      var quota := Proportional(pool, ScoresOf(shares), SumMapReal(scores))[i];
      quota - 1.0 < shares[i].amount as real < quota + 1.0
    ensures shares[i].score == 0.0 ==> shares[i].amount == 0
  {
    var total := SumMapReal(scores);
    var quotas := Proportional(pool, ScoresOf(shares), total);
    ShareNearQuota(pool, total, quotas, AmountsOf(shares), ScoresOf(shares), i);
  }

  /** A strictly larger score never gets a smaller share. */
  lemma SplitIsFair(pool: int, scores: map<Key, real>, shares: seq<Share>, i: int, j: int)
    requires SplitsPool(pool, scores, shares) && pool >= 0
    requires 0 <= i < |shares| && 0 <= j < |shares| && shares[i].score > shares[j].score
    ensures shares[i].amount >= shares[j].amount
  {
    var total := SumMapReal(scores);
    LargerScoreKeepsUp(pool, total, Proportional(pool, ScoresOf(shares), total), AmountsOf(shares), ScoresOf(shares), i, j);
  }

  lemma ShareNearQuota(pool: int, total: real, quotas: seq<real>, amounts: seq<int>, scores: seq<real>, i: int)
    requires total > 0.0 && quotas == Proportional(pool, scores, total) && 0 <= i < |scores|
    requires Apportions(quotas, Positions(|quotas|), pool, amounts)
    ensures quotas[i] - 1.0 < amounts[i] as real < quotas[i] + 1.0
    ensures scores[i] == 0.0 ==> amounts[i] == 0
    ensures pool >= 0 && scores[i] >= 0.0 ==> amounts[i] >= 0
  {
    FloorOrCeiling(quotas, Positions(|quotas|), pool, amounts, i);
    var scaled := pool as real * scores[i];
    if scores[i] == 0.0 {
      assert scaled == 0.0 && quotas[i] == 0.0;
      WholeQuotaIsExact(quotas, Positions(|quotas|), pool, amounts, i);
    } else if pool >= 0 && scores[i] >= 0.0 {
      assert scaled >= 0.0;
      assert quotas[i] == scaled / total >= 0.0;
    }
  }

  lemma NothingFromNothing(total: real, quotas: seq<real>, amounts: seq<int>, scores: seq<real>, i: int)
    requires total > 0.0 && quotas == Proportional(0, scores, total) && 0 <= i < |scores|
    requires Apportions(quotas, Positions(|quotas|), 0, amounts)
    ensures amounts[i] == 0
  {
    assert quotas[i] == 0.0;
    WholeQuotaIsExact(quotas, Positions(|quotas|), 0, amounts, i);
  }

  lemma LargerOverSame(x: real, y: real, total: real)
    requires x > y && total > 0.0
    ensures x / total > y / total
  {
  }

  lemma LargerTimesSame(x: real, y: real, factor: real)
    requires x > y && factor > 0.0
    ensures factor * x > factor * y
  {
  }

  lemma LargerQuota(pool: int, x: real, y: real, total: real)
    requires x > y && pool > 0 && total > 0.0
    ensures Quota(pool, total)(x) > Quota(pool, total)(y)
  {
    LargerTimesSame(x, y, pool as real);
    LargerOverSame(pool as real * x, pool as real * y, total);
  }

  lemma LargerScoreKeepsUp(pool: int, total: real, quotas: seq<real>, amounts: seq<int>, scores: seq<real>, i: int, j: int)
    requires pool >= 0 && total > 0.0 && quotas == Proportional(pool, scores, total)
    requires Apportions(quotas, Positions(|quotas|), pool, amounts)
    requires 0 <= i < |scores| && 0 <= j < |scores| && scores[i] > scores[j]
    ensures amounts[i] >= amounts[j]
  {
    if pool == 0 {
      NothingFromNothing(total, quotas, amounts, scores, i);
      NothingFromNothing(total, quotas, amounts, scores, j);
    } else {
      LargerQuota(pool, scores[i], scores[j], total);
      Monotone(quotas, Positions(|quotas|), pool, amounts, i, j);
    }
  }

  /** Shares of a non-negative pool are not negative. */
  lemma SharesNotNegative(p: Policy, tips: seq<Tip>, shifts: seq<Shift>, a: Allocation)
    requires ValidPolicy(p) && Allocates(p, tips, shifts, a) && a.pool >= 0
    ensures forall i :: 0 <= i < |a.shares| ==> 0 <= a.shares[i].amount
  {
    if a.total != 0.0 {
      var scores := ScoresOf(a.shares);
      TotalNotNegative(p, shifts);
      forall i | 0 <= i < |a.shares| ensures 0 <= AmountsOf(a.shares)[i] {
        ScoreNotNegative(p, shifts, a.shares[i].key);
        ShareNearQuota(a.pool, a.total, Proportional(a.pool, scores, a.total), AmountsOf(a.shares), scores, i);
      }
      assert forall i :: 0 <= i < |a.shares| ==> a.shares[i].amount == AmountsOf(a.shares)[i];
    }
  }

  /** Two readings of the same evidence, in any order, give the same pool, scores and allocation list. */
  lemma EvidenceOrderDoesNotMatter(
    p: Policy, tips: seq<Tip>, tips': seq<Tip>, shifts: seq<Shift>, shifts': seq<Shift>, a: Allocation, a': Allocation)
    requires multiset(tips) == multiset(tips') && multiset(shifts) == multiset(shifts')
    requires Allocates(p, tips, shifts, a) && Allocates(p, tips', shifts', a')
    ensures a.pool == a'.pool && a.total == a'.total && a.shares == a'.shares
  {
    TotalIgnoresOrder((t: Tip) => TipValue(p, t), (t: Tip) => 0.0, tips, tips');
    ScoresIgnoreOrder(p, shifts, shifts');
    if a.total != 0.0 {
      SplitIsUnique(a.pool, Scores(p, shifts), a.shares, a'.shares);
    }
  }

  lemma ScoresIgnoreOrder(p: Policy, shifts: seq<Shift>, shifts': seq<Shift>)
    requires multiset(shifts) == multiset(shifts')
    ensures Scores(p, shifts) == Scores(p, shifts')
  {
    assert forall s :: s in shifts <==> s in multiset(shifts);
    assert forall s :: s in shifts' <==> s in multiset(shifts');
    forall k: Key ensures ScoreOf(p, shifts, k) == ScoreOf(p, shifts', k) {
      TotalIgnoresOrder((x: Shift) => 0, (x: Shift) => ShiftScore(p, k, x), shifts, shifts');
    }
  }

  lemma SplitIsUnique(pool: int, scores: map<Key, real>, shares: seq<Share>, shares': seq<Share>)
    requires SplitsPool(pool, scores, shares) && SplitsPool(pool, scores, shares')
    ensures shares == shares'
  {
    var keys := KeysOf(shares);
    SortedListIsUnique(keys, KeysOf(shares'));
    assert |shares| == |keys| == |shares'|;
    forall i | 0 <= i < |shares| ensures shares[i].key == shares'[i].key && shares[i].score == shares'[i].score {
      assert keys[i] == KeysOf(shares')[i];
    }
    assert ScoresOf(shares) == ScoresOf(shares');
    Unique(Proportional(pool, ScoresOf(shares), SumMapReal(scores)), Positions(|shares|), pool, AmountsOf(shares), AmountsOf(shares'));
    forall i | 0 <= i < |shares| ensures shares[i] == shares'[i] {
      assert AmountsOf(shares)[i] == AmountsOf(shares')[i];
    }
  }

  /** An allocation without a blocking issue hands out its whole pool, unless the pool is negative and nobody scored. */
  lemma UnblockedAllocationIsExact(p: Policy, tips: seq<Tip>, shifts: seq<Shift>, a: Allocation)
    requires ValidPolicy(p) && Allocates(p, tips, shifts, a) && !HasBlockingIssue(a.issues)
    ensures SumSeq(AmountsOf(a.shares)) == a.pool <==> !(a.total == 0.0 && a.pool < 0)
  {
    var before := Flat((t: Tip) => TipIssues(p, t), tips) + Flat((s: Shift) => ShiftIssues(p, s), shifts);
    ClosingBlocks(before, a.pool, a.total);
    if a.total == 0.0 {
      assert AmountsOf(a.shares) == [];
    }
  }

  lemma ClosingBlocks(before: seq<Issue>, pool: int, total: real)
    ensures total == 0.0 && pool > 0 ==> HasBlockingIssue(before + ClosingIssues(pool, total))
  {
    if total == 0.0 && pool > 0 {
      assert (before + ClosingIssues(pool, total))[|before|].blocking;
    }
  }
}

/**
 * What an allocation says, read off the tips and shifts one role and one tip type at a time:
 * whose minutes at what weight make a score, which tips make the pool, and what blocks a batch.
 */
module EngineAnswers {
  import opened Wrappers
  import opened Sums
  import opened Apportionment
  import opened AllocationEngine

  // ----- minutes by role

  predicate IsOf(s: Shift, k: Key) {
    match k
    case WorkerKey(w) => s.worker == Some(w)
    case HeldKey(provider, external) => s.worker.None? && s.provider == provider && s.external == external
  }

  /** Done or approved, in a role that is not excluded, and some minutes long. */
  predicate CountsFor(p: Policy, s: Shift) {
    s.status in {ShiftCompleted, ShiftApproved} && s.role !in p.excluded && 1 <= s.minutes
  }

  function MinutesIn(p: Policy, shifts: seq<Shift>, k: Key, role: Id): int {
    if shifts == [] then 0
    else (if CountsFor(p, shifts[0]) && IsOf(shifts[0], k) && shifts[0].role == role then shifts[0].minutes else 0)
         + MinutesIn(p, shifts[1..], k, role)
  }

  function Times(factor: real, n: int): real {
    factor * n as real
  }

  lemma TimesTogether(weight: real, m: int, n: int)
    ensures Times(weight, m + n) == Times(weight, m) + Times(weight, n)
  {
    assert (m + n) as real == m as real + n as real;
  }

  function WeightedMinutes(p: Policy, shifts: seq<Shift>, k: Key): map<Id, real> {
    map role | role in p.weights :: Times(p.weights[role], MinutesIn(p, shifts, k, role))
  }

  ghost function WeightedTotal(p: Policy, shifts: seq<Shift>, k: Key): real {
    SumMapReal(WeightedMinutes(p, shifts, k))
  }

  lemma OneEntryMore(after: map<Id, real>, before: map<Id, real>, role: Id, more: real)
    requires after.Keys == before.Keys && role in after && after[role] == before[role] + more
    requires forall r :: r in after && r != role ==> after[r] == before[r]
    ensures SumMapReal(after) == SumMapReal(before) + more
  {
    SumRemoveReal(after, role);
    SumRemoveReal(before, role);
    assert after - {role} == before - {role};
  }

  /** Whether the shift counts for the recipient. */
  predicate Adds(p: Policy, s: Shift, k: Key) {
    CountsFor(p, s) && IsOf(s, k) && s.role in p.weights
  }

  lemma AddedInOneRole(p: Policy, shifts: seq<Shift>, k: Key)
    requires shifts != [] && Adds(p, shifts[0], k)
    ensures WeightedTotal(p, shifts, k) == WeightedTotal(p, shifts[1..], k) + Times(p.weights[shifts[0].role], shifts[0].minutes)
  {
    var s := shifts[0];
    TimesTogether(p.weights[s.role], s.minutes, MinutesIn(p, shifts[1..], k, s.role));
    OneEntryMore(WeightedMinutes(p, shifts, k), WeightedMinutes(p, shifts[1..], k), s.role, Times(p.weights[s.role], s.minutes));
  }

  lemma NothingAdded(p: Policy, shifts: seq<Shift>, k: Key)
    requires shifts != [] && !Adds(p, shifts[0], k)
    ensures WeightedTotal(p, shifts, k) == WeightedTotal(p, shifts[1..], k)
  {
    forall role | role in p.weights ensures MinutesIn(p, shifts, k, role) == MinutesIn(p, shifts[1..], k, role) {
    }
    assert WeightedMinutes(p, shifts, k) == WeightedMinutes(p, shifts[1..], k);
  }

  lemma ShiftScoreIsTimes(p: Policy, s: Shift, k: Key)
    ensures ShiftScore(p, k, s) == if Adds(p, s, k) then Times(p.weights[s.role], s.minutes) else 0.0
  {
    assert Adds(p, s, k) <==> Scored(p, s) && KeyOf(s) == k;
  }

  lemma ScoreOfFirst(p: Policy, shifts: seq<Shift>, k: Key)
    requires shifts != []
    ensures ScoreOf(p, shifts, k) == ShiftScore(p, k, shifts[0]) + ScoreOf(p, shifts[1..], k)
  {
  }

  lemma {:induction false} ScoreOfIsWeighted(p: Policy, shifts: seq<Shift>, k: Key)
    ensures ScoreOf(p, shifts, k) == WeightedTotal(p, shifts, k)
    decreases |shifts|
  {
    if shifts == [] {
      NobodyWorked(p, k);
    } else {
      ScoreOfIsWeighted(p, shifts[1..], k);
      ScoreOfFirst(p, shifts, k);
      ShiftScoreIsTimes(p, shifts[0], k);
      if Adds(p, shifts[0], k) { AddedInOneRole(p, shifts, k); } else { NothingAdded(p, shifts, k); }
    }
  }

  lemma NobodyWorked(p: Policy, k: Key)
    ensures WeightedTotal(p, [], k) == 0.0
  {
    forall role | role in p.weights ensures WeightedMinutes(p, [], k)[role] == 0.0 {
      assert MinutesIn(p, [], k, role) == 0;
    }
    NoMinutesNoTotal(WeightedMinutes(p, [], k));
  }

  lemma {:induction false} NoMinutesNoTotal(m: map<Id, real>)
    requires forall role :: role in m ==> m[role] == 0.0
    ensures SumMapReal(m) == 0.0
    decreases |m|
  {
    if m != map[] {
      NoMinutesNoTotal(m - {Pick(m)});
    }
  }

  /** Who has a score, and how much: over the roles, the role's weight times the minutes worked in it. */
  lemma ScoresAreWeightedMinutes(p: Policy, shifts: seq<Shift>, k: Key)
    ensures k in Scores(p, shifts) <==> exists s :: s in shifts && Adds(p, s, k)
    ensures k in Scores(p, shifts) ==> Scores(p, shifts)[k] == WeightedTotal(p, shifts, k)
  {
    ScoreOfIsWeighted(p, shifts, k);
    forall s ensures Adds(p, s, k) <==> Scored(p, s) && KeyOf(s) == k {
    }
  }

  /** `amount` is the `part`-th of `whole` of a pool, to within a cent. */
  predicate NearPart(pool: int, part: real, whole: real, amount: int) {
    Times(whole, amount - 1) < Times(part, pool) < Times(whole, amount + 1)
  }

  /** Every share is its recipient's weighted minutes' part of the pool, to within a cent. */
  lemma SharesFollowWeightedMinutes(p: Policy, tips: seq<Tip>, shifts: seq<Shift>, a: Allocation, i: int)
    requires Allocates(p, tips, shifts, a) && 0 <= i < |a.shares|
    ensures a.total == SumMapReal(Scores(p, shifts)) > 0.0 && a.shares[i].key in Scores(p, shifts)
    ensures a.shares[i].score == WeightedTotal(p, shifts, a.shares[i].key)
    ensures NearPart(a.pool, WeightedTotal(p, shifts, a.shares[i].key), a.total, a.shares[i].amount)
  {
    ScoresAreWeightedMinutes(p, shifts, a.shares[i].key);
    ShareIsNearPart(a.pool, Scores(p, shifts), a.shares, i);
  }

  lemma ShareIsNearPart(pool: int, scores: map<Key, real>, shares: seq<Share>, i: int)
    requires SplitsPool(pool, scores, shares) && 0 <= i < |shares|
    ensures NearPart(pool, shares[i].score, SumMapReal(scores), shares[i].amount)
  {
    SplitIsExact(pool, scores, shares, i);
    var total := SumMapReal(scores);
    QuotaAt(pool, ScoresOf(shares), total, i);
    WithinACent(Quota(pool, total)(shares[i].score), pool, shares[i].score, total, shares[i].amount);
  }

  lemma QuotaAt(pool: int, scores: seq<real>, total: real, i: int)
    requires total > 0.0 && 0 <= i < |scores|
    ensures Proportional(pool, scores, total)[i] == Quota(pool, total)(scores[i])
  {
  }

  lemma TimesBelow(total: real, n: int, quota: real, scaled: real)
    requires total > 0.0 && n as real < quota && total * quota == scaled
    ensures Times(total, n) < scaled
  {
  }

  lemma TimesAbove(total: real, n: int, quota: real, scaled: real)
    requires total > 0.0 && quota < n as real && total * quota == scaled
    ensures scaled < Times(total, n)
  {
  }

  lemma WithinACent(quota: real, pool: int, part: real, total: real, amount: int)
    requires total > 0.0 && quota == Quota(pool, total)(part) && quota - 1.0 < amount as real < quota + 1.0
    ensures NearPart(pool, part, total, amount)
  {
    var scaled := pool as real * part;
    assert quota == scaled / total && total * quota == scaled;
    TimesBelow(total, amount - 1, quota, scaled);
    TimesAbove(total, amount + 1, quota, scaled);
    assert Times(part, pool) == scaled;
  }

  // ----- two recipients of one shift each

  lemma OneShiftEach(p: Policy, a: Shift, b: Shift, k: Key)
    requires Adds(p, a, k) && !Adds(p, b, k)
    ensures WeightedTotal(p, [a, b], k) == Times(p.weights[a.role], a.minutes)
    ensures WeightedTotal(p, [b, a], k) == Times(p.weights[a.role], a.minutes)
  {
    assert [a, b][1..] == [b] && [b, a][1..] == [a] && [a][1..] == [] && [b][1..] == [];
    NobodyWorked(p, k);
    AddedInOneRole(p, [a, b], k);
    NothingAdded(p, [b], k);
    NothingAdded(p, [b, a], k);
    AddedInOneRole(p, [a], k);
  }

  /** Both shifts count, for two different recipients. */
  predicate TwoRecipients(p: Policy, a: Shift, b: Shift, k: Key, l: Key) {
    Adds(p, a, k) && Adds(p, b, l) && k != l
  }

  lemma ScoresOfTwo(p: Policy, a: Shift, b: Shift, k: Key, l: Key)
    requires TwoRecipients(p, a, b, k, l)
    ensures Scores(p, [a, b]) == map[k := Times(p.weights[a.role], a.minutes), l := Times(p.weights[b.role], b.minutes)]
  {
    var scores := Scores(p, [a, b]);
    assert a in [a, b] && b in [a, b];
    ScoresAreWeightedMinutes(p, [a, b], k);
    ScoresAreWeightedMinutes(p, [a, b], l);
    OneShiftEach(p, a, b, k);
    OneShiftEach(p, b, a, l);
    forall m | m in scores ensures m == k || m == l {
      ScoresAreWeightedMinutes(p, [a, b], m);
    }
  }

  lemma SumOfTwo(k: Key, x: real, l: Key, y: real)
    requires k != l
    ensures SumMapReal(map[k := x, l := y]) == x + y
  {
    var m := map[k := x, l := y];
    SumRemoveReal(m, k);
    SumRemoveReal(m - {k}, l);
    assert m - {k} - {l} == map[];
  }

  lemma ShareOfTwo(pool: int, k: Key, x: real, l: Key, y: real, shares: seq<Share>, i: int)
    requires k != l && SplitsPool(pool, map[k := x, l := y], shares) && 0 <= i < |shares|
    ensures (shares[i].key == k || shares[i].key == l) && NearPart(pool, if shares[i].key == k then x else y, x + y, shares[i].amount)
  {
    SumOfTwo(k, x, l, y);
    ShareIsNearPart(pool, map[k := x, l := y], shares, i);
  }

  /** Two people with one shift each share the pool as minutes times weight to minutes times weight, to within a cent. */
  lemma TwoShiftsShareByWeight(p: Policy, tips: seq<Tip>, a: Shift, b: Shift, k: Key, l: Key, r: Allocation, i: int)
    requires TwoRecipients(p, a, b, k, l) && Allocates(p, tips, [a, b], r) && 0 <= i < |r.shares|
    ensures
      var m, n := Times(p.weights[a.role], a.minutes), Times(p.weights[b.role], b.minutes);
      && (r.shares[i].key == k || r.shares[i].key == l)
      && NearPart(r.pool, if r.shares[i].key == k then m else n, m + n, r.shares[i].amount)
  {
    ScoresOfTwo(p, a, b, k, l);
    ShareOfTwo(r.pool, k, Times(p.weights[a.role], a.minutes), l, Times(p.weights[b.role], b.minutes), r.shares, i);
  }

  // ----- the pool

  /** The cents of the tips of a type that count: not fully refunded, not canceled. */
  function CentsOf(tips: seq<Tip>, t: TipType): int {
    if tips == [] then 0
    else (if tips[0].tipType == t && tips[0].refund in {NoRefund, Partial} && tips[0].payment in {Completed, Pending} then tips[0].amount else 0)
         + CentsOf(tips[1..], t)
  }

  function CentsByType(p: Policy, tips: seq<Tip>): map<TipType, int> {
    map t | t in p.inclusion && p.inclusion[t] :: CentsOf(tips, t)
  }

  lemma {:induction false} NoCents(m: map<TipType, int>)
    requires forall t :: t in m ==> m[t] == 0
    ensures SumMap(m) == 0
    decreases |m|
  {
    if m != map[] {
      NoCents(m - {Pick(m)});
    }
  }

  /** The pool is the counted cents of the types the policy includes. */
  lemma {:induction false} ThePoolByType(p: Policy, tips: seq<Tip>)
    ensures Pool(p, tips) == SumMap(CentsByType(p, tips))
  {
    if tips == [] {
      NoCents(CentsByType(p, tips));
    } else {
      ThePoolByType(p, tips[1..]);
      var t, after, before := tips[0].tipType, CentsByType(p, tips), CentsByType(p, tips[1..]);
      if t in after {
        SumRemove(after, t);
        SumRemove(before, t);
        assert after - {t} == before - {t};
      } else {
        assert after == before;
      }
    }
  }

  // ----- issues

  lemma {:induction false} FlatHas<T(!new)>(f: T -> seq<Issue>, s: seq<T>, x: Issue)
    ensures x in Flat(f, s) <==> exists e :: e in s && x in f(e)
    decreases |s|
  {
    if s != [] {
      var front, last := s[..|s| - 1], s[|s| - 1];
      FlatHas(f, front, x);
      assert s == front + [last];
    }
  }

  lemma IssuesComeFrom(p: Policy, tips: seq<Tip>, shifts: seq<Shift>, a: Allocation, x: Issue)
    requires Allocates(p, tips, shifts, a)
    ensures x in a.issues <==>
      (exists t :: t in tips && x in TipIssues(p, t)) || (exists s :: s in shifts && x in ShiftIssues(p, s)) || x in ClosingIssues(a.pool, a.total)
  {
    FlatHas((t: Tip) => TipIssues(p, t), tips, x);
    FlatHas((s: Shift) => ShiftIssues(p, s), shifts, x);
  }

  lemma TipIssue(p: Policy, t: Tip, x: Issue)
    ensures x in TipIssues(p, t) <==>
      && t.tipType in p.inclusion && p.inclusion[t.tipType]
      && ((x == Issue(RefundedExcluded, false) && t.refund == Full)
          || (x == Issue(CanceledExcluded, false) && t.refund in {NoRefund, Partial} && t.payment == Canceled))
  {
  }

  /** A shift the policy scores or would score: done or approved, in a role that is not excluded. */
  predicate Concerns(p: Policy, s: Shift) {
    s.status in {ShiftCompleted, ShiftApproved} && s.role !in p.excluded
  }

  lemma ShiftIssue(p: Policy, s: Shift, x: Issue)
    ensures x in ShiftIssues(p, s) <==>
      && Concerns(p, s)
      && ((x == Issue(UnmappedWorker, false) && s.worker.None?)
          || (x == Issue(NonPositiveMinutes, true) && s.minutes <= 0)
          || (x == Issue(UnknownRole, true) && 0 < s.minutes && s.role !in p.weights))
  {
  }

  lemma ClosingIssue(pool: int, total: real, x: Issue)
    ensures x in ClosingIssues(pool, total) <==>
      (x == Issue(EmptyPool, false) && pool == 0) || (x == Issue(NoEligibleShifts, 0 < pool) && total == 0.0)
  {
  }

  /** An issue is in the list exactly when some tip, some shift or the closing totals give cause for it. */
  lemma ReportedExactlyWhen(p: Policy, tips: seq<Tip>, shifts: seq<Shift>, a: Allocation, x: Issue)
    requires Allocates(p, tips, shifts, a)
    ensures x in a.issues <==>
      match x.code
      case RefundedExcluded => !x.blocking && exists t :: t in tips && t.tipType in p.inclusion && p.inclusion[t.tipType] && t.refund == Full
      case CanceledExcluded => !x.blocking &&
        exists t :: t in tips && t.tipType in p.inclusion && p.inclusion[t.tipType] && t.refund != Full && t.payment == Canceled
      case UnmappedWorker => !x.blocking && exists s :: s in shifts && Concerns(p, s) && s.worker.None?
      case NonPositiveMinutes => x.blocking && exists s :: s in shifts && Concerns(p, s) && s.minutes <= 0
      case UnknownRole => x.blocking && exists s :: s in shifts && Concerns(p, s) && 0 < s.minutes && s.role !in p.weights
      case EmptyPool => !x.blocking && a.pool == 0
      case NoEligibleShifts => a.total == 0.0 && x.blocking == (0 < a.pool)
  {
    IssuesComeFrom(p, tips, shifts, a, x);
    ClosingIssue(a.pool, a.total, x);
    forall t ensures x in TipIssues(p, t) <==>
      && t.tipType in p.inclusion && p.inclusion[t.tipType]
      && ((x == Issue(RefundedExcluded, false) && t.refund == Full)
          || (x == Issue(CanceledExcluded, false) && t.refund in {NoRefund, Partial} && t.payment == Canceled))
    {
      TipIssue(p, t, x);
    }
    forall s ensures x in ShiftIssues(p, s) <==>
      && Concerns(p, s)
      && ((x == Issue(UnmappedWorker, false) && s.worker.None?)
          || (x == Issue(NonPositiveMinutes, true) && s.minutes <= 0)
          || (x == Issue(UnknownRole, true) && 0 < s.minutes && s.role !in p.weights))
    {
      ShiftIssue(p, s, x);
    }
  }

  /** A batch is held up for review exactly when a shift is without minutes or weight, or there is money and nobody to pay. */
  lemma BlockedExactlyWhen(p: Policy, tips: seq<Tip>, shifts: seq<Shift>, a: Allocation)
    requires Allocates(p, tips, shifts, a)
    ensures HasBlockingIssue(a.issues) <==>
      (exists s :: s in shifts && Concerns(p, s) && (s.minutes <= 0 || s.role !in p.weights)) || (a.total == 0.0 && 0 < a.pool)
  {
    forall code ensures Issue(code, true) in a.issues ==> HasBlockingIssue(a.issues) {
    }
    ReportedExactlyWhen(p, tips, shifts, a, Issue(NonPositiveMinutes, true));
    ReportedExactlyWhen(p, tips, shifts, a, Issue(UnknownRole, true));
    ReportedExactlyWhen(p, tips, shifts, a, Issue(NoEligibleShifts, true));
    if HasBlockingIssue(a.issues) {
      var i :| 0 <= i < |a.issues| && a.issues[i].blocking;
      ReportedExactlyWhen(p, tips, shifts, a, a.issues[i]);
    }
  }

  // ----- the order of the shares

  /** Held shares first, in order of provider and external id; then workers in order of their ids. */
  lemma SharesAreInOrder(p: Policy, tips: seq<Tip>, shifts: seq<Shift>, a: Allocation, i: int, j: int)
    requires Allocates(p, tips, shifts, a) && 0 <= i < j < |a.shares|
    ensures match (a.shares[i].key, a.shares[j].key)
      case (HeldKey(v, e), HeldKey(v', e')) => v < v' || (v == v' && e < e')
      case (HeldKey(_, _), WorkerKey(_)) => true
      case (WorkerKey(_), HeldKey(_, _)) => false
      case (WorkerKey(w), WorkerKey(w')) => w < w'
  {
    assert KeysOf(a.shares)[i] == a.shares[i].key && KeysOf(a.shares)[j] == a.shares[j].key;
  }

  /** Of two equal scores the one first in order never gets less, and the other at most a cent less. */
  lemma EqualScoresFirstComeFirst(p: Policy, tips: seq<Tip>, shifts: seq<Shift>, a: Allocation, i: int, j: int)
    requires Allocates(p, tips, shifts, a) && 0 <= i < j < |a.shares| && a.shares[i].score == a.shares[j].score
    ensures a.shares[j].amount <= a.shares[i].amount <= a.shares[j].amount + 1
  {
    QuotaAt(a.pool, ScoresOf(a.shares), a.total, i);
    QuotaAt(a.pool, ScoresOf(a.shares), a.total, j);
    EqualQuotasFirstComeFirst(Proportional(a.pool, ScoresOf(a.shares), a.total), a.pool, AmountsOf(a.shares), i, j);
  }

  lemma EqualQuotasFirstComeFirst(quotas: seq<real>, pool: int, amounts: seq<int>, i: int, j: int)
    requires Apportions(quotas, Positions(|quotas|), pool, amounts) && 0 <= i < j < |quotas| && quotas[i] == quotas[j]
    ensures amounts[j] <= amounts[i] <= amounts[j] + 1
  {
    assert !Beats(quotas, Positions(|quotas|), j, i);
  }
}

/**
 * Connecting a held external worker before the calculation, or after it: before, the
 * worker's shifts are scored under the worker's own key; after, the held share is handed
 * to the worker, on top of a share the worker may already have in the batch.
 */
module MappingTiming {
  import opened Wrappers
  import opened Sums
  import opened Apportionment
  import opened AllocationEngine

  /** verifyMapping's backfill of the shifts of one external worker. */
  function MapShift(provider: Id, external: Id, worker: Id, s: Shift): Shift {
    if s.worker.None? && s.provider == provider && s.external == external then s.(worker := Some(worker)) else s
  }

  function MapShifts(provider: Id, external: Id, worker: Id, shifts: seq<Shift>): seq<Shift> {
    if shifts == [] then [] else [MapShift(provider, external, worker, shifts[0])] + MapShifts(provider, external, worker, shifts[1..])
  }

  function ScoreIn(scores: map<Key, real>, k: Key): real {
    if k in scores then scores[k] else 0.0
  }

  /** The score map with one recipient's score moved to another key. */
  function Moved(scores: map<Key, real>, from: Key, to: Key): map<Key, real> {
    if from in scores then (scores - {from})[to := ScoreIn(scores, to) + scores[from]] else scores
  }

  lemma {:induction false} MappedScore(p: Policy, provider: Id, external: Id, worker: Id, shifts: seq<Shift>, k: Key)
    ensures
      var mapped, held, own := MapShifts(provider, external, worker, shifts), HeldKey(provider, external), WorkerKey(worker);
      ScoreOf(p, mapped, k) ==
      if k == held then 0.0
      else if k == own then ScoreOf(p, shifts, own) + ScoreOf(p, shifts, held)
      else ScoreOf(p, shifts, k)
  {
    if shifts != [] {
      MappedScore(p, provider, external, worker, shifts[1..], k);
    }
  }

  lemma {:induction false} MappedKeys(p: Policy, provider: Id, external: Id, worker: Id, shifts: seq<Shift>, k: Key)
    ensures
      var mapped, held, own := MapShifts(provider, external, worker, shifts), HeldKey(provider, external), WorkerKey(worker);
      k in Scores(p, mapped) <==>
      (k != held && k in Scores(p, shifts)) || (k == own && held in Scores(p, shifts))
  {
    var mapped := MapShifts(provider, external, worker, shifts);
    if shifts != [] {
      MappedKeys(p, provider, external, worker, shifts[1..], k);
      KeyInHeadOrTail(p, shifts, k);
      KeyInHeadOrTail(p, shifts, HeldKey(provider, external));
      KeyInHeadOrTail(p, mapped, k);
    }
  }

  lemma KeyInHeadOrTail(p: Policy, shifts: seq<Shift>, k: Key)
    requires shifts != []
    ensures k in Scores(p, shifts) <==> (Scored(p, shifts[0]) && KeyOf(shifts[0]) == k) || k in Scores(p, shifts[1..])
  {
    assert shifts == [shifts[0]] + shifts[1..];
  }

  lemma NotScored(p: Policy, shifts: seq<Shift>, k: Key)
    requires k !in Scores(p, shifts)
    ensures ScoreOf(p, shifts, k) == 0.0
  {
    NothingScored(p, shifts, k);
  }

  lemma ScoreInIsScoreOf(p: Policy, shifts: seq<Shift>, k: Key)
    ensures ScoreIn(Scores(p, shifts), k) == ScoreOf(p, shifts, k)
  {
    if k !in Scores(p, shifts) { NotScored(p, shifts, k); }
  }

  lemma MappedEntry(p: Policy, provider: Id, external: Id, worker: Id, shifts: seq<Shift>, k: Key)
    ensures
      var after := Scores(p, MapShifts(provider, external, worker, shifts));
      var expected := Moved(Scores(p, shifts), HeldKey(provider, external), WorkerKey(worker));
      (k in after <==> k in expected) && (k in after ==> after[k] == expected[k])
  {
    MappedKeys(p, provider, external, worker, shifts, k);
    MappedScore(p, provider, external, worker, shifts, k);
    ScoreInIsScoreOf(p, shifts, k);
    ScoreInIsScoreOf(p, shifts, WorkerKey(worker));
    ScoreInIsScoreOf(p, shifts, HeldKey(provider, external));
    ScoreInIsScoreOf(p, MapShifts(provider, external, worker, shifts), k);
    MovedEntry(Scores(p, shifts), Scores(p, MapShifts(provider, external, worker, shifts)), HeldKey(provider, external), WorkerKey(worker), k);
  }

  /** The moved map, looked at from the scores alone. */
  lemma MovedEntry(before: map<Key, real>, after: map<Key, real>, from: Key, to: Key, k: Key)
    requires from != to && (k in after <==> (k != from && k in before) || (k == to && from in before))
    requires ScoreIn(after, k) == if k == from then 0.0 else if k == to then ScoreIn(before, to) + ScoreIn(before, from) else ScoreIn(before, k)
    ensures (k in after <==> k in Moved(before, from, to)) && (k in after ==> after[k] == Moved(before, from, to)[k])
  {
  }

  /** Mapping first moves exactly the held score to the worker's key. */
  lemma MappingMovesTheScore(p: Policy, provider: Id, external: Id, worker: Id, shifts: seq<Shift>)
    ensures Scores(p, MapShifts(provider, external, worker, shifts))
         == Moved(Scores(p, shifts), HeldKey(provider, external), WorkerKey(worker))
  {
    var after := Scores(p, MapShifts(provider, external, worker, shifts));
    var expected := Moved(Scores(p, shifts), HeldKey(provider, external), WorkerKey(worker));
    forall k
      ensures k in after <==> k in expected
      ensures k in after ==> after[k] == expected[k]
    {
      MappedEntry(p, provider, external, worker, shifts, k);
    }
  }

  // ----- a split seen through the exact quotas of its recipients

  function EachOf(f: real -> real, scores: map<Key, real>): map<Key, real> {
    map k | k in scores :: f(scores[k])
  }

  ghost function QuotaMap(pool: int, scores: map<Key, real>): map<Key, real>
    requires SumMapReal(scores) > 0.0
  {
    EachOf(Quota(pool, SumMapReal(scores)), scores)
  }

  function Listed<V>(m: map<Key, V>, keys: seq<Key>): (r: seq<V>)
    requires forall i :: 0 <= i < |keys| ==> keys[i] in m
    ensures |r| == |keys| && forall i :: 0 <= i < |keys| ==> r[i] == m[keys[i]]
  {
    seq(|keys|, i requires 0 <= i < |keys| => m[keys[i]])
  }

  /** The shares split the pool by these quotas, ties broken by key order. */
  ghost predicate SplitsBy(q: map<Key, real>, pool: int, shares: seq<Share>) {
    && Lists(q, KeysOf(shares)) && Sorted(KeysOf(shares))
    && Apportions(Listed(q, KeysOf(shares)), Positions(|shares|), pool, AmountsOf(shares))
  }

  lemma SortedIsDistinct(keys: seq<Key>)
    requires Sorted(keys)
    ensures forall i, j :: 0 <= i < j < |keys| ==> keys[i] != keys[j]
  {
    forall i, j | 0 <= i < j < |keys| ensures keys[i] != keys[j] {
      assert Less(keys[i], keys[j]);
    }
  }

  lemma SplitsByItsQuotas(pool: int, scores: map<Key, real>, shares: seq<Share>)
    requires SplitsPool(pool, scores, shares)
    ensures SplitsBy(QuotaMap(pool, scores), pool, shares)
  {
    var keys := KeysOf(shares);
    SortedIsDistinct(keys);
    assert forall i :: 0 <= i < |keys| ==> keys[i] in keys;
    ListedScores(Quota(pool, SumMapReal(scores)), scores, shares);
  }

  lemma ListedScores(f: real -> real, scores: map<Key, real>, shares: seq<Share>)
    requires forall i :: 0 <= i < |shares| ==> shares[i].key in scores && shares[i].score == scores[shares[i].key]
    ensures Listed(EachOf(f, scores), KeysOf(shares)) == Each(f, ScoresOf(shares))
  {
  }

  lemma MovedKeepsTotal(scores: map<Key, real>, from: Key, to: Key)
    requires from in scores && from != to
    ensures SumMapReal(Moved(scores, from, to)) == SumMapReal(scores)
  {
    var moved := Moved(scores, from, to);
    SumRemoveReal(scores, from);
    SumRemoveReal(moved, to);
    assert moved - {to} == scores - {from} - {to};
    if to in scores {
      SumRemoveReal(scores - {from}, to);
    } else {
      assert scores - {from} - {to} == scores - {from};
    }
  }

  lemma QuotaOfSum(pool: int, a: real, b: real, total: real)
    requires total > 0.0
    ensures Quota(pool, total)(a + b) == Quota(pool, total)(a) + Quota(pool, total)(b)
  {
  }

  lemma MovedThrough(f: real -> real, scores: map<Key, real>, from: Key, to: Key)
    requires from in scores && from != to
    requires to in scores ==> f(scores[to] + scores[from]) == f(scores[to]) + f(scores[from])
    ensures EachOf(f, Moved(scores, from, to)) == Moved(EachOf(f, scores), from, to)
  {
  }

  lemma MovedQuotas(pool: int, scores: map<Key, real>, from: Key, to: Key)
    requires from in scores && from != to && SumMapReal(scores) > 0.0
    ensures SumMapReal(Moved(scores, from, to)) == SumMapReal(scores)
    ensures QuotaMap(pool, Moved(scores, from, to)) == Moved(QuotaMap(pool, scores), from, to)
  {
    MovedKeepsTotal(scores, from, to);
    if to in scores {
      QuotaOfSum(pool, scores[to], scores[from], SumMapReal(scores));
    }
    MovedThrough(Quota(pool, SumMapReal(scores)), scores, from, to);
  }

  // ----- shares looked up by recipient

  ghost function AmountFor(shares: seq<Share>, k: Key): int {
    if i :| 0 <= i < |shares| && shares[i].key == k then shares[i].amount else 0
  }

  lemma AmountForPlace(shares: seq<Share>, i: int)
    requires Sorted(KeysOf(shares)) && 0 <= i < |shares|
    ensures AmountFor(shares, shares[i].key) == shares[i].amount
  {
    SortedIsDistinct(KeysOf(shares));
    forall j | 0 <= j < |shares| && shares[j].key == shares[i].key ensures j == i {
      assert KeysOf(shares)[j] == KeysOf(shares)[i];
    }
  }

  ghost function PlaceOf(sorted: seq<Key>, k: Key): (j: int)
    requires k in sorted
    ensures 0 <= j < |sorted| && sorted[j] == k
  {
    var j :| 0 <= j < |sorted| && sorted[j] == k; j
  }

  lemma PlacesOf(q: map<Key, real>, sorted: seq<Key>, keys: seq<Key>) returns (places: seq<int>)
    requires Lists(q, sorted) && Lists(q, keys)
    ensures |places| == |keys| && Permutation(places, |sorted|)
    ensures forall i :: 0 <= i < |keys| ==> sorted[places[i]] == keys[i]
  {
    assert forall i :: 0 <= i < |keys| ==> keys[i] in sorted;
    places := seq(|keys|, i requires 0 <= i < |keys| => PlaceOf(sorted, keys[i]));
    forall k | 0 <= k < |sorted| ensures k in places {
      assert sorted[k] in keys;
      var i :| 0 <= i < |keys| && keys[i] == sorted[k];
      assert sorted[places[i]] == sorted[k];
      assert places[i] == k;
    }
    SameLength(q, sorted, keys);
  }

  lemma SameLength(q: map<Key, real>, a: seq<Key>, b: seq<Key>)
    requires Lists(q, a) && Lists(q, b)
    ensures |a| == |b|
  {
    DistinctCount(a);
    DistinctCount(b);
    assert forall i :: 0 <= i < |a| ==> a[i] in b;
    assert forall i :: 0 <= i < |b| ==> b[i] in a;
    assert (set k | k in a) == (set k | k in b);
  }

  lemma {:induction false} DistinctCount(a: seq<Key>)
    requires forall i, j :: 0 <= i < j < |a| ==> a[i] != a[j]
    ensures |set k | k in a| == |a|
  {
    if a != [] {
      DistinctCount(a[1..]);
      assert (set k | k in a) == (set k | k in a[1..]) + {a[0]};
      assert a[0] !in a[1..];
    }
  }

  /** A split may be read off recipient by recipient, in any order. */
  lemma InListingOrder(q: map<Key, real>, pool: int, shares: seq<Share>, keys: seq<Key>) returns (tie: seq<int>, amounts: seq<int>)
    requires SplitsBy(q, pool, shares) && Lists(q, keys)
    ensures Apportions(Listed(q, keys), tie, pool, amounts)
    ensures forall i :: 0 <= i < |keys| ==> amounts[i] == AmountFor(shares, keys[i])
  {
    var sorted := KeysOf(shares);
    var places := PlacesOf(q, sorted, keys);
    Relisted(Listed(q, sorted), Positions(|shares|), pool, AmountsOf(shares), places);
    tie, amounts := At(Positions(|shares|), places), At(AmountsOf(shares), places);
    assert At(Listed(q, sorted), places) == Listed(q, keys);
    forall i | 0 <= i < |keys| ensures amounts[i] == AmountFor(shares, keys[i]) {
      AmountForPlace(shares, places[i]);
      assert sorted[places[i]] == shares[places[i]].key;
    }
  }

  lemma KeepsTheFloor(q: map<Key, real>, pool: int, shares: seq<Share>, k: Key)
    requires SplitsBy(q, pool, shares)
    ensures if k in q then q[k].Floor <= AmountFor(shares, k) <= q[k].Floor + 1 else AmountFor(shares, k) == 0
  {
    var keys := KeysOf(shares);
    if k in q {
      assert k in keys;
      var i :| 0 <= i < |keys| && keys[i] == k;
      AmountForPlace(shares, i);
      assert Listed(q, keys)[i].Floor <= AmountsOf(shares)[i] <= Listed(q, keys)[i].Floor + 1;
    } else {
      forall i | 0 <= i < |shares| ensures shares[i].key != k {
        assert keys[i] in q;
      }
    }
  }

  // ----- early or late

  lemma MergedShare(q: map<Key, real>, pool: int, held: Key, worker: Key, late: seq<Share>, early: seq<Share>)
    requires held in q && worker in q && held != worker
    requires SplitsBy(q, pool, late) && SplitsBy(Moved(q, held, worker), pool, early)
    ensures -1 <= AmountFor(late, worker) + AmountFor(late, held) - AmountFor(early, worker) <= 1
  {
    var others := ListKeys(q - {held, worker});
    var rest := Listed(q, others);
    var tie, s := LateListing(q, pool, held, worker, late, others, rest);
    var tie', t := EarlyListing(q, pool, held, worker, early, others, rest);
    ApartOrTogether(rest, q[worker], q[held], tie, tie', pool, s, t);
  }

  lemma LateListing(q: map<Key, real>, pool: int, held: Key, worker: Key, late: seq<Share>, others: seq<Key>, rest: seq<real>)
    returns (tie: seq<int>, s: seq<int>)
    requires held in q && worker in q && held != worker && Lists(q - {held, worker}, others) && SplitsBy(q, pool, late)
    requires rest == Listed(q, others)
    ensures Apportions(rest + [q[worker], q[held]], tie, pool, s)
    ensures s[|rest|] == AmountFor(late, worker) && s[|rest| + 1] == AmountFor(late, held)
  {
    TwoListings(q, held, worker, others);
    tie, s := InListingOrder(q, pool, late, others + [worker, held]);
  }

  lemma EarlyListing(q: map<Key, real>, pool: int, held: Key, worker: Key, early: seq<Share>, others: seq<Key>, rest: seq<real>)
    returns (tie: seq<int>, t: seq<int>)
    requires held in q && worker in q && held != worker && Lists(q - {held, worker}, others)
    requires SplitsBy(Moved(q, held, worker), pool, early) && rest == Listed(q, others)
    ensures Apportions(rest + [q[worker] + q[held]], tie, pool, t)
    ensures t[|rest|] == AmountFor(early, worker)
  {
    TwoListings(q, held, worker, others);
    tie, t := InListingOrder(Moved(q, held, worker), pool, early, others + [worker]);
  }

  lemma TwoListings(q: map<Key, real>, held: Key, worker: Key, others: seq<Key>)
    requires held in q && worker in q && held != worker && Lists(q - {held, worker}, others)
    ensures Lists(q, others + [worker, held]) && Lists(Moved(q, held, worker), others + [worker])
    ensures Listed(q, others + [worker, held]) == Listed(q, others) + [q[worker], q[held]]
    ensures Listed(Moved(q, held, worker), others + [worker]) == Listed(q, others) + [q[worker] + q[held]]
  {
    var apart, together := others + [worker, held], others + [worker];
    assert apart[|others|] == worker && apart[|others| + 1] == held && together[|others|] == worker;
    forall k ensures k in q ==> k in apart {
      assert k in q ==> k in others || k == worker || k == held;
    }
    forall k ensures k in Moved(q, held, worker) ==> k in together {
      assert k in Moved(q, held, worker) ==> k in others || k == worker;
    }
  }

  lemma {:induction false} ListKeys(q: map<Key, real>) returns (keys: seq<Key>)
    ensures Lists(q, keys)
    decreases |q|
  {
    if q == map[] {
      keys := [];
    } else {
      var k := Pick(q);
      var rest := ListKeys(q - {k});
      keys := [k] + rest;
    }
  }

  /**
   * Whether one held worker is mapped before or after the calculation moves nobody's
   * money by more than one cent: not the others', and not the worker's own, whose held
   * share is merged into the one there already is.
   */
  lemma SplitTimeMattersByACent(pool: int, scores: map<Key, real>, held: Key, worker: Key, late: seq<Share>, early: seq<Share>)
    requires held in scores && held != worker
    requires SplitsPool(pool, scores, late) && SplitsPool(pool, Moved(scores, held, worker), early)
    ensures forall k :: k != held && k != worker ==> -1 <= AmountFor(late, k) - AmountFor(early, k) <= 1
    ensures -1 <= AmountFor(late, worker) + AmountFor(late, held) - AmountFor(early, worker) <= 1
  {
    SplitsByItsQuotas(pool, scores, late);
    SplitsByItsQuotas(pool, Moved(scores, held, worker), early);
    MovedQuotas(pool, scores, held, worker);
    MovedByACent(QuotaMap(pool, scores), pool, held, worker, late, early);
  }

  lemma MovedByACent(q: map<Key, real>, pool: int, held: Key, worker: Key, late: seq<Share>, early: seq<Share>)
    requires held in q && held != worker
    requires SplitsBy(q, pool, late) && SplitsBy(Moved(q, held, worker), pool, early)
    ensures forall k :: k != held && k != worker ==> -1 <= AmountFor(late, k) - AmountFor(early, k) <= 1
    ensures -1 <= AmountFor(late, worker) + AmountFor(late, held) - AmountFor(early, worker) <= 1
  {
    var moved := Moved(q, held, worker);
    forall k | k != held && k != worker ensures -1 <= AmountFor(late, k) - AmountFor(early, k) <= 1 {
      KeepsTheFloor(q, pool, late, k);
      KeepsTheFloor(moved, pool, early, k);
    }
    if worker in q {
      MergedShare(q, pool, held, worker, late, early);
    } else {
      KeepsTheFloor(q, pool, late, held);
      KeepsTheFloor(q, pool, late, worker);
      KeepsTheFloor(moved, pool, early, worker);
    }
  }

  ghost predicate NoTies(q: map<Key, real>) {
    forall a, b :: a in q && b in q && a != b ==> Remainder(q[a]) != Remainder(q[b])
  }

  // ----- a cent that moves although no remainders tie

  const WORKED := WorkerKey(1)
  const HELD := HeldKey(1, 1)
  const OTHER := WorkerKey(2)

  /** One cent among scores 31, 29 (held, same person) and 40. */
  const APART := [Share(HELD, 29.0, 0), Share(WORKED, 31.0, 0), Share(OTHER, 40.0, 1)]
  const MERGED := [Share(WORKED, 60.0, 1), Share(OTHER, 40.0, 0)]

  lemma SumOfThree(a: real, b: real, c: real)
    ensures SumReal([a, b, c]) == a + b + c
  {
    assert [a, b, c][1..] == [b, c];
    SumOfTwo(b, c);
  }

  lemma SumOfTwo(a: real, b: real)
    ensures SumReal([a, b]) == a + b
  {
    assert [a, b][1..] == [b];
    assert SumReal([b]) == b + SumReal([b][1..]);
    assert [b][1..] == [];
  }

  function ScoresApart(): map<Key, real> {
    map[HELD := 29.0, WORKED := 31.0, OTHER := 40.0]
  }

  lemma QuotaOfHundred(cents: int)
    ensures Quota(1, 100.0)(cents as real) == cents as real / 100.0
  {
  }

  lemma ApartApportions()
    ensures Apportions([0.29, 0.31, 0.40], Positions(3), 1, [0, 0, 1])
  {
    SumOfThree(0.29, 0.31, 0.40);
    assert SumSeq([0, 0, 1]) == 1;
    assert (0.29).Floor == 0 && (0.31).Floor == 0 && (0.40).Floor == 0;
  }

  lemma MergedApportions()
    ensures Apportions([0.60, 0.40], Positions(2), 1, [1, 0])
  {
    SumOfTwo(0.60, 0.40);
    assert SumSeq([1, 0]) == 1;
    assert (0.60).Floor == 0 && (0.40).Floor == 0;
  }

  lemma TotalBefore()
    ensures SumMapReal(ScoresApart()) == 100.0
  {
    SumOfEntries([HELD, WORKED, OTHER], [29.0, 31.0, 40.0], ScoresApart());
    SumOfThree(29.0, 31.0, 40.0);
  }

  lemma ApartSplits()
    ensures SumMapReal(ScoresApart()) > 0.0 && SplitsPool(1, ScoresApart(), APART)
  {
    TotalBefore();
    ApartQuotas();
    ApartApportions();
    ApartListed();
  }

  lemma ApartListed()
    ensures KeysOf(APART) == [HELD, WORKED, OTHER] && AmountsOf(APART) == [0, 0, 1] && Sorted(KeysOf(APART))
  {
  }

  lemma ApartQuotas()
    ensures Proportional(1, ScoresOf(APART), 100.0) == [0.29, 0.31, 0.40]
  {
    QuotaOfHundred(29);
    QuotaOfHundred(31);
    QuotaOfHundred(40);
    assert ScoresOf(APART) == [29.0, 31.0, 40.0];
  }

  lemma MergedSplits()
    ensures SplitsPool(1, Moved(ScoresApart(), HELD, WORKED), MERGED)
  {
    TotalBefore();
    MovedKeepsTotal(ScoresApart(), HELD, WORKED);
    var keys := KeysOf(MERGED);
    assert keys == [WORKED, OTHER];
    assert AmountsOf(MERGED) == [1, 0];
    QuotaOfHundred(60);
    QuotaOfHundred(40);
    assert Proportional(1, ScoresOf(MERGED), 100.0) == [0.60, 0.40];
    MergedApportions();
  }

  /** With a share to merge into, a cent can change hands although no two remainders tie. */
  lemma MergingCanMoveACent()
    ensures SumMapReal(ScoresApart()) > 0.0 && SplitsPool(1, ScoresApart(), APART) && NoTies(QuotaMap(1, ScoresApart()))
    ensures SplitsPool(1, Moved(ScoresApart(), HELD, WORKED), MERGED)
    ensures AmountFor(APART, OTHER) == 1 && AmountFor(MERGED, OTHER) == 0
  {
    TotalBefore();
    ApartSplits();
    MergedSplits();
    AmountForPlace(APART, 2);
    AmountForPlace(MERGED, 1);
    NoTiesBefore();
  }

  lemma NoTiesBefore()
    requires SumMapReal(ScoresApart()) == 100.0
    ensures NoTies(QuotaMap(1, ScoresApart()))
  {
    QuotaOfHundred(29);
    QuotaOfHundred(31);
    QuotaOfHundred(40);
    var q := QuotaMap(1, ScoresApart());
    assert q[HELD] == 0.29 && q[WORKED] == 0.31 && q[OTHER] == 0.40;
    assert (0.29).Floor == 0 && (0.31).Floor == 0 && (0.40).Floor == 0;
  }
}

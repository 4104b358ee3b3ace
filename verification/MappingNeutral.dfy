/**
 * Exactly when it makes no difference to anybody's cents whether a held worker is connected
 * before the calculation or after it, and the same for two runs of the engine.
 */
module MappingNeutral {
  import opened Wrappers
  import opened Sums
  import opened Apportionment
  import opened AllocationEngine
  import opened MappingTiming

  // ----- a split as a map from recipients to cents

  /** Who is ahead for a left-over cent: the larger remainder, then the smaller key. */
  predicate AheadOf(q: map<Key, real>, a: Key, b: Key)
    requires a in q && b in q
  {
    Remainder(q[a]) > Remainder(q[b]) || (Remainder(q[a]) == Remainder(q[b]) && Less(a, b))
  }

  predicate RoundedUp(q: map<Key, real>, cents: map<Key, int>, k: Key)
    requires k in q && k in cents
  {
    cents[k] > q[k].Floor
  }

  predicate BetweenRoundings(q: map<Key, real>, cents: map<Key, int>, k: Key)
    requires k in q && k in cents
  {
    q[k].Floor <= cents[k] <= q[k].Floor + 1
  }

  /** The largest-remainder split, told recipient by recipient. */
  ghost predicate Divides(q: map<Key, real>, pool: int, cents: map<Key, int>) {
    && cents.Keys == q.Keys && SumMap(cents) == pool
    && (forall k :: k in q ==> BetweenRoundings(q, cents, k))
    && (forall a, b :: a in q && b in q && RoundedUp(q, cents, a) && !RoundedUp(q, cents, b) ==> AheadOf(q, a, b))
  }

  ghost function CentsByRecipient(shares: seq<Share>): map<Key, int> {
    map k | k in KeysOf(shares) :: AmountFor(shares, k)
  }

  lemma ListedBack(q: map<Key, real>, pool: int, shares: seq<Share>)
    requires SplitsBy(q, pool, shares)
    ensures CentsByRecipient(shares).Keys == q.Keys && SumMap(CentsByRecipient(shares)) == pool
    ensures forall i :: 0 <= i < |shares| ==> shares[i].key in q && CentsByRecipient(shares)[shares[i].key] == shares[i].amount
  {
    SortedBack(shares);
    assert CentsByRecipient(shares).Keys == q.Keys;
    assert forall i :: 0 <= i < |shares| ==> KeysOf(shares)[i] in q;
  }

  lemma SortedBack(shares: seq<Share>)
    requires Sorted(KeysOf(shares))
    ensures SumMap(CentsByRecipient(shares)) == SumSeq(AmountsOf(shares))
    ensures forall i :: 0 <= i < |shares| ==>
      shares[i].key in CentsByRecipient(shares) && CentsByRecipient(shares)[shares[i].key] == shares[i].amount
  {
    var keys := KeysOf(shares);
    forall i | 0 <= i < |shares| ensures keys[i] in keys && CentsByRecipient(shares)[keys[i]] == shares[i].amount {
      AmountForPlace(shares, i);
    }
    SortedIsDistinct(keys);
    SumOfRows(keys, AmountsOf(shares), CentsByRecipient(shares));
  }

  /** Of two different keys in a sorted list the earlier is the smaller. */
  lemma SortedPlaces(keys: seq<Key>, i: int, j: int)
    requires Sorted(keys) && 0 <= i < |keys| && 0 <= j < |keys| && i != j
    ensures Less(keys[i], keys[j]) <==> i < j
  {
    if j < i {
      assert Less(keys[j], keys[i]);
    }
  }

  lemma ListRoundings(q: map<Key, real>, pool: int, shares: seq<Share>, k: Key)
    requires SplitsBy(q, pool, shares) && k in q && k in CentsByRecipient(shares)
    ensures BetweenRoundings(q, CentsByRecipient(shares), k)
  {
    var keys := KeysOf(shares);
    ListedBack(q, pool, shares);
    var i := PlaceOf(keys, k);
    assert Listed(q, keys)[i].Floor <= AmountsOf(shares)[i] <= Listed(q, keys)[i].Floor + 1;
  }

  lemma ListRanks(q: map<Key, real>, pool: int, shares: seq<Share>, a: Key, b: Key)
    requires SplitsBy(q, pool, shares) && a in q && b in q && a in CentsByRecipient(shares) && b in CentsByRecipient(shares)
    requires RoundedUp(q, CentsByRecipient(shares), a) && !RoundedUp(q, CentsByRecipient(shares), b)
    ensures AheadOf(q, a, b)
  {
    var keys := KeysOf(shares);
    ListedBack(q, pool, shares);
    var i, j := PlaceOf(keys, a), PlaceOf(keys, b);
    SortedPlaces(keys, i, j);
    assert Beats(Listed(q, keys), Positions(|shares|), i, j);
  }

  /** What the engine's list says, the map says. */
  lemma ListDivides(q: map<Key, real>, pool: int, shares: seq<Share>)
    requires SplitsBy(q, pool, shares)
    ensures Divides(q, pool, CentsByRecipient(shares))
  {
    var cents := CentsByRecipient(shares);
    ListedBack(q, pool, shares);
    forall k | k in q ensures BetweenRoundings(q, cents, k) {
      ListRoundings(q, pool, shares, k);
    }
    forall a, b | a in q && b in q && RoundedUp(q, cents, a) && !RoundedUp(q, cents, b) ensures AheadOf(q, a, b) {
      ListRanks(q, pool, shares, a, b);
    }
  }

  lemma DivisionListed(q: map<Key, real>, pool: int, keys: seq<Key>, cents: map<Key, int>)
    requires Lists(q, keys) && Sorted(keys) && Divides(q, pool, cents) && SumReal(Listed(q, keys)) == pool as real
    ensures Apportions(Listed(q, keys), Positions(|keys|), pool, Listed(cents, keys))
  {
    SumOfRows(keys, Listed(cents, keys), cents);
    var quotas, s := Listed(q, keys), Listed(cents, keys);
    forall i | 0 <= i < |keys| ensures quotas[i].Floor <= s[i] <= quotas[i].Floor + 1 {
      assert BetweenRoundings(q, cents, keys[i]);
    }
    forall i, j | 0 <= i < |keys| && 0 <= j < |keys| && s[i] > quotas[i].Floor && s[j] <= quotas[j].Floor
      ensures Beats(quotas, Positions(|keys|), i, j)
    {
      assert RoundedUp(q, cents, keys[i]) && !RoundedUp(q, cents, keys[j]);
      assert AheadOf(q, keys[i], keys[j]);
      SortedPlaces(keys, i, j);
    }
  }

  /** And nothing else divides the pool so. */
  lemma OnlyDivision(q: map<Key, real>, pool: int, shares: seq<Share>, cents: map<Key, int>)
    requires SplitsBy(q, pool, shares) && Divides(q, pool, cents)
    ensures cents == CentsByRecipient(shares)
  {
    var keys := KeysOf(shares);
    DivisionListed(q, pool, keys, cents);
    Unique(Listed(q, keys), Positions(|shares|), pool, Listed(cents, keys), AmountsOf(shares));
    SameListSameCents(q, pool, shares, cents);
  }

  lemma SameListSameCents(q: map<Key, real>, pool: int, shares: seq<Share>, cents: map<Key, int>)
    requires SplitsBy(q, pool, shares) && cents.Keys == q.Keys && Listed(cents, KeysOf(shares)) == AmountsOf(shares)
    ensures cents == CentsByRecipient(shares)
  {
    ListedBack(q, pool, shares);
    forall k | k in q ensures cents[k] == CentsByRecipient(shares)[k] {
      var i := PlaceOf(KeysOf(shares), k);
      assert Listed(cents, KeysOf(shares))[i] == AmountsOf(shares)[i];
    }
  }

  // ----- merging

  function CentsFor(cents: map<Key, int>, k: Key): int {
    if k in cents then cents[k] else 0
  }

  /** The held cents handed to the worker, on top of what the worker has. */
  function Merged(cents: map<Key, int>, held: Key, worker: Key): map<Key, int> {
    if held in cents then (cents - {held})[worker := CentsFor(cents, worker) + cents[held]] else cents
  }

  lemma MergedKeepsSum(cents: map<Key, int>, held: Key, worker: Key)
    requires held != worker
    ensures SumMap(Merged(cents, held, worker)) == SumMap(cents)
  {
    if held in cents {
      SumRemove(cents, held);
      SumUpdate(cents - {held}, worker, CentsFor(cents, worker) + cents[held]);
    }
  }

  /**
   * The condition, read off the late split: the worker's two shares are the roundings, down or
   * up, of the merged quota, and they are so for the right reason. Rounded up, the merged quota
   * is ahead of everybody rounded down; rounded down, everybody rounded up is ahead of it.
   */
  ghost predicate TimingIsNeutral(q: map<Key, real>, cents: map<Key, int>, held: Key, worker: Key)
    requires held in q && held != worker && cents.Keys == q.Keys
  {
    var m, t := Moved(q, held, worker), Merged(cents, held, worker);
    && BetweenRoundings(m, t, worker)
    && (forall k :: k in q && k != held && k != worker ==>
          if RoundedUp(m, t, worker) then RoundedUp(q, cents, k) || AheadOf(m, worker, k)
          else !RoundedUp(q, cents, k) || AheadOf(m, k, worker))
  }

  lemma NeutralMeansDivides(q: map<Key, real>, pool: int, cents: map<Key, int>, held: Key, worker: Key)
    requires Divides(q, pool, cents) && held in q && held != worker
    ensures Divides(Moved(q, held, worker), pool, Merged(cents, held, worker)) <==> TimingIsNeutral(q, cents, held, worker)
  {
    var m, t := Moved(q, held, worker), Merged(cents, held, worker);
    MergedKeepsSum(cents, held, worker);
    assert t.Keys == m.Keys;
    forall k | k in q && k != held && k != worker ensures BetweenRoundings(m, t, k) && RoundedUp(m, t, k) == RoundedUp(q, cents, k) {
      assert BetweenRoundings(q, cents, k);
    }
    if TimingIsNeutral(q, cents, held, worker) {
      forall a, b | a in m && b in m && RoundedUp(m, t, a) && !RoundedUp(m, t, b) ensures AheadOf(m, a, b) {
        if a != worker && b != worker {
          assert AheadOf(q, a, b);
        }
      }
    }
  }

  /** Nobody's cents depend on the time of the mapping if and only if the condition holds. */
  lemma NobodyMovesIff(q: map<Key, real>, pool: int, late: seq<Share>, early: seq<Share>, held: Key, worker: Key)
    requires held in q && held != worker && SplitsBy(q, pool, late) && SplitsBy(Moved(q, held, worker), pool, early)
    ensures CentsByRecipient(late).Keys == q.Keys
    ensures CentsByRecipient(early) == Merged(CentsByRecipient(late), held, worker) <==> TimingIsNeutral(q, CentsByRecipient(late), held, worker)
  {
    ListDivides(q, pool, late);
    ListDivides(Moved(q, held, worker), pool, early);
    NeutralMeansDivides(q, pool, CentsByRecipient(late), held, worker);
    if TimingIsNeutral(q, CentsByRecipient(late), held, worker) {
      OnlyDivision(Moved(q, held, worker), pool, early, Merged(CentsByRecipient(late), held, worker));
    }
  }

  // ----- the condition without ties

  /** A worker without a share of their own: only the key changes, and without ties keys do not matter. */
  lemma NewcomersAreNeutral(q: map<Key, real>, pool: int, cents: map<Key, int>, held: Key, worker: Key)
    requires Divides(q, pool, cents) && held in q && worker !in q && NoTies(q)
    ensures TimingIsNeutral(q, cents, held, worker)
  {
    assert BetweenRoundings(q, cents, held);
    forall k | k in q && k != held ensures Remainder(q[k]) != Remainder(q[held]) {
    }
  }

  lemma FloorOfSum(a: real, b: real)
    ensures (a + b).Floor == a.Floor + b.Floor + if Remainder(a) + Remainder(b) < 1.0 then 0 else 1
    ensures Remainder(a + b) == Remainder(a) + Remainder(b) - if Remainder(a) + Remainder(b) < 1.0 then 0.0 else 1.0
  {
  }

  /** Exactly one of the two rounded up. */
  ghost predicate OneRoundedUp(q: map<Key, real>, cents: map<Key, int>, a: Key, b: Key)
    requires a in q && b in q && cents.Keys == q.Keys
  {
    RoundedUp(q, cents, a) != RoundedUp(q, cents, b)
  }

  /** Both rounded down, and together still below everybody rounded up. */
  ghost predicate BothDownTogetherToo(q: map<Key, real>, cents: map<Key, int>, held: Key, worker: Key)
    requires held in q && worker in q && held != worker && cents.Keys == q.Keys
  {
    && !RoundedUp(q, cents, held) && !RoundedUp(q, cents, worker) && Remainder(q[worker]) + Remainder(q[held]) < 1.0
    && (forall k :: k in q && k != held && k != worker && RoundedUp(q, cents, k) ==> AheadOf(Moved(q, held, worker), k, worker))
  }

  /** Both rounded up, and together, past a whole cent, still above everybody rounded down. */
  ghost predicate BothUpTogetherToo(q: map<Key, real>, cents: map<Key, int>, held: Key, worker: Key)
    requires held in q && worker in q && held != worker && cents.Keys == q.Keys
  {
    && RoundedUp(q, cents, held) && RoundedUp(q, cents, worker) && Remainder(q[worker]) + Remainder(q[held]) >= 1.0
    && (forall k :: k in q && k != held && k != worker && !RoundedUp(q, cents, k) ==> AheadOf(Moved(q, held, worker), worker, k))
  }

  /** If one of the two won a cent and the other did not, the two together win exactly one. */
  lemma OneWinnerIsNeutral(q: map<Key, real>, pool: int, cents: map<Key, int>, held: Key, worker: Key, up: Key, down: Key)
    requires Divides(q, pool, cents) && held in q && worker in q && held != worker && NoTies(q)
    requires (up == held && down == worker) || (up == worker && down == held)
    requires RoundedUp(q, cents, up) && !RoundedUp(q, cents, down)
    ensures TimingIsNeutral(q, cents, held, worker)
  {
    FloorOfSum(q[worker], q[held]);
    assert BetweenRoundings(q, cents, up) && BetweenRoundings(q, cents, down);
    forall k | k in q && k != held && k != worker
      ensures !RoundedUp(q, cents, k) ==> Remainder(q[up]) > Remainder(q[k])
      ensures RoundedUp(q, cents, k) ==> Remainder(q[k]) > Remainder(q[down])
    {
      assert !RoundedUp(q, cents, k) ==> AheadOf(q, up, k);
      assert RoundedUp(q, cents, k) ==> AheadOf(q, k, down);
    }
  }

  lemma SameRoundingIsNeutral(q: map<Key, real>, pool: int, cents: map<Key, int>, held: Key, worker: Key)
    requires Divides(q, pool, cents) && held in q && worker in q && held != worker
    requires RoundedUp(q, cents, held) == RoundedUp(q, cents, worker)
    ensures TimingIsNeutral(q, cents, held, worker) <==>
            BothDownTogetherToo(q, cents, held, worker) || BothUpTogetherToo(q, cents, held, worker)
  {
    FloorOfSum(q[worker], q[held]);
    assert BetweenRoundings(q, cents, held) && BetweenRoundings(q, cents, worker);
  }

  /** Without ties, a worker with a share of their own: the condition is one of three cases. */
  lemma NeutralCases(q: map<Key, real>, pool: int, cents: map<Key, int>, held: Key, worker: Key)
    requires Divides(q, pool, cents) && held in q && worker in q && held != worker && NoTies(q)
    ensures TimingIsNeutral(q, cents, held, worker) <==>
            OneRoundedUp(q, cents, held, worker)
            || BothDownTogetherToo(q, cents, held, worker) || BothUpTogetherToo(q, cents, held, worker)
  {
    if RoundedUp(q, cents, held) && !RoundedUp(q, cents, worker) {
      OneWinnerIsNeutral(q, pool, cents, held, worker, held, worker);
    } else if RoundedUp(q, cents, worker) && !RoundedUp(q, cents, held) {
      OneWinnerIsNeutral(q, pool, cents, held, worker, worker, held);
    } else {
      SameRoundingIsNeutral(q, pool, cents, held, worker);
    }
  }

  // ----- two runs of the engine

  /** One run of the engine before the mapping, one over the backfilled shifts after it. */
  ghost predicate LateAndEarly(
    p: Policy, tips: seq<Tip>, shifts: seq<Shift>, provider: Id, external: Id, worker: Id, late: Allocation, early: Allocation)
  {
    Allocates(p, tips, shifts, late) && Allocates(p, tips, MapShifts(provider, external, worker, shifts), early)
  }

  /** Nobody held, or nobody with a score: then there is nothing to move. */
  lemma NothingToMove(
    p: Policy, tips: seq<Tip>, shifts: seq<Shift>, provider: Id, external: Id, worker: Id, late: Allocation, early: Allocation)
    requires LateAndEarly(p, tips, shifts, provider, external, worker, late, early)
    requires HeldKey(provider, external) !in Scores(p, shifts) || late.total == 0.0
    ensures late.pool == early.pool && CentsByRecipient(early.shares) == Merged(CentsByRecipient(late.shares), HeldKey(provider, external), WorkerKey(worker))
  {
    var held, own, scores := HeldKey(provider, external), WorkerKey(worker), Scores(p, shifts);
    MappingMovesTheScore(p, provider, external, worker, shifts);
    if held in scores {
      MovedKeepsTotal(scores, held, own);
    } else if late.total != 0.0 {
      SplitIsUnique(late.pool, scores, late.shares, early.shares);
      assert held !in KeysOf(late.shares);
    }
  }

  lemma SplitsOfBothRuns(
    p: Policy, tips: seq<Tip>, shifts: seq<Shift>, provider: Id, external: Id, worker: Id, late: Allocation, early: Allocation)
    requires LateAndEarly(p, tips, shifts, provider, external, worker, late, early)
    requires HeldKey(provider, external) in Scores(p, shifts) && late.total != 0.0
    ensures late.pool == early.pool && SumMapReal(Scores(p, shifts)) > 0.0
    ensures SplitsPool(late.pool, Scores(p, shifts), late.shares)
    ensures SplitsPool(late.pool, Moved(Scores(p, shifts), HeldKey(provider, external), WorkerKey(worker)), early.shares)
  {
    MappingMovesTheScore(p, provider, external, worker, shifts);
    MovedKeepsTotal(Scores(p, shifts), HeldKey(provider, external), WorkerKey(worker));
  }

  /** What the merged late cents come to, recipient by recipient. */
  lemma MergedCents(late: seq<Share>, held: Key, worker: Key, k: Key)
    requires held != worker && held in KeysOf(late)
    ensures CentsFor(Merged(CentsByRecipient(late), held, worker), k) ==
            if k == held then 0 else if k == worker then AmountFor(late, worker) + AmountFor(late, held) else AmountFor(late, k)
  {
    LookedUp(late, k);
    LookedUp(late, held);
    LookedUp(late, worker);
  }

  lemma NoneForHeld(pool: int, scores: map<Key, real>, early: seq<Share>, held: Key, worker: Key)
    requires held != worker && SplitsPool(pool, Moved(scores, held, worker), early)
    ensures AmountFor(early, held) == 0
  {
    forall i | 0 <= i < |early| ensures early[i].key != held {
      assert KeysOf(early)[i] in KeysOf(early);
    }
  }

  /** Mapping before or after the calculation changes what anybody gets by at most a cent. */
  lemma MappingTimeMattersByACent(
    p: Policy, tips: seq<Tip>, shifts: seq<Shift>, provider: Id, external: Id, worker: Id, late: Allocation, early: Allocation, k: Key)
    requires LateAndEarly(p, tips, shifts, provider, external, worker, late, early)
    ensures
      var merged := Merged(CentsByRecipient(late.shares), HeldKey(provider, external), WorkerKey(worker));
      -1 <= CentsFor(merged, k) - CentsFor(CentsByRecipient(early.shares), k) <= 1
  {
    var held, own, scores := HeldKey(provider, external), WorkerKey(worker), Scores(p, shifts);
    if held !in scores || late.total == 0.0 {
      NothingToMove(p, tips, shifts, provider, external, worker, late, early);
    } else {
      SplitsOfBothRuns(p, tips, shifts, provider, external, worker, late, early);
      MovedSharesByACent(late.pool, scores, late.shares, early.shares, held, own, k);
    }
  }

  lemma MovedSharesByACent(pool: int, scores: map<Key, real>, late: seq<Share>, early: seq<Share>, held: Key, worker: Key, k: Key)
    requires held in scores && held != worker && SplitsPool(pool, scores, late) && SplitsPool(pool, Moved(scores, held, worker), early)
    ensures -1 <= CentsFor(Merged(CentsByRecipient(late), held, worker), k) - CentsFor(CentsByRecipient(early), k) <= 1
  {
    SplitTimeMattersByACent(pool, scores, held, worker, late, early);
    NoneForHeld(pool, scores, early, held, worker);
    MergedCents(late, held, worker, k);
    LookedUp(early, k);
  }

  lemma LookedUp(shares: seq<Share>, k: Key)
    ensures CentsFor(CentsByRecipient(shares), k) == AmountFor(shares, k)
  {
    if i :| 0 <= i < |shares| && shares[i].key == k {
      assert KeysOf(shares)[i] == k;
    }
  }

  /** The condition, for scores whose split has these cents. Without a score to move there is nothing to meet. */
  ghost predicate NeutralFor(scores: map<Key, real>, pool: int, cents: map<Key, int>, held: Key, worker: Key)
    requires held != worker
  {
    held in scores && SumMapReal(scores) > 0.0 && cents.Keys == scores.Keys ==>
      TimingIsNeutral(QuotaMap(pool, scores), cents, held, worker)
  }

  /** And nobody gets a cent more or less if and only if the late split meets the condition. */
  lemma MappingTimeIsIrrelevantIff(
    p: Policy, tips: seq<Tip>, shifts: seq<Shift>, provider: Id, external: Id, worker: Id, late: Allocation, early: Allocation)
    requires LateAndEarly(p, tips, shifts, provider, external, worker, late, early)
    ensures
      var held, own := HeldKey(provider, external), WorkerKey(worker);
      CentsByRecipient(early.shares) == Merged(CentsByRecipient(late.shares), held, own)
      <==> NeutralFor(Scores(p, shifts), late.pool, CentsByRecipient(late.shares), held, own)
  {
    var held, own, scores := HeldKey(provider, external), WorkerKey(worker), Scores(p, shifts);
    if held !in scores || late.total == 0.0 {
      NothingToMove(p, tips, shifts, provider, external, worker, late, early);
    } else {
      SplitsOfBothRuns(p, tips, shifts, provider, external, worker, late, early);
      MovedSharesNeutral(late.pool, scores, late.shares, early.shares, held, own);
    }
  }

  lemma MovedSharesNeutral(pool: int, scores: map<Key, real>, late: seq<Share>, early: seq<Share>, held: Key, worker: Key)
    requires held in scores && held != worker && SplitsPool(pool, scores, late) && SplitsPool(pool, Moved(scores, held, worker), early)
    ensures CentsByRecipient(early) == Merged(CentsByRecipient(late), held, worker) <==> NeutralFor(scores, pool, CentsByRecipient(late), held, worker)
  {
    SplitsByItsQuotas(pool, scores, late);
    SplitsByItsQuotas(pool, Moved(scores, held, worker), early);
    MovedQuotas(pool, scores, held, worker);
    NobodyMovesIff(QuotaMap(pool, scores), pool, late, early, held, worker);
  }

  /** In particular, when no remainders tie and the worker has no share of their own. */
  lemma WithoutTiesTimingIsIrrelevant(
    p: Policy, tips: seq<Tip>, shifts: seq<Shift>, provider: Id, external: Id, worker: Id, late: Allocation, early: Allocation)
    requires LateAndEarly(p, tips, shifts, provider, external, worker, late, early)
    requires WorkerKey(worker) !in Scores(p, shifts)
    requires SumMapReal(Scores(p, shifts)) > 0.0 ==> NoTies(QuotaMap(late.pool, Scores(p, shifts)))
    ensures CentsByRecipient(early.shares) == Merged(CentsByRecipient(late.shares), HeldKey(provider, external), WorkerKey(worker))
  {
    var held, own, scores := HeldKey(provider, external), WorkerKey(worker), Scores(p, shifts);
    MappingTimeIsIrrelevantIff(p, tips, shifts, provider, external, worker, late, early);
    if held in scores && late.total != 0.0 {
      SplitsByItsQuotas(late.pool, scores, late.shares);
      ListDivides(QuotaMap(late.pool, scores), late.pool, late.shares);
      NewcomersAreNeutral(QuotaMap(late.pool, scores), late.pool, CentsByRecipient(late.shares), held, own);
    }
  }
}

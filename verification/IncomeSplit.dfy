/**
 * The income projector's own proportional split, proved to be the same largest-remainder
 * split as the allocation engine's. Weights are exact fractions; minutes and cents are such.
 */
module IncomeSplit {
  import opened Sums
  import opened Apportionment
  import opened AllocationEngine

  function Ones(n: nat): (r: seq<real>)
    ensures |r| == n && forall i :: 0 <= i < n ==> r[i] == 1.0
  {
    seq(n, i => 1.0)
  }

  lemma {:induction false} SumOfOnes(n: nat)
    ensures SumReal(Ones(n)) == n as real
  {
    if n > 0 {
      assert Ones(n)[1..] == Ones(n - 1);
      SumOfOnes(n - 1);
    }
  }

  /** The weights, or equal ones when they add up to nothing. */
  function Effective(weights: seq<real>): (effective: seq<real>)
    ensures |effective| == |weights|
  {
    if SumReal(weights) > 0.0 then weights else Ones(|weights|)
  }

  lemma EffectiveSum(weights: seq<real>)
    requires weights != []
    ensures SumReal(Effective(weights)) == (if SumReal(weights) > 0.0 then SumReal(weights) else |weights| as real) > 0.0
  {
    SumOfOnes(|weights|);
  }

  /** The largest-remainder split by effective weight, ties to the earlier; nothing among nobody. */
  ghost predicate SplitsByWeight(total: int, weights: seq<real>, slices: seq<int>) {
    if weights == [] then slices == []
    else
      && SumReal(Effective(weights)) > 0.0
      && Apportions(Proportional(total, Effective(weights), SumReal(Effective(weights))), Positions(|weights|), total, slices)
  }

  /** The slices themselves. */
  function Slices(total: int, weights: seq<real>): (slices: seq<int>)
    ensures |slices| == |weights| && SplitsByWeight(total, weights, slices)
  {
    if weights == [] then [] else
      var effective := Effective(weights);
      EffectiveSum(weights);
      ProportionalSum(total, effective, SumReal(effective));
      LargestRemainder(Proportional(total, effective, SumReal(effective)), total)
  }

  lemma BelowModulus(a: nat, n: nat)
    requires a < n
    ensures a % n == a
  {
  }

  /** Rounding down, then the left-over cents around the ranking. The cursor never comes round. */
  method RoundAlong(raw: seq<real>, total: int) returns (slices: seq<int>)
    requires raw != [] && SumReal(raw) == total as real
    ensures Apportions(raw, Positions(|raw|), total, slices)
  {
    slices := Floors(raw);
    FloorSum(raw, slices);
    var remainder := total - SumSeq(slices);
    var order := RankByRemainder(raw, |raw|);
    var cursor := 0;
    while remainder > 0
      invariant 0 <= cursor && 0 <= remainder
      invariant cursor + remainder == total - SumSeq(Floors(raw)) < |order|
      invariant HandedOut(raw, order, cursor, slices)
    {
      HandOutOne(raw, order, cursor, slices);
      BelowModulus(cursor + 1, |order|);
      var index := order[cursor];
      slices := slices[index := slices[index] + 1];
      cursor := (cursor + 1) % |order|;
      remainder := remainder - 1;
    }
    HandedOutApportions(raw, order, total, slices);
  }

  method SplitProportionally(total: int, weights: seq<real>) returns (slices: seq<int>)
    ensures SplitsByWeight(total, weights, slices) && slices == Slices(total, weights)
    ensures SumSeq(slices) == if weights == [] then 0 else total
  {
    if |weights| == 0 { return []; }
    var weightSum := SumReal(weights);
    var effective := if weightSum > 0.0 then weights else Ones(|weights|);
    var effectiveSum := if weightSum > 0.0 then weightSum else |weights| as real;
    EffectiveSum(weights);
    ProportionalSum(total, effective, effectiveSum);
    slices := RoundAlong(Proportional(total, effective, effectiveSum), total);
    SlicesAreDetermined(total, weights, slices, Slices(total, weights));
  }

  /** Same total and weights, same slices. */
  lemma SlicesAreDetermined(total: int, weights: seq<real>, a: seq<int>, b: seq<int>)
    requires SplitsByWeight(total, weights, a) && SplitsByWeight(total, weights, b)
    ensures a == b
  {
    if weights != [] {
      var effective := Effective(weights);
      Unique(Proportional(total, effective, SumReal(effective)), Positions(|weights|), total, a, b);
    }
  }

  /** Every slice is within a cent of its weight's exact part of the total. */
  lemma SliceNearQuota(total: int, weights: seq<real>, slices: seq<int>, i: int)
    requires SplitsByWeight(total, weights, slices) && SumReal(weights) > 0.0 && 0 <= i < |weights|
    ensures |slices| == |weights|
    ensures
      var exact := Quota(total, SumReal(weights))(weights[i]);
      exact - 1.0 < slices[i] as real < exact + 1.0
  {
    FloorOrCeiling(Proportional(total, weights, SumReal(weights)), Positions(|weights|), total, slices, i);
  }

  /** Weights that add up to nothing give an even split, left-over cents to the first, and still not a cent is lost. */
  lemma WeightlessSplitIsEven(total: int, weights: seq<real>, slices: seq<int>)
    requires SplitsByWeight(total, weights, slices) && weights != [] && SumReal(weights) <= 0.0
    ensures |slices| == |weights| && SumSeq(slices) == total
    ensures forall i, j :: 0 <= i < j < |slices| ==> slices[j] <= slices[i] <= slices[j] + 1
  {
    var quotas := Proportional(total, Ones(|weights|), SumReal(Ones(|weights|)));
    forall i, j | 0 <= i < j < |slices| ensures slices[j] <= slices[i] <= slices[j] + 1 {
      assert quotas[i] == quotas[j];
      assert !Beats(quotas, Positions(|weights|), j, i);
    }
  }

  /** On the key-sorted scores of a batch, whatever fractions they are, the split returns exactly the engine's shares. */
  lemma SplitsAsTheEngine(pool: int, scores: map<Key, real>, shares: seq<Share>, slices: seq<int>)
    requires SplitsPool(pool, scores, shares) && SplitsByWeight(pool, ScoresOf(shares), slices)
    ensures slices == AmountsOf(shares)
  {
    var keys, total := KeysOf(shares), SumMapReal(scores);
    forall i, j | 0 <= i < j < |keys| ensures keys[i] != keys[j] {
      assert Less(keys[i], keys[j]);
    }
    SumOfEntries(keys, ScoresOf(shares), scores);
    if shares != [] {
      Unique(Proportional(pool, ScoresOf(shares), total), Positions(|shares|), pool, slices, AmountsOf(shares));
    }
  }

  // ----- whole weights

  function AsReals(weights: seq<int>): (r: seq<real>)
    ensures |r| == |weights| && forall i :: 0 <= i < |weights| ==> r[i] == weights[i] as real
  {
    seq(|weights|, i requires 0 <= i < |weights| => weights[i] as real)
  }

  lemma {:induction false} SumAsReals(weights: seq<int>)
    ensures SumReal(AsReals(weights)) == SumSeq(weights) as real
  {
    if weights != [] {
      assert AsReals(weights)[1..] == AsReals(weights[1..]);
      SumAsReals(weights[1..]);
    }
  }
}

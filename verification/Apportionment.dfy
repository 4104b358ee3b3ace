/**
 * The largest-remainder split as a property of the shares, independent of how they are
 * computed: every quota is rounded down or up, the shares add up to the pool, and whoever
 * is rounded up beats whoever is not. Quotas are exact fractions of a cent.
 */
module Apportionment {
  import opened Sums

  function Remainder(quota: real): real {
    quota - quota.Floor as real
  }

  /** Larger remainder first; among equal remainders the smaller tie-break position. */
  predicate Beats(quotas: seq<real>, tie: seq<int>, i: int, j: int)
    requires 0 <= i < |quotas| == |tie| && 0 <= j < |quotas|
  {
    Remainder(quotas[i]) > Remainder(quotas[j])
    || (Remainder(quotas[i]) == Remainder(quotas[j]) && tie[i] < tie[j])
  }

  ghost predicate Rounded(quotas: seq<real>, shares: seq<int>)
    requires |shares| == |quotas|
  {
    forall i :: 0 <= i < |quotas| ==> quotas[i].Floor <= shares[i] <= quotas[i].Floor + 1
  }

  ghost predicate ByRank(quotas: seq<real>, tie: seq<int>, shares: seq<int>)
    requires |shares| == |quotas| == |tie|
  {
    forall i, j :: 0 <= i < |quotas| && 0 <= j < |quotas| && shares[i] > quotas[i].Floor && shares[j] <= quotas[j].Floor
                   ==> Beats(quotas, tie, i, j)
  }

  ghost predicate Apportions(quotas: seq<real>, tie: seq<int>, pool: int, shares: seq<int>) {
    && |quotas| == |tie| == |shares|
    && SumReal(quotas) == pool as real
    && SumSeq(shares) == pool
    && Rounded(quotas, shares)
    && ByRank(quotas, tie, shares)
  }

  // ----- sums compared entry by entry

  lemma {:induction false} LargerEntriesLargerSum(s: seq<int>, t: seq<int>, i: int)
    requires |s| == |t| && 0 <= i < |s| && s[i] > t[i]
    requires forall j :: 0 <= j < |s| ==> s[j] >= t[j]
    ensures SumSeq(s) > SumSeq(t)
    decreases i
  {
    if i > 0 {
      LargerEntriesLargerSum(s[1..], t[1..], i - 1);
    } else {
      NoSmallerSum(s[1..], t[1..]);
    }
  }

  lemma {:induction false} NoSmallerSum(s: seq<int>, t: seq<int>)
    requires |s| == |t|
    requires forall j :: 0 <= j < |s| ==> s[j] >= t[j]
    ensures SumSeq(s) >= SumSeq(t)
  {
    if s != [] {
      NoSmallerSum(s[1..], t[1..]);
    }
  }

  /** Sum of roundings against sum of quotas. */
  lemma {:induction false} QuotasBelowShares(quotas: seq<real>, shares: seq<int>)
    requires |shares| == |quotas|
    requires forall j :: 0 <= j < |quotas| ==> quotas[j] <= shares[j] as real
    ensures SumReal(quotas) <= SumSeq(shares) as real
    ensures (exists j :: 0 <= j < |quotas| && quotas[j] < shares[j] as real) ==> SumReal(quotas) < SumSeq(shares) as real
  {
    if quotas != [] {
      QuotasBelowShares(quotas[1..], shares[1..]);
      if j :| 0 < j < |quotas| && quotas[j] < shares[j] as real {
        assert quotas[1..][j - 1] < shares[1..][j - 1] as real;
      }
    }
  }

  // ----- what the definition implies

  /** The rule leaves no choice: there is at most one such split. */
  lemma Unique(quotas: seq<real>, tie: seq<int>, pool: int, s: seq<int>, t: seq<int>)
    requires Apportions(quotas, tie, pool, s) && Apportions(quotas, tie, pool, t)
    ensures s == t
  {
    NeverMore(quotas, tie, pool, s, t);
    NeverMore(quotas, tie, pool, t, s);
  }

  lemma NeverMore(quotas: seq<real>, tie: seq<int>, pool: int, s: seq<int>, t: seq<int>)
    requires Apportions(quotas, tie, pool, s) && Apportions(quotas, tie, pool, t)
    ensures forall i :: 0 <= i < |s| ==> s[i] <= t[i]
  {
    forall i | 0 <= i < |s| ensures s[i] <= t[i] {
      if s[i] > t[i] {
        var j := SomewhereSmaller(s, t, i);
        assert false;
      }
    }
  }

  lemma SomewhereSmaller(s: seq<int>, t: seq<int>, i: int) returns (j: int)
    requires |s| == |t| && SumSeq(s) == SumSeq(t) && 0 <= i < |s| && s[i] > t[i]
    ensures 0 <= j < |s| && s[j] < t[j]
  {
    if forall k :: 0 <= k < |s| ==> s[k] >= t[k] {
      LargerEntriesLargerSum(s, t, i);
    }
    j :| 0 <= j < |s| && s[j] < t[j];
  }

  /** A whole quota is paid as it is: nobody without a remainder is rounded up. */
  lemma WholeQuotaIsExact(quotas: seq<real>, tie: seq<int>, pool: int, shares: seq<int>, i: int)
    requires Apportions(quotas, tie, pool, shares) && 0 <= i < |quotas| && Remainder(quotas[i]) == 0.0
    ensures shares[i] as real == quotas[i]
  {
    if shares[i] > quotas[i].Floor {
      forall j | 0 <= j < |quotas| ensures quotas[j] <= shares[j] as real {
        if shares[j] <= quotas[j].Floor {
          assert Beats(quotas, tie, i, j);
        }
      }
      assert quotas[i] < shares[i] as real;
      QuotasBelowShares(quotas, shares);
    }
  }

  /** Each share is the floor or the true ceiling of its quota. */
  lemma FloorOrCeiling(quotas: seq<real>, tie: seq<int>, pool: int, shares: seq<int>, i: int)
    requires Apportions(quotas, tie, pool, shares) && 0 <= i < |quotas|
    ensures quotas[i] - 1.0 < shares[i] as real < quotas[i] + 1.0
  {
    if Remainder(quotas[i]) == 0.0 {
      WholeQuotaIsExact(quotas, tie, pool, shares, i);
    }
  }

  /** A strictly larger quota never gets a smaller share. */
  lemma Monotone(quotas: seq<real>, tie: seq<int>, pool: int, shares: seq<int>, i: int, j: int)
    requires Apportions(quotas, tie, pool, shares) && 0 <= i < |quotas| && 0 <= j < |quotas|
    requires quotas[i] > quotas[j]
    ensures shares[i] >= shares[j]
  {
    if Remainder(quotas[i]) > Remainder(quotas[j]) {
      assert !Beats(quotas, tie, j, i);
    }
  }

  /** Another tie-break moves nobody by more than a cent, and nobody at all when there is no tie. */
  lemma TieBreakMattersByACent(quotas: seq<real>, tie: seq<int>, tie': seq<int>, pool: int, s: seq<int>, t: seq<int>)
    requires Apportions(quotas, tie, pool, s) && Apportions(quotas, tie', pool, t)
    ensures forall i :: 0 <= i < |s| ==> -1 <= s[i] - t[i] <= 1
    ensures (forall i, j :: 0 <= i < j < |quotas| ==> Remainder(quotas[i]) != Remainder(quotas[j])) ==> s == t
  {
    if forall i, j :: 0 <= i < j < |quotas| ==> Remainder(quotas[i]) != Remainder(quotas[j]) {
      forall i, j | 0 <= i < |quotas| && 0 <= j < |quotas| && t[i] > quotas[i].Floor && t[j] <= quotas[j].Floor
        ensures Beats(quotas, tie, i, j)
      {
        assert Beats(quotas, tie', i, j);
        assert i != j;
      }
      assert ByRank(quotas, tie, t);
      Unique(quotas, tie, pool, s, t);
    }
  }

  /** The cents left after rounding everybody down are fewer than the recipients. */
  lemma {:induction false} FloorSum(quotas: seq<real>, floors: seq<int>)
    requires |floors| == |quotas|
    requires forall i :: 0 <= i < |quotas| ==> floors[i] == quotas[i].Floor
    ensures SumSeq(floors) as real <= SumReal(quotas)
    ensures quotas != [] ==> SumReal(quotas) < SumSeq(floors) as real + |quotas| as real
  {
    if quotas != [] {
      FloorSum(quotas[1..], floors[1..]);
    }
  }

  // ----- computing it: rank by remainder, then hand out the left-over cents

  predicate Before(quotas: seq<real>, i: int, j: int)
    requires 0 <= i < |quotas| && 0 <= j < |quotas|
  {
    Remainder(quotas[i]) > Remainder(quotas[j]) || (Remainder(quotas[i]) == Remainder(quotas[j]) && i < j)
  }

  ghost predicate Ranking(quotas: seq<real>, order: seq<int>, n: nat) {
    && n <= |quotas| && |order| == n
    && (forall k :: 0 <= k < n ==> 0 <= order[k] < n)
    && (forall i :: 0 <= i < n ==> i in order)
    && (forall a, b :: 0 <= a < b < n ==> Before(quotas, order[a], order[b]))
  }

  function InsertInto(quotas: seq<real>, order: seq<int>, i: int): (r: seq<int>)
    requires 0 <= i < |quotas|
    requires forall k :: 0 <= k < |order| ==> 0 <= order[k] < i
    requires forall a, b :: 0 <= a < b < |order| ==> Before(quotas, order[a], order[b])
    ensures |r| == |order| + 1
    ensures forall x :: x in r <==> x == i || x in order
    ensures forall a, b :: 0 <= a < b < |r| ==> 0 <= r[a] < |quotas| && 0 <= r[b] < |quotas| && Before(quotas, r[a], r[b])
  {
    if order == [] then [i]
    else if Before(quotas, i, order[0]) then
      assert forall b :: 0 < b < |order| ==> Before(quotas, order[0], order[b]);
      [i] + order
    else
      var rest := InsertInto(quotas, order[1..], i);
      assert forall b :: 0 <= b < |rest| ==> rest[b] in rest;
      [order[0]] + rest
  }

  /** The library sort by descending remainder, equal remainders in list order. */
  function RankByRemainder(quotas: seq<real>, n: nat): (order: seq<int>)
    requires n <= |quotas|
    ensures Ranking(quotas, order, n)
  {
    if n == 0 then [] else
      var before := RankByRemainder(quotas, n - 1);
      var order := InsertInto(quotas, before, n - 1);
      assert forall k :: 0 <= k < n ==> order[k] in order;
      order
  }

  function Floors(quotas: seq<real>): (floors: seq<int>)
    ensures |floors| == |quotas|
    ensures forall i :: 0 <= i < |quotas| ==> floors[i] == quotas[i].Floor
  {
    seq(|quotas|, i requires 0 <= i < |quotas| => quotas[i].Floor)
  }

  function Positions(n: nat): (tie: seq<int>)
    ensures |tie| == n && forall i :: 0 <= i < n ==> tie[i] == i
  {
    seq(n, i => i)
  }

  /** The shares once the first k of the ranking have had their extra cent. */
  ghost predicate HandedOut(quotas: seq<real>, order: seq<int>, k: int, shares: seq<int>) {
    && |shares| == |quotas| == |order| && 0 <= k <= |order|
    && (forall i :: 0 <= i < |quotas| ==> shares[i] == quotas[i].Floor + (if i in order[..k] then 1 else 0))
    && SumSeq(shares) == SumSeq(Floors(quotas)) + k
  }

  lemma {:induction false} SumOfOneMore(s: seq<int>, i: nat)
    requires i < |s|
    ensures SumSeq(s[i := s[i] + 1]) == SumSeq(s) + 1
    decreases i
  {
    if i > 0 {
      SumOfOneMore(s[1..], i - 1);
      assert s[i := s[i] + 1][1..] == s[1..][i - 1 := s[i] + 1];
    }
  }

  lemma HandOutOne(quotas: seq<real>, order: seq<int>, k: int, shares: seq<int>)
    requires Ranking(quotas, order, |quotas|) && HandedOut(quotas, order, k, shares) && k < |order|
    ensures HandedOut(quotas, order, k + 1, shares[order[k] := shares[order[k]] + 1])
  {
    var x := order[k];
    SumOfOneMore(shares, x);
    assert x !in order[..k];
    assert order[..k + 1] == order[..k] + [x];
  }

  /** One extra cent each for the first k of the ranking. */
  function HandOut(quotas: seq<real>, order: seq<int>, k: nat): (shares: seq<int>)
    requires Ranking(quotas, order, |quotas|) && k <= |quotas|
    ensures HandedOut(quotas, order, k, shares)
  {
    if k == 0 then Floors(quotas) else
      var before := HandOut(quotas, order, k - 1);
      HandOutOne(quotas, order, k - 1, before);
      before[order[k - 1] := before[order[k - 1]] + 1]
  }

  /** There always is such a split. */
  function LargestRemainder(quotas: seq<real>, pool: int): (shares: seq<int>)
    requires quotas != [] && SumReal(quotas) == pool as real
    ensures Apportions(quotas, Positions(|quotas|), pool, shares)
  {
    FloorSum(quotas, Floors(quotas));
    var order, k := RankByRemainder(quotas, |quotas|), pool - SumSeq(Floors(quotas));
    HandedOutApportions(quotas, order, pool, HandOut(quotas, order, k));
    HandOut(quotas, order, k)
  }

  lemma WinnerComesFirst(quotas: seq<real>, order: seq<int>, k: int, shares: seq<int>, i: int, j: int)
    requires Ranking(quotas, order, |quotas|) && HandedOut(quotas, order, k, shares)
    requires 0 <= i < |quotas| && 0 <= j < |quotas| && shares[i] > quotas[i].Floor && shares[j] <= quotas[j].Floor
    ensures Before(quotas, i, j)
  {
    assert i in order[..k] && j !in order[..k];
    var a :| 0 <= a < k && order[..k][a] == i;
    assert j in order;
    var b :| 0 <= b < |order| && order[b] == j;
    assert forall c :: 0 <= c < k ==> order[..k][c] == order[c];
    if b < k {
      assert false;
    }
  }

  lemma HandedOutApportions(quotas: seq<real>, order: seq<int>, pool: int, shares: seq<int>)
    requires Ranking(quotas, order, |quotas|) && SumReal(quotas) == pool as real
    requires HandedOut(quotas, order, pool - SumSeq(Floors(quotas)), shares)
    ensures Apportions(quotas, Positions(|quotas|), pool, shares)
  {
    var k := pool - SumSeq(Floors(quotas));
    forall i, j | 0 <= i < |quotas| && 0 <= j < |quotas| && shares[i] > quotas[i].Floor && shares[j] <= quotas[j].Floor
      ensures Beats(quotas, Positions(|quotas|), i, j)
    {
      WinnerComesFirst(quotas, order, k, shares, i, j);
    }
  }

  // ----- proportional quotas

  function Each(f: real -> real, weights: seq<real>): (r: seq<real>)
    ensures |r| == |weights| && forall i :: 0 <= i < |weights| ==> r[i] == f(weights[i])
  {
    seq(|weights|, i requires 0 <= i < |weights| => f(weights[i]))
  }

  /** What a weight is entitled to: its exact part of the pool. */
  function Quota(pool: int, total: real): real -> real
    requires total > 0.0
  {
    (weight: real) => pool as real * weight / total
  }

  function Proportional(pool: int, weights: seq<real>, total: real): seq<real>
    requires total > 0.0
  {
    Each(Quota(pool, total), weights)
  }

  lemma {:induction false} SumScales(weights: seq<real>, factor: real, scaled: seq<real>)
    requires |scaled| == |weights|
    requires forall i :: 0 <= i < |weights| ==> scaled[i] == factor * weights[i]
    ensures SumReal(scaled) == factor * SumReal(weights)
  {
    if weights != [] {
      SumScales(weights[1..], factor, scaled[1..]);
    }
  }

  lemma QuotaIsScaled(pool: int, weight: real, total: real)
    requires total > 0.0
    ensures Quota(pool, total)(weight) == pool as real / total * weight
  {
  }

  lemma ProportionalSum(pool: int, weights: seq<real>, total: real)
    requires total > 0.0 && SumReal(weights) == total
    ensures SumReal(Proportional(pool, weights, total)) == pool as real
  {
    var rate := pool as real / total;
    forall i | 0 <= i < |weights| ensures Proportional(pool, weights, total)[i] == rate * weights[i] {
      QuotaIsScaled(pool, weights[i], total);
    }
    SumScales(weights, rate, Proportional(pool, weights, total));
  }

  // ----- the same split listed in another order

  function At<T>(s: seq<T>, places: seq<int>): (r: seq<T>)
    requires forall i :: 0 <= i < |places| ==> 0 <= places[i] < |s|
    ensures |r| == |places| && forall i :: 0 <= i < |places| ==> r[i] == s[places[i]]
  {
    seq(|places|, i requires 0 <= i < |places| => s[places[i]])
  }

  ghost predicate Permutation(places: seq<int>, n: nat) {
    && |places| == n
    && (forall i :: 0 <= i < n ==> 0 <= places[i] < n)
    && (forall i, j :: 0 <= i < j < n ==> places[i] != places[j])
    && (forall k :: 0 <= k < n ==> k in places)
  }

  lemma SumsIgnoreOrder(s: seq<int>, q: seq<real>, places: seq<int>)
    requires Permutation(places, |s|) && |q| == |s|
    ensures SumSeq(At(s, places)) == SumSeq(s) && SumReal(At(q, places)) == SumReal(q)
  {
    var n := |s|;
    var amounts := map k | 0 <= k < n :: s[k];
    var fractions := map k | 0 <= k < n :: q[k];
    var inOrder := Positions(n);
    forall k ensures 0 <= k < n <==> k in inOrder {
      if 0 <= k < n { assert inOrder[k] == k; }
    }
    SumOfRows(inOrder, s, amounts);
    SumOfRows(places, At(s, places), amounts);
    SumOfEntries(inOrder, q, fractions);
    SumOfEntries(places, At(q, places), fractions);
  }

  lemma Relisted(quotas: seq<real>, tie: seq<int>, pool: int, shares: seq<int>, places: seq<int>)
    requires Apportions(quotas, tie, pool, shares) && Permutation(places, |quotas|)
    ensures Apportions(At(quotas, places), At(tie, places), pool, At(shares, places))
  {
    SumsIgnoreOrder(shares, quotas, places);
    var q, t, s := At(quotas, places), At(tie, places), At(shares, places);
    forall i, j | 0 <= i < |q| && 0 <= j < |q| && s[i] > q[i].Floor && s[j] <= q[j].Floor ensures Beats(q, t, i, j) {
      assert Beats(quotas, tie, places[i], places[j]);
    }
  }

  // ----- two recipients that turn out to be one

  lemma {:induction false} SumSplit(s: seq<int>, n: nat)
    requires n <= |s|
    ensures SumSeq(s) == SumSeq(s[..n]) + SumSeq(s[n..])
    decreases n
  {
    if n > 0 {
      SumSplit(s[1..], n - 1);
      assert s[..n][1..] == s[1..][..n - 1];
      assert s[1..][n - 1..] == s[n..];
    }
  }

  lemma SumWithTail(s: seq<int>, n: nat)
    requires n + 1 == |s| || n + 2 == |s|
    ensures SumSeq(s) == SumSeq(s[..n]) + s[n] + (if n + 2 == |s| then s[n + 1] else 0)
  {
    SumSplit(s, n);
    assert s[n..][1..] == s[n + 1..];
    if n + 2 == |s| {
      assert s[n + 1..][1..] == [];
    }
  }

  /** The two, split together, never win both extra cents the two lose when split apart. */
  lemma TogetherNotTwoMore(rest: seq<real>, a: real, b: real, tie: seq<int>, tie': seq<int>, pool: int, s: seq<int>, t: seq<int>)
    requires Apportions(rest + [a, b], tie, pool, s) && Apportions(rest + [a + b], tie', pool, t)
    ensures t[|rest|] <= s[|rest|] + s[|rest| + 1] + 1
  {
    var n := |rest|;
    var apart, together := rest + [a, b], rest + [a + b];
    SumWithTail(s, n);
    SumWithTail(t, n);
    if t[n] > s[n] + s[n + 1] + 1 {
      forall i | 0 <= i < n ensures t[i] >= s[i] {
        assert apart[i] == together[i] == rest[i];
        if s[i] > rest[i].Floor {
          assert Beats(apart, tie, i, n);
        }
      }
      NoSmallerSum(t[..n], s[..n]);
      assert false;
    }
  }

  /** Nor do the two, split apart, win two cents that they miss together. */
  lemma ApartNotTwoMore(rest: seq<real>, a: real, b: real, tie: seq<int>, tie': seq<int>, pool: int, s: seq<int>, t: seq<int>)
    requires Apportions(rest + [a, b], tie, pool, s) && Apportions(rest + [a + b], tie', pool, t)
    ensures s[|rest|] + s[|rest| + 1] <= t[|rest|] + 1
  {
    var n := |rest|;
    var apart, together := rest + [a, b], rest + [a + b];
    SumWithTail(s, n);
    SumWithTail(t, n);
    if s[n] + s[n + 1] > t[n] + 1 {
      if Remainder(b) == 0.0 {
        WholeQuotaIsExact(apart, tie, pool, s, n + 1);
      }
      forall i | 0 <= i < n ensures s[i] >= t[i] {
        assert apart[i] == together[i] == rest[i];
        if t[i] > rest[i].Floor {
          assert Beats(together, tie', i, n);
        }
      }
      NoSmallerSum(s[..n], t[..n]);
      assert false;
    }
  }

  /** Splitting two recipients apart or as one differs by at most a cent for them. */
  lemma ApartOrTogether(rest: seq<real>, a: real, b: real, tie: seq<int>, tie': seq<int>, pool: int, s: seq<int>, t: seq<int>)
    requires Apportions(rest + [a, b], tie, pool, s) && Apportions(rest + [a + b], tie', pool, t)
    ensures -1 <= s[|rest|] + s[|rest| + 1] - t[|rest|] <= 1
  {
    TogetherNotTwoMore(rest, a, b, tie, tie', pool, s, t);
    ApartNotTwoMore(rest, a, b, tie, tie', pool, s, t);
  }
}

/** Finite sums over maps: the money carried by a set of rows or records. */
module Sums {

  ghost function Pick<K, V>(m: map<K, V>): (k: K)
    requires m != map[]
    ensures k in m
  {
    var k :| k in m; k
  }

  ghost function SumMap<K>(m: map<K, int>): int {
    if m == map[] then 0 else m[Pick(m)] + SumMap(m - {Pick(m)})
  }

  /** The order in which the entries are added does not matter. */
  lemma {:induction false} SumRemove<K>(m: map<K, int>, k: K)
    requires k in m
    ensures SumMap(m) == m[k] + SumMap(m - {k})
    decreases |m|
  {
    var p := Pick(m);
    if p != k {
      SumRemove(m - {p}, k);
      SumRemove(m - {k}, p);
      assert m - {p} - {k} == m - {k} - {p};
    }
  }

  lemma SumUpdate<K>(m: map<K, int>, k: K, v: int)
    ensures SumMap(m[k := v]) == SumMap(m) + v - (if k in m then m[k] else 0)
  {
    SumRemove(m[k := v], k);
    assert m[k := v] - {k} == m - {k};
    if k in m {
      SumRemove(m, k);
    } else {
      assert m - {k} == m;
    }
  }

  /** A part of a non-negative total, each entry at most its share, is at most the total. */
  lemma {:induction false} SumAtMost<K>(part: map<K, int>, whole: map<K, int>)
    requires part.Keys <= whole.Keys
    requires forall k :: k in part ==> part[k] <= whole[k]
    requires forall k :: k in whole ==> 0 <= whole[k]
    ensures SumMap(part) <= SumMap(whole)
    decreases |whole|
  {
    if whole != map[] {
      var k := Pick(whole);
      SumRemove(whole, k);
      if k in part {
        SumRemove(part, k);
      } else {
        assert part - {k} == part;
      }
      SumAtMost(part - {k}, whole - {k});
    }
  }

  lemma {:induction false} SumPositive<K>(m: map<K, int>)
    requires forall k :: k in m ==> 0 < m[k]
    ensures 0 <= SumMap(m)
    ensures SumMap(m) == 0 <==> m == map[]
    decreases |m|
  {
    if m != map[] {
      SumPositive(m - {Pick(m)});
    }
  }

  function SumSeq(s: seq<int>): int {
    if s == [] then 0 else s[0] + SumSeq(s[1..])
  }

  /** Rows listed under distinct keys carry exactly the list's total. */
  lemma {:induction false} SumOfRows<K>(ids: seq<K>, amounts: seq<int>, m: map<K, int>)
    requires |ids| == |amounts|
    requires forall i, j :: 0 <= i < j < |ids| ==> ids[i] != ids[j]
    requires forall k :: k in m <==> k in ids
    requires forall i :: 0 <= i < |ids| ==> m[ids[i]] == amounts[i]
    ensures SumMap(m) == SumSeq(amounts)
    decreases |ids|
  {
    if ids == [] {
      assert m == map[];
    } else {
      SumRemove(m, ids[0]);
      var rest := m - {ids[0]};
      forall k ensures k in rest <==> k in ids[1..] {
        if k in ids[1..] {
          var i :| 0 <= i < |ids[1..]| && ids[1..][i] == k;
          assert ids[i + 1] == k;
        }
      }
      SumOfRows(ids[1..], amounts[1..], rest);
    }
  }

  // ----- the same for exact fractions

  ghost function SumMapReal<K>(m: map<K, real>): real {
    if m == map[] then 0.0 else m[Pick(m)] + SumMapReal(m - {Pick(m)})
  }

  lemma {:induction false} SumRemoveReal<K>(m: map<K, real>, k: K)
    requires k in m
    ensures SumMapReal(m) == m[k] + SumMapReal(m - {k})
    decreases |m|
  {
    var p := Pick(m);
    if p != k {
      SumRemoveReal(m - {p}, k);
      SumRemoveReal(m - {k}, p);
      assert m - {p} - {k} == m - {k} - {p};
    }
  }

  function SumReal(s: seq<real>): real {
    if s == [] then 0.0 else s[0] + SumReal(s[1..])
  }

  lemma {:induction false} SumOfEntries<K>(keys: seq<K>, amounts: seq<real>, m: map<K, real>)
    requires |keys| == |amounts|
    requires forall i, j :: 0 <= i < j < |keys| ==> keys[i] != keys[j]
    requires forall k :: k in m <==> k in keys
    requires forall i :: 0 <= i < |keys| ==> m[keys[i]] == amounts[i]
    ensures SumMapReal(m) == SumReal(amounts)
    decreases |keys|
  {
    if keys == [] {
      assert m == map[];
    } else {
      SumRemoveReal(m, keys[0]);
      var rest := m - {keys[0]};
      forall k ensures k in rest <==> k in keys[1..] {
        if k in keys[1..] {
          var i :| 0 <= i < |keys[1..]| && keys[1..][i] == k;
          assert keys[i + 1] == k;
        }
      }
      SumOfEntries(keys[1..], amounts[1..], rest);
    }
  }

  // ----- totals over evidence, in whatever order it is read

  function Total<T>(f: T -> int, s: seq<T>): int {
    if s == [] then 0 else f(s[0]) + Total(f, s[1..])
  }

  function TotalReal<T>(f: T -> real, s: seq<T>): real {
    if s == [] then 0.0 else f(s[0]) + TotalReal(f, s[1..])
  }

  lemma {:induction false} TotalAppend<T>(f: T -> int, g: T -> real, s: seq<T>, x: T)
    ensures Total(f, s + [x]) == Total(f, s) + f(x)
    ensures TotalReal(g, s + [x]) == TotalReal(g, s) + g(x)
  {
    if s == [] {
      assert s + [x] == [x];
    } else {
      TotalAppend(f, g, s[1..], x);
      assert (s + [x])[1..] == s[1..] + [x];
    }
  }

  lemma {:induction false} TotalTakesOut<T>(f: T -> int, g: T -> real, s: seq<T>, i: nat)
    requires i < |s|
    ensures Total(f, s) == f(s[i]) + Total(f, s[..i] + s[i + 1..])
    ensures TotalReal(g, s) == g(s[i]) + TotalReal(g, s[..i] + s[i + 1..])
    decreases i
  {
    var without := s[..i] + s[i + 1..];
    if i == 0 {
      assert without == s[1..];
    } else {
      TotalTakesOut(f, g, s[1..], i - 1);
      assert without[1..] == s[1..][..i - 1] + s[1..][i..];
    }
  }

  lemma TakeOut<T>(s: seq<T>, i: nat)
    requires i < |s|
    ensures multiset(s[..i] + s[i + 1..]) == multiset(s) - multiset{s[i]}
  {
    assert s == s[..i] + ([s[i]] + s[i + 1..]);
  }

  lemma PlaceIn<T>(s: seq<T>, t: seq<T>) returns (i: nat)
    requires multiset(s) == multiset(t) && s != []
    ensures i < |t| && t[i] == s[0] && multiset(s[1..]) == multiset(t[..i] + t[i + 1..])
  {
    assert s[0] in multiset(t);
    i :| 0 <= i < |t| && t[i] == s[0];
    TakeOut(t, i);
    TakeOut(s, 0);
    assert s[..0] + s[1..] == s[1..];
  }

  lemma {:induction false} TotalIgnoresOrder<T>(f: T -> int, g: T -> real, s: seq<T>, t: seq<T>)
    requires multiset(s) == multiset(t)
    ensures Total(f, s) == Total(f, t) && TotalReal(g, s) == TotalReal(g, t)
    decreases |s|
  {
    assert |s| == |multiset(s)| == |multiset(t)| == |t|;
    if s != [] {
      var i := PlaceIn(s, t);
      var without := t[..i] + t[i + 1..];
      TotalTakesOut(f, g, t, i);
      TotalIgnoresOrder(f, g, s[1..], without);
    }
  }
}

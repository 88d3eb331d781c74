/** What several modules share: sums over finite maps, a pigeonhole bound, and the newest part of a sequence. */
module Collections {

  datatype Option<+T> = None | Some(value: T)

  /** The sum of all values of a finite map. */
  ghost function SumMap<K>(m: map<K, int>): int
    decreases |m|
  {
    if m == map[] then 0
    else
      var k :| k in m;
      m[k] + SumMap(m - {k})
  }

  /** The sum does not depend on which key is taken out first. */
  lemma {:induction false} SumMapRemove<K>(m: map<K, int>, k: K)
    requires k in m
    ensures SumMap(m) == m[k] + SumMap(m - {k})
    decreases |m|
  {
    var j :| j in m && SumMap(m) == m[j] + SumMap(m - {j});
    if j != k {
      SumMapRemove(m - {j}, k);
      SumMapRemove(m - {k}, j);
      assert m - {j} - {k} == m - {k} - {j};
    }
  }

  /** Writing one entry changes the sum by exactly the change of that entry. */
  lemma SumMapUpdate<K>(m: map<K, int>, k: K, v: int)
    ensures SumMap(m[k := v]) == SumMap(m) + v - (if k in m then m[k] else 0)
  {
    SumMapRemove(m[k := v], k);
    assert m[k := v] - {k} == m - {k};
    if k in m {
      SumMapRemove(m, k);
    } else {
      assert m - {k} == m;
    }
  }

  lemma {:induction false} SumMapNonNegative<K>(m: map<K, int>)
    requires forall k :: k in m ==> m[k] >= 0
    ensures SumMap(m) >= 0
    ensures forall k :: k in m ==> m[k] <= SumMap(m)
    decreases |m|
  {
    if m != map[] {
      var k :| k in m && SumMap(m) == m[k] + SumMap(m - {k});
      SumMapNonNegative(m - {k});
      forall j | j in m ensures m[j] <= SumMap(m) {
        if j != k { assert j in m - {k}; }
      }
    }
  }

  lemma {:induction false} SumMapPart<K>(part: map<K, int>, whole: map<K, int>)
    requires forall k :: k in part ==> k in whole && part[k] == whole[k]
    requires forall k :: k in whole ==> whole[k] >= 0
    ensures SumMap(part) <= SumMap(whole)
    decreases |part|
  {
    if part == map[] {
      SumMapNonNegative(whole);
    } else {
      var k :| k in part;
      SumMapRemove(part, k);
      SumMapRemove(whole, k);
      SumMapPart(part - {k}, whole - {k});
    }
  }

  lemma {:induction false} SumMapGrows<K>(a: map<K, int>, b: map<K, int>, c: map<K, int>)
    requires a.Keys == b.Keys == c.Keys
    requires forall k :: k in a ==> a[k] + b[k] <= c[k]
    ensures SumMap(a) + SumMap(b) <= SumMap(c)
    decreases |a|
  {
    if a.Keys == {} {
      assert a == map[] && b == map[] && c == map[];
    } else {
      var k :| k in a;
      SumMapRemove(a, k);
      SumMapRemove(b, k);
      SumMapRemove(c, k);
      SumMapGrows(a - {k}, b - {k}, c - {k});
    }
  }

  lemma {:induction false} SumMapZero<K>(m: map<K, int>)
    requires forall k :: k in m ==> m[k] == 0
    ensures SumMap(m) == 0
    decreases |m|
  {
    if m != map[] {
      var k :| k in m;
      SumMapRemove(m, k);
      SumMapZero(m - {k});
    }
  }

  ghost function SetOf<T>(s: seq<T>): set<T> { set x | x in s }

  ghost predicate Distinct<T>(s: seq<T>) {
    forall i, j :: 0 <= i < j < |s| ==> s[i] != s[j]
  }

  /** Pigeonhole: distinct integers drawn from [lo, hi) number at most hi - lo. */
  lemma {:induction false} DistinctInRange(s: seq<int>, lo: int, hi: int)
    requires Distinct(s)
    requires forall i :: 0 <= i < |s| ==> lo <= s[i] < hi
    requires lo <= hi
    ensures |s| <= hi - lo
    decreases hi - lo
  {
    if |s| == 0 {
      return;
    }
    assert lo <= s[0] < hi;
    if i :| 0 <= i < |s| && s[i] == hi - 1 {
      DistinctInRange(s[..i] + s[i + 1..], lo, hi - 1);
    } else {
      DistinctInRange(s, lo, hi - 1);
    }
  }

  /** The last n elements of a history, or all of them. */
  function Newest<T>(s: seq<T>, n: nat): seq<T> {
    if |s| <= n then s else s[|s| - n..]
  }

  lemma NewestOfNewest<T>(s: seq<T>, m: nat, n: nat)
    requires n <= m
    ensures Newest(Newest(s, m), n) == Newest(s, n)
  {
  }

  lemma SameMembers<T>(s: seq<T>, t: seq<T>)
    requires multiset(s) == multiset(t)
    ensures forall x :: x in s <==> x in t
  {
    forall x ensures x in s <==> x in t {
      assert x in s <==> x in multiset(s);
      assert x in t <==> x in multiset(t);
    }
  }

  /** The i-th element taken to the front. */
  lemma FrontIsPermutation<T>(s: seq<T>, i: nat)
    requires i < |s|
    ensures multiset([s[i]] + (s[..i] + s[i + 1..])) == multiset(s)
  {
    assert s == s[..i] + ([s[i]] + s[i + 1..]);
  }

  /** Exchanging the head with the k-th element of the tail. */
  lemma SwapIsPermutation<T>(x: T, xs: seq<T>, k: nat)
    requires k < |xs|
    ensures multiset([xs[k]] + xs[k := x]) == multiset([x] + xs)
  {
    assert multiset(xs[k := x]) == multiset(xs) - multiset{xs[k]} + multiset{x};
  }

  lemma HeadAndLast<T>(h: T, xs: seq<T>)
    requires |xs| > 0
    ensures [h] + xs == ([h] + xs[..|xs| - 1]) + [xs[|xs| - 1]]
  {
  }
}

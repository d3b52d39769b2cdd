/** Sums over table rows and over the values of a map, with the few laws the
    accounting proofs need: append, in-place update, pointwise comparison,
    grouping by a key, and re-indexing a map by the rows that mention its keys. */
module Sums {
  import opened Options

  function Sum<T>(s: seq<T>, f: T -> int): int {
    if s == [] then 0 else Sum(s[..|s| - 1], f) + f(s[|s| - 1])
  }

  lemma SumAppend<T>(s: seq<T>, x: T, f: T -> int)
    ensures Sum(s + [x], f) == Sum(s, f) + f(x)
  {
    assert (s + [x])[..|s|] == s;
  }

  lemma SumPrefix<T>(s: seq<T>, n: nat, f: T -> int)
    requires n < |s|
    ensures Sum(s[..n + 1], f) == Sum(s[..n], f) + f(s[n])
  {
    assert s[..n + 1] == s[..n] + [s[n]];
    SumAppend(s[..n], s[n], f);
  }

  lemma {:induction false} SumUpdate<T>(s: seq<T>, i: nat, x: T, f: T -> int)
    requires i < |s|
    ensures Sum(s[i := x], f) == Sum(s, f) - f(s[i]) + f(x)
  {
    var last := |s| - 1;
    if i == last {
      assert s[i := x][..last] == s[..last];
    } else {
      assert s[i := x][..last] == s[..last][i := x];
      SumUpdate(s[..last], i, x, f);
    }
  }

  lemma {:induction false} SumNonnegative<T>(s: seq<T>, f: T -> int)
    requires forall i :: 0 <= i < |s| ==> 0 <= f(s[i])
    ensures 0 <= Sum(s, f)
  {
    if s != [] {
      SumNonnegative(s[..|s| - 1], f);
    }
  }

  lemma {:induction false} SumZero<T>(s: seq<T>, f: T -> int)
    requires forall i :: 0 <= i < |s| ==> f(s[i]) == 0
    ensures Sum(s, f) == 0
  {
    if s != [] {
      SumZero(s[..|s| - 1], f);
    }
  }

  /** Two row sets whose terms compare position by position compare as sums. */
  lemma {:induction false} SumPairwise<S, T>(s: seq<S>, f: S -> int, t: seq<T>, g: T -> int)
    requires |s| == |t| && forall i :: 0 <= i < |s| ==> f(s[i]) <= g(t[i])
    ensures Sum(s, f) <= Sum(t, g)
  {
    if s != [] {
      SumPairwise(s[..|s| - 1], f, t[..|t| - 1], g);
    }
  }

  /** Sum of the values of a finite map. */
  ghost function Total<K>(m: map<K, int>): int {
    if m == map[] then 0 else var k :| k in m; m[k] + Total(m - {k})
  }

  lemma {:induction false} TotalRemove<K>(m: map<K, int>, k: K)
    requires k in m
    ensures Total(m) == m[k] + Total(m - {k})
    decreases |m|
  {
    assert m != map[];
    var j :| j in m && Total(m) == m[j] + Total(m - {j});
    if j != k {
      TotalRemove(m - {j}, k);
      TotalRemove(m - {k}, j);
      assert m - {j} - {k} == m - {k} - {j};
    }
  }

  lemma TotalPut<K>(m: map<K, int>, k: K, v: int)
    ensures Total(m[k := v]) == Total(m) - (if k in m then m[k] else 0) + v
  {
    TotalRemove(m[k := v], k);
    if k in m {
      TotalRemove(m, k);
      assert m[k := v] - {k} == m - {k};
    } else {
      assert m[k := v] - {k} == m;
    }
  }

  lemma {:induction false} TotalNonnegative<K>(m: map<K, int>)
    requires forall k :: k in m ==> 0 <= m[k]
    ensures 0 <= Total(m)
    decreases |m|
  {
    if m != map[] {
      var k :| k in m;
      TotalRemove(m, k);
      TotalNonnegative(m - {k});
    }
  }

  /** The value a map gives to an optional key, 0 when there is none. */
  function At<K(==)>(m: map<K, int>): Option<K> -> int {
    (k: Option<K>) => if k.Some? && k.value in m then m[k.value] else 0
  }

  ghost predicate DistinctKeys<K>(ks: seq<Option<K>>) {
    forall i, j :: 0 <= i < j < |ks| && ks[i].Some? ==> ks[i] != ks[j]
  }

  /** Rows that mention pairwise different keys of a nonnegative map account for
      at most its total, and for exactly its total when they mention every key. */
  lemma {:induction false} Reindex<K>(ks: seq<Option<K>>, m: map<K, int>)
    requires DistinctKeys(ks)
    requires forall k :: k in m ==> 0 <= m[k]
    ensures Sum(ks, At(m)) <= Total(m)
    ensures (forall k :: k in m ==> Some(k) in ks) ==> Sum(ks, At(m)) == Total(m)
    decreases |ks|
  {
    if ks == [] {
      TotalNonnegative(m);
    } else {
      var front, last := ks[..|ks| - 1], ks[|ks| - 1];
      if last.Some? && last.value in m {
        var k := last.value;
        var rest := m - {k};
        Reindex(front, rest);
        TotalRemove(m, k);
        SameTerms(front, At(m), At(rest));
        if forall k' :: k' in m ==> Some(k') in ks {
          forall k' | k' in rest ensures Some(k') in front {
            assert Some(k') in ks;
          }
        }
      } else {
        Reindex(front, m);
        if forall k' :: k' in m ==> Some(k') in ks {
          forall k' | k' in m ensures Some(k') in front {
            assert Some(k') in ks;
          }
        }
      }
    }
  }

  lemma {:induction false} SameTerms<T>(s: seq<T>, f: T -> int, g: T -> int)
    requires forall i :: 0 <= i < |s| ==> f(s[i]) == g(s[i])
    ensures Sum(s, f) == Sum(s, g)
  {
    if s != [] {
      SameTerms(s[..|s| - 1], f, g);
    }
  }
}

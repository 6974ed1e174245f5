/**
 * Sums over the rows of a table (a map keyed by id) and over a list of keys,
 * the two shapes in which the store's `aggregate` and the actions' loops
 * add amounts up.
 */
module Sums {

  /** The sum of `f` over the values of `m`. */
  ghost function SumMap<K, V>(m: map<K, V>, f: V -> int): int
    decreases |m|
  {
    if |m| == 0 then 0
    else
      var k :| k in m;
      f(m[k]) + SumMap(m - {k}, f)
  }

  function Restrict<K, V>(m: map<K, V>, s: set<K>): (r: map<K, V>)
    ensures r.Keys == m.Keys * s
    ensures forall k :: k in r ==> r[k] == m[k]
  {
    map k | k in m && k in s :: m[k]
  }

  lemma MapCardRemove<K, V>(m: map<K, V>, k: K)
    requires k in m
    ensures |m - {k}| == |m| - 1
  {
    assert (m - {k}).Keys == m.Keys - {k};
  }

  /** One unfolding of SumMap, naming the row it takes out. */
  lemma SumMapUnfold<K, V>(m: map<K, V>, f: V -> int) returns (j: K)
    requires |m| > 0
    ensures j in m && SumMap(m, f) == f(m[j]) + SumMap(m - {j}, f)
  {
    j :| j in m && SumMap(m, f) == f(m[j]) + SumMap(m - {j}, f);
  }

  /** Any row may be taken out first: the sum does not depend on the choice. */
  lemma {:induction false} SumMapRemove<K, V>(m: map<K, V>, f: V -> int, k: K)
    requires k in m
    ensures SumMap(m, f) == f(m[k]) + SumMap(m - {k}, f)
    decreases |m|
  {
    MapCardRemove(m, k);
    var j := SumMapUnfold(m, f);
    if j != k {
      var mj, mk := m - {j}, m - {k};
      MapCardRemove(m, j);
      assert k in mj && j in mk;
      SumMapRemove(mj, f, k);
      SumMapRemove(mk, f, j);
      MinusTwo(m, j, k);
    }
  }

  lemma MinusTwo<K, V>(m: map<K, V>, j: K, k: K)
    ensures (m - {j}) - {k} == (m - {k}) - {j}
  {
  }

  lemma SumMapEmpty<K, V>(m: map<K, V>, f: V -> int)
    requires |m| == 0
    ensures SumMap(m, f) == 0
  {
  }

  lemma SumMapInsert<K, V>(m: map<K, V>, f: V -> int, k: K, v: V)
    requires k !in m
    ensures SumMap(m[k := v], f) == SumMap(m, f) + f(v)
  {
    SumMapRemove(m[k := v], f, k);
    assert m[k := v] - {k} == m;
  }

  lemma SumMapUpdate<K, V>(m: map<K, V>, f: V -> int, k: K, v: V)
    requires k in m
    ensures SumMap(m[k := v], f) == SumMap(m, f) - f(m[k]) + f(v)
  {
    SumMapRemove(m, f, k);
    SumMapRemove(m[k := v], f, k);
    assert m[k := v] - {k} == m - {k};
  }

  /** Deleting the rows with keys in `s` takes away exactly their sum. */
  lemma {:induction false} SumMapSplit<K, V>(m: map<K, V>, f: V -> int, s: set<K>)
    ensures SumMap(m, f) == SumMap(m - s, f) + SumMap(Restrict(m, s), f)
    decreases |m|
  {
    if |m| == 0 {
      assert |Restrict(m, s)| == 0 by { assert Restrict(m, s).Keys == {}; }
      assert |m - s| == 0 by { assert (m - s).Keys == {}; }
    } else {
      var k :| k in m;
      MapCardRemove(m, k);
      SumMapSplit(m - {k}, f, s);
      SumMapRemove(m, f, k);
      if k in s {
        SplitStepInside(m, f, s, k);
      } else {
        SplitStepOutside(m, f, s, k);
      }
    }
  }

  lemma SplitStepInside<K, V>(m: map<K, V>, f: V -> int, s: set<K>, k: K)
    requires k in m && k in s
    ensures SumMap(m - s, f) == SumMap((m - {k}) - s, f)
    ensures SumMap(Restrict(m, s), f) == f(m[k]) + SumMap(Restrict(m - {k}, s), f)
  {
    MinusAbsorbs(m, s, k);
    SumMapRemove(Restrict(m, s), f, k);
    RestrictMinus(m, s, k);
  }

  lemma SplitStepOutside<K, V>(m: map<K, V>, f: V -> int, s: set<K>, k: K)
    requires k in m && k !in s
    ensures SumMap(Restrict(m, s), f) == SumMap(Restrict(m - {k}, s), f)
    ensures SumMap(m - s, f) == f(m[k]) + SumMap((m - {k}) - s, f)
  {
    RestrictIgnores(m, s, k);
    SumMapRemove(m - s, f, k);
    MinusSwap(m, s, k);
  }

  lemma MinusAbsorbs<K, V>(m: map<K, V>, s: set<K>, k: K)
    requires k in s
    ensures m - s == (m - {k}) - s
  {
  }

  lemma MinusSwap<K, V>(m: map<K, V>, s: set<K>, k: K)
    ensures (m - s) - {k} == (m - {k}) - s
  {
  }

  lemma RestrictMinus<K, V>(m: map<K, V>, s: set<K>, k: K)
    ensures Restrict(m, s) - {k} == Restrict(m - {k}, s)
  {
  }

  lemma RestrictIgnores<K, V>(m: map<K, V>, s: set<K>, k: K)
    requires k !in s
    ensures Restrict(m, s) == Restrict(m - {k}, s)
  {
  }

  /** Two functions that agree on every row have the same sum. */
  lemma {:induction false} SumMapAgree<K, V>(m: map<K, V>, f: V -> int, g: V -> int)
    requires forall k :: k in m ==> f(m[k]) == g(m[k])
    ensures SumMap(m, f) == SumMap(m, g)
    decreases |m|
  {
    if |m| > 0 {
      var k :| k in m;
      SumMapRemove(m, f, k);
      SumMapRemove(m, g, k);
      MapCardRemove(m, k);
      SumMapAgree(m - {k}, f, g);
    }
  }

  /** A term that is the sum of two terms: the sum splits likewise. */
  lemma {:induction false} SumMapAdd<K, V>(m: map<K, V>, f: V -> int, g: V -> int, h: V -> int)
    requires forall k :: k in m ==> h(m[k]) == f(m[k]) + g(m[k])
    ensures SumMap(m, h) == SumMap(m, f) + SumMap(m, g)
    decreases |m|
  {
    if |m| > 0 {
      var k :| k in m;
      SumMapRemove(m, f, k);
      SumMapRemove(m, g, k);
      SumMapRemove(m, h, k);
      MapCardRemove(m, k);
      SumMapAdd(m - {k}, f, g, h);
    }
  }

  /** A sum of zero terms is zero. */
  lemma {:induction false} SumMapZero<K, V>(m: map<K, V>, f: V -> int)
    requires forall k :: k in m ==> f(m[k]) == 0
    ensures SumMap(m, f) == 0
    decreases |m|
  {
    if |m| > 0 {
      var k :| k in m;
      SumMapRemove(m, f, k);
      MapCardRemove(m, k);
      SumMapZero(m - {k}, f);
    }
  }

  /** Only one row contributes: the sum is its term. */
  lemma SumMapSingle<K, V>(m: map<K, V>, f: V -> int, k: K)
    requires k in m
    requires forall j :: j in m && j != k ==> f(m[j]) == 0
    ensures SumMap(m, f) == f(m[k])
  {
    SumMapRemove(m, f, k);
    SumMapZero(m - {k}, f);
  }

  /** A sum of non-negative terms is non-negative. */
  lemma {:induction false} SumMapNonNegative<K, V>(m: map<K, V>, f: V -> int)
    requires forall k :: k in m ==> f(m[k]) >= 0
    ensures SumMap(m, f) >= 0
    decreases |m|
  {
    if |m| > 0 {
      var k :| k in m;
      SumMapRemove(m, f, k);
      MapCardRemove(m, k);
      SumMapNonNegative(m - {k}, f);
    }
  }

  /** Two maps with the same keys and the same value at each key are equal. */
  lemma SameEntries<K, V>(m: map<K, V>, n: map<K, V>)
    requires m.Keys == n.Keys
    requires forall k :: k in m ==> m[k] == n[k]
    ensures m == n
  {
  }

  /** The set of the elements of a list. */
  function Elements<K>(ks: seq<K>): set<K> {
    set k | k in ks
  }

  predicate Distinct<K(==)>(ks: seq<K>) {
    forall i, j :: 0 <= i < j < |ks| ==> ks[i] != ks[j]
  }

  /** The sum of `f` over the rows of `m` listed by `ks`, in that order. */
  function SumKeys<K, V>(m: map<K, V>, ks: seq<K>, f: V -> int): int
    requires forall i :: 0 <= i < |ks| ==> ks[i] in m
  {
    if ks == [] then 0 else SumKeys(m, ks[..|ks| - 1], f) + f(m[ks[|ks| - 1]])
  }

  /** Adding up a duplicate-free listing of the rows is the table's sum over them. */
  lemma {:induction false} SumKeysIsSumMap<K, V>(m: map<K, V>, ks: seq<K>, f: V -> int)
    requires forall i :: 0 <= i < |ks| ==> ks[i] in m
    requires Distinct(ks)
    ensures SumKeys(m, ks, f) == SumMap(Restrict(m, Elements(ks)), f)
    decreases |ks|
  {
    if ks == [] {
      assert |Restrict(m, Elements(ks))| == 0 by {
        assert Restrict(m, Elements(ks)).Keys == {};
      }
    } else {
      var n := |ks| - 1;
      var front := ks[..n];
      SumKeysIsSumMap(m, front, f);
      ElementsOfSnoc(ks);
      RestrictInsert(m, f, Elements(front), ks[n]);
    }
  }

  lemma ElementsOfSnoc<K>(ks: seq<K>)
    requires ks != [] && Distinct(ks)
    ensures Elements(ks) == Elements(ks[..|ks| - 1]) + {ks[|ks| - 1]}
    ensures ks[|ks| - 1] !in Elements(ks[..|ks| - 1])
  {
    var n := |ks| - 1;
    assert ks == ks[..n] + [ks[n]];
    assert forall i :: 0 <= i < n ==> ks[..n][i] != ks[n];
  }

  lemma RestrictInsert<K, V>(m: map<K, V>, f: V -> int, s: set<K>, x: K)
    requires x in m && x !in s
    ensures SumMap(Restrict(m, s + {x}), f) == SumMap(Restrict(m, s), f) + f(m[x])
  {
    assert Restrict(m, s + {x}) == Restrict(m, s)[x := m[x]];
    SumMapInsert(Restrict(m, s), f, x, m[x]);
  }

  /** A duplicate-free list has as many elements as the set of its elements. */
  lemma {:induction false} DistinctCardinality<K>(ks: seq<K>)
    requires Distinct(ks)
    ensures |Elements(ks)| == |ks|
    decreases |ks|
  {
    if ks != [] {
      var n := |ks| - 1;
      DistinctCardinality(ks[..n]);
      ElementsOfSnoc(ks);
    }
  }

  /** The sum of `f` over a list of rows. */
  function SumSeq<V>(s: seq<V>, f: V -> int): int {
    if s == [] then 0 else SumSeq(s[..|s| - 1], f) + f(s[|s| - 1])
  }

  lemma {:induction false} SumSeqOfRows<K, V>(m: map<K, V>, ks: seq<K>, rows: seq<V>, f: V -> int)
    requires forall i :: 0 <= i < |ks| ==> ks[i] in m
    requires |rows| == |ks| && forall i :: 0 <= i < |ks| ==> rows[i] == m[ks[i]]
    ensures SumSeq(rows, f) == SumKeys(m, ks, f)
    decreases |ks|
  {
    if ks != [] {
      SumSeqOfRows(m, ks[..|ks| - 1], rows[..|rows| - 1], f);
    }
  }

  /** The keys of the rows that satisfy `p`: a `where` clause. */
  function Matching<K, V>(m: map<K, V>, p: V -> bool): set<K> {
    set k | k in m && p(m[k])
  }

  /** `aggregate({ where: p, _sum: f })`, with an empty match summing to 0. */
  ghost function SumWhere<K, V>(m: map<K, V>, p: V -> bool, f: V -> int): int {
    SumMap(Restrict(m, Matching(m, p)), f)
  }

  /** No matching row: the aggregate is 0. */
  lemma SumWhereOfNone<K, V>(m: map<K, V>, p: V -> bool, f: V -> int)
    requires forall k :: k in m ==> !p(m[k])
    ensures SumWhere(m, p, f) == 0
  {
    assert Restrict(m, Matching(m, p)).Keys == {};
    SumMapEmpty(Restrict(m, Matching(m, p)), f);
  }

  /** A sum of non-negative values is non-negative. */
  lemma SumWhereNonNegative<K, V>(m: map<K, V>, p: V -> bool, f: V -> int)
    requires forall k :: k in m ==> f(m[k]) >= 0
    ensures SumWhere(m, p, f) >= 0
  {
    SumMapNonNegative(Restrict(m, Matching(m, p)), f);
  }

  /** The rows read for a selection are exactly the stored values the filter accepts. */
  lemma RowsAreMatching<K, V>(m: map<K, V>, ks: seq<K>, rows: seq<V>, p: V -> bool)
    requires forall i :: 0 <= i < |ks| ==> ks[i] in m
    requires Elements(ks) == Matching(m, p)
    requires |rows| == |ks| && forall i :: 0 <= i < |ks| ==> rows[i] == m[ks[i]]
    ensures forall v :: v in rows <==> v in m.Values && p(v)
  {
    forall v
      ensures v in rows <==> v in m.Values && p(v)
    {
      if v in rows {
        var i :| 0 <= i < |rows| && rows[i] == v;
        assert ks[i] in Elements(ks);
      }
      if v in m.Values && p(v) {
        var k :| k in m && m[k] == v;
        assert k in Matching(m, p);
        var i :| 0 <= i < |ks| && ks[i] == k;
        assert rows[i] == v;
      }
    }
  }
}

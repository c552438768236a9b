// Sums and counts over the values of a map. They are defined by an arbitrary choice of
// the next key, so whatever is proved equal to them does not depend on iteration order.
module Sums {
  ghost function Sum<K(!new), V(!new)>(m: map<K, V>, f: V -> real): real {
    if m == map[] then 0.0
    else
      var k :| k in m;
      f(m[k]) + Sum(m - {k}, f)
  }

  lemma {:induction false} SumWithout<K(!new), V(!new)>(m: map<K, V>, f: V -> real, k: K)
    requires k in m
    ensures Sum(m, f) == f(m[k]) + Sum(m - {k}, f)
  {
    var j :| j in m && Sum(m, f) == f(m[j]) + Sum(m - {j}, f);
    if j != k {
      SumWithout(m - {j}, f, k);
      SumWithout(m - {k}, f, j);
      assert m - {j} - {k} == m - {k} - {j};
    }
  }

  lemma SumWith<K(!new), V(!new)>(m: map<K, V>, f: V -> real, k: K, v: V)
    requires k !in m
    ensures Sum(m[k := v], f) == Sum(m, f) + f(v)
  {
    SumWithout(m[k := v], f, k);
    assert m[k := v] - {k} == m;
  }

  ghost predicate Submap<K, V>(m: map<K, V>, m': map<K, V>) {
    forall k :: k in m ==> k in m' && m'[k] == m[k]
  }

  lemma {:induction false} SumMonotone<K(!new), V(!new)>(m: map<K, V>, m': map<K, V>, f: V -> real)
    requires Submap(m, m') && forall v :: f(v) >= 0.0
    ensures 0.0 <= Sum(m, f) <= Sum(m', f)
    decreases m'.Keys
  {
    if m' == map[] {
      assert m == map[];
    } else {
      var k :| k in m';
      SumWithout(m', f, k);
      if k in m {
        SumWithout(m, f, k);
      } else {
        assert m - {k} == m;
      }
      SumMonotone(m - {k}, m' - {k}, f);
    }
  }

  // A larger map differs in sum exactly when some added value counts.
  lemma SumStrict<K(!new), V(!new)>(m: map<K, V>, m': map<K, V>, f: V -> real)
    requires Submap(m, m') && forall v :: f(v) >= 0.0
    ensures Sum(m, f) < Sum(m', f) <==> exists k :: k in m' && k !in m && f(m'[k]) > 0.0
    decreases m'.Keys
  {
    if m' == map[] {
      assert m == map[];
    } else {
      var k :| k in m';
      SumWithout(m', f, k);
      if k in m {
        SumWithout(m, f, k);
      } else {
        assert m - {k} == m;
      }
      SumStrict(m - {k}, m' - {k}, f);
      SumMonotone(m - {k}, m' - {k}, f);
      AddedIn(m, m', f, k);
    }
  }

  lemma AddedIn<K(!new), V(!new)>(m: map<K, V>, m': map<K, V>, f: V -> real, k: K)
    requires k in m'
    ensures (exists j :: j in m' && j !in m && f(m'[j]) > 0.0) <==>
              || (k !in m && f(m'[k]) > 0.0)
              || exists j :: j in m' - {k} && j !in m - {k} && f((m' - {k})[j]) > 0.0
  {
    if j :| j in m' && j !in m && f(m'[j]) > 0.0 && j != k {
      assert j in m' - {k} && j !in m - {k};
    }
    if j :| j in m' - {k} && j !in m - {k} && f((m' - {k})[j]) > 0.0 {
      assert j in m' && j !in m;
    }
  }

  lemma SumPositive<K(!new), V(!new)>(m: map<K, V>, f: V -> real)
    requires forall v :: f(v) >= 0.0
    ensures Sum(m, f) >= 0.0
    ensures Sum(m, f) > 0.0 <==> exists k :: k in m && f(m[k]) > 0.0
  {
    SumMonotone(map[], m, f);
    SumStrict(map[], m, f);
  }

  lemma {:induction false} SumLessOrEqual<K(!new), V(!new), W(!new)>(m: map<K, V>, f: V -> real, n: map<K,
                                            W>, g: W -> real)
    requires m.Keys == n.Keys && forall k :: k in m ==> f(m[k]) <= g(n[k])
    ensures Sum(m, f) <= Sum(n, g)
    decreases m.Keys
  {
    if m == map[] {
      assert n == map[];
    } else {
      var k :| k in m;
      SumWithout(m, f, k);
      SumWithout(n, g, k);
      SumLessOrEqual(m - {k}, f, n - {k}, g);
    }
  }

  function Matching<K, V>(m: map<K, V>, p: V -> bool): set<K> {
    set k | k in m && p(m[k])
  }

  // How many values satisfy p.
  function Count<K, V>(m: map<K, V>, p: V -> bool): nat {
    |Matching(m, p)|
  }

  lemma CountWith<K, V>(m: map<K, V>, p: V -> bool, k: K, v: V)
    requires k !in m
    ensures Count(m[k := v], p) == Count(m, p) + if p(v) then 1 else 0
  {
    assert Matching(m[k := v], p) == if p(v) then Matching(m, p) + {k} else Matching(m, p);
  }

  lemma CountMonotone<K, V>(m: map<K, V>, m': map<K, V>, p: V -> bool)
    requires Submap(m, m')
    ensures Count(m, p) <= Count(m', p)
    ensures Count(m, p) == Count(m', p) <==> Matching(m, p) == Matching(m', p)
  {
    SubsetSize(Matching(m, p), Matching(m', p));
  }

  lemma SubsetSize<T>(s: set<T>, t: set<T>)
    requires s <= t
    ensures |s| <= |t|
    ensures |s| == |t| <==> s == t
  {
    assert t == s + (t - s);
  }

  // An iteration order: every key once.
  ghost predicate Enumerates<K>(order: seq<K>, keys: set<K>) {
    && (forall i, j :: 0 <= i < j < |order| ==> order[i] != order[j])
    && (set k | k in order) == keys
  }

  // The part of the map visited by the first i keys of the order.
  ghost function Visited<K, V>(m: map<K, V>, order: seq<K>, i: nat): map<K, V>
    requires i <= |order| && forall k :: k in order ==> k in m
  {
    map k | k in order[..i] :: m[k]
  }

  lemma VisitedStep<K, V>(m: map<K, V>, order: seq<K>, i: nat)
    requires i < |order| && Enumerates(order, m.Keys)
    ensures order[i] in m && order[i] !in Visited(m, order, i)
    ensures Visited(m, order, i + 1) == Visited(m, order, i)[order[i] := m[order[i]]]
  {
    assert forall k :: k in order ==> k in (set k | k in order);
    assert order[..i + 1] == order[..i] + [order[i]];
  }

  lemma VisitedAll<K, V>(m: map<K, V>, order: seq<K>)
    requires Enumerates(order, m.Keys)
    ensures forall k :: k in order ==> k in m
    ensures Visited(m, order, |order|) == m
  {
    assert forall k :: k in order <==> k in (set k | k in order);
    assert order[..|order|] == order;
  }
}

/** Sums of the natural-number values of a finite map, and the laws the byte and
    reservation accounts of the model rest on. */
module Sums {

  datatype Option<+T> = None | Some(value: T)

  ghost function Sum<K>(m: map<K, nat>): nat
  {
    if m == map[] then 0 else
      var k :| k in m;
      m[k] + Sum(m - {k})
  }

  function Restrict<K, V>(m: map<K, V>, ks: set<K>): map<K, V>
  {
    map k | k in m && k in ks :: m[k]
  }

  lemma {:induction false} SumRemove<K>(m: map<K, nat>, k: K)
    requires k in m
    ensures Sum(m) == m[k] + Sum(m - {k})
    decreases |m|
  {
    var j :| j in m && Sum(m) == m[j] + Sum(m - {j});
    if j != k {
      SumRemove(m - {j}, k);
      SumRemove(m - {k}, j);
      assert m - {j} - {k} == m - {k} - {j};
    }
  }

  lemma SumUpdate<K>(m: map<K, nat>, k: K, v: nat)
    ensures Sum(m[k := v]) == (if k in m then Sum(m) - m[k] else Sum(m)) + v
  {
    SumRemove(m[k := v], k);
    assert m[k := v] - {k} == m - {k};
    if k in m {
      SumRemove(m, k);
    } else {
      assert m - {k} == m;
    }
  }

  /** Keys split a map into two parts whose sums add up. */
  lemma {:induction false} SumSplit<K>(m: map<K, nat>, ks: set<K>)
    ensures Sum(m) == Sum(Restrict(m, ks)) + Sum(m - ks)
    decreases |m|
  {
    if k :| k in m {
      var rest := m - {k};
      SumSplit(rest, ks);
      SumRemove(m, k);
      if k in ks {
        SumRemove(Restrict(m, ks), k);
        assert Restrict(m, ks) - {k} == Restrict(rest, ks);
        assert m - ks == rest - ks;
      } else {
        SumRemove(m - ks, k);
        assert Restrict(m, ks) == Restrict(rest, ks);
        assert (m - ks) - {k} == rest - ks;
      }
    } else {
      assert Restrict(m, ks) == map[] && m - ks == map[];
    }
  }

  lemma SumBounds<K>(m: map<K, nat>, k: K)
    requires k in m
    ensures m[k] <= Sum(m)
  {
    SumRemove(m, k);
  }
}

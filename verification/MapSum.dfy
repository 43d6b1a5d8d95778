/** Sums over the values of a dictionary, independent of the order of iteration. */
module MapSum {

  ghost function Sum<K(!new)>(m: map<K, real>): real
    decreases |m|
  {
    if m == map[] then 0.0 else
      var k :| k in m;
      m[k] + Sum(m - {k})
  }

  lemma Empty<K(!new)>()
    ensures Sum<K>(map[]) == 0.0
  {
  }

  /** Any key may be taken out first. */
  lemma {:induction false} Take<K(!new)>(m: map<K, real>, k: K)
    requires k in m
    ensures Sum(m) == m[k] + Sum(m - {k})
    decreases |m|
  {
    var j :| j in m && Sum(m) == m[j] + Sum(m - {j});
    if j != k {
      Take(m - {j}, k);
      Take(m - {k}, j);
      assert m - {j} - {k} == m - {k} - {j};
    }
  }

  function Get<K>(m: map<K, real>, k: K): real {
    if k in m then m[k] else 0.0
  }

  lemma Removed<K(!new)>(m: map<K, real>, k: K)
    ensures Sum(m - {k}) == Sum(m) - Get(m, k)
  {
    if k in m {
      Take(m, k);
    } else {
      assert m - {k} == m;
    }
  }

  lemma Updated<K(!new)>(m: map<K, real>, k: K, v: real)
    ensures Sum(m[k := v]) == Sum(m) - Get(m, k) + v
  {
    Take(m[k := v], k);
    assert m[k := v] - {k} == m - {k};
    Removed(m, k);
  }

  /** The two dictionaries differ at one key only. */
  lemma ChangedAt<K(!new)>(m: map<K, real>, n: map<K, real>, k: K)
    requires m.Keys - {k} == n.Keys - {k}
    requires forall j :: j in m && j != k ==> j in n && n[j] == m[j]
    ensures Sum(n) == Sum(m) - Get(m, k) + Get(n, k)
  {
    assert m - {k} == n - {k};
    Removed(m, k);
    Removed(n, k);
  }

  lemma Singleton<K(!new)>(k: K, v: real)
    ensures Sum(map[k := v]) == v
  {
    Take(map[k := v], k);
    assert map[k := v] - {k} == map[];
  }

  lemma {:induction false} Monotone<K(!new)>(m: map<K, real>, n: map<K, real>)
    requires m.Keys == n.Keys
    requires forall k :: k in m ==> m[k] <= n[k]
    ensures Sum(m) <= Sum(n)
    decreases |m|
  {
    if m == map[] {
      assert n == map[];
    } else {
      var k :| k in m;
      Take(m, k);
      Take(n, k);
      Monotone(m - {k}, n - {k});
    }
  }

  lemma {:induction false} NonNegative<K(!new)>(m: map<K, real>)
    requires forall k :: k in m ==> m[k] >= 0.0
    ensures Sum(m) >= 0.0
    ensures forall k :: k in m ==> m[k] <= Sum(m)
    decreases |m|
  {
    forall k | k in m
      ensures 0.0 <= m[k] <= Sum(m)
    {
      Take(m, k);
      NonNegative(m - {k});
    }
  }

  lemma {:induction false} Added<K(!new)>(m: map<K, real>, n: map<K, real>, s: map<K, real>)
    requires m.Keys == n.Keys == s.Keys
    requires forall k :: k in m ==> s[k] == m[k] + n[k]
    ensures Sum(s) == Sum(m) + Sum(n)
    decreases |m|
  {
    if m == map[] {
      assert n == map[] && s == map[];
    } else {
      var k :| k in m;
      Take(m, k);
      Take(n, k);
      Take(s, k);
      Added(m - {k}, n - {k}, s - {k});
    }
  }
}

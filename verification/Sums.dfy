/** Sums over finite maps, for potentials. */
module Sums {
  ghost function Sum<K>(m: map<K, nat>): nat
    decreases |m|
  {
    if m == map[] then 0
    else
      var k :| k in m;
      assert |m - {k}| < |m| by { assert (m - {k}).Keys == m.Keys - {k}; assert |m.Keys| == |m|; }
      m[k] + Sum(m - {k})
  }

  lemma {:induction false} SumTake<K>(m: map<K, nat>, k: K)
    requires k in m
    ensures Sum(m) == m[k] + Sum(m - {k})
    decreases |m|
  {
    var j :| j in m && Sum(m) == m[j] + Sum(m - {j});
    if j != k {
      assert |m - {j}| < |m| by { assert (m - {j}).Keys == m.Keys - {j}; assert |m.Keys| == |m|; }
      assert |m - {k}| < |m| by { assert (m - {k}).Keys == m.Keys - {k}; assert |m.Keys| == |m|; }
      SumTake(m - {j}, k);
      SumTake(m - {k}, j);
      assert m - {j} - {k} == m - {k} - {j};
    }
  }

  lemma SumPut<K>(m: map<K, nat>, k: K, v: nat)
    ensures Sum(m[k := v]) == Sum(m - {k}) + v
  {
    SumTake(m[k := v], k);
    assert m[k := v] - {k} == m - {k};
  }

  /** One entry changes or goes, and at most one new entry n comes. */
  lemma SumChange<K>(m: map<K, nat>, m': map<K, nat>, id: K, n: K)
    requires id in m && n !in m
    requires forall k | k in m && k != id :: k in m' && m'[k] == m[k]
    requires forall k | k in m' :: k in m || k == n
    ensures Sum(m') == Sum(m) - m[id] + (if id in m' then m'[id] else 0) + (if n in m' then m'[n] else 0)
    ensures Sum(m) >= m[id]
  {
    SumTake(m, id);
    var rest := m - {id};
    var m1 := m' - {n};
    if n in m' { SumTake(m', n); } else { assert m1 == m'; }
    if id in m1 {
      SumTake(m1, id);
      assert m1 - {id} == rest;
    } else {
      assert m1 == rest;
    }
  }

  lemma {:induction false} SumBelow<K>(m: map<K, nat>, m': map<K, nat>)
    requires m.Keys == m'.Keys && forall k | k in m :: m[k] <= m'[k]
    ensures Sum(m) <= Sum(m')
    decreases |m|
  {
    if m != map[] {
      var k :| k in m;
      SumTake(m, k);
      SumTake(m', k);
      assert |m - {k}| < |m| by { assert (m - {k}).Keys == m.Keys - {k}; assert |m.Keys| == |m|; }
      SumBelow(m - {k}, m' - {k});
    } else {
      assert m' == map[];
    }
  }

  /** A new entry n that counts for nothing. */
  lemma SumGrown<K>(m: map<K, nat>, m': map<K, nat>, n: K)
    requires n !in m
    requires forall k | k in m :: k in m' && m'[k] == m[k]
    requires forall k | k in m' && k !in m :: k == n && m'[k] == 0
    ensures Sum(m') == Sum(m)
  {
    if n in m' {
      SumTake(m', n);
      assert m' - {n} == m;
    } else {
      assert m' == m;
    }
  }

  lemma Distribute(price: nat, x: nat, y: nat)
    ensures price * (x + y) == price * x + price * y
  {
  }
}

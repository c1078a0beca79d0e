/** Sums over finite maps. */
module Sums {
  import opened Types
  import opened Chain

  ghost function Sum<K>(m: map<K, int>): int
  {
    if m == map[] then 0
    else
      var k :| k in m;
      m[k] + Sum(m - {k})
  }

  lemma {:induction false} SumSplit<K>(m: map<K, int>, k: K)
    requires k in m
    ensures Sum(m) == m[k] + Sum(m - {k})
    decreases |m|
  {
    var j :| j in m && Sum(m) == m[j] + Sum(m - {j});
    if j != k {
      SumSplit(m - {j}, k);
      SumSplit(m - {k}, j);
      assert m - {j} - {k} == m - {k} - {j};
    }
  }

  /** Changing one entry changes the sum by the difference. */
  lemma SumUpdate<K>(m: map<K, int>, k: K, v: int)
    ensures Sum(m[k := v]) == Sum(m) - Get(m, k, 0) + v
  {
    var m' := m[k := v];
    SumSplit(m', k);
    if k in m {
      SumSplit(m, k);
      assert m' - {k} == m - {k};
    } else {
      assert m' - {k} == m;
    }
  }

  ghost function Values<K>(m: map<K, Income>): map<K, int>
  {
    map k | k in m :: m[k].value
  }

  ghost function Penalties<K>(m: map<K, Income>): map<K, int>
  {
    map k | k in m :: m[k].penalty
  }

  ghost function SumIncome<K>(m: map<K, Income>): Income
  {
    Income(Sum(Values(m)), Sum(Penalties(m)))
  }

  lemma SumIncomeUpdate<K>(m: map<K, Income>, k: K, value: int, penalty: int)
    ensures SumIncome(m[k := Plus(Get(m, k, Income(0, 0)), value, penalty)]) == Plus(SumIncome(m), value, penalty)
  {
    var v := Plus(Get(m, k, Income(0, 0)), value, penalty);
    SumUpdate(Values(m), k, v.value);
    SumUpdate(Penalties(m), k, v.penalty);
    assert Values(m[k := v]) == Values(m)[k := v.value];
    assert Penalties(m[k := v]) == Penalties(m)[k := v.penalty];
  }

  lemma SumEmpty<K>(m: map<K, Income>)
    requires m == map[]
    ensures SumIncome(m) == Income(0, 0)
  {
    assert Values(m) == map[] && Penalties(m) == map[];
  }
}

/** Sums over what a map holds. */
module Maps {

  ghost function SumValues(m: map<string, nat>): nat
    decreases |m|
  {
    if m == map[] then 0
    else
      var k :| k in m;
      assert |m - {k}| < |m|;
      m[k] + SumValues(m - {k})
  }

  lemma {:induction false} SumValuesWithout(m: map<string, nat>, k: string)
    requires k in m
    ensures SumValues(m) == m[k] + SumValues(m - {k})
    decreases |m|
  {
    assert m != map[];
    var j :| j in m && SumValues(m) == m[j] + SumValues(m - {j});
    if j != k {
      assert |m - {j}| < |m| && |m - {k}| < |m|;
      SumValuesWithout(m - {j}, k);
      SumValuesWithout(m - {k}, j);
      assert m - {j} - {k} == m - {k} - {j};
    }
  }

  lemma {:induction false} SumValuesUpdate(m: map<string, nat>, k: string, v: nat)
    ensures SumValues(m[k := v]) == SumValues(m - {k}) + v
    ensures SumValues(m) == SumValues(m - {k}) + if k in m then m[k] else 0
  {
    SumValuesWithout(m[k := v], k);
    assert m[k := v] - {k} == m - {k};
    if k in m {
      SumValuesWithout(m, k);
    } else {
      assert m - {k} == m;
    }
  }

  method SumOf(m: map<string, nat>) returns (total: nat)
    ensures total == SumValues(m)
  {
    total := 0;
    var rest := m;
    while rest != map[]
      invariant total + SumValues(rest) == SumValues(m)
      decreases |rest|
    {
      var k :| k in rest;
      SumValuesWithout(rest, k);
      assert |rest - {k}| < |rest|;
      total, rest := total + rest[k], rest - {k};
    }
  }
}

/** Sums over the values of a finite map: what pandas' `.sum()` does over a labelled
    series (labels whose value is NaN are simply not in the map). */
module MapSums {

  /** Some key of a non-empty map; the same key every time for the same map. */
  ghost function Pick<K>(m: map<K, real>): (k: K)
    requires |m| > 0
    ensures k in m
  {
    assert m.Keys != {};
    var k :| k in m.Keys; k
  }

  /** The sum of the values: one value plus the sum of the rest. */
  ghost function MapSum<K>(m: map<K, real>): real
    decreases |m|
  {
    if |m| == 0 then 0.0
    else
      var k := Pick(m);
      m[k] + MapSum(m - {k})
  }

  /** A sum of non-negative values is non-negative. */
  lemma {:induction false} MapSumNonNegative<K>(m: map<K, real>)
    requires forall k :: k in m ==> m[k] >= 0.0
    ensures MapSum(m) >= 0.0
    decreases |m|
  {
    if |m| > 0 {
      MapSumNonNegative(m - {Pick(m)});
    }
  }

  /** A sum of zeros is zero. */
  lemma {:induction false} MapSumOfZeros<K>(m: map<K, real>)
    requires forall k :: k in m ==> m[k] == 0.0
    ensures MapSum(m) == 0.0
    decreases |m|
  {
    if |m| > 0 {
      MapSumOfZeros(m - {Pick(m)});
    }
  }

  /** The sum does not depend on which key is taken out first. */
  lemma {:induction false} MapSumRemove<K>(m: map<K, real>, x: K)
    requires x in m
    ensures MapSum(m) == m[x] + MapSum(m - {x})
    decreases |m|
  {
    var k := Pick(m);
    if k != x {
      var mk, mx := m - {k}, m - {x};
      MapSumRemove(mk, x);
      MapSumRemove(mx, k);
      assert mk - {x} == mx - {k};
    }
  }

  /** Every value divided by c. */
  ghost function Divided<K>(m: map<K, real>, c: real): (q: map<K, real>)
    requires c != 0.0
    ensures q.Keys == m.Keys
    ensures forall k :: k in q ==> q[k] == m[k] / c
  {
    map k | k in m :: m[k] / c
  }

  lemma DivideSum(a: real, b: real, c: real, qa: real, qb: real, total: real, qTotal: real)
    requires c != 0.0 && qa == a / c && qb == b / c && total == a + b && qTotal == qa + qb
    ensures qTotal == total / c
  {
  }

  lemma DividedRemove<K>(m: map<K, real>, c: real, k: K)
    requires c != 0.0
    ensures Divided(m, c) - {k} == Divided(m - {k}, c)
  {
    var left, right := Divided(m, c) - {k}, Divided(m - {k}, c);
    assert left.Keys == right.Keys;
    forall j | j in left
      ensures left[j] == right[j]
    {
    }
  }

  /** Dividing every value by c divides the sum by c. */
  lemma {:induction false} MapSumDivided<K>(m: map<K, real>, c: real)
    requires c != 0.0
    ensures MapSum(Divided(m, c)) == MapSum(m) / c
    decreases |m|
  {
    if |m| == 0 {
      DividedEmpty(m, c);
    } else {
      var k := Pick(m);
      assert MapSum(Divided(m - {k}, c)) == MapSum(m - {k}) / c by {
        MapSumDivided(m - {k}, c);
      }
      MapSumDividedStep(m, c, k);
    }
  }

  lemma DividedEmpty<K>(m: map<K, real>, c: real)
    requires c != 0.0 && |m| == 0
    ensures MapSum(Divided(m, c)) == 0.0 && MapSum(m) == 0.0
  {
    assert |Divided(m, c)| == 0;
  }

  /** The inductive step of MapSumDivided: taking out the key the sum takes first. */
  lemma MapSumDividedStep<K>(m: map<K, real>, c: real, k: K)
    requires c != 0.0 && |m| > 0 && k == Pick(m)
    requires MapSum(Divided(m - {k}, c)) == MapSum(m - {k}) / c
    ensures MapSum(Divided(m, c)) == MapSum(m) / c
  {
    var q := Divided(m, c);
    var sRest, qRest := MapSum(m - {k}), MapSum(Divided(m - {k}, c));
    assert MapSum(m) == m[k] + sRest;
    MapSumRemove(q, k);
    DividedRemove(m, c, k);
    assert MapSum(q) == q[k] + qRest;
    DivideSum(m[k], sRest, c, q[k], qRest, MapSum(m), MapSum(q));
  }
}

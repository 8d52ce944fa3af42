/** Sums over maps and sequences, used to state conservation of money. */
module Sums {
  /** The sum of all values of a map (the order of summation is irrelevant). */
  ghost function MapSum<K>(m: map<K, int>): int
    decreases |m|
  {
    if |m| == 0 then 0
    else
      var k :| k in m;
      m[k] + MapSum(m - {k})
  }

  /** The key the definition of MapSum picks first. */
  lemma MapSumPick<K>(m: map<K, int>) returns (x: K)
    requires |m| != 0
    ensures x in m && MapSum(m) == m[x] + MapSum(m - {x})
  {
    x :| x in m && MapSum(m) == m[x] + MapSum(m - {x});
  }
  /** Any key may be taken out first. */
  lemma {:induction false} MapSumRemove<K>(m: map<K, int>, y: K)
    requires y in m
    ensures MapSum(m) == m[y] + MapSum(m - {y})
    decreases |m|
  {
    var x := MapSumPick(m);
    if x != y {
      var mx, my := m - {x}, m - {y};
      assert y in mx && x in my && mx[y] == m[y] && my[x] == m[x];
      SmallerMap(m, x);
      SmallerMap(m, y);
      MapSumRemove(mx, y);
      MapSumRemove(my, x);
      assert mx - {y} == my - {x};
    }
  }

  lemma SmallerMap<K>(m: map<K, int>, x: K)
    requires x in m
    ensures |m - {x}| == |m| - 1
  {
    assert (m - {x}).Keys == m.Keys - {x};
  }

  /** Changing one value changes the sum by the difference. */
  lemma MapSumUpdate<K>(m: map<K, int>, k: K, v: int)
    ensures MapSum(m[k := v]) == MapSum(m) - (if k in m then m[k] else 0) + v
  {
    MapSumRemove(m[k := v], k);
    if k in m {
      MapSumRemove(m, k);
      assert m[k := v] - {k} == m - {k};
    } else {
      assert m[k := v] - {k} == m;
    }
  }

  /** A map whose values are all zero sums to zero. */
  lemma {:induction false} MapSumZero<K>(m: map<K, int>)
    requires forall k | k in m :: m[k] == 0
    ensures MapSum(m) == 0
    decreases |m|
  {
    if |m| != 0 {
      var k :| k in m;
      MapSumRemove(m, k);
      MapSumZero(m - {k});
    }
  }
}

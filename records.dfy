/**
 * JavaScript objects and `Map`s keyed by user id. Both iterate their keys in insertion
 * order (user ids are not integer-like strings), so the model keeps that order explicitly:
 * assigning to a present key keeps its place, a new key goes last, deleting drops it.
 */
module Records {
  import opened Types

  predicate Distinct(xs: seq<UserId>) {
    forall i, j | 0 <= i < j < |xs| :: xs[i] != xs[j]
  }

  /** The keys of `new Set(xs)` in iteration order: each id at its first occurrence. */
  function Dedup(xs: seq<UserId>): (r: seq<UserId>)
    ensures Distinct(r)
    ensures forall x :: x in r <==> x in xs
    ensures |r| <= |xs|
  {
    if |xs| == 0 then []
    else
      var d := Dedup(xs[..|xs| - 1]);
      var x := xs[|xs| - 1];
      assert forall y :: y in xs <==> y in xs[..|xs| - 1] || y == x by {
        assert xs == xs[..|xs| - 1] + [x];
      }
      if x in d then d else d + [x]
  }

  /** `xs` without the key `k`. */
  function Without(xs: seq<UserId>, k: UserId): (r: seq<UserId>)
    ensures forall x :: x in r <==> x in xs && x != k
    ensures Distinct(xs) ==> Distinct(r)
  {
    if |xs| == 0 then []
    else if xs[0] == k then Without(xs[1..], k)
    else
      var rest := Without(xs[1..], k);
      assert Distinct(xs) ==> Distinct(xs[1..]) && xs[0] !in xs[1..] by {
        if Distinct(xs) {
          forall i, j | 0 <= i < j < |xs[1..]| ensures xs[1..][i] != xs[1..][j] {
            assert xs[1..][i] == xs[i + 1] && xs[1..][j] == xs[j + 1];
          }
        }
      }
      [xs[0]] + rest
  }

  /** A record's values and its keys in iteration order. */
  datatype OrderedMap<V> = OrderedMap(keys: seq<UserId>, values: map<UserId, V>) {
    ghost predicate Valid() {
      Distinct(keys) && forall k :: k in keys <==> k in values
    }

    /** `record[k] = v` or `map.set(k, v)`. */
    function Put(k: UserId, v: V): (r: OrderedMap<V>)
      ensures Valid() ==> r.Valid()
      ensures r.values == values[k := v]
      ensures r.keys == if k in values then keys else keys + [k]
    {
      if k in values then OrderedMap(keys, values[k := v])
      else OrderedMap(keys + [k], values[k := v])
    }

    /** `map.delete(k)`. */
    function Remove(k: UserId): (r: OrderedMap<V>)
      ensures Valid() ==> r.Valid()
      ensures r.values == values - {k}
      ensures forall x :: x in r.keys <==> x in keys && x != k
    {
      OrderedMap(Without(keys, k), values - {k})
    }
  }

  function EmptyMap<V>(): (r: OrderedMap<V>)
    ensures r.Valid() && r.values == map[]
  {
    OrderedMap([], map[])
  }
}

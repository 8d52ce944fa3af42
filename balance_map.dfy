/**
 * `BalanceMap` (types/dashboard.ts): a record from counterparty id to `{ owed, owing }`
 * that the dashboard and settle-up helpers fill and update in place.
 */
module BalanceMaps {
  import opened Types
  import opened Records

  const Zero := Balance(0, 0)

  /** The record after `ensureBalance(map, k)`: a zero balance for `k` unless it has one. */
  function Ensure(m: OrderedMap<Balance>, k: UserId): (r: OrderedMap<Balance>)
    ensures m.Valid() ==> r.Valid()
    ensures k in r.values
    ensures k in m.values ==> r == m
    ensures k !in m.values ==> r.keys == m.keys + [k] && r.values == m.values[k := Zero]
  {
    if k in m.values then m else m.Put(k, Zero)
  }

  class BalanceMap {
    var entries: OrderedMap<Balance>

    constructor (m: OrderedMap<Balance>)
      ensures entries == m
    {
      entries := m;
    }

    /** `ensureBalance(map, k)`: inserts `{ owed: 0, owing: 0 }` only when `k` is absent. */
    method EnsureBalance(k: UserId) returns (b: Balance)
      modifies this
      ensures entries == Ensure(old(entries), k)
      ensures b == entries.values[k]
    {
      if k !in entries.values {
        entries := entries.Put(k, Zero);
      }
      b := entries.values[k];
    }

    /** Replaces the balance of `k` (the `+=` / `=` on a field of `map[k]`). */
    method Set(k: UserId, b: Balance)
      modifies this
      ensures entries == old(entries).Put(k, b)
    {
      entries := entries.Put(k, b);
    }
  }
}

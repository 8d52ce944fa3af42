/**
 * `buildLists` of helper/dashboard.ts: the counterparties of the dashboard map split into
 * "you owe" and "you are owed by", each sorted by amount, largest first.
 */
module DashboardLists {
  import opened Types
  import opened Records

  /** What `userMap` holds for a user. */
  datatype UserInfo = UserInfo(name: Option<string>, image: Option<string>)

  datatype BalanceItem = BalanceItem(userId: UserId, name: string, image: Option<string>, amount: Money)

  datatype Lists = Lists(youOwe: seq<BalanceItem>, youAreOwedBy: seq<BalanceItem>)

  function Abs(x: int): (r: nat)
    ensures r == x || r == -x
  {
    if x < 0 then -x else x
  }

  function Net(b: Balance): Money {
    b.owed - b.owing
  }

  /** The item listed for counterparty `k`: its name and image, or "Unknown" and none. */
  function ItemOf(k: UserId, b: Balance, userMap: map<UserId, UserInfo>): BalanceItem {
    var name := if k in userMap && userMap[k].name.Some? then userMap[k].name.value else "Unknown";
    var image := if k in userMap then userMap[k].image else None;
    BalanceItem(k, name, image, Abs(Net(b)))
  }

  /** The two lists `buildLists` pushes to, in key order and before sorting. */
  function Partition(keys: seq<UserId>, values: map<UserId, Balance>, userMap: map<UserId, UserInfo>): Lists
    requires forall k | k in keys :: k in values
  {
    if |keys| == 0 then Lists([], [])
    else
      var prev := Partition(keys[..|keys| - 1], values, userMap);
      var k := keys[|keys| - 1];
      var net := Net(values[k]);
      if net == 0 then prev
      else if net > 0 then prev.(youAreOwedBy := prev.youAreOwedBy + [ItemOf(k, values[k], userMap)])
      else prev.(youOwe := prev.youOwe + [ItemOf(k, values[k], userMap)])
  }

  // ---------------------------------------------------------------- sorting

  predicate SortedDesc(xs: seq<BalanceItem>) {
    forall i, j | 0 <= i < j < |xs| :: xs[i].amount >= xs[j].amount
  }

  /** `x` placed before the first item with a strictly smaller amount. */
  function Insert(s: seq<BalanceItem>, x: BalanceItem): (r: seq<BalanceItem>)
    ensures multiset(r) == multiset(s) + multiset{x}
  {
    if |s| == 0 then [x]
    else if s[0].amount < x.amount then [x] + s
    else
      assert s == [s[0]] + s[1..];
      [s[0]] + Insert(s[1..], x)
  }

  /**
   * `sort((a, b) => b.amount - a.amount)`: the stable ordering by amount, largest first
   * (items of equal amount keep their order).
   */
  function SortDesc(xs: seq<BalanceItem>): seq<BalanceItem> {
    if |xs| == 0 then [] else Insert(SortDesc(xs[..|xs| - 1]), xs[|xs| - 1])
  }

  lemma {:induction false} InsertSorted(s: seq<BalanceItem>, x: BalanceItem)
    requires SortedDesc(s)
    ensures SortedDesc(Insert(s, x))
  {
    if |s| == 0 {
    } else if s[0].amount < x.amount {
      ConsSorted(x, s);
    } else {
      var rest := Insert(s[1..], x);
      InsertSorted(s[1..], x);
      forall y | y in rest ensures y.amount <= s[0].amount {
        assert y in multiset(rest);
      }
      ConsSorted(s[0], rest);
    }
  }

  /** An item no smaller than every item of a sorted list can go in front of it. */
  lemma ConsSorted(h: BalanceItem, s: seq<BalanceItem>)
    requires SortedDesc(s) && forall y | y in s :: y.amount <= h.amount
    ensures SortedDesc([h] + s)
  {
    var r := [h] + s;
    forall i, j | 0 <= i < j < |r| ensures r[i].amount >= r[j].amount {
      if i == 0 {
        assert r[j] in s;
      } else {
        assert r[i] == s[i - 1] && r[j] == s[j - 1];
      }
    }
  }

  lemma {:induction false} SortDescSorted(xs: seq<BalanceItem>)
    ensures SortedDesc(SortDesc(xs))
    ensures multiset(SortDesc(xs)) == multiset(xs)
  {
    if |xs| != 0 {
      SortDescSorted(xs[..|xs| - 1]);
      InsertSorted(SortDesc(xs[..|xs| - 1]), xs[|xs| - 1]);
      assert xs == xs[..|xs| - 1] + [xs[|xs| - 1]];
    }
  }

  /** The items with amount `a`, in order. */
  function WithAmount(xs: seq<BalanceItem>, a: Money): seq<BalanceItem> {
    if |xs| == 0 then []
    else (if xs[0].amount == a then [xs[0]] else []) + WithAmount(xs[1..], a)
  }

  lemma {:induction false} WithAmountAppend(xs: seq<BalanceItem>, ys: seq<BalanceItem>, a: Money)
    ensures WithAmount(xs + ys, a) == WithAmount(xs, a) + WithAmount(ys, a)
  {
    if |xs| == 0 {
      assert xs + ys == ys;
    } else {
      assert (xs + ys)[1..] == xs[1..] + ys;
      WithAmountAppend(xs[1..], ys, a);
    }
  }

  lemma {:induction false} WithAmountBelow(s: seq<BalanceItem>, a: Money)
    requires forall y | y in s :: y.amount < a
    ensures WithAmount(s, a) == []
  {
    if |s| != 0 {
      assert s[0] in s;
      assert forall y | y in s[1..] :: y in s;
      WithAmountBelow(s[1..], a);
    }
  }

  lemma HeadIsLargest(s: seq<BalanceItem>)
    requires SortedDesc(s) && |s| != 0
    ensures forall y | y in s :: y.amount <= s[0].amount
  {
    forall y | y in s ensures y.amount <= s[0].amount {
      var j :| 0 <= j < |s| && s[j] == y;
      assert j == 0 || s[0].amount >= s[j].amount;
    }
  }

  lemma {:induction false} InsertStable(s: seq<BalanceItem>, x: BalanceItem, a: Money)
    requires SortedDesc(s)
    ensures WithAmount(Insert(s, x), a) == WithAmount(s, a) + (if x.amount == a then [x] else [])
  {
    if |s| == 0 {
    } else if s[0].amount < x.amount {
      var r := [x] + s;
      assert r[1..] == s;
      if x.amount == a {
        HeadIsLargest(s);
        WithAmountBelow(s, a);
      }
    } else {
      var r := [s[0]] + Insert(s[1..], x);
      assert r[1..] == Insert(s[1..], x);
      InsertStable(s[1..], x, a);
    }
  }

  /** Sorting is stable: the items of any one amount keep their relative order. */
  lemma {:induction false} SortDescStable(xs: seq<BalanceItem>, a: Money)
    ensures WithAmount(SortDesc(xs), a) == WithAmount(xs, a)
  {
    if |xs| != 0 {
      var init, x := xs[..|xs| - 1], xs[|xs| - 1];
      assert xs == init + [x];
      var tail := if x.amount == a then [x] else [];
      SortDescStable(init, a);
      SortDescSorted(init);
      InsertStable(SortDesc(init), x, a);
      assert WithAmount(SortDesc(xs), a) == WithAmount(init, a) + tail;
      WithAmountAppend(init, [x], a);
      assert WithAmount([x], a) == tail by {
        assert [x][1..] == [];
      }
    }
  }

  // ---------------------------------------------------------------- buildLists

  /** What `buildLists(balanceByUser, userMap)` returns. */
  function BuildListsOf(m: OrderedMap<Balance>, userMap: map<UserId, UserInfo>): Lists
    requires m.Valid()
  {
    var p := Partition(m.keys, m.values, userMap);
    Lists(SortDesc(p.youOwe), SortDesc(p.youAreOwedBy))
  }

  /** `buildLists(balanceByUser, userMap)`. */
  method BuildLists(balanceByUser: OrderedMap<Balance>, userMap: map<UserId, UserInfo>)
    returns (youOwe: seq<BalanceItem>, youAreOwedBy: seq<BalanceItem>)
    requires balanceByUser.Valid()
    ensures Lists(youOwe, youAreOwedBy) == BuildListsOf(balanceByUser, userMap)
  {
    var keys, values := balanceByUser.keys, balanceByUser.values;
    youOwe, youAreOwedBy := [], [];
    for i := 0 to |keys|
      invariant Lists(youOwe, youAreOwedBy) == Partition(keys[..i], values, userMap)
    {
      var userId := keys[i];
      assert keys[..i + 1][..i] == keys[..i];
      var b := values[userId];
      var net := b.owed - b.owing;
      if net == 0 {
        continue;
      }
      var item := ItemOf(userId, b, userMap);
      if net > 0 {
        youAreOwedBy := youAreOwedBy + [item];
      } else {
        youOwe := youOwe + [item];
      }
    }
    assert keys[..|keys|] == keys;
    youOwe := SortDesc(youOwe);
    youAreOwedBy := SortDesc(youAreOwedBy);
  }

  /** No two items of a list name the same counterparty. */
  predicate DistinctIds(items: seq<BalanceItem>) {
    forall i, j | 0 <= i < j < |items| :: items[i].userId != items[j].userId
  }

  lemma {:induction false} DistinctIdsCount(s: seq<BalanceItem>, x: BalanceItem)
    requires DistinctIds(s)
    ensures multiset(s)[x] <= 1
  {
    if |s| != 0 {
      var init := s[..|s| - 1];
      var last := s[|s| - 1];
      assert s == init + [last];
      assert DistinctIds(init);
      DistinctIdsCount(init, x);
      assert forall k | 0 <= k < |init| :: init[k].userId != last.userId;
      assert last !in init;
    }
  }

  lemma RepeatCount(s: seq<BalanceItem>, i: nat, j: nat)
    requires i < j < |s|
    ensures s[i] == s[j] ==> multiset(s)[s[i]] >= 2
  {
    assert s == s[..j] + [s[j]] + s[j + 1..];
    assert s[..j][i] == s[i];
  }

  /** Reordering a list keeps its counterparties distinct. */
  lemma PermutationKeepsDistinctIds(p: seq<BalanceItem>, q: seq<BalanceItem>)
    requires multiset(p) == multiset(q) && DistinctIds(p)
    ensures DistinctIds(q)
  {
    forall i, j | 0 <= i < j < |q| ensures q[i].userId != q[j].userId {
      RepeatCount(q, i, j);
      DistinctIdsCount(p, q[i]);
      assert q[i] in multiset(q) && q[j] in multiset(q);
      var a :| 0 <= a < |p| && p[a] == q[i];
      var b :| 0 <= b < |p| && p[b] == q[j];
    }
  }

  /**
   * The lists before sorting hold exactly the items of the keys with a positive or a negative
   * net, and over distinct keys one item per key.
   */
  lemma {:induction false} PartitionMembers(keys: seq<UserId>, values: map<UserId, Balance>, userMap: map<UserId, UserInfo>)
    requires forall k | k in keys :: k in values
    ensures Distinct(keys) ==>
      DistinctIds(Partition(keys, values, userMap).youAreOwedBy) && DistinctIds(Partition(keys, values, userMap).youOwe)
    ensures forall it | it in Partition(keys, values, userMap).youAreOwedBy ::
      it.userId in keys && Net(values[it.userId]) > 0 && it == ItemOf(it.userId, values[it.userId], userMap)
    ensures forall it | it in Partition(keys, values, userMap).youOwe ::
      it.userId in keys && Net(values[it.userId]) < 0 && it == ItemOf(it.userId, values[it.userId], userMap)
    ensures forall k | k in keys && Net(values[k]) > 0 ::
      ItemOf(k, values[k], userMap) in Partition(keys, values, userMap).youAreOwedBy
    ensures forall k | k in keys && Net(values[k]) < 0 ::
      ItemOf(k, values[k], userMap) in Partition(keys, values, userMap).youOwe
  {
    if |keys| != 0 {
      var init := keys[..|keys| - 1];
      assert forall k | k in init :: k in keys;
      assert keys == init + [keys[|keys| - 1]];
      PartitionMembers(init, values, userMap);
      if Distinct(keys) {
        assert Distinct(init);
        assert keys[|keys| - 1] !in init;
      }
    }
  }

  /**
   * A counterparty is listed under "you are owed by" iff its net is positive and under
   * "you owe" iff it is negative, with amount `|owed - owing|` and its name and image;
   * counterparties with a zero net are left out, and no one is in both lists.
   */
  lemma BuildListsMembers(m: OrderedMap<Balance>, userMap: map<UserId, UserInfo>)
    requires m.Valid()
    ensures forall it | it in BuildListsOf(m, userMap).youAreOwedBy ::
      it.userId in m.values && Net(m.values[it.userId]) > 0 && it == ItemOf(it.userId, m.values[it.userId], userMap)
      && it.amount == Net(m.values[it.userId])
    ensures forall it | it in BuildListsOf(m, userMap).youOwe ::
      it.userId in m.values && Net(m.values[it.userId]) < 0 && it == ItemOf(it.userId, m.values[it.userId], userMap)
      && it.amount == -Net(m.values[it.userId])
    ensures forall k | k in m.values && Net(m.values[k]) > 0 :: ItemOf(k, m.values[k], userMap) in BuildListsOf(m, userMap).youAreOwedBy
    ensures forall k | k in m.values && Net(m.values[k]) < 0 :: ItemOf(k, m.values[k], userMap) in BuildListsOf(m, userMap).youOwe
    ensures forall it, it' | it in BuildListsOf(m, userMap).youOwe && it' in BuildListsOf(m, userMap).youAreOwedBy ::
      it.userId != it'.userId
    ensures DistinctIds(BuildListsOf(m, userMap).youOwe) && DistinctIds(BuildListsOf(m, userMap).youAreOwedBy)
  {
    var p := Partition(m.keys, m.values, userMap);
    PartitionMembers(m.keys, m.values, userMap);
    SortDescSorted(p.youOwe);
    SortDescSorted(p.youAreOwedBy);
    assert forall it :: it in SortDesc(p.youOwe) <==> it in p.youOwe by {
      forall it ensures it in SortDesc(p.youOwe) <==> it in p.youOwe {
        assert it in SortDesc(p.youOwe) <==> it in multiset(SortDesc(p.youOwe));
      }
    }
    assert forall it :: it in SortDesc(p.youAreOwedBy) <==> it in p.youAreOwedBy by {
      forall it ensures it in SortDesc(p.youAreOwedBy) <==> it in p.youAreOwedBy {
        assert it in SortDesc(p.youAreOwedBy) <==> it in multiset(SortDesc(p.youAreOwedBy));
      }
    }
    PermutationKeepsDistinctIds(p.youOwe, SortDesc(p.youOwe));
    PermutationKeepsDistinctIds(p.youAreOwedBy, SortDesc(p.youAreOwedBy));
  }

  /** Both lists are sorted by amount, largest first, stably, and hold exactly the items pushed. */
  lemma BuildListsSorted(m: OrderedMap<Balance>, userMap: map<UserId, UserInfo>, a: Money)
    requires m.Valid()
    ensures SortedDesc(BuildListsOf(m, userMap).youOwe) && SortedDesc(BuildListsOf(m, userMap).youAreOwedBy)
    ensures multiset(BuildListsOf(m, userMap).youOwe) == multiset(Partition(m.keys, m.values, userMap).youOwe)
    ensures multiset(BuildListsOf(m, userMap).youAreOwedBy) == multiset(Partition(m.keys, m.values, userMap).youAreOwedBy)
    ensures WithAmount(BuildListsOf(m, userMap).youOwe, a) == WithAmount(Partition(m.keys, m.values, userMap).youOwe, a)
    ensures WithAmount(BuildListsOf(m, userMap).youAreOwedBy, a)
      == WithAmount(Partition(m.keys, m.values, userMap).youAreOwedBy, a)
  {
    var p := Partition(m.keys, m.values, userMap);
    SortDescSorted(p.youOwe);
    SortDescSorted(p.youAreOwedBy);
    SortDescStable(p.youOwe, a);
    SortDescStable(p.youAreOwedBy, a);
  }
}

/**
 * The settle-up helpers of helper/settlements.ts: owed/owing between two users or between
 * the current user and each group member, reduced by settlements and clamped at zero.
 */
module SettlementHelpers {
  import opened Types
  import opened Records
  import opened BalanceMaps
  import opened ExpenseHelpers

  /** `Math.max(0, x)`. */
  function Max0(x: Money): (r: Money)
    ensures r >= 0 && r >= x && (r == 0 || r == x)
  {
    if x > 0 then x else 0
  }

  // ---------------------------------------------------------------- getUnpaidSplit

  /** `getUnpaidSplit(exp, u)`: the amount of `u`'s first unpaid split, or 0 without one. */
  function GetUnpaidSplit(e: Expense, u: UserId): (r: Money)
    ensures (forall s | s in e.splits :: !IsUnpaidOf(s, u)) ==> r == 0
    ensures r != 0 ==> exists s | s in e.splits :: IsUnpaidOf(s, u) && s.amount == r
    ensures FindUnpaid(e.splits, u).Some? ==> r == FindUnpaid(e.splits, u).value.amount
  {
    UnpaidAmount(e.splits, u)
  }

  /** Only the first unpaid split of `u` counts. */
  lemma GetUnpaidSplitIsFirst(e: Expense, u: UserId, i: nat)
    requires i < |e.splits| && IsUnpaidOf(e.splits[i], u)
    requires forall j | 0 <= j < i :: !IsUnpaidOf(e.splits[j], u)
    ensures GetUnpaidSplit(e, u) == e.splits[i].amount
  {
    FindUnpaidIsFirst(e.splits, u, i);
  }

  // ---------------------------------------------------------------- calculateUserBalances

  /** One expense seen by `calculateUserBalances(me, other, ...)`. */
  function UserBalanceStep(b: Balance, e: Expense, me: UserId, other: UserId): Balance {
    if e.paidBy == me then b.(owed := b.owed + GetUnpaidSplit(e, other))
    else if e.paidBy == other then b.(owing := b.owing + GetUnpaidSplit(e, me))
    else b
  }

  /** What `calculateUserBalances(me, other, expenses)` returns. */
  function UserBalances(me: UserId, other: UserId, expenses: seq<Expense>): Balance {
    if |expenses| == 0 then Zero
    else UserBalanceStep(UserBalances(me, other, expenses[..|expenses| - 1]), expenses[|expenses| - 1], me, other)
  }

  /** `calculateUserBalances(me, other, expenses)`. */
  method CalculateUserBalances(me: UserId, other: UserId, expenses: seq<Expense>) returns (b: Balance)
    ensures b == UserBalances(me, other, expenses)
  {
    var owed, owing := 0, 0;
    for i := 0 to |expenses|
      invariant Balance(owed, owing) == UserBalances(me, other, expenses[..i])
    {
      var exp := expenses[i];
      assert expenses[..i + 1][..i] == expenses[..i];
      if exp.paidBy == me {
        owed := owed + GetUnpaidSplit(exp, other);
      } else if exp.paidBy == other {
        owing := owing + GetUnpaidSplit(exp, me);
      }
    }
    assert expenses[..|expenses|] == expenses;
    b := Balance(owed, owing);
  }

  /**
   * `owed` sums `other`'s first unpaid split over the expenses `me` paid and `owing` sums
   * `me`'s over the expenses `other` paid; expenses anyone else paid count for nothing.
   */
  lemma {:induction false} UserBalancesSums(me: UserId, other: UserId, expenses: seq<Expense>)
    requires me != other
    ensures UserBalances(me, other, expenses) ==
      Balance(UnpaidOnPaidBy(expenses, me, other), UnpaidOnPaidBy(expenses, other, me))
  {
    if |expenses| != 0 {
      UserBalancesSums(me, other, expenses[..|expenses| - 1]);
    }
  }

  /** Between two users only, `owed - owing` is the signed balance `calculateExpense` computes. */
  lemma {:induction false} UserBalancesMatchCalculateExpense(me: UserId, other: UserId, expenses: seq<Expense>)
    requires forall e | e in expenses :: e.paidBy == me || e.paidBy == other
    ensures UserBalances(me, other, expenses).owed - UserBalances(me, other, expenses).owing
      == PairBalance(expenses, me, other)
  {
    if |expenses| != 0 {
      assert expenses[|expenses| - 1] in expenses;
      UserBalancesMatchCalculateExpense(me, other, expenses[..|expenses| - 1]);
    }
  }

  // ---------------------------------------------------------------- applyUserSettlements

  /** One settlement seen by `applyUserSettlements`: mine reduce `owing`, all others `owed`. */
  function SettleUserStep(b: Balance, t: Settlement, me: UserId): Balance {
    if t.paidBy == me then b.(owing := Max0(b.owing - t.amount))
    else b.(owed := Max0(b.owed - t.amount))
  }

  /** The balance after `applyUserSettlements(b, settlements, me)`. */
  function SettleUser(b: Balance, settlements: seq<Settlement>, me: UserId): Balance {
    if |settlements| == 0 then b
    else SettleUserStep(SettleUser(b, settlements[..|settlements| - 1], me), settlements[|settlements| - 1], me)
  }

  /** The pair `{ owed, owing }` that `applyUserSettlements` updates in place. */
  class UserBalance {
    var owed: Money
    var owing: Money

    function Value(): Balance
      reads this
    {
      Balance(owed, owing)
    }

    constructor (b: Balance)
      ensures Value() == b
    {
      owed, owing := b.owed, b.owing;
    }

    /** `applyUserSettlements(this, settlements, me)`. */
    method ApplyUserSettlements(settlements: seq<Settlement>, me: UserId)
      modifies this
      ensures Value() == SettleUser(old(Value()), settlements, me)
    {
      ghost var start := Value();
      for i := 0 to |settlements|
        invariant Value() == SettleUser(start, settlements[..i], me)
      {
        var st := settlements[i];
        assert settlements[..i + 1][..i] == settlements[..i];
        if st.paidBy == me {
          owing := Max0(owing - st.amount);
        } else {
          owed := Max0(owed - st.amount);
        }
      }
      assert settlements[..|settlements|] == settlements;
    }
  }

  /** Clamping keeps a non-negative balance non-negative, whatever the amounts. */
  lemma {:induction false} SettleUserNonNegative(b: Balance, settlements: seq<Settlement>, me: UserId)
    requires b.owed >= 0 && b.owing >= 0
    ensures SettleUser(b, settlements, me).owed >= 0 && SettleUser(b, settlements, me).owing >= 0
  {
    if |settlements| != 0 {
      SettleUserNonNegative(b, settlements[..|settlements| - 1], me);
    }
  }

  /**
   * With positive settlement amounts on a non-negative balance, each side ends at what is
   * left of it after all the settlements that reduce it, floored at zero; so neither side
   * ever grows, and the order of the settlements does not matter.
   */
  lemma {:induction false} SettleUserClosedForm(b: Balance, settlements: seq<Settlement>, me: UserId)
    requires b.owed >= 0 && b.owing >= 0
    requires forall t | t in settlements :: t.amount >= 0
    ensures SettleUser(b, settlements, me) ==
      Balance(Max0(b.owed - PaidTotal(settlements, me, false)), Max0(b.owing - PaidTotal(settlements, me, true)))
    ensures SettleUser(b, settlements, me).owed <= b.owed && SettleUser(b, settlements, me).owing <= b.owing
  {
    if |settlements| != 0 {
      var init := settlements[..|settlements| - 1];
      assert forall t | t in init :: t in settlements;
      assert settlements[|settlements| - 1] in settlements;
      SettleUserClosedForm(b, init, me);
    }
  }

  // ---------------------------------------------------------------- calculateGroupBalances

  /** `Object.fromEntries` over the members other than `me`, each at `{ owed: 0, owing: 0 }`. */
  function GroupStart(members: seq<UserId>, me: UserId): (r: OrderedMap<Balance>)
    ensures r.Valid()
    ensures forall k :: k in r.values <==> k in members && k != me
    ensures forall k | k in r.values :: r.values[k] == Zero
  {
    var ks := Dedup(Without(members, me));
    OrderedMap(ks, map k | k in ks :: Zero)
  }

  /** The `forEach` over the splits of an expense `me` paid: each unpaid split of a key adds to its `owed`. */
  function OwedSplits(b: map<UserId, Balance>, splits: seq<Split>): map<UserId, Balance> {
    if |splits| == 0 then b
    else
      var m := OwedSplits(b, splits[..|splits| - 1]);
      var s := splits[|splits| - 1];
      if !s.paid && s.userId in m then m[s.userId := m[s.userId].(owed := m[s.userId].owed + s.amount)] else m
  }

  /** One expense seen by `calculateGroupBalances`. */
  function GroupExpenseStep(b: map<UserId, Balance>, e: Expense, me: UserId): map<UserId, Balance> {
    if e.paidBy == me then OwedSplits(b, e.splits)
    else if e.paidBy in b then b[e.paidBy := b[e.paidBy].(owing := b[e.paidBy].owing + GetUnpaidSplit(e, me))]
    else b
  }

  function GroupBalances(b: map<UserId, Balance>, expenses: seq<Expense>, me: UserId): map<UserId, Balance> {
    if |expenses| == 0 then b
    else GroupExpenseStep(GroupBalances(b, expenses[..|expenses| - 1], me), expenses[|expenses| - 1], me)
  }

  /** `calculateGroupBalances(members, me, expenses)`. */
  method CalculateGroupBalances(members: seq<UserId>, me: UserId, expenses: seq<Expense>)
    returns (balances: OrderedMap<Balance>)
    ensures balances.keys == GroupStart(members, me).keys
    ensures balances.values == GroupBalances(GroupStart(members, me).values, expenses, me)
  {
    balances := GroupStart(members, me);
    ghost var start := balances.values;
    for i := 0 to |expenses|
      invariant balances.keys == GroupStart(members, me).keys
      invariant balances.values == GroupBalances(start, expenses[..i], me)
    {
      var exp := expenses[i];
      assert expenses[..i + 1][..i] == expenses[..i];
      if exp.paidBy == me {
        var owed := AddOwedSplits(balances.values, exp.splits);
        balances := OrderedMap(balances.keys, owed);
      } else if exp.paidBy in balances.values {
        var b := balances.values[exp.paidBy];
        balances := OrderedMap(balances.keys, balances.values[exp.paidBy := b.(owing := b.owing + GetUnpaidSplit(exp, me))]);
      }
    }
    assert expenses[..|expenses|] == expenses;
  }

  /** The inner `forEach` of `calculateGroupBalances`. */
  method AddOwedSplits(b: map<UserId, Balance>, splits: seq<Split>) returns (r: map<UserId, Balance>)
    ensures r == OwedSplits(b, splits)
  {
    r := b;
    for j := 0 to |splits|
      invariant r == OwedSplits(b, splits[..j])
    {
      var s := splits[j];
      assert splits[..j + 1][..j] == splits[..j];
      if !s.paid && s.userId in r {
        r := r[s.userId := r[s.userId].(owed := r[s.userId].owed + s.amount)];
      }
    }
    assert splits[..|splits|] == splits;
  }

  lemma {:induction false} OwedSplitsEffect(b: map<UserId, Balance>, splits: seq<Split>, k: UserId)
    ensures OwedSplits(b, splits).Keys == b.Keys
    ensures k in b ==> OwedSplits(b, splits)[k] == b[k].(owed := b[k].owed + UnpaidShare(splits, k))
  {
    if |splits| != 0 {
      OwedSplitsEffect(b, splits[..|splits| - 1], k);
    }
  }

  /**
   * The keys never change, and a key `k` ends with `owed` grown by all of `k`'s unpaid
   * splits on the expenses `me` paid and `owing` grown by `me`'s first unpaid split on each
   * expense `k` paid. Splits of non-members and expenses paid by non-members change nothing.
   */
  lemma {:induction false} GroupBalancesEffect(b: map<UserId, Balance>, expenses: seq<Expense>, me: UserId, k: UserId)
    requires me !in b
    ensures GroupBalances(b, expenses, me).Keys == b.Keys
    ensures k in b ==> (GroupBalances(b, expenses, me)[k] ==
      Balance(b[k].owed + ExpenseDebt(expenses, k, me), b[k].owing + UnpaidOnPaidBy(expenses, k, me)))
  {
    if |expenses| != 0 {
      var init := expenses[..|expenses| - 1];
      var e := expenses[|expenses| - 1];
      GroupBalancesEffect(b, init, me, k);
      OwedSplitsEffect(GroupBalances(b, init, me), e.splits, k);
    }
  }

  // ---------------------------------------------------------------- applyGroupSettlements

  /** One settlement seen by `applyGroupSettlements`: the two guarded updates in order. */
  function SettleGroupStep(b: map<UserId, Balance>, t: Settlement, me: UserId): map<UserId, Balance> {
    var b1 :=
      if t.paidBy == me && t.receivedBy in b
      then b[t.receivedBy := b[t.receivedBy].(owing := Max0(b[t.receivedBy].owing - t.amount))]
      else b;
    if t.receivedBy == me && t.paidBy in b1
    then b1[t.paidBy := b1[t.paidBy].(owed := Max0(b1[t.paidBy].owed - t.amount))]
    else b1
  }

  function SettleGroup(b: map<UserId, Balance>, settlements: seq<Settlement>, me: UserId): map<UserId, Balance> {
    if |settlements| == 0 then b
    else SettleGroupStep(SettleGroup(b, settlements[..|settlements| - 1], me), settlements[|settlements| - 1], me)
  }

  /** `applyGroupSettlements(balances, settlements, me)`. */
  method ApplyGroupSettlements(balances: BalanceMap, settlements: seq<Settlement>, me: UserId)
    modifies balances
    ensures balances.entries.keys == old(balances.entries.keys)
    ensures balances.entries.values == SettleGroup(old(balances.entries.values), settlements, me)
  {
    ghost var start := balances.entries.values;
    for i := 0 to |settlements|
      invariant balances.entries.keys == old(balances.entries.keys)
      invariant balances.entries.values == SettleGroup(start, settlements[..i], me)
    {
      var st := settlements[i];
      assert settlements[..i + 1][..i] == settlements[..i];
      if st.paidBy == me && st.receivedBy in balances.entries.values {
        var b := balances.entries.values[st.receivedBy];
        balances.Set(st.receivedBy, b.(owing := Max0(b.owing - st.amount)));
      }
      if st.receivedBy == me && st.paidBy in balances.entries.values {
        var b := balances.entries.values[st.paidBy];
        balances.Set(st.paidBy, b.(owed := Max0(b.owed - st.amount)));
      }
    }
    assert settlements[..|settlements|] == settlements;
  }

  /**
   * The keys never change; a settlement changes a key only when it is between `me` and that
   * key, and then only the side it settles, clamped at zero.
   */
  lemma SettleGroupStepEffect(b: map<UserId, Balance>, t: Settlement, me: UserId, k: UserId)
    requires me !in b && k in b
    ensures SettleGroupStep(b, t, me).Keys == b.Keys
    ensures SettleGroupStep(b, t, me)[k] ==
      if t.paidBy == me && t.receivedBy == k then b[k].(owing := Max0(b[k].owing - t.amount))
      else if t.receivedBy == me && t.paidBy == k then b[k].(owed := Max0(b[k].owed - t.amount))
      else b[k]
  {
  }

  lemma {:induction false} SettleGroupKeepsKeys(b: map<UserId, Balance>, settlements: seq<Settlement>, me: UserId)
    requires me !in b
    ensures SettleGroup(b, settlements, me).Keys == b.Keys
  {
    if |settlements| != 0 {
      var init := settlements[..|settlements| - 1];
      SettleGroupKeepsKeys(b, init, me);
      var m := SettleGroup(b, init, me);
      var t := settlements[|settlements| - 1];
      assert SettleGroupStep(m, t, me).Keys == m.Keys by {
        if t.paidBy == me && t.receivedBy in m {
          assert t.receivedBy != me;
        }
      }
    }
  }

  /** The settlements between `me` and `k`, in order. */
  function Between(settlements: seq<Settlement>, me: UserId, k: UserId): seq<Settlement> {
    if |settlements| == 0 then []
    else
      var t := settlements[|settlements| - 1];
      Between(settlements[..|settlements| - 1], me, k)
        + (if (t.paidBy == me && t.receivedBy == k) || (t.paidBy == k && t.receivedBy == me) then [t] else [])
  }

  /**
   * For a group member `k`, the group settle-up applies to `k`'s balance exactly what the
   * one-to-one settle-up applies for the settlements between `me` and `k`.
   */
  lemma {:induction false} SettleGroupIsPairwise(b: map<UserId, Balance>, settlements: seq<Settlement>, me: UserId, k: UserId)
    requires me !in b && k in b
    ensures k in SettleGroup(b, settlements, me)
    ensures SettleGroup(b, settlements, me)[k] == SettleUser(b[k], Between(settlements, me, k), me)
  {
    if |settlements| != 0 {
      var init := settlements[..|settlements| - 1];
      var t := settlements[|settlements| - 1];
      SettleGroupIsPairwise(b, init, me, k);
      SettleGroupKeepsKeys(b, init, me);
      SettleGroupStepEffect(SettleGroup(b, init, me), t, me, k);
      var pair := (t.paidBy == me && t.receivedBy == k) || (t.paidBy == k && t.receivedBy == me);
      assert k != me;
      if pair {
        var bs := Between(init, me, k) + [t];
        assert Between(settlements, me, k) == bs;
        assert bs[..|bs| - 1] == Between(init, me, k);
      } else {
        assert Between(settlements, me, k) == Between(init, me, k) + [];
        assert Between(init, me, k) + [] == Between(init, me, k);
      }
    }
  }

  // ---------------------------------------------------------------- buildSettlementResponse

  datatype UserLite = UserLite(id: UserId, name: Option<string>, email: string, image: Option<string>)

  datatype GroupInfo = GroupInfo(id: GroupId, name: string, description: Option<string>)

  datatype SettlementParams =
    | UserParams(user: UserLite, balance: Balance)
    | GroupParams(group: GroupInfo, balances: OrderedMap<Balance>, users: seq<UserLite>)

  datatype BalanceRow = BalanceRow(
    userId: UserId, name: string, image: Option<string>, youAreOwed: Money, youOwe: Money, netBalance: Money)

  datatype SettlementResponse =
    | UserResponse(counterpart: UserLite, youAreOwed: Money, youOwe: Money, netBalance: Money)
    | GroupResponse(group: GroupInfo, rows: seq<BalanceRow>)

  /** `userMap[id]` for `userMap = Object.fromEntries(users.map(...))`: the last user with that id. */
  function LastUser(users: seq<UserLite>, id: UserId): (r: Option<UserLite>)
    ensures r.Some? ==> r.value in users && r.value.id == id
    ensures r.None? <==> forall u | u in users :: u.id != id
  {
    if |users| == 0 then None
    else if users[|users| - 1].id == id then Some(users[|users| - 1])
    else
      assert forall u | u in users :: u in users[..|users| - 1] || u == users[|users| - 1];
      LastUser(users[..|users| - 1], id)
  }

  /** A response row for `k` carries `k`'s balance and its net `owed - owing`. */
  predicate RowOf(row: BalanceRow, k: UserId, values: map<UserId, Balance>) {
    k in values && row.userId == k && row.youAreOwed == values[k].owed && row.youOwe == values[k].owing
    && row.netBalance == values[k].owed - values[k].owing
  }

  function RowsOf(keys: seq<UserId>, values: map<UserId, Balance>, users: seq<UserLite>): (r: seq<BalanceRow>)
    requires forall k | k in keys :: k in values
    ensures |r| == |keys|
    ensures forall i | 0 <= i < |keys| :: RowOf(r[i], keys[i], values)
  {
    if |keys| == 0 then []
    else
      var k := keys[0];
      var u := LastUser(users, k);
      var name := if u.Some? && u.value.name.Some? then u.value.name.value else "Unknown";
      var image := if u.Some? then u.value.image else None;
      var b := values[k];
      [BalanceRow(k, name, image, b.owed, b.owing, b.owed - b.owing)] + RowsOf(keys[1..], values, users)
  }

  /** `buildSettlementResponse(params)`. */
  function BuildSettlementResponse(params: SettlementParams): (r: SettlementResponse)
    requires params.GroupParams? ==> params.balances.Valid()
    ensures params.UserParams? <==> r.UserResponse?
    ensures params.UserParams? ==>
      r.counterpart == params.user && r.youAreOwed == params.balance.owed && r.youOwe == params.balance.owing
      && r.netBalance == params.balance.owed - params.balance.owing
    ensures params.GroupParams? ==>
      r.group == params.group && |r.rows| == |params.balances.keys|
      && forall i | 0 <= i < |r.rows| :: RowOf(r.rows[i], params.balances.keys[i], params.balances.values)
  {
    match params
    case UserParams(user, balance) => UserResponse(user, balance.owed, balance.owing, balance.owed - balance.owing)
    case GroupParams(group, balances, users) => GroupResponse(group, RowsOf(balances.keys, balances.values, users))
  }

  /** A row's name comes from the last user listed with that id, else "Unknown". */
  lemma RowNames(keys: seq<UserId>, values: map<UserId, Balance>, users: seq<UserLite>, i: nat)
    requires forall k | k in keys :: k in values
    requires i < |keys|
    ensures RowsOf(keys, values, users)[i].name ==
      match LastUser(users, keys[i])
      case Some(u) => (if u.name.Some? then u.name.value else "Unknown")
      case None => "Unknown"
  {
    if i > 0 {
      RowNames(keys[1..], values, users, i - 1);
    }
  }
}

/**
 * actions/expenses.ts: the one-to-one balance of `getExpensesBetweenUsers`, the permission
 * and orphaned-settlement rules of `deleteExpense`, and the guards of `createExpense`.
 */
module ExpenseActions {
  import opened Types
  import opened ExpenseHelpers
  import opened DashboardHelpers
  import opened SettlementHelpers

  // ---------------------------------------------------------------- getExpensesBetweenUsers

  datatype BetweenError = CannotQuerySelf | UserNotFound

  datatype Between = Between(expenses: seq<Expense>, settlements: seq<Settlement>, otherUser: UserLite, balance: Money)

  /** The balance shown between `me` and `other`: the signed expense balance, then the settlements. */
  function BalanceBetween(expenses: seq<Expense>, settlements: seq<Settlement>, me: UserId, other: UserId): Money {
    PairBalance(FilterBetween(expenses, me, other), me, other) + SignedTotal(settlements, me)
  }

  /**
   * `getExpensesBetweenUsers`: querying oneself is rejected first; the balance is computed
   * on the expenses both users take part in, and only then is a missing user rejected.
   */
  method GetExpensesBetweenUsers(
    me: UserId, userId: UserId, expenses: seq<Expense>, settlements: seq<Settlement>, otherUser: Option<UserLite>)
    returns (r: Result<Between, BetweenError>)
    ensures me == userId <==> r == Err(CannotQuerySelf)
    ensures me != userId && otherUser.None? ==> r == Err(UserNotFound)
    ensures r.Ok? <==> me != userId && otherUser.Some?
    ensures r.Ok? ==>
      r.value == Between(FilterBetween(expenses, me, userId), settlements, otherUser.value,
        BalanceBetween(expenses, settlements, me, userId))
  {
    if me == userId {
      return Err(CannotQuerySelf);
    }
    var filteredExpenses := FilterBetween(expenses, me, userId);
    var balance := CalculateExpense(filteredExpenses, me, userId);
    balance := ApplySettlements(balance, settlements, me);
    if otherUser.None? {
      return Err(UserNotFound);
    }
    return Ok(Between(filteredExpenses, settlements, otherUser.value, balance));
  }

  /** Settlements between the two only: the one paid by either is received by the other. */
  predicate Mutual(settlements: seq<Settlement>, me: UserId, other: UserId) {
    forall t | t in settlements ::
      (t.paidBy == me && t.receivedBy == other) || (t.paidBy == other && t.receivedBy == me)
  }

  lemma {:induction false} SignedTotalAntisymmetric(settlements: seq<Settlement>, me: UserId, other: UserId)
    requires me != other && Mutual(settlements, me, other)
    ensures SignedTotal(settlements, me) == -SignedTotal(settlements, other)
  {
    if |settlements| != 0 {
      var init := settlements[..|settlements| - 1];
      assert forall t | t in init :: t in settlements;
      assert settlements[|settlements| - 1] in settlements;
      SignedTotalAntisymmetric(init, me, other);
    }
  }

  /**
   * On the rows the two queries fetch (expenses paid by one of the two users, settlements
   * between them), each user sees the negation of what the other sees.
   */
  lemma BalanceBetweenAntisymmetric(expenses: seq<Expense>, settlements: seq<Settlement>, me: UserId, other: UserId)
    requires me != other
    requires forall e | e in expenses :: e.paidBy == me || e.paidBy == other
    requires Mutual(settlements, me, other)
    ensures BalanceBetween(expenses, settlements, me, other) == -BalanceBetween(expenses, settlements, other, me)
  {
    var mine := FilterBetween(expenses, me, other);
    var theirs := FilterBetween(expenses, other, me);
    assert mine == theirs by {
      FilterBetweenSymmetric(expenses, me, other);
    }
    PairBalanceAntisymmetric(mine, me, other);
    SignedTotalAntisymmetric(settlements, me, other);
  }

  lemma {:induction false} FilterBetweenSymmetric(expenses: seq<Expense>, me: UserId, other: UserId)
    ensures FilterBetween(expenses, me, other) == FilterBetween(expenses, other, me)
  {
    if |expenses| != 0 {
      FilterBetweenSymmetric(expenses[..|expenses| - 1], me, other);
    }
  }

  // ---------------------------------------------------------------- deleteExpense

  /** A row of the join table between settlements and the expenses they settle. */
  datatype SettlementLink = SettlementLink(settlementId: nat, expenseId: nat)

  datatype DeleteError = ExpenseNotFound | NotPermitted

  /** What the transaction leaves: the remaining links and the settlements it deleted. */
  datatype Deletion = Deletion(links: seq<SettlementLink>, deletedSettlements: seq<nat>)

  /** The links of `expenseId`'s settlements, as `settlementExpense.findMany` returns them. */
  function LinkedSettlements(links: seq<SettlementLink>, expenseId: nat): (r: seq<nat>)
    ensures forall s :: s in r <==> SettlementLink(s, expenseId) in links
  {
    if |links| == 0 then []
    else
      var rest := LinkedSettlements(links[1..], expenseId);
      assert links == [links[0]] + links[1..];
      if links[0].expenseId == expenseId then [links[0].settlementId] + rest else rest
  }

  /** The links left by `settlementExpense.deleteMany({ where: { expenseId } })`. */
  function LinksWithout(links: seq<SettlementLink>, expenseId: nat): (r: seq<SettlementLink>)
    ensures forall l :: l in r <==> l in links && l.expenseId != expenseId
  {
    if |links| == 0 then []
    else
      var rest := LinksWithout(links[1..], expenseId);
      assert links == [links[0]] + links[1..];
      if links[0].expenseId == expenseId then rest else [links[0]] + rest
  }

  /** `settlementExpense.count({ where: { settlementId } })`. */
  function CountLinks(links: seq<SettlementLink>, settlementId: nat): (r: nat)
    ensures r == 0 <==> forall l | l in links :: l.settlementId != settlementId
  {
    if |links| == 0 then 0
    else
      assert links == [links[0]] + links[1..];
      (if links[0].settlementId == settlementId then 1 else 0) + CountLinks(links[1..], settlementId)
  }

  /**
   * `deleteExpense`: only the expense's creator or payer may delete it. The expense's links
   * are removed, and each settlement it was linked to is deleted exactly when no link to it
   * remains, that is when it settled no other expense.
   */
  method DeleteExpense(userId: UserId, expense: Option<Expense>, links: seq<SettlementLink>)
    returns (r: Result<Deletion, DeleteError>)
    ensures expense.None? ==> r == Err(ExpenseNotFound)
    ensures expense.Some? ==>
      (r == Err(NotPermitted) <==> expense.value.createdBy != userId && expense.value.paidBy != userId)
    ensures r.Ok? <==> expense.Some? && (expense.value.createdBy == userId || expense.value.paidBy == userId)
    ensures r.Ok? ==> r.value.links == LinksWithout(links, expense.value.id)
    ensures r.Ok? ==> forall s :: s in r.value.deletedSettlements <==>
      SettlementLink(s, expense.value.id) in links
      && forall l | l in links :: l.settlementId == s ==> l.expenseId == expense.value.id
  {
    if expense.None? {
      return Err(ExpenseNotFound);
    }
    var e := expense.value;
    if e.createdBy != userId && e.paidBy != userId {
      return Err(NotPermitted);
    }
    var settlementIds := LinkedSettlements(links, e.id);
    var remainingLinks := LinksWithout(links, e.id);
    var deleted := DeleteOrphans(settlementIds, remainingLinks);
    return Ok(Deletion(remainingLinks, deleted));
  }

  /** The loop of the transaction: each linked settlement with no link left is deleted. */
  method DeleteOrphans(settlementIds: seq<nat>, remainingLinks: seq<SettlementLink>) returns (deleted: seq<nat>)
    ensures forall s :: s in deleted <==> s in settlementIds && CountLinks(remainingLinks, s) == 0
  {
    deleted := [];
    for i := 0 to |settlementIds|
      invariant forall s :: s in deleted <==> s in settlementIds[..i] && CountLinks(remainingLinks, s) == 0
    {
      var settlementId := settlementIds[i];
      assert settlementIds[..i + 1] == settlementIds[..i] + [settlementId];
      var remaining := CountLinks(remainingLinks, settlementId);
      if remaining == 0 {
        deleted := deleted + [settlementId];
      }
    }
    assert settlementIds[..|settlementIds|] == settlementIds;
  }

  // ---------------------------------------------------------------- createExpense

  datatype CreateExpenseError = GroupNotFound | NotAMember | SplitsDoNotAddUp

  /** `splits.reduce((sum, split) => sum + split.amount, 0)`. */
  function SplitTotal(splits: seq<Split>): Money {
    if |splits| == 0 then 0 else SplitTotal(splits[..|splits| - 1]) + splits[|splits| - 1].amount
  }

  /** The tolerance of 0.01 in currency units, one cent. */
  const Tolerance: Money := 1

  function AbsDiff(a: Money, b: Money): (r: Money)
    ensures r >= 0 && (r == a - b || r == b - a)
  {
    if a >= b then a - b else b - a
  }

  /**
   * `createExpense`: for a group expense the group must exist and the creator be a member;
   * then the splits must add up to the amount within the tolerance. `group` is the group
   * found for `groupId`, with its member ids. On success the expense recorded.
   */
  function CreateExpense(
    userId: UserId, amount: Money, paidBy: UserId, groupId: Option<GroupId>, group: Option<seq<UserId>>,
    splits: seq<Split>, id: nat, date: int): (r: Result<Expense, CreateExpenseError>)
    ensures r == Err(GroupNotFound) <==> groupId.Some? && group.None?
    ensures r == Err(NotAMember) <==> groupId.Some? && group.Some? && userId !in group.value
    ensures r == Err(SplitsDoNotAddUp) <==>
      (groupId.Some? ==> group.Some? && userId in group.value) && AbsDiff(SplitTotal(splits), amount) > Tolerance
    ensures r.Ok? ==> r.value == Expense(id, paidBy, userId, groupId, date, splits)
  {
    if groupId.Some? && group.None? then Err(GroupNotFound)
    else if groupId.Some? && userId !in group.value then Err(NotAMember)
    else if AbsDiff(SplitTotal(splits), amount) > Tolerance then Err(SplitsDoNotAddUp)
    else Ok(Expense(id, paidBy, userId, groupId, date, splits))
  }

  /** Every recorded expense has splits within a cent of its amount, and a group one a member creator. */
  lemma CreatedExpenseAddsUp(
    userId: UserId, amount: Money, paidBy: UserId, groupId: Option<GroupId>, group: Option<seq<UserId>>,
    splits: seq<Split>, id: nat, date: int)
    requires CreateExpense(userId, amount, paidBy, groupId, group, splits, id, date).Ok?
    ensures var e := CreateExpense(userId, amount, paidBy, groupId, group, splits, id, date).value;
      amount - Tolerance <= SplitTotal(e.splits) <= amount + Tolerance
      && e.createdBy == userId
      && (groupId.Some? ==> group.Some? && e.createdBy in group.value)
  {
  }
}

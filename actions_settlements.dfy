/**
 * actions/settlements.ts: the guards `createSettlement` runs before recording a settlement,
 * and the way `getSettlementData` composes the settle-up helpers for a user or a group.
 */
module SettlementActions {
  import opened Types
  import opened Records
  import opened BalanceMaps
  import opened SettlementHelpers
  import opened LedgerSpec

  // ---------------------------------------------------------------- createSettlement

  datatype CreateError =
    | AmountNotPositive
    | SamePayerAndReceiver
    | NotAParty
    | GroupNotFound
    | PartiesNotMembers

  /**
   * `createSettlement`: the guards in source order, the first failing one deciding the error.
   * `group` is the group found for `groupId` (with its member ids) and is only consulted when
   * a group id is given. On success the settlement recorded, with the given id and date.
   */
  function CreateSettlement(
    currentUser: UserId, amount: Money, paidBy: UserId, receivedBy: UserId, groupId: Option<GroupId>,
    group: Option<seq<UserId>>, id: nat, date: int): (r: Result<Settlement, CreateError>)
    ensures r == Err(AmountNotPositive) <==> amount <= 0
    ensures r == Err(SamePayerAndReceiver) <==> amount > 0 && paidBy == receivedBy
    ensures r == Err(NotAParty) <==>
      amount > 0 && paidBy != receivedBy && currentUser != paidBy && currentUser != receivedBy
    ensures r == Err(GroupNotFound) <==>
      amount > 0 && paidBy != receivedBy && (currentUser == paidBy || currentUser == receivedBy)
      && groupId.Some? && group.None?
    ensures r.Ok? <==>
      amount > 0 && paidBy != receivedBy && (currentUser == paidBy || currentUser == receivedBy)
      && (groupId.Some? ==> group.Some? && paidBy in group.value && receivedBy in group.value)
    ensures r.Ok? ==> r.value == Settlement(id, amount, paidBy, receivedBy, groupId, date)
  {
    if amount <= 0 then Err(AmountNotPositive)
    else if paidBy == receivedBy then Err(SamePayerAndReceiver)
    else if currentUser != paidBy && currentUser != receivedBy then Err(NotAParty)
    else if groupId.Some? && group.None? then Err(GroupNotFound)
    else if groupId.Some? && (paidBy !in group.value || receivedBy !in group.value) then Err(PartiesNotMembers)
    else Ok(Settlement(id, amount, paidBy, receivedBy, groupId, date))
  }

  /**
   * A recorded group settlement is one the group ledger can take: two distinct members and
   * a positive amount, involving the user who recorded it.
   */
  lemma CreatedSettlementFits(
    currentUser: UserId, amount: Money, paidBy: UserId, receivedBy: UserId, groupId: Option<GroupId>,
    group: Option<seq<UserId>>, id: nat, date: int)
    requires CreateSettlement(currentUser, amount, paidBy, receivedBy, groupId, group, id, date).Ok?
    ensures var t := CreateSettlement(currentUser, amount, paidBy, receivedBy, groupId, group, id, date).value;
      t.amount > 0 && (currentUser == t.paidBy || currentUser == t.receivedBy)
      && (groupId.Some? ==> SettlementFits(t, Members(group.value)))
  {
  }

  // ---------------------------------------------------------------- getSettlementData

  datatype EntityType = UserEntity | GroupEntity | OtherEntity

  datatype DataError = UserNotFound | NoSuchGroup | NotAMember | InvalidEntityType

  /** The balance with another user: the expense balances, then that user's settlements. */
  function UserSettleUp(me: UserId, other: UserLite, expenses: seq<Expense>, settlements: seq<Settlement>): SettlementResponse {
    BuildSettlementResponse(UserParams(other, SettleUser(UserBalances(me, other.id, expenses), settlements, me)))
  }

  /** The per-member balances of a group after its expenses and then its settlements. */
  function GroupSettled(memberIds: seq<UserId>, me: UserId, expenses: seq<Expense>, settlements: seq<Settlement>): (r: OrderedMap<Balance>)
    ensures r.Valid() && r.keys == GroupStart(memberIds, me).keys
  {
    var start := GroupStart(memberIds, me);
    GroupBalancesEffect(start.values, expenses, me, me);
    SettleGroupKeepsKeys(GroupBalances(start.values, expenses, me), settlements, me);
    OrderedMap(start.keys, SettleGroup(GroupBalances(start.values, expenses, me), settlements, me))
  }

  function GroupSettleUp(
    group: GroupInfo, memberIds: seq<UserId>, me: UserId, expenses: seq<Expense>, settlements: seq<Settlement>,
    users: seq<UserLite>): SettlementResponse {
    BuildSettlementResponse(GroupParams(group, GroupSettled(memberIds, me, expenses, settlements), users))
  }

  /**
   * `getSettlementData`: for a user, the user must exist; for a group, the group must exist
   * and the caller must be one of its members; any other entity type is rejected. `other`,
   * `group` and the rows are what the queries return for the entity asked about.
   */
  method GetSettlementData(
    me: UserId, entityType: EntityType, other: Option<UserLite>, group: Option<GroupInfo>, memberIds: seq<UserId>,
    expenses: seq<Expense>, settlements: seq<Settlement>, users: seq<UserLite>)
    returns (r: Result<SettlementResponse, DataError>)
    ensures entityType == OtherEntity <==> r == Err(InvalidEntityType)
    ensures entityType == UserEntity ==>
      r == if other.None? then Err(UserNotFound) else Ok(UserSettleUp(me, other.value, expenses, settlements))
    ensures entityType == GroupEntity ==>
      r == if group.None? then Err(NoSuchGroup)
           else if me !in memberIds then Err(NotAMember)
           else Ok(GroupSettleUp(group.value, memberIds, me, expenses, settlements, users))
  {
    if entityType == UserEntity {
      if other.None? {
        return Err(UserNotFound);
      }
      var balance := CalculateUserBalances(me, other.value.id, expenses);
      var pair := new UserBalance(balance);
      pair.ApplyUserSettlements(settlements, me);
      return Ok(BuildSettlementResponse(UserParams(other.value, pair.Value())));
    }
    if entityType == GroupEntity {
      if group.None? {
        return Err(NoSuchGroup);
      }
      if me !in memberIds {
        return Err(NotAMember);
      }
      var start := CalculateGroupBalances(memberIds, me, expenses);
      GroupBalancesEffect(GroupStart(memberIds, me).values, expenses, me, me);
      var balances := new BalanceMap(start);
      ApplyGroupSettlements(balances, settlements, me);
      assert balances.entries == GroupSettled(memberIds, me, expenses, settlements);
      return Ok(BuildSettlementResponse(GroupParams(group.value, balances.entries, users)));
    }
    return Err(InvalidEntityType);
  }

  // ---------------------------------------------------------------- what the responses hold

  lemma {:induction false} UnpaidOnPaidByNonNegative(expenses: seq<Expense>, payer: UserId, u: UserId)
    requires forall e | e in expenses :: forall s | s in e.splits :: s.amount >= 0
    ensures UnpaidOnPaidBy(expenses, payer, u) >= 0
  {
    if |expenses| != 0 {
      var init := expenses[..|expenses| - 1];
      assert forall e | e in init :: e in expenses;
      assert expenses[|expenses| - 1] in expenses;
      UnpaidOnPaidByNonNegative(init, payer, u);
    }
  }

  /**
   * With a user: what each side is owed is its first unpaid splits on the other's expenses,
   * less the settlements that reduce that side, floored at zero; the net is their difference.
   */
  lemma UserSettleUpClosedForm(me: UserId, other: UserLite, expenses: seq<Expense>, settlements: seq<Settlement>)
    requires me != other.id
    requires forall e | e in expenses :: forall s | s in e.splits :: s.amount >= 0
    requires forall t | t in settlements :: t.amount >= 0
    ensures var r := UserSettleUp(me, other, expenses, settlements);
      r.UserResponse? && r.counterpart == other
      && r.youAreOwed == Max0(UnpaidOnPaidBy(expenses, me, other.id) - PaidTotal(settlements, me, false))
      && r.youOwe == Max0(UnpaidOnPaidBy(expenses, other.id, me) - PaidTotal(settlements, me, true))
      && r.netBalance == r.youAreOwed - r.youOwe
  {
    var b := UserBalances(me, other.id, expenses);
    UserBalancesSums(me, other.id, expenses);
    UnpaidOnPaidByNonNegative(expenses, me, other.id);
    UnpaidOnPaidByNonNegative(expenses, other.id, me);
    assert b.owed >= 0 && b.owing >= 0;
    SettleUserClosedForm(b, settlements, me);
    var settled := SettleUser(b, settlements, me);
    assert UserSettleUp(me, other, expenses, settlements) == UserResponse(other, settled.owed, settled.owing, settled.owed - settled.owing);
  }

  /**
   * For a group: one row per member other than `me`, in member order, and each row is the
   * one-to-one settle-up of that member's group expenses against the settlements between
   * the two of them.
   */
  lemma GroupSettleUpRows(
    group: GroupInfo, memberIds: seq<UserId>, me: UserId, expenses: seq<Expense>, settlements: seq<Settlement>,
    users: seq<UserLite>, i: nat)
    requires i < |GroupStart(memberIds, me).keys|
    ensures var r := GroupSettleUp(group, memberIds, me, expenses, settlements, users);
      var k := GroupStart(memberIds, me).keys[i];
      var b := SettleUser(Balance(ExpenseDebt(expenses, k, me), UnpaidOnPaidBy(expenses, k, me)), Between(settlements, me, k), me);
      r.GroupResponse? && r.group == group && |r.rows| == |GroupStart(memberIds, me).keys|
      && k in memberIds && k != me && r.rows[i].userId == k
      && r.rows[i].youAreOwed == b.owed && r.rows[i].youOwe == b.owing
      && r.rows[i].netBalance == b.owed - b.owing
  {
    var start := GroupStart(memberIds, me);
    var k := start.keys[i];
    assert k in start.values;
    var after := GroupBalances(start.values, expenses, me);
    GroupBalancesEffect(start.values, expenses, me, k);
    assert after[k] == Balance(ExpenseDebt(expenses, k, me), UnpaidOnPaidBy(expenses, k, me));
    SettleGroupIsPairwise(after, settlements, me, k);
    var settled := GroupSettled(memberIds, me, expenses, settlements);
    assert settled.values[k] == SettleUser(after[k], Between(settlements, me, k), me);
    var r := GroupSettleUp(group, memberIds, me, expenses, settlements, users);
    assert RowOf(r.rows[i], settled.keys[i], settled.values);
  }

  /** Every member other than `me` gets a row, and nobody else does. */
  lemma GroupSettleUpCoversMembers(
    group: GroupInfo, memberIds: seq<UserId>, me: UserId, expenses: seq<Expense>, settlements: seq<Settlement>,
    users: seq<UserLite>, k: UserId)
    ensures var r := GroupSettleUp(group, memberIds, me, expenses, settlements, users);
      r.GroupResponse? && ((exists i | 0 <= i < |r.rows| :: r.rows[i].userId == k) <==> k in memberIds && k != me)
  {
    var start := GroupStart(memberIds, me);
    var r := GroupSettleUp(group, memberIds, me, expenses, settlements, users);
    if k in memberIds && k != me {
      assert k in start.keys;
      var i :| 0 <= i < |start.keys| && start.keys[i] == k;
      assert r.rows[i].userId == k;
    }
    if exists i | 0 <= i < |r.rows| :: r.rows[i].userId == k {
      var i :| 0 <= i < |r.rows| && r.rows[i].userId == k;
      assert start.keys[i] in start.values;
    }
  }
}

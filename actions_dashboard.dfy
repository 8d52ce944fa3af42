/**
 * actions/dashboard.ts: the dashboard totals of `getUserBalances` and the per-group balances
 * of `getUserGroups`, composed from the dashboard helpers.
 */
module DashboardActions {
  import opened Types
  import opened Records
  import opened Sums
  import opened BalanceMaps
  import opened DashboardHelpers
  import opened DashboardLists
  import opened SettlementHelpers

  // ---------------------------------------------------------------- getUserBalances

  datatype DashboardBalances = DashboardBalances(youOwe: Money, youAreOwed: Money, totalBalance: Money, oweDetails: Lists)

  /** `Object.fromEntries(users.map(...))`: name and image by id, the last user listed winning. */
  function UserMapOf(users: seq<UserLite>): (r: map<UserId, UserInfo>)
    ensures forall k :: k in r <==> LastUser(users, k).Some?
    ensures forall k | k in r :: r[k] == UserInfo(LastUser(users, k).value.name, LastUser(users, k).value.image)
  {
    if |users| == 0 then map[]
    else
      var u := users[|users| - 1];
      UserMapOf(users[..|users| - 1])[u.id := UserInfo(u.name, u.image)]
  }

  /** The map after the expenses, then after the settlements, each pass starting its totals at zero. */
  function AfterExpenses(userId: UserId, expenses: seq<Expense>): Tally {
    ProcessedExpenses(Tally(EmptyMap(), 0, 0), expenses, userId)
  }

  function AfterSettlements(userId: UserId, expenses: seq<Expense>, settlements: seq<Settlement>): (r: Tally)
    ensures r.balances.Valid()
  {
    var e := AfterExpenses(userId, expenses);
    ProcessedExpensesEffect(Tally(EmptyMap(), 0, 0), expenses, userId, userId);
    ProcessedSettlementsValid(Tally(e.balances, 0, 0), settlements, userId);
    ProcessedSettlements(Tally(e.balances, 0, 0), settlements, userId)
  }

  /** What `getUserBalances` returns for `userId` given the rows its queries fetch. */
  function Dashboard(userId: UserId, expenses: seq<Expense>, settlements: seq<Settlement>, users: seq<UserLite>): DashboardBalances {
    var e := AfterExpenses(userId, expenses);
    var s := AfterSettlements(userId, expenses, settlements);
    DashboardBalances(
      e.owe + s.owe, e.owed + s.owed, e.owed + s.owed - (e.owe + s.owe),
      BuildListsOf(s.balances, UserMapOf(users)))
  }

  /** `getUserBalances`: expenses, then settlements into one shared map, then the two lists. */
  method GetUserBalances(userId: UserId, expenses: seq<Expense>, settlements: seq<Settlement>, users: seq<UserLite>)
    returns (r: DashboardBalances)
    ensures r == Dashboard(userId, expenses, settlements, users)
  {
    var balanceByUser := new BalanceMap(EmptyMap());
    var youOwe, youAreOwed := ProcessExpenses(expenses, userId, balanceByUser);
    var youOweDelta, youAreOwedDelta := ProcessSettlements(settlements, userId, balanceByUser);
    assert Tally(balanceByUser.entries, youOweDelta, youAreOwedDelta) == AfterSettlements(userId, expenses, settlements);
    var owe, owedBy := BuildLists(balanceByUser.entries, UserMapOf(users));
    r := DashboardBalances(
      youOwe + youOweDelta, youAreOwed + youAreOwedDelta,
      youAreOwed + youAreOwedDelta - (youOwe + youOweDelta), Lists(owe, owedBy));
  }

  /**
   * The dashboard headline: what the user is owed is what others owe on the user's expenses
   * less every settlement the user did not pay; what the user owes is its first unpaid
   * splits on others' expenses less what it paid; the total is the signed group-style
   * balance of the same rows.
   */
  lemma DashboardTotals(userId: UserId, expenses: seq<Expense>, settlements: seq<Settlement>, users: seq<UserLite>)
    ensures var r := Dashboard(userId, expenses, settlements, users);
      r.youAreOwed == OwedToUser(expenses, userId) - PaidTotal(settlements, userId, false)
      && r.youOwe == OwedByUser(expenses, userId) - PaidTotal(settlements, userId, true)
      && r.totalBalance == r.youAreOwed - r.youOwe
      && r.totalBalance == ExpenseBalance(expenses, userId) + SignedTotal(settlements, userId)
  {
    var e := AfterExpenses(userId, expenses);
    ProcessedExpensesTotals(Tally(EmptyMap(), 0, 0), expenses, userId);
    ProcessedSettlementsDeltas(Tally(e.balances, 0, 0), settlements, userId);
    SignedTotalMatchesDeltas(Tally(e.balances, 0, 0), settlements, userId);
    ExpenseBalanceByPayer(expenses, userId);
  }

  /** The headline totals are the sums of `owed` and of `owing` over the per-counterparty map. */
  lemma DashboardMatchesMap(userId: UserId, expenses: seq<Expense>, settlements: seq<Settlement>, users: seq<UserLite>)
    ensures var r := Dashboard(userId, expenses, settlements, users);
      var m := AfterSettlements(userId, expenses, settlements).balances.values;
      r.youAreOwed == MapSum(OwedOf(m)) && r.youOwe == MapSum(OwingOf(m))
  {
    var e := AfterExpenses(userId, expenses);
    ProcessedExpensesConserve(Tally(EmptyMap(), 0, 0), expenses, userId);
    ProcessedSettlementsConserve(Tally(e.balances, 0, 0), settlements, userId);
    var empty: map<UserId, Balance> := map[];
    assert OwedOf(empty) == map[] && OwingOf(empty) == map[];
    MapSumZero(OwedOf(empty));
    MapSumZero(OwingOf(empty));
  }

  // ---------------------------------------------------------------- getUserGroups

  /** The expenses of group `g`, in input order (`g == None` is the bucket JavaScript files under "null"). */
  function ExpensesIn(expenses: seq<Expense>, g: Option<GroupId>): seq<Expense> {
    if |expenses| == 0 then []
    else
      var e := expenses[|expenses| - 1];
      ExpensesIn(expenses[..|expenses| - 1], g) + (if e.groupId == g then [e] else [])
  }

  function SettlementsIn(settlements: seq<Settlement>, g: Option<GroupId>): seq<Settlement> {
    if |settlements| == 0 then []
    else
      var t := settlements[|settlements| - 1];
      SettlementsIn(settlements[..|settlements| - 1], g) + (if t.groupId == g then [t] else [])
  }

  /** `bucket[g] ?? []`. */
  function Bucket<T>(buckets: map<Option<GroupId>, seq<T>>, g: Option<GroupId>): seq<T> {
    if g in buckets then buckets[g] else []
  }

  /** The first loop of `getUserGroups`: each expense pushed onto its group's bucket, created on first use. */
  method BucketExpenses(expenses: seq<Expense>) returns (byGroup: map<Option<GroupId>, seq<Expense>>)
    ensures forall g :: Bucket(byGroup, g) == ExpensesIn(expenses, g)
    ensures forall g | g in byGroup :: byGroup[g] != []
  {
    byGroup := map[];
    for i := 0 to |expenses|
      invariant forall g :: Bucket(byGroup, g) == ExpensesIn(expenses[..i], g)
      invariant forall g | g in byGroup :: byGroup[g] != []
    {
      var e := expenses[i];
      assert expenses[..i + 1][..i] == expenses[..i];
      if e.groupId !in byGroup {
        byGroup := byGroup[e.groupId := []];
      }
      byGroup := byGroup[e.groupId := byGroup[e.groupId] + [e]];
    }
    assert expenses[..|expenses|] == expenses;
  }

  /** The second loop: the same for the settlements. */
  method BucketSettlements(settlements: seq<Settlement>) returns (byGroup: map<Option<GroupId>, seq<Settlement>>)
    ensures forall g :: Bucket(byGroup, g) == SettlementsIn(settlements, g)
    ensures forall g | g in byGroup :: byGroup[g] != []
  {
    byGroup := map[];
    for i := 0 to |settlements|
      invariant forall g :: Bucket(byGroup, g) == SettlementsIn(settlements[..i], g)
      invariant forall g | g in byGroup :: byGroup[g] != []
    {
      var t := settlements[i];
      assert settlements[..i + 1][..i] == settlements[..i];
      if t.groupId !in byGroup {
        byGroup := byGroup[t.groupId := []];
      }
      byGroup := byGroup[t.groupId := byGroup[t.groupId] + [t]];
    }
    assert settlements[..|settlements|] == settlements;
  }

  datatype GroupWithBalance = GroupWithBalance(group: GroupInfo, balance: Money)

  /** A group's balance: its expense balance for the user, then its settlements applied. */
  function GroupBalanceOf(userId: UserId, g: GroupId, expenses: seq<Expense>, settlements: seq<Settlement>): Money {
    ExpenseBalance(ExpensesIn(expenses, Some(g)), userId) + SignedTotal(SettlementsIn(settlements, Some(g)), userId)
  }

  /**
   * `getUserGroups`: no groups give no result; otherwise one entry per group, in order,
   * each with the balance of that group's own expenses and settlements.
   */
  method GetUserGroups(userId: UserId, groups: seq<GroupInfo>, expenses: seq<Expense>, settlements: seq<Settlement>)
    returns (r: seq<GroupWithBalance>)
    ensures |r| == |groups|
    ensures forall i | 0 <= i < |groups| ::
      r[i].group == groups[i] && r[i].balance == GroupBalanceOf(userId, groups[i].id, expenses, settlements)
  {
    if |groups| == 0 {
      return [];
    }
    var expensesByGroup := BucketExpenses(expenses);
    var settlementsByGroup := BucketSettlements(settlements);
    r := [];
    for i := 0 to |groups|
      invariant |r| == i
      invariant forall j | 0 <= j < i ::
        r[j].group == groups[j] && r[j].balance == GroupBalanceOf(userId, groups[j].id, expenses, settlements)
    {
      var group := groups[i];
      var expenseBalance := CalculateExpenseBalance(Bucket(expensesByGroup, Some(group.id)), userId);
      var finalBalance := ApplySettlements(expenseBalance, Bucket(settlementsByGroup, Some(group.id)), userId);
      r := r + [GroupWithBalance(group, finalBalance)];
    }
  }

  lemma {:induction false} ExpensesInMembers(expenses: seq<Expense>, g: Option<GroupId>, e: Expense)
    ensures e in ExpensesIn(expenses, g) <==> e in expenses && e.groupId == g
  {
    if |expenses| != 0 {
      ExpensesInMembers(expenses[..|expenses| - 1], g, e);
      assert expenses == expenses[..|expenses| - 1] + [expenses[|expenses| - 1]];
    }
  }

  lemma {:induction false} SettlementsInMembers(settlements: seq<Settlement>, g: Option<GroupId>, t: Settlement)
    ensures t in SettlementsIn(settlements, g) <==> t in settlements && t.groupId == g
  {
    if |settlements| != 0 {
      SettlementsInMembers(settlements[..|settlements| - 1], g, t);
      assert settlements == settlements[..|settlements| - 1] + [settlements[|settlements| - 1]];
    }
  }

  /** Bucketing keeps the relative order of the rows it keeps: it distributes over concatenation. */
  lemma {:induction false} ExpensesInAppend(a: seq<Expense>, b: seq<Expense>, g: Option<GroupId>)
    ensures ExpensesIn(a + b, g) == ExpensesIn(a, g) + ExpensesIn(b, g)
  {
    if |b| == 0 {
      assert a + b == a;
    } else {
      assert (a + b)[..|a + b| - 1] == a + b[..|b| - 1];
      ExpensesInAppend(a, b[..|b| - 1], g);
    }
  }

  /** A group without expenses or settlements of its own has balance zero. */
  lemma {:induction false} EmptyBucketsBalanceZero(userId: UserId, g: GroupId, expenses: seq<Expense>, settlements: seq<Settlement>)
    requires forall e | e in expenses :: e.groupId != Some(g)
    requires forall t | t in settlements :: t.groupId != Some(g)
    ensures GroupBalanceOf(userId, g, expenses, settlements) == 0
  {
    if ExpensesIn(expenses, Some(g)) != [] {
      var e := ExpensesIn(expenses, Some(g))[0];
      ExpensesInMembers(expenses, Some(g), e);
    }
    if SettlementsIn(settlements, Some(g)) != [] {
      var t := SettlementsIn(settlements, Some(g))[0];
      SettlementsInMembers(settlements, Some(g), t);
    }
  }

  /** Rows of other groups never change a group's balance. */
  lemma OtherGroupsIgnored(userId: UserId, g: GroupId, expenses: seq<Expense>, more: seq<Expense>, settlements: seq<Settlement>)
    requires forall e | e in more :: e.groupId != Some(g)
    ensures GroupBalanceOf(userId, g, expenses + more, settlements) == GroupBalanceOf(userId, g, expenses, settlements)
  {
    ExpensesInAppend(expenses, more, Some(g));
    if ExpensesIn(more, Some(g)) != [] {
      ExpensesInMembers(more, Some(g), ExpensesIn(more, Some(g))[0]);
    }
    assert ExpensesIn(expenses, Some(g)) + [] == ExpensesIn(expenses, Some(g));
  }
}

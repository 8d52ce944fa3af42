/**
 * The dashboard helpers of helper/dashboard.ts: per-counterparty balances filled from the
 * user's expenses and settlements, and the signed balance of one group.
 */
module DashboardHelpers {
  import opened Types
  import opened Sums
  import opened Records
  import opened BalanceMaps

  /** A counterparty's balance, zero when it has no entry. */
  function BalanceOf(m: map<UserId, Balance>, k: UserId): Balance {
    if k in m then m[k] else Zero
  }

  /** `k`'s `owed` grown by `v`, a zero balance standing in for a missing entry. */
  function BumpOwed(m: map<UserId, Balance>, k: UserId, v: Money): map<UserId, Balance> {
    m[k := BalanceOf(m, k).(owed := BalanceOf(m, k).owed + v)]
  }

  /** `k`'s `owing` grown by `v`, a zero balance standing in for a missing entry. */
  function BumpOwing(m: map<UserId, Balance>, k: UserId, v: Money): map<UserId, Balance> {
    m[k := BalanceOf(m, k).(owing := BalanceOf(m, k).owing + v)]
  }

  /** `ensureBalance(map, k).owed += v`. */
  function AddOwed(m: OrderedMap<Balance>, k: UserId, v: Money): (r: OrderedMap<Balance>)
    ensures m.Valid() ==> r.Valid()
    ensures r.keys == Ensure(m, k).keys
    ensures r.values == BumpOwed(m.values, k, v)
  {
    var e := Ensure(m, k);
    e.Put(k, e.values[k].(owed := e.values[k].owed + v))
  }

  /** `ensureBalance(map, k).owing += v`. */
  function AddOwing(m: OrderedMap<Balance>, k: UserId, v: Money): (r: OrderedMap<Balance>)
    ensures m.Valid() ==> r.Valid()
    ensures r.keys == Ensure(m, k).keys
    ensures r.values == BumpOwing(m.values, k, v)
  {
    var e := Ensure(m, k);
    e.Put(k, e.values[k].(owing := e.values[k].owing + v))
  }

  /** The shared map together with the two running totals a dashboard pass returns. */
  datatype Tally = Tally(balances: OrderedMap<Balance>, owe: Money, owed: Money)

  // ---------------------------------------------------------------- processExpenses

  /** The inner loop of `processExpenses` over an expense `u` paid: own and paid splits are skipped. */
  function OwnSplits(t: Tally, splits: seq<Split>, u: UserId): Tally {
    if |splits| == 0 then t
    else
      var prev := OwnSplits(t, splits[..|splits| - 1], u);
      var s := splits[|splits| - 1];
      if s.userId == u || s.paid then prev
      else Tally(AddOwed(prev.balances, s.userId, s.amount), prev.owe, prev.owed + s.amount)
  }

  /** One expense seen by `processExpenses`. */
  function ExpenseStep(t: Tally, e: Expense, u: UserId): Tally {
    if e.paidBy == u then OwnSplits(t, e.splits, u)
    else
      match FindUnpaid(e.splits, u)
      case None => t
      case Some(s) => Tally(AddOwing(t.balances, e.paidBy, s.amount), t.owe + s.amount, t.owed)
  }

  function ProcessedExpenses(t: Tally, expenses: seq<Expense>, u: UserId): Tally {
    if |expenses| == 0 then t
    else ExpenseStep(ProcessedExpenses(t, expenses[..|expenses| - 1], u), expenses[|expenses| - 1], u)
  }

  /** `processExpenses(expenses, userId, balanceByUser)`. */
  method ProcessExpenses(expenses: seq<Expense>, userId: UserId, balanceByUser: BalanceMap)
    returns (youOwe: Money, youAreOwed: Money)
    modifies balanceByUser
    ensures Tally(balanceByUser.entries, youOwe, youAreOwed)
      == ProcessedExpenses(Tally(old(balanceByUser.entries), 0, 0), expenses, userId)
  {
    youOwe, youAreOwed := 0, 0;
    ghost var start := Tally(balanceByUser.entries, 0, 0);
    for i := 0 to |expenses|
      invariant Tally(balanceByUser.entries, youOwe, youAreOwed) == ProcessedExpenses(start, expenses[..i], userId)
    {
      var e := expenses[i];
      assert expenses[..i + 1][..i] == expenses[..i];
      if e.paidBy == userId {
        youAreOwed := ProcessOwnSplits(e.splits, userId, balanceByUser, youOwe, youAreOwed);
        continue;
      }
      var mySplit := FindUnpaid(e.splits, userId);
      if mySplit.None? {
        continue;
      }
      youOwe := youOwe + mySplit.value.amount;
      var b := balanceByUser.EnsureBalance(e.paidBy);
      balanceByUser.Set(e.paidBy, b.(owing := b.owing + mySplit.value.amount));
    }
    assert expenses[..|expenses|] == expenses;
  }

  /** The inner loop of `processExpenses`. */
  method ProcessOwnSplits(splits: seq<Split>, userId: UserId, balanceByUser: BalanceMap, youOwe: Money, youAreOwed0: Money)
    returns (youAreOwed: Money)
    modifies balanceByUser
    ensures Tally(balanceByUser.entries, youOwe, youAreOwed)
      == OwnSplits(Tally(old(balanceByUser.entries), youOwe, youAreOwed0), splits, userId)
  {
    youAreOwed := youAreOwed0;
    ghost var start := Tally(balanceByUser.entries, youOwe, youAreOwed0);
    for j := 0 to |splits|
      invariant Tally(balanceByUser.entries, youOwe, youAreOwed) == OwnSplits(start, splits[..j], userId)
    {
      var s := splits[j];
      assert splits[..j + 1][..j] == splits[..j];
      if s.userId == userId || s.paid {
        continue;
      }
      youAreOwed := youAreOwed + s.amount;
      var b := balanceByUser.EnsureBalance(s.userId);
      balanceByUser.Set(s.userId, b.(owed := b.owed + s.amount));
    }
    assert splits[..|splits|] == splits;
  }

  /** The sum of the unpaid splits of everyone but `u`. */
  function UnpaidOthers(splits: seq<Split>, u: UserId): Money {
    if |splits| == 0 then 0
    else
      var s := splits[|splits| - 1];
      UnpaidOthers(splits[..|splits| - 1], u) + (if s.userId != u && !s.paid then s.amount else 0)
  }

  /** What the others owe `u` on the expenses `u` paid. */
  function OwedToUser(expenses: seq<Expense>, u: UserId): Money {
    if |expenses| == 0 then 0
    else
      var e := expenses[|expenses| - 1];
      OwedToUser(expenses[..|expenses| - 1], u) + (if e.paidBy == u then UnpaidOthers(e.splits, u) else 0)
  }

  /** What `u` owes on the expenses others paid: `u`'s first unpaid split on each. */
  function OwedByUser(expenses: seq<Expense>, u: UserId): Money {
    if |expenses| == 0 then 0
    else
      var e := expenses[|expenses| - 1];
      OwedByUser(expenses[..|expenses| - 1], u) + (if e.paidBy != u then UnpaidAmount(e.splits, u) else 0)
  }

  lemma {:induction false} OwnSplitsTotals(t: Tally, splits: seq<Split>, u: UserId)
    ensures OwnSplits(t, splits, u).owe == t.owe
    ensures OwnSplits(t, splits, u).owed == t.owed + UnpaidOthers(splits, u)
  {
    if |splits| != 0 {
      OwnSplitsTotals(t, splits[..|splits| - 1], u);
    }
  }

  /**
   * The returned `youAreOwed` is everything others owe on the expenses the user paid, and
   * `youOwe` is the user's first unpaid split summed over the expenses others paid.
   */
  lemma {:induction false} ProcessedExpensesTotals(t: Tally, expenses: seq<Expense>, u: UserId)
    ensures ProcessedExpenses(t, expenses, u).owed == t.owed + OwedToUser(expenses, u)
    ensures ProcessedExpenses(t, expenses, u).owe == t.owe + OwedByUser(expenses, u)
  {
    if |expenses| != 0 {
      var init := expenses[..|expenses| - 1];
      ProcessedExpensesTotals(t, init, u);
      OwnSplitsTotals(ProcessedExpenses(t, init, u), expenses[|expenses| - 1].splits, u);
    }
  }

  lemma {:induction false} OwnSplitsEffect(t: Tally, splits: seq<Split>, u: UserId, k: UserId)
    ensures t.balances.Valid() ==> OwnSplits(t, splits, u).balances.Valid()
    ensures BalanceOf(OwnSplits(t, splits, u).balances.values, k) ==
      var b := BalanceOf(t.balances.values, k);
      b.(owed := b.owed + if k == u then 0 else UnpaidShare(splits, k))
  {
    if |splits| != 0 {
      OwnSplitsEffect(t, splits[..|splits| - 1], u, k);
    }
  }

  /**
   * Counterparty `k` ends with `owed` grown by its unpaid splits on the expenses the user
   * paid and `owing` grown by the user's first unpaid split on each expense `k` paid; the
   * user's own splits and paid splits never count, and the record stays well formed.
   */
  lemma {:induction false} ProcessedExpensesEffect(t: Tally, expenses: seq<Expense>, u: UserId, k: UserId)
    ensures t.balances.Valid() ==> ProcessedExpenses(t, expenses, u).balances.Valid()
    ensures BalanceOf(ProcessedExpenses(t, expenses, u).balances.values, k) ==
      var b := BalanceOf(t.balances.values, k);
      Balance(b.owed + ExpenseDebt(expenses, k, u), b.owing + if k == u then 0 else UnpaidOnPaidBy(expenses, k, u))
  {
    if |expenses| != 0 {
      var init := expenses[..|expenses| - 1];
      ProcessedExpensesEffect(t, init, u, k);
      OwnSplitsEffect(ProcessedExpenses(t, init, u), expenses[|expenses| - 1].splits, u, k);
    }
  }

  // ---------------------------------------------------------------- sums over the map

  function OwedOf(m: map<UserId, Balance>): map<UserId, Money> {
    map k | k in m :: m[k].owed
  }

  function OwingOf(m: map<UserId, Balance>): map<UserId, Money> {
    map k | k in m :: m[k].owing
  }

  /** Replacing one balance changes the sum of `owed` by the difference. */
  lemma OwedUpdateSum(m: map<UserId, Balance>, k: UserId, b: Balance)
    ensures MapSum(OwedOf(m[k := b])) == MapSum(OwedOf(m)) - BalanceOf(m, k).owed + b.owed
  {
    OwedOfUpdate(m, k, b);
    MapSumUpdate(OwedOf(m), k, b.owed);
  }

  lemma OwedOfUpdate(m: map<UserId, Balance>, k: UserId, b: Balance)
    ensures OwedOf(m[k := b]) == OwedOf(m)[k := b.owed]
  {
  }

  /** Replacing one balance changes the sum of `owing` by the difference. */
  lemma OwingUpdateSum(m: map<UserId, Balance>, k: UserId, b: Balance)
    ensures MapSum(OwingOf(m[k := b])) == MapSum(OwingOf(m)) - BalanceOf(m, k).owing + b.owing
  {
    OwingOfUpdate(m, k, b);
    MapSumUpdate(OwingOf(m), k, b.owing);
  }

  lemma OwingOfUpdate(m: map<UserId, Balance>, k: UserId, b: Balance)
    ensures OwingOf(m[k := b]) == OwingOf(m)[k := b.owing]
  {
  }

  lemma BumpOwedSums(m: map<UserId, Balance>, k: UserId, v: Money)
    ensures MapSum(OwedOf(BumpOwed(m, k, v))) == MapSum(OwedOf(m)) + v
    ensures MapSum(OwingOf(BumpOwed(m, k, v))) == MapSum(OwingOf(m))
  {
    var nb := BalanceOf(m, k).(owed := BalanceOf(m, k).owed + v);
    assert BumpOwed(m, k, v) == m[k := nb];
    OwedUpdateSum(m, k, nb);
    OwingUpdateSum(m, k, nb);
  }

  lemma BumpOwingSums(m: map<UserId, Balance>, k: UserId, v: Money)
    ensures MapSum(OwedOf(BumpOwing(m, k, v))) == MapSum(OwedOf(m))
    ensures MapSum(OwingOf(BumpOwing(m, k, v))) == MapSum(OwingOf(m)) + v
  {
    var nb := BalanceOf(m, k).(owing := BalanceOf(m, k).owing + v);
    assert BumpOwing(m, k, v) == m[k := nb];
    OwedUpdateSum(m, k, nb);
    OwingUpdateSum(m, k, nb);
  }

  /** The totals move exactly as the sums of `owed` and `owing` over the whole map. */
  ghost predicate Balanced(t: Tally, t': Tally) {
    MapSum(OwedOf(t'.balances.values)) - t'.owed == MapSum(OwedOf(t.balances.values)) - t.owed
    && MapSum(OwingOf(t'.balances.values)) - t'.owe == MapSum(OwingOf(t.balances.values)) - t.owe
  }

  lemma {:induction false} OwnSplitsConserve(t: Tally, splits: seq<Split>, u: UserId)
    ensures Balanced(t, OwnSplits(t, splits, u))
  {
    if |splits| != 0 {
      var prev := OwnSplits(t, splits[..|splits| - 1], u);
      var s := splits[|splits| - 1];
      OwnSplitsConserve(t, splits[..|splits| - 1], u);
      BumpOwedSums(prev.balances.values, s.userId, s.amount);
    }
  }

  /** `youAreOwed` and `youOwe` are exactly what `processExpenses` added to the map's `owed` and `owing`. */
  lemma {:induction false} ProcessedExpensesConserve(t: Tally, expenses: seq<Expense>, u: UserId)
    ensures Balanced(t, ProcessedExpenses(t, expenses, u))
  {
    if |expenses| != 0 {
      var init := expenses[..|expenses| - 1];
      var e := expenses[|expenses| - 1];
      var prev := ProcessedExpenses(t, init, u);
      ProcessedExpensesConserve(t, init, u);
      if e.paidBy == u {
        OwnSplitsConserve(prev, e.splits, u);
      } else if FindUnpaid(e.splits, u).Some? {
        BumpOwingSums(prev.balances.values, e.paidBy, FindUnpaid(e.splits, u).value.amount);
      }
    }
  }

  // ---------------------------------------------------------------- processSettlements

  /** One settlement seen by `processSettlements`: a decrement, never clamped. */
  function SettlementStep(t: Tally, s: Settlement, u: UserId): Tally {
    if s.paidBy == u then Tally(AddOwing(t.balances, s.receivedBy, -s.amount), t.owe - s.amount, t.owed)
    else Tally(AddOwed(t.balances, s.paidBy, -s.amount), t.owe, t.owed - s.amount)
  }

  function ProcessedSettlements(t: Tally, settlements: seq<Settlement>, u: UserId): Tally {
    if |settlements| == 0 then t
    else SettlementStep(ProcessedSettlements(t, settlements[..|settlements| - 1], u), settlements[|settlements| - 1], u)
  }

  /** `processSettlements(settlements, userId, balanceByUser)`. */
  method ProcessSettlements(settlements: seq<Settlement>, userId: UserId, balanceByUser: BalanceMap)
    returns (youOweDelta: Money, youAreOwedDelta: Money)
    modifies balanceByUser
    ensures Tally(balanceByUser.entries, youOweDelta, youAreOwedDelta)
      == ProcessedSettlements(Tally(old(balanceByUser.entries), 0, 0), settlements, userId)
  {
    youOweDelta, youAreOwedDelta := 0, 0;
    ghost var start := Tally(balanceByUser.entries, 0, 0);
    for i := 0 to |settlements|
      invariant Tally(balanceByUser.entries, youOweDelta, youAreOwedDelta)
        == ProcessedSettlements(start, settlements[..i], userId)
    {
      var s := settlements[i];
      assert settlements[..i + 1][..i] == settlements[..i];
      if s.paidBy == userId {
        youOweDelta := youOweDelta - s.amount;
        var b := balanceByUser.EnsureBalance(s.receivedBy);
        balanceByUser.Set(s.receivedBy, b.(owing := b.owing - s.amount));
      } else {
        youAreOwedDelta := youAreOwedDelta - s.amount;
        var b := balanceByUser.EnsureBalance(s.paidBy);
        balanceByUser.Set(s.paidBy, b.(owed := b.owed - s.amount));
      }
    }
    assert settlements[..|settlements|] == settlements;
  }

  /**
   * The `youOwe` delta is minus the total the user paid and the `youAreOwed` delta minus
   * the total of every other settlement, so with non-negative amounts neither delta is positive.
   */
  lemma {:induction false} ProcessedSettlementsDeltas(t: Tally, settlements: seq<Settlement>, u: UserId)
    ensures ProcessedSettlements(t, settlements, u).owe == t.owe - PaidTotal(settlements, u, true)
    ensures ProcessedSettlements(t, settlements, u).owed == t.owed - PaidTotal(settlements, u, false)
    ensures (forall s | s in settlements :: s.amount >= 0) ==>
      ProcessedSettlements(t, settlements, u).owe <= t.owe && ProcessedSettlements(t, settlements, u).owed <= t.owed
  {
    if |settlements| != 0 {
      ProcessedSettlementsDeltas(t, settlements[..|settlements| - 1], u);
    }
    if forall s | s in settlements :: s.amount >= 0 {
      PaidTotalNonNegative(settlements, u, true);
      PaidTotalNonNegative(settlements, u, false);
    }
  }

  /** Every key `processSettlements` touches is made present first, so the map stays well formed. */
  lemma {:induction false} ProcessedSettlementsValid(t: Tally, settlements: seq<Settlement>, u: UserId)
    requires t.balances.Valid()
    ensures ProcessedSettlements(t, settlements, u).balances.Valid()
  {
    if |settlements| != 0 {
      ProcessedSettlementsValid(t, settlements[..|settlements| - 1], u);
    }
  }

  lemma SettlementStepConserves(t: Tally, s: Settlement, u: UserId)
    ensures Balanced(t, SettlementStep(t, s, u))
  {
    if s.paidBy == u {
      BumpOwingSums(t.balances.values, s.receivedBy, -s.amount);
    } else {
      BumpOwedSums(t.balances.values, s.paidBy, -s.amount);
    }
  }

  /** The deltas are exactly the decrements `processSettlements` applied to the map. */
  lemma {:induction false} ProcessedSettlementsConserve(t: Tally, settlements: seq<Settlement>, u: UserId)
    ensures Balanced(t, ProcessedSettlements(t, settlements, u))
  {
    if |settlements| != 0 {
      var prev := ProcessedSettlements(t, settlements[..|settlements| - 1], u);
      ProcessedSettlementsConserve(t, settlements[..|settlements| - 1], u);
      SettlementStepConserves(prev, settlements[|settlements| - 1], u);
    }
  }

  /**
   * Nothing is clamped: a settlement `u` paid lowers the receiver's `owing` by its amount, any
   * other lowers the payer's `owed`, a missing entry counting as zero; so a settlement larger
   * than the recorded debt drives the entry below zero.
   */
  lemma ProcessSettlementsDoesNotClamp(t: Tally, s: Settlement, u: UserId)
    ensures var r := ProcessedSettlements(t, [s], u).balances.values;
      if s.paidBy == u then
        var before := BalanceOf(t.balances.values, s.receivedBy).owing;
        s.receivedBy in r && r[s.receivedBy].owing == before - s.amount
        && (s.amount > before ==> r[s.receivedBy].owing < 0)
      else
        var before := BalanceOf(t.balances.values, s.paidBy).owed;
        s.paidBy in r && r[s.paidBy].owed == before - s.amount
        && (s.amount > before ==> r[s.paidBy].owed < 0)
  {
    assert [s][..0] == [];
  }

  // ---------------------------------------------------------------- calculateExpenseBalance

  /** One expense seen by `calculateExpenseBalance`. */
  function ExpenseBalanceStep(balance: Money, e: Expense, u: UserId): Money {
    if e.paidBy == u then balance + UnpaidOthers(e.splits, u)
    else
      match FindUnpaid(e.splits, u)
      case Some(s) => balance - s.amount
      case None => balance
  }

  /** What `calculateExpenseBalance(expenses, u)` returns. */
  function ExpenseBalance(expenses: seq<Expense>, u: UserId): Money {
    if |expenses| == 0 then 0
    else ExpenseBalanceStep(ExpenseBalance(expenses[..|expenses| - 1], u), expenses[|expenses| - 1], u)
  }

  /** `calculateExpenseBalance(expenses, userId)`. */
  method CalculateExpenseBalance(expenses: seq<Expense>, userId: UserId) returns (balance: Money)
    ensures balance == ExpenseBalance(expenses, userId)
  {
    balance := 0;
    for i := 0 to |expenses|
      invariant balance == ExpenseBalance(expenses[..i], userId)
    {
      var expense := expenses[i];
      assert expenses[..i + 1][..i] == expenses[..i];
      if expense.paidBy == userId {
        balance := AddUnpaidOthers(balance, expense.splits, userId);
      } else {
        var userSplit := FindUnpaid(expense.splits, userId);
        if userSplit.Some? {
          balance := balance - userSplit.value.amount;
        }
      }
    }
    assert expenses[..|expenses|] == expenses;
  }

  /** The inner loop of `calculateExpenseBalance`. */
  method AddUnpaidOthers(balance0: Money, splits: seq<Split>, userId: UserId) returns (balance: Money)
    ensures balance == balance0 + UnpaidOthers(splits, userId)
  {
    balance := balance0;
    for j := 0 to |splits|
      invariant balance == balance0 + UnpaidOthers(splits[..j], userId)
    {
      var split := splits[j];
      assert splits[..j + 1][..j] == splits[..j];
      if split.userId != userId && !split.paid {
        balance := balance + split.amount;
      }
    }
    assert splits[..|splits|] == splits;
  }

  /** The group balance is what others owe on the user's expenses minus what the user owes on theirs. */
  lemma {:induction false} ExpenseBalanceByPayer(expenses: seq<Expense>, u: UserId)
    ensures ExpenseBalance(expenses, u) == OwedToUser(expenses, u) - OwedByUser(expenses, u)
  {
    if |expenses| != 0 {
      ExpenseBalanceByPayer(expenses[..|expenses| - 1], u);
    }
  }

  /** The dashboard totals and the per-group balance agree on the same expenses. */
  lemma ProcessedExpensesMatchExpenseBalance(m: OrderedMap<Balance>, expenses: seq<Expense>, u: UserId)
    ensures ProcessedExpenses(Tally(m, 0, 0), expenses, u).owed - ProcessedExpenses(Tally(m, 0, 0), expenses, u).owe
      == ExpenseBalance(expenses, u)
  {
    ProcessedExpensesTotals(Tally(m, 0, 0), expenses, u);
    ExpenseBalanceByPayer(expenses, u);
  }

  /** Balances over consecutive runs of expenses add up. */
  lemma {:induction false} ExpenseBalanceAppend(a: seq<Expense>, b: seq<Expense>, u: UserId)
    ensures ExpenseBalance(a + b, u) == ExpenseBalance(a, u) + ExpenseBalance(b, u)
  {
    ExpenseBalanceByPayer(a + b, u);
    ExpenseBalanceByPayer(a, u);
    ExpenseBalanceByPayer(b, u);
    OwedAppend(a, b, u);
  }

  lemma {:induction false} OwedAppend(a: seq<Expense>, b: seq<Expense>, u: UserId)
    ensures OwedToUser(a + b, u) == OwedToUser(a, u) + OwedToUser(b, u)
    ensures OwedByUser(a + b, u) == OwedByUser(a, u) + OwedByUser(b, u)
  {
    if |b| != 0 {
      var init := b[..|b| - 1];
      assert (a + b)[..|a + b| - 1] == a + init;
      OwedAppend(a, init, u);
    } else {
      assert a + b == a;
    }
  }

  // ---------------------------------------------------------------- applySettlements

  /** What one settlement adds to the signed balance: its amount if `u` paid it, minus it otherwise. */
  function Signed(s: Settlement, u: UserId): Money {
    if s.paidBy == u then s.amount else -s.amount
  }

  function SignedTotal(settlements: seq<Settlement>, u: UserId): Money {
    if |settlements| == 0 then 0
    else SignedTotal(settlements[..|settlements| - 1], u) + Signed(settlements[|settlements| - 1], u)
  }

  /** `applySettlements(balance, settlements, userId)`. */
  method ApplySettlements(balance0: Money, settlements: seq<Settlement>, userId: UserId) returns (balance: Money)
    ensures balance == balance0 + SignedTotal(settlements, userId)
  {
    balance := balance0;
    for i := 0 to |settlements|
      invariant balance == balance0 + SignedTotal(settlements[..i], userId)
    {
      var settlement := settlements[i];
      assert settlements[..i + 1][..i] == settlements[..i];
      balance := balance + if settlement.paidBy == userId then settlement.amount else -settlement.amount;
    }
    assert settlements[..|settlements|] == settlements;
  }

  lemma {:induction false} SignedTotalAppend(a: seq<Settlement>, b: seq<Settlement>, u: UserId)
    ensures SignedTotal(a + b, u) == SignedTotal(a, u) + SignedTotal(b, u)
  {
    if |b| != 0 {
      var init := b[..|b| - 1];
      assert (a + b)[..|a + b| - 1] == a + init;
      SignedTotalAppend(a, init, u);
    } else {
      assert a + b == a;
    }
  }

  /** The signed total does not depend on the order of the settlements. */
  lemma {:induction false} SignedTotalPermutation(a: seq<Settlement>, b: seq<Settlement>, u: UserId)
    requires multiset(a) == multiset(b)
    ensures SignedTotal(a, u) == SignedTotal(b, u)
    decreases |a|
  {
    if |a| == 0 {
      assert |b| == |multiset(b)| == 0;
    } else {
      var x := a[|a| - 1];
      var init := a[..|a| - 1];
      assert a == init + [x];
      assert multiset(a) == multiset(init) + multiset{x};
      assert x in multiset(b);
      var i :| 0 <= i < |b| && b[i] == x;
      var left, right := b[..i], b[i + 1..];
      assert b == left + [x] + right;
      assert multiset(b) == multiset(left) + multiset{x} + multiset(right);
      var rest := left + right;
      assert multiset(rest) == multiset(left) + multiset(right);
      assert multiset(rest) == multiset(b) - multiset{x};
      assert multiset(init) == multiset(a) - multiset{x};
      SignedTotalPermutation(init, rest, u);
      SignedTotalAppend(left + [x], right, u);
      SignedTotalAppend(left, [x], u);
      SignedTotalAppend(left, right, u);
      assert [x][..0] == [];
    }
  }

  /** The signed balance moves by the `youAreOwed` delta minus the `youOwe` delta. */
  lemma {:induction false} SignedTotalMatchesDeltas(t: Tally, settlements: seq<Settlement>, u: UserId)
    ensures ProcessedSettlements(t, settlements, u).owed - ProcessedSettlements(t, settlements, u).owe
      == t.owed - t.owe + SignedTotal(settlements, u)
  {
    if |settlements| != 0 {
      SignedTotalMatchesDeltas(t, settlements[..|settlements| - 1], u);
    }
  }
}

/** The mutable group ledger of helper/expenses.ts: `totals` and `ledger` updated in place. */
module GroupLedgers {
  import opened Types
  import opened LedgerSpec

  /** The inner loop of `initializeLedger`: the row of `id`, a zero for every other member. */
  method ZeroRowOf(memberIds: seq<UserId>, id: UserId) returns (row: map<UserId, Money>)
    ensures row == ZeroRow(memberIds, id)
  {
    row := map[];
    assert ZeroRow(memberIds[..0], id) == map[];
    for j := 0 to |memberIds|
      invariant row == ZeroRow(memberIds[..j], id)
    {
      var other := memberIds[j];
      assert memberIds[..j + 1] == memberIds[..j] + [other];
      ZeroRowSnoc(memberIds[..j], id, other);
      if id != other {
        row := row[other := 0];
      }
    }
    assert memberIds[..|memberIds|] == memberIds;
  }

  /** The pair of records `initializeLedger` returns and the other ledger functions mutate. */
  class GroupLedger {
    var totals: map<UserId, Money>
    var ledger: Matrix

    function State(): LedgerState
      reads this
    {
      LedgerState(totals, ledger)
    }

    /** `initializeLedger(memberIds)`. */
    constructor (memberIds: seq<UserId>)
      ensures State() == Initial(memberIds)
    {
      var t: map<UserId, Money> := map[];
      var l: Matrix := map[];
      for i := 0 to |memberIds|
        invariant t == ZeroTotals(memberIds[..i])
        invariant l == ZeroRows(memberIds, memberIds[..i])
      {
        var id := memberIds[i];
        assert memberIds[..i + 1] == memberIds[..i] + [id];
        ZeroTotalsSnoc(memberIds[..i], id);
        ZeroRowsSnoc(memberIds, memberIds[..i], id);
        t := t[id := 0];
        var row := ZeroRowOf(memberIds, id);
        l := l[id := row];
      }
      assert memberIds[..|memberIds|] == memberIds;
      totals := t;
      ledger := l;
    }

    /** `applyExpensesToLedger(expenses, totals, ledger)`. */
    method ApplyExpensesToLedger(expenses: seq<Expense>)
      requires Valid(State()) && forall e | e in expenses :: ExpenseFits(e, ledger.Keys)
      modifies this
      ensures State() == ApplyExpenses(old(State()), expenses)
    {
      ghost var start := State();
      for i := 0 to |expenses|
        invariant State() == ApplyExpenses(start, expenses[..i])
        invariant Valid(State()) && ledger.Keys == start.ledger.Keys
      {
        var expense := expenses[i];
        assert expense in expenses;
        ApplyExpensesSnoc(start, expenses, i);
        ApplySplitsToLedger(expense.paidBy, expense.splits);
      }
      assert expenses[..|expenses|] == expenses;
    }

    /** The inner loop of `applyExpensesToLedger`: the splits of one expense paid by `payer`. */
    method ApplySplitsToLedger(payer: UserId, splits: seq<Split>)
      requires Valid(State()) && forall s | s in splits :: SplitFits(s, payer, ledger.Keys)
      modifies this
      ensures State() == ApplySplits(old(State()), payer, splits)
      ensures Valid(State()) && ledger.Keys == old(ledger.Keys)
    {
      ghost var start := State();
      for j := 0 to |splits|
        invariant State() == ApplySplits(start, payer, splits[..j])
        invariant Valid(State()) && ledger.Keys == start.ledger.Keys
      {
        assert splits[j] in splits;
        ApplySplitsSnoc(start, payer, splits, j);
        ApplySplitToLedger(payer, splits[j]);
      }
      assert splits[..|splits|] == splits;
    }

    /** The body of the inner loop of `applyExpensesToLedger`. */
    method ApplySplitToLedger(payer: UserId, split: Split)
      requires Valid(State()) && SplitFits(split, payer, ledger.Keys)
      modifies this
      ensures State() == ApplySplit(old(State()), payer, split)
      ensures Valid(State()) && ledger.Keys == old(ledger.Keys)
    {
      ghost var next := ApplySplit(State(), payer, split);
      ApplySplitStep(State(), payer, split);
      if split.userId == payer || split.paid {
        return;
      }
      var amount := split.amount;
      var debtor := split.userId;
      totals := totals[payer := totals[payer] + amount];
      totals := totals[debtor := totals[debtor] - amount];
      ledger := ledger[debtor := ledger[debtor][payer := ledger[debtor][payer] + amount]];
      assert State() == next;
    }

    /** `applySettlementsToLedger(settlements, totals, ledger)`. */
    method ApplySettlementsToLedger(settlements: seq<Settlement>)
      requires Valid(State()) && forall t | t in settlements :: SettlementFits(t, ledger.Keys)
      modifies this
      ensures State() == ApplySettlements(old(State()), settlements)
    {
      ghost var start := State();
      for i := 0 to |settlements|
        invariant State() == ApplySettlements(start, settlements[..i])
        invariant Valid(State()) && ledger.Keys == start.ledger.Keys
      {
        assert settlements[i] in settlements;
        ApplySettlementsSnoc(start, settlements, i);
        ApplySettlementToLedger(settlements[i]);
      }
      assert settlements[..|settlements|] == settlements;
    }

    /** The body of the loop of `applySettlementsToLedger`. */
    method ApplySettlementToLedger(settlement: Settlement)
      requires Valid(State()) && SettlementFits(settlement, ledger.Keys)
      modifies this
      ensures State() == ApplySettlement(old(State()), settlement)
      ensures Valid(State()) && ledger.Keys == old(ledger.Keys)
    {
      ghost var next := ApplySettlement(State(), settlement);
      ApplySettlementStep(State(), settlement);
      var amount := settlement.amount;
      var payer, receiver := settlement.paidBy, settlement.receivedBy;
      totals := totals[payer := totals[payer] + amount];
      totals := totals[receiver := totals[receiver] - amount];
      ledger := ledger[payer := ledger[payer][receiver := ledger[payer][receiver] - amount]];
      assert State() == next;
    }

    /** `netLedger(memberIds, ledger)`: offsets the two debts of every pair of members. */
    method NetLedger(memberIds: seq<UserId>)
      requires ValidMatrix(ledger) && forall m | m in memberIds :: m in ledger
      modifies this
      ensures totals == old(totals)
      ensures ledger == Net(old(ledger), Members(memberIds))
    {
      ghost var L0 := ledger;
      NetProgressStart(L0, memberIds);
      for i := 0 to |memberIds|
        invariant NetProgress(L0, ledger, memberIds, i, 0)
        invariant totals == old(totals)
      {
        NetPairsOf(L0, memberIds, i);
        NetProgressNext(L0, ledger, memberIds, i);
      }
      NetProgressEnd(L0, ledger, memberIds);
    }

    /** The inner loop of `netLedger`: nets `memberIds[i]` with each larger member. */
    method NetPairsOf(ghost L0: Matrix, memberIds: seq<UserId>, i: nat)
      requires ValidMatrix(L0) && forall m | m in memberIds :: m in L0
      requires i < |memberIds| && NetProgress(L0, ledger, memberIds, i, 0)
      modifies this
      ensures totals == old(totals)
      ensures NetProgress(L0, ledger, memberIds, i, |memberIds|)
    {
      var a := memberIds[i];
      for j := 0 to |memberIds|
        invariant NetProgress(L0, ledger, memberIds, i, j)
        invariant totals == old(totals)
      {
        var b := memberIds[j];
        NetProgressStep(L0, ledger, memberIds, i, j);
        if a >= b {
          continue;
        }
        NetPairInLedger(a, b);
      }
    }

    /** The body of the inner loop of `netLedger` for `a` < `b`. */
    method NetPairInLedger(a: UserId, b: UserId)
      requires ValidMatrix(ledger) && a in ledger && b in ledger && a != b
      modifies this
      ensures totals == old(totals)
      ensures ledger == NetPair(old(ledger), a, b)
    {
      var diff := ledger[a][b] - ledger[b][a];
      if diff > 0 {
        ledger := ledger[a := ledger[a][b := diff]];
        ledger := ledger[b := ledger[b][a := 0]];
      } else if diff < 0 {
        ledger := ledger[b := ledger[b][a := -diff]];
        ledger := ledger[a := ledger[a][b := 0]];
      } else {
        ledger := ledger[a := ledger[a][b := 0]];
        ledger := ledger[b := ledger[b][a := 0]];
      }
    }
  }
}

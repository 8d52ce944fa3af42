/**
 * Why a member's `totals` entry agrees with its ledger entries: every ledger operation
 * moves a total by exactly what it moves that member's entries by, so a member's total is
 * always what the others owe it less what it owes them.
 */
module LedgerPositions {
  import opened Types
  import opened Records
  import opened LedgerSpec

  /** What the members `ids` owe `m`. */
  function Incoming(L: Matrix, m: UserId, ids: seq<UserId>): Money {
    if |ids| == 0 then 0 else Entry(L, ids[0], m) + Incoming(L, m, ids[1..])
  }

  /** What `m` owes the members `ids`. */
  function Outgoing(L: Matrix, m: UserId, ids: seq<UserId>): Money {
    if |ids| == 0 then 0 else Entry(L, m, ids[0]) + Outgoing(L, m, ids[1..])
  }

  /** `m`'s net position towards `ids` according to the ledger. */
  function Position(L: Matrix, m: UserId, ids: seq<UserId>): Money {
    Incoming(L, m, ids) - Outgoing(L, m, ids)
  }

  /** Each member's total is its ledger position towards all members. */
  predicate Agree(totals: map<UserId, Money>, L: Matrix, ids: seq<UserId>) {
    forall m | m in ids :: Get(totals, m) == Position(L, m, ids)
  }

  lemma DistinctTail(ids: seq<UserId>)
    requires |ids| != 0 && Distinct(ids)
    ensures Distinct(ids[1..]) && ids[0] !in ids[1..]
  {
    var rest := ids[1..];
    forall i, j | 0 <= i < j < |rest| ensures rest[i] != rest[j] {
      assert rest[i] == ids[i + 1] && rest[j] == ids[j + 1];
    }
    forall i | 0 <= i < |rest| ensures rest[i] != ids[0] {
      assert rest[i] == ids[i + 1];
    }
  }

  lemma AddEntryEntry(L: Matrix, a: UserId, b: UserId, v: Money, x: UserId, y: UserId)
    ensures Entry(AddEntry(L, a, b, v), x, y) == Entry(L, x, y) + (if x == a && y == b then v else 0)
  {
  }

  /** Adding `v` to `ledger[a][b]` adds `v` to what `b` is owed and to what `a` owes, once each. */
  lemma {:induction false} AddEntryFlows(L: Matrix, a: UserId, b: UserId, v: Money, m: UserId, ids: seq<UserId>)
    requires Distinct(ids)
    ensures Incoming(AddEntry(L, a, b, v), m, ids) == Incoming(L, m, ids) + (if m == b && a in ids then v else 0)
    ensures Outgoing(AddEntry(L, a, b, v), m, ids) == Outgoing(L, m, ids) + (if m == a && b in ids then v else 0)
  {
    if |ids| != 0 {
      DistinctTail(ids);
      AddEntryFlows(L, a, b, v, m, ids[1..]);
      AddEntryEntry(L, a, b, v, ids[0], m);
      AddEntryEntry(L, a, b, v, m, ids[0]);
      assert forall x :: x in ids <==> x == ids[0] || x in ids[1..] by {
        assert ids == [ids[0]] + ids[1..];
      }
    }
  }

  /** Moving `v` from `a`'s total to `b`'s while `a` comes to owe `b` `v` more keeps the agreement. */
  lemma TransferAgrees(totals: map<UserId, Money>, L: Matrix, a: UserId, b: UserId, v: Money, ids: seq<UserId>)
    requires Distinct(ids) && a in ids && b in ids && a != b && Agree(totals, L, ids)
    ensures Agree(Add(Add(totals, b, v), a, -v), AddEntry(L, a, b, v), ids)
    ensures Add(Add(totals, b, v), a, -v) == Add(Add(totals, a, -v), b, v)
  {
    forall m | m in ids
      ensures Get(Add(Add(totals, b, v), a, -v), m) == Position(AddEntry(L, a, b, v), m, ids)
    {
      AddEntryFlows(L, a, b, v, m, ids);
    }
  }

  lemma ApplySplitAgrees(st: LedgerState, payer: UserId, s: Split, ids: seq<UserId>)
    requires Distinct(ids) && Agree(st.totals, st.ledger, ids) && SplitFits(s, payer, Members(ids))
    ensures Agree(ApplySplit(st, payer, s).totals, ApplySplit(st, payer, s).ledger, ids)
  {
    if Counts(s, payer) {
      TransferAgrees(st.totals, st.ledger, s.userId, payer, s.amount, ids);
    }
  }

  lemma {:induction false} ApplySplitsAgree(st: LedgerState, payer: UserId, splits: seq<Split>, ids: seq<UserId>)
    requires Distinct(ids) && Agree(st.totals, st.ledger, ids)
    requires forall s | s in splits :: SplitFits(s, payer, Members(ids))
    ensures Agree(ApplySplits(st, payer, splits).totals, ApplySplits(st, payer, splits).ledger, ids)
  {
    if |splits| != 0 {
      var init := splits[..|splits| - 1];
      assert forall s | s in init :: s in splits;
      assert splits[|splits| - 1] in splits;
      ApplySplitsAgree(st, payer, init, ids);
      ApplySplitAgrees(ApplySplits(st, payer, init), payer, splits[|splits| - 1], ids);
    }
  }

  lemma {:induction false} ApplyExpensesAgree(st: LedgerState, expenses: seq<Expense>, ids: seq<UserId>)
    requires Distinct(ids) && Agree(st.totals, st.ledger, ids)
    requires forall e | e in expenses :: ExpenseFits(e, Members(ids))
    ensures Agree(ApplyExpenses(st, expenses).totals, ApplyExpenses(st, expenses).ledger, ids)
  {
    if |expenses| != 0 {
      var init := expenses[..|expenses| - 1];
      var e := expenses[|expenses| - 1];
      assert forall x | x in init :: x in expenses;
      assert e in expenses;
      ApplyExpensesAgree(st, init, ids);
      ApplySplitsAgree(ApplyExpenses(st, init), e.paidBy, e.splits, ids);
    }
  }

  lemma ApplySettlementAgrees(st: LedgerState, t: Settlement, ids: seq<UserId>)
    requires Distinct(ids) && Agree(st.totals, st.ledger, ids) && SettlementFits(t, Members(ids))
    ensures Agree(ApplySettlement(st, t).totals, ApplySettlement(st, t).ledger, ids)
  {
    TransferAgrees(st.totals, st.ledger, t.paidBy, t.receivedBy, -t.amount, ids);
  }

  lemma {:induction false} ApplySettlementsAgree(st: LedgerState, settlements: seq<Settlement>, ids: seq<UserId>)
    requires Distinct(ids) && Agree(st.totals, st.ledger, ids)
    requires forall t | t in settlements :: SettlementFits(t, Members(ids))
    ensures Agree(ApplySettlements(st, settlements).totals, ApplySettlements(st, settlements).ledger, ids)
  {
    if |settlements| != 0 {
      var init := settlements[..|settlements| - 1];
      assert forall x | x in init :: x in settlements;
      assert settlements[|settlements| - 1] in settlements;
      ApplySettlementsAgree(st, init, ids);
      ApplySettlementAgrees(ApplySettlements(st, init), settlements[|settlements| - 1], ids);
    }
  }

  lemma {:induction false} ZeroFlows(L: Matrix, m: UserId, ids: seq<UserId>)
    requires forall x | x in ids :: Entry(L, x, m) == 0 && Entry(L, m, x) == 0
    ensures Incoming(L, m, ids) == 0 && Outgoing(L, m, ids) == 0
  {
    if |ids| != 0 {
      assert ids[0] in ids;
      assert forall x | x in ids[1..] :: x in ids;
      ZeroFlows(L, m, ids[1..]);
    }
  }

  /** The initial ledger agrees with its all-zero totals. */
  lemma InitialAgrees(memberIds: seq<UserId>, ids: seq<UserId>)
    ensures Agree(Initial(memberIds).totals, Initial(memberIds).ledger, ids)
  {
    var st := Initial(memberIds);
    forall m | m in ids ensures Get(st.totals, m) == Position(st.ledger, m, ids) {
      ZeroFlows(st.ledger, m, ids);
    }
  }

  /** Netting moves both entries of a pair by the same amount, so positions stay. */
  lemma {:induction false} NetKeepsFlows(L: Matrix, ms: set<UserId>, m: UserId, ids: seq<UserId>)
    requires ValidMatrix(L) && m in L && forall x | x in ids :: x in L
    ensures Position(Net(L, ms), m, ids) == Position(L, m, ids)
  {
    if |ids| != 0 {
      var x := ids[0];
      assert x in ids;
      assert forall y | y in ids[1..] :: y in ids;
      NetKeepsFlows(L, ms, m, ids[1..]);
      if x != m {
        NetPreservesDifference(L, ms, x, m);
      }
    }
  }
}

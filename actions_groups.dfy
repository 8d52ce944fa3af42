/**
 * `getGroupExpenses` (actions/groups.ts): the membership check, the ledger pipeline run
 * over the group's member ids, and the per-member projection of the netted ledger.
 */
module GroupActions {
  import opened Types
  import opened Records
  import opened Sums
  import opened LedgerSpec
  import opened GroupLedgers
  import opened LedgerPositions

  datatype GroupError = GroupNotFound | NotAMember

  /** An entry of `owes`: the member owes `to` this much. */
  datatype Owe = Owe(to: UserId, amount: Money)
  /** An entry of `owedBy`: `from` owes the member this much. */
  datatype OwedBy = OwedBy(from: UserId, amount: Money)

  /** One element of `balances` (the name, image and role copied from the member are not modelled). */
  datatype MemberBalance = MemberBalance(id: UserId, totalBalance: Money, owes: seq<Owe>, owedBy: seq<OwedBy>)

  /** The rows fetched for the group all stay inside its membership. */
  predicate RowsFit(memberIds: seq<UserId>, expenses: seq<Expense>, settlements: seq<Settlement>) {
    (forall e | e in expenses :: ExpenseFits(e, Members(memberIds)))
    && (forall t | t in settlements :: SettlementFits(t, Members(memberIds)))
  }

  /** The ledger before netting: initialised, then the expenses, then the settlements. */
  function Unnetted(memberIds: seq<UserId>, expenses: seq<Expense>, settlements: seq<Settlement>): LedgerState {
    ApplySettlements(ApplyExpenses(Initial(memberIds), expenses), settlements)
  }

  /** The state after the four ledger calls, in the order `getGroupExpenses` makes them. */
  function GroupState(memberIds: seq<UserId>, expenses: seq<Expense>, settlements: seq<Settlement>): LedgerState {
    var st := Unnetted(memberIds, expenses, settlements);
    LedgerState(st.totals, Net(st.ledger, Members(memberIds)))
  }

  /** `Object.entries(row).filter(([, amount]) => amount > 0)` for the row of `m` iterated in `keys` order. */
  function OwesOf(L: Matrix, m: UserId, keys: seq<UserId>): seq<Owe> {
    if |keys| == 0 then []
    else
      var x := keys[0];
      (if Entry(L, m, x) > 0 then [Owe(x, Entry(L, m, x))] else []) + OwesOf(L, m, keys[1..])
  }

  /** `memberIds.filter((other) => ledger[other][m] > 0)`, paired with the amounts. */
  function OwedByOf(L: Matrix, m: UserId, ids: seq<UserId>): seq<OwedBy> {
    if |ids| == 0 then []
    else
      var x := ids[0];
      (if Entry(L, x, m) > 0 then [OwedBy(x, Entry(L, x, m))] else []) + OwedByOf(L, m, ids[1..])
  }

  /**
   * The row of member `m` was filled by iterating `memberIds` and skipping `m`; a repeated
   * id keeps its first place, and later updates only assign existing keys.
   */
  function RowKeys(memberIds: seq<UserId>, m: UserId): seq<UserId> {
    Without(Dedup(memberIds), m)
  }

  function BalanceOfMember(st: LedgerState, memberIds: seq<UserId>, m: UserId): MemberBalance {
    MemberBalance(m, Get(st.totals, m), OwesOf(st.ledger, m, RowKeys(memberIds, m)), OwedByOf(st.ledger, m, memberIds))
  }

  /** `members.map(...)` at actions/groups.ts:85-97: one balance per member, in member order. */
  function Balances(st: LedgerState, memberIds: seq<UserId>): seq<MemberBalance> {
    seq(|memberIds|, i requires 0 <= i < |memberIds| => BalanceOfMember(st, memberIds, memberIds[i]))
  }

  /**
   * `getGroupExpenses`: a missing group and a caller outside it are rejected before any
   * ledger work; otherwise the ledger is initialised, the expenses and the settlements are
   * applied and the result netted, and each member's balance read off it.
   */
  method GetGroupExpenses(currentUser: UserId, group: Option<seq<UserId>>, expenses: seq<Expense>, settlements: seq<Settlement>)
    returns (r: Result<seq<MemberBalance>, GroupError>)
    requires group.Some? ==> RowsFit(group.value, expenses, settlements)
    ensures group.None? ==> r == Err(GroupNotFound)
    ensures group.Some? && currentUser !in group.value ==> r == Err(NotAMember)
    ensures r.Ok? <==> group.Some? && currentUser in group.value
    ensures r.Ok? ==> r.value == Balances(GroupState(group.value, expenses, settlements), group.value)
  {
    if group.None? {
      return Err(GroupNotFound);
    }
    var memberIds := group.value;
    if currentUser !in memberIds {
      return Err(NotAMember);
    }
    var g := new GroupLedger(memberIds);
    InitialIsZero(memberIds);
    ApplyExpensesKeepShape(g.State(), expenses);
    g.ApplyExpensesToLedger(expenses);
    ApplySettlementsKeepShape(g.State(), settlements);
    g.ApplySettlementsToLedger(settlements);
    g.NetLedger(memberIds);
    return Ok(Balances(g.State(), memberIds));
  }

  // ---------------------------------------------------------------- the ledger the pipeline leaves

  /** The netted ledger has a total and a row for each member, each row holding every other member. */
  lemma GroupStateShape(memberIds: seq<UserId>, expenses: seq<Expense>, settlements: seq<Settlement>)
    requires RowsFit(memberIds, expenses, settlements)
    ensures Valid(Unnetted(memberIds, expenses, settlements))
    ensures Unnetted(memberIds, expenses, settlements).ledger.Keys == Members(memberIds)
    ensures Valid(GroupState(memberIds, expenses, settlements))
    ensures GroupState(memberIds, expenses, settlements).ledger.Keys == Members(memberIds)
  {
    InitialIsZero(memberIds);
    var st := ApplyExpenses(Initial(memberIds), expenses);
    ApplyExpensesKeepShape(Initial(memberIds), expenses);
    ApplySettlementsKeepShape(st, settlements);
    NetKeepsShape(Unnetted(memberIds, expenses, settlements).ledger, Members(memberIds));
  }

  /** Every expense split and every settlement moves money between two totals: they sum to zero. */
  lemma GroupTotalsSumToZero(memberIds: seq<UserId>, expenses: seq<Expense>, settlements: seq<Settlement>)
    ensures MapSum(GroupState(memberIds, expenses, settlements).totals) == 0
  {
    InitialIsZero(memberIds);
    ApplyExpensesConserves(Initial(memberIds), expenses);
    ApplySettlementsConserves(ApplyExpenses(Initial(memberIds), expenses), settlements);
  }

  /** What `a` owes `b` before netting: unpaid shares of `b`'s expenses less what `a` paid `b`. */
  function Gross(expenses: seq<Expense>, settlements: seq<Settlement>, a: UserId, b: UserId): Money {
    ExpenseDebt(expenses, a, b) - SettledAmount(settlements, a, b)
  }

  /** After the pipeline, `ledger[a][b]` is what is left of `a`'s gross debt to `b` after offsetting `b`'s. */
  lemma GroupEntry(memberIds: seq<UserId>, expenses: seq<Expense>, settlements: seq<Settlement>, a: UserId, b: UserId)
    requires RowsFit(memberIds, expenses, settlements)
    requires a in memberIds && b in memberIds && a != b
    ensures Entry(GroupState(memberIds, expenses, settlements).ledger, a, b)
      == if Gross(expenses, settlements, a, b) > Gross(expenses, settlements, b, a)
         then Gross(expenses, settlements, a, b) - Gross(expenses, settlements, b, a) else 0
  {
    InitialIsZero(memberIds);
    GroupStateShape(memberIds, expenses, settlements);
    var st := ApplyExpenses(Initial(memberIds), expenses);
    var L := Unnetted(memberIds, expenses, settlements).ledger;
    ApplyExpensesEffect(Initial(memberIds), expenses, a, b);
    ApplyExpensesEffect(Initial(memberIds), expenses, b, a);
    ApplySettlementsEffect(st, settlements, a, b);
    ApplySettlementsEffect(st, settlements, b, a);
    assert Entry(L, a, b) == L[a][b] && Entry(L, b, a) == L[b][a];
    NetIsOneSided(L, Members(memberIds), a, b);
  }

  // ---------------------------------------------------------------- the projection

  lemma {:induction false} OwesOfMembers(L: Matrix, m: UserId, keys: seq<UserId>, to: UserId, amount: Money)
    ensures Owe(to, amount) in OwesOf(L, m, keys) <==> to in keys && Entry(L, m, to) > 0 && amount == Entry(L, m, to)
  {
    if |keys| != 0 {
      OwesOfMembers(L, m, keys[1..], to, amount);
      assert keys == [keys[0]] + keys[1..];
    }
  }

  lemma {:induction false} OwedByOfMembers(L: Matrix, m: UserId, ids: seq<UserId>, from: UserId, amount: Money)
    ensures OwedBy(from, amount) in OwedByOf(L, m, ids) <==> from in ids && Entry(L, from, m) > 0 && amount == Entry(L, from, m)
  {
    if |ids| != 0 {
      OwedByOfMembers(L, m, ids[1..], from, amount);
      assert ids == [ids[0]] + ids[1..];
    }
  }

  /** Each counterparty appears at most once in `owes`, the row's keys being distinct. */
  lemma {:induction false} OwesOfDistinct(L: Matrix, m: UserId, keys: seq<UserId>)
    requires Distinct(keys)
    ensures forall i, j | 0 <= i < j < |OwesOf(L, m, keys)| :: OwesOf(L, m, keys)[i].to != OwesOf(L, m, keys)[j].to
  {
    if |keys| != 0 {
      var rest := keys[1..];
      assert Distinct(rest) by {
        forall i, j | 0 <= i < j < |rest| ensures rest[i] != rest[j] {
          assert rest[i] == keys[i + 1] && rest[j] == keys[j + 1];
        }
      }
      assert keys[0] !in rest by {
        forall i | 0 <= i < |rest| ensures rest[i] != keys[0] {
          assert rest[i] == keys[i + 1];
        }
      }
      OwesOfDistinct(L, m, rest);
      var tail := OwesOf(L, m, rest);
      forall o | o in tail ensures o.to != keys[0] {
        OwesOfMembers(L, m, rest, o.to, o.amount);
      }
    }
  }

  /**
   * `owes` of a member lists exactly the other members it owes a positive amount to,
   * each once, with that amount.
   */
  lemma GroupOwes(memberIds: seq<UserId>, expenses: seq<Expense>, settlements: seq<Settlement>, m: UserId, to: UserId, amount: Money)
    requires RowsFit(memberIds, expenses, settlements) && m in memberIds
    ensures var st := GroupState(memberIds, expenses, settlements);
      Owe(to, amount) in BalanceOfMember(st, memberIds, m).owes
      <==> to in memberIds && to != m && amount > 0 && amount == Entry(st.ledger, m, to)
    ensures var owes := BalanceOfMember(GroupState(memberIds, expenses, settlements), memberIds, m).owes;
      forall i, j | 0 <= i < j < |owes| :: owes[i].to != owes[j].to
  {
    var st := GroupState(memberIds, expenses, settlements);
    OwesOfMembers(st.ledger, m, RowKeys(memberIds, m), to, amount);
    OwesOfDistinct(st.ledger, m, RowKeys(memberIds, m));
  }

  /** `owedBy` of a member lists exactly the members owing it a positive amount, never itself. */
  lemma GroupOwedBy(memberIds: seq<UserId>, expenses: seq<Expense>, settlements: seq<Settlement>, m: UserId, from: UserId, amount: Money)
    requires RowsFit(memberIds, expenses, settlements) && m in memberIds
    ensures var st := GroupState(memberIds, expenses, settlements);
      OwedBy(from, amount) in BalanceOfMember(st, memberIds, m).owedBy
      <==> from in memberIds && from != m && amount > 0 && amount == Entry(st.ledger, from, m)
  {
    var st := GroupState(memberIds, expenses, settlements);
    GroupStateShape(memberIds, expenses, settlements);
    OwedByOfMembers(st.ledger, m, memberIds, from, amount);
    assert m !in st.ledger[m];
  }

  /** After netting, nobody is both owed by a member and owing that member. */
  lemma GroupNeverBothWays(memberIds: seq<UserId>, expenses: seq<Expense>, settlements: seq<Settlement>, m: UserId, x: UserId, owe: Money, owed: Money)
    requires RowsFit(memberIds, expenses, settlements) && m in memberIds
    ensures var b := BalanceOfMember(GroupState(memberIds, expenses, settlements), memberIds, m);
      !(Owe(x, owe) in b.owes && OwedBy(x, owed) in b.owedBy)
  {
    var st := GroupState(memberIds, expenses, settlements);
    GroupOwes(memberIds, expenses, settlements, m, x, owe);
    GroupOwedBy(memberIds, expenses, settlements, m, x, owed);
    if x in memberIds && x != m {
      GroupStateShape(memberIds, expenses, settlements);
      var L := Unnetted(memberIds, expenses, settlements).ledger;
      NetIsOneSided(L, Members(memberIds), m, x);
    }
  }

  // ---------------------------------------------------------------- totals against the lists

  function OwesSum(owes: seq<Owe>): Money {
    if |owes| == 0 then 0 else owes[0].amount + OwesSum(owes[1..])
  }

  function OwedBySum(owedBy: seq<OwedBy>): Money {
    if |owedBy| == 0 then 0 else owedBy[0].amount + OwedBySum(owedBy[1..])
  }

  /** With no negative entries, dropping the zero ones loses nothing of the sum. */
  lemma {:induction false} IncomingIsOwedBy(L: Matrix, m: UserId, ids: seq<UserId>)
    requires forall x | x in ids :: Entry(L, x, m) >= 0
    ensures Incoming(L, m, ids) == OwedBySum(OwedByOf(L, m, ids))
  {
    if |ids| != 0 {
      assert ids[0] in ids;
      assert forall y | y in ids[1..] :: y in ids;
      IncomingIsOwedBy(L, m, ids[1..]);
      var head := if Entry(L, ids[0], m) > 0 then [OwedBy(ids[0], Entry(L, ids[0], m))] else [];
      OwedBySumAppend(head, OwedByOf(L, m, ids[1..]));
    }
  }

  lemma {:induction false} OwedBySumAppend(a: seq<OwedBy>, b: seq<OwedBy>)
    ensures OwedBySum(a + b) == OwedBySum(a) + OwedBySum(b)
  {
    if |a| == 0 {
      assert a + b == b;
    } else {
      assert (a + b)[1..] == a[1..] + b;
      OwedBySumAppend(a[1..], b);
    }
  }

  lemma {:induction false} OwesSumAppend(a: seq<Owe>, b: seq<Owe>)
    ensures OwesSum(a + b) == OwesSum(a) + OwesSum(b)
  {
    if |a| == 0 {
      assert a + b == b;
    } else {
      assert (a + b)[1..] == a[1..] + b;
      OwesSumAppend(a[1..], b);
    }
  }

  lemma {:induction false} OutgoingIsOwes(L: Matrix, m: UserId, keys: seq<UserId>)
    requires forall x | x in keys :: Entry(L, m, x) >= 0
    ensures Outgoing(L, m, keys) == OwesSum(OwesOf(L, m, keys))
  {
    if |keys| != 0 {
      assert keys[0] in keys;
      assert forall y | y in keys[1..] :: y in keys;
      OutgoingIsOwes(L, m, keys[1..]);
      var head := if Entry(L, m, keys[0]) > 0 then [Owe(keys[0], Entry(L, m, keys[0]))] else [];
      OwesSumAppend(head, OwesOf(L, m, keys[1..]));
    }
  }

  /** Leaving out `m` itself loses nothing: `m` has no entry towards itself. */
  lemma {:induction false} OutgoingWithout(L: Matrix, m: UserId, ids: seq<UserId>)
    requires Entry(L, m, m) == 0
    ensures Outgoing(L, m, Without(ids, m)) == Outgoing(L, m, ids)
  {
    if |ids| != 0 {
      OutgoingWithout(L, m, ids[1..]);
      if ids[0] != m {
        assert ([ids[0]] + Without(ids[1..], m))[1..] == Without(ids[1..], m);
      }
    }
  }

  lemma {:induction false} DedupOfDistinct(ids: seq<UserId>)
    requires Distinct(ids)
    ensures Dedup(ids) == ids
  {
    if |ids| != 0 {
      var init := ids[..|ids| - 1];
      assert Distinct(init) by {
        forall i, j | 0 <= i < j < |init| ensures init[i] != init[j] {
          assert init[i] == ids[i] && init[j] == ids[j];
        }
      }
      assert ids[|ids| - 1] !in init by {
        forall i | 0 <= i < |init| ensures init[i] != ids[|ids| - 1] {
          assert init[i] == ids[i];
        }
      }
      DedupOfDistinct(init);
      assert ids == init + [ids[|ids| - 1]];
    }
  }

  /**
   * Each member's `totalBalance` is what the members in its `owedBy` owe it less what it
   * owes the members in its `owes` (for a group whose member ids are distinct).
   */
  lemma GroupTotalBalance(memberIds: seq<UserId>, expenses: seq<Expense>, settlements: seq<Settlement>, m: UserId)
    requires RowsFit(memberIds, expenses, settlements) && Distinct(memberIds) && m in memberIds
    ensures var b := BalanceOfMember(GroupState(memberIds, expenses, settlements), memberIds, m);
      b.totalBalance == OwedBySum(b.owedBy) - OwesSum(b.owes)
  {
    var st := Unnetted(memberIds, expenses, settlements);
    var N := GroupState(memberIds, expenses, settlements).ledger;
    GroupStateShape(memberIds, expenses, settlements);
    UnnettedAgrees(memberIds, expenses, settlements);
    NetKeepsFlows(st.ledger, Members(memberIds), m, memberIds);
    NettedNonNegative(memberIds, expenses, settlements, m);
    IncomingIsOwedBy(N, m, memberIds);
    OutgoingWithout(N, m, memberIds);
    DedupOfDistinct(memberIds);
    OutgoingIsOwes(N, m, Without(memberIds, m));
  }

  /** Before netting, each member's total is its ledger position. */
  lemma UnnettedAgrees(memberIds: seq<UserId>, expenses: seq<Expense>, settlements: seq<Settlement>)
    requires RowsFit(memberIds, expenses, settlements) && Distinct(memberIds)
    ensures Agree(Unnetted(memberIds, expenses, settlements).totals, Unnetted(memberIds, expenses, settlements).ledger, memberIds)
  {
    InitialAgrees(memberIds, memberIds);
    ApplyExpensesAgree(Initial(memberIds), expenses, memberIds);
    ApplySettlementsAgree(ApplyExpenses(Initial(memberIds), expenses), settlements, memberIds);
  }

  /** After netting, every entry of `m` towards a member, either way, is non-negative (its own is absent). */
  lemma NettedNonNegative(memberIds: seq<UserId>, expenses: seq<Expense>, settlements: seq<Settlement>, m: UserId)
    requires RowsFit(memberIds, expenses, settlements) && m in memberIds
    ensures var N := GroupState(memberIds, expenses, settlements).ledger;
      Entry(N, m, m) == 0 && forall x | x in memberIds :: Entry(N, x, m) >= 0 && Entry(N, m, x) >= 0
  {
    var L := Unnetted(memberIds, expenses, settlements).ledger;
    var N := GroupState(memberIds, expenses, settlements).ledger;
    GroupStateShape(memberIds, expenses, settlements);
    assert m !in N[m];
    forall x | x in memberIds ensures Entry(N, x, m) >= 0 && Entry(N, m, x) >= 0 {
      if x != m {
        NetIsOneSided(L, Members(memberIds), m, x);
      }
    }
  }

  // ---------------------------------------------------------------- the totals over all members

  function TotalOver(totals: map<UserId, Money>, ids: seq<UserId>): Money {
    if |ids| == 0 then 0 else Get(totals, ids[0]) + TotalOver(totals, ids[1..])
  }

  function BalanceTotal(bs: seq<MemberBalance>): Money {
    if |bs| == 0 then 0 else bs[0].totalBalance + BalanceTotal(bs[1..])
  }

  lemma {:induction false} TotalOverIgnores(totals: map<UserId, Money>, k: UserId, ids: seq<UserId>)
    requires k !in ids
    ensures TotalOver(totals - {k}, ids) == TotalOver(totals, ids)
  {
    if |ids| != 0 {
      assert ids[0] in ids;
      assert forall y | y in ids[1..] :: y in ids;
      TotalOverIgnores(totals, k, ids[1..]);
    }
  }

  lemma MembersCons(ids: seq<UserId>)
    requires |ids| != 0 && ids[0] !in ids[1..]
    ensures Members(ids) - {ids[0]} == Members(ids[1..])
  {
    assert ids == [ids[0]] + ids[1..];
  }

  lemma {:induction false} TotalOverIsMapSum(totals: map<UserId, Money>, ids: seq<UserId>)
    requires Distinct(ids) && totals.Keys == Members(ids)
    ensures TotalOver(totals, ids) == MapSum(totals)
  {
    if |ids| == 0 {
      assert totals == map[];
    } else {
      var k := ids[0];
      assert k in ids;
      DistinctTail(ids);
      MapSumRemove(totals, k);
      MembersCons(ids);
      assert (totals - {k}).Keys == totals.Keys - {k};
      TotalOverIsMapSum(totals - {k}, ids[1..]);
      TotalOverIgnores(totals, k, ids[1..]);
    }
  }

  lemma {:induction false} BalanceTotalIsTotalOver(bs: seq<MemberBalance>, totals: map<UserId, Money>, ids: seq<UserId>)
    requires |bs| == |ids| && forall i | 0 <= i < |ids| :: bs[i].totalBalance == Get(totals, ids[i])
    ensures BalanceTotal(bs) == TotalOver(totals, ids)
  {
    if |ids| != 0 {
      BalanceTotalIsTotalOver(bs[1..], totals, ids[1..]);
    }
  }

  /** The `totalBalance`s of a group with distinct member ids add up to zero. */
  lemma GroupBalancesSumToZero(memberIds: seq<UserId>, expenses: seq<Expense>, settlements: seq<Settlement>)
    requires RowsFit(memberIds, expenses, settlements) && Distinct(memberIds)
    ensures BalanceTotal(Balances(GroupState(memberIds, expenses, settlements), memberIds)) == 0
  {
    var st := GroupState(memberIds, expenses, settlements);
    GroupStateShape(memberIds, expenses, settlements);
    GroupTotalsSumToZero(memberIds, expenses, settlements);
    BalanceTotalIsTotalOver(Balances(st, memberIds), st.totals, memberIds);
    TotalOverIsMapSum(st.totals, memberIds);
  }
}

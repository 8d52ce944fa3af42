/**
 * The payment-reminder ledger of helper/inngest.ts: a `Map` from counterparty id to what the
 * user owes that counterparty and since when, filled from expenses and settlements.
 */
module ReminderLedgers {
  import opened Types
  import opened Records

  /** `{ amount, since }`; `since` is a timestamp. */
  datatype LedgerEntry = LedgerEntry(amount: Money, since: int)

  datatype Debt = Debt(userId: UserId, name: string, amount: Money, since: int)

  function Min(a: int, b: int): int {
    if a <= b then a else b
  }

  /** `ledger.get(k) ?? { amount: 0, since: date }`. */
  function EntryOr(m: OrderedMap<LedgerEntry>, k: UserId, date: int): LedgerEntry {
    if k in m.values then m.values[k] else LedgerEntry(0, date)
  }

  /** What the user owes `k` (0 without an entry). */
  function AmountOf(m: OrderedMap<LedgerEntry>, k: UserId): Money {
    if k in m.values then m.values[k].amount else 0
  }

  // ---------------------------------------------------------------- expenses

  /**
   * `applyOtherPaidExpense(ledger, e, u)`: the user's first unpaid split is added to what
   * they owe the payer, and `since` moves back to the expense date if that is earlier.
   */
  function OtherPaid(m: OrderedMap<LedgerEntry>, e: Expense, u: UserId): (r: OrderedMap<LedgerEntry>)
    ensures m.Valid() ==> r.Valid()
    ensures FindUnpaid(e.splits, u).None? ==> r == m
    ensures FindUnpaid(e.splits, u).Some? ==>
      var prior := EntryOr(m, e.paidBy, e.date);
      r.values == m.values[e.paidBy := LedgerEntry(prior.amount + UnpaidAmount(e.splits, u), Min(prior.since, e.date))]
  {
    match FindUnpaid(e.splits, u)
    case None => m
    case Some(s) =>
      var entry := EntryOr(m, e.paidBy, e.date);
      m.Put(e.paidBy, LedgerEntry(entry.amount + s.amount, Min(entry.since, e.date)))
  }

  /** The loop of `applyUserPaidExpense`: each other user's unpaid split lowers what the user owes them. */
  function UserPaid(m: OrderedMap<LedgerEntry>, splits: seq<Split>, date: int, u: UserId): OrderedMap<LedgerEntry> {
    if |splits| == 0 then m
    else
      var prev := UserPaid(m, splits[..|splits| - 1], date, u);
      var s := splits[|splits| - 1];
      if s.userId == u || s.paid then prev
      else
        var entry := EntryOr(prev, s.userId, date);
        prev.Put(s.userId, entry.(amount := entry.amount - s.amount))
  }

  /** One expense seen by `applyExpenseEffects`. */
  function ExpenseEffect(m: OrderedMap<LedgerEntry>, e: Expense, u: UserId): OrderedMap<LedgerEntry> {
    if e.paidBy == u then UserPaid(m, e.splits, e.date, u) else OtherPaid(m, e, u)
  }

  function ExpenseEffects(m: OrderedMap<LedgerEntry>, expenses: seq<Expense>, u: UserId): OrderedMap<LedgerEntry> {
    if |expenses| == 0 then m
    else ExpenseEffect(ExpenseEffects(m, expenses[..|expenses| - 1], u), expenses[|expenses| - 1], u)
  }

  // ---------------------------------------------------------------- settlements

  /** `adjustLedger(ledger, k, delta)`. */
  function Adjust(m: OrderedMap<LedgerEntry>, k: UserId, delta: Money): (r: OrderedMap<LedgerEntry>)
    ensures m.Valid() ==> r.Valid()
    ensures k !in m.values ==> r == m
    ensures k in m.values && m.values[k].amount + delta == 0 ==> r.values == m.values - {k}
    ensures k in m.values && m.values[k].amount + delta != 0 ==>
      r.keys == m.keys && r.values == m.values[k := m.values[k].(amount := m.values[k].amount + delta)]
  {
    if k !in m.values then m
    else
      var entry := m.values[k].(amount := m.values[k].amount + delta);
      if entry.amount == 0 then m.Remove(k) else m.Put(k, entry)
  }

  /** One settlement seen by `applySettlementEffects`. */
  function SettlementEffect(m: OrderedMap<LedgerEntry>, t: Settlement, u: UserId): OrderedMap<LedgerEntry> {
    if t.paidBy == u then Adjust(m, t.receivedBy, -t.amount)
    else if t.receivedBy == u then Adjust(m, t.paidBy, t.amount)
    else m
  }

  function SettlementEffects(m: OrderedMap<LedgerEntry>, settlements: seq<Settlement>, u: UserId): OrderedMap<LedgerEntry> {
    if |settlements| == 0 then m
    else SettlementEffect(SettlementEffects(m, settlements[..|settlements| - 1], u), settlements[|settlements| - 1], u)
  }

  // ---------------------------------------------------------------- the ledger

  /** The `Ledger` map the reminder job fills in place. */
  class ReminderLedger {
    var entries: OrderedMap<LedgerEntry>

    constructor ()
      ensures entries == EmptyMap()
    {
      entries := EmptyMap();
    }

    /** `applyExpenseEffects(ledger, userId, expenses)`. */
    method ApplyExpenseEffects(userId: UserId, expenses: seq<Expense>)
      modifies this
      ensures entries == ExpenseEffects(old(entries), expenses, userId)
    {
      ghost var start := entries;
      for i := 0 to |expenses|
        invariant entries == ExpenseEffects(start, expenses[..i], userId)
      {
        var exp := expenses[i];
        assert expenses[..i + 1][..i] == expenses[..i];
        if exp.paidBy == userId {
          ApplyUserPaidExpense(exp, userId);
        } else {
          ApplyOtherPaidExpense(exp, userId);
        }
      }
      assert expenses[..|expenses|] == expenses;
    }

    /** `applyOtherPaidExpense(ledger, exp, userId)`. */
    method ApplyOtherPaidExpense(exp: Expense, userId: UserId)
      modifies this
      ensures entries == OtherPaid(old(entries), exp, userId)
    {
      var split := FindUnpaid(exp.splits, userId);
      if split.None? {
        return;
      }
      var entry := if exp.paidBy in entries.values then entries.values[exp.paidBy] else LedgerEntry(0, exp.date);
      entry := entry.(amount := entry.amount + split.value.amount);
      entry := entry.(since := Min(entry.since, exp.date));
      entries := entries.Put(exp.paidBy, entry);
    }

    /** `applyUserPaidExpense(ledger, exp, userId)`. */
    method ApplyUserPaidExpense(exp: Expense, userId: UserId)
      modifies this
      ensures entries == UserPaid(old(entries), exp.splits, exp.date, userId)
    {
      ghost var start := entries;
      for j := 0 to |exp.splits|
        invariant entries == UserPaid(start, exp.splits[..j], exp.date, userId)
      {
        var split := exp.splits[j];
        assert exp.splits[..j + 1][..j] == exp.splits[..j];
        if split.userId == userId || split.paid {
          continue;
        }
        var entry := if split.userId in entries.values then entries.values[split.userId] else LedgerEntry(0, exp.date);
        entry := entry.(amount := entry.amount - split.amount);
        entries := entries.Put(split.userId, entry);
      }
      assert exp.splits[..|exp.splits|] == exp.splits;
    }

    /** `applySettlementEffects(ledger, settlements, userId)`. */
    method ApplySettlementEffects(settlements: seq<Settlement>, userId: UserId)
      modifies this
      ensures entries == SettlementEffects(old(entries), settlements, userId)
    {
      ghost var start := entries;
      for i := 0 to |settlements|
        invariant entries == SettlementEffects(start, settlements[..i], userId)
      {
        var st := settlements[i];
        assert settlements[..i + 1][..i] == settlements[..i];
        if st.paidBy == userId {
          AdjustLedger(st.receivedBy, -st.amount);
        } else if st.receivedBy == userId {
          AdjustLedger(st.paidBy, st.amount);
        }
      }
      assert settlements[..|settlements|] == settlements;
    }

    /** `adjustLedger(ledger, counterpartyId, delta)`. */
    method AdjustLedger(counterpartyId: UserId, delta: Money)
      modifies this
      ensures entries == Adjust(old(entries), counterpartyId, delta)
    {
      if counterpartyId !in entries.values {
        return;
      }
      var entry := entries.values[counterpartyId];
      entry := entry.(amount := entry.amount + delta);
      if entry.amount == 0 {
        entries := entries.Remove(counterpartyId);
      } else {
        entries := entries.Put(counterpartyId, entry);
      }
    }
  }

  // ---------------------------------------------------------------- extractDebts

  /** `userMap.get(k)?.name ?? "Unknown"`. */
  function NameOf(userMap: map<UserId, string>, k: UserId): string {
    if k in userMap then userMap[k] else "Unknown"
  }

  /** `extractDebts(ledger, userMap)` over the keys `keys`, in that order. */
  function DebtsOf(keys: seq<UserId>, values: map<UserId, LedgerEntry>, userMap: map<UserId, string>): seq<Debt>
    requires forall k | k in keys :: k in values
  {
    if |keys| == 0 then []
    else
      var k := keys[|keys| - 1];
      var prev := DebtsOf(keys[..|keys| - 1], values, userMap);
      if values[k].amount > 0 then prev + [Debt(k, NameOf(userMap, k), values[k].amount, values[k].since)]
      else prev
  }

  /**
   * Exactly the entries with a positive amount are reported, each with its amount, its
   * `since` and the counterparty's name.
   */
  lemma {:induction false} DebtsOfMembers(keys: seq<UserId>, values: map<UserId, LedgerEntry>, userMap: map<UserId, string>)
    requires forall k | k in keys :: k in values
    ensures |DebtsOf(keys, values, userMap)| <= |keys|
    ensures forall d | d in DebtsOf(keys, values, userMap) ::
      d.userId in keys && d.amount == values[d.userId].amount > 0 && d.since == values[d.userId].since
      && d.name == NameOf(userMap, d.userId)
    ensures forall k | k in keys && values[k].amount > 0 :: exists d | d in DebtsOf(keys, values, userMap) :: d.userId == k
  {
    if |keys| != 0 {
      var init := keys[..|keys| - 1];
      var k := keys[|keys| - 1];
      assert forall x | x in keys :: x in init || x == k;
      assert forall x | x in init :: x in keys;
      DebtsOfMembers(init, values, userMap);
    }
  }

  /** `extractDebts(ledger, userMap)`. */
  function ExtractDebts(ledger: OrderedMap<LedgerEntry>, userMap: map<UserId, string>): seq<Debt>
    requires ledger.Valid()
  {
    DebtsOf(ledger.keys, ledger.values, userMap)
  }

  /** The debts keep the ledger's iteration order: a run of keys gives its debts in sequence. */
  lemma {:induction false} DebtsOfAppend(a: seq<UserId>, b: seq<UserId>, values: map<UserId, LedgerEntry>, userMap: map<UserId, string>)
    requires forall k | k in a :: k in values
    requires forall k | k in b :: k in values
    ensures DebtsOf(a + b, values, userMap) == DebtsOf(a, values, userMap) + DebtsOf(b, values, userMap)
  {
    if |b| == 0 {
      assert a + b == a;
    } else {
      var init := b[..|b| - 1];
      assert (a + b)[..|a + b| - 1] == a + init;
      assert forall x | x in init :: x in b;
      DebtsOfAppend(a, init, values, userMap);
    }
  }

  /** Over distinct keys, each counterparty is reported at most once. */
  lemma {:induction false} DebtsOfDistinct(keys: seq<UserId>, values: map<UserId, LedgerEntry>, userMap: map<UserId, string>)
    requires forall k | k in keys :: k in values
    requires Distinct(keys)
    ensures forall i, j | 0 <= i < j < |DebtsOf(keys, values, userMap)| ::
      DebtsOf(keys, values, userMap)[i].userId != DebtsOf(keys, values, userMap)[j].userId
  {
    if |keys| != 0 {
      var init := keys[..|keys| - 1];
      var k := keys[|keys| - 1];
      assert forall x | x in init :: x in keys;
      assert Distinct(init);
      assert k !in init;
      DebtsOfDistinct(init, values, userMap);
      DebtsOfMembers(init, values, userMap);
      var prev := DebtsOf(init, values, userMap);
      if values[k].amount > 0 {
        var r := prev + [Debt(k, NameOf(userMap, k), values[k].amount, values[k].since)];
        forall i, j | 0 <= i < j < |r| ensures r[i].userId != r[j].userId {
          if j == |prev| {
            assert r[i] in prev;
          } else {
            assert r[i] == prev[i] && r[j] == prev[j];
          }
        }
      }
    }
  }

  // ---------------------------------------------------------------- properties

  lemma {:induction false} UserPaidEffect(m: OrderedMap<LedgerEntry>, splits: seq<Split>, date: int, u: UserId, k: UserId)
    ensures m.Valid() ==> UserPaid(m, splits, date, u).Valid()
    ensures m.values.Keys <= UserPaid(m, splits, date, u).values.Keys
    ensures AmountOf(UserPaid(m, splits, date, u), k) == AmountOf(m, k) - (if k == u then 0 else UnpaidShare(splits, k))
    ensures k in m.values ==> UserPaid(m, splits, date, u).values[k].since == m.values[k].since
  {
    if |splits| != 0 {
      UserPaidEffect(m, splits[..|splits| - 1], date, u, k);
    }
  }

  /**
   * After the expenses, the user owes `k` what the user's first unpaid split on each
   * expense `k` paid adds up to, less `k`'s unpaid splits on the expenses the user paid;
   * existing entries are never removed and their `since` never moves later.
   */
  lemma {:induction false} ExpenseEffectsAmount(m: OrderedMap<LedgerEntry>, expenses: seq<Expense>, u: UserId, k: UserId)
    ensures m.Valid() ==> ExpenseEffects(m, expenses, u).Valid()
    ensures m.values.Keys <= ExpenseEffects(m, expenses, u).values.Keys
    ensures AmountOf(ExpenseEffects(m, expenses, u), k) ==
      AmountOf(m, k) + (if k == u then 0 else UnpaidOnPaidBy(expenses, k, u)) - ExpenseDebt(expenses, k, u)
    ensures k in m.values ==> ExpenseEffects(m, expenses, u).values[k].since <= m.values[k].since
  {
    if |expenses| != 0 {
      var init := expenses[..|expenses| - 1];
      var e := expenses[|expenses| - 1];
      ExpenseEffectsAmount(m, init, u, k);
      var prev := ExpenseEffects(m, init, u);
      if e.paidBy == u {
        UserPaidEffect(prev, e.splits, e.date, u, k);
      }
    }
  }

  /** An entry new to the ledger starts at the date of the expense that created it. */
  lemma OtherPaidNewEntry(m: OrderedMap<LedgerEntry>, e: Expense, u: UserId)
    requires e.paidBy !in m.values && FindUnpaid(e.splits, u).Some?
    ensures OtherPaid(m, e, u).values[e.paidBy] == LedgerEntry(UnpaidAmount(e.splits, u), e.date)
  {
  }

  /**
   * Settlements never create an entry, never change a `since`, move only entries between
   * the user and the other party, and delete an entry exactly when it reaches zero.
   */
  lemma {:induction false} SettlementEffectsShape(m: OrderedMap<LedgerEntry>, settlements: seq<Settlement>, u: UserId, k: UserId)
    ensures m.Valid() ==> SettlementEffects(m, settlements, u).Valid()
    ensures SettlementEffects(m, settlements, u).values.Keys <= m.values.Keys
    ensures k in SettlementEffects(m, settlements, u).values ==>
      SettlementEffects(m, settlements, u).values[k].since == m.values[k].since
    ensures (forall x | x in m.values :: m.values[x].amount != 0) ==>
      forall x | x in SettlementEffects(m, settlements, u).values :: SettlementEffects(m, settlements, u).values[x].amount != 0
  {
    if |settlements| != 0 {
      SettlementEffectsShape(m, settlements[..|settlements| - 1], u, k);
    }
  }

  /** A settlement between two other users leaves the ledger as it is. */
  lemma SettlementEffectIgnoresOthers(m: OrderedMap<LedgerEntry>, t: Settlement, u: UserId)
    requires t.paidBy != u && t.receivedBy != u
    ensures SettlementEffect(m, t, u) == m
  {
  }
}

/** The rows the balance engine consumes, as the server actions fetch them. */
module Types {
  /** User and group ids (strings in the application; any totally ordered key will do). */
  type UserId = int
  type GroupId = int
  /** Money in integer cents. */
  type Money = int

  datatype Option<T> = None | Some(value: T)
  datatype Result<T, E> = Ok(value: T) | Err(error: E)

  /** One user's share of an expense; `paid` shares are settled outside the ledger. */
  datatype Split = Split(userId: UserId, amount: Money, paid: bool)

  datatype Expense = Expense(
    id: nat,
    paidBy: UserId,
    createdBy: UserId,
    groupId: Option<GroupId>,
    date: int,
    splits: seq<Split>)

  datatype Settlement = Settlement(
    id: nat,
    amount: Money,
    paidBy: UserId,
    receivedBy: UserId,
    groupId: Option<GroupId>,
    date: int)

  /** What a counterparty owes the subject (`owed`) and what the subject owes it (`owing`). */
  datatype Balance = Balance(owed: Money, owing: Money)

  predicate IsUnpaidOf(s: Split, u: UserId) {
    s.userId == u && !s.paid
  }

  /** The first split of `u` that is not yet paid, as `splits.find(...)` returns it. */
  function FindUnpaid(splits: seq<Split>, u: UserId): (r: Option<Split>)
    ensures r.Some? ==> r.value in splits && IsUnpaidOf(r.value, u)
    ensures r.None? <==> forall i | 0 <= i < |splits| :: !IsUnpaidOf(splits[i], u)
  {
    if |splits| == 0 then None
    else if IsUnpaidOf(splits[0], u) then Some(splits[0])
    else FindUnpaid(splits[1..], u)
  }

  /** Only the first matching split is ever used. */
  lemma {:induction false} FindUnpaidIsFirst(splits: seq<Split>, u: UserId, i: nat)
    requires i < |splits| && IsUnpaidOf(splits[i], u)
    requires forall j | 0 <= j < i :: !IsUnpaidOf(splits[j], u)
    ensures FindUnpaid(splits, u) == Some(splits[i])
  {
    if i > 0 {
      FindUnpaidIsFirst(splits[1..], u, i - 1);
    }
  }

  /** A paid split, wherever it stands, never changes which split is found. */
  lemma {:induction false} FindUnpaidSkipsPaid(splits: seq<Split>, u: UserId, k: nat, s: Split)
    requires k <= |splits| && s.paid
    ensures FindUnpaid(splits[..k] + [s] + splits[k..], u) == FindUnpaid(splits, u)
  {
    var t := splits[..k] + [s] + splits[k..];
    if k == 0 {
      assert t[1..] == splits;
    } else {
      assert t[0] == splits[0];
      assert t[1..] == splits[1..][..k - 1] + [s] + splits[1..][k - 1..];
      FindUnpaidSkipsPaid(splits[1..], u, k - 1, s);
    }
  }

  /** The sum of `a`'s unpaid splits among `splits`. */
  function UnpaidShare(splits: seq<Split>, a: UserId): Money {
    if |splits| == 0 then 0
    else
      var s := splits[|splits| - 1];
      UnpaidShare(splits[..|splits| - 1], a) + (if IsUnpaidOf(s, a) then s.amount else 0)
  }

  /** What the expenses make `a` owe `b`: `a`'s unpaid splits on the expenses `b` paid. */
  function ExpenseDebt(expenses: seq<Expense>, a: UserId, b: UserId): Money {
    if |expenses| == 0 then 0
    else
      var e := expenses[|expenses| - 1];
      ExpenseDebt(expenses[..|expenses| - 1], a, b)
        + (if e.paidBy == b && a != b then UnpaidShare(e.splits, a) else 0)
  }

  /** The amount of `u`'s first unpaid split, or 0 without one (`find(...)?.amount ?? 0`). */
  function UnpaidAmount(splits: seq<Split>, u: UserId): Money {
    match FindUnpaid(splits, u)
    case Some(s) => s.amount
    case None => 0
  }

  /** The sum of `u`'s first unpaid split over the expenses `payer` paid. */
  function UnpaidOnPaidBy(expenses: seq<Expense>, payer: UserId, u: UserId): Money {
    if |expenses| == 0 then 0
    else
      var e := expenses[|expenses| - 1];
      UnpaidOnPaidBy(expenses[..|expenses| - 1], payer, u) + (if e.paidBy == payer then UnpaidAmount(e.splits, u) else 0)
  }

  /** The total of the settlements `me` paid (`mine`) or did not pay (`!mine`). */
  function PaidTotal(settlements: seq<Settlement>, me: UserId, mine: bool): Money {
    if |settlements| == 0 then 0
    else
      var t := settlements[|settlements| - 1];
      PaidTotal(settlements[..|settlements| - 1], me, mine) + (if (t.paidBy == me) == mine then t.amount else 0)
  }

  /** With non-negative amounts the total is non-negative. */
  lemma {:induction false} PaidTotalNonNegative(settlements: seq<Settlement>, me: UserId, mine: bool)
    requires forall t | t in settlements :: t.amount >= 0
    ensures PaidTotal(settlements, me, mine) >= 0
  {
    if |settlements| != 0 {
      var init := settlements[..|settlements| - 1];
      assert forall t | t in init :: t in settlements;
      assert settlements[|settlements| - 1] in settlements;
      PaidTotalNonNegative(init, me, mine);
    }
  }
}

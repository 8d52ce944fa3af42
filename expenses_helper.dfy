/**
 * The pairwise helpers of helper/expenses.ts: the category table, the payment caption,
 * the filter that keeps the expenses two users share, and the signed balance between them.
 */
module ExpenseHelpers {
  import opened Types

  // ---------------------------------------------------------------- getCategoryById

  /** A category of `EXPENSE_CATEGORIES` (its icon component is not modelled). */
  datatype Category = Category(id: string, name: string)

  const Other := Category("other", "Other")

  /** `EXPENSE_CATEGORIES`, in declaration order. */
  const Categories: seq<Category> := [
    Category("foodDrink", "Food & Drink"),
    Category("coffee", "Coffee"),
    Category("groceries", "Groceries"),
    Category("shopping", "Shopping"),
    Category("travel", "Travel"),
    Category("transportation", "Transportation"),
    Category("housing", "Housing"),
    Category("entertainment", "Entertainment"),
    Category("tickets", "Tickets"),
    Category("utilities", "Utilities"),
    Category("water", "Water"),
    Category("education", "Education"),
    Category("health", "Health"),
    Category("personal", "Personal"),
    Category("gifts", "Gifts"),
    Category("technology", "Technology"),
    Category("bills", "Bills & Fees"),
    Category("baby", "Baby & Kids"),
    Category("music", "Music"),
    Category("books", "Books"),
    Other,
    Category("general", "General Expense")
  ]

  /** The first category of `table` with id `id`. */
  function Lookup(table: seq<Category>, id: string): (r: Option<Category>)
    ensures r.Some? ==> r.value in table && r.value.id == id
    ensures r.None? <==> forall c | c in table :: c.id != id
  {
    if |table| == 0 then None
    else if table[0].id == id then Some(table[0])
    else Lookup(table[1..], id)
  }

  /** `getCategoryById(id)`: the category with that id, or "other" when there is none. */
  function GetCategoryById(id: string): (r: Category)
    ensures r in Categories
    ensures (exists c | c in Categories :: c.id == id) ==> r.id == id
    ensures (forall c | c in Categories :: c.id != id) ==> r == Other
  {
    match Lookup(Categories, id)
    case Some(c) => c
    case None => Other
  }

  // ---------------------------------------------------------------- getPaymentDisplay

  datatype PaymentDisplay = PaymentDisplay(title: string, labelText: string, labelClassName: string)

  /** `getPaymentDisplay(isPayer, isReceiver, payerName, receiverName)`. */
  function GetPaymentDisplay(isPayer: bool, isReceiver: bool, payerName: string, receiverName: string)
    : (r: PaymentDisplay)
    ensures isPayer <==> r.labelText == "You paid"
    ensures !isPayer && isReceiver <==> r.labelText == "You received"
    ensures !isPayer && !isReceiver <==> r.labelText == "Payment"
    ensures isPayer ==> r.title == "You paid " + receiverName && r.labelClassName == "text-amber-600"
    ensures !isPayer && isReceiver ==> r.title == payerName + " paid you" && r.labelClassName == "text-green-600"
    ensures !isPayer && !isReceiver ==> r.title == payerName + " paid " + receiverName && r.labelClassName == ""
  {
    if isPayer then PaymentDisplay("You paid " + receiverName, "You paid", "text-amber-600")
    else if isReceiver then PaymentDisplay(payerName + " paid you", "You received", "text-green-600")
    else PaymentDisplay(payerName + " paid " + receiverName, "Payment", "")
  }

  // ---------------------------------------------------------------- filterExpensesBetweenUsers

  /** `splits.some((s) => s.userId === u)`. */
  function HasSplit(splits: seq<Split>, u: UserId): (r: bool)
    ensures r <==> exists s | s in splits :: s.userId == u
  {
    if |splits| == 0 then false
    else splits[0].userId == u || HasSplit(splits[1..], u)
  }

  /** A user is involved in an expense when they paid it or have a split on it. */
  predicate Involved(e: Expense, u: UserId) {
    e.paidBy == u || HasSplit(e.splits, u)
  }

  /** `filterExpensesBetweenUsers(expenses, me, other)`. */
  function FilterBetween(expenses: seq<Expense>, me: UserId, other: UserId): (r: seq<Expense>)
    ensures forall e :: e in r <==> e in expenses && Involved(e, me) && Involved(e, other)
    ensures |r| <= |expenses|
  {
    if |expenses| == 0 then []
    else
      var init := FilterBetween(expenses[..|expenses| - 1], me, other);
      var e := expenses[|expenses| - 1];
      assert forall x :: x in expenses <==> x in expenses[..|expenses| - 1] || x == e by {
        assert expenses == expenses[..|expenses| - 1] + [e];
      }
      if Involved(e, me) && Involved(e, other) then init + [e] else init
  }

  /** The filter keeps the input order: filtering a concatenation filters each part. */
  lemma {:induction false} FilterBetweenAppend(a: seq<Expense>, b: seq<Expense>, me: UserId, other: UserId)
    ensures FilterBetween(a + b, me, other) == FilterBetween(a, me, other) + FilterBetween(b, me, other)
  {
    if |b| != 0 {
      var init := b[..|b| - 1];
      assert (a + b)[..|a + b| - 1] == a + init;
      FilterBetweenAppend(a, init, me, other);
    } else {
      assert a + b == a;
    }
  }

  /** Filtering twice keeps what filtering once kept. */
  lemma {:induction false} FilterBetweenIdempotent(expenses: seq<Expense>, me: UserId, other: UserId)
    ensures FilterBetween(FilterBetween(expenses, me, other), me, other) == FilterBetween(expenses, me, other)
  {
    if |expenses| != 0 {
      var init := expenses[..|expenses| - 1];
      var e := expenses[|expenses| - 1];
      FilterBetweenIdempotent(init, me, other);
      FilterBetweenAppend(FilterBetween(init, me, other), [e], me, other);
    }
  }

  // ---------------------------------------------------------------- calculateExpense

  /**
   * What one expense adds to `me`'s balance with `other`: `other`'s first unpaid split when
   * `me` paid, minus `me`'s first unpaid split otherwise, and nothing without such a split.
   */
  function Contribution(e: Expense, me: UserId, other: UserId): Money {
    if e.paidBy == me then
      match FindUnpaid(e.splits, other)
      case Some(s) => s.amount
      case None => 0
    else
      match FindUnpaid(e.splits, me)
      case Some(s) => -s.amount
      case None => 0
  }

  /** The balance `calculateExpense` accumulates; positive when `other` owes `me`. */
  function PairBalance(expenses: seq<Expense>, me: UserId, other: UserId): Money {
    if |expenses| == 0 then 0
    else PairBalance(expenses[..|expenses| - 1], me, other) + Contribution(expenses[|expenses| - 1], me, other)
  }

  /** `calculateExpense(expenses, me, other)`. */
  method CalculateExpense(expenses: seq<Expense>, me: UserId, other: UserId) returns (balance: Money)
    ensures balance == PairBalance(expenses, me, other)
  {
    balance := 0;
    for i := 0 to |expenses|
      invariant balance == PairBalance(expenses[..i], me, other)
    {
      var e := expenses[i];
      assert expenses[..i + 1][..i] == expenses[..i];
      var split := if e.paidBy == me then FindUnpaid(e.splits, other) else FindUnpaid(e.splits, me);
      if split.None? {
        continue;
      }
      balance := balance + if e.paidBy == me then split.value.amount else -split.value.amount;
    }
    assert expenses[..|expenses|] == expenses;
  }

  /** The split that counts is the first unpaid split of the user who did not pay. */
  lemma ContributionIsFirstUnpaid(e: Expense, me: UserId, other: UserId, i: nat)
    requires i < |e.splits|
    requires var u := if e.paidBy == me then other else me;
      IsUnpaidOf(e.splits[i], u) && forall j | 0 <= j < i :: !IsUnpaidOf(e.splits[j], u)
    ensures Contribution(e, me, other) == if e.paidBy == me then e.splits[i].amount else -e.splits[i].amount
  {
    FindUnpaidIsFirst(e.splits, if e.paidBy == me then other else me, i);
  }

  /** A paid split, added anywhere to an expense, never changes its contribution. */
  lemma PaidSplitNeverContributes(e: Expense, me: UserId, other: UserId, k: nat, s: Split)
    requires k <= |e.splits| && s.paid
    ensures Contribution(e.(splits := e.splits[..k] + [s] + e.splits[k..]), me, other) == Contribution(e, me, other)
  {
    FindUnpaidSkipsPaid(e.splits, other, k, s);
    FindUnpaidSkipsPaid(e.splits, me, k, s);
  }

  /** The expenses two distinct users share are seen from either side with opposite sign. */
  lemma {:induction false} PairBalanceAntisymmetric(expenses: seq<Expense>, me: UserId, other: UserId)
    requires me != other
    requires forall e | e in expenses :: e.paidBy == me || e.paidBy == other
    ensures PairBalance(expenses, me, other) == -PairBalance(expenses, other, me)
  {
    if |expenses| != 0 {
      var init := expenses[..|expenses| - 1];
      assert expenses[|expenses| - 1] in expenses;
      PairBalanceAntisymmetric(init, me, other);
    }
  }

  /** Balances over consecutive runs of expenses add up. */
  lemma {:induction false} PairBalanceAppend(a: seq<Expense>, b: seq<Expense>, me: UserId, other: UserId)
    ensures PairBalance(a + b, me, other) == PairBalance(a, me, other) + PairBalance(b, me, other)
  {
    if |b| != 0 {
      var init := b[..|b| - 1];
      assert (a + b)[..|a + b| - 1] == a + init;
      PairBalanceAppend(a, init, me, other);
    } else {
      assert a + b == a;
    }
  }
}

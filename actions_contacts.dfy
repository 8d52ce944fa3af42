/**
 * actions/contacts.ts: the contact ids `getAllContacts` collects from one-to-one expenses,
 * and the member list and roles `createGroup` builds for a new group.
 */
module ContactActions {
  import opened Types
  import opened Records
  import opened ExpenseHelpers

  // ---------------------------------------------------------------- getAllContacts

  /** `set.add(x)` on the keys of a `Set`, kept in insertion order. */
  function AddId(ids: seq<UserId>, x: UserId): (r: seq<UserId>)
    ensures forall y :: y in r <==> y in ids || y == x
    ensures Distinct(ids) ==> Distinct(r)
  {
    if x in ids then ids else ids + [x]
  }

  /** The split users other than `me` added to `ids`, split by split. */
  function AddSplitIds(ids: seq<UserId>, splits: seq<Split>, me: UserId): seq<UserId> {
    if |splits| == 0 then ids
    else
      var d := AddSplitIds(ids, splits[..|splits| - 1], me);
      var s := splits[|splits| - 1];
      if s.userId != me then AddId(d, s.userId) else d
  }

  /** One expense's contribution: its payer unless it is `me`, then its split users. */
  function AddExpenseIds(ids: seq<UserId>, e: Expense, me: UserId): seq<UserId> {
    AddSplitIds(if e.paidBy != me then AddId(ids, e.paidBy) else ids, e.splits, me)
  }

  /** The ids the contact set holds after visiting `expenses` in order. */
  function ContactIds(ids: seq<UserId>, expenses: seq<Expense>, me: UserId): seq<UserId> {
    if |expenses| == 0 then ids
    else AddExpenseIds(ContactIds(ids, expenses[..|expenses| - 1], me), expenses[|expenses| - 1], me)
  }

  /** The inner `forEach` over one expense's splits. */
  method AddSplitUsers(ids: seq<UserId>, splits: seq<Split>, me: UserId) returns (r: seq<UserId>)
    ensures r == AddSplitIds(ids, splits, me)
  {
    r := ids;
    for i := 0 to |splits|
      invariant r == AddSplitIds(ids, splits[..i], me)
    {
      assert splits[..i + 1][..i] == splits[..i];
      if splits[i].userId != me {
        r := AddId(r, splits[i].userId);
      }
    }
    assert splits[..|splits|] == splits;
  }

  /**
   * The contact ids of `getAllContacts`: every payer and split user of the personal expenses
   * (those `me` paid, then those others paid), other than `me`, once each in first-seen order.
   */
  method CollectContactIds(me: UserId, expensesYouPaid: seq<Expense>, expensesNotPaidByYou: seq<Expense>)
    returns (ids: seq<UserId>)
    ensures ids == ContactIds([], expensesYouPaid + expensesNotPaidByYou, me)
    ensures Distinct(ids)
    ensures forall x :: x in ids <==> x != me && exists e | e in expensesYouPaid + expensesNotPaidByYou :: Involved(e, x)
  {
    var personalExpenses := expensesYouPaid + expensesNotPaidByYou;
    ids := [];
    for i := 0 to |personalExpenses|
      invariant ids == ContactIds([], personalExpenses[..i], me)
    {
      assert personalExpenses[..i + 1][..i] == personalExpenses[..i];
      var expense := personalExpenses[i];
      if expense.paidBy != me {
        ids := AddId(ids, expense.paidBy);
      }
      ids := AddSplitUsers(ids, expense.splits, me);
    }
    assert personalExpenses[..|personalExpenses|] == personalExpenses;
    ContactIdsMembers([], personalExpenses, me);
  }

  lemma {:induction false} AddSplitIdsMembers(ids: seq<UserId>, splits: seq<Split>, me: UserId)
    ensures Distinct(ids) ==> Distinct(AddSplitIds(ids, splits, me))
    ensures forall x :: x in AddSplitIds(ids, splits, me) <==>
      x in ids || (x != me && exists s | s in splits :: s.userId == x)
  {
    if |splits| != 0 {
      var init := splits[..|splits| - 1];
      var last := splits[|splits| - 1];
      AddSplitIdsMembers(ids, init, me);
      assert forall s :: s in splits <==> s in init || s == last by {
        assert splits == init + [last];
      }
    }
  }

  /** The set holds what it started with and each other user some visited expense involves. */
  lemma {:induction false} ContactIdsMembers(ids: seq<UserId>, expenses: seq<Expense>, me: UserId)
    ensures Distinct(ids) ==> Distinct(ContactIds(ids, expenses, me))
    ensures forall x :: x in ContactIds(ids, expenses, me) <==>
      x in ids || (x != me && exists e | e in expenses :: Involved(e, x))
  {
    if |expenses| != 0 {
      var init := expenses[..|expenses| - 1];
      var e := expenses[|expenses| - 1];
      ContactIdsMembers(ids, init, me);
      var before := ContactIds(ids, init, me);
      AddSplitIdsMembers(if e.paidBy != me then AddId(before, e.paidBy) else before, e.splits, me);
      assert forall f :: f in expenses <==> f in init || f == e by {
        assert expenses == init + [e];
      }
      forall x ensures x in ContactIds(ids, expenses, me) <==>
        x in ids || (x != me && exists f | f in expenses :: Involved(f, x))
      {
        assert Involved(e, x) <==> e.paidBy == x || exists s | s in e.splits :: s.userId == x;
      }
    }
  }

  /** An expense `me` paid outside any group, as the first query selects. */
  predicate PaidByMe(e: Expense, me: UserId) {
    e.paidBy == me && e.groupId.None?
  }

  /** An expense someone else paid outside any group with a split for `me`, as the second selects. */
  predicate SharedWithMe(e: Expense, me: UserId) {
    e.paidBy != me && e.groupId.None? && HasSplit(e.splits, me)
  }

  /** Every contact shares a one-to-one expense with the current user. */
  lemma ContactsShareExpense(me: UserId, expensesYouPaid: seq<Expense>, expensesNotPaidByYou: seq<Expense>, x: UserId)
    requires forall e | e in expensesYouPaid :: PaidByMe(e, me)
    requires forall e | e in expensesNotPaidByYou :: SharedWithMe(e, me)
    requires x in ContactIds([], expensesYouPaid + expensesNotPaidByYou, me)
    ensures x != me
    ensures exists e | e in expensesYouPaid + expensesNotPaidByYou ::
      e.groupId.None? && Involved(e, me) && Involved(e, x)
  {
    ContactIdsMembers([], expensesYouPaid + expensesNotPaidByYou, me);
    var e :| e in expensesYouPaid + expensesNotPaidByYou && Involved(e, x);
    assert e in expensesYouPaid || e in expensesNotPaidByYou;
  }

  // ---------------------------------------------------------------- createGroup

  datatype Role = Admin | Member

  datatype NewMember = NewMember(userId: UserId, role: Role)

  datatype NewGroup = NewGroup(name: string, description: string, createdBy: UserId, members: seq<NewMember>)

  datatype CreateGroupError = NameRequired | InvalidUserIds(ids: seq<UserId>)

  /** `new Set(members)` with the current user added. */
  function UniqueMembers(members: seq<UserId>, currentUser: UserId): (r: seq<UserId>)
    ensures Distinct(r)
    ensures forall x :: x in r <==> x in members || x == currentUser
  {
    Dedup(members + [currentUser])
  }

  /** The ids among `ids` no user exists for, in order. */
  function UnknownIds(ids: seq<UserId>, known: set<UserId>): (r: seq<UserId>)
    ensures forall x :: x in r <==> x in ids && x !in known
  {
    if |ids| == 0 then []
    else
      var rest := UnknownIds(ids[1..], known);
      assert ids == [ids[0]] + ids[1..];
      if ids[0] in known then rest else [ids[0]] + rest
  }

  /** The member rows of the new group: the current user is its admin, everybody else a member. */
  function MemberRows(ids: seq<UserId>, currentUser: UserId): (r: seq<NewMember>)
    ensures |r| == |ids|
    ensures forall i | 0 <= i < |r| :: r[i].userId == ids[i] && (r[i].role == Admin <==> ids[i] == currentUser)
  {
    if |ids| == 0 then []
    else [NewMember(ids[0], if ids[0] == currentUser then Admin else Member)] + MemberRows(ids[1..], currentUser)
  }

  /**
   * `createGroup`: the name is required; every id in the member list, and the current user,
   * must belong to an existing user (`known`), else the unknown ones are reported. The
   * description defaults to the empty string.
   */
  function CreateGroup(currentUser: UserId, name: string, description: Option<string>, members: seq<UserId>, known: set<UserId>)
    : (r: Result<NewGroup, CreateGroupError>)
    ensures r == Err(NameRequired) <==> name == ""
    ensures r.Ok? <==> name != "" && currentUser in known && forall x | x in members :: x in known
    ensures r.Err? && r.error.InvalidUserIds? ==>
      name != "" && forall x :: x in r.error.ids <==> (x in members || x == currentUser) && x !in known
    ensures r.Ok? ==>
      r.value.name == name && r.value.createdBy == currentUser
      && r.value.description == (if description.Some? then description.value else "")
      && r.value.members == MemberRows(UniqueMembers(members, currentUser), currentUser)
  {
    if name == "" then Err(NameRequired)
    else
      var uniqueMembers := UniqueMembers(members, currentUser);
      var invalidUserIds := UnknownIds(uniqueMembers, known);
      if |invalidUserIds| != 0 then
        assert invalidUserIds[0] in invalidUserIds;
        Err(InvalidUserIds(invalidUserIds))
      else
        assert forall x | x in members :: x in uniqueMembers;
        Ok(NewGroup(name, if description.Some? then description.value else "", currentUser,
          MemberRows(uniqueMembers, currentUser)))
  }

  /**
   * A new group lists each requested member and its creator exactly once, and its creator is
   * its one admin.
   */
  lemma CreatedGroupMembers(currentUser: UserId, name: string, description: Option<string>, members: seq<UserId>, known: set<UserId>)
    requires CreateGroup(currentUser, name, description, members, known).Ok?
    ensures var rows := CreateGroup(currentUser, name, description, members, known).value.members;
      (forall i, j | 0 <= i < j < |rows| :: rows[i].userId != rows[j].userId)
      && (forall x :: (exists i | 0 <= i < |rows| :: rows[i].userId == x) <==> x in members || x == currentUser)
      && (exists i | 0 <= i < |rows| :: rows[i] == NewMember(currentUser, Admin))
      && (forall i, j | 0 <= i < |rows| && 0 <= j < |rows| && rows[i].role == Admin && rows[j].role == Admin :: i == j)
  {
    var ids := UniqueMembers(members, currentUser);
    var rows := CreateGroup(currentUser, name, description, members, known).value.members;
    assert rows == MemberRows(ids, currentUser);
    forall x ensures (exists i | 0 <= i < |rows| :: rows[i].userId == x) <==> x in members || x == currentUser {
      if x in ids {
        var i :| 0 <= i < |ids| && ids[i] == x;
        assert rows[i].userId == x;
      }
    }
    assert currentUser in ids;
    var k :| 0 <= k < |ids| && ids[k] == currentUser;
    assert rows[k] == NewMember(currentUser, Admin);
  }
}

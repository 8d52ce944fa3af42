/**
 * The group ledger of helper/expenses.ts as values: `totals` (each member's running net
 * position) and `ledger[debtor][creditor]` (what debtor owes creditor), and the effect of
 * each ledger operation on them. The class in ledger.dfy is proved against these functions.
 * The functions read an absent entry as 0; the class only uses them where every entry
 * it touches exists (`Valid` and the `...Fits` predicates).
 */
module LedgerSpec {
  import opened Types
  import opened Sums

  type Matrix = map<UserId, map<UserId, Money>>

  datatype LedgerState = LedgerState(totals: map<UserId, Money>, ledger: Matrix)

  function Members(ids: seq<UserId>): set<UserId> {
    set m | m in ids
  }

  /** Every member has a row holding every other member and no self entry. */
  ghost predicate ValidMatrix(L: Matrix) {
    forall a | a in L :: L[a].Keys == L.Keys - {a}
  }

  /** ... and a total. */
  ghost predicate Valid(st: LedgerState) {
    st.totals.Keys == st.ledger.Keys && ValidMatrix(st.ledger)
  }

  /** The splits the ledger counts: neither the payer's own share nor a paid one. */
  predicate Counts(s: Split, payer: UserId) {
    s.userId != payer && !s.paid
  }

  /** A counted split indexes `totals` and `ledger` by both ids: they must be members. */
  predicate SplitFits(s: Split, payer: UserId, ms: set<UserId>) {
    Counts(s, payer) ==> payer in ms && s.userId in ms
  }

  predicate ExpenseFits(e: Expense, ms: set<UserId>) {
    forall s | s in e.splits :: SplitFits(s, e.paidBy, ms)
  }

  /** `ledger[payer][receiver]` must exist: two distinct members. */
  predicate SettlementFits(t: Settlement, ms: set<UserId>) {
    t.paidBy in ms && t.receivedBy in ms && t.paidBy != t.receivedBy
  }

  function Get(m: map<UserId, Money>, k: UserId): Money {
    if k in m then m[k] else 0
  }

  function Row(L: Matrix, a: UserId): map<UserId, Money> {
    if a in L then L[a] else map[]
  }

  /** `ledger[a][b]`. */
  function Entry(L: Matrix, a: UserId, b: UserId): Money {
    Get(Row(L, a), b)
  }

  /** `m[k] += v`. */
  function Add(m: map<UserId, Money>, k: UserId, v: Money): map<UserId, Money> {
    m[k := Get(m, k) + v]
  }

  /** `ledger[a][b] += v`. */
  function AddEntry(L: Matrix, a: UserId, b: UserId, v: Money): Matrix {
    L[a := Add(Row(L, a), b, v)]
  }

  // ---------------------------------------------------------------- initializeLedger

  /** A zero total for each of `ids`. */
  function ZeroTotals(ids: seq<UserId>): map<UserId, Money> {
    map m | m in ids :: 0
  }

  /** The row `initializeLedger` gives member `a`: a zero for each of `ids` but `a`. */
  function ZeroRow(ids: seq<UserId>, a: UserId): map<UserId, Money> {
    map b | b in ids && b != a :: 0
  }

  /** The rows of `ids`, each a zero row over `memberIds`. */
  function ZeroRows(memberIds: seq<UserId>, ids: seq<UserId>): Matrix {
    map a | a in ids :: ZeroRow(memberIds, a)
  }

  /** The state `initializeLedger(memberIds)` returns. */
  function Initial(memberIds: seq<UserId>): LedgerState {
    LedgerState(ZeroTotals(memberIds), ZeroRows(memberIds, memberIds))
  }

  lemma ZeroTotalsSnoc(ids: seq<UserId>, x: UserId)
    ensures ZeroTotals(ids + [x]) == ZeroTotals(ids)[x := 0]
  {
  }

  lemma ZeroRowSnoc(ids: seq<UserId>, a: UserId, x: UserId)
    ensures ZeroRow(ids + [x], a) == if x == a then ZeroRow(ids, a) else ZeroRow(ids, a)[x := 0]
  {
  }

  lemma ZeroRowsSnoc(memberIds: seq<UserId>, ids: seq<UserId>, x: UserId)
    ensures ZeroRows(memberIds, ids + [x]) == ZeroRows(memberIds, ids)[x := ZeroRow(memberIds, x)]
  {
  }

  /**
   * Every member gets a zero total and a zero entry towards every other member, and no
   * entry towards itself; so the state is well formed and the totals sum to zero.
   */
  lemma InitialIsZero(memberIds: seq<UserId>)
    ensures Valid(Initial(memberIds)) && Initial(memberIds).ledger.Keys == Members(memberIds)
    ensures forall a | a in memberIds :: Initial(memberIds).totals[a] == 0
    ensures forall a, b | a in memberIds && b in memberIds && a != b ::
      Initial(memberIds).ledger[a][b] == 0
    ensures forall a | a in memberIds :: a !in Initial(memberIds).ledger[a]
    ensures MapSum(Initial(memberIds).totals) == 0
  {
    MapSumZero(Initial(memberIds).totals);
  }

  // ---------------------------------------------------------------- applyExpensesToLedger

  /** One split: the debtor owes the payer its amount more; the two totals move apart. */
  function ApplySplit(st: LedgerState, payer: UserId, s: Split): LedgerState {
    if !Counts(s, payer) then st
    else
      LedgerState(
        Add(Add(st.totals, payer, s.amount), s.userId, -s.amount),
        AddEntry(st.ledger, s.userId, payer, s.amount))
  }

  /** The splits of one expense, in order. */
  function ApplySplits(st: LedgerState, payer: UserId, splits: seq<Split>): LedgerState {
    if |splits| == 0 then st
    else ApplySplit(ApplySplits(st, payer, splits[..|splits| - 1]), payer, splits[|splits| - 1])
  }

  /** `applyExpensesToLedger(expenses, totals, ledger)`. */
  function ApplyExpenses(st: LedgerState, expenses: seq<Expense>): LedgerState {
    if |expenses| == 0 then st
    else
      var e := expenses[|expenses| - 1];
      ApplySplits(ApplyExpenses(st, expenses[..|expenses| - 1]), e.paidBy, e.splits)
  }

  // ---------------------------------------------------------------- applySettlementsToLedger

  /** One settlement: the payer owes the receiver its amount less. */
  function ApplySettlement(st: LedgerState, t: Settlement): LedgerState {
    LedgerState(
      Add(Add(st.totals, t.paidBy, t.amount), t.receivedBy, -t.amount),
      AddEntry(st.ledger, t.paidBy, t.receivedBy, -t.amount))
  }

  /** `applySettlementsToLedger(settlements, totals, ledger)`. */
  function ApplySettlements(st: LedgerState, settlements: seq<Settlement>): LedgerState {
    if |settlements| == 0 then st
    else ApplySettlement(ApplySettlements(st, settlements[..|settlements| - 1]), settlements[|settlements| - 1])
  }

  // ---------------------------------------------------------------- the shape is kept

  /** A counted split of a well-formed state, written as the in-place updates of the ledger code. */
  lemma ApplySplitStep(st: LedgerState, payer: UserId, s: Split)
    requires Valid(st) && SplitFits(s, payer, st.ledger.Keys)
    ensures Valid(ApplySplit(st, payer, s)) && ApplySplit(st, payer, s).ledger.Keys == st.ledger.Keys
    ensures Counts(s, payer) ==>
      var t1 := st.totals[payer := st.totals[payer] + s.amount];
      ApplySplit(st, payer, s) == LedgerState(
        t1[s.userId := t1[s.userId] - s.amount],
        st.ledger[s.userId := st.ledger[s.userId][payer := st.ledger[s.userId][payer] + s.amount]])
  {
  }

  lemma ApplySplitsSnoc(st: LedgerState, payer: UserId, splits: seq<Split>, j: nat)
    requires j < |splits|
    ensures ApplySplits(st, payer, splits[..j + 1]) == ApplySplit(ApplySplits(st, payer, splits[..j]), payer, splits[j])
  {
    assert splits[..j + 1][..j] == splits[..j];
  }

  lemma ApplyExpensesSnoc(st: LedgerState, expenses: seq<Expense>, i: nat)
    requires i < |expenses|
    ensures ApplyExpenses(st, expenses[..i + 1])
      == ApplySplits(ApplyExpenses(st, expenses[..i]), expenses[i].paidBy, expenses[i].splits)
  {
    assert expenses[..i + 1][..i] == expenses[..i];
  }

  lemma {:induction false} ApplySplitsKeepShape(st: LedgerState, payer: UserId, splits: seq<Split>)
    requires Valid(st) && forall s | s in splits :: SplitFits(s, payer, st.ledger.Keys)
    ensures Valid(ApplySplits(st, payer, splits)) && ApplySplits(st, payer, splits).ledger.Keys == st.ledger.Keys
  {
    if |splits| != 0 {
      var init := splits[..|splits| - 1];
      ApplySplitsKeepShape(st, payer, init);
      assert splits[|splits| - 1] in splits;
      ApplySplitStep(ApplySplits(st, payer, init), payer, splits[|splits| - 1]);
    }
  }

  /** Applying member expenses keeps every total and every pair entry, and adds none. */
  lemma {:induction false} ApplyExpensesKeepShape(st: LedgerState, expenses: seq<Expense>)
    requires Valid(st) && forall e | e in expenses :: ExpenseFits(e, st.ledger.Keys)
    ensures Valid(ApplyExpenses(st, expenses)) && ApplyExpenses(st, expenses).ledger.Keys == st.ledger.Keys
  {
    if |expenses| != 0 {
      var init := expenses[..|expenses| - 1];
      var e := expenses[|expenses| - 1];
      assert e in expenses;
      ApplyExpensesKeepShape(st, init);
      ApplySplitsKeepShape(ApplyExpenses(st, init), e.paidBy, e.splits);
    }
  }

  /** A settlement between members, written as the in-place updates of the ledger code. */
  lemma ApplySettlementStep(st: LedgerState, t: Settlement)
    requires Valid(st) && SettlementFits(t, st.ledger.Keys)
    ensures Valid(ApplySettlement(st, t)) && ApplySettlement(st, t).ledger.Keys == st.ledger.Keys
    ensures
      var t1 := st.totals[t.paidBy := st.totals[t.paidBy] + t.amount];
      ApplySettlement(st, t) == LedgerState(
        t1[t.receivedBy := t1[t.receivedBy] - t.amount],
        st.ledger[t.paidBy := st.ledger[t.paidBy][t.receivedBy := st.ledger[t.paidBy][t.receivedBy] - t.amount]])
  {
  }

  lemma ApplySettlementsSnoc(st: LedgerState, settlements: seq<Settlement>, i: nat)
    requires i < |settlements|
    ensures ApplySettlements(st, settlements[..i + 1])
      == ApplySettlement(ApplySettlements(st, settlements[..i]), settlements[i])
  {
    assert settlements[..i + 1][..i] == settlements[..i];
  }

  /** Applying settlements between members keeps every total and every pair entry, and adds none. */
  lemma {:induction false} ApplySettlementsKeepShape(st: LedgerState, settlements: seq<Settlement>)
    requires Valid(st) && forall t | t in settlements :: SettlementFits(t, st.ledger.Keys)
    ensures Valid(ApplySettlements(st, settlements))
    ensures ApplySettlements(st, settlements).ledger.Keys == st.ledger.Keys
  {
    if |settlements| != 0 {
      var init := settlements[..|settlements| - 1];
      assert settlements[|settlements| - 1] in settlements;
      ApplySettlementsKeepShape(st, init);
      ApplySettlementStep(ApplySettlements(st, init), settlements[|settlements| - 1]);
    }
  }

  // ---------------------------------------------------------------- conservation

  /** `m[k] += v` adds `v` to the sum, whether or not `k` was there. */
  lemma AddSum(m: map<UserId, Money>, k: UserId, v: Money)
    ensures MapSum(Add(m, k, v)) == MapSum(m) + v
  {
    MapSumUpdate(m, k, Get(m, k) + v);
  }

  lemma ApplySplitConserves(st: LedgerState, payer: UserId, s: Split)
    ensures MapSum(ApplySplit(st, payer, s).totals) == MapSum(st.totals)
  {
    if Counts(s, payer) {
      var m1 := Add(st.totals, payer, s.amount);
      AddSum(st.totals, payer, s.amount);
      AddSum(m1, s.userId, -s.amount);
    }
  }

  lemma {:induction false} ApplySplitsConserves(st: LedgerState, payer: UserId, splits: seq<Split>)
    ensures MapSum(ApplySplits(st, payer, splits).totals) == MapSum(st.totals)
  {
    if |splits| != 0 {
      var init := splits[..|splits| - 1];
      var s := splits[|splits| - 1];
      var prev := ApplySplits(st, payer, init);
      ApplySplitsConserves(st, payer, init);
      ApplySplitConserves(prev, payer, s);
      assert ApplySplits(st, payer, splits) == ApplySplit(prev, payer, s);
    }
  }

  /** Every counted split adds to one total what it takes from another. */
  lemma {:induction false} ApplyExpensesConserves(st: LedgerState, expenses: seq<Expense>)
    ensures MapSum(ApplyExpenses(st, expenses).totals) == MapSum(st.totals)
  {
    if |expenses| != 0 {
      var init := expenses[..|expenses| - 1];
      var e := expenses[|expenses| - 1];
      ApplyExpensesConserves(st, init);
      ApplySplitsConserves(ApplyExpenses(st, init), e.paidBy, e.splits);
    }
  }

  lemma ApplySettlementConserves(st: LedgerState, t: Settlement)
    ensures MapSum(ApplySettlement(st, t).totals) == MapSum(st.totals)
  {
    var m1 := Add(st.totals, t.paidBy, t.amount);
    AddSum(st.totals, t.paidBy, t.amount);
    AddSum(m1, t.receivedBy, -t.amount);
  }

  /** Every settlement adds to the payer's total what it takes from the receiver's. */
  lemma {:induction false} ApplySettlementsConserves(st: LedgerState, settlements: seq<Settlement>)
    ensures MapSum(ApplySettlements(st, settlements).totals) == MapSum(st.totals)
  {
    if |settlements| != 0 {
      var init := settlements[..|settlements| - 1];
      var t := settlements[|settlements| - 1];
      var prev := ApplySettlements(st, init);
      ApplySettlementsConserves(st, init);
      ApplySettlementConserves(prev, t);
      assert ApplySettlements(st, settlements) == ApplySettlement(prev, t);
    }
  }

  // ---------------------------------------------------------------- what each entry holds

  /** What `a` paid `b` in the settlements. */
  function SettledAmount(settlements: seq<Settlement>, a: UserId, b: UserId): Money {
    if |settlements| == 0 then 0
    else
      var t := settlements[|settlements| - 1];
      SettledAmount(settlements[..|settlements| - 1], a, b)
        + (if t.paidBy == a && t.receivedBy == b then t.amount else 0)
  }

  /**
   * A split changes only `ledger[debtor][payer]`, and only when it is counted: the payer's
   * own split and paid splits change nothing.
   */
  lemma ApplySplitEffect(st: LedgerState, payer: UserId, s: Split, a: UserId, b: UserId)
    ensures Entry(ApplySplit(st, payer, s).ledger, a, b)
      == Entry(st.ledger, a, b) + (if Counts(s, payer) && s.userId == a && payer == b then s.amount else 0)
    ensures !Counts(s, payer) ==> ApplySplit(st, payer, s) == st
  {
  }

  lemma {:induction false} ApplySplitsEffect(st: LedgerState, payer: UserId, splits: seq<Split>, a: UserId, b: UserId)
    ensures Entry(ApplySplits(st, payer, splits).ledger, a, b)
      == Entry(st.ledger, a, b) + (if payer == b && a != b then UnpaidShare(splits, a) else 0)
  {
    if |splits| != 0 {
      var init := splits[..|splits| - 1];
      ApplySplitsEffect(st, payer, init, a, b);
      ApplySplitEffect(ApplySplits(st, payer, init), payer, splits[|splits| - 1], a, b);
    }
  }

  /** After the expenses, `ledger[a][b]` has grown by exactly `a`'s unpaid shares of `b`'s expenses. */
  lemma {:induction false} ApplyExpensesEffect(st: LedgerState, expenses: seq<Expense>, a: UserId, b: UserId)
    ensures Entry(ApplyExpenses(st, expenses).ledger, a, b) == Entry(st.ledger, a, b) + ExpenseDebt(expenses, a, b)
  {
    if |expenses| != 0 {
      var init := expenses[..|expenses| - 1];
      var e := expenses[|expenses| - 1];
      ApplyExpensesEffect(st, init, a, b);
      ApplySplitsEffect(ApplyExpenses(st, init), e.paidBy, e.splits, a, b);
    }
  }

  /** A settlement changes only `ledger[payer][receiver]`, by minus its amount. */
  lemma ApplySettlementEffect(st: LedgerState, t: Settlement, a: UserId, b: UserId)
    ensures Entry(ApplySettlement(st, t).ledger, a, b)
      == Entry(st.ledger, a, b) - (if t.paidBy == a && t.receivedBy == b then t.amount else 0)
  {
  }

  /** After the settlements, `ledger[a][b]` has shrunk by exactly what `a` paid `b`. */
  lemma {:induction false} ApplySettlementsEffect(st: LedgerState, settlements: seq<Settlement>, a: UserId, b: UserId)
    ensures Entry(ApplySettlements(st, settlements).ledger, a, b)
      == Entry(st.ledger, a, b) - SettledAmount(settlements, a, b)
  {
    if |settlements| != 0 {
      var init := settlements[..|settlements| - 1];
      ApplySettlementsEffect(st, init, a, b);
      ApplySettlementEffect(ApplySettlements(st, init), settlements[|settlements| - 1], a, b);
    }
  }

  // ---------------------------------------------------------------- netLedger

  /** What is left of `a`'s debt to `b` once the two opposing debts are offset. */
  function NetEntry(L: Matrix, a: UserId, b: UserId): Money {
    if Entry(L, a, b) - Entry(L, b, a) > 0 then Entry(L, a, b) - Entry(L, b, a) else 0
  }

  /** The matrix after `netLedger(memberIds, ledger)` with `ms` the set of `memberIds`. */
  function Net(L: Matrix, ms: set<UserId>): Matrix {
    map a | a in L :: map b | b in L[a] :: if a in ms && b in ms && a != b then NetEntry(L, a, b) else L[a][b]
  }

  /** Netting keeps the shape of a well-formed ledger. */
  lemma NetKeepsShape(L: Matrix, ms: set<UserId>)
    requires ValidMatrix(L)
    ensures ValidMatrix(Net(L, ms)) && Net(L, ms).Keys == L.Keys
    ensures forall a | a in L :: Net(L, ms)[a].Keys == L[a].Keys
  {
  }

  /** Netting keeps what each member of a pair owes the other, on balance. */
  lemma NetPreservesDifference(L: Matrix, ms: set<UserId>, a: UserId, b: UserId)
    requires ValidMatrix(L) && a in L && b in L[a]
    ensures Entry(Net(L, ms), a, b) - Entry(Net(L, ms), b, a) == Entry(L, a, b) - Entry(L, b, a)
  {
  }

  /**
   * After netting, the entries of a pair of members are what is left of the larger debt
   * and zero: both are non-negative and at most one is non-zero.
   */
  lemma NetIsOneSided(L: Matrix, ms: set<UserId>, a: UserId, b: UserId)
    requires ValidMatrix(L) && a in ms && b in ms && a in L && b in L[a]
    ensures Entry(Net(L, ms), a, b) >= 0 && Entry(Net(L, ms), b, a) >= 0
    ensures Entry(Net(L, ms), a, b) == 0 || Entry(Net(L, ms), b, a) == 0
    ensures Entry(Net(L, ms), a, b) == if L[a][b] > L[b][a] then L[a][b] - L[b][a] else 0
  {
  }

  /** Netting an already netted ledger changes nothing. */
  lemma NetIdempotent(L: Matrix, ms: set<UserId>)
    requires ValidMatrix(L)
    ensures Net(Net(L, ms), ms) == Net(L, ms)
  {
    var n := Net(L, ms);
    var nn := Net(n, ms);
    NetKeepsShape(L, ms);
    forall a | a in n ensures nn[a] == n[a] {
      forall b | b in n[a] ensures nn[a][b] == n[a][b] {
        NetPreservesDifference(L, ms, a, b);
      }
    }
  }

  // ---------------------------------------------------------------- netLedger, pair by pair

  function Min(a: int, b: int): int { if a <= b then a else b }

  function Max(a: int, b: int): int { if a <= b then b else a }

  /**
   * Whether the loops of `netLedger` over `ms` have netted the pair {p, q} when the outer
   * loop is at index `i` and the inner one at `j`: a pair is netted in the outer turn of
   * its smaller id, at the inner turn of its larger one.
   */
  ghost predicate Done(ms: seq<UserId>, i: nat, j: nat, p: UserId, q: UserId)
    requires i <= |ms| && j <= |ms|
  {
    p != q
    && ((Min(p, q) in ms[..i] && Max(p, q) in ms)
        || (i < |ms| && Min(p, q) == ms[i] && Max(p, q) in ms[..j]))
  }

  /** Midway through `netLedger`: netted pairs hold their net entries, all others those of `L0`. */
  ghost predicate NetProgress(L0: Matrix, L: Matrix, ms: seq<UserId>, i: nat, j: nat)
    requires i <= |ms| && j <= |ms|
  {
    && L.Keys == L0.Keys
    && (forall a | a in L :: L[a].Keys == L0[a].Keys)
    && forall p, q | p in L && q in L[p] ::
         L[p][q] == if Done(ms, i, j, p, q) then NetEntry(L0, p, q) else L0[p][q]
  }

  /** The body of the inner loop of `netLedger` for the pair `a` < `b`. */
  function NetPair(L: Matrix, a: UserId, b: UserId): Matrix
    requires a != b && a in L && b in L && b in L[a] && a in L[b]
  {
    var diff := L[a][b] - L[b][a];
    if diff > 0 then
      var L1 := L[a := L[a][b := diff]];
      L1[b := L1[b][a := 0]]
    else if diff < 0 then
      var L1 := L[b := L[b][a := -diff]];
      L1[a := L1[a][b := 0]]
    else
      var L1 := L[a := L[a][b := 0]];
      L1[b := L1[b][a := 0]]
  }

  /** Netting one pair leaves the other side of the debt at zero and every other entry alone. */
  lemma NetPairEffect(L: Matrix, a: UserId, b: UserId)
    requires a != b && a in L && b in L && b in L[a] && a in L[b]
    ensures NetPair(L, a, b).Keys == L.Keys
    ensures forall x | x in L :: NetPair(L, a, b)[x].Keys == L[x].Keys
    ensures NetPair(L, a, b)[a][b] == NetEntry(L, a, b) && NetPair(L, a, b)[b][a] == NetEntry(L, b, a)
    ensures forall x, y | x in L && y in L[x] && !(x == a && y == b) && !(x == b && y == a) ::
      NetPair(L, a, b)[x][y] == L[x][y]
  {
  }

  lemma NetProgressStart(L0: Matrix, ms: seq<UserId>)
    ensures NetProgress(L0, L0, ms, 0, 0)
  {
  }

  /** Which pairs one turn of the inner loop of `netLedger` adds to those netted. */
  lemma DoneStep(ms: seq<UserId>, i: nat, j: nat, p: UserId, q: UserId)
    requires i < |ms| && j < |ms|
    ensures Done(ms, i, j + 1, p, q) <==>
      Done(ms, i, j, p, q) || (ms[i] < ms[j] && ((p == ms[i] && q == ms[j]) || (p == ms[j] && q == ms[i])))
  {
    assert ms[..j + 1] == ms[..j] + [ms[j]];
  }

  /**
   * Netting a pair whose entries are either still those of `L0` or already netted gives
   * the net entries of `L0`: netting depends only on the difference, which netting keeps.
   */
  lemma NetEntryAgain(L0: Matrix, L: Matrix, a: UserId, b: UserId, netted: bool)
    requires a in L0 && b in L0[a] && a in L && b in L[a] && b in L0 && a in L0[b] && b in L && a in L[b]
    requires netted ==> L[a][b] == NetEntry(L0, a, b) && L[b][a] == NetEntry(L0, b, a)
    requires !netted ==> L[a][b] == L0[a][b] && L[b][a] == L0[b][a]
    ensures NetEntry(L, a, b) == NetEntry(L0, a, b) && NetEntry(L, b, a) == NetEntry(L0, b, a)
  {
  }

  /** A matrix midway through `netLedger` keeps the shape of the one it started from. */
  lemma NetProgressShape(L0: Matrix, L: Matrix, ms: seq<UserId>, i: nat, j: nat)
    requires ValidMatrix(L0) && i <= |ms| && j <= |ms| && NetProgress(L0, L, ms, i, j)
    ensures ValidMatrix(L)
  {
  }

  /** One turn of the inner loop of `netLedger` nets the pair it is at, if it is in order. */
  lemma NetProgressStep(L0: Matrix, L: Matrix, ms: seq<UserId>, i: nat, j: nat)
    requires ValidMatrix(L0) && forall m | m in ms :: m in L0
    requires i < |ms| && j < |ms| && NetProgress(L0, L, ms, i, j)
    ensures ValidMatrix(L)
    ensures ms[i] < ms[j] ==> NetProgress(L0, NetPair(L, ms[i], ms[j]), ms, i, j + 1)
    ensures ms[i] >= ms[j] ==> NetProgress(L0, L, ms, i, j + 1)
  {
    NetProgressShape(L0, L, ms, i, j);
    var a, b := ms[i], ms[j];
    if a < b {
      assert a in L && b in L;
      NetPairEffect(L, a, b);
      var N := NetPair(L, a, b);
      NetEntryAgain(L0, L, a, b, Done(ms, i, j, a, b));
      forall p, q | p in N && q in N[p]
        ensures N[p][q] == if Done(ms, i, j + 1, p, q) then NetEntry(L0, p, q) else L0[p][q]
      {
        DoneStep(ms, i, j, p, q);
      }
    } else {
      forall p, q | p in L && q in L[p]
        ensures Done(ms, i, j + 1, p, q) == Done(ms, i, j, p, q)
      {
        DoneStep(ms, i, j, p, q);
      }
    }
  }

  /** The end of an outer turn of `netLedger`. */
  lemma NetProgressNext(L0: Matrix, L: Matrix, ms: seq<UserId>, i: nat)
    requires i < |ms| && NetProgress(L0, L, ms, i, |ms|)
    ensures NetProgress(L0, L, ms, i + 1, 0)
  {
    assert ms[..i + 1] == ms[..i] + [ms[i]];
    assert ms[..|ms|] == ms;
    assert forall p, q | p in L && q in L[p] :: Done(ms, i + 1, 0, p, q) <==> Done(ms, i, |ms|, p, q);
  }

  /** After every outer turn, every pair of members is netted. */
  lemma NetProgressEnd(L0: Matrix, L: Matrix, ms: seq<UserId>)
    requires NetProgress(L0, L, ms, |ms|, 0)
    ensures L == Net(L0, Members(ms))
  {
    assert ms[..|ms|] == ms;
    var N := Net(L0, Members(ms));
    forall a | a in L ensures L[a] == N[a] {
      forall b | b in L[a] ensures L[a][b] == N[a][b] {
        assert Done(ms, |ms|, 0, a, b) <==> a != b && a in ms && b in ms;
      }
    }
  }
}

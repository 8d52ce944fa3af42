# splitr balance engine in Dafny

splitr is an expense-splitting application. Users record expenses with per-user splits, either one to one or inside a group, and record settlements that pay debts back. This project models the part of splitr that turns those rows into balances, and proves properties of that model:

- **The group ledger.** `initializeLedger`, `applyExpensesToLedger`, `applySettlementsToLedger` and `netLedger` build a per-member `totals` record and a member-by-member `ledger`, updated in place. `getGroupExpenses` projects them into each member's `totalBalance`, `owes` and `owedBy`.
- **Three pairwise balances**:
  - the signed `calculateExpense`;
  - the clamped `calculateUserBalances` / `applyUserSettlements`;
  - the unclamped `calculateExpenseBalance` / `applySettlements`.
- **Per-counterparty maps**:
  - the dashboard's `processExpenses` / `processSettlements` / `buildLists`;
  - the settle-up screen's `calculateGroupBalances` / `applyGroupSettlements` / `buildSettlementResponse`;
  - the payment-reminder ledger (`applyExpenseEffects`, `adjustLedger`, `extractDebts`), which records since when each debt is owed.
- **The server actions' guards and pipelines**: `createSettlement`, `getSettlementData`, `getUserBalances`, `getUserGroups`, `getExpensesBetweenUsers`, `deleteExpense`, `createExpense`, the contact ids of `getAllContacts`, and `createGroup`. Also `getBalanceMeta`, which classifies a balance by its sign.

## How the model is built

- Money is integer cents (`Money = int`).
- User and group ids are `int`. In the application they are strings; `netLedger` compares them with `>=`. Any total order gives the same netted ledger, so the model uses `<` on integers. Ids are `int` rather than `nat` only because nothing depends on their sign.
- The rows that Prisma queries return are input sequences. A failed lookup (a group, a user, an expense) is an `Option` parameter. Errors the actions throw are `Err` values of a `Result`.
- A JavaScript record or `Map` whose iteration order matters is an `OrderedMap`: the keys in insertion order plus a map of values (`records.dfy`).
- Code that changes state in place is imperative Dafny, and each such method is proved equal to a specification function:
  - `GroupLedger` (`ledger.dfy`) is a class whose fields are `totals` and `ledger`;
  - `UserBalance` (`settlements_helper.dfy`) holds the `{ owed, owing }` pair;
  - `BalanceMap` (`balance_map.dfy`) is the shared `balanceByUser` record;
  - `ReminderLedger` (`reminder_ledger.dfy`) is the reminder `Map`.
- Loops that only accumulate a value (`calculateExpense`, `calculateExpenseBalance`, `applySettlements`, the bucketing loops of `getUserGroups`, the contact-id loops) are methods with loop invariants. Each is proved equal to a fold.
- The properties are then proved about those folds, as lemmas.

Modules follow the source files:

| module | file | source |
|---|---|---|
| `Types`, `Records`, `Sums` | `types.dfy`, `records.dfy`, `sums.dfy` | rows, ordered records, sums over maps |
| `ExpenseHelpers` | `expenses_helper.dfy` | helper/expenses.ts up to `calculateExpense` |
| `LedgerSpec`, `GroupLedgers`, `LedgerPositions` | `ledger_spec.dfy`, `ledger.dfy`, `ledger_positions.dfy` | helper/expenses.ts group ledger |
| `SettlementHelpers` | `settlements_helper.dfy` | helper/settlements.ts |
| `BalanceMaps`, `DashboardHelpers`, `DashboardLists` | `balance_map.dfy`, `dashboard_helper.dfy`, `dashboard_lists.dfy` | helper/dashboard.ts |
| `ReminderLedgers` | `reminder_ledger.dfy` | helper/inngest.ts |
| `GroupHelpers` | `groups_helper.dfy` | helper/groups.ts |
| `GroupActions`, `SettlementActions`, `DashboardActions`, `ExpenseActions`, `ContactActions` | `actions_*.dfy` | the server actions |

## Model

| member | source | states |
|---|---|---|
| Types.FindUnpaid | helper/settlements.ts:37-38 | the result is an unpaid split of the user from the list, and it is None exactly when the user has no unpaid split |
| Types.FindUnpaidIsFirst | helper/expenses.ts:221-222 | only the first unpaid split of the user is ever found |
| Types.FindUnpaidSkipsPaid | helper/expenses.ts:221-222 | inserting a paid split anywhere never changes which split is found |
| ExpenseHelpers.GetCategoryById | helper/expenses.ts:148-150 | the category with the given id when one exists, otherwise the "other" category |
| ExpenseHelpers.GetPaymentDisplay | helper/expenses.ts:163-190 | the payer branch wins over the receiver branch; each branch has its title, label and class |
| ExpenseHelpers.HasSplit | helper/expenses.ts:200 | true exactly when some split belongs to the user |
| ExpenseHelpers.FilterBetween | helper/expenses.ts:193-208 | keeps an expense iff each of the two users is its payer or has a split on it |
| ExpenseHelpers.FilterBetweenAppend | helper/expenses.ts:198-207 | filtering distributes over concatenation, so input order is kept |
| ExpenseHelpers.FilterBetweenIdempotent | helper/expenses.ts:198-207 | filtering a filtered list changes nothing |
| ExpenseHelpers.CalculateExpense | helper/expenses.ts:211-230 | the loop returns the sum of the per-expense contributions |
| ExpenseHelpers.ContributionIsFirstUnpaid | helper/expenses.ts:219-226 | when me paid, the other's first unpaid split is added; otherwise my first unpaid split is subtracted |
| ExpenseHelpers.PaidSplitNeverContributes | helper/expenses.ts:221-224 | a paid split never changes an expense's contribution |
| ExpenseHelpers.PairBalanceAntisymmetric | helper/expenses.ts:218-227 | for two distinct users whose expenses are all paid by one of them, balance(me, other) = -balance(other, me) |
| ExpenseHelpers.PairBalanceAppend | helper/expenses.ts:218-227 | the balance of a concatenation is the sum of the balances |
| LedgerSpec.InitialIsZero | helper/expenses.ts:235-250 | every member's total is 0; every entry between distinct members is 0; there is no self entry; totals sum to 0 |
| GroupLedgers.ZeroRowOf | helper/expenses.ts:244-246 | the inner loop builds the zero row of one member |
| GroupLedgers.GroupLedger.constructor | helper/expenses.ts:235-250 | the new ledger's state is the initial state |
| GroupLedgers.GroupLedger.ApplyExpensesToLedger | helper/expenses.ts:252-272 | the new state is the expense fold applied to the old state |
| GroupLedgers.GroupLedger.ApplySplitsToLedger | helper/expenses.ts:260-270 | the new state is the split fold of one expense; the shape is kept |
| GroupLedgers.GroupLedger.ApplySplitToLedger | helper/expenses.ts:261-269 | one split, as its three in-place updates |
| GroupLedgers.GroupLedger.ApplySettlementsToLedger | helper/expenses.ts:274-287 | the new state is the settlement fold applied to the old state |
| GroupLedgers.GroupLedger.ApplySettlementToLedger | helper/expenses.ts:280-285 | one settlement, as its three in-place updates |
| GroupLedgers.GroupLedger.NetLedger | helper/expenses.ts:289-307 | the totals are unchanged, and the ledger becomes the netted matrix over the member set |
| GroupLedgers.GroupLedger.NetPairsOf | helper/expenses.ts:291-305 | each inner loop nets the pairs (a, b) with a < b for its row |
| GroupLedgers.GroupLedger.NetPairInLedger | helper/expenses.ts:294-304 | one pair, as the three branches on the sign of the difference |
| LedgerSpec.ApplyExpensesKeepShape | helper/expenses.ts:266-269 | for member expenses, every total and pair entry is kept and none is added |
| LedgerSpec.ApplySettlementsKeepShape | helper/expenses.ts:282-285 | the same for settlements between distinct members |
| LedgerSpec.ApplySplitStep | helper/expenses.ts:261-269 | a counted split moves both totals apart by its amount and adds it to ledger[debtor][payer] |
| LedgerSpec.ApplySettlementStep | helper/expenses.ts:280-285 | a settlement moves the two totals and subtracts its amount from ledger[payer][receiver] |
| LedgerSpec.ApplySplitConserves | helper/expenses.ts:266-267 | one split keeps the sum of the totals |
| LedgerSpec.ApplySplitsConserves | helper/expenses.ts:260-270 | the splits of one expense keep the sum of the totals |
| LedgerSpec.ApplyExpensesConserves | helper/expenses.ts:266-267 | the expenses keep the sum of the totals |
| LedgerSpec.ApplySettlementConserves | helper/expenses.ts:282-283 | one settlement keeps the sum of the totals |
| LedgerSpec.ApplySettlementsConserves | helper/expenses.ts:282-283 | the settlements keep the sum of the totals |
| LedgerSpec.ApplySplitEffect | helper/expenses.ts:261-269 | a split changes only ledger[debtor][payer]; an own or paid split changes nothing |
| LedgerSpec.ApplySplitsEffect | helper/expenses.ts:260-270 | each entry grows by the debtor's counted shares |
| LedgerSpec.ApplyExpensesEffect | helper/expenses.ts:257-271 | ledger[a][b] grows by exactly a's unpaid shares of the expenses b paid |
| LedgerSpec.ApplySettlementEffect | helper/expenses.ts:285 | a settlement changes only ledger[payer][receiver], by minus its amount |
| LedgerSpec.ApplySettlementsEffect | helper/expenses.ts:279-286 | ledger[a][b] shrinks by exactly what a paid b |
| LedgerSpec.NetKeepsShape | helper/expenses.ts:289-307 | netting keeps the rows and their keys |
| LedgerSpec.NetPreservesDifference | helper/expenses.ts:294-304 | ledger[a][b] - ledger[b][a] is unchanged for every pair |
| LedgerSpec.NetIsOneSided | helper/expenses.ts:295-304 | afterwards both entries are >= 0, at most one is non-zero, and it equals the positive difference |
| LedgerSpec.NetIdempotent | helper/expenses.ts:289-307 | netting a netted ledger changes nothing |
| LedgerSpec.NetProgressStep | helper/expenses.ts:291-305 | one inner turn nets the current pair when a < b, and skips it otherwise |
| LedgerSpec.NetProgressEnd | helper/expenses.ts:290-306 | after all turns, every pair of members is netted |
| LedgerPositions.ApplyExpensesAgree | helper/expenses.ts:266-269 | each member's total stays what others owe it minus what it owes them |
| LedgerPositions.ApplySettlementsAgree | helper/expenses.ts:282-285 | the same through the settlements |
| LedgerPositions.InitialAgrees | helper/expenses.ts:241-247 | the initial totals agree with the initial ledger |
| LedgerPositions.NetKeepsFlows | helper/expenses.ts:294-304 | netting keeps each member's ledger position |
| LedgerPositions.TransferAgrees | helper/expenses.ts:266-269 | moving v between two totals while one comes to owe the other v keeps the agreement |
| GroupActions.GetGroupExpenses | actions/groups.ts:28-97 | a missing group and a non-member caller are rejected before any ledger work; otherwise the ledger runs init, expenses, settlements, net over the member ids, and one balance per member is projected |
| GroupActions.GroupStateShape | actions/groups.ts:78-82 | the netted ledger has a total and a row for every member |
| GroupActions.GroupTotalsSumToZero | actions/groups.ts:87 | the totals sum to zero |
| GroupActions.GroupEntry | actions/groups.ts:78-82 | ledger[a][b] is what is left of a's gross debt to b after offsetting b's gross debt to a |
| GroupActions.GroupOwes | actions/groups.ts:88-90 | owes lists exactly the counterparties owed a positive amount, never the member itself, each at most once |
| GroupActions.GroupOwedBy | actions/groups.ts:91-96 | owedBy lists exactly the members owing a positive amount, never the member itself |
| GroupActions.GroupNeverBothWays | actions/groups.ts:88-96 | after netting, no counterparty is in both owes and owedBy of one member |
| GroupActions.GroupTotalBalance | actions/groups.ts:87-96 | with distinct ids, totalBalance = sum of owedBy - sum of owes |
| GroupActions.NettedNonNegative | helper/expenses.ts:295-304 | after netting, every entry of a member towards another member is non-negative |
| GroupActions.GroupBalancesSumToZero | actions/groups.ts:85-97 | with distinct ids, the totalBalances of all members add up to zero |
| GroupActions.OwesOfMembers | actions/groups.ts:88-90 | Owe(to, amount) is listed iff to is a key, its entry is positive, and the amount is that entry |
| GroupActions.OwedByOfMembers | actions/groups.ts:91-96 | OwedBy(from, amount) is listed iff from is a member, its entry is positive, and the amount is that entry |
| SettlementHelpers.Max0 | helper/settlements.ts:30 | Math.max(0, x): non-negative, at least x, and either 0 or x |
| SettlementHelpers.GetUnpaidSplit | helper/settlements.ts:37-38 | 0 when the user has no unpaid split; otherwise the amount of the split `find` returns, which is an unpaid split of the user |
| SettlementHelpers.GetUnpaidSplitIsFirst | helper/settlements.ts:37-38 | the amount is that of the first unpaid split |
| SettlementHelpers.CalculateUserBalances | helper/settlements.ts:4-21 | the loop returns the fold over the expenses |
| SettlementHelpers.UserBalancesSums | helper/settlements.ts:12-18 | owed sums the other's unpaid split on expenses me paid; owing sums mine on those the other paid; other expenses are ignored |
| SettlementHelpers.UserBalancesMatchCalculateExpense | helper/settlements.ts:12-18 | between two users only, owed - owing equals the signed calculateExpense balance |
| SettlementHelpers.UserBalance.constructor | helper/settlements.ts:24 | the pair holds the given balance |
| SettlementHelpers.UserBalance.ApplyUserSettlements | helper/settlements.ts:23-35 | the new pair is the settlement fold of the old one |
| SettlementHelpers.SettleUserNonNegative | helper/settlements.ts:28-34 | clamping never makes owed or owing negative |
| SettlementHelpers.SettleUserClosedForm | helper/settlements.ts:29-33 | my settlements reduce only owing, all others only owed, clamped at 0; neither can grow |
| SettlementHelpers.GroupStart | helper/settlements.ts:45-49 | the keys are exactly the members other than me, each at zero |
| SettlementHelpers.CalculateGroupBalances | helper/settlements.ts:40-64 | the keys are those of the start record, and the values are the expense fold |
| SettlementHelpers.AddOwedSplits | helper/settlements.ts:53-57 | the inner loop adds each key's unpaid splits to its owed |
| SettlementHelpers.GroupBalancesEffect | helper/settlements.ts:51-61 | the keys are kept, and each key's owed and owing are its pairwise sums: non-member splits and expenses are ignored |
| SettlementHelpers.ApplyGroupSettlements | helper/settlements.ts:66-85 | the keys are unchanged, and the values are the settlement fold |
| SettlementHelpers.SettleGroupKeepsKeys | helper/settlements.ts:71-84 | the key set is unchanged |
| SettlementHelpers.SettleGroupIsPairwise | helper/settlements.ts:71-84 | each key ends as the clamped one-to-one settle-up over the settlements between me and it; everything else is ignored |
| SettlementHelpers.LastUser | helper/settlements.ts:125 | userMap[id] is the last listed user with that id, or none |
| SettlementHelpers.RowsOf | helper/settlements.ts:136-143 | one row per key, in key order, with netBalance = owed - owing |
| SettlementHelpers.BuildSettlementResponse | helper/settlements.ts:87-151 | the user variant for user params, carrying the counterpart and netBalance = owed - owing; the group variant has one row per balance key |
| SettlementHelpers.RowNames | helper/settlements.ts:138-139 | a row's name comes from the user map, else "Unknown" |
| BalanceMaps.Ensure | helper/dashboard.ts:5-8 | a zero balance is inserted only when the key is absent; existing entries and other keys are unchanged |
| BalanceMaps.BalanceMap.EnsureBalance | helper/dashboard.ts:5-8 | the in-place version returns the key's balance |
| BalanceMaps.BalanceMap.Set | helper/dashboard.ts:24 | replacing a balance keeps the key's place |
| DashboardHelpers.AddOwed | helper/dashboard.ts:24 | ensureBalance then owed += v |
| DashboardHelpers.AddOwing | helper/dashboard.ts:34-35 | ensureBalance then owing += v |
| DashboardHelpers.ProcessExpenses | helper/dashboard.ts:10-39 | the map and the two totals are the fold over the expenses |
| DashboardHelpers.ProcessOwnSplits | helper/dashboard.ts:20-26 | the inner loop skips own and paid splits |
| DashboardHelpers.ProcessedExpensesTotals | helper/dashboard.ts:18-36 | youAreOwed is the others' unpaid splits on the user's expenses; youOwe is the user's first unpaid split on the others' |
| DashboardHelpers.ProcessedExpensesEffect | helper/dashboard.ts:18-36 | each counterparty's owed and owing grow by exactly its own share; the map stays well formed |
| DashboardHelpers.ProcessedExpensesConserve | helper/dashboard.ts:18-36 | the returned totals equal the total increments made to owed and owing in the map |
| DashboardHelpers.ProcessSettlements | helper/dashboard.ts:41-62 | the map and the two deltas are the fold over the settlements |
| DashboardHelpers.ProcessedSettlementsDeltas | helper/dashboard.ts:49-59 | the deltas are minus the totals paid and received, and are <= 0 for non-negative amounts |
| DashboardHelpers.ProcessedSettlementsValid | helper/dashboard.ts:52-57 | the map stays well formed |
| DashboardHelpers.ProcessedSettlementsConserve | helper/dashboard.ts:49-59 | the deltas equal the total decrements applied to the map |
| DashboardHelpers.ProcessSettlementsDoesNotClamp | helper/dashboard.ts:52-57 | for any map and settlement: a settlement the user paid lowers the receiver's owing by its amount, any other lowers the payer's owed (a missing entry counting as 0); one larger than that entry drives it below zero |
| DashboardHelpers.CalculateExpenseBalance | helper/dashboard.ts:94-118 | the loop returns the fold over the expenses |
| DashboardHelpers.AddUnpaidOthers | helper/dashboard.ts:102-106 | the inner loop adds the other users' unpaid splits |
| DashboardHelpers.ExpenseBalanceByPayer | helper/dashboard.ts:100-115 | the balance is what others owe on the user's expenses minus the user's first unpaid split on theirs |
| DashboardHelpers.ProcessedExpensesMatchExpenseBalance | helper/dashboard.ts:94-118 | the dashboard totals and calculateExpenseBalance agree on the same expenses |
| DashboardHelpers.ExpenseBalanceAppend | helper/dashboard.ts:100-115 | the balance of a concatenation is the sum of the balances |
| DashboardHelpers.ApplySettlements | helper/dashboard.ts:120-132 | the input balance plus +amount for each settlement the user paid and -amount for each other one |
| DashboardHelpers.SignedTotalPermutation | helper/dashboard.ts:120-132 | the result does not depend on the order of the settlements |
| DashboardHelpers.SignedTotalMatchesDeltas | helper/dashboard.ts:120-132 | the signed total equals the youAreOwed delta minus the youOwe delta |
| DashboardLists.Insert | helper/dashboard.ts:88-89 | one insertion step keeps the multiset of items |
| DashboardLists.SortDescSorted | helper/dashboard.ts:88-89 | the sort returns a permutation sorted by amount, largest first |
| DashboardLists.SortDescStable | helper/dashboard.ts:88-89 | items with equal amounts keep their relative order |
| DashboardLists.BuildLists | helper/dashboard.ts:64-92 | the two lists are the specification's |
| DashboardLists.PartitionMembers | helper/dashboard.ts:68-86 | before sorting, an item is listed iff its key has a positive (or negative) net; over distinct keys no counterparty is listed twice |
| DashboardLists.BuildListsMembers | helper/dashboard.ts:69-85 | zero nets are omitted; amounts are abs(owed - owing) > 0; positive nets go to youAreOwedBy and negative ones to youOwe; no user is in both, and none twice in one list |
| DashboardLists.BuildListsSorted | helper/dashboard.ts:88-89 | both lists hold exactly the pushed items, sorted descending and stably |
| ReminderLedgers.OtherPaid | helper/inngest.ts:18-35 | no change without an unpaid split; otherwise the payer's entry grows by it and since becomes the minimum of the old since and the date |
| ReminderLedgers.OtherPaidNewEntry | helper/inngest.ts:26-29 | a new entry starts at the expense's date |
| ReminderLedgers.Adjust | helper/inngest.ts:69-83 | no-op for an absent counterparty; deletes the entry when it reaches 0; otherwise adds delta |
| ReminderLedgers.ReminderLedger.ApplyExpenseEffects | helper/inngest.ts:4-16 | the new ledger is the expense fold; the user-paid path is taken iff the user paid |
| ReminderLedgers.ReminderLedger.ApplyOtherPaidExpense | helper/inngest.ts:18-35 | the in-place version of OtherPaid |
| ReminderLedgers.ReminderLedger.ApplyUserPaidExpense | helper/inngest.ts:37-53 | the loop over the splits, as the specification fold |
| ReminderLedgers.ReminderLedger.ApplySettlementEffects | helper/inngest.ts:55-67 | the new ledger is the settlement fold |
| ReminderLedgers.ReminderLedger.AdjustLedger | helper/inngest.ts:69-83 | the in-place version of Adjust |
| ReminderLedgers.UserPaidEffect | helper/inngest.ts:42-52 | each other user's amount drops by their unpaid splits; own and paid splits are skipped; since is never updated |
| ReminderLedgers.ExpenseEffectsAmount | helper/inngest.ts:9-15 | each amount is what the user owes minus what is owed to the user; since can only move earlier |
| ReminderLedgers.SettlementEffectsShape | helper/inngest.ts:60-66 | settlements never create entries, and leave no zero entry behind |
| ReminderLedgers.SettlementEffectIgnoresOthers | helper/inngest.ts:60-66 | a settlement not involving the user changes nothing |
| ReminderLedgers.DebtsOfMembers | helper/inngest.ts:85-96 | exactly the entries with amount > 0, with since copied |
| ReminderLedgers.DebtsOfAppend | helper/inngest.ts:89-90 | the debts keep the ledger's iteration order |
| ReminderLedgers.DebtsOfDistinct | helper/inngest.ts:89-96 | each counterparty is reported at most once |
| GroupHelpers.GetBalanceMeta | helper/groups.ts:7-29 | green and "You are owed money" iff > 0; red and "You owe money" iff < 0; empty class and "You are all settled up" iff = 0 |
| SettlementActions.CreateSettlement | actions/settlements.ts:24-55 | the guards in source order, each error iff its guard is the first to fail; on success the exact settlement |
| SettlementActions.CreatedSettlementFits | actions/settlements.ts:48-54 | a recorded group settlement is between two distinct members with a positive amount |
| SettlementActions.GroupSettled | actions/settlements.ts:144-146 | the group balances keep the keys of the start record |
| SettlementActions.GetSettlementData | actions/settlements.ts:78-167 | a missing user, a missing group, a non-member or another entity type is rejected; otherwise the composed response |
| SettlementActions.UserSettleUpClosedForm | actions/settlements.ts:110-111 | each side is its unpaid splits on the other's expenses less the settlements reducing it, floored at 0; net = owed - owing |
| SettlementActions.GroupSettleUpRows | actions/settlements.ts:144-146 | one row per member other than me, in member order; each is the one-to-one settle-up with that member |
| SettlementActions.GroupSettleUpCoversMembers | actions/settlements.ts:144-146 | every member other than me gets a row, and nobody else |
| SettlementActions.UnpaidOnPaidByNonNegative | helper/settlements.ts:14-16 | with non-negative splits, the unpaid sums are non-negative |
| DashboardActions.UserMapOf | actions/dashboard.ts:70-72 | each listed id maps to the last user listed with it |
| DashboardActions.AfterSettlements | actions/dashboard.ts:37-56 | the shared map is well formed after both passes |
| DashboardActions.GetUserBalances | actions/dashboard.ts:37-81 | expenses, then settlements into one map, then the lists, composed as the specification |
| DashboardActions.DashboardTotals | actions/dashboard.ts:76-81 | the returned youOwe and youAreOwed include their deltas, and totalBalance = youAreOwed - youOwe = expense balance + signed settlements |
| DashboardActions.DashboardMatchesMap | actions/dashboard.ts:76-81 | the totals are the sums of owed and owing over the map |
| DashboardActions.BucketExpenses | actions/dashboard.ts:211-223 | every expense lands in its group's bucket, in input order; no empty bucket is created |
| DashboardActions.BucketSettlements | actions/dashboard.ts:225-233 | the same for the settlements |
| DashboardActions.GetUserGroups | actions/dashboard.ts:185-252 | no groups gives []; otherwise one balance per group, equal to the bucket's expense balance plus its signed settlements |
| DashboardActions.ExpensesInMembers | actions/dashboard.ts:211-223 | an expense is in a bucket iff it is in the input with that group id |
| DashboardActions.SettlementsInMembers | actions/dashboard.ts:225-233 | the same for the settlements |
| DashboardActions.ExpensesInAppend | actions/dashboard.ts:211-223 | bucketing distributes over concatenation, so order is kept |
| DashboardActions.EmptyBucketsBalanceZero | actions/dashboard.ts:237-246 | an empty bucket gives balance 0 |
| DashboardActions.OtherGroupsIgnored | actions/dashboard.ts:236-252 | rows of other groups never change a group's balance |
| ExpenseActions.GetExpensesBetweenUsers | actions/expenses.ts:26-85 | querying oneself is rejected; the balance is the applySettlements of the calculateExpense of the filtered expenses; a missing user is rejected |
| ExpenseActions.BalanceBetweenAntisymmetric | actions/expenses.ts:33-70 | on rows paid by one of the two users, with settlements between them, each side sees the negation of the other's balance |
| ExpenseActions.SignedTotalAntisymmetric | actions/expenses.ts:56-59 | settlements between the two sum to opposite signed totals |
| ExpenseActions.FilterBetweenSymmetric | actions/expenses.ts:39-43 | the filter does not depend on which user comes first |
| ExpenseActions.LinkedSettlements | actions/expenses.ts:110-115 | a settlement id is listed iff it is linked to the expense |
| ExpenseActions.LinksWithout | actions/expenses.ts:117-119 | exactly the links of other expenses remain |
| ExpenseActions.CountLinks | actions/expenses.ts:122-124 | the count is 0 iff no link to the settlement remains |
| ExpenseActions.DeleteExpense | actions/expenses.ts:102-131 | a missing expense is rejected; only the creator or the payer may delete; a linked settlement is deleted iff no other expense's link to it remains |
| ExpenseActions.DeleteOrphans | actions/expenses.ts:121-131 | the loop deletes exactly the listed settlements with no remaining link |
| ExpenseActions.AbsDiff | actions/expenses.ts:173 | Math.abs of a difference |
| ExpenseActions.CreateExpense | actions/expenses.ts:153-175 | a missing group, a non-member creator and splits more than one cent off the amount are rejected, in that order; otherwise the new expense |
| ExpenseActions.CreatedExpenseAddsUp | actions/expenses.ts:170-175 | a recorded expense's splits total its amount within one cent, and a group expense's creator is a member |
| ContactActions.AddId | actions/contacts.ts:41 | Set.add: membership grows by the id, and the ids stay distinct |
| ContactActions.AddSplitUsers | actions/contacts.ts:43-47 | the inner loop adds the split users other than me |
| ContactActions.CollectContactIds | actions/contacts.ts:35-48 | the set holds, once each, exactly the payers and split users other than me of the personal expenses |
| ContactActions.AddSplitIdsMembers | actions/contacts.ts:43-47 | the inner loop adds exactly the split users other than me |
| ContactActions.ContactIdsMembers | actions/contacts.ts:39-48 | the outer loop adds exactly the other users some visited expense involves |
| ContactActions.ContactsShareExpense | actions/contacts.ts:10-48 | every contact shares a non-group expense with the current user and is not the current user |
| ContactActions.UniqueMembers | actions/contacts.ts:94-95 | the given members plus the current user, without duplicates |
| ContactActions.UnknownIds | actions/contacts.ts:106-108 | exactly the ids with no existing user |
| ContactActions.MemberRows | actions/contacts.ts:119-123 | one row per id; the role is admin iff the id is the current user's |
| ContactActions.CreateGroup | actions/contacts.ts:90-123 | an empty name is rejected; unknown ids are reported; otherwise the group with its creator and member rows |
| ContactActions.CreatedGroupMembers | actions/contacts.ts:94-123 | each requested member and the creator appear exactly once, and the creator is the only admin |

## Left out

- The React UI, hooks, contexts and pages; the Prisma queries, the `$transaction` and every database round-trip. Fetched rows are inputs, and lookups are `Option` parameters.
- Email, AI calls, cron scheduling, `console.log` and the sign-in check behind `getCurrentUser`. The current user is a parameter.
- Floating point: JavaScript `number`, `Decimal.toNumber()` / `Number(...)` and `toFixed(2)`. Money is integer cents. The `createExpense` tolerance of 0.01 is one cent.
- GroupHelpers.GetBalanceMeta: the formatted `amountText` is not modelled.
- Dates are integer timestamps. `new Date()` for a new row's date is a parameter.
- `getCategoryById`: a prototype key such as `"constructor"` is not modelled. The lookup is over the table's own ids only.
- `getAllCategories` and `getCategoryIcon`: static data and icon components.
- GroupActions.GetGroupExpenses: the name, image and role copied into each member's entry are not modelled. Its precondition `RowsFit` asks that every counted split and settlement be between group members. With a non-member id the source reads an undefined row (a `TypeError`, or `NaN` in `totals`). `createExpense` does not enforce this: it checks only that the creator belongs to the group, never the payer or the split users (actions/expenses.ts:153-167); only `createSettlement` checks both parties. So the source accepts a group expense paid by a non-member. `getGroupExpenses` then returns without error, but the debt lands on a `NaN` entry that is filtered out of `owes`, and the members' `totalBalance` values no longer sum to 0. A split of a non-member throws a `TypeError`. Neither case is modelled.
- GroupActions.GroupTotalBalance and GroupActions.GroupBalancesSumToZero: both assume distinct member ids, which the group's member list is.
- The `owes` order of a member is the member list without duplicates and without the member. This is the insertion order `initializeLedger` gives the row.
- `Array.prototype.sort` in `buildLists` is a stable insertion sort. JavaScript's sort is stable since ES2019.
- The `a >= b` string comparison in `netLedger` is integer order. The netted ledger does not depend on which order is used.
- Object aliasing: the `balances` record of `getSettlementData` is modelled through one `BalanceMap` object shared by the calls. Other records are values.
- ContactActions.CreateGroup: `name.trim()` and `description?.trim()` are not modelled; the name is stored as given. The existing-user check compares the number of users found with the size of the member set. With distinct existing ids this means every id is known, which is how it is modelled (`known` is the set of existing user ids).
- The sorting of contacts and groups by name (`localeCompare`) in `getAllContacts` is not modelled. The contact ids come from two queries; their filter conditions are the predicates `PaidByMe` and `SharedWithMe`.
- ExpenseActions.CreateExpense: the category defaults to "Other", and `description`, `splitType` and `amount` are stored unchanged. None of these is modelled beyond the guards and the returned expense.
- ExpenseActions.DeleteExpense: the final deletion of the expense row itself is not represented in the result.
- SettlementActions.CreateSettlement: the stored `note` and `createdById` of the new row are not modelled. The returned settlement carries the amount, both parties, the group id and the date.
- SettlementActions.GetSettlementData: on the one-to-one path the rows are whatever the two queries fetch. The settlement query takes every non-group settlement paid by either user, to anyone. So a payment from the current user to a third party lowers what the user owes `other`, and `other`'s payment to a third party lowers what `other` owes the user. The model computes exactly this on the rows given. UserSettleUpClosedForm states it: every settlement the user paid reduces owing, and every other one reduces owed.
- Settlements whose payer and receiver are the same user do not fit the ledger precondition. `createSettlement` never records one.

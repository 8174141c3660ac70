# Expense management backend: ledger, budgets, bill reminders and categories in Dafny

This project models the rule-bearing core of an expense-management backend written in
JavaScript on Express and MongoDB, and proves properties of the model.

- **Shared-expense groups.** The model covers a group ledger where members add expenses and
  split them (Equal, Percentage, Custom or Exact). Admins approve expenses. Members are added by
  e-mail and removed. Settlements are recorded and completed, and completing one marks the
  expenses it covers as settled. The settlement calculation tallies who owes whom over the
  unsettled expenses. A greedy two-pointer matcher then turns those balances into suggested
  payments.
- **The schema rules that guard the stored documents.** These are the split-sum and
  percentage-sum hooks, the `from ≠ to` check, the `settledAt` stamp, and the enums, defaults
  and length bounds.
- **Budgets.** Creation and its validation, derived metrics (spent, remaining, percentage used,
  over budget, alert), partial update, hard delete and the period summary.
- **Bill reminders.** Creation, partial update with the reminder-flag reset, paid and unpaid
  transitions, roll-over of recurring bills, soft delete, the `nextDueDate` hook and the
  scheduler that picks and flags the 7-day, 1-day and same-day reminders.
- **Categories.** Name uniqueness on create and rename, soft delete, the merged list of the 12
  defaults plus the active custom categories, the hex-colour validator and the unique
  `(user, name)` index.

Modelling conventions:

- Money is integer cents (`Money.Cents`). Each tolerance of the source becomes a comparison in
  cents: `> 0.01` is `> 1`, `< 0.01` is `== 0` and `≤ 0.01` is `≤ 1`. Percentages are `real`.
- `Math.round` is `Money.RoundHalfUp`, written out. `Math.round(x * 100) / 100` is
  `Money.Round2`.
- Instants are `int` milliseconds in UTC, and "now" is always a parameter. Days are whole
  multiples of 86 400 000 ms. Month arithmetic uses a civil calendar, with moment's clamping to
  the end of the month (`Calendar`).
- Handlers return a `Results.Result`. The HTTP statuses become `Failure` kinds: 404 is
  `NotFound`, 400 is `BadRequest`, 403 is `Forbidden`, a rejected `save()` is `SaveRejected` and
  a crash on a missing group is `ServerError`.
- Each MongoDB collection is a field of a class. `GroupController.GroupLedger` holds groups,
  expenses and settlements. `BudgetController.BudgetStore`, `BillReminderController.BillStore`
  and `CategoryController.CategoryStore` hold the other three collections. Each handler is a
  method whose `ensures` ties the result and the new contents to a pure function of the old
  contents. Lemmas prove the source's promises about those functions.
- The imperative loops of the source are methods with loop invariants, proved equal to their
  reference functions:
  - the balance tally (`BalanceAggregator.ComputeBalances`);
  - the matcher (`SettlementMatcher.MatchLoop` and `SettlementMatcher.MatchRound`);
  - the budget summary (`BudgetController.TallyBudgets`);
  - member collection (`GroupMembership.CollectNewMembers`);
  - the scheduler run (`BillReminderScheduler.CheckAndSendReminders`);
  - the `nextDueDate` switch (`BillReminderModel.RunSaveHook`).
- These things the handlers receive become parameters:
  - ids that the source draws at random (the freshness the source's probe loop guarantees
    becomes a `requires`);
  - the registered users `addMembers` looks up, as the `local` and `google` maps;
  - the transactions the budget spending aggregates;
  - the users' e-mail addresses;
  - the set of bills whose reminder e-mail the mail service accepts;
  - the summary's period window.

## Model

| member | source | states |
|---|---|---|
| Text.TrimStart | controllers/categoryController.js:22 | the result is a suffix of the input, starts with a non-space, and everything dropped is whitespace |
| Text.TrimEnd | controllers/categoryController.js:22 | the result is a prefix of the input, ends with a non-space, and everything dropped is whitespace |
| Text.Trim | controllers/categoryController.js:22 | `.trim()` is no longer than its input, and neither end of a non-empty result is whitespace (ECMAScript white space and line terminators) |
| Text.TrimIsMiddleSlice | controllers/categoryController.js:22 | the trimmed string is one contiguous slice of the input, and everything before and after that slice is whitespace |
| Text.TrimStartOfTrimmed | controllers/categoryController.js:22 | a string that does not start with whitespace is unchanged by the left trim |
| Text.TrimEndOfTrimmed | controllers/categoryController.js:22 | a string that does not end with whitespace is unchanged by the right trim |
| Text.TrimIdempotent | models/userCategoryModel.js:21 | the schema's `trim: true` setter applied to a trimmed value changes nothing |
| Text.BlankIffAllSpace | controllers/categoryController.js:12 | `!name.trim()` holds exactly when every character is whitespace |
| Money.Abs | controllers/groupController.js:1070 | `Math.abs` returns x or -x and is never negative |
| Money.Min | controllers/groupController.js:1070 | `Math.min` is one of its arguments and no larger than either |
| Money.RoundHalfUp | controllers/groupController.js:706 | `Math.round` lands within half a unit of its argument, halves rounding up |
| Money.Round2 | controllers/budgetController.js:156 | rounding to two decimals moves the value by at most 0.005 |
| Money.RoundHalfUpOfInteger | controllers/groupController.js:1083 | rounding a whole-cent amount to cents returns it unchanged, so the reported suggestion amount equals the amount moved |
| Calendar.TimeOfDay | services/billReminderScheduler.js:34 | the milliseconds since midnight lie in [0, one day) |
| Calendar.StartOfDay | services/billReminderScheduler.js:16 | `startOf("day")` is the day-aligned instant at or before t, less than a day before it |
| Calendar.DayOfMidnightPlus | services/billReminderScheduler.js:34-35 | an instant n days plus a time of day after the epoch lies on day n at that time of day |
| Calendar.MultipleOfDayInsideOneDay | services/billReminderScheduler.js:35 | the only whole number of days strictly inside one day is zero |
| Calendar.AddDays | models/billReminderModel.js:104-109 | adding whole days moves the day number by that many and keeps the time of day |
| Calendar.DaysInMonth | models/billReminderModel.js:110-118 | a month has 28 to 31 days |
| Calendar.AddMonthsCivil | models/billReminderModel.js:110-118 | adding n months advances the month index by n and clamps the day to the new month's length |
| Calendar.MonthEndIsClamped | models/billReminderModel.js:110-118 | 31 Jan 2024 plus one month is 29 Feb 2024, 31 Jan 2023 plus one month is 28 Feb 2023, 30 Nov 2023 plus three months is 29 Feb 2024, and 29 Feb 2024 plus one year is 28 Feb 2025 |
| Calendar.AddMonths | models/billReminderModel.js:110-118 | moment's `add(n, "months")` on an instant keeps its time of day |
| Calendar.CivilOfDay19753 | models/billReminderModel.js:110-118 | day 19753 after the epoch is 31 Jan 2024 |
| Calendar.DayOfLeapDay2024 | models/billReminderModel.js:110-118 | 29 Feb 2024 is day 19782 after the epoch |
| Calendar.AddMonthExample | models/billReminderModel.js:110-118 | 09:30 on 31 Jan 2024 plus one month is 09:30 on 29 Feb 2024 |
| ExpenseGroupModel.NewMember | controllers/groupController.js:452-459 | a member added by e-mail gets the default role Member, is active, and carries the user's id, e-mail and name and the join time |
| ExpenseGroupModel.SaveGroup | models/expenseGroupModel.js:13-91 | saving succeeds exactly when the group with its name trimmed meets the length bounds and required fields, and stores it with the name trimmed |
| ExpenseGroupModel.SaveValidGroupIsIdentity | models/expenseGroupModel.js:13-18 | re-saving a valid stored group changes nothing |
| GroupExpenseModel.SaveExpense | models/groupExpenseModel.js:23-201 | `save()` succeeds exactly when the expense with name and category trimmed passes the field bounds, the split-sum hook and the percentage-sum hook; it stores that trimmed document and otherwise fails with SaveRejected |
| GroupExpenseModel.NewExpense | models/groupExpenseModel.js:109-136 | a new expense is unsettled, has no settledAt, is active, has no approvals, and carries the given id, group, amount, splits, payer and approval flag |
| GroupExpenseModel.EmptySplitSkipsSumCheck | models/groupExpenseModel.js:176-201 | an empty split list passes both sum hooks |
| GroupExpenseModel.SplitSumRejects | models/groupExpenseModel.js:176-186 | the split-sum hook refuses exactly a non-empty split list whose total is more than one cent away from the amount |
| GroupExpenseModel.SaveIsIdempotent | models/groupExpenseModel.js:23-48 | saving a saved expense again gives the same document |
| SettlementModel.StampSettledAt | models/settlementModel.js:124-129 | the hook sets settledAt to now only when status was modified to Completed and settledAt was empty; an existing stamp is kept and nothing else changes |
| SettlementModel.SaveSettlement | models/settlementModel.js:48-129 | `save()` succeeds exactly when the fields are valid (amount ≥ 0.01, bounded notes and currency, user refs present) and from ≠ to, and stores the stamped settlement |
| SettlementModel.StampIsIdempotent | models/settlementModel.js:124-129 | stamping twice gives the first stamp |
| SettlementModel.PendingIsNotStamped | models/settlementModel.js:124-129 | a Pending settlement without a stamp stays unstamped |
| GroupMembership.FindMember | controllers/groupController.js:536 | `members.find` by user id returns a member with that id, and returns nothing exactly when no member has it |
| GroupMembership.Without | controllers/groupController.js:545 | the filter keeps exactly the members whose id differs, in order |
| GroupMembership.WithoutInOrder | controllers/groupController.js:545 | filtering a concatenation is the concatenation of the filtered parts, so the kept members keep their order |
| GroupMembership.RemoveMember | controllers/groupController.js:523-545 | removal succeeds exactly when the caller is the creator or an Owner/Admin member and the first member with that id is not an Owner; a non-manager gets Forbidden; success drops every member with that id |
| GroupMembership.RemoveKeepsOwners | controllers/groupController.js:535-545 | with distinct ids, every Owner survives a removal and the others are exactly the members with a different id |
| GroupMembership.FindUnique | controllers/groupController.js:536 | with distinct ids, `find` returns the one member holding the id |
| GroupMembership.Lookup | controllers/groupController.js:427-430 | the user is found in the local accounts, else in the Google accounts, and missing exactly when in neither |
| GroupMembership.Dedupe | controllers/groupController.js:413 | `[...new Set(emails)]` keeps every e-mail exactly once |
| GroupMembership.DedupeKeepsFirstOccurrenceOrder | controllers/groupController.js:413 | the kept e-mails appear in the order of their first occurrences in the request |
| GroupMembership.EmailsOf | controllers/groupController.js:433 | the reply's `addedMembers` lists each added user's e-mail in order |
| GroupMembership.Collect | controllers/groupController.js:413-438 | as written: trims each deduplicated e-mail and checks it only against the current members, never producing more entries than e-mails |
| GroupMembership.CollectDistinct | controllers/groupController.js:419-438 | corrected collection: also skips an e-mail already added in this request, never producing more entries than e-mails |
| GroupMembership.AddDistinct | controllers/groupController.js:420-437 | one loop step adds at most one entry |
| GroupMembership.CollectNewMembers | controllers/groupController.js:419-438 | the loop over the e-mails computes the corrected collection |
| GroupMembership.AppendMembers | controllers/groupController.js:451-460 | the members are kept as a prefix and each added user follows as a new Member in order |
| GroupMembership.CollectDistinctStep | controllers/groupController.js:419-438 | one more e-mail is skipped (member or already added), added (registered) or listed as not found |
| GroupMembership.CollectDistinctAddsRegisteredNonMembers | controllers/groupController.js:422-434 | every added user is the registered user of that e-mail and not already a member |
| GroupMembership.CollectDistinctAddsDistinct | controllers/groupController.js:413-438 | the added users have pairwise distinct e-mails |
| GroupMembership.CollectDistinctNotFoundUnregistered | controllers/groupController.js:427-437 | every not-found e-mail belongs to no registered user |
| GroupMembership.CollectDistinctGrows | controllers/groupController.js:419-438 | a later e-mail never removes an earlier added or not-found entry |
| GroupMembership.CollectDistinctCoversLast | controllers/groupController.js:419-438 | the last e-mail, trimmed, ends up a member's, added or not found |
| GroupMembership.CollectDistinctCovers | controllers/groupController.js:419-438 | every requested e-mail, trimmed, ends up a member's, added or not found |
| GroupMembership.AppendKeepsEmailsDistinct | controllers/groupController.js:451-460 | if the members' e-mails are distinct, they remain distinct after the collected users are pushed |
| GroupMembership.AppendDistinctUsers | controllers/groupController.js:451-460 | pushing users with distinct e-mails that no member has keeps every e-mail distinct |
| GroupMembership.CollectAddsDuplicate | controllers/groupController.js:413-434 | as written, "a@x" and " a@x" survive the Set, both trim to "a@x", and the same user is added twice |
| SplitCalculator.Stored | controllers/groupController.js:695 | a supplied split row is stored as given, with a missing percentage stored as 0 |
| SplitCalculator.StoredAll | controllers/groupController.js:695 | Custom/Exact splits are stored row by row unchanged |
| SplitCalculator.ActiveMembers | controllers/groupController.js:664 | the filter keeps exactly the active members, in order |
| SplitCalculator.ActiveMembersInOrder | controllers/groupController.js:664 | filtering a concatenation is the concatenation of the filtered parts, and a single member is kept exactly when active |
| SplitCalculator.EqualSplits | controllers/groupController.js:671-686 | an Equal split has one row per active member |
| SplitCalculator.SplitTotalOfEqualPrefix | controllers/groupController.js:674-676 | k rows of the per-person amount total k times that amount |
| SplitCalculator.SplitTotalSplit | controllers/groupController.js:674-676 | the split total is the total of all but the last row plus the last |
| SplitCalculator.EqualSplitsSumToAmount | controllers/groupController.js:664-684 | the rows total the amount to the cent; all but the last get floor(amount/n) cents; the last gets that plus a remainder in [0, n); the rows follow the members in order; and a row is marked paid exactly when its member paid |
| SplitCalculator.EqualSharesAreFair | controllers/groupController.js:672-676 | any two Equal shares differ by less than n cents |
| SplitCalculator.EqualSplitThreeWays | controllers/groupController.js:672-676 | 100.00 over three members gives 33.33, 33.33 and 33.34 |
| SplitCalculator.EqualSplitTinyAmount | controllers/groupController.js:672-676 | 0.02 over three members gives 0, 0 and 0.02 |
| SplitCalculator.PercentageSplits | controllers/groupController.js:704-707 | percentage rows are computed exactly when every row carries a percentage, one row per input |
| SplitCalculator.PercentageRowsKeepFields | controllers/groupController.js:704-707 | each computed row is `Math.round(amount × percentage / 100)` of its input row and copies its user, name, e-mail, percentage and paid state |
| SplitCalculator.PercentageDrift | controllers/groupController.js:704-707 | the rounded percentage amounts total within half a cent per row of amount × Σ percentage / 100 |
| SplitCalculator.PercentageHookAcceptsWhatSumHookRejects | models/groupExpenseModel.js:176-201 | rows of 33.3 %, 33.3 % and 33.35 % of 100.00 pass the percentage hook (99.95 %, within 0.1) but total 99.95 and fail the split-sum hook |
| SplitCalculator.ComputeSplits | controllers/groupController.js:658-708 | Equal succeeds exactly when there is an active member and then is the equal split over the active members, totalling the amount; the other methods need non-empty splits (Percentage also needs every percentage, and is then the per-row percentage split); the error is BadRequest except for a missing percentage, which fails at save; Custom/Exact rows are stored unchanged |
| BalanceAggregator.IdsOf | controllers/groupController.js:1021 | the table's keys in insertion order |
| BalanceAggregator.IndexOf | controllers/groupController.js:1035 | `balances[id]` finds the entry with that key, and nothing exactly when the key is absent |
| BalanceAggregator.InitEntries | controllers/groupController.js:1018-1030 | the initial table has distinct keys and zero totals and balances |
| BalanceAggregator.InitEntriesAreActiveMembers | controllers/groupController.js:1019-1030 | the table's keys are exactly the ids of the active members |
| BalanceAggregator.AddPaid | controllers/groupController.js:1035-1037 | the payer's entry, if present, gains the amount in totalPaid and nothing else changes |
| BalanceAggregator.AddOwed | controllers/groupController.js:1040-1044 | the split member's entry, if present, gains the amount in totalOwed and nothing else changes |
| BalanceAggregator.SameKeysTrans | controllers/groupController.js:1033-1045 | the loop never changes the table's keys |
| BalanceAggregator.TallyExpense | controllers/groupController.js:1033-1045 | one expense adds its amount to the payer's totalPaid and each split row to its member's totalOwed, keeping the tally invariant |
| BalanceAggregator.ComputeBalances | controllers/groupController.js:1017-1050 | the loops leave, for each active member, totalPaid = amounts paid, totalOwed = split rows owed, and balance = totalOwed − totalPaid |
| BalanceAggregator.CountTimesDistinct | controllers/groupController.js:1033-1050 | over distinct keys an amount is counted once if its key is present, otherwise not at all |
| BalanceAggregator.SumPaidStep | controllers/groupController.js:1035-1037 | the next expense adds its amount once for each time the payer's key occurs |
| BalanceAggregator.SumPaidIsPaidWithin | controllers/groupController.js:1035-1037 | summed over distinct keys, totalPaid is the amount paid by payers in the table |
| BalanceAggregator.SumPaidOfNothing | controllers/groupController.js:1035-1037 | no expenses means nothing paid |
| BalanceAggregator.SumOwedInStep | controllers/groupController.js:1040-1044 | the next split row adds its amount once for each time its key occurs |
| BalanceAggregator.SumOwedInOfNothing | controllers/groupController.js:1040-1044 | no split rows means nothing owed |
| BalanceAggregator.SumOwedInIsSplitsWithin | controllers/groupController.js:1040-1044 | summed over distinct keys, the owed amounts of one expense are its rows whose member is in the table |
| BalanceAggregator.SumOwedStep | controllers/groupController.js:1040-1044 | the next expense adds what its rows owe |
| BalanceAggregator.SumOwedOfNothing | controllers/groupController.js:1040-1044 | no expenses means nothing owed |
| BalanceAggregator.SumOwedIsOwedWithin | controllers/groupController.js:1040-1044 | summed over distinct keys, totalOwed is the split rows of members in the table |
| BalanceAggregator.SumBalancesOfTallied | controllers/groupController.js:1048-1050 | the sum of balances is the total owed minus the total paid |
| BalanceAggregator.BalancesConserve | controllers/groupController.js:1033-1050 | the balances sum to (split rows of table members) − (amounts paid by table members) |
| BalanceAggregator.SplitsWithinAll | controllers/groupController.js:1040-1044 | when every row's member is in the table, all of the expense's rows are counted |
| BalanceAggregator.WithinAll | controllers/groupController.js:1033-1045 | when every payer and split member is in the table, owed − paid is Σ(split total − amount) |
| BalanceAggregator.BalancesSumToSplitSurplus | controllers/groupController.js:1011-1050 | when every participant is an active member, Σ balance equals Σ over expenses of (split total − amount), so zero for expenses whose splits sum to the amount |
| BalanceAggregator.UserBalanceOf | controllers/groupController.js:283-293 | the caller's totalPaid is what they paid, totalOwed is their first split row per expense, and balance = owed − paid |
| BalanceAggregator.FirstSplitIsAll | controllers/groupController.js:288-291 | with at most one row per member, `splits.find` gives everything the member owes in that expense |
| BalanceAggregator.OwedInCons | controllers/groupController.js:1040-1044 | what a member owes in an expense unfolds from the first row |
| BalanceAggregator.OwedInNone | controllers/groupController.js:1040-1044 | a member with no row owes nothing in that expense |
| BalanceAggregator.UserBalanceAgreesWithEntry | controllers/groupController.js:288-291 | with at most one row per member per expense, the group view's owed total agrees with the settlement table's |
| BalanceAggregator.DuplicateRowCountedDifferently | controllers/groupController.js:288-291 | with two rows of 1.00 for the same member, the group view counts 1.00 and the settlement table 2.00 |
| SettlementMatcher.Insert | controllers/groupController.js:1054 | inserting into the sorted table adds one entry |
| SettlementMatcher.InsertPermutes | controllers/groupController.js:1054 | insertion adds exactly that entry to the multiset |
| SettlementMatcher.InsertKeepsSorted | controllers/groupController.js:1054 | insertion keeps balances in descending order |
| SettlementMatcher.InsertBounded | controllers/groupController.js:1054 | a permutation of entries bounded by b stays bounded by b |
| SettlementMatcher.SortDesc | controllers/groupController.js:1054 | sorting keeps the length |
| SettlementMatcher.SortDescSortsAndPermutes | controllers/groupController.js:1054 | `sort((a, b) => b.balance - a.balance)` orders by descending balance and is a permutation |
| SettlementMatcher.Balances | controllers/groupController.js:1054 | the sorted table's balances, position by position |
| SettlementMatcher.Start | controllers/groupController.js:1058-1061 | the loop starts with i = 0, j = n − 1, no iterations and no suggestions |
| SettlementMatcher.Step | controllers/groupController.js:1064-1092 | one iteration keeps the state well formed and the length, and counts one iteration |
| SettlementMatcher.Run | controllers/groupController.js:1063-1093 | the loop terminates in a halted state (pointers crossed, cap reached, or a side non-positive) of the same length |
| SettlementMatcher.InvStart | controllers/groupController.js:1058-1061 | the loop invariant holds at the start |
| SettlementMatcher.FlowOfAppend | controllers/groupController.js:1072-1088 | a new suggestion adds its amount to the debtor's outflow and the creditor's inflow |
| SettlementMatcher.StepKeepsSign | controllers/groupController.js:1087-1088 | no balance ever crosses zero |
| SettlementMatcher.StepKeepsFlow | controllers/groupController.js:1087-1088 | each balance stays its initial value minus what it paid plus what it received |
| SettlementMatcher.StepKeepsTransfers | controllers/groupController.js:1070-1084 | every suggestion goes from a lower to a higher sorted index, from a positive to a negative initial balance, with an amount over one cent |
| SettlementMatcher.StepKeepsCount | controllers/groupController.js:1063-1093 | the number of suggestions never exceeds the pointer moves made |
| SettlementMatcher.StepKeepsPointers | controllers/groupController.js:1091-1092 | members left of i and right of j are settled; i only grows and j only shrinks |
| SettlementMatcher.StepKeepsInv | controllers/groupController.js:1064-1092 | one iteration preserves the whole invariant |
| SettlementMatcher.RunKeepsInv | controllers/groupController.js:1063-1093 | the invariant holds when the loop stops |
| SettlementMatcher.StepMovesPointersInward | controllers/groupController.js:1091-1092 | i never decreases and j never increases; an emitted suggestion moves a pointer; at most one is emitted per iteration |
| SettlementMatcher.OneCentStalls | controllers/groupController.js:1070-1092 | when the smaller side is one cent, an iteration emits nothing and moves no pointer |
| SettlementMatcher.RunIsSound | controllers/groupController.js:1063-1093 | at the end each balance is its initial value minus outflow plus inflow, every suggestion is valid, there are at most n − 1 suggestions, no sign flipped, and at most n² iterations ran |
| SettlementMatcher.SumOfNonPositive | controllers/groupController.js:1068 | non-positive balances summing to zero are all zero |
| SettlementMatcher.SumNonPositive | controllers/groupController.js:1068 | non-positive balances have a non-positive sum |
| SettlementMatcher.SumOfNonNegative | controllers/groupController.js:1068 | non-negative balances summing to zero are all zero |
| SettlementMatcher.SumNonNegative | controllers/groupController.js:1068 | non-negative balances have a non-negative sum |
| SettlementMatcher.SumUpdate | controllers/groupController.js:1087-1088 | replacing one balance changes the sum by the difference |
| SettlementMatcher.RunUnfolds | controllers/groupController.js:1063-1093 | a running loop is one iteration followed by the rest |
| SettlementMatcher.StepIs | controllers/groupController.js:1064-1092 | an iteration moves the amount when it is over one cent, then advances each pointer whose side reached zero |
| SettlementMatcher.StepKeepsSum | controllers/groupController.js:1087-1088 | an iteration leaves the sum of balances unchanged |
| SettlementMatcher.RunKeepsSum | controllers/groupController.js:1063-1093 | the loop leaves the sum of balances unchanged |
| SettlementMatcher.SumOfSingle | controllers/groupController.js:1063-1093 | when all but one balance are zero the sum is that balance |
| SettlementMatcher.SumZero | controllers/groupController.js:1063-1093 | all-zero balances sum to zero |
| SettlementMatcher.HaltedInsideCapIsSettled | controllers/groupController.js:1063-1093 | sorted balances summing to zero are all settled when the loop stops before the cap |
| SettlementMatcher.RunSettlesAllUnlessCapped | controllers/groupController.js:1063-1093 | for sorted balances summing to zero, unless the cap stops the loop, every balance ends at zero and each member's net payment equals their initial balance |
| SettlementMatcher.OneCentResidualRunsToCap | controllers/groupController.js:1060-1093 | balances (0.01, −0.01) emit nothing and only the cap of 4 iterations stops the loop |
| SettlementMatcher.ThreeMemberExample | controllers/groupController.js:1054-1093 | balances (30, −10, −20) give A→C 20 then A→B 10 and settle everyone |
| SettlementMatcher.Suggestions | controllers/groupController.js:1072-1084 | one suggestion per emitted transfer, naming the debtor and creditor of the sorted table |
| SettlementMatcher.WithBalances | controllers/groupController.js:1087-1088 | the sorted entries carrying the loop's final balances |
| SettlementMatcher.MatchRound | controllers/groupController.js:1064-1092 | the loop body as written performs exactly one iteration |
| SettlementMatcher.MatchLoop | controllers/groupController.js:1058-1093 | the while loop with its break computes the loop's final state |
| SettlementMatcher.MatchDebts | controllers/groupController.js:1053-1093 | the suggestions and mutated entries are those of the terminated loop, every index in range |
| GroupController.AdminEntry | controllers/groupController.js:656 | the find for an Admin member with the caller's id returns such a member, and nothing exactly when there is none |
| GroupController.RequiresApproval | controllers/groupController.js:654-656 | approval is required exactly when the group demands it, the caller is not the creator and the caller is no Admin member |
| GroupController.OwnerRoleIsNotExempt | controllers/groupController.js:654-656 | a member with role Owner who is not the creator still needs approval, while an Admin does not |
| GroupController.PrepareExpense | controllers/groupController.js:608-746 | missing required fields give BadRequest, then an absent or inactive group NotFound, then a non-member Forbidden; once these pass, a split error is returned as is, and otherwise the call succeeds exactly when the drafted document (trimmed name and category, date or now, method or group default) passes every save rule, and then returns it |
| GroupController.PreparedExpenseIsValid | controllers/groupController.js:724-746 | a created expense passes every save rule, carries the group, caller, trimmed name and category, description, amount, currency, date and payer, the split method or the group default, starts unsettled, unapproved and active, has the approval flag; under Equal its rows are the equal split over the active members, totalling the amount, under Percentage the percentage split of the request rows, and under Custom/Exact the request rows as stored |
| GroupController.ApplyPatchWritesSupplied | controllers/groupController.js:846-859 | every supplied field is written: name and category trimmed, description, amount, date, the rows as stored, and isSettled with settledAt set to now or cleared |
| GroupController.ApplyPatchKeepsAbsent | controllers/groupController.js:846-859 | id, group, author, currency, method, payer, approval flag, approvals and activity are never changed, and every field the request leaves out keeps its stored value |
| GroupController.ApplyPatchEmptyIsIdentity | controllers/groupController.js:846-859 | a request that supplies no field leaves the expense exactly as it was |
| GroupController.UpdateOutcome | controllers/groupController.js:830-865 | a missing group crashes (ServerError); a caller who is neither adder, manager nor payer-settling is Forbidden; otherwise the update succeeds exactly when the patched expense passes the field validators |
| GroupController.PayerMaySettle | controllers/groupController.js:835-859 | the payer may send `{isSettled}` alone, which sets isSettled and settledAt (now, or null) |
| GroupController.AmountUpdateBreaksSplitSum | controllers/groupController.js:851-865 | updating only the amount passes the validators yet leaves splits that no longer sum to it |
| GroupController.CountZeroIffNotApproved | controllers/groupController.js:956-958 | a user appears no times in approvedBy exactly when `some` finds no approval by them |
| GroupController.Approve | controllers/groupController.js:944-966 | a missing group crashes, a caller who is not an Owner/Admin member is Forbidden; an Owner/Admin who approved already gets the expense back unchanged, and a first approval succeeds exactly when the expense with the caller appended once passes the save rules, failing otherwise with SaveRejected |
| GroupController.ApproveIsIdempotent | controllers/groupController.js:955-966 | approving again at any later time returns the same expense |
| GroupController.ApproveListsCallerOnce | controllers/groupController.js:955-966 | after approval the caller appears in approvedBy exactly once |
| GroupController.PrepareSettlement | controllers/groupController.js:1118-1192 | a missing field gives BadRequest, an absent or inactive group NotFound, a non-member caller Forbidden, a party outside the group BadRequest; with both parties found it succeeds exactly when the drafted Pending settlement passes the field rules and from ≠ to, fails otherwise with SaveRejected, and on success carries the given amount, currency, expense ids and id |
| GroupController.ApplySettlementPatch | controllers/groupController.js:1285-1288 | a supplied status, payment method or notes is written, one left out keeps its value, and no other field changes |
| GroupController.SettlementUpdateOutcome | controllers/groupController.js:1272-1294 | an inactive or missing group crashes, a non-member is Forbidden, and otherwise the update succeeds exactly when the patched settlement passes the field validators |
| GroupController.AnyStatusMayFollowAny | controllers/groupController.js:1285-1294 | any status may replace any other; there is no transition guard |
| GroupController.Reconcile | controllers/groupController.js:1297-1301 | `updateMany` touches each expense at most once and keeps their number |
| GroupController.ReconcileMarksExactlyListed | controllers/groupController.js:1297-1301 | exactly the expenses whose id is listed become settled at now, whatever their group, and the others are unchanged |
| GroupController.ReconcileTwice | controllers/groupController.js:1297-1301 | marking twice is marking once at the later time |
| GroupController.ActiveExpensesOf | controllers/groupController.js:266-269 | the group's active expenses, settled or not |
| GroupController.UnsettledExpensesOf | controllers/groupController.js:1011-1015 | the group's active, unsettled expenses |
| GroupController.ReportedAsWritten | controllers/groupController.js:1095-1099 | as written, the reported table has one entry per tallied entry, carrying the matcher's residual balance |
| GroupController.ReportedBalanceIsResidual | controllers/groupController.js:1087-1099 | in the three-member example the response as written shows A's balance as 0 although A's owed − paid is 30 |
| GroupController.IndexOfActiveExpense | controllers/groupController.js:822 | `findOne({expenseId, isActive: true})` finds an active expense with that id, or reports that none exists |
| GroupController.IndexOfActiveSettlement | controllers/groupController.js:1264 | `findOne({settlementId, isActive: true})` finds an active settlement with that id, or reports that none exists |
| GroupController.AppendKeepsExpenseIdsUnique | models/groupExpenseModel.js:7-11 | adding an expense with a fresh id keeps expense ids unique |
| GroupController.PreparedKeepsIdsUnique | controllers/groupController.js:710-746 | a created expense with a probed-fresh id keeps expense ids unique |
| GroupController.GroupLedger.AddExpense | controllers/groupController.js:608-751 | returns the prepared expense and appends it to the expenses on success, leaving them unchanged on failure |
| GroupController.GroupLedger.UpdateExpense | controllers/groupController.js:817-871 | an unknown or inactive id is NotFound; otherwise the update outcome is returned and replaces the stored expense on success |
| GroupController.GroupLedger.ApproveExpense | controllers/groupController.js:931-971 | an unknown or inactive id is NotFound; otherwise the approval outcome is returned and stored on success |
| GroupController.GroupLedger.CreateSettlement | controllers/groupController.js:1112-1197 | returns the prepared settlement and appends it on success |
| GroupController.GroupLedger.UpdateSettlementStatus | controllers/groupController.js:1258-1307 | an unknown id is NotFound; otherwise the outcome replaces the settlement, and a successful Completed update with listed ids marks exactly those expenses settled; nothing else changes |
| GroupController.GroupLedger.CalculateSettlements | controllers/groupController.js:986-1100 | succeeds exactly for an active group and a member caller (otherwise NotFound or Forbidden); the reported balances are the tally over unsettled expenses (balance = owed − paid, distinct keys), and the suggestions are the matcher's over the sorted table |
| GroupController.GroupLedger.UserBalanceInGroup | controllers/groupController.js:240-293 | the group view (any group) or dashboard (active groups only) gives NotFound for a missing group and Forbidden for a non-member, succeeds exactly otherwise, and then gives the caller's paid, first-row owed and balance over all active expenses, settled ones included |
| GroupController.GroupLedger.RemoveMember | controllers/groupController.js:509-552 | an unknown group is NotFound; the permission and Owner rules apply; a group that no longer validates fails at save; success stores the group without that member |
| GroupController.GroupLedger.AddMembers | controllers/groupController.js:379-497 | an empty list is BadRequest, an unknown group NotFound, a non-manager Forbidden; a list that adds nobody is BadRequest; otherwise it succeeds exactly when the group with the new members saves, stores that group (the corrected collection: each registered user once) and replies with their e-mails and the not-found ones, and fails with SaveRejected when the save is refused |
| BudgetModel.SaveBudget | models/budgetModel.js:18-95 | `save()` succeeds exactly when the budget with its category trimmed passes the field bounds and endDate ≥ startDate, and stores it trimmed |
| BudgetModel.SaveIsIdempotent | models/budgetModel.js:18-22 | saving a saved budget again gives the same document |
| BudgetModel.EqualDatesAreAccepted | models/budgetModel.js:89-95 | a budget whose start and end coincide is accepted |
| BudgetModel.AppendKeepsUniqueIndex | models/budgetModel.js:74-77 | inserting a budget the index admits keeps (user, category, period, startDate) unique |
| BudgetModel.ReplaceKeepsUniqueIndex | models/budgetModel.js:74-77 | replacing a budget with one the rest of the index admits keeps it unique |
| BudgetController.Spent | controllers/budgetController.js:196-216 | spending is 0 when no transaction matches and non-negative when amounts are |
| BudgetController.SpentIgnoresNonMatching | controllers/budgetController.js:198-206 | a transaction of another user, category, type or outside the dates adds nothing |
| BudgetController.PercentageUsed | controllers/budgetController.js:148 | spent / amount × 100 when the amount is positive, else 0 |
| BudgetController.MetricsOf | controllers/budgetController.js:146-159 | remaining + spent = amount, over budget exactly when remaining < 0, alert exactly when the unrounded percentage reaches the threshold, and the reported percentage is within 0.005 of it |
| BudgetController.AlertIffThresholdReached | controllers/budgetController.js:148-150 | for a positive amount, alert exactly when spent × 100 ≥ threshold × amount |
| BudgetController.OverBudgetMeansOverHundred | controllers/budgetController.js:147-150 | for a positive amount, over budget exactly when the percentage exceeds 100; a zero budget never alerts for a positive threshold |
| BudgetController.ReportedPercentageCanShowThresholdWithoutAlert | controllers/budgetController.js:150-156 | a budget of 1000.00 with 799.96 spent reports 80.00 % yet no alert at threshold 80 |
| BudgetController.OrNull | controllers/budgetController.js:83 | `notes \|\| null` is null exactly for the empty string |
| BudgetController.PrepareBudget | controllers/budgetController.js:9-87 | a missing field or non-positive amount, reversed dates, or an active budget with the same trimmed category, period and dates give BadRequest; once these pass it succeeds exactly when the drafted budget passes the field rules and the unique index admits it, returns that budget, and otherwise fails with SaveRejected |
| BudgetController.PreparedBudgetFields | controllers/budgetController.js:9-87 | a created budget has the given id and owner, is active, and carries the trimmed category, the positive amount, period, dates, rollover, category id, template and notes of the request, with the default threshold for a supplied 0 |
| BudgetController.DuplicateCheckFinerThanIndex | controllers/budgetController.js:40-54 | a budget differing only in end date passes the controller's duplicate check but fails at the unique index |
| BudgetController.ApplyBudgetPatch | controllers/budgetController.js:276-287 | ids and owner are kept, and an empty patch changes nothing |
| BudgetController.BudgetPatchWritesSupplied | controllers/budgetController.js:276-287 | every supplied field is written, the category trimmed and an empty category id stored as null |
| BudgetController.BudgetPatchKeepsAbsent | controllers/budgetController.js:276-287 | every field the request leaves out keeps its stored value |
| BudgetController.UpdateOutcome | controllers/budgetController.js:263-293 | both dates supplied and reversed give BadRequest; otherwise the update succeeds exactly when the patched budget passes the field validators and the index |
| BudgetController.UpdateCanReverseDates | controllers/budgetController.js:264-273 | supplying only an end date before the stored start is accepted and leaves the dates reversed |
| BudgetController.SummaryBudgets | controllers/budgetController.js:375-381 | exactly the user's active budgets of the period whose dates overlap the window |
| BudgetController.Rows | controllers/budgetController.js:413-419 | one row per budget with its spent, remaining, percentage and over-budget flag |
| BudgetController.RemainingTotalsAgree | controllers/budgetController.js:413-422 | the rows' remaining amounts sum to totalBudget − totalSpent |
| BudgetController.TallyBudgets | controllers/budgetController.js:384-420 | the for loop accumulates the budget and spending totals and pushes one row per budget |
| BudgetController.EmptyTotalShowsZero | controllers/budgetController.js:423 | with a total budget of 0 the overall percentage is 0 |
| BudgetController.IndexOfBudget | controllers/budgetController.js:183-186 | the lookup by id and owner finds the user's budget with that id, or reports that none exists |
| BudgetController.BudgetStore.Create | controllers/budgetController.js:9-93 | returns the prepared budget and appends it on success |
| BudgetController.BudgetStore.Get | controllers/budgetController.js:179-232 | an unknown id is NotFound; a found id gives that budget with its metrics over the transactions |
| BudgetController.BudgetStore.Update | controllers/budgetController.js:245-299 | an unknown id is NotFound; otherwise the outcome against the other budgets replaces the stored one on success |
| BudgetController.BudgetStore.Delete | controllers/budgetController.js:311-353 | an unknown id is NotFound; otherwise the budget is removed for good and nothing else changes |
| BudgetController.BudgetStore.GetSummary | controllers/budgetController.js:356-436 | the period defaults to Monthly; totals, rows, remaining and the rounded overall percentage are those of the selected budgets, remaining totals agree, and an empty total shows 0 % |
| BillReminderModel.NextDueDate | models/billReminderModel.js:103-119 | Weekly adds 7 days, Bi-weekly 14, Monthly 1 month, Quarterly 3 and Yearly 12, keeping the time of day |
| BillReminderModel.AfterHook | models/billReminderModel.js:98-122 | only nextDueDate may change; One-time bills are untouched; recurring bills get a next due date at the same time of day, 7 or 14 days later for weekly and bi-weekly |
| BillReminderModel.RunSaveHook | models/billReminderModel.js:98-122 | the hook's switch computes the hook's result |
| BillReminderModel.HookIsIdempotent | models/billReminderModel.js:98-122 | running the hook twice is running it once |
| BillReminderModel.OneTimeKeepsNextDueDate | models/billReminderModel.js:75-78 | a One-time bill keeps its nextDueDate |
| BillReminderModel.SaveBill | models/billReminderModel.js:18-125 | `save()` succeeds exactly when the bill with its name trimmed passes the bounds, and stores it after the hook |
| BillReminderController.NewBillOf | controllers/billReminderController.js:48-64 | the new document carries the given name, id and owner |
| BillReminderController.PrepareBill | controllers/billReminderController.js:8-66 | a blank name, non-positive amount or missing due date is BadRequest; otherwise it succeeds exactly when the trimmed name and the notes are within their length bounds (SaveRejected otherwise), and stores a valid, unpaid, active bill with trimmed name, the due date, notes or null, no flags sent, the frequency and category defaults and the hook's next due date |
| BillReminderController.ApplyBillPatch | controllers/billReminderController.js:208-225 | id, owner, payment state and nextDueDate are kept; a supplied due date clears all three flags, otherwise they stay; an empty patch changes nothing |
| BillReminderController.BillPatchWritesSupplied | controllers/billReminderController.js:208-225 | every supplied field is written, the name trimmed, and every field left out keeps its stored value |
| BillReminderController.UpdateOutcome | controllers/billReminderController.js:227-231 | the update succeeds exactly when the patched bill passes the field validators |
| BillReminderController.UpdateLeavesNextDueDateStale | controllers/billReminderController.js:209-231 | moving a recurring bill's due date leaves nextDueDate at the old period |
| BillReminderController.MarkPaid | controllers/billReminderController.js:267-322 | an already paid bill is BadRequest; a one-time bill or one without a next due date always succeeds; a recurring one succeeds exactly when its successor passes the field rules (SaveRejected otherwise); on success it is paid on the given date or now, and exactly a recurring bill with a next due date gets a fresh unpaid successor due then, with name, amount, frequency, category and notes copied and flags reset |
| BillReminderController.MarkPaidOnce | controllers/billReminderController.js:267-272 | a bill just marked paid cannot be marked paid again |
| BillReminderController.DeletedBillStillRollsOver | controllers/billReminderController.js:255-316 | marking a soft-deleted recurring bill paid still creates an active successor |
| BillReminderController.IndexOfBill | controllers/billReminderController.js:195-199 | the lookup by id and owner finds the user's bill, or reports that none exists |
| BillReminderController.AppendKeepsReminderIdsUnique | controllers/billReminderController.js:282-297 | a successor with a probed-fresh id keeps reminder ids unique |
| BillReminderController.BillStore.Create | controllers/billReminderController.js:8-71 | returns the prepared bill and appends it on success |
| BillReminderController.BillStore.Update | controllers/billReminderController.js:189-236 | an unknown id is NotFound; otherwise the outcome replaces the stored bill on success |
| BillReminderController.BillStore.MarkPaidById | controllers/billReminderController.js:249-327 | an unknown id is NotFound; otherwise the paid bill replaces the stored one and any successor is appended |
| BillReminderController.BillStore.MarkUnpaid | controllers/billReminderController.js:340-370 | an unknown id is NotFound; otherwise only isPaid and paidDate are cleared |
| BillReminderController.BillStore.Delete | controllers/billReminderController.js:383-409 | an unknown id is NotFound; otherwise only isActive is cleared and the bill is kept |
| BillReminderScheduler.WithFlag | services/billReminderScheduler.js:76 | `reminderSent[type] = true` sets that flag and no other |
| BillReminderScheduler.ConsideredIsDueWithinAWeek | services/billReminderScheduler.js:16-35 | a bill the query returns is due between 0 and 7 days out |
| BillReminderScheduler.DayNumberIsMonotone | services/billReminderScheduler.js:34-35 | a later instant never falls on an earlier day |
| BillReminderScheduler.DaysScale | services/billReminderScheduler.js:35 | more days are never fewer milliseconds |
| BillReminderScheduler.SevenDayReminderNeedsMidnightDue | services/billReminderScheduler.js:18-51 | a bill seven days out but due after midnight falls outside the query window, so its 7-day reminder is never sent |
| BillReminderScheduler.SelectReminder | services/billReminderScheduler.js:47-64 | 7 days out with the 7d flag unset gives 7d, else 1 day out with 1d unset gives 1d, else due today with 24h unset gives 24h, and the chosen reminder's flag is unset |
| BillReminderScheduler.Processed | services/billReminderScheduler.js:32-91 | a run keeps each bill's id and due date |
| BillReminderScheduler.ProcessedAsWritten | services/billReminderScheduler.js:32-91 | as written, a run keeps each bill's id, due date, payment and activity, and its stored reminder flags never change |
| BillReminderScheduler.AsWrittenRerunRepeats | services/billReminderScheduler.js:51-77 | as written, a later run on the same day still considers the bill and selects the same reminder again |
| BillReminderScheduler.ProcessedSetsAtMostOneFlag | services/billReminderScheduler.js:47-87 | a run leaves the flags or sets exactly the chosen one after a delivered e-mail, and never clears a flag |
| BillReminderScheduler.UndeliveredLeavesBill | services/billReminderScheduler.js:42-87 | a bill without a user e-mail or whose e-mail fails is left as it was |
| BillReminderScheduler.RerunDoesNotRepeat | services/billReminderScheduler.js:51-76 | after a reminder went out, a re-run on the same day does not choose it again |
| BillReminderScheduler.ProcessedKeepsIdsUnique | services/billReminderScheduler.js:32-91 | the run keeps reminder ids unique |
| BillReminderScheduler.CheckAndSendReminders | services/billReminderScheduler.js:12-92 | the loop over the bills replaces each by its processed version and adds or removes none |
| UserCategoryModel.HexPrefix | models/userCategoryModel.js:34 | the longest run of hex digits at the start of a string |
| UserCategoryModel.HexColorIff | models/userCategoryModel.js:31-37 | the colour validator accepts exactly '#' followed by 3 or 6 hex digits of either case |
| UserCategoryModel.AllHexIsFullPrefix | models/userCategoryModel.js:34 | a string of hex digits is its own hex run |
| UserCategoryModel.ColorExamples | models/userCategoryModel.js:28-37 | #667eea and #FFF pass, while #ffff, 667eea and #66g fail |
| UserCategoryModel.AppendKeepsUniqueNames | models/userCategoryModel.js:62 | inserting a category the index admits keeps (user, name) unique |
| UserCategoryModel.ReplaceKeepsUniqueNames | models/userCategoryModel.js:62 | replacing a category with one the rest admit keeps (user, name) unique |
| UserCategoryModel.SaveCategory | models/userCategoryModel.js:18-62 | `save()` succeeds exactly when the category with its name trimmed passes the field rules and the unique index, and stores it trimmed |
| CategoryController.NewCategoryOf | controllers/categoryController.js:48-58 | the new document is custom (not default), active, and carries the owner, id and name |
| CategoryController.PrepareCategory | controllers/categoryController.js:7-60 | a blank name or an active category of the same trimmed name is BadRequest; success passes the field rules and the index with the trimmed name, the icon, colour and type defaults, and not default but active; and whenever all checks pass that document is stored |
| CategoryController.RecreatingDeletedNameFailsAtStore | controllers/categoryController.js:19-31 | re-creating a soft-deleted name passes the controller's check but fails at the unique index |
| CategoryController.DefaultColorPassesValidators | controllers/categoryController.js:53 | a request without a colour, with a short non-blank name, passes the field validators thanks to the default #667eea |
| CategoryController.ApplyCategoryPatch | controllers/categoryController.js:172-179 | a supplied name is written trimmed and a supplied icon, colour, type, parent or activity is written; a field left out keeps its value; id, owner and the default flag are kept, and an empty patch changes nothing |
| CategoryController.UpdateOutcome | controllers/categoryController.js:156-185 | a supplied name that differs once trimmed and is held by another of the user's categories, active or not, is BadRequest; otherwise the update succeeds exactly when the patched category passes the field rules and the index |
| CategoryController.RenameChecksInactiveToo | controllers/categoryController.js:157-170 | renaming onto a soft-deleted category's name is refused |
| CategoryController.ActiveCustom | controllers/categoryController.js:81-84 | exactly the user's active categories, newest first |
| CategoryController.ActiveCustomNewestFirst | controllers/categoryController.js:81-84 | over a concatenation the later part's categories come first, so the list is newest first |
| CategoryController.AllCategories | controllers/categoryController.js:108-124 | the 12 defaults with icon FolderOutlined, colour #667eea and isDefault, followed by each active custom category with its own icon, colour and id |
| CategoryController.ListShowsOnlyActiveCustom | controllers/categoryController.js:116-123 | every entry after the defaults is one of the user's active categories |
| CategoryController.IndexOfCategory | controllers/categoryController.js:144-147 | the lookup by id and owner finds the user's category, or reports that none exists |
| CategoryController.CategoryStore.Create | controllers/categoryController.js:7-65 | returns the prepared category and appends it on success |
| CategoryController.CategoryStore.Update | controllers/categoryController.js:138-190 | an unknown id is NotFound; otherwise the outcome against the other categories replaces the stored one on success |
| CategoryController.CategoryStore.Delete | controllers/categoryController.js:203-226 | an unknown id is NotFound; otherwise only isActive is cleared and the category is kept |

## Left out

- MongoDB and Express are replaced by in-memory collections and `Result` values. Queries, sorting by `createdAt` and `date`, `Promise.all`, response bodies and status messages are not modelled.
- The nanoid id generation and its collision probe are not modelled. Ids are parameters, and their freshness is a precondition.
- Pre-save hooks are modelled on the `save()` paths only. The `findOneAndUpdate` paths with `runValidators` apply the field validators and no hook. This covers expense, settlement, budget, bill and category updates.
- Floating point is not reproduced. Amounts are whole cents. The Equal split floors to whole cents as the source does. Percentage amounts go through an explicit half-up rounding. IEEE drift in JavaScript sums is not modelled.
- Time zones and daylight saving are not modelled. Days are UTC days.
- The budget summary's window is a parameter. The source computes it with moment from the current month, year or week, and leaves it undefined for the Custom period.
- `getUpcomingBills` is not modelled, and neither is its moment window.
- The user lookups for `addMembers` and the scheduler are maps given as parameters.
- Sending e-mail is not modelled. The scheduler receives the set of bills whose e-mail would go out. The group-invite e-mails are left out.
- Handlers outside the modelled core are not modelled: `createGroup`, `getAllGroups`, `updateGroup`, `deleteGroup`, `getGroupExpenses`, `deleteExpense`, `getSettlements`, the dashboard statistics other than its user balance, `getAllBudgets` (its per-budget metrics are `BudgetController.MetricsOf`), `getAllBillReminders`, `getBillReminderById` and `getCategoryById`.
- controllers/transactionController.js is not part of this model. Budget spending is summed over a transactions parameter.
- Enum strings outside the enumerations cannot arise in the model, because the enums are datatypes. The same goes for non-array `splits` or `memberEmails`, and for a missing caller.
- String lengths are counted in characters, not in UTF-16 code units.
- Cron scheduling and concurrent check-then-act races between requests are not modelled.
- Calendar.AddMonths: its contract states only that the time of day is kept. The civil-calendar conversions are not proved mutual inverses, so "the next month's date is later" is not proved for Monthly, Quarterly and Yearly bills.
- BillReminderModel.AfterHook: states that the next due date is later than the due date only for Weekly and Bi-weekly bills, for the reason above.
- SettlementMatcher.Run: the cap of n² iterations is proved to bound the loop. That the cap is reached only through residuals that stall is shown by example (`SettlementMatcher.OneCentResidualRunsToCap`), not for all inputs.
- BillReminderScheduler.Processed: models the corrected run, whose save writes the new flag; the source's save does not (see the findings). Its own contract states only that the id and due date are kept. The flag rules are the lemmas beside it.
- BillReminderScheduler.RerunDoesNotRepeat: holds of the corrected run only; `BillReminderScheduler.AsWrittenRerunRepeats` shows the source's behaviour.
- BillReminderScheduler.CheckAndSendReminders: stores the flag the corrected run writes, not the unchanged flags the source persists.
- GroupMembership.CollectNewMembers: computes the corrected collection, which skips an e-mail already added in the same request, rather than the source's. `GroupMembership.Collect` models the source as written; see the findings.
- GroupController.GroupLedger.AddMembers: adds the corrected collection, each registered user once, rather than the source's, which can push one user twice; see the findings.
- GroupController.GroupLedger.CalculateSettlements: reports the balances as tallied rather than the residuals the source's response shows; see the findings.

## Findings

| source | as written | input that shows it | evidently intended | confidence | as-written member | corrected member |
|---|---|---|---|---|---|---|
| controllers/groupController.js:1087-1099 | the response's `balances` lists the same objects the matching loop mutated, so each member's `balance` is what remains after the suggestions (0 for a fully matched member), while totalPaid and totalOwed stay as tallied | A owed 30.00 and paid nothing, B paid 10.00, C paid 20.00: the response shows A with balance 0 but totalOwed − totalPaid = 30.00 | report each balance as totalOwed − totalPaid, as computed at lines 1048-1050 | medium, not executed | GroupController.ReportedAsWritten, GroupController.ReportedBalanceIsResidual | GroupController.GroupLedger.CalculateSettlements |
| controllers/groupController.js:413-436 | e-mails are deduplicated before trimming and each is checked only against the current members, so two spellings of one address add the same user twice | memberEmails ["a@x", " a@x"] with "a@x" registered: both survive the Set, both trim to "a@x", and the user is pushed twice | add each registered user once, skipping an address already added in this request | high, not executed | GroupMembership.Collect, GroupMembership.CollectAddsDuplicate | GroupMembership.CollectDistinct, GroupMembership.CollectDistinctAddsDistinct, GroupMembership.AppendKeepsEmailsDistinct, GroupController.GroupLedger.AddMembers |
| services/billReminderScheduler.js:76-77 | `reminderSent` is declared with `type: Object` (models/billReminderModel.js:67-74), a schema-less path, and the run sets one of its keys in place and calls `save()` without marking the path modified, so the flag is not written | a bill due today, unpaid and active, whose owner has an e-mail: each hourly run of that day selects the same-day reminder and sends it again | set the flag so that it is stored (mark the path modified, or assign a new object) so that each reminder goes out once | high, not executed | BillReminderScheduler.ProcessedAsWritten, BillReminderScheduler.AsWrittenRerunRepeats | BillReminderScheduler.Processed, BillReminderScheduler.RerunDoesNotRepeat |

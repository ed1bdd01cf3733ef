# Budget tracker ledger, modelled in Dafny

This project models the budget ledger of a personal budget tracker web app (jbalums/budget-tracker-web-app). The app keeps these rows for a user:

- bank accounts with balances;
- budget categories, each with a percentage of the monthly income, a monthly limit, the amount spent this period, a rollover balance carried from the previous month, and a marker for the month of its last reset;
- spending purposes, each filed under a category;
- income and expense transactions;
- an append-only log of manual balance adjustments;
- the profile's monthly income.

The model covers these parts:

- **The ledger mutations** (`BudgetData.Ledger`):
  - recording a transaction moves one bank balance and, for an expense with a known purpose, the category's `spent`;
  - deleting a transaction reverses both, clamping `spent` at 0;
  - the monthly reset rolls each category's unspent budget forward.

  Each mutation is a method on a class whose fields are the rows. Each is proved against pure rules in `LedgerRules`. A write the store rejects is modelled by a `fails` set: a write whose target is in the set fails. The method then stops exactly where the source throws, or goes on where the source ignores the error.
- **The derived values**: the total balance, the monthly income and expense sums, the remaining budget, and the "budgets need a reset" banner.
- **Balance adjustments** (`BankAdjustments`, `AdjustBalanceDialog`): the dialog's set / add / subtract rule, the previewed difference, and the trimmed reason. Then the mutation logs the change and overwrites the balance.
- **The budget views** (`Budgets`, `BudgetProgress`):
  - the available budget and percent used, with its 80 % and 100 % thresholds;
  - the capped bar;
  - the allocation total;
  - the two save handlers that rewrite limits.
- **The lists** (`Records`, `BankLogsSheet`, `Purposes`):
  - the three-way transaction filter with its month choices, totals and empty states;
  - the per-bank adjustment history with its trend markers;
  - purposes grouped by category, and the add form.

Money and percentages are exact `real`s. A nullable numeric column is an `Option<real>`. `OrZero` gives both JavaScript's `x || 0` and JavaScript's coercion of `null` to 0 in arithmetic. A month is an `int` (year × 12 + month). The clock, `parseFloat` and the store's id generation are parameters.

## Model

| member | source | states |
|---|---|---|
| `BudgetData.Ledger.AddTransaction` | src/hooks/useBudgetData.ts:242-286 | A rejected insert changes nothing. Otherwise the row is added. Then the bank moves by the signed amount, unless that write is rejected, which ends the mutation. Then the charged category's `spent` rises by the amount, unless that write is rejected. Bank, category and purpose primary keys stay distinct. |
| `BudgetData.Ledger.DeleteTransaction` | src/hooks/useBudgetData.ts:298-327 | The bank balance is reversed and the category's `spent` is lowered, clamped at 0. Each of these is skipped when its write is rejected, and the mutation goes on. The row is removed. Only a rejected delete fails the mutation. |
| `BudgetData.Ledger.ResetMonthlyBudgets` | src/hooks/useBudgetData.ts:337-364 | Categories are visited in order, skipping those already stamped this month. The first rejected write stops the loop; the categories before it are reset. After success the result equals the full reset. |
| `LedgerRules.FindBank` | src/hooks/useBudgetData.ts:258 | `find` by id: a found index holds that id; `None` only when no row has it. |
| `LedgerRules.SetBalanceAt` | src/hooks/useBudgetData.ts:265-268 | With distinct ids, an update by id rewrites exactly the row holding that id. |
| `LedgerRules.UpdateCategoriesAt` | src/hooks/useBudgetData.ts:278-281 | With distinct ids, a category update by id patches exactly the row holding that id. |
| `LedgerRules.CreditBankEffect` | src/hooks/useBudgetData.ts:257-270 | The transaction's bank gains +amount for income and −amount for an expense. No other bank changes. An unknown bank id changes nothing. |
| `LedgerRules.ChargeSpentEffect` | src/hooks/useBudgetData.ts:272-285 | `spent` rises by the amount on exactly one category, and only for an expense with a truthy purpose id whose purpose and category exist. Otherwise every category is unchanged. |
| `LedgerRules.DebitBankEffect` | src/hooks/useBudgetData.ts:300-309 | On any bank list with distinct ids, the transaction's bank moves back by the signed amount (−amount for income, +amount for an expense). No other bank changes. An unknown bank id changes nothing. |
| `LedgerRules.RefundSpentEffect` | src/hooks/useBudgetData.ts:311-323 | On any category list with distinct ids, the charged category's `spent` becomes max(0, spent − amount), with null read as 0. Every other category keeps its row. With no charged category, nothing changes. |
| `LedgerRules.ChargedCategory` | src/hooks/useBudgetData.ts:273-276 | A charged category exists only for an expense with a truthy purpose id. |
| `LedgerRules.CreditBank` | src/hooks/useBudgetData.ts:257-270 | Recording a transaction rewrites at most the balance of its bank; the ids and the number of banks are kept. Its effect is stated by `CreditBankEffect`. |
| `LedgerRules.DebitBank` | src/hooks/useBudgetData.ts:300-309 | Deleting a transaction keeps the ids and the number of banks. Its effect on any bank list is stated by `DebitBankEffect`, and `BanksRoundTrip` shows that it undoes `CreditBank`. |
| `LedgerRules.ChargeSpent` | src/hooks/useBudgetData.ts:272-285 | Charging rewrites at most one category's `spent`; the ids and the number of categories are kept. Its effect is stated by `ChargeSpentEffect`. |
| `LedgerRules.RefundSpent` | src/hooks/useBudgetData.ts:311-323 | Refunding keeps the ids and the number of categories. Its effect on any category list is stated by `RefundSpentEffect`, and `SpentRoundTrip` shows that it undoes `ChargeSpent`. |
| `LedgerRules.BalanceRoundTrip` | src/hooks/useBudgetData.ts:260-263 | Deleting after adding restores a balance exactly. Adding moves it by the signed amount. |
| `LedgerRules.BanksRoundTrip` | src/hooks/useBudgetData.ts:257-270 | An add followed by a delete of the same transaction leaves every bank row as it was. |
| `LedgerRules.SpentRoundTrip` | src/hooks/useBudgetData.ts:272-285 | An add followed by a delete restores every category when the charged category's `spent` is non-negative. A null `spent` on the charged category reads back as 0. |
| `LedgerRules.TransactionsRoundTrip` | src/hooks/useBudgetData.ts:325-326 | Deleting a freshly inserted transaction restores the transaction list. |
| `LedgerRules.RemoveTransaction` | src/hooks/useBudgetData.ts:325 | After the delete, a row remains exactly when it was there and has another id. |
| `LedgerRules.RefundKeepsSpentNonNegative` | src/hooks/useBudgetData.ts:311-323 | A deletion never leaves any category's `spent` negative. |
| `LedgerRules.RefundClampsAtZero` | src/hooks/useBudgetData.ts:319 | Deleting an 80 expense from a category that has spent 50 leaves `spent` at 0. |
| `LedgerRules.BaseLimit` | src/hooks/useBudgetData.ts:346 | The base limit × 100 is income × percentage. It is the whole income at 100 %, 0 for a null percentage, and never negative for a non-negative income and share. |
| `LedgerRules.AvailableBudget` | src/hooks/useBudgetData.ts:349 | The available budget exceeds the base limit by exactly the stored rollover (null as 0), so it is at least the base limit when the rollover is non-negative. |
| `LedgerRules.NeedsRollover` | src/hooks/useBudgetData.ts:343 | A category with a null marker is processed. A skipped category carries exactly this month's marker. |
| `LedgerRules.RolloverPatch` | src/hooks/useBudgetData.ts:353-360 | The reset write sets `spent` to 0, a non-negative rollover and this month's marker. It does not write the percentage or the limit. |
| `LedgerRules.ResetCategory` | src/hooks/useBudgetData.ts:343-360 | A visited category keeps its id, percentage and limit, and ends with this month's marker. It is unchanged iff it was skipped. A processed one gets `spent` 0 and rollover `NewRollover`. |
| `LedgerRules.NewRollover` | src/hooks/useBudgetData.ts:345-351 | The carried rollover is never negative. It is at least the unspent budget, and it is either 0 or exactly the unspent budget. |
| `LedgerRules.PartialReset` | src/hooks/useBudgetData.ts:341-363 | The categories after the reset loop has visited the first k of them; the ids and the number of categories are kept. |
| `LedgerRules.ResetAll` | src/hooks/useBudgetData.ts:341-363 | The categories after an uninterrupted reset; the ids and the number of categories are kept. Its effect is stated by `ResetProcessed`, `ResetIdempotent` and `ResetResumes`. |
| `LedgerRules.ResetStop` | src/hooks/useBudgetData.ts:341-363 | The loop stops at the first processed category whose write is rejected. No earlier processed category is rejected. |
| `LedgerRules.ResetProcessed` | src/hooks/useBudgetData.ts:353-360 | A processed category ends with `spent` 0, this month's marker and rollover max(0, income × pct / 100 + rollover − spent). Its percentage and limit are kept. |
| `LedgerRules.ResetIdempotent` | src/hooks/useBudgetData.ts:343 | A second reset in the same month changes nothing. |
| `LedgerRules.ResetResumes` | src/hooks/useBudgetData.ts:341-363 | Re-running after a partial reset gives the same result as one full run. |
| `LedgerRules.RolloverOverspendExample` | src/hooks/useBudgetData.ts:346-351 | Base 1000, rollover 200 and spent 1500 carry 0 forward. |
| `LedgerRules.RolloverCarryExample` | src/hooks/useBudgetData.ts:346-351 | Base 1000, no rollover and spent 600 carry 400, making next month's budget 1400. |
| `LedgerRules.NeedsMonthlyReset` | src/hooks/useBudgetData.ts:396-399 | When the banner is raised, some category is one the reset loop processes. |
| `LedgerRules.FlaggedResetChangesSomething` | src/hooks/useBudgetData.ts:396-399 | When the banner is raised, a reset changes some category. |
| `LedgerRules.ResetClearsFlag` | src/hooks/useBudgetData.ts:396-399 | After a complete reset the banner is down. |
| `LedgerRules.NullMarkerProcessedButNotFlagged` | src/hooks/useBudgetData.ts:343-398 | In any category list, a category with a null marker leaves the banner as it would be without that category, yet a full reset rewrites it and stamps it with this month's marker. |
| `LedgerRules.UnflaggedResetIsNoOp` | src/hooks/useBudgetData.ts:396-399 | With all markers non-null and no banner, a reset is a no-op. |
| `LedgerRules.TotalBalance` | src/hooks/useBudgetData.ts:375 | The total balance is never negative while no bank balance is. |
| `LedgerRules.TotalBalanceAfterSet` | src/hooks/useBudgetData.ts:375 | Overwriting one balance changes the total by exactly the difference. |
| `LedgerRules.SetBalanceAbsentId` | src/hooks/useBudgetData.ts:375 | An update of an absent bank id leaves the banks unchanged. |
| `LedgerRules.TotalBalanceAfterAdd` | src/hooks/useBudgetData.ts:375 | After an add, the total moves by the signed amount when the bank exists. |
| `LedgerRules.TotalBalanceAfterDelete` | src/hooks/useBudgetData.ts:375 | After a delete, the total moves back by the signed amount when the bank exists. |
| `LedgerRules.SumAmounts` | src/hooks/useBudgetData.ts:385-391 | The sum of one type's amounts is never negative while no amount is. |
| `LedgerRules.SumAmountsSubsequence` | src/hooks/useBudgetData.ts:380-391 | Dropping rows never raises the sum of non-negative amounts. |
| `LedgerRules.SumAmountsAppend` | src/hooks/useBudgetData.ts:385-391 | One more transaction adds its amount to the sum of its own type only. |
| `LedgerRules.InMonth` | src/hooks/useBudgetData.ts:380-383 | The month's transactions are exactly those dated in the month, in their original order, each as often as listed. |
| `LedgerRules.InMonthAppend` | src/hooks/useBudgetData.ts:380-383 | The month filter distributes over appending one transaction. |
| `LedgerRules.MonthlyIncome` | src/hooks/useBudgetData.ts:385-387 | With non-negative amounts, this month's income lies between 0 and the income of all months. |
| `LedgerRules.MonthlyExpenses` | src/hooks/useBudgetData.ts:389-391 | With non-negative amounts, this month's expenses lie between 0 and the expenses of all months. |
| `LedgerRules.RemainingBudget` | src/hooks/useBudgetData.ts:393 | With non-negative amounts, the remaining budget is at most the income (null as 0), and at least the income minus all expenses ever recorded. |
| `LedgerRules.MonthlyTotalsAfterInsert` | src/hooks/useBudgetData.ts:380-393 | A transaction dated this month moves the matching monthly total by its amount, and the remaining budget falls by an expense. |
| `Seqs.IndexOf` | src/hooks/useBudgetData.ts:258 | The first index holding the key, or `None` exactly when the key is absent. |
| `Seqs.DistinctIndexOf` | src/hooks/useBudgetData.ts:258 | With distinct keys, the found index of a row's key is that row. |
| `Seqs.Filter` | src/pages/Records.tsx:47-52 | `filter`: keeps exactly the elements that pass, in input order, and returns the input when all pass. |
| `Seqs.FilterCount` | src/pages/Records.tsx:47-52 | `filter` keeps each passing element as often as it occurs in the input, and drops every other. |
| `Seqs.FilterAppend` | src/hooks/useBudgetData.ts:380-383 | Filtering distributes over appending one element. |
| `Seqs.FilterCongruent` | src/pages/Records.tsx:47-52 | Filters by predicates that agree on the list give the same list. |
| `BankAdjustments.StoredReason` | src/hooks/useBankAdjustments.ts:59 | A missing or empty reason is stored as null; any other reason is stored unchanged. |
| `BankAdjustments.LogRow` | src/hooks/useBankAdjustments.ts:50-60 | The row keeps the given balances and bank id, and its amount is new − previous, of any sign. |
| `BankAdjustments.NewestFirst` | src/hooks/useBankAdjustments.ts:30 | The log as read back is the log in reverse creation order. |
| `BankAdjustments.AdjustBalance` | src/hooks/useBankAdjustments.ts:38-69 | A rejected log insert changes nothing. Otherwise the row is appended. Then the balance is overwritten with the new balance, with no cap, on that bank only. A rejected balance write keeps the old balance and the logged row. |
| `BankAdjustments.NewestEntryIsLatestAdjustment` | src/hooks/useBankAdjustments.ts:30 | A new log row is read back first, ahead of the earlier rows. |
| `BankAdjustments.LoggedAmountIsBalanceChange` | src/hooks/useBankAdjustments.ts:50-67 | When the previous balance passed in is the current one, the logged amount is the change of that bank's balance and of the total balance. |
| `BankAdjustments.LoggedAmountIsDisplayedDifference` | src/components/banks/AdjustBalanceDialog.tsx:47-61 | For a dialog submission, the logged amount equals the previewed difference. The stored reason is null exactly for a blank reason, and otherwise is the trimmed text. |
| `AdjustBalanceDialog.CalculateNewBalance` | src/components/banks/AdjustBalanceDialog.tsx:34-45 | "Set" gives the value. "Add" gives balance + value. "Subtract" gives balance − value, or 0 when that would be negative, so never a negative result. |
| `AdjustBalanceDialog.Difference` | src/components/banks/AdjustBalanceDialog.tsx:61 | The previewed difference is value − balance for "set", the value for "add", and max(−balance, −value) for "subtract". |
| `AdjustBalanceDialog.ShownAsIncrease` | src/components/banks/AdjustBalanceDialog.tsx:130-131 | Drawn as an increase iff the value is ≥ the balance for "set", the value is ≥ 0 for "add", and for "subtract" iff the balance or the value is ≤ 0. |
| `AdjustBalanceDialog.UnparseableAmountIsZero` | src/components/banks/AdjustBalanceDialog.tsx:35 | An unparseable amount counts as 0: "set" gives 0 and "add" leaves the balance, with a zero difference. |
| `AdjustBalanceDialog.SubtractStaysWithinBalance` | src/components/banks/AdjustBalanceDialog.tsx:39-40 | On a non-negative balance and a non-negative amount, subtracting removes between 0 and the whole balance. It shows as an increase only when nothing is removed. |
| `AdjustBalanceDialog.AddShowsEnteredAmount` | src/components/banks/AdjustBalanceDialog.tsx:37-38 | Adding previews exactly the entered amount. It shows as an increase iff that amount is ≥ 0. |
| `AdjustBalanceDialog.TrimStart` | src/components/banks/AdjustBalanceDialog.tsx:52 | Removes a whitespace prefix and nothing else. |
| `AdjustBalanceDialog.TrimEnd` | src/components/banks/AdjustBalanceDialog.tsx:52 | Removes a whitespace suffix and nothing else. |
| `AdjustBalanceDialog.Trim` | src/components/banks/AdjustBalanceDialog.tsx:52 | The result is a slice of the text whose cut-off prefix and suffix are all whitespace. It is empty exactly when the text is all whitespace, and otherwise starts and ends with a non-space. |
| `AdjustBalanceDialog.SentReason` | src/components/banks/AdjustBalanceDialog.tsx:52 | A whitespace-only reason is sent as undefined. Any other reason is sent trimmed and non-empty. |
| `AdjustBalanceDialog.AdjustForm.CanSubmit` | src/components/banks/AdjustBalanceDialog.tsx:140 | Confirm is disabled while a request is pending, and enabled only with a non-empty amount. |
| `AdjustBalanceDialog.AdjustForm.HandleSubmit` | src/components/banks/AdjustBalanceDialog.tsx:47-58 | Called only when Confirm is enabled. Sends the bank id, the computed new balance and the trimmed reason. After the callback resolves, the form is back to "set" with an empty amount and reason, closed, and Confirm is disabled. If the callback rejects, the form is unchanged. |
| `Budgets.PercentUsed` | src/pages/Budgets.tsx:177 | With a positive limit, percent × limit = spent × 100. Otherwise it is 0. |
| `Budgets.PercentThreshold` | src/pages/Budgets.tsx:243-245 | With a positive limit, the percentage reaches t exactly when spent × 100 ≥ t × limit. |
| `Budgets.StatusOf` | src/pages/Budgets.tsx:243-247 | Red iff the percentage is ≥ 100, amber iff it is in [80, 100), and the category colour iff it is below 80. |
| `Budgets.StatusMeaning` | src/pages/Budgets.tsx:242-247 | With a positive limit, the bar is red iff spent ≥ limit, and amber iff 4/5 of the limit ≤ spent < limit. With no positive limit it is never flagged. |
| `Budgets.BarWidth` | src/pages/Budgets.tsx:249 | The width is at most 100. It equals the percentage up to 100, and is exactly 100 from 100 on. |
| `Budgets.Card` | src/pages/Budgets.tsx:173-249 | The base limit is income × pct / 100 and the rollover is the stored one (null as 0). The limit is their sum. The rollover line shows iff the rollover is positive. Remaining is limit − spent, negative iff spent > limit. The percentage, colour and width are those of `PercentUsed`, `StatusOf` and `BarWidth`. With a positive limit, red iff spent ≥ limit and amber iff 4/5 of the limit ≤ spent < limit; otherwise normal. |
| `Budgets.ExactLimitReadsExceeded` | src/pages/Budgets.tsx:232-245 | Spending exactly the limit draws the bar red, while the remaining amount, 0, is not drawn as negative. |
| `Budgets.ZeroBudgetOverspendNotFlagged` | src/pages/Budgets.tsx:177-245 | With no positive budget, any overspend shows 0 % and a normal bar, but a negative remaining amount. |
| `Budgets.TotalPercentage` | src/pages/Budgets.tsx:67 | The allocation total is never negative while no percentage is, and is 0 when every percentage is 0 or null. |
| `Budgets.AllocationFlagged` | src/pages/Budgets.tsx:155 | The total is flagged when there is no category, and when no category has a percentage yet. |
| `Budgets.TotalPercentageReplace` | src/pages/Budgets.tsx:67 | Replacing one category moves the allocation total by the change of its percentage. |
| `Budgets.WithLimits` | src/pages/Budgets.tsx:39-42 | Writing limits keeps the ids and the number of categories. |
| `Budgets.LimitStop` | src/pages/Budgets.tsx:39-42 | The income loop stops at the first rejected category write. |
| `Budgets.SavedIncomeLimitsConsistent` | src/pages/Budgets.tsx:38-42 | After a full save, every limit is income × pct / 100 and no other column has changed. |
| `Budgets.HandleSaveIncome` | src/pages/Budgets.tsx:33-46 | A rejected profile write changes nothing. Otherwise the income becomes `parseFloat(...) \|\| 0`, and limits are written in order up to the first rejected write. After success every limit is consistent with the income. |
| `Budgets.PercentageSaved` | src/pages/Budgets.tsx:52-61 | The saved category holds the entered percentage (unedited or empty read as 0) and limit (income or 0) × pct / 100. No other category changes. The total moves by new − old. |
| `Budgets.UneditedSaveWritesZero` | src/pages/Budgets.tsx:53 | Saving without editing writes a 0 % share and a 0 limit. |
| `Budgets.HandleSavePercentage` | src/pages/Budgets.tsx:52-64 | One write of percentage and limit to that category. A rejected write changes nothing. |
| `BudgetProgress.Row` | src/components/dashboard/BudgetProgress.tsx:27-33 | The total limit is the available budget. Warning and exceeded are never both set. Exceeded iff spent ≥ limit > 0; warning iff 4/5 of the limit ≤ spent < limit. The percentage is `PercentUsed` of spent and limit, and the width is its `BarWidth`, so at most 100. |
| `BudgetProgress.UsagePanel` | src/components/dashboard/BudgetProgress.tsx:26-80 | One row per category, in order. The "no categories" message shows iff there is no category. |
| `BudgetProgress.RowAgreesWithCard` | src/components/dashboard/BudgetProgress.tsx:27-69 | The dashboard row and the Budgets card agree on the limit, width and colour. |
| `Records.TransactionCategory` | src/pages/Records.tsx:50 | A joined category exists only for a transaction with a purpose, and is one of the categories. |
| `Records.Shown` | src/pages/Records.tsx:47-52 | With every filter at "all", every row passes. A row without a purpose never passes a chosen category. A passing row matches the month and bank filters. |
| `Records.FilteredTransactions` | src/pages/Records.tsx:47-52 | A row is kept iff it passes all three filters, each as often as listed, in order. With all three at "all", the list is unchanged. |
| `Records.NoPurposeNeverInCategory` | src/pages/Records.tsx:50 | A transaction without a purpose never passes a specific category filter. |
| `Records.MonthFilterIsDashboardMonth` | src/pages/Records.tsx:47-52 | A month-only filter shows the dashboard's month, and the page totals equal the dashboard's monthly sums. |
| `Records.FilteredIncome` | src/pages/Records.tsx:231 | With non-negative amounts, the shown income lies between 0 and the income of all rows, and equals it with no filter set. |
| `Records.FilteredExpenses` | src/pages/Records.tsx:237 | With non-negative amounts, the shown expenses lie between 0 and the expenses of all rows, and equal them with no filter set. |
| `Records.InsertDescending` | src/pages/Records.tsx:44 | Inserting a month into a strictly decreasing list keeps it strictly decreasing, and adds exactly that month. |
| `Records.MonthChoices` | src/pages/Records.tsx:44 | Each transaction month appears exactly once, newest first, and no other month appears. |
| `Records.EveryMonthChoiceShowsRows` | src/pages/Records.tsx:44-52 | Choosing any offered month shows at least one row. |
| `Records.Table` | src/pages/Records.tsx:117-125 | "Start by adding" shows iff there are no transactions. "Try adjusting" shows iff some exist but none pass. Otherwise the non-empty filtered rows show. |
| `BankLogsSheet.BankLog` | src/components/banks/BankLogsSheet.tsx:23 | Every entry shown is this bank's, none of its entries is dropped, and input order is kept. |
| `BankLogsSheet.TrendOf` | src/components/banks/BankLogsSheet.tsx:53-75 | Up iff amount > 0, flat iff = 0, down iff < 0. |
| `BankLogsSheet.PlusSign` | src/components/banks/BankLogsSheet.tsx:81 | An entry's amount is written with "+" exactly when its marker is "up". |
| `BankLogsSheet.Sheet` | src/components/banks/BankLogsSheet.tsx:41-52 | "Loading" iff loading. "No adjustments" iff not loading and the bank has no entry. Otherwise its non-empty log shows. |
| `BankLogsSheet.AdjustmentListedFirst` | src/components/banks/BankLogsSheet.tsx:23 | A new adjustment heads its bank's history and leaves other banks' histories unchanged. |
| `BankLogsSheet.EntryMatchesBalances` | src/components/banks/BankLogsSheet.tsx:53-81 | An entry's marker follows the sign of new − previous. A shown reason is never empty. |
| `BankLogsSheet.ZeroAdjustmentSignsDisagree` | src/components/banks/BankLogsSheet.tsx:81 | A zero adjustment is previewed with "+" in the dialog, but listed flat and without "+". |
| `Purposes.PurposesOf` | src/pages/Purposes.tsx:60 | A group holds exactly the purposes filed under its category, in order and with multiplicity. |
| `Purposes.PurposesByCategory` | src/pages/Purposes.tsx:58-61 | One group per category, in category order. |
| `Purposes.OrphanInNoGroup` | src/pages/Purposes.tsx:58-61 | A purpose whose category is absent appears in no group. |
| `Purposes.PurposeInExactlyOneGroup` | src/pages/Purposes.tsx:58-61 | With distinct category ids, a purpose appears in its own category's group and in no other. |
| `Purposes.PurposeForm.AddEnabled` | src/pages/Purposes.tsx:119 | Add is disabled while an insert is pending, and enabled only with a chosen category. |
| `Purposes.PurposeForm.HandleAdd` | src/pages/Purposes.tsx:49-55 | Called only when Add is enabled and the required name is filled in. After a successful insert, the purpose heads the list; the name and category are cleared, the dialog is closed and Add is disabled. A rejected insert changes nothing. Purpose ids stay distinct, since the store assigns a fresh id. |
| `Purposes.AddedPurposeHeadsItsGroup` | src/pages/Purposes.tsx:58-61 | A new purpose heads its category's group, and no other group changes. |

## Left out

- Supabase I/O is left out: queries, row-level security, the auth context, react-query caching and invalidation, and toasts. A store write is an update of a field, and a rejected write is a member of the `fails` set. Foreign-key constraints are not derived, since `fails` covers any rejection.
- Concurrency is left out. Mutations read the cached snapshot, so two tabs or overlapping mutations can lose updates. The model is sequential, and its state is the snapshot.
- `Date`, `toISOString` and date-fns `format` are left out. The current month and each transaction's month key are inputs, so timezone effects on the month key are not modelled.
- `parseFloat` and `toLocaleString` are left out. Parse results are inputs: `None` when nothing parses, which covers `|| 0`. A NaN percentage from `handleSavePercentage` on non-numeric text is not modelled.
- IEEE floating point is left out. Amounts and percentages are exact reals, so rounding (such as `Math.round` of the percent shown) is not modelled.
- AdjustBalanceDialog.IsSpace: covers the common whitespace code points, not every Unicode space separator that `trim` removes.
- The order of `BudgetData.Ledger.transactions` is insertion order. The app lists them by date and then creation time, and that ordering is not modelled. Purposes are kept newest first and categories oldest first, as fetched. `BudgetData.Ledger.adjustments` is kept in creation order, and `BankAdjustments.NewestFirst` gives the newest-first order in which the log is fetched and shown.
- Budgets.Card and BudgetProgress.UsagePanel read a null `spent` as 0 and show a normal card or row. The source renders `spent.toLocaleString()`, which throws on null, so that page fails to render. The model does not capture this crash.
- `BankAdjustments.LoggedAmountIsDisplayedDifference` assumes the dialog's caller passes the shown balance as the previous balance. That caller is not part of this model.
- The app offers a purpose only for expenses when it records a transaction. The model takes any transaction and charges a category only for expenses, as the hook does.
- Rendering, category colours, layout, the dashboard chart, the recent-transactions slice, and `deletePurpose` and the profile and bank forms are not part of this model.
- The dashboard totals take "this month" as a parameter, not the clock.

# Budget ledger, spreadsheet backup and summary figures — a Dafny model

This project models the logic core of a single-user monthly budgeting app
(Turkish UI). It has four parts.

- **Spreadsheet backup** (`sheet_export.dfy`, `sheet_import.dfy`, `sheet_roundtrip.dfy`).
  - Export flattens the budget into row records. The current month goes to a sheet named `Mevcut - <month>`. Each archived month gets a sheet named `YYYY-MM`.
  - Import reads the rows back. It classifies sheets by name and sorts the history newest month first.
  - The round-trip lemmas state exactly what survives a backup.
- **Ledger updaters** (`ledger.dfy`).
  - Each store action is a total state-to-state function: add, toggle, delete, reset, and field updates.
  - The store's load rule lays stored fields over the initial state.
- **Summary arithmetic**.
  - The remaining cash and meal-card (YK) balances, the credit-card total and the spending percentage (`dashboard.dfy`).
  - Fixed-expense totals and the add form (`fixed_expenses.dfy`).
  - The debt total and its form (`debt.dfy`).
  - The gold portfolio value (`gold.dfy`).
  - The progress-bar clamp (`progress_bar.dfy`).
  - Shared sums over filtered lists (`totals.dfy`).
- **Daily-ledger view** (`daily.dfy`).
  - The income/expense sign rule and the filter by allowance tab.
  - Grouping by date, and dates newest first.

Shared pieces:
- `types.dfy`: the entities and the state record.
- `lists.dfy`: filtering out an id.
- `text.dfy`: string order, the `YYYY-MM` pattern, decimal conversion.
- `sorting.dfy`: a stable descending sort.
- `wrappers.dfy`: `Option`.

Modelling conventions:
- Money is an exact `int`. Gold quantities, prices and percentages are `real`.
- A spreadsheet row is one record over the 19 columns the exporter writes. Each cell is a number or a text. A column a row lacks is empty text.
- The spreadsheet library's conversion between row records and worksheets is the identity.
- Random identifiers are parameters:
  - the store's `generateId` result is `newId`;
  - the importer's `crypto.randomUUID()` is `newId(sheetName, entriesReadSoFar)`.
- The wall-clock default month of an import is the parameter `defaultMonth`.
- The price timestamp is the parameter `now`.
- A numeric input field hands over `Option<int>`/`Option<real>`. `None` is the empty field, which the source reads as NaN.
- `Number(text)` is `Text.ParseNumber`: an optional `-` and decimal digits. The empty text reads as 0. Anything else is NaN (`None`). "## Left out" lists the texts JavaScript reads differently.

Facts about the code that the model keeps:
- The dashboard balances are not floored at 0: remaining cash and remaining meal-card money can be negative.
- An absent credit-card `installmentId` does not survive a backup. It is written as `''` and read back as `''`. This is a fourth lossy spot, next to:
  - absent or zero installment counters;
  - an installment count of 0;
  - absent meal-card figures, which come back as 0.
- The imported state has no limits, gold or gold prices. The model gives it the store's initial ones.
- The spreadsheet library refuses a sheet name over 31 characters, one with any of `: \ / ? * [ ]`, and a repeated name. `SheetExport.SheetNamesAccepted` states this rule, and the round trip is proved for states that meet it.

## Model

| member | source | states |
|---|---|---|
| Lists.Without | src/context/BudgetContext.tsx:82-87 | the result keeps exactly the entries whose id differs from the deleted one, and nothing else |
| Lists.WithoutAppend | src/context/BudgetContext.tsx:82-87 | deleting from `a + b` is deleting from `a` and from `b` separately, so order is kept |
| Lists.WithoutAbsent | src/context/BudgetContext.tsx:97-102 | deleting an id no entry carries returns the list unchanged |
| Lists.WithoutIdempotent | src/context/BudgetContext.tsx:112-117 | deleting twice is deleting once |
| Lists.WithoutUnique | src/context/BudgetContext.tsx:112-117 | deleting the id carried only by entry `k` removes exactly that entry: the result is `xs[..k] + xs[k+1..]` |
| Totals.DailyIncome | src/pages/Dashboard.tsx:28-34 | the daily income of an allowance is never negative |
| Totals.DailySpent | src/pages/Dashboard.tsx:17-19 | the spending of an allowance (ykSpent, cashSpent) is never negative |
| Totals.PaidPlusUnpaid | src/pages/FixedExpenses.tsx:41-42 | paid plus unpaid sums make up the whole fixed total |
| Totals.IncomeMinusSpent | src/pages/Dashboard.tsx:17-38 | income minus spending of an allowance is the signed sum of all its entries, so zero entries count in neither |
| Totals.FixedTotalsAppend | src/pages/FixedExpenses.tsx:41-42 | total, paid and unpaid sums split over a concatenation |
| Totals.DebtTotalAppend | src/pages/Debt.tsx:19 | the debt total splits over a concatenation |
| Totals.DailyAppend | src/pages/Dashboard.tsx:17-49 | each daily sum splits over a concatenation |
| Ledger.AddFixedExpense | src/context/BudgetContext.tsx:63-71 | exactly one unpaid entry with the given title and amount is appended; earlier entries and all other fields are unchanged |
| Ledger.Toggled | src/context/BudgetContext.tsx:73-80 | length, order, ids, titles and amounts are kept; the paid flag flips exactly on entries with the id |
| Ledger.ToggleFixedExpense | src/context/BudgetContext.tsx:73-80 | only the fixed-expense list changes |
| Ledger.DeleteFixedExpense | src/context/BudgetContext.tsx:82-87 | no entry with the id remains, every other entry remains, nothing new appears; other fields unchanged |
| Ledger.AddDailyExpense | src/context/BudgetContext.tsx:89-95 | one entry with the supplied fields and the new id is appended; earlier entries and other fields unchanged |
| Ledger.DeleteDailyExpense | src/context/BudgetContext.tsx:97-102 | no entry with the id remains, every other entry remains; other fields unchanged |
| Ledger.AddCCDebt | src/context/BudgetContext.tsx:104-110 | one line with the supplied fields and the new id is appended; earlier lines and other fields unchanged |
| Ledger.DeleteCCDebt | src/context/BudgetContext.tsx:112-117 | no line with the id remains, every other line remains; other fields unchanged |
| Ledger.UpdateGold | src/context/BudgetContext.tsx:119-121 | only the gold holdings are replaced |
| Ledger.UpdateGoldPrices | src/context/BudgetContext.tsx:123-125 | only the gold prices are replaced |
| Ledger.UpdateIncome | src/context/BudgetContext.tsx:127-129 | only the income is replaced |
| Ledger.UpdateRollover | src/context/BudgetContext.tsx:131-133 | only the rollover is replaced |
| Ledger.UpdateLimits | src/context/BudgetContext.tsx:135-137 | only the limits are replaced |
| Ledger.AllUnpaid | src/context/BudgetContext.tsx:139-144 | every entry is the original one marked unpaid |
| Ledger.ResetMonth | src/context/BudgetContext.tsx:139-144 | every fixed expense becomes unpaid with id, title and amount kept; balances and all other lists unchanged |
| Ledger.Load | src/context/BudgetContext.tsx:44-57 | nothing stored or unparseable text gives the initial state; missing gold prices fall back to the initial ones |
| Ledger.Save | src/context/BudgetContext.tsx:59-61 | the stored record carries every field of the state: each one present except the meal-card figures, which are stored as they are, absent when absent |
| Ledger.LoadSave | src/context/BudgetContext.tsx:44-61 | loading what was saved gives back the state |
| Ledger.LoadEmptyRecord | src/context/BudgetContext.tsx:48-50 | a stored record with no fields loads as the initial state |
| Ledger.LoadWithoutPrices | src/context/BudgetContext.tsx:49-50 | a record missing only the prices keeps every stored field and takes the initial prices |
| Ledger.ToggleTwice | src/context/BudgetContext.tsx:73-80 | toggling the same id twice is the identity |
| Ledger.ToggleMovesAmount | src/pages/FixedExpenses.tsx:41-42 | with a unique id, toggling keeps the fixed total and moves exactly that amount into or out of the paid sum |
| Ledger.ToggleAbsent | src/context/BudgetContext.tsx:73-80 | toggling an id no entry carries changes nothing |
| Ledger.ResetClearsPaid | src/context/BudgetContext.tsx:139-144 | after a reset the paid sum is 0 and the fixed total is kept |
| Ledger.ResetIdempotent | src/context/BudgetContext.tsx:139-144 | resetting twice is resetting once |
| Ledger.DeleteIdempotent | src/context/BudgetContext.tsx:82-117 | each of the three deletes is idempotent |
| Ledger.DeleteAbsent | src/context/BudgetContext.tsx:82-117 | deleting an absent id changes no state |
| Ledger.DeleteKeepsOrder | src/context/BudgetContext.tsx:112-117 | the remaining lines keep their relative order |
| Ledger.DeleteUndoesAdd | src/context/BudgetContext.tsx:63-117 | adding under a fresh id and deleting that id restores the state, for all three lists |
| Ledger.DeleteLowersDebt | src/pages/Debt.tsx:19-65 | deleting the single line with an id lowers the debt total by exactly its amount |
| Text.StrLtIrreflexive | src/services/excelService.ts:228 | no month sorts before itself |
| Text.StrLtTransitive | src/services/excelService.ts:228 | the month order is transitive |
| Text.StrLtTotal | src/services/excelService.ts:228 | distinct months are always ordered one way or the other |
| Text.StrLtAsymmetric | src/services/excelService.ts:228 | two months are never ordered both ways |
| Text.StrLeTransitive | src/pages/DailyExpenses.tsx:51-53 | the non-strict order is transitive |
| Text.StrLeTotal | src/pages/DailyExpenses.tsx:51-53 | any two dates are comparable |
| Text.StrLeAntisymmetric | src/pages/DailyExpenses.tsx:51-53 | dates ordered both ways are equal |
| Text.MonthNameIsNotCurrent | src/services/excelService.ts:190-195 | a `YYYY-MM` name never starts with "Mevcut" |
| Text.ParseNumber | src/services/excelService.ts:253 | the empty text reads as 0, and any text read as a number is an optionally negated digit string |
| Text.DigitsOfNat | src/services/excelService.ts:253 | the decimal digits of a natural number read back as that number; this is the step `Text.ParseRendered` rests on |
| Text.ParseRendered | src/services/excelService.ts:253 | a number rendered in decimal reads back as itself |
| Sorting.Insert | src/services/excelService.ts:228 | inserting into a descending list gives a descending permutation with one more element |
| Sorting.SortDesc | src/services/excelService.ts:228 | the result is a permutation of the input in descending key order |
| Sorting.StrictWhenDistinct | src/pages/DailyExpenses.tsx:51-53 | with pairwise distinct keys the descending order is strict |
| SheetExport.CountCell | src/services/excelService.ts:69-70 | a nonzero count is written as a number; absent or 0 is written as empty text |
| SheetExport.Headed | src/services/excelService.ts:25 | a section is its heading row followed by its body |
| SheetExport.FixedRows | src/services/excelService.ts:26-35 | one tagged row per fixed expense, in list order |
| SheetExport.DailyRows | src/services/excelService.ts:43-53 | one tagged row per daily entry, in list order |
| SheetExport.DebtRows | src/services/excelService.ts:61-72 | one tagged row per credit-card line, in list order |
| SheetExport.PlanRows | src/services/excelService.ts:80-92 | one tagged row per installment plan, in list order |
| SheetExport.OrNote | src/services/excelService.ts:36-38 | a non-empty list gives its rows; an empty list gives exactly one note row |
| SheetExport.HistorySheets | src/services/excelService.ts:101-156 | one sheet per archived month, named by that month, in history order |
| SheetExport.ExportWorkbook | src/services/excelService.ts:97-98 | the current sheet comes first and is named "Mevcut - <month>", then one sheet per archived month |
| SheetExport.CurrentSheetOpening | src/services/excelService.ts:16-21 | the current sheet opens with GENEL BİLGİLER, Ay, Gelir (Nakit), Devreden (Nakit), Yemek Kartı Geliri, Yemek Kartı Devreden; absent meal-card figures are written as 0 |
| SheetImport.NumberOr | src/services/excelService.ts:253-256 | a nonzero number is kept; zero or not-a-number gives the fallback |
| SheetImport.OptionalNumber | src/services/excelService.ts:284-285 | an empty or zero cell gives an absent counter; a nonzero number is kept |
| SheetImport.IdOf | src/services/excelService.ts:261 | a present id is kept, a missing one is replaced by the generated id |
| SheetImport.KindOf | src/services/excelService.ts:274 | NAKIT and YK are recognised, exactly those texts |
| SheetImport.DecodeFixed | src/services/excelService.ts:259-266 | the paid flag is true iff the cell is exactly "Evet" |
| SheetImport.DecodePlan | src/services/excelService.ts:295 | a nonzero numeric installment count is kept; a zero, empty or non-numeric one reads as exactly 1 |
| SheetImport.HistoryFromRows | src/services/excelService.ts:196-219 | the history entry's month is the sheet name |
| SheetImport.Classify | src/services/excelService.ts:190-197 | a sheet is current iff its name starts with "Mevcut"; history iff not and it matches `YYYY-MM`; otherwise skipped |
| SheetImport.ImportWorkbook | src/services/excelService.ts:186-228 | the imported history is sorted by month descending and is a permutation of the history sheets read |
| SheetRoundTrip.FixedRowRoundTrip | src/services/excelService.ts:28-34 | a fixed-expense row with an id decodes to the expense it was written from, paid flag included |
| SheetRoundTrip.DailyRowRoundTrip | src/services/excelService.ts:45-52 | a daily row with an id decodes to the entry it was written from |
| SheetRoundTrip.DebtRowRoundTrip | src/services/excelService.ts:63-71 | a credit-card row decodes to the line with absent link read as "" and zero or absent counters read as absent |
| SheetRoundTrip.PlanRowRoundTrip | src/services/excelService.ts:82-91 | a plan row decodes to the plan with a count of 0 read as 1 |
| SheetRoundTrip.NonNumericReadsAsZero | src/services/excelService.ts:263 | a non-numeric amount reads as 0 |
| SheetRoundTrip.MissingIdIsGenerated | src/services/excelService.ts:261 | a row without an id gets the generated one |
| SheetRoundTrip.LayoutRowsIgnored | src/services/excelService.ts:250-301 | heading, spacer and note rows leave the state unchanged |
| SheetRoundTrip.ParseSectionRow | src/services/excelService.ts:252-256 | a general row sets only the figure its label names (the month only on the current sheet); any other label changes nothing |
| SheetRoundTrip.ParseFixedRow | src/services/excelService.ts:259-266 | a fixed-expense row appends its expense and touches nothing else |
| SheetRoundTrip.ParseDailyRow | src/services/excelService.ts:268-276 | a daily row appends its entry and touches nothing else |
| SheetRoundTrip.ParseDebtRow | src/services/excelService.ts:278-287 | a credit-card row appends its restored line and touches nothing else |
| SheetRoundTrip.ParsePlanRow | src/services/excelService.ts:289-300 | a plan row appends its plan on the current sheet and is ignored on a history sheet |
| SheetRoundTrip.ParseRowsAppend | src/services/excelService.ts:250 | reading `a + b` is reading `a` and then `b` |
| SheetRoundTrip.ParseFixedRows | src/services/excelService.ts:26-35 | the exported fixed-expense rows append the list element for element |
| SheetRoundTrip.ParseDailyRows | src/services/excelService.ts:43-53 | the exported daily rows append the list element for element |
| SheetRoundTrip.ParseDebtRows | src/services/excelService.ts:61-72 | the exported credit-card rows append the restored lines element for element |
| SheetRoundTrip.ParsePlanRows | src/services/excelService.ts:289-290 | plan rows append the restored plans on the current sheet and nothing on a history sheet |
| SheetRoundTrip.ParseCurrentPlanRows | src/services/excelService.ts:289-300 | on the current sheet the exported plan rows append the restored plans in order |
| SheetRoundTrip.ParseHistoryPlanRows | src/services/excelService.ts:288-289 | on a history sheet plan rows leave the state unchanged |
| SheetRoundTrip.ParseOrNote | src/services/excelService.ts:36-38 | a section read with or without its note row gives the same state |
| SheetRoundTrip.ParseFigureRows | src/services/excelService.ts:254-256 | the four exported figure rows read back as exactly those figures |
| SheetRoundTrip.ParseGeneral | src/services/excelService.ts:252-256 | the general block sets the four figures, and the month only on the current sheet |
| SheetRoundTrip.ParseHeaded | src/services/excelService.ts:25-39 | a heading and a trailing spacer add nothing to what a section's body reads as |
| SheetRoundTrip.CurrentSheetRoundTrip | src/services/excelService.ts:9-95 | the current sheet sets month and figures and appends all four lists, up to the documented lossy spots |
| SheetRoundTrip.CurrentStateRoundTrip | src/services/excelService.ts:172-191 | importing the current sheet alone restores month, figures and the four lists |
| SheetRoundTrip.HistoryRowsRead | src/services/excelService.ts:101-153 | a history sheet sets the figures and appends three lists, never the month or plans |
| SheetRoundTrip.HistorySheetRoundTrip | src/services/excelService.ts:196-219 | an archived month's sheet reads back as that month, up to the lossy spots |
| SheetRoundTrip.ImportHistorySheet | src/services/excelService.ts:195-221 | an exported history sheet appends its restored month |
| SheetRoundTrip.ImportHistorySheets | src/services/excelService.ts:186-224 | the exported history sheets append the restored months in history order |
| SheetRoundTrip.CurrentNameClassified | src/services/excelService.ts:98-190 | the exported current sheet's name classifies it as current |
| SheetRoundTrip.ImportExportedSheets | src/services/excelService.ts:163-224 | reading an exported workbook gives the state back, history still unsorted |
| SheetRoundTrip.ExportedNamesDistinct | src/services/excelService.ts:98-155 | for an exportable state the current sheet and the month sheets all have different names, so no sheet is appended under a name already taken |
| SheetRoundTrip.WorkbookRoundTrip | src/services/excelService.ts:9-228 | export then import restores the state; the history comes back as the original history sorted by month descending |
| SheetRoundTrip.SortRestoredHistory | src/services/excelService.ts:228 | sorting commutes with the lossy restoring, which keeps months |
| SheetRoundTrip.InsertRestored | src/services/excelService.ts:228 | insertion commutes with the lossy restoring |
| ProgressBar.Percentage | src/components/ui/ProgressBar.tsx:12 | the fill is always within [0, 100] when defined, and undefined exactly for 0 of 0 |
| ProgressBar.PercentageEnds | src/components/ui/ProgressBar.tsx:12 | with a positive max, value ≤ 0 gives 0 and value ≥ max gives 100 |
| ProgressBar.PercentageProportional | src/components/ui/ProgressBar.tsx:12 | between the ends the fill is value / max · 100 |
| ProgressBar.PercentageMonotone | src/components/ui/ProgressBar.tsx:12 | for a fixed positive max the fill never decreases as the value grows |
| Dashboard.Summarize | src/pages/Dashboard.tsx:13-59 | remaining YK is YK income + rollover + every YK amount; remaining cash is income + rollover + every cash amount − paid fixed expenses; the percentage is 0 for resources ≤ 0; the bar max is never 0 |
| Dashboard.RemainingPercentage | src/pages/Dashboard.tsx:106 | with no positive resources, 100% is shown as left |
| Dashboard.DailyEntryEffect | src/pages/Dashboard.tsx:17-53 | a daily entry moves only its own allowance's balance, by its signed amount; an entry of 0 changes nothing |
| Dashboard.TogglePaidMovesCash | src/pages/Dashboard.tsx:43-53 | marking a unique unpaid expense paid lowers remaining cash by its amount, and the reverse raises it |
| Dashboard.UnpaidAddKeepsCash | src/pages/Dashboard.tsx:43-53 | a newly added (unpaid) fixed expense leaves remaining cash unchanged |
| Dashboard.ResetRestoresCash | src/pages/Dashboard.tsx:41-53 | after a reset, remaining cash is income + rollover + every cash amount |
| Dashboard.DebtFigure | src/pages/Dashboard.tsx:55 | adding a line raises the credit-card figure by exactly its amount |
| Dashboard.BarMatchesPercentage | src/pages/Dashboard.tsx:59-108 | the bar is always defined, and shows the displayed percentage while spending stays within positive resources |
| Gold.TotalValue | src/pages/Gold.tsx:32-35 | with no negative holding or price the total is never negative, and no holdings are worth 0 at any price |
| Gold.HandlePortfolioChange | src/pages/Gold.tsx:18-21 | the edited holding takes the number, or 0 for an empty field; the others are unchanged |
| Gold.HandlePriceChange | src/pages/Gold.tsx:27-30 | the edited price takes the number, or 0 for an empty field; the others are unchanged and the change is stamped |
| Gold.PortfolioChangeDelta | src/pages/Gold.tsx:18-35 | changing a holding moves the total by the change times its price |
| Gold.PriceChangeDelta | src/pages/Gold.tsx:27-35 | changing a price moves the total by the change times the holding |
| FixedExpensesPage.SubmitFixed | src/pages/FixedExpenses.tsx:33-39 | an empty title or amount adds nothing; otherwise one unpaid expense is added and the form is cleared |
| FixedExpensesPage.SubmitFixedTotals | src/pages/FixedExpenses.tsx:33-42 | a submission raises the total by the amount (or not at all when refused) and never changes the paid sum |
| FixedExpensesPage.SaveIncome | src/pages/FixedExpenses.tsx:25-27 | the typed income is saved, or 0 for an empty field |
| FixedExpensesPage.SaveRollover | src/pages/FixedExpenses.tsx:29-31 | the typed rollover is saved, or 0 for an empty field |
| FixedExpensesPage.TotalCountsPaidAndUnpaid | src/pages/FixedExpenses.tsx:41-42 | the total is paid plus unpaid, and toggling keeps it |
| FixedExpensesPage.ToggleKeepsTotal | src/pages/FixedExpenses.tsx:41 | toggling any id keeps the total |
| DebtPage.SubmitDebt | src/pages/Debt.tsx:11-17 | an empty description or amount adds nothing; otherwise one line without installment details is added and both inputs are cleared |
| DebtPage.SubmitDebtTotal | src/pages/Debt.tsx:11-19 | a successful submission raises the total by exactly the amount |
| DailyPage.SignedAmount | src/pages/DailyExpenses.tsx:23-24 | the stored amount has the typed magnitude, never positive for an expense and never negative for an income |
| DailyPage.SubmitDaily | src/pages/DailyExpenses.tsx:19-36 | an empty description or amount adds nothing; otherwise one entry is added and description and amount are cleared, date and type kept |
| DailyPage.SubmitDailySign | src/pages/DailyExpenses.tsx:19-31 | an expense moves its allowance's net by minus the typed magnitude and never adds income; an income moves it by plus that magnitude and never adds spending |
| DailyPage.ChooseType | src/pages/DailyExpenses.tsx:116-123 | choosing a type sets the active tab to the same type and changes nothing else |
| DailyPage.ChooseTab | src/pages/DailyExpenses.tsx:142-151 | choosing a tab changes only the active tab |
| DailyPage.Filtered | src/pages/DailyExpenses.tsx:38 | every kept entry has the active type, and every entry of that type is kept |
| DailyPage.FilteredAppend | src/pages/DailyExpenses.tsx:38 | filtering distributes over concatenation, so ledger order is kept |
| DailyPage.FilteredNet | src/pages/DailyExpenses.tsx:38 | a tab's entries carry all of its net flow and none of the other allowance's |
| DailyPage.WithDate | src/pages/DailyExpenses.tsx:41-48 | the entries of one date: all of them, and only them |
| DailyPage.WithDateAppend | src/pages/DailyExpenses.tsx:41-48 | selecting a date distributes over concatenation, so order is kept |
| DailyPage.Dates | src/pages/DailyExpenses.tsx:51 | the group keys, each once |
| DailyPage.GroupedByDate | src/pages/DailyExpenses.tsx:41-48 | there is a group for exactly the dates that occur, holding exactly that date's entries in ledger order |
| DailyPage.GroupedKeys | src/pages/DailyExpenses.tsx:41-48 | a group exists for a date iff some entry carries that date |
| DailyPage.GroupedContents | src/pages/DailyExpenses.tsx:41-48 | each group holds exactly the entries of its date in ledger order |
| DailyPage.SortedDates | src/pages/DailyExpenses.tsx:51-53 | each occurring date once, in strictly descending order |
| DailyPage.Pairs | src/pages/DailyExpenses.tsx:162-167 | each shown date is paired with its group, in date order |
| DailyPage.SortedDatesGrouped | src/pages/DailyExpenses.tsx:162-167 | every shown date has a group |
| DailyPage.View | src/pages/DailyExpenses.tsx:162-167 | the dates shown are strictly descending |
| DailyPage.ViewGroups | src/pages/DailyExpenses.tsx:38-53 | each shown group is non-empty and holds exactly the tab's entries of its date; every entry of the tab is shown under its date |

## Left out

- Spreadsheet library calls, the file reader, the download and the file name are left out. They are foreign calls and I/O; only the row lists are modelled.
- The JSON export and import of the settings screen are left out as I/O.
- Persisting to local storage is left out as I/O. Only the load merge rule (`Ledger.Load`) and the saved record are kept.
- Identifier generation (`crypto.randomUUID`, `Math.random`) becomes the `newId` parameters. The wall-clock month and the price timestamp become `defaultMonth` and `now`.
- The gold price hook's mocked fetch is left out. It is asynchronous and draws random prices.
- Rendering, routing, theming, and locale currency/date formatting are left out. They are presentation only.
- Month rollover, installment advancement, future-month projection and schema migration are left out. No modelled file implements them: the month reset only clears paid flags.
- Floating-point behaviour is not modelled; amounts are exact. Typed fractional money amounts (`parseFloat`) are not modelled.
- SheetImport.DecodeDaily: a daily row whose type is neither NAKIT nor YK is dropped. The source keeps it with that raw type. Such an entry belongs to no tab and counts in no sum, so no view or figure differs.
- SheetImport.OptionalNumber: a non-empty cell that `Text.ParseNumber` cannot read gives an absent counter here. The source gives `Number(cell)` instead. That is NaN for non-numeric text, 0 for whitespace-only text, and a number for the forms listed under `Text.ParseNumber`. Exported counters are always numbers or empty.
- Text.ParseNumber: reads only an optional `-` followed by decimal digits, and the empty text as 0. JavaScript's `Number` reads more texts as numbers, and the model reads all of them as NaN:
  - surrounding whitespace: `" 12 "` is 12, and a whitespace-only text is 0;
  - a leading `+`: `"+5"` is 5;
  - fractions and exponents: `"1.5"`, `"1e3"`;
  - hexadecimal, octal and binary literals: `"0x1F"` is 31;
  - `"Infinity"`.

  A hand-edited text cell of these forms therefore imports as the fallback value here. That cell is read at src/services/excelService.ts:253-299. `SheetRoundTrip.NonNumericReadsAsZero` is stated under this reading. Exported cells are numbers, so the round trip is unaffected.
- SheetImport.TextOf: a text column holding a number is rendered in decimal. The source keeps the raw number. Exported text columns are always text.
- SheetImport.EmptyImport: the imported state gets the store's initial limits, gold and prices. The source's imported object has none of those fields.
- DailyPage.SortedDates: dates are compared as strings. This matches calendar order only for well-formed `YYYY-MM-DD` dates. The source's comparison of invalid dates (NaN) is not modelled.
- Text.StrLt: `localeCompare` is modelled as code-point order. The two agree on `YYYY-MM` month names.
- SheetRoundTrip.WorkbookRoundTrip: holds for states whose sheet names the library accepts, whose entry ids are non-empty, and whose archived months are named `YYYY-MM`. An empty id is replaced on import, and another month name makes the sheet be skipped.
- SheetExport.ExportWorkbook: is total. The failure when the library refuses a sheet name is not modelled. Over-long current month names, forbidden characters and repeated archived months are kept out of the round trip by `SheetExport.SheetNamesAccepted` instead.
- Types.InitialState: the store's initial value (src/context/BudgetContext.tsx:6-15) has no current month, installments or history. The model gives them `""`, `[]` and `[]`. In the source, exporting a state that never received those fields fails at src/services/excelService.ts:80, which reads the length of the missing installment list. The model's export and `SheetRoundTrip.WorkbookRoundTrip` cover that state instead.

# FinancialTracker budget engine in Dafny

This project models the computational core of a personal-finance tracker with two front ends.

**The Qt window (`main_qt.py`, class `FinanceApp`).** It reads one month of figures from a form:
salary, phone bill, petrol money, annual rent, living expenses, and a debt amount of type personal
or housing. From these it derives:

- the monthly rent;
- a monthly debt payment, amortised at 7.49 % a year over 4 years (personal debt) or 25 years
  (housing debt);
- the total expenses, the remaining amount, the savings percentage, the savings and the invested
  amount.

It appends one entry per month to its list `data`. A live preview recomputes the savings
percentage on every edit. A growth projection compounds the stored invested amounts month by
month at a yearly rate. The window can also delete a selected entry or clear the whole list.

**The simpler ledger (`finance_logic.py`).** It keeps categorised transactions. It shows the share
of the amounts whose category is "savings" (ignoring case). It appends, deletes and (after
confirmation) clears transactions.

The model works over exact `real` numbers. Modules:

- `Common` (common.dfy): text-field parse outcomes (`Field`), `Option`/`Result`, `Pow`, `Sum`, and
  removal at an index.
- `Budget` (budget.dfy): debt amortisation, the month computation, the form parsing and the
  live preview, all as functions.
- `Growth` (growth.dfy): the projection loop, as a method proved against the recursive
  functions `ValueAfter` and `InvestedAfter`.
- `FinanceQt` (finance_qt.dfy): class `FinanceApp`, holding `data: seq<BudgetEntry>` and the
  savings-% label.
- `FinanceLogic` (finance_logic.dfy): the savings ratio, and class `LedgerApp` holding
  `data: seq<Transaction>` and its label.

Modelling choices:

- A text field read with Python's `float(...)` is a `Field`: `Blank` (the empty text), `Numeral(v)`,
  or `Malformed` (a text `float` rejects).
- `add_data` fails when any field is `Blank` or `Malformed`, because `float("")` raises. The
  failure is an error result, and the list stays unchanged.
- The preview reads `Blank` as 0. It shows 0 when any field is `Malformed`.
- `show_growth_graph` reads the period with `int(...)`, modelled as `Option<int>`.
- The savings formula is kept exactly as written: savings = remaining × (savings_pct / 100) =
  remaining² / salary.
- The code's monthly rate is the constant 0.0749 / 12, which is positive. So `add_data` always
  takes the annuity-formula branch. `Amortize` still models both branches for any rate.
- `Amortize` requires a positive number of months, since the only terms are 48 and 300 months.
  The preview's own `months > 0` guard is modelled as written.
- `delete_entry` takes the table's current row. That row is -1 when nothing is selected, and
  otherwise a row of the table. As long as the stored file loads cleanly, the table mirrors `data`
  one-to-one. Hence the precondition `row < |data|`.
- The window `FinanceApp` starts with an empty list and the label "0.00" (main_qt.py:18, 61). The
  ledger `LedgerApp` is modelled with a starting label of 0; the widget that creates that label is
  not part of this model, so its starting text is assumed.

## Model

| member | source | states |
|---|---|---|
| `Budget.TermsAndRate` | main_qt.py:162-165 | personal debt runs 48 months and housing debt 300, and the monthly rate is 0.0749/12, which is positive |
| `Budget.Amortize` | main_qt.py:166-169 | the monthly payment is zero for a zero debt and has the sign of the debt; the annuity formula is used for a positive rate and debt/months otherwise, with the denominator proved non-zero |
| `Budget.AmortizationPaysOff` | main_qt.py:166-169 | re-simulating the loan month by month (interest added, then the payment subtracted), the computed payment leaves a balance of exactly 0 after `months` payments, for both branches |
| `Budget.MonthlyDebt` | main_qt.py:162-169 | the payment `add_data` uses pays off either debt type exactly at the end of its term; it is 0 for no debt and positive for a positive debt |
| `Budget.ComputeMonth` | main_qt.py:161-175 | rent × 12 is the annual rent; expenses are phone + petrol + rent + living + debt payment; remaining is salary − expenses; savings % is 0 when salary ≤ 0 and otherwise 100·remaining/salary; savings % > 0 exactly when salary > 0 and remaining > 0; savings is 0 when savings % ≤ 0 and otherwise remaining²/salary; expenses + savings + invested = salary |
| `Budget.SavingsAndInvestedShares` | main_qt.py:172-175 | when salary and remaining are positive, invested × salary = remaining × expenses; with non-negative expenses, 0 < savings ≤ remaining and invested ≥ 0 |
| `Budget.SavingsPctAtMostHundred` | main_qt.py:171-173 | for a positive salary, savings % ≤ 100 exactly when the total expenses are non-negative |
| `Budget.ParseForm` | main_qt.py:151-159 | the form yields inputs exactly when all six numeric fields are numbers (an empty or non-numeric text makes `float` raise); the inputs are then exactly the six field values and the chosen debt type, each in its own place |
| `Budget.FilledInputs` | main_qt.py:222-228 | the preview's reading of each field (`OrZero`: an empty field as 0, a number as itself) agrees with `add_data`'s parsing whenever every field is filled |
| `Budget.PreviewSavingsPct` | main_qt.py:220-245 | the preview never fails and shows 0 when any field is not a number |
| `Budget.PreviewMatchesAddData` | main_qt.py:222-242 | with no malformed field, the preview equals the savings % that `add_data` computes with blanks as 0; for a filled form it is exactly the percentage `add_data` computes |
| `Common.RemoveAt` | main_qt.py:269 | `del s[i]` shortens the list by one, keeps the elements before `i`, and shifts those after it down by one, keeping their order |
| `Common.RemoveAtLosesOne` | main_qt.py:269 | the removed list plus the deleted element is the original multiset: nothing else is lost or added |
| `Growth.ValueAfter` | main_qt.py:313-321 | at a factor of exactly 1 (a zero rate) the compounded value equals the amount paid in, month by month |
| `Growth.MonthlyFactor` | main_qt.py:321 | the monthly factor 1 + cagr/12 is above 1 exactly for a positive rate and equals 1 exactly for a zero rate |
| `Growth.Project` | main_qt.py:310-323 | rejected exactly when the invested series is empty or the period ≤ 0; otherwise both series have length `period`, and element i equals the value and the invested total after i+1 months of the recursive specification |
| `Growth.InvestedIsPrefixSum` | main_qt.py:316-323 | with `Contribution` paying in month i's stored amount while the series lasts (main_qt.py:316-318), the cumulative invested amount after k months is the sum of the first min(k, length) stored amounts |
| `Growth.CompoundsPastEnd` | main_qt.py:317-321 | past the end of the data, where `Contribution` pays in nothing, the value after a further j months is the value times (1 + cagr/12)^j, and the invested total stays fixed |
| `Growth.ValueCoversInvested` | main_qt.py:313-323 | with non-negative amounts and factor ≥ 1, 0 ≤ invested total ≤ compounded value in every month |
| `Growth.StrictGrowth` | main_qt.py:313-323 | with a positive rate, non-negative amounts and a positive first amount, the value rises strictly every month and stays strictly above the invested total |
| `Growth.WorkedExample` | main_qt.py:313-323 | [100, 100] at 12 % over 3 months gives the invested series 100, 200, 200 and the values 101, 203.01, 205.0401 |
| `FinanceQt.MakeEntry` | main_qt.py:196-203 | the stored entry carries the month and salary, the computed expenses and savings, and expenses + savings + invested = salary |
| `FinanceQt.InvestedSeries` | main_qt.py:309 | the invested column of the stored entries, element by element |
| `FinanceQt.FinanceApp.constructor` | main_qt.py:18-61 | when there is no stored file, a new window starts with an empty list and the label at 0 |
| `FinanceQt.FinanceApp.ClearDatabase` | main_qt.py:144-148 | the list becomes empty and the label is unchanged |
| `FinanceQt.FinanceApp.AddData` | main_qt.py:150-209 | on unreadable input: an error, and the list and the label are unchanged; otherwise exactly one entry is appended at the end, earlier entries are unchanged, and the label shows the entry's savings %; keeps every entry balanced |
| `FinanceQt.FinanceApp.UpdateSavingsPct` | main_qt.py:220-245 | the label shows the preview value, and the list is unchanged |
| `FinanceQt.FinanceApp.DeleteEntry` | main_qt.py:263-270 | a negative row changes nothing; otherwise exactly the element at `row` is removed; keeps every entry balanced |
| `FinanceQt.FinanceApp.ShowGrowthGraph` | main_qt.py:305-323 | an unreadable rate or period gives an input error; otherwise it fails exactly when there is no data or the period is ≤ 0, that failure is the no-data-or-invalid-period error, and else it gives the projection of the stored invested amounts at factor 1 + (cagr/100)/12 |
| `FinanceLogic.LowerChar` | finance_logic.py:54 | upper-case ASCII letters map to their lower-case letters, every other character is unchanged, and the result is never an upper-case letter |
| `FinanceLogic.Lower` | finance_logic.py:54 | lower-casing keeps the length and maps each character |
| `FinanceLogic.IsSavings` | finance_logic.py:54 | a category is savings exactly when it has seven characters and each lower-cases to the letter of "savings" at its place |
| `FinanceLogic.LowerIdempotent` | finance_logic.py:54 | lower-casing twice is lower-casing once |
| `FinanceLogic.SavingsIgnoresCase` | finance_logic.py:54 | a category counts as savings exactly when its lower-cased form does |
| `FinanceLogic.SavingsSpellings` | finance_logic.py:54 | "savings", "Savings" and "SAVINGS" count as savings; "saving" and "Savings " do not |
| `FinanceLogic.Amounts` | finance_logic.py:53 | the amounts of the list, one per transaction, in order |
| `FinanceLogic.TotalAmount` | finance_logic.py:53 | the sum of the amounts (`Common.Sum` over `Amounts`) is not negative when no amount is |
| `FinanceLogic.SavingsOnly` | finance_logic.py:54 | the selected transactions all have a savings category and all come from the list; every transaction of the list with a savings category is selected; a list of savings only is kept whole |
| `FinanceLogic.SavingsOnlyAppend` | finance_logic.py:54 | the selection keeps order and multiplicity: appending a transaction appends it to the selection exactly when its category is savings |
| `FinanceLogic.SavingsAmount` | finance_logic.py:54 | the sum over the savings transactions is 0 when no category is savings and the whole total when every category is |
| `FinanceLogic.Percent` | finance_logic.py:53-55 | `SavingsPct` is `Percent` of `SavingsAmount` over `TotalAmount`: the percentage is 0 when the total is ≤ 0, and otherwise percentage × total = 100 × the savings amount; `SavingsPctInRange` bounds it |
| `FinanceLogic.SavingsWithinTotal` | finance_logic.py:53-54 | with non-negative amounts, 0 ≤ the savings amount ≤ the total |
| `FinanceLogic.SavingsPctInRange` | finance_logic.py:53-55 | with non-negative amounts and a positive total, the percentage lies in [0, 100] |
| `FinanceLogic.SumsAppend` | finance_logic.py:53-54 | appending a transaction adds its amount to the total, and to the savings amount exactly when its category is savings |
| `FinanceLogic.LedgerApp.constructor` | finance_logic.py:14-15 | the ledger starts empty when there is no stored file |
| `FinanceLogic.LedgerApp.UpdateSavingsPct` | finance_logic.py:52-56 | the label shows the savings percentage of the current list, and the list is unchanged |
| `FinanceLogic.LedgerApp.AddData` | finance_logic.py:32-42 | an unreadable amount changes nothing; otherwise one transaction is appended at the end, earlier ones are unchanged, and the label is recomputed |
| `FinanceLogic.LedgerApp.DeleteEntry` | finance_logic.py:62-68 | a negative row changes nothing; otherwise exactly index `row` is removed and the label is recomputed |
| `FinanceLogic.LedgerApp.ClearDatabase` | finance_logic.py:24-30 | the list becomes empty only when the user confirms, and is unchanged otherwise; the label is not recomputed |

## Left out

- Persistence is not modelled, because it is file I/O: JSON load and save, the removal of the data file, and the `save_data` calls after each change (main_qt.py:127-148, finance_logic.py:10-22). Saves are assumed to succeed: `save_data` in finance_logic.py has no `try` (finance_logic.py:20-22) and runs before `update_savings_pct` (finance_logic.py:41-42, 67-68), so a failed write would leave `data` changed and the label stale, whereas `LedgerApp.AddData` and `LedgerApp.DeleteEntry` always recompute the label.
- The Qt widgets, the table mirroring `data`, the message boxes and the signal wiring are not modelled, because they are presentation. The confirmation dialog of `finance_logic.clear_database` becomes a `confirmed` parameter.
- The computation log of each entry (its `Log` field) and all `.2f` formatting are not modelled. `BudgetEntry` has no log field, because the log is text formatting only.
- The labels `final_value_label` and `total_invested_label` that `show_growth_graph` sets (main_qt.py:337-338) are not modelled separately: they show the last elements of the returned `Projection`'s `growth` and `cumulative`, which exist because the period is positive.
- `show_logs`, `show_chart`, `export_pdf`, and the plotting part of `show_growth_graph`, are rendering (matplotlib, fpdf) and are not modelled.
- binance_dashboard.py, ui.py and run.py are not part of this model. They are network calls, widget construction and start-up code. No portfolio valuation code exists in these files.
- IEEE floating point is not modelled. Rounding, overflow, infinities and NaN are out of scope; the model computes over exact reals.
- Parsing is reduced to its outcome. Which texts `float(...)` and `int(...)` accept is not modelled: only whether a field is empty, a number, or rejected.
- FinanceLogic.Lower: lower-cases only the ASCII letters, not the whole of Unicode. This is exact for the comparison with "savings": no other character lower-cases to a single one of its letters.
- FinanceLogic.LowerChar: maps only 'A' to 'Z' to 'a' to 'z' and leaves every other character alone, for the same reason as `Lower`.
- A stored file whose entries lack a field is not modelled: `load_data` (main_qt.py:131-135) may then have put rows into the table before it resets `data` to the empty list, so the table no longer mirrors `data`, and `delete_entry` on such a row fails at `del self.data[row]` (main_qt.py:268-269). `FinanceQt.FinanceApp.DeleteEntry` requires a row inside `data`, which holds whenever the file loads cleanly.
- The round trip of the stored list through the JSON file is not modelled, because the file store is outside the model.

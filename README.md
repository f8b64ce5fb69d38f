# Student expense tracker: a verified model of its logic

This project models the Student Expense Tracker, a browser app for logging
expenses. An expense record has an id, a title, an amount, a category and a
`YYYY-MM-DD` date. The model covers the app's logic and leaves out its
rendering:

- **The folds behind the two summary panels** (`Chart.js`, `ExpenseList.js`):
  - category totals and monthly totals;
  - the total spent, the average and the item count;
  - the number of distinct categories and this month's total;
  - the top category.
- **The in-memory record store** (`mockApi.js`): add, replace by id, and
  delete by id.
- **The App component's state** (`App.js`): the record list, the record
  being edited, and the handlers that mirror the store's changes in that list.
- **The add-expense form** (`ExpenseForm.js`): its fields and error line,
  validation, reset after a successful add, and single-field edits.

Modules, one per source file plus two shared ones:

| module | file | models |
|---|---|---|
| `Records` | records.dfy | the record type; the by-id look-up, replace and remove that the store and the App share |
| `Folds` | folds.dfy | the `reduce` folds shared by the two panels: grand total, grouping by category or month |
| `Chart` | chart.dfy | `Chart.js`: doughnut labels/values/colours, monthly totals, average, category count, this month's total |
| `ExpenseList` | expense_list.dfy | `ExpenseList.js`: total, item count, top category |
| `Api` | mock_api.dfy | `mockApi.js`: the store, as class `MockApi` with a `seq` field changed in place |
| `AppState` | app.dfy | `App.js`: class `App` holding the list and the record being edited |
| `Form` | expense_form.dfy | `ExpenseForm.js`: class `ExpenseForm` holding the form data and the error |

How the source's types and operations are represented:

- **Amounts** are `real`, so every sum identity holds exactly.
- **Ids** are integers. Only equality is ever applied to them.
- **Accumulator objects.** A plain object used as an accumulator
  (`acc[k] = (acc[k] || 0) + v`) is a list of key/value entries. Its keys are
  distinct and in first-insertion order. This is the order `Object.keys`,
  `Object.values` and `Object.entries` return for keys that are not array
  indices, such as category names and `YYYY-MM` strings.
- **Folds.** Every `reduce` is written as a recursive function that peels off
  the last record, which matches a left-to-right fold.
- **Store and handlers.** Each store call and each App handler is one atomic
  step.
- **Nondeterministic inputs.** The new record's id, the current date and the
  outcome of the form's add callback are parameters.

Behaviour of the code that is easy to get wrong:

- **Top category on a tie.** `ExpenseList.js:11` keeps the left entry only
  when it is strictly larger. So on a tie the top category is the **last**
  tied category in first-seen order, not the first.
- **Updating an unknown id.** The store does not fail. It changes nothing and
  resolves to `undefined` (`None` here).
- **Deleting an unknown id.** It still resolves `true`.
- **What is enforced.** Nothing outside the form checks that an amount is
  positive or that a category is one of the six choices. Ids are not
  guaranteed unique either. The model therefore states id uniqueness as
  something each operation preserves, and for add only when the new id is
  fresh.

## Model

| member | source | states |
|---|---|---|
| `Records.WithId` | Student-Exp-Tracker/js/mockApi.js:10-14 | a stored record carries exactly the submitted fields plus the given id |
| `Records.FindIndex` | Student-Exp-Tracker/js/mockApi.js:23 | `findIndex` is -1 exactly when no record has the id; otherwise it is the first position holding it |
| `Records.ReplaceId` | Student-Exp-Tracker/js/App.js:18 | the `map` keeps the length; each position holds the new record if its id matched, else the old record |
| `Records.RemoveId` | Student-Exp-Tracker/js/App.js:23 | the `filter` keeps exactly the records whose id differs, never grows the list, and leaves no record with the id |
| `Records.RemoveIdConcat` | Student-Exp-Tracker/js/mockApi.js:38 | removal distributes over concatenation, so kept records stay in their relative order |
| `Records.RemoveAbsentId` | Student-Exp-Tracker/js/mockApi.js:38 | deleting an id no record has leaves the list unchanged |
| `Records.ReplaceAbsentId` | Student-Exp-Tracker/js/App.js:18 | replacing an id no record has leaves the list unchanged |
| `Records.IdsAppend` | Student-Exp-Tracker/js/mockApi.js:15 | appending a record appends its id to the list of ids |
| `Records.ReplaceIdKeepsIds` | Student-Exp-Tracker/js/App.js:18 | replacing by id with a record keeping that id leaves the ids, in order, unchanged |
| `Records.RemoveIdSameIds` | Student-Exp-Tracker/js/App.js:23 | two lists with the same ids still have the same ids after both drop the same id |
| `Records.RemoveIdKeepsUnique` | Student-Exp-Tracker/js/mockApi.js:38 | delete preserves id uniqueness |
| `Records.ReplaceIdKeepsUnique` | Student-Exp-Tracker/js/App.js:18 | replacing by id with a record keeping that id preserves id uniqueness |
| `Records.AppendFreshKeepsUnique` | Student-Exp-Tracker/js/mockApi.js:12-15 | pushing a record preserves id uniqueness when its id is fresh |
| `Records.StoreUpdateIsReplaceId` | Student-Exp-Tracker/js/mockApi.js:23-29 | with unique ids, the store's overwrite at `findIndex` equals the App's `map` replace |
| `Folds.MonthKey` | Student-Exp-Tracker/js/Chart.js:77 | `substring(0, 7)` is a prefix of the date, 7 long or the whole shorter date |
| `Folds.Total` | Student-Exp-Tracker/js/Chart.js:82 | the sum of amounts is 0 for no records and never negative when no amount is |
| `Folds.TotalConcat` | Student-Exp-Tracker/js/ExpenseList.js:2 | the total of a concatenation is the sum of the totals |
| `Folds.WhereMembers` | Student-Exp-Tracker/js/Chart.js:16 | a record is filed under `k` iff it is in the list and its key is `k` |
| `Folds.Keys` | Student-Exp-Tracker/js/Chart.js:20 | `Object.keys` lists each entry's key in order |
| `Folds.Values` | Student-Exp-Tracker/js/Chart.js:21 | `Object.values` lists each entry's value in order |
| `Folds.Lookup` | Student-Exp-Tracker/js/Chart.js:16 | `acc[k] \|\| 0` is 0 for a missing key |
| `Folds.AddTo` | Student-Exp-Tracker/js/Chart.js:16 | an existing key keeps its place and grows by the amount; a new key is appended; other keys' values and order are unchanged; the value sum grows by the amount |
| `Folds.AddToKeepsDistinct` | Student-Exp-Tracker/js/Chart.js:16 | the accumulator never gets two entries for one key |
| `Folds.CategoryTotals` | Student-Exp-Tracker/js/ExpenseList.js:5-8 | one entry per occurring category, each once, no more entries than records, and none exactly when there are no records |
| `Folds.MonthlyTotals` | Student-Exp-Tracker/js/Chart.js:76-80 | one entry per occurring `YYYY-MM` prefix of a date, each once, no more entries than records, and none exactly when there are no records |
| `Folds.GroupTotals` | Student-Exp-Tracker/js/Chart.js:15-18 | the grouping fold has distinct keys and no more entries than records |
| `Folds.GroupTotalsKeys` | Student-Exp-Tracker/js/Chart.js:15-18 | its key set is exactly the keys occurring in the records; it is empty iff the input is |
| `Folds.GroupTotalsSum` | Student-Exp-Tracker/js/ExpenseList.js:5-8 | the per-key totals add up to the grand total |
| `Folds.GroupTotalsLookup` | Student-Exp-Tracker/js/Chart.js:15-18 | the value under each key is the total of the records with that key (0 if none) |
| `Folds.GroupTotalsSnoc` | Student-Exp-Tracker/js/Chart.js:16 | appending a record adds its amount to its key's entry and leaves every other entry unchanged |
| `Folds.GroupTotalsAt` | Student-Exp-Tracker/js/Chart.js:20-21 | each position's value is the total of the records with that position's key |
| `Chart.CategoryDataset` | Student-Exp-Tracker/js/Chart.js:20-33 | labels are exactly the occurring categories, each once; `data[i]` is the total of `labels[i]`; the colour slice has min(labels, 8) palette colours |
| `Chart.MonthlyTotalsSum` | Student-Exp-Tracker/js/Chart.js:76-80 | the monthly totals add up to the grand total |
| `Chart.Average` | Student-Exp-Tracker/js/Chart.js:83 | the average is 0 for no records, and otherwise times the count gives the total; it lies between 0 and the total when no amount is negative |
| `Chart.SeenCategories` | Student-Exp-Tracker/js/Chart.js:105-108 | the flag fold has no more keys than records and is empty iff the input is |
| `Chart.SeenCategoriesAreCategoryKeys` | Student-Exp-Tracker/js/Chart.js:105-108 | the flag fold's keys are the category totals' keys, in the same order |
| `Chart.CategoryCount` | Student-Exp-Tracker/js/Chart.js:105-108 | the distinct-category count is at most the record count and is 0 iff there are no records |
| `Chart.InMonth` | Student-Exp-Tracker/js/Chart.js:115 | the filter keeps exactly the records whose date starts with the month |
| `Chart.ThisMonthTotal` | Student-Exp-Tracker/js/Chart.js:114-117 | this month's total is 0 for no records and never negative when no amount is |
| `Chart.InMonthTotalBounded` | Student-Exp-Tracker/js/Chart.js:114-116 | with no negative amount, a month's filtered total is at most the grand total |
| `Chart.ThisMonthTotalBounded` | Student-Exp-Tracker/js/Chart.js:114-117 | the "This Month" card is between 0 and the "Total Spent" card |
| `Chart.InMonthIsWhereMonth` | Student-Exp-Tracker/js/Chart.js:115 | for a 7-character month, `startsWith` selects the same records as the month key |
| `Chart.ThisMonthTotalIsMonthlyEntry` | Student-Exp-Tracker/js/Chart.js:114-117 | this month's total equals the current month's monthly-totals entry |
| `ExpenseList.Pick` | Student-Exp-Tracker/js/ExpenseList.js:11 | the reducer returns one of its arguments and a largest one; it keeps the left one only when that is strictly larger |
| `ExpenseList.TopEntry` | Student-Exp-Tracker/js/ExpenseList.js:11 | the reduce over entries returns an entry of the input with a total no smaller than any other |
| `ExpenseList.TopEntryIsLastMaximal` | Student-Exp-Tracker/js/ExpenseList.js:11 | every entry after the chosen one has a strictly smaller total |
| `ExpenseList.TopCategory` | Student-Exp-Tracker/js/ExpenseList.js:10-12 | `'None'` for no records, otherwise a category that occurs |
| `ExpenseList.TopCategoryIsMaximal` | Student-Exp-Tracker/js/ExpenseList.js:11 | the top category's total is at least every occurring category's total |
| `ExpenseList.TopCategoryTieBreak` | Student-Exp-Tracker/js/ExpenseList.js:11 | every category first seen after the top one has a strictly smaller total (ties go to the last) |
| `ExpenseList.TopCategoryNoneIffEmpty` | Student-Exp-Tracker/js/ExpenseList.js:10-12 | the top category is `'None'` iff the list is empty, when no record is filed under `None` |
| `ExpenseList.TopCategoryOfOneCategory` | Student-Exp-Tracker/js/ExpenseList.js:11 | when every record has category c, the top category is c |
| `ExpenseList.Summarize` | Student-Exp-Tracker/js/ExpenseList.js:2-24 | the item count is the record count; the total equals the sum of the category totals; an empty list shows 0, 0, `'None'` |
| `Api.MockApi.constructor` | Student-Exp-Tracker/js/mockApi.js:3 | the store starts empty |
| `Api.MockApi.GetAllExpenses` | Student-Exp-Tracker/js/mockApi.js:4-6 | returns a copy equal to the store's list and changes nothing |
| `Api.MockApi.AddExpense` | Student-Exp-Tracker/js/mockApi.js:7-19 | appends the record with the new id, returns it, keeps the earlier records, and keeps ids unique if the id is fresh |
| `Api.MockApi.UpdateExpense` | Student-Exp-Tracker/js/mockApi.js:20-34 | for a present id, overwrites only the first match with the fields and the same id and returns it; for an absent id, changes nothing and returns nothing; length, ids and uniqueness are kept |
| `Api.MockApi.DeleteExpense` | Student-Exp-Tracker/js/mockApi.js:35-42 | keeps exactly the records without the id, in order; leaves the list unchanged for an absent id; keeps ids unique; always returns true |
| `AppState.App.constructor` | Student-Exp-Tracker/js/App.js:4-5 | the list starts empty and nothing is being edited |
| `AppState.App.Load` | Student-Exp-Tracker/js/App.js:7-9 | the list becomes the store's list, so both hold the same ids |
| `AppState.App.HandleAddExpense` | Student-Exp-Tracker/js/App.js:11-14 | store and list each gain the new record at the end; both keep holding the same ids; the copies stay equal when the id is fresh |
| `AppState.App.HandleUpdateExpense` | Student-Exp-Tracker/js/App.js:16-19 | the store overwrites its first match and the list maps every match to the new record; an absent id changes neither; both keep holding the same ids; equal copies with unique ids stay equal |
| `AppState.App.HandleDeleteExpense` | Student-Exp-Tracker/js/App.js:21-24 | store and list both drop every record with the id; both keep holding the same ids; equal copies with unique ids stay equal |
| `AppState.App.HandleEditExpense` | Student-Exp-Tracker/js/App.js:26-28 | sets the record being edited and leaves the list unchanged |
| `Form.DefaultForm` | Student-Exp-Tracker/js/ExpenseForm.js:4-9 | the initial and reset form has an empty title and amount, category Food, dated today |
| `Form.DefaultCategoryIsOffered` | Student-Exp-Tracker/js/ExpenseForm.js:12 | the six category choices are distinct and include the default Food |
| `Form.Trim` | Student-Exp-Tracker/js/ExpenseForm.js:18 | `trim()` is empty iff the string is all white space; otherwise it starts and ends with a non-space |
| `Form.IsValid` | Student-Exp-Tracker/js/ExpenseForm.js:18 | a submit is rejected iff the title is blank, the amount is missing, or the amount is not positive |
| `Form.Submission` | Student-Exp-Tracker/js/ExpenseForm.js:24-27 | the callback receives the untrimmed entered fields with the amount as a number |
| `Form.WithField` | Student-Exp-Tracker/js/ExpenseForm.js:39-44 | a change sets the named field to the value and leaves the other three unchanged |
| `Form.WithFieldLaws` | Student-Exp-Tracker/js/ExpenseForm.js:39-44 | changes to different fields commute; a later change to the same field overrides |
| `Form.ExpenseForm.constructor` | Student-Exp-Tracker/js/ExpenseForm.js:4-10 | the form starts at the defaults with no error |
| `Form.ExpenseForm.HandleSubmit` | Student-Exp-Tracker/js/ExpenseForm.js:14-37 | invalid: sets the validation error, calls nothing, keeps the data. Valid: calls back with the data, then resets with no error on success, or keeps the data with the failure error |
| `Form.ExpenseForm.HandleChange` | Student-Exp-Tracker/js/ExpenseForm.js:39-44 | applies the one-field change and leaves the error unchanged |

## Left out

- Rendering is not modelled: the JSX, React hook plumbing, `ReactDOM.render` and the `window.*` globals.
- The Chart.js library is not modelled: creating and destroying the chart, its options, the tooltip percentage and the `toFixed` formatting are foreign code and floating-point text formatting.
- Timers and promises are not modelled: every store call and every handler is one synchronous, atomic step.
- Nondeterministic inputs are parameters: the id from `Date.now() + Math.random()`, today's date and the current month from `new Date()`, and whether the add callback throws.
- String-to-number conversion is not modelled. `parseFloat`, `Number` and JavaScript's coercion in `amount <= 0` are replaced by an amount that is already parsed. In the form it is `None` for an empty input.
- IEEE double rounding is not modelled: amounts are exact reals.
- The optional `description` field is not modelled. It is only displayed, and the form never sets it.
- The filtering and sorting views and the `MonthlySummary` component are not part of this model (`MonthlySummary` is only referenced at `App.js:55`).
- The edit flow is not modelled. `App` passes `onUpdateExpense`, `editingExpense` and `setEditingExpense` to the form, but the form reads only `onAddExpense` and `loading`. Only `handleEditExpense`'s state change is modelled.
- The form's `loading` prop (it only disables the button) and `e.preventDefault()` are not modelled.
- AppState.App.HandleUpdateExpense: requires that if the App's list holds a record with the id, the store holds one too. Otherwise the source's `map` writes `undefined` into the list, which a list of records cannot hold. Every handler keeps the two lists holding the same ids in the same order (`AppState.App.SameIds`), even when ids repeat, and `Load` establishes it, so this precondition always holds. The lists themselves stay equal only while ids are unique: with a repeated id the store overwrites only the first match, while the list maps every match.
- Array-index keys are not modelled. `Object.keys` lists keys such as `"0"` or `"42"` first, in ascending numeric order; the model keeps every key in first-insertion order. The label order of `Chart.CategoryDataset` and the tie rule of `ExpenseList.TopCategoryTieBreak` therefore match the source only when no category is an array index. In the app that always holds, since the form offers six category names and months are `YYYY-MM`.
- ExpenseList.TopCategoryNoneIffEmpty: a result of `'None'` implies an empty list only when no record has the category `None`. A category with that name would collide with the sentinel.

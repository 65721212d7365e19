# Expense ledger page — Dafny model

This project models the logic of the expense page of a small Angular ledger client:

- the list view state of `ExpenseComponent`: the rows last loaded from the server, the category filter, and the total shown under the table;
- the add/edit dialog `ExpenseDialogComponent`: form seeding, validators, and the draft handed back on save or cancel;
- the add, edit and delete handlers: which gateway call a dialog result or a confirmation leads to, and what a success or failure does to the list.

Everything is pure functions over immutable datatypes.

- **Expense rows.** `Model.Expense` holds an optional `id`, a description, an `amount` (a Dafny `real`), the date text and the category text. `Model.Category` holds the five select values. These are the German literals `Lebensmittel`, `Transport`, `Freizeit`, `Rechnungen` and `Sonstiges`.
- **List state.** `ExpenseList.ListState` holds `dataSource.data`, `dataSource.filter` and `totalAmount`. The filter predicate compares `category.trim().toLowerCase()` with `filter.trim().toLowerCase()`. The `Text` module models these two string operations.
- **The form.** `ExpenseDialog.Form` is the form group's value. `null` becomes `None`. A JavaScript `Date` is an opaque `Model.Instant`. The clock (`new Date()`), date parsing (`new Date(text)`) and `toISOString().split('T')[0]` are parameters.
- **The gateway.** The expense service is abstract. A mutation's `Mutations.Outcome` is `Failure` or `Success(reload)`. The `reload` is the answer to the follow-up `getAll()`: `Loaded(rows)` or `LoadFailed`.
- **The invariant.** The central property is `Consistent`: the total equals the sum of the shown rows. It holds after every filter change, reload and mutation (`Mutations.TotalAlwaysMatchesView`).

Facts about the code that the model keeps:

- The categories are the German literals `Lebensmittel`, `Transport`, `Freizeit`, `Rechnungen` and `Sonstiges`.
- The description is not trimmed before the required check, so a description of only spaces is accepted.
- The amount must be at least 0.01. An amount of 0 on an existing expense seeds an empty amount control.
- In the list, a category is free text. Only the select restricts input to the five values, and a seeded form keeps whatever category the row had.
- A failed create, update or delete has no error handler. Nothing changes and no notice is shown.
- The success notice is shown even when the follow-up reload fails.
- The filter string is stored untrimmed. A selection of only spaces is therefore a non-empty filter, and it matches the rows whose category trims to "".

## Model

| member | source | states |
|---|---|---|
| Text.TrimStart | src/app/expense/expense.component.ts:105 | Leading whitespace is dropped: what is dropped is all whitespace, and the rest does not start with whitespace |
| Text.TrimEnd | src/app/expense/expense.component.ts:105 | Trailing whitespace is dropped: what is dropped is all whitespace, and the rest does not end with whitespace |
| Text.Trim | src/app/expense/expense.component.ts:105 | `trim()` gives "" exactly for all-whitespace text; otherwise the result neither starts nor ends with whitespace |
| Text.TrimOfPadded | src/app/expense/expense.component.ts:105 | Whitespace padding of any length on either side does not change the trimmed text |
| Text.TrimUnpadded | src/app/expense/expense.component.ts:105 | Text without leading or trailing whitespace is left unchanged by `trim()` |
| Text.ToLower | src/app/expense/expense.component.ts:105 | `toLowerCase()` keeps the length and lower-cases every character in place |
| Text.TrimStartLower | src/app/expense/expense.component.ts:105 | Dropping leading whitespace and lower-casing can be done in either order |
| Text.TrimEndLower | src/app/expense/expense.component.ts:105 | Dropping trailing whitespace and lower-casing can be done in either order |
| Text.TrimLower | src/app/expense/expense.component.ts:105 | `trim()` and `toLowerCase()` can be applied in either order |
| Text.LowerIdempotent | src/app/expense/expense.component.ts:105 | Lower-casing already lower-cased text changes nothing |
| Model.ParseCategory | src/app/expense/dialog/expense-dialog.component.ts:60-66 | Only the five option values read back as a category, and each reads back as the category whose value it is |
| Model.LiteralRoundTrip | src/app/expense/dialog/expense-dialog.component.ts:60-66 | Every option value reads back as its own category and is non-empty |
| ExpenseList.Key | src/app/expense/expense.component.ts:104-105 | The compared form `trim().toLowerCase()` is no longer than the text, is empty exactly for all-whitespace text, and holds no upper-case ASCII letter |
| ExpenseList.Matches | src/app/expense/expense.component.ts:104-105 | The filter predicate compares the normalised category with the normalised filter; a blank category can only match a blank filter and the other way round |
| ExpenseList.View | src/app/expense/expense.component.ts:103-108 | `filteredData`: with no selection the whole list; otherwise a subsequence of the list, in list order, of rows that match the selection |
| ExpenseList.Sum | src/app/expense/expense.component.ts:113-115 | The `reduce` total starts from 0 and adds left to right; over non-negative amounts it is non-negative |
| ExpenseList.Select | src/app/expense/expense.component.ts:104-106 | The filtered rows are a subsequence of the list (list order kept), and every one of them is accepted by the predicate |
| ExpenseList.SelectCounts | src/app/expense/expense.component.ts:104-106 | Each accepted row appears in the filtered rows as often as in the list; rejected rows do not appear |
| ExpenseList.SelectAppend | src/app/expense/expense.component.ts:104-106 | Filtering a concatenation is the concatenation of the filtered parts, in order |
| ExpenseList.SelectTotal | src/app/expense/expense.component.ts:113-115 | The sum over the filtered rows equals a reference sum of the accepted rows' amounts, computed without building the filtered list |
| ExpenseList.SumWhereAll | src/app/expense/expense.component.ts:113-115 | When every row is accepted, the reference sum is the sum of the whole list |
| ExpenseList.ViewTotal | src/app/expense/expense.component.ts:102-115 | For every list and filter string, the total of the shown rows equals the reference sum of the rows that filter shows |
| ExpenseList.ApplyFilter | src/app/expense/expense.component.ts:102-111 | `applyFilter` keeps the list, sets the filter to the selection, and sets the total to the reference sum, so total and view agree |
| ExpenseList.Reload | src/app/expense/expense.component.ts:95-99 | A loaded reply replaces the whole list and recomputes the total under the filter still in force; a failed reply changes nothing |
| ExpenseList.ViewOfSelection | src/app/expense/expense.component.ts:102-109 | An empty selection shows the full list in order; a non-empty one shows the selected rows; a row is shown iff it is in the list and matches (or the selection is empty) |
| ExpenseList.ClearFilterRestores | src/app/expense/expense.component.ts:107-110 | Clearing the filter after any selection shows the full list again, with the total of all rows |
| ExpenseList.EmptyViewTotal | src/app/expense/expense.component.ts:113-115 | In a consistent state with no rows shown, the total is 0 |
| ExpenseList.KeyOfLiteral | src/app/expense/expense.component.ts:105 | Each select value and its lower-case spelling both normalise to the lower-case spelling |
| ExpenseList.MatchIgnoresPadding | src/app/expense/expense.component.ts:105 | For every row and every filter string, whitespace padding of any length around the filter does not change whether the row matches |
| ExpenseList.KeyOfLowered | src/app/expense/expense.component.ts:105 | The normal form of lower-cased text is the normal form of the text |
| ExpenseList.MatchIgnoresCase | src/app/expense/expense.component.ts:105 | For every row and every filter string, lower-casing the filter does not change whether the row matches |
| ExpenseList.CategoryMatchIgnoresCaseAndPadding | src/app/expense/expense.component.ts:105 | A row with a select-value category matches the padded value and the lower-case value |
| ExpenseList.CategoryMatchSeparates | src/app/expense/expense.component.ts:105 | A row with a select-value category matches a select value iff it is the same category |
| ExpenseList.FirstOfTwoShown | src/app/expense/expense.component.ts:102-115 | With two rows of which only the first is accepted, the view is that row and the total is its amount |
| ExpenseList.FilterScenario | src/app/expense/expense.component.ts:102-115 | Rows Lebensmittel 12.50 and Transport 40, filtered by "lebensmittel": only the first row is shown and the total is 12.50 |
| CategoryColor.ColorAsWritten | src/app/expense/expense.component.ts:159-168 | The lookup as written returns a non-string exactly for the inherited `Object.prototype` member names; otherwise it returns one of the four colour strings |
| CategoryColor.Color | src/app/expense/expense.component.ts:159-168 | The colour lookup is total. Lebensmittel and Rechnungen give primary, Transport gives accent, Freizeit gives warn, and every other key gives '' |
| CategoryColor.ColorOfCategory | src/app/expense/expense.component.ts:160-166 | The colour of each of the five select values |
| CategoryColor.AsWrittenAgreesOutsidePrototype | src/app/expense/expense.component.ts:160-167 | The lookup as written and the intended lookup agree on every key that is not an inherited member name |
| CategoryColor.AsWrittenLeaksPrototype | src/app/expense/expense.component.ts:167 | For the key "toString" the lookup as written returns the inherited method, where the intended lookup gives '' |
| ExpenseDialog.Seed | src/app/expense/dialog/expense-dialog.component.ts:107-112 | A new form is description '', amount null, date now, category ''. An edit copies description and category, turns amount 0 into null, and sets the date to `new Date(date)` when the stored date is non-empty, otherwise to now |
| ExpenseDialog.Valid | src/app/expense/dialog/expense-dialog.component.ts:107-112 | `form.valid`: every control passes its validators (required text, required amount of at least 0.01, required date); a valid form has a positive amount and a date |
| ExpenseDialog.ChooseCategory | src/app/expense/dialog/expense-dialog.component.ts:60-66 | The select sets the category to the chosen option value, which passes the required check, and leaves the other controls alone |
| ExpenseDialog.OnSave | src/app/expense/dialog/expense-dialog.component.ts:119-131 | Save closes the dialog iff the form is valid. The draft keeps the seeded id, copies description, category and amount, and takes the date from `iso`. Its amount is at least 0.01 and its text fields are non-empty |
| ExpenseDialog.OnCancel | src/app/expense/dialog/expense-dialog.component.ts:115-117 | Cancel closes the dialog without a result |
| ExpenseDialog.SaveUnchangedRoundTrip | src/app/expense/dialog/expense-dialog.component.ts:107-131 | Opening a valid expense and saving it untouched gives the same expense, with its date passed through parse and iso; it is exactly the expense when that conversion returns the stored text |
| ExpenseDialog.SeededValidity | src/app/expense/dialog/expense-dialog.component.ts:107-112 | An opened expense's form starts valid iff description and category are non-empty and amount is at least 0.01; an amount of 0 starts invalid |
| ExpenseDialog.NewFormStartsInvalid | src/app/expense/dialog/expense-dialog.component.ts:107-112 | The form of a new expense starts invalid |
| ExpenseDialog.SmallAmountNeverSaved | src/app/expense/dialog/expense-dialog.component.ts:109-120 | An amount below 0.01 is never saved, whatever the other fields hold |
| ExpenseDialog.BlankDescriptionAccepted | src/app/expense/dialog/expense-dialog.component.ts:108 | A description of one space passes the required check, so the form saves when the other fields are valid |
| Mutations.Issue | src/app/expense/expense.component.ts:118-157 | No call is made iff the dialog result is absent or the delete is declined. Add creates the result, edit updates it keyed by the original expense's id, and delete deletes by the target's id |
| Mutations.Settle | src/app/expense/expense.component.ts:126-155 | On success the list is reloaded and the matching notice is shown (OK, 3000 ms). On failure the list is untouched and no notice is shown |
| Mutations.Mutate | src/app/expense/expense.component.ts:118-157 | Without a call or after a failure the state is unchanged. The filter never changes. The state changes only when a successful call's reload delivers rows, which then become the list. Consistency is preserved |
| Mutations.DeclinedDeleteChangesNothing | src/app/expense/expense.component.ts:150-157 | A declined delete makes no call and leaves list, filter and total unchanged |
| Mutations.CancelChangesNothing | src/app/expense/dialog/expense-dialog.component.ts:115-117 | Cancelling the add or edit dialog makes no call and changes nothing |
| Mutations.AddFlow | src/app/expense/expense.component.ts:118-131 | Saving the add dialog closes it iff the form is valid; the draft has no id and becomes a create call |
| Mutations.EditKeepsId | src/app/expense/expense.component.ts:134-147 | Saving the edit dialog on an expense gives a draft with that expense's id, sent as an update keyed by the same id |
| Mutations.SuccessReplacesList | src/app/expense/expense.component.ts:124-157 | A successful mutation whose reload arrives shows exactly the reloaded rows under the same filter, with the reference total and a notice |
| Mutations.TotalAlwaysMatchesView | src/app/expense/expense.component.ts:95-116 | From a consistent state, after any sequence of filter changes, reloads and mutations, the total equals the sum of the shown rows |
| Mutations.ReachableStatesConsistent | src/app/expense/expense.component.ts:80-99 | Starting from the empty page state, every reachable state is consistent |

## Left out

- The expense service is not modelled. It only builds URLs and HTTP verbs. Its calls are an abstract outcome: success with a reload reply, or failure.
- Server behaviour is not modelled: assigning ids, what a reload returns after a create, update or delete. So nothing is claimed about the contents of the list after a reload beyond "it is what the server sent".
- Angular and Material plumbing is not modelled: dependency injection, the dialog and snack-bar services, templates and styles. `filteredData` is taken to equal the filtered `data` at once, with no sort or paginator attached.
- The confirmation prompt's text is not modelled. `window.confirm` is a boolean input.
- The dialog's width and title are not modelled.
- Asynchrony and overlapping in-flight mutations are not modelled. Each mutation is one atomic step, and a reload is applied as it arrives.
- Text.ToLower: folds only ASCII A-Z. JavaScript's full Unicode case mapping is not modelled, because it needs the Unicode tables. The five category literals are ASCII.
- Model.Expense: amounts are exact `real`s. JavaScript floating-point rounding in `reduce` and in `Number(...)` is not modelled. `NaN` is not modelled either.
- ExpenseDialog.OnSave: the date is opaque. `new Date(text)` and `toISOString().split('T')[0]` are UTC-based parameters, and no claim is made that the calendar day survives them. An Invalid Date is not modelled: `required` would accept it and `toISOString` would throw.
- ExpenseDialog.Seed: assumes description and category are strings. An `undefined` field from the server, which `|| ''` would also turn into '', is not modelled.
- Form edits other than the category select are free. Any `Form` value can be reached by typing, so the lemmas quantify over every form.
- The smoke tests and the provider configuration are not modelled, because they contain no behaviour.

## Findings

| source | as written | input that shows it | evidently intended | confidence | as-written member | corrected member |
|---|---|---|---|---|---|---|
| src/app/expense/expense.component.ts:160-167 | the colour table is an object literal, so the lookup also finds inherited `Object.prototype` members, which are truthy and so are returned | `getCategoryColor('toString')` returns the `toString` function instead of a string | a total lookup of the five own keys, with '' for every other string | high; not executed | CategoryColor.ColorAsWritten (exhibited by CategoryColor.AsWrittenLeaksPrototype) | CategoryColor.Color |

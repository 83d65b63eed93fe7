# Expense tracker: a verified model of its ledger, add form and list view

The app is a small React expense tracker. It keeps one list of expense
records in a context provider. Its add page checks a title and an amount
before it appends a record. Its list page searches the records by title
and shows their total. This project models those three pieces in Dafny and
proves what each one guarantees.

- `expense_context.dfy` (module `ExpenseContext`) covers the ledger. A record
  is a JavaScript object, modelled as `map<string, Value>`, so the object
  spreads `{...a, ...b}` become Dafny's right-biased map union `a + b`. Each
  operation is a pure function on the list (append, filter-out, map-merge).
  The class `ExpenseStore` holds the list in a `seq` field, and its three
  methods replace that field as `setExpenses` does. The clock readings
  `Date.now()` and `new Date().toISOString()` are passed in as parameters.
- `add_expense_page.dfy` (module `AddExpensePage`) covers the form. The
  field checks and the `newErrors` object they build are specification
  functions. `CollectErrors` fills `newErrors` field by field. The class
  `AddForm` holds the page's state and has the submit step, the countdown
  tick and the two change handlers as methods. A successful submit calls
  `AddExpense` on the shared `ExpenseStore`.
- `expenses_list_page.dfy` (module `ExpensesListPage`) covers the list
  view: the title search, the total of the amounts and the date
  predicate, all as pure functions.
- `seqs.dfy`, `text.dfy` and `wrappers.dfy` hold the parts these three
  share. `seqs.dfy` has `filter` and subsequences. `text.dfy` has `trim`,
  `toLowerCase`, `includes` and `split(...)[0]`. `wrappers.dfy` has `Option`.

Amounts are whole cents. The amount box is either `Blank` (empty input) or
`Entered(cents)`, a value that has already been parsed. A JavaScript throw is
modelled as `None`, and so is a sum that turns into NaN. This covers the
search failing on a record without a string title, and the total failing
on a record without a numeric amount.

The list page cannot run as written. `filteredExpenses` is read at
src/pages/ExpensesListPage.js:14, before its declaration at line 24, and
`useState` is never imported. The search box's handler at line 58 calls
the search string as if it were a function. The model states what those
lines evidently intend: the search and the total computed over the
filtered list.

`editExpense` does not protect `id` or `date`. The merge at
src/context/ExpenseContext.js:41 overwrites both when the patch carries
them, and `EditCanRewriteIdAndDate` states that. `addExpense` accepts any
object. Only the add form checks its input.

Lengths follow JavaScript. `title.trim().length` counts UTF-16 code units,
so `Text.Utf16Length` counts two for a character outside the Basic
Multilingual Plane. A title of one letter and one emoji therefore passes
the three-character check.

## Model

| member | source | states |
|---|---|---|
| `ExpenseContext.ExpenseStore.constructor` | src/context/ExpenseContext.js:8 | the list starts empty |
| `ExpenseContext.ExpenseStore.AddExpense` | src/context/ExpenseContext.js:15-27 | the new list is `Added` of the old one, for the given clock readings |
| `ExpenseContext.ExpenseStore.DeleteExpense` | src/context/ExpenseContext.js:31-34 | the new list is `Deleted` of the old one |
| `ExpenseContext.ExpenseStore.EditExpense` | src/context/ExpenseContext.js:37-46 | the new list is `Edited` of the old one |
| `ExpenseContext.Stamped` | src/context/ExpenseContext.js:19-23 | the new record has every input field plus `id` and `date`; `id` is the clock value and `date` is the date part of the timestamp, both overriding same-named input fields; every other input field is kept |
| `ExpenseContext.Added` | src/context/ExpenseContext.js:25 | exactly one record is appended at the end; the earlier records are unchanged and keep their positions |
| `ExpenseContext.TodayOfIsoTimestamp` | src/context/ExpenseContext.js:16 | `Today`: for an ISO timestamp `YYYY-MM-DDT...`, the stored date is its first ten characters |
| `ExpenseContext.AddKeepsIdsDistinct` | src/context/ExpenseContext.js:19-25 | if the new id is not already in the list, ids stay pairwise distinct |
| `ExpenseContext.Deleted` | src/context/ExpenseContext.js:32 | delete never makes the list longer; `DeleteRemovesExactlyMatches` says which records go |
| `ExpenseContext.Edited` | src/context/ExpenseContext.js:38-45 | edit keeps the number of records; `EditMergesMatches` says what each one becomes |
| `ExpenseContext.DeleteRemovesExactlyMatches` | src/context/ExpenseContext.js:32 | every copy of each record carrying the id is removed and every copy of each other record is kept; the result is a subsequence of the input (order kept); no record with the id remains |
| `ExpenseContext.DeleteAbsentIsIdentity` | src/context/ExpenseContext.js:32 | deleting an id no record carries leaves the list unchanged |
| `ExpenseContext.DeleteIdempotent` | src/context/ExpenseContext.js:32 | deleting the same id twice gives the same list as deleting it once |
| `ExpenseContext.DeleteConcat` | src/context/ExpenseContext.js:32 | deleting from a concatenation gives the concatenation of the two deletions |
| `ExpenseContext.DeleteKeepsIdsDistinct` | src/context/ExpenseContext.js:32 | delete keeps ids pairwise distinct |
| `ExpenseContext.Merged` | src/context/ExpenseContext.js:41 | a merged record has the union of the two key sets; patch fields take the patch's value; other fields keep their old value |
| `ExpenseContext.EditMergesMatches` | src/context/ExpenseContext.js:38-45 | edit keeps the length and order; a record without the id is unchanged; in a matching record, each patch field takes the patch's value and every other field keeps its old value |
| `ExpenseContext.EditAbsentIsIdentity` | src/context/ExpenseContext.js:38-45 | editing an id no record carries leaves the list unchanged |
| `ExpenseContext.EditCanRewriteIdAndDate` | src/context/ExpenseContext.js:41 | a patch that carries `id` and `date` overwrites both in the matching record, so neither is immutable |
| `ExpenseContext.EditIdempotent` | src/context/ExpenseContext.js:38-45 | applying the same edit twice is the same as applying it once |
| `ExpenseContext.EditTwiceIsMergedPatch` | src/context/ExpenseContext.js:38-45 | two edits of one id, the first keeping that id, equal one edit with the combined patch |
| `ExpenseContext.EditWithoutIdKeepsIdsDistinct` | src/context/ExpenseContext.js:38-45 | an edit whose patch has no `id` keeps ids pairwise distinct |
| `Text.UpToFirst` | src/context/ExpenseContext.js:16 | `split('T')[0]` is a prefix with no `'T'` in it, followed by `'T'` or by the end of the text |
| `Text.UpToFirstUnique` | src/context/ExpenseContext.js:16 | any prefix with no separator, followed by the separator or the end, is that segment |
| `Text.TrimStartShape` | src/pages/AddExpensePage.js:32 | stripping the start leaves a suffix; only whitespace was removed, and the result does not start with whitespace |
| `Text.TrimEndShape` | src/pages/AddExpensePage.js:32 | stripping the end leaves a prefix; only whitespace was removed, and the result does not end with whitespace |
| `Text.Trim` | src/pages/AddExpensePage.js:32 | trimming never makes the text longer |
| `Text.TrimIsCore` | src/pages/AddExpensePage.js:32-34 | the trimmed text is a slice with only whitespace outside it and no whitespace at either end |
| `Text.TrimEmptyIffBlank` | src/pages/AddExpensePage.js:32-33 | the trimmed text is empty exactly when the text is empty or whitespace only |
| `Text.Utf16Length` | src/pages/AddExpensePage.js:34 | `length` is at least the number of characters and at most twice it |
| `Text.Utf16LengthConcat` | src/pages/AddExpensePage.js:34 | the length of a concatenation is the sum of the two lengths |
| `Text.Utf16LengthIsCountIffBmp` | src/pages/AddExpensePage.js:34 | `length` equals the number of characters exactly when every character is in the Basic Multilingual Plane |
| `AddExpensePage.MessageText` | src/pages/AddExpensePage.js:33-41 | the four messages, verbatim, none of them empty |
| `AddExpensePage.Rendered` | src/pages/AddExpensePage.js:80-84 | an error value is the empty string exactly when a change handler has blanked it |
| `AddExpensePage.TitleErrorCases` | src/pages/AddExpensePage.js:32-36 | `TitleError`: an empty or whitespace-only title gives "Please, enter title!"; a trimmed length of 1 or 2 UTF-16 code units gives "Title must be at least three characters!"; 3 or more gives no error |
| `AddExpensePage.AstralTitleLongEnough` | src/pages/AddExpensePage.js:32-36 | a letter plus an emoji has length 3, so the title check passes it |
| `AddExpensePage.AmountErrorCases` | src/pages/AddExpensePage.js:38-42 | `AmountError`: an empty amount gives "Please, enter valid amount!"; an amount of 0 or less gives "Amount must be greater than 0!"; a positive one gives no error |
| `AddExpensePage.FieldsCheckedIndependently` | src/pages/AddExpensePage.js:30-44 | in `FormErrors`, the title entry depends only on the title and the amount entry only on the amount; there are no errors exactly when both checks pass |
| `AddExpensePage.BothErrorsAtOnce` | src/pages/AddExpensePage.js:30-42 | a blank title with a zero amount reports both errors in one submit |
| `AddExpensePage.CollectErrors` | src/pages/AddExpensePage.js:30-42 | the object built field by field is exactly `FormErrors` |
| `AddExpensePage.SubmittedIsValid` | src/pages/AddExpensePage.js:49-52 | `Submitted`, for inputs that pass the checks, has the trimmed title, at least three code units long with no whitespace at either end, and a positive amount |
| `AddExpensePage.AddForm.constructor` | src/pages/AddExpensePage.js:13-17 | the initial state: empty fields, no success, no errors, countdown 0 |
| `AddExpensePage.AddForm.Submit` | src/pages/AddExpensePage.js:25-58 | with errors: `errors` becomes them and nothing else changes (no add). Otherwise exactly `{title: trim(title), amount}` is added to the store with the clock readings, `errors` is `{}`, title and amount are cleared, success is true and the countdown is 3 |
| `AddExpensePage.CountdownNavigatesAfter` | src/pages/AddExpensePage.js:60-69 | with `CountdownStep` applied, from a start of n >= 1, tick k (for k < n) sees n - k; only the n-th tick navigates, and it leaves 0 |
| `AddExpensePage.SubmitCountdownNavigatesOnThirdTick` | src/pages/AddExpensePage.js:58-67 | the countdown a submit starts from 3 navigates on its third tick, not before, and ends at 0 |
| `AddExpensePage.AddForm.Tick` | src/pages/AddExpensePage.js:61-67 | one callback applies the step: a value above 1 drops by 1 and does not navigate; a value of 1 or less becomes 0 and navigates exactly once; the form fields are untouched |
| `AddExpensePage.ClearErrorLocal` | src/pages/AddExpensePage.js:78-101 | `ClearError` blanks only its own field, and only if that field shows a message; the other field is untouched; clearing twice equals clearing once |
| `AddExpensePage.AddForm.TitleChange` | src/pages/AddExpensePage.js:78-86 | the title takes the new value, and `errors` is the old errors with the title's message cleared |
| `AddExpensePage.AddForm.AmountChange` | src/pages/AddExpensePage.js:93-101 | the amount takes the new value, and `errors` is the old errors with the amount's message cleared |
| `ExpensesListPage.FilteredExpenses` | src/pages/ExpensesListPage.js:24 | the search gives a result exactly when every record has a string title; otherwise it throws |
| `ExpensesListPage.FilterKeepsExactlyMatches` | src/pages/ExpensesListPage.js:24 | `TitleMatches` as a filter: every copy of a record whose lower-cased title contains the lower-cased search text at some offset is kept and every copy of any other record is dropped; the result is a subsequence of the input, in the same order |
| `ExpensesListPage.EmptySearchKeepsAll` | src/pages/ExpensesListPage.js:20-24 | the initial empty search keeps every record |
| `ExpensesListPage.SearchIgnoresCase` | src/pages/ExpensesListPage.js:24 | two search texts with the same lower-cased form give the same result |
| `ExpensesListPage.SearchLowerCasedIsSame` | src/pages/ExpensesListPage.js:24 | lower-casing the search text first does not change the result |
| `ExpensesListPage.SearchIdempotent` | src/pages/ExpensesListPage.js:24 | searching a search result with the same text changes nothing |
| `ExpensesListPage.TotalBase` | src/pages/ExpensesListPage.js:14-16 | `Total` of an empty list is 0; the total of one record is its amount |
| `ExpensesListPage.TotalConcat` | src/pages/ExpensesListPage.js:14-16 | total(A ++ B) = total(A) + total(B), with NaN absorbing |
| `ExpensesListPage.TotalDefinedIffAllNumeric` | src/pages/ExpensesListPage.js:14-16 | the total is a number exactly when every amount is a number |
| `ExpensesListPage.TotalPositive` | src/pages/ExpensesListPage.js:14-16 | if every amount is positive, a non-empty list has a positive total |
| `ExpensesListPage.TotalCostsOfEmptySearch` | src/pages/ExpensesListPage.js:14-24 | `TotalCosts` with an empty search is the total of the whole list |
| `Text.ContainsIffOccurs` | src/pages/ExpensesListPage.js:24 | `Contains`: `includes` holds exactly when the needle is a prefix of some suffix of the text |
| `Text.Contains` | src/pages/ExpensesListPage.js:24 | a text includes only needles no longer than itself |
| `Text.Lower` | src/pages/ExpensesListPage.js:24 | the lower-cased text has the same length and no upper-case Basic Latin or Latin-1 letter is left in it |
| `Text.LowerForgetsCase` | src/pages/ExpensesListPage.js:24 | lower-casing twice equals lower-casing once |
| `ExpensesListPage.FilterByDate` | src/pages/ExpensesListPage.js:25-31 | the `'all'` choice accepts a record (the page declares `filterByDate` but never calls it) |
| `ExpensesListPage.AllDatesKeepsEverything` | src/pages/ExpensesListPage.js:26 | filtering by the `'all'` choice would keep every record; the page makes no such call |
| `ExpensesListPage.SubmittedRecordListable` | src/pages/AddExpensePage.js:49-54 | a record the form stores has the trimmed title as a string and its positive amount, as the cents its two-decimal text denotes, so the search and the total never fail on it |
| `ExpensesListPage.AddSubmittedKeepsListable` | src/pages/AddExpensePage.js:49-54 | adding a form-made record to a list the page can search and sum keeps it so, and raises the total by that record's amount |

## Left out

- Clock: `Date.now()` and `new Date().toISOString()` are parameters of `AddExpense` and `Submit`. Nothing guarantees that two adds get different ids, so id distinctness is a lemma with that condition, not an invariant.
- Amount formatting: `parseFloat(amount).toFixed(2)` and `parseFloat(expense.amount)` are floating-point parsing and formatting. A stored amount is the number of cents its two-decimal text denotes. By the model's own simplification, any text amount counts as NaN in the total, although `parseFloat` would read a numeric text such as "7.50"; such an amount could come from an edit patch or any other caller of `addExpense`.
- `AddExpensePage.AmountInput`: amount-box text that parses to NaN is not modelled. The number input gives an empty string for it, and that case is `Blank`.
- Values: a record holds only strings and integers. Booleans, `null`, `undefined`, fractions and nested objects are not modelled.
- `Text.Lower`: `toLowerCase` is modelled for Basic Latin and Latin-1 only. Other scripts and multi-character case mappings are not covered.
- `Text.LowerForgetsCase`: it no longer says that lower-casing undoes an upper-casing. The code never calls `toUpperCase`, and its mapping differs from a per-character Latin-1 one: ß upper-cases to the two characters SS, and µ and ÿ map outside Latin-1 (U+039C, U+0178). `SearchIgnoresCase` states the case-insensitivity of the search directly.
- `Text.Utf16Length`: a Dafny `char` is a Unicode scalar value, so lone surrogates, which a JavaScript string can hold, are not modelled.
- `AddExpensePage.AddForm.Submit`: it requires `success` to be false because the form is rendered only then. `e.preventDefault()` and the intermediate `setErrors({})` that React batches away are not modelled; only the final `errors` value is.
- `AddExpensePage.AddForm.Tick`: `setInterval` and `clearInterval` are left out, so the model does not say that ticks stop after navigating. The countdown lemmas state where navigation happens.
- `ExpensesListPage.FilterByDate`: for any choice but `'all'`, including the `week` and `month` options of the select box, the body builds two dates and returns nothing. That is modelled as `undefined`; the two dates are left out. The page declares the function at src/pages/ExpensesListPage.js:25 and never calls it, so `AllDatesKeepsEverything` describes a use the page does not make.
- React: rendering, `navigate` (including the "View Expenses Now" button), `console.log` in `deleteExpense`, the missing-provider error in `useExpenses`, and stale state closures between renders.
- src/App.js, src/components/Navbar.js, src/pages/HomePage.js and src/pages/EditExpensePage.js hold only routing, links, a count display and an empty stub. They are not part of this model.
- Persistence, categories, amount buckets, date windows and monthly insights do not exist in the code, so they are not modelled.

/** What src/pages/ExpensesListPage.js derives from the expense list: the
    title search, the total of the amounts and the date predicate. */
module ExpensesListPage {
  import opened Wrappers
  import opened Seqs
  import opened Text
  import opened ExpenseContext
  import AddExpensePage

  /** `expense.title` when it is a string; None when reading
      `expense.title.toLowerCase()` throws (no title, or not a string). */
  function TitleOf(e: Expense): Option<string> {
    if "title" in e && e["title"].Str? then Some(e["title"].s) else None
  }

  /** `parseFloat(expense.amount)` for a numeric amount; None stands for NaN. */
  function AmountOf(e: Expense): Option<int> {
    if "amount" in e && e["amount"].Num? then Some(e["amount"].n) else None
  }

  predicate AllTitled(expenses: seq<Expense>) {
    forall i :: 0 <= i < |expenses| ==> TitleOf(expenses[i]).Some?
  }

  /** `expense.title.toLowerCase().includes(searchTitle.toLowerCase())`. */
  predicate TitleMatches(e: Expense, searchTitle: string) {
    TitleOf(e).Some? && Contains(Lower(TitleOf(e).value), Lower(searchTitle))
  }

  /** `filteredExpenses`: None when the filter throws on a record without a
      string title. */
  function FilteredExpenses(expenses: seq<Expense>, searchTitle: string): (r: Option<seq<Expense>>)
    ensures r.Some? <==> AllTitled(expenses)
  {
    if AllTitled(expenses) then Some(Filter(expenses, e => TitleMatches(e, searchTitle))) else None
  }

  /** The running total `total + parseFloat(expense.amount)`, NaN absorbing. */
  function AddAmount(total: Option<int>, amount: Option<int>): Option<int> {
    if total.Some? && amount.Some? then Some(total.value + amount.value) else None
  }

  /** `expenses.reduce((total, expense) => total + parseFloat(expense.amount), 0)`,
      folded from the left as `reduce` does. */
  function Total(expenses: seq<Expense>): Option<int> {
    if expenses == [] then Some(0)
    else AddAmount(Total(expenses[..|expenses| - 1]), AmountOf(expenses[|expenses| - 1]))
  }

  /** `totalCosts`: the total of the filtered list. */
  function TotalCosts(expenses: seq<Expense>, searchTitle: string): Option<int> {
    var filtered := FilteredExpenses(expenses, searchTitle);
    if filtered.Some? then Total(filtered.value) else None
  }

  /** `filterByDate(expense)`: `true` for `'all'`; every other choice ends
      without a `return`, which is `undefined` (None). */
  function FilterByDate(searchDate: string, e: Expense): (r: Option<bool>)
    ensures searchDate == "all" ==> r == Some(true)
  {
    if searchDate == "all" then Some(true) else None
  }

  // ----- the title search -----

  /** The search keeps exactly the records whose lower-cased title contains
      the lower-cased search text at some offset, in their original order. */
  lemma FilterKeepsExactlyMatches(expenses: seq<Expense>, searchTitle: string, e: Expense)
    requires AllTitled(expenses)
    ensures var r := FilteredExpenses(expenses, searchTitle).value;
      multiset(r)[e] == (if TitleMatches(e, searchTitle) then multiset(expenses)[e] else 0) &&
      IsSubsequence(r, expenses) &&
      (e in r <==>
        (e in expenses &&
         exists i :: 0 <= i <= |Lower(TitleOf(e).value)| && Lower(searchTitle) <= Lower(TitleOf(e).value)[i..]))
  {
    var p := (x: Expense) => TitleMatches(x, searchTitle);
    FilterCount(expenses, p, e);
    FilterIsSubsequence(expenses, p);
    FilterMembership(expenses, p, e);
    if e in expenses {
      ContainsIffOccurs(Lower(TitleOf(e).value), Lower(searchTitle));
    }
  }

  /** The initial, empty search text keeps every record. */
  lemma EmptySearchKeepsAll(expenses: seq<Expense>)
    requires AllTitled(expenses)
    ensures FilteredExpenses(expenses, "") == Some(expenses)
  {
    assert Lower("") == "";
    FilterAllPass(expenses, e => TitleMatches(e, ""));
  }

  /** The search sees the search text only through its lower-cased form:
      two texts that lower-case alike give the same result. */
  lemma SearchIgnoresCase(expenses: seq<Expense>, q1: string, q2: string)
    ensures Lower(q1) == Lower(q2) ==> FilteredExpenses(expenses, q1) == FilteredExpenses(expenses, q2)
  {
    if Lower(q1) == Lower(q2) {
      FilterCongruent(expenses, e => TitleMatches(e, q1), e => TitleMatches(e, q2));
    }
  }

  /** Lower-casing the search text first changes nothing. */
  lemma SearchLowerCasedIsSame(expenses: seq<Expense>, searchTitle: string)
    ensures FilteredExpenses(expenses, Lower(searchTitle)) == FilteredExpenses(expenses, searchTitle)
  {
    LowerForgetsCase(searchTitle);
    SearchIgnoresCase(expenses, Lower(searchTitle), searchTitle);
  }

  /** Searching the result of a search with the same text changes nothing. */
  lemma SearchIdempotent(expenses: seq<Expense>, searchTitle: string)
    requires AllTitled(expenses)
    ensures var r := FilteredExpenses(expenses, searchTitle).value;
      AllTitled(r) && FilteredExpenses(r, searchTitle) == Some(r)
  {
    var p := (x: Expense) => TitleMatches(x, searchTitle);
    var r := Filter(expenses, p);
    forall i | 0 <= i < |r| ensures TitleOf(r[i]).Some? {
      FilterMembership(expenses, p, r[i]);
    }
    FilterIdempotent(expenses, p);
  }

  // ----- the total -----

  /** The total of no records is 0, that of one record its amount. */
  lemma TotalBase(e: Expense)
    ensures Total([]) == Some(0)
    ensures Total([e]) == AmountOf(e)
  {
    assert [e][..0] == [];
  }

  /** The total adds up over splitting the list. */
  lemma {:induction false} TotalConcat(a: seq<Expense>, b: seq<Expense>)
    ensures Total(a + b) == AddAmount(Total(a), Total(b))
    decreases |b|
  {
    if b == [] {
      assert a + b == a;
    } else {
      var b' := b[..|b| - 1];
      assert (a + b)[..|a + b| - 1] == a + b';
      assert (a + b)[|a + b| - 1] == b[|b| - 1];
      TotalConcat(a, b');
    }
  }

  /** The total is a number exactly when every amount is one. */
  lemma {:induction false} TotalDefinedIffAllNumeric(expenses: seq<Expense>)
    ensures Total(expenses).Some? <==> forall i :: 0 <= i < |expenses| ==> AmountOf(expenses[i]).Some?
  {
    if expenses != [] {
      var init := expenses[..|expenses| - 1];
      TotalDefinedIffAllNumeric(init);
      assert forall i :: 0 <= i < |init| ==> init[i] == expenses[i];
    }
  }

  /** With every amount positive, a non-empty list has a positive total. */
  lemma {:induction false} TotalPositive(expenses: seq<Expense>)
    requires forall i :: 0 <= i < |expenses| ==> AmountOf(expenses[i]).Some? && AmountOf(expenses[i]).value > 0
    ensures Total(expenses).Some? && (expenses != [] ==> Total(expenses).value > 0)
  {
    if expenses != [] {
      var init := expenses[..|expenses| - 1];
      assert forall i :: 0 <= i < |init| ==> init[i] == expenses[i];
      TotalPositive(init);
    }
  }

  /** With an empty search the total covers the whole list. */
  lemma TotalCostsOfEmptySearch(expenses: seq<Expense>)
    requires AllTitled(expenses)
    ensures TotalCosts(expenses, "") == Total(expenses)
  {
    EmptySearchKeepsAll(expenses);
  }

  // ----- the date predicate -----

  /** Filtering by the `'all'` choice keeps every record. */
  lemma AllDatesKeepsEverything(expenses: seq<Expense>)
    ensures Filter(expenses, e => FilterByDate("all", e) == Some(true)) == expenses
  {
    FilterAllPass(expenses, e => FilterByDate("all", e) == Some(true));
  }

  // ----- records from the add form -----

  /** A record the add form stores can be searched and summed: its title is
      the trimmed input and its amount the positive number entered. */
  lemma SubmittedRecordListable(title: string, amount: AddExpensePage.AmountInput, now: int, isoNow: string)
    requires AddExpensePage.FormErrors(title, amount) == map[]
    ensures amount.Entered?
    ensures var e := Stamped(AddExpensePage.Submitted(title, amount), now, isoNow);
      TitleOf(e) == Some(Trim(title)) && AmountOf(e) == Some(amount.cents) && amount.cents > 0
  {
    AddExpensePage.SubmittedIsValid(title, amount);
  }

  /** Appending a form-made record to a list that can be searched and summed
      keeps it so, and raises the total by the record's amount. */
  lemma AddSubmittedKeepsListable(expenses: seq<Expense>, title: string, amount: AddExpensePage.AmountInput,
                                  now: int, isoNow: string)
    requires AddExpensePage.FormErrors(title, amount) == map[]
    requires AllTitled(expenses) && Total(expenses).Some?
    ensures amount.Entered?
    ensures var r := Added(expenses, AddExpensePage.Submitted(title, amount), now, isoNow);
      AllTitled(r) && Total(r) == Some(Total(expenses).value + amount.cents)
  {
    SubmittedRecordListable(title, amount, now, isoNow);
    var e := Stamped(AddExpensePage.Submitted(title, amount), now, isoNow);
    var r := Added(expenses, AddExpensePage.Submitted(title, amount), now, isoNow);
    assert r == expenses + [e];
    TotalConcat(expenses, [e]);
    TotalBase(e);
  }
}

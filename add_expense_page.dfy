/** The add form of src/pages/AddExpensePage.js: field validation, the submit
    step, the countdown to the list page and the two change handlers. */
module AddExpensePage {
  import opened Wrappers
  import opened Text
  import opened ExpenseContext

  /** The amount box: empty, or holding a number already read as whole cents. */
  datatype AmountInput = Blank | Entered(cents: int)

  /** The keys of the `errors` object. */
  datatype Field = TitleField | AmountField

  /** The four messages the checks raise. */
  datatype Message = TitleMissing | TitleTooShort | AmountMissing | AmountNotPositive

  /** The text each message shows. */
  function MessageText(m: Message): (t: string)
    ensures t != ""
  {
    match m
    case TitleMissing => "Please, enter title!"
    case TitleTooShort => "Title must be at least three characters!"
    case AmountMissing => "Please, enter valid amount!"
    case AmountNotPositive => "Amount must be greater than 0!"
  }

  /** A value of the `errors` object: a message, or the empty string `''` a
      change handler writes over it. */
  datatype ErrorText = Shown(message: Message) | Blanked

  /** The string held, `''` for `Blanked`. */
  function Rendered(e: ErrorText): (t: string)
    ensures t == "" <==> e.Blanked?
  {
    if e.Shown? then MessageText(e.message) else ""
  }

  /** `if (errors.f)`: the field is present and its string is not empty. */
  predicate IsSet(errors: map<Field, ErrorText>, f: Field) {
    f in errors && Rendered(errors[f]) != ""
  }

  /** The title check: blank, then shorter than three UTF-16 code units once trimmed. */
  function TitleError(title: string): Option<Message> {
    if Trim(title) == "" then Some(TitleMissing)
    else if Utf16Length(Trim(title)) < 3 then Some(TitleTooShort)
    else None
  }

  /** The amount check: empty, then zero or below. */
  function AmountError(amount: AmountInput): Option<Message> {
    if amount.Blank? then Some(AmountMissing)
    else if amount.cents <= 0 then Some(AmountNotPositive)
    else None
  }

  /** `errors.f = message` when a check produced a message. */
  function WithError(errors: map<Field, ErrorText>, f: Field, e: Option<Message>): map<Field, ErrorText> {
    if e.Some? then errors[f := Shown(e.value)] else errors
  }

  /** The `newErrors` object a submit of `title` and `amount` collects. */
  function FormErrors(title: string, amount: AmountInput): map<Field, ErrorText> {
    WithError(WithError(map[], TitleField, TitleError(title)), AmountField, AmountError(amount))
  }

  /** The object handed to `addExpense` on a successful submit. */
  function Submitted(title: string, amount: AmountInput): Expense
    requires amount.Entered?
  {
    map["title" := Str(Trim(title)), "amount" := Num(amount.cents)]
  }

  /** Each title outcome and the inputs that cause it. */
  lemma TitleErrorCases(title: string)
    ensures TitleError(title) == Some(TitleMissing) <==> AllWhitespace(title)
    ensures TitleError(title) == Some(TitleTooShort) <==> 1 <= Utf16Length(Trim(title)) <= 2
    ensures TitleError(title) == None <==> Utf16Length(Trim(title)) >= 3
  {
    TrimEmptyIffBlank(title);
  }

  /** `length` counts code units, so a letter and an emoji are long enough. */
  lemma AstralTitleLongEnough()
    ensures Utf16Length(Trim("a\U{1F600}")) == 3 && TitleError("a\U{1F600}") == None
  {
    var t := "a\U{1F600}";
    assert t[1..][1..] == [];
    assert !IsWhitespace(t[0]) && !IsWhitespace(t[1]);
    assert Trim(t) == t;
  }

  /** Each amount outcome and the inputs that cause it. */
  lemma AmountErrorCases(amount: AmountInput)
    ensures AmountError(amount) == Some(AmountMissing) <==> amount.Blank?
    ensures AmountError(amount) == Some(AmountNotPositive) <==> amount.Entered? && amount.cents <= 0
    ensures AmountError(amount) == None <==> amount.Entered? && amount.cents > 0
  {
  }

  /** The two fields are judged independently: each field's entry depends on
      that field alone, so both errors can be reported by one submit. */
  lemma FieldsCheckedIndependently(title: string, amount: AmountInput)
    ensures TitleField in FormErrors(title, amount) <==> TitleError(title).Some?
    ensures TitleField in FormErrors(title, amount) ==> FormErrors(title, amount)[TitleField] == Shown(TitleError(title).value)
    ensures AmountField in FormErrors(title, amount) <==> AmountError(amount).Some?
    ensures AmountField in FormErrors(title, amount) ==> FormErrors(title, amount)[AmountField] == Shown(AmountError(amount).value)
    ensures FormErrors(title, amount) == map[] <==> TitleError(title).None? && AmountError(amount).None?
  {
    if FormErrors(title, amount) == map[] {
      assert TitleField !in FormErrors(title, amount);
    }
  }

  /** A blank title and a zero amount are reported together. */
  lemma BothErrorsAtOnce()
    ensures FormErrors("  ", Entered(0)) == map[TitleField := Shown(TitleMissing), AmountField := Shown(AmountNotPositive)]
  {
    TrimEmptyIffBlank("  ");
  }

  /** A record that passes the checks has a title without surrounding
      whitespace and of at least three code units, and a positive amount. */
  lemma SubmittedIsValid(title: string, amount: AmountInput)
    requires FormErrors(title, amount) == map[]
    ensures amount.Entered? && amount.cents > 0
    ensures var t := Trim(title);
      Submitted(title, amount)["title"] == Str(t) && Utf16Length(t) >= 3 &&
      !IsWhitespace(t[0]) && !IsWhitespace(t[|t| - 1])
  {
    FieldsCheckedIndependently(title, amount);
    TrimIsCore(title);
  }

  /** One interval tick of the countdown, `prev => ...`: the next value and
      whether this tick navigates to the list. */
  function CountdownStep(prev: int): (int, bool) {
    if prev <= 1 then (0, true) else (prev - 1, false)
  }

  /** The countdown value after `k` ticks from `start`. */
  function CountdownAfter(start: int, k: nat): int {
    if k == 0 then start else CountdownStep(CountdownAfter(start, k - 1)).0
  }

  /** From `start` >= 1, the first `start - 1` ticks only count down and the
      tick after them navigates and leaves 0. */
  lemma {:induction false} CountdownNavigatesAfter(start: int, k: nat)
    requires start >= 1 && k < start
    ensures CountdownAfter(start, k) == start - k
    ensures CountdownStep(CountdownAfter(start, k)).1 <==> k == start - 1
    ensures k == start - 1 ==> CountdownAfter(start, k + 1) == 0
  {
    if k > 0 {
      CountdownNavigatesAfter(start, k - 1);
    }
  }

  /** The countdown a submit starts, from 3, navigates on its third tick. */
  lemma SubmitCountdownNavigatesOnThirdTick()
    ensures !CountdownStep(CountdownAfter(3, 0)).1 && !CountdownStep(CountdownAfter(3, 1)).1
    ensures CountdownStep(CountdownAfter(3, 2)).1 && CountdownAfter(3, 3) == 0
  {
    CountdownNavigatesAfter(3, 0);
    CountdownNavigatesAfter(3, 1);
    CountdownNavigatesAfter(3, 2);
  }

  /** `handleTitleChange` / `handleAmountChange` on `errors`: the field's own
      message is blanked when it is set. */
  function ClearError(errors: map<Field, ErrorText>, f: Field): map<Field, ErrorText> {
    if IsSet(errors, f) then errors[f := Blanked] else errors
  }

  /** Clearing touches only its own field, only when that field shows a
      message, and leaves that field without one. */
  lemma ClearErrorLocal(errors: map<Field, ErrorText>, f: Field, g: Field)
    ensures g != f ==> (g in ClearError(errors, f) <==> g in errors)
    ensures g != f && g in errors ==> ClearError(errors, f)[g] == errors[g]
    ensures IsSet(errors, f) ==> Rendered(ClearError(errors, f)[f]) == ""
    ensures !IsSet(errors, f) ==> ClearError(errors, f) == errors
    ensures !IsSet(ClearError(errors, f), f)
    ensures ClearError(ClearError(errors, f), f) == ClearError(errors, f)
  {
  }

  /** The body of `handleSubmit` that fills `newErrors` field by field. */
  method CollectErrors(title: string, amount: AmountInput) returns (newErrors: map<Field, ErrorText>)
    ensures newErrors == FormErrors(title, amount)
  {
    newErrors := map[];
    var trimmed := Trim(title);
    if trimmed == "" {
      newErrors := newErrors[TitleField := Shown(TitleMissing)];
    } else if Utf16Length(trimmed) < 3 {
      newErrors := newErrors[TitleField := Shown(TitleTooShort)];
    }
    assert newErrors == WithError(map[], TitleField, TitleError(title));
    if amount.Blank? {
      newErrors := newErrors[AmountField := Shown(AmountMissing)];
    } else if amount.cents <= 0 {
      newErrors := newErrors[AmountField := Shown(AmountNotPositive)];
    }
  }

  /** The page's state. `store` is the shared list whose `addExpense` the page
      calls; `navigations` counts the `navigate('/expenses')` calls of the countdown. */
  class AddForm {
    const store: ExpenseStore
    var title: string
    var amount: AmountInput
    var success: bool
    var errors: map<Field, ErrorText>
    var countdown: int
    var navigations: nat

    constructor (store: ExpenseStore)
      ensures this.store == store
      ensures title == "" && amount == Blank && !success && errors == map[]
      ensures countdown == 0 && navigations == 0
    {
      this.store := store;
      title, amount, success, errors := "", Blank, false, map[];
      countdown, navigations := 0, 0;
    }

    /** `handleSubmit`, the form being on screen (it is rendered only while
        `success` is false); `now` and `isoNow` are the clock readings
        `addExpense` takes. */
    method Submit(now: int, isoNow: string)
      requires !success
      modifies this, store
      ensures var errs := FormErrors(old(title), old(amount));
        if errs != map[] then
          errors == errs && store.expenses == old(store.expenses) &&
          title == old(title) && amount == old(amount) && success == old(success) &&
          countdown == old(countdown) && navigations == old(navigations)
        else
          old(amount).Entered? &&
          store.expenses == Added(old(store.expenses), Submitted(old(title), old(amount)), now, isoNow) &&
          errors == map[] && title == "" && amount == Blank && success &&
          countdown == 3 && navigations == old(navigations)
    {
      var newErrors := CollectErrors(title, amount);
      FieldsCheckedIndependently(title, amount);
      if newErrors.Keys != {} {
        errors := newErrors;
        return;
      }
      var trimmed := Trim(title);
      var expense := map["title" := Str(trimmed), "amount" := Num(amount.cents)];
      store.AddExpense(expense, now, isoNow);
      errors := map[];
      title := "";
      amount := Blank;
      success := true;
      countdown := 3;
    }

    /** One call of the interval callback. */
    method Tick()
      modifies this
      ensures countdown == CountdownStep(old(countdown)).0
      ensures navigations == old(navigations) + (if CountdownStep(old(countdown)).1 then 1 else 0)
      ensures title == old(title) && amount == old(amount) && success == old(success) && errors == old(errors)
    {
      if countdown <= 1 {
        navigations := navigations + 1;
        countdown := 0;
      } else {
        countdown := countdown - 1;
      }
    }

    /** `handleTitleChange`. */
    method TitleChange(value: string)
      modifies this
      ensures title == value && errors == ClearError(old(errors), TitleField)
      ensures amount == old(amount) && success == old(success)
      ensures countdown == old(countdown) && navigations == old(navigations)
    {
      title := value;
      if TitleField in errors && errors[TitleField].Shown? {
        errors := errors[TitleField := Blanked];
      }
    }

    /** `handleAmountChange`. */
    method AmountChange(value: AmountInput)
      modifies this
      ensures amount == value && errors == ClearError(old(errors), AmountField)
      ensures title == old(title) && success == old(success)
      ensures countdown == old(countdown) && navigations == old(navigations)
    {
      amount := value;
      if AmountField in errors && errors[AmountField].Shown? {
        errors := errors[AmountField := Blanked];
      }
    }
  }
}

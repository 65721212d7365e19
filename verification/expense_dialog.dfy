/**
  The add/edit dialog: a reactive form seeded from the expense being edited (or
  from defaults), its validators, and the draft it hands back on save.
 */
module ExpenseDialog {
  import opened Wrappers
  import opened Model

  /** The form group's value. `amount` is `null` when the number input is empty;
      `date` is `null` when the date picker holds no date. */
  datatype Form = Form(
    description: string,
    amount: Option<real>,
    date: Option<Instant>,
    category: string)

  /** How the dialog ends: saving an invalid form leaves it open; otherwise
      `afterClosed()` delivers `result` (absent after a cancel). */
  datatype Closing = StaysOpen | ClosedWith(result: Option<Expense>)

  /** The smallest amount `Validators.min` admits. */
  const MinAmount: real := 0.01

  /** `Validators.required` on a text control: only the empty string is missing,
      so whitespace counts as present. */
  predicate RequiredText(v: string) {
    v != ""
  }

  /** `Validators.min(MinAmount)`: an empty value passes (it is `required`'s
      business); a present value must not be below the minimum. */
  predicate AtLeastMin(v: Option<real>) {
    v.None? || v.value >= MinAmount
  }

  /** The form group is valid when every control's validators pass. */
  predicate Valid(f: Form): (b: bool)
    ensures b ==> f.amount.Some? && f.amount.value > 0.0 && f.date.Some?
  {
    && RequiredText(f.description)
    && f.amount.Some? && AtLeastMin(f.amount)
    && f.date.Some?
    && RequiredText(f.category)
  }

  /** `ngOnInit`: each control starts from the edited expense through `|| default`,
      so the falsy values `''` and `0` fall back to the default. `parse` is
      `new Date(text)`, `now` is `new Date()`. */
  function Seed(existing: Option<Expense>, parse: string -> Instant, now: Instant): (f: Form)
    ensures existing.None? ==> f == Form("", None, Some(now), "")
    ensures existing.Some? ==>
      && f.description == existing.value.description
      && f.category == existing.value.category
      && (f.amount.Some? <==> existing.value.amount != 0.0)
      && (f.amount.Some? ==> f.amount.value == existing.value.amount)
      && f.date == Some(if existing.value.date != "" then parse(existing.value.date) else now)
  {
    match existing
    case None => Form("", None, Some(now), "")
    case Some(e) =>
      Form(if e.description != "" then e.description else "",
           if e.amount != 0.0 then Some(e.amount) else None,
           Some(if e.date != "" then parse(e.date) else now),
           if e.category != "" then e.category else "")
  }

  /** The select writes the chosen option value into the category control and
      leaves the other controls alone: the control then reads back as the chosen
      category and passes the required check. */
  function ChooseCategory(f: Form, c: Category): (g: Form)
    ensures ParseCategory(g.category) == Some(c) && RequiredText(g.category)
    ensures g.description == f.description && g.amount == f.amount && g.date == f.date
  {
    LiteralRoundTrip(c);
    f.(category := Literal(c))
  }

  /** `onSave`: a valid form closes the dialog with a draft that carries the edited
      expense's id (none for a new one), the description and category as typed,
      the amount, and the date as `iso` text; an invalid form leaves it open. */
  function OnSave(f: Form, existing: Option<Expense>, iso: Instant -> string): (c: Closing)
    ensures c.ClosedWith? <==> Valid(f)
    ensures c.ClosedWith? ==> c.result.Some?
    ensures c.ClosedWith? ==>
      var d := c.result.value;
      && d.id == (if existing.Some? then existing.value.id else None)
      && d.description == f.description && d.category == f.category
      && d.amount == f.amount.value && d.date == iso(f.date.value)
      && d.description != "" && d.category != "" && d.amount >= MinAmount
  {
    if Valid(f) then
      ClosedWith(Some(Expense(
        existing.GetOr(Expense(None, "", 0.0, "", "")).id,
        f.description,
        f.amount.value,
        iso(f.date.value),
        f.category)))
    else StaysOpen
  }

  /** `onCancel`: the dialog closes without a result. */
  function OnCancel(): (c: Closing)
    ensures c.ClosedWith? && c.result.None?
  {
    ClosedWith(None)
  }

  /** An expense whose values survive seeding and pass every validator. */
  predicate Presentable(e: Expense) {
    e.description != "" && e.amount >= MinAmount && e.category != "" && e.date != ""
  }

  /** Opening an expense and saving it untouched gives back the same expense, its
      date passed through `parse` and `iso`; when that conversion returns the
      stored text, the draft is the expense itself. */
  lemma SaveUnchangedRoundTrip(e: Expense, parse: string -> Instant, now: Instant, iso: Instant -> string)
    requires Presentable(e)
    ensures OnSave(Seed(Some(e), parse, now), Some(e), iso)
            == ClosedWith(Some(e.(date := iso(parse(e.date)))))
    ensures iso(parse(e.date)) == e.date ==>
            OnSave(Seed(Some(e), parse, now), Some(e), iso) == ClosedWith(Some(e))
  {
  }

  /** An opened expense starts valid exactly when it is presentable; in particular
      an amount of 0 is seeded as an empty control, so that form starts invalid. */
  lemma SeededValidity(e: Expense, parse: string -> Instant, now: Instant)
    ensures Valid(Seed(Some(e), parse, now)) <==> e.description != "" && e.amount >= MinAmount && e.category != ""
    ensures e.amount == 0.0 ==> !Valid(Seed(Some(e), parse, now))
  {
  }

  /** A new draft starts invalid: the description, amount and category are empty. */
  lemma NewFormStartsInvalid(parse: string -> Instant, now: Instant)
    ensures !Valid(Seed(None, parse, now))
  {
  }

  /** No amount below 0.01 is ever saved, whatever else the form holds. */
  lemma SmallAmountNeverSaved(f: Form, existing: Option<Expense>, iso: Instant -> string)
    requires f.amount.Some? && f.amount.value < MinAmount
    ensures OnSave(f, existing, iso) == StaysOpen
  {
  }

  /** A description of whitespace only passes the required check. */
  lemma BlankDescriptionAccepted(f: Form, existing: Option<Expense>, iso: Instant -> string)
    requires f.description == " " && f.amount.Some? && f.amount.value >= MinAmount
    requires f.date.Some? && f.category != ""
    ensures OnSave(f, existing, iso).ClosedWith?
  {
  }
}

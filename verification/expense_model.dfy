/** The records every other module shares: the expense row and the category choice. */
module Model {
  import opened Wrappers

  /** A JavaScript `Date` is kept opaque: only its time value is named, and the
      conversions to and from strings are parameters of the functions that use them. */
  datatype Instant = Instant(epochMs: int)

  /** One row as the server returns it and as a draft is sent back.
      `id` is absent for a draft that was never saved; `date` is the
      `YYYY-MM-DD` text; `category` is free text as far as the list is concerned. */
  datatype Expense = Expense(
    id: Option<int>,
    description: string,
    amount: real,
    date: string,
    category: string)

  /** The five values the category select offers. */
  datatype Category = Lebensmittel | Transport | Freizeit | Rechnungen | Sonstiges

  /** The option value the select writes into the form for `c`. */
  function Literal(c: Category): string {
    match c
    case Lebensmittel => "Lebensmittel"
    case Transport => "Transport"
    case Freizeit => "Freizeit"
    case Rechnungen => "Rechnungen"
    case Sonstiges => "Sonstiges"
  }

  /** Reads an option value back; any other text is not one of the five. */
  function ParseCategory(s: string): (r: Option<Category>)
    ensures r.Some? ==> Literal(r.value) == s
  {
    if s == "Lebensmittel" then Some(Lebensmittel)
    else if s == "Transport" then Some(Transport)
    else if s == "Freizeit" then Some(Freizeit)
    else if s == "Rechnungen" then Some(Rechnungen)
    else if s == "Sonstiges" then Some(Sonstiges)
    else None
  }

  /** Every option value reads back as its own category, so the five literals
      are pairwise distinct and none of them is empty. */
  lemma LiteralRoundTrip(c: Category)
    ensures ParseCategory(Literal(c)) == Some(c)
    ensures Literal(c) != ""
  {
  }
}

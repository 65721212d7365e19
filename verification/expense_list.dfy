/**
  The list view of the expense page: the rows last loaded from the server,
  the category filter applied to them, and the total shown under the table.
 */
module ExpenseList {
  import opened Wrappers
  import opened Text
  import opened Model

  /** The normal form the filter compares: trimmed, then lower-cased. */
  function Key(s: string): (k: string)
    ensures |k| <= |s|
    ensures k == [] <==> AllSpace(s)
    ensures forall i :: 0 <= i < |k| ==> !('A' <= k[i] <= 'Z')
  {
    ToLower(Trim(s))
  }

  /** The predicate `applyFilter` installs, applied to the filter string:
      trimmed, lower-cased category equals trimmed, lower-cased filter. */
  predicate Matches(e: Expense, filter: string): (b: bool)
    ensures b ==> (AllSpace(e.category) <==> AllSpace(filter))
  {
    Key(e.category) == Key(filter)
  }

  /** `filterPredicate` with the filter string bound, as a function value. */
  function FilterPredicate(filter: string): Expense -> bool {
    (e: Expense) => Matches(e, filter)
  }

  /** `a` occurs in `b` in order, possibly with gaps (matched greedily). */
  predicate IsSubsequence<T(==)>(a: seq<T>, b: seq<T>)
    decreases |b|
  {
    if a == [] then true
    else if b == [] then false
    else if a[0] == b[0] then IsSubsequence(a[1..], b[1..])
    else IsSubsequence(a, b[1..])
  }

  /** Every sequence is a subsequence of itself. */
  lemma {:induction false} SubsequenceOfSelf<T>(xs: seq<T>)
    ensures IsSubsequence(xs, xs)
    decreases |xs|
  {
    if xs != [] {
      SubsequenceOfSelf(xs[1..]);
    }
  }

  /** `xs.filter(keep)`: an order-preserving selection of `xs` in which every
      element is accepted. SelectCounts adds that every accepted element is kept
      as often as it occurs in `xs`, which makes the selection unique. */
  function Select<T(==,!new)>(xs: seq<T>, keep: T -> bool): (r: seq<T>)
    ensures forall i :: 0 <= i < |r| ==> keep(r[i])
    ensures IsSubsequence(r, xs)
    decreases |xs|
  {
    if xs == [] then []
    else
      var rest := Select(xs[1..], keep);
      assert xs == [xs[0]] + xs[1..];
      if keep(xs[0]) then
        var r := [xs[0]] + rest;
        assert r[0] == xs[0] && r[1..] == rest;
        assert forall i :: 1 <= i < |r| ==> r[i] == rest[i - 1];
        r
      else
        assert rest != [] ==> rest[0] != xs[0] by {
          if rest != [] {
            assert keep(rest[0]);
          }
        }
        rest
  }

  /** Each element occurs in the selection as often as in `xs` when it is
      accepted, and not at all otherwise. */
  lemma {:induction false} SelectCounts<T(!new)>(xs: seq<T>, keep: T -> bool, e: T)
    ensures multiset(Select(xs, keep))[e] == (if keep(e) then multiset(xs)[e] else 0)
    decreases |xs|
  {
    if xs != [] {
      SelectCounts(xs[1..], keep, e);
      assert xs == [xs[0]] + xs[1..];
      assert multiset(xs) == multiset{xs[0]} + multiset(xs[1..]);
      if keep(xs[0]) {
        assert Select(xs, keep) == [xs[0]] + Select(xs[1..], keep);
        assert multiset(Select(xs, keep)) == multiset{xs[0]} + multiset(Select(xs[1..], keep));
      }
    }
  }

  /** `MatTableDataSource.filteredData`: the whole list while the filter string
      is empty, the selected rows otherwise. */
  function View(data: seq<Expense>, filter: string): (r: seq<Expense>)
    ensures IsSubsequence(r, data)
    ensures filter != "" ==> forall i :: 0 <= i < |r| ==> Matches(r[i], filter)
    ensures filter == "" ==> r == data
  {
    if filter == "" then SubsequenceOfSelf(data); data
    else Select(data, FilterPredicate(filter))
  }

  /** `filteredData.reduce((sum, e) => sum + e.amount, 0)`, adding left to right. */
  function Sum(xs: seq<Expense>): (total: real)
    ensures (forall i :: 0 <= i < |xs| ==> xs[i].amount >= 0.0) ==> total >= 0.0
  {
    if xs == [] then 0.0 else Sum(xs[..|xs| - 1]) + xs[|xs| - 1].amount
  }

  /** Reference definition of a filtered total, written without building the
      filtered list: the amounts of the rows `keep` accepts, added front to back. */
  function SumWhere(xs: seq<Expense>, keep: Expense -> bool): real
    decreases |xs|
  {
    if xs == [] then 0.0
    else (if keep(xs[0]) then xs[0].amount else 0.0) + SumWhere(xs[1..], keep)
  }

  /** Which rows the table shows for a filter string: every row for "", the rows
      the installed predicate accepts otherwise. */
  function Shown(filter: string): Expense -> bool {
    if filter == "" then (e: Expense) => true else FilterPredicate(filter)
  }

  lemma {:induction false} SumAppend(a: seq<Expense>, b: seq<Expense>)
    ensures Sum(a + b) == Sum(a) + Sum(b)
    decreases |b|
  {
    if b == [] {
      assert a + b == a;
    } else {
      assert (a + b)[..|a + b| - 1] == a + b[..|b| - 1];
      SumAppend(a, b[..|b| - 1]);
    }
  }

  /** The sum of a selection is the reference sum of what it selects. */
  lemma {:induction false} SelectTotal(xs: seq<Expense>, keep: Expense -> bool)
    ensures Sum(Select(xs, keep)) == SumWhere(xs, keep)
    decreases |xs|
  {
    if xs != [] {
      SelectTotal(xs[1..], keep);
      SumAppend([xs[0]], Select(xs[1..], keep));
      assert [xs[0]][..0] == [];
    }
  }

  /** When `keep` accepts every row, the reference sum is the sum of the whole list. */
  lemma {:induction false} SumWhereAll(xs: seq<Expense>, keep: Expense -> bool)
    requires forall e :: keep(e)
    ensures SumWhere(xs, keep) == Sum(xs)
    decreases |xs|
  {
    if xs != [] {
      SumWhereAll(xs[1..], keep);
      assert xs == [xs[0]] + xs[1..];
      SumAppend([xs[0]], xs[1..]);
      assert [xs[0]][..0] == [];
    }
  }

  /** The total of the view equals the reference sum over the rows the filter
      string shows, for every list and filter. */
  lemma ViewTotal(xs: seq<Expense>, filter: string)
    ensures Sum(View(xs, filter)) == SumWhere(xs, Shown(filter))
  {
    if filter == "" {
      SumWhereAll(xs, Shown(filter));
    } else {
      SelectTotal(xs, FilterPredicate(filter));
    }
  }

  /** Filtering a concatenation filters each part and keeps them in order. */
  lemma {:induction false} SelectAppend<T(!new)>(a: seq<T>, b: seq<T>, keep: T -> bool)
    ensures Select(a + b, keep) == Select(a, keep) + Select(b, keep)
    decreases |a|
  {
    if a == [] {
      assert a + b == b;
    } else {
      assert (a + b)[0] == a[0];
      assert (a + b)[1..] == a[1..] + b;
      SelectAppend(a[1..], b, keep);
    }
  }

  /** Where a reload's rows come from: the reply of `getAll()`. */
  datatype Load = Loaded(items: seq<Expense>) | LoadFailed

  /** The component's list state: `dataSource.data`, `dataSource.filter` and `totalAmount`. */
  datatype ListState = ListState(data: seq<Expense>, filter: string, total: real)

  /** The invariant the page keeps: the total shown is the total of the rows shown. */
  predicate Consistent(s: ListState) {
    s.total == Sum(View(s.data, s.filter))
  }

  /** The state right after construction: no rows, no filter, total 0. */
  const Initial: ListState := ListState([], "", 0.0)

  /** `applyFilter()` with `selectedCategory == selection` followed by `calculateTotal()`.
      The list is kept, the filter string becomes the selection (the `else` branch sets
      it to "", which is the selection), and the total becomes the reference sum. */
  function ApplyFilter(s: ListState, selection: string): (r: ListState)
    ensures r.data == s.data && r.filter == selection
    ensures r.total == SumWhere(s.data, Shown(selection))
    ensures Consistent(r)
  {
    var r := ListState(s.data, if selection != "" then selection else "",
                       Sum(View(s.data, selection)));
    ViewTotal(s.data, selection);
    r
  }

  /** `loadexpense()`: a successful reply replaces the whole list and recomputes the
      total under the filter still in force; a failed reply changes nothing. */
  function Reload(s: ListState, load: Load): (r: ListState)
    ensures load.LoadFailed? ==> r == s
    ensures load.Loaded? ==> r.data == load.items && r.filter == s.filter
    ensures load.Loaded? ==> r.total == SumWhere(load.items, Shown(s.filter)) && Consistent(r)
  {
    match load
    case Loaded(items) =>
      ViewTotal(items, s.filter);
      ListState(items, s.filter, Sum(View(items, s.filter)))
    case LoadFailed => s
  }

  /** With a non-empty selection the view is exactly the matching rows in list order;
      with the empty selection it is the whole list in list order. */
  lemma ViewOfSelection(s: ListState, selection: string)
    ensures selection == "" ==> View(ApplyFilter(s, selection).data, selection) == s.data
    ensures selection != "" ==> View(ApplyFilter(s, selection).data, selection) == Select(s.data, FilterPredicate(selection))
    ensures forall e :: e in View(s.data, selection) <==> e in s.data && (selection == "" || Matches(e, selection))
  {
    if selection != "" {
      forall e ensures e in Select(s.data, FilterPredicate(selection)) <==> e in s.data && Matches(e, selection) {
        SelectCounts(s.data, FilterPredicate(selection), e);
        assert e in Select(s.data, FilterPredicate(selection)) <==> multiset(Select(s.data, FilterPredicate(selection)))[e] > 0;
      }
    }
  }

  /** Clearing the filter after any selection shows the full list again, and the
      total is the sum of every row. */
  lemma ClearFilterRestores(s: ListState, selection: string)
    ensures var r := ApplyFilter(ApplyFilter(s, selection), "");
            View(r.data, r.filter) == s.data && r.total == Sum(s.data)
  {
  }

  /** An empty view has total 0. */
  lemma {:induction false} EmptyViewTotal(s: ListState)
    requires Consistent(s) && View(s.data, s.filter) == []
    ensures s.total == 0.0
  {
  }

  /** The lower-case spelling of each select value. */
  function LowerLiteral(c: Category): string {
    match c
    case Lebensmittel => "lebensmittel"
    case Transport => "transport"
    case Freizeit => "freizeit"
    case Rechnungen => "rechnungen"
    case Sonstiges => "sonstiges"
  }

  /** The filter key of text without padding whose only capital is its first
      letter is its lower-case spelling, whose own key is itself. */
  lemma KeyOfCapitalized(s: string, lower: string)
    requires |s| == |lower| > 0 && 'A' <= s[0] <= 'Z' && lower[0] == (s[0] as int + 32) as char
    requires !IsSpace(s[|s| - 1])
    requires forall i :: 1 <= i < |s| ==> s[i] == lower[i] && !('A' <= s[i] <= 'Z')
    ensures Key(s) == lower && Key(lower) == lower
  {
    TrimUnpadded(s);
    TrimUnpadded(lower);
  }

  /** The filter key of a select value and of its lower-case spelling are both
      the lower-case spelling. */
  lemma KeyOfLiteral(c: Category)
    ensures Key(Literal(c)) == LowerLiteral(c) && Key(LowerLiteral(c)) == LowerLiteral(c)
  {
    match c
    case Lebensmittel => KeyOfLebensmittel();
    case Transport => KeyOfTransport();
    case Freizeit => KeyOfFreizeit();
    case Rechnungen => KeyOfRechnungen();
    case Sonstiges => KeyOfSonstiges();
  }

  lemma KeyOfLebensmittel()
    ensures Key(Literal(Lebensmittel)) == LowerLiteral(Lebensmittel) && Key(LowerLiteral(Lebensmittel)) == LowerLiteral(Lebensmittel)
  {
    KeyOfCapitalized("Lebensmittel", "lebensmittel");
  }

  lemma KeyOfTransport()
    ensures Key(Literal(Transport)) == LowerLiteral(Transport) && Key(LowerLiteral(Transport)) == LowerLiteral(Transport)
  {
    KeyOfCapitalized("Transport", "transport");
  }

  lemma KeyOfFreizeit()
    ensures Key(Literal(Freizeit)) == LowerLiteral(Freizeit) && Key(LowerLiteral(Freizeit)) == LowerLiteral(Freizeit)
  {
    KeyOfCapitalized("Freizeit", "freizeit");
  }

  lemma KeyOfRechnungen()
    ensures Key(Literal(Rechnungen)) == LowerLiteral(Rechnungen) && Key(LowerLiteral(Rechnungen)) == LowerLiteral(Rechnungen)
  {
    KeyOfCapitalized("Rechnungen", "rechnungen");
  }

  lemma KeyOfSonstiges()
    ensures Key(Literal(Sonstiges)) == LowerLiteral(Sonstiges) && Key(LowerLiteral(Sonstiges)) == LowerLiteral(Sonstiges)
  {
    KeyOfCapitalized("Sonstiges", "sonstiges");
  }

  /** The filter ignores whitespace padding of any length around the filter string,
      for every row and every filter string. */
  lemma MatchIgnoresPadding(e: Expense, p: string, f: string, q: string)
    requires AllSpace(p) && AllSpace(q)
    ensures Matches(e, p + f + q) <==> Matches(e, f)
  {
    TrimOfPadded(p, f, q);
  }

  /** The filter ignores ASCII case: the key of the lower-cased text is the key of
      the text itself. */
  lemma KeyOfLowered(f: string)
    ensures Key(ToLower(f)) == Key(f)
  {
    TrimLower(f);
    LowerIdempotent(Trim(f));
  }

  /** The filter ignores ASCII case, for every row and every filter string. */
  lemma MatchIgnoresCase(e: Expense, f: string)
    ensures Matches(e, ToLower(f)) <==> Matches(e, f)
  {
    KeyOfLowered(f);
  }

  /** Case is ignored and surrounding whitespace is dropped: a row whose category
      is a select value matches that value padded with whitespace, and its
      lower-case spelling. */
  lemma CategoryMatchIgnoresCaseAndPadding(e: Expense, c: Category)
    requires e.category == Literal(c)
    ensures Matches(e, " " + Literal(c) + "\t") && Matches(e, LowerLiteral(c))
  {
    TrimOfPadded(" ", Literal(c), "\t");
    KeyOfLiteral(c);
  }

  /** A row whose category is a select value matches that select value and no other. */
  lemma CategoryMatchSeparates(e: Expense, c: Category, d: Category)
    requires e.category == Literal(c)
    ensures Matches(e, Literal(d)) <==> c == d
  {
    KeyOfLiteral(c);
    KeyOfLiteral(d);
    if c != d {
      assert LowerLiteral(c)[0] != LowerLiteral(d)[0] || |LowerLiteral(c)| != |LowerLiteral(d)|;
    }
  }

  /** Of two rows, only the first accepted by the filter: the view is that row
      alone and the total is its amount. */
  lemma {:induction false} FirstOfTwoShown(s: ListState, e1: Expense, e2: Expense, f: string)
    requires s.data == [e1, e2] && f != ""
    requires FilterPredicate(f)(e1) && !FilterPredicate(f)(e2)
    ensures var r := ApplyFilter(s, f);
            View(r.data, r.filter) == [e1] && r.total == e1.amount
  {
    assert [e1, e2][1..] == [e2];
    assert Select([e2], FilterPredicate(f)) == [];
    assert Select([e1, e2], FilterPredicate(f)) == [e1];
    assert SumWhere([e2], Shown(f)) == 0.0;
  }

  /** A worked case: a row under Lebensmittel of 12.50 and a row under Transport
      of 40; filtering by the lower-case spelling "lebensmittel" shows the first
      row alone, with total 12.50. */
  lemma FilterScenario(s: ListState, e1: Expense, e2: Expense)
    requires s.data == [e1, e2]
    requires e1.category == Literal(Lebensmittel) && e1.amount == 12.5
    requires e2.category == Literal(Transport) && e2.amount == 40.0
    ensures var r := ApplyFilter(s, LowerLiteral(Lebensmittel));
            View(r.data, r.filter) == [e1] && r.total == 12.5
  {
    var f := LowerLiteral(Lebensmittel);
    CategoryMatchIgnoresCaseAndPadding(e1, Lebensmittel);
    KeyOfLiteral(Transport);
    KeyOfLiteral(Lebensmittel);
    FirstOfTwoShown(s, e1, e2, f);
  }
}

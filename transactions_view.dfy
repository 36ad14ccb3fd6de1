/** The transactions page: the search box narrows the bundled list by name or
    id, each row shows its amount with a sign, a colour and a number of
    decimals, and the sort selector is displayed but never consulted. */
module TransactionsView {
  import opened Text
  import opened Lists
  import opened TransactionData

  /** A transaction is shown when the lower-cased search term occurs in its
      lower-cased name or id. The search term is not trimmed. */
  predicate Matches(t: Transaction, searchTerm: string)
  {
    Contains(Lower(t.name), Lower(searchTerm)) || Contains(Lower(t.id), Lower(searchTerm))
  }

  /** `filteredTransactions`: the matching transactions, in list order. */
  function FilterTransactions(ts: seq<Transaction>, searchTerm: string): (r: seq<Transaction>)
    ensures IsSubsequence(r, ts)
    ensures forall i :: 0 <= i < |r| ==> r[i] in ts && Matches(r[i], searchTerm)
    ensures forall i :: 0 <= i < |ts| && Matches(ts[i], searchTerm) ==> ts[i] in r
    ensures forall t :: multiset(r)[t] == if Matches(t, searchTerm) then multiset(ts)[t] else 0
  {
    var keep := t => Matches(t, searchTerm);
    FilterIsSubsequence(ts, keep);
    FilterMembers(ts, keep);
    Filter(ts, keep)
  }

  /** An empty search keeps every transaction. */
  lemma {:induction false} EmptySearchKeepsAll(ts: seq<Transaction>)
    ensures FilterTransactions(ts, "") == ts
  {
    forall i | 0 <= i < |ts|
      ensures Matches(ts[i], "")
    {
      ContainsEmpty(Lower(ts[i].name));
    }
    FilterKeepsAll(ts, t => Matches(t, ""));
  }

  /** The search is case-insensitive in the search term. */
  lemma SearchIsCaseInsensitive(t: Transaction, searchTerm: string)
    ensures Matches(t, searchTerm) == Matches(t, Lower(searchTerm))
  {
    LowerIdempotent(searchTerm);
  }

  /** Whitespace in the search term counts: "gas" finds the Gas purchase,
      " gas" does not. */
  lemma SearchTermNotTrimmed()
    ensures Matches(Gas, "gas")
    ensures !Matches(Gas, " gas")
  {
    GasSearchFacts();
    assert OccursAt("gas", "gas", 0);
    Absent("gas", " gas", 0);
    Absent("nf - 0000005", " gas", 1);
  }

  lemma GasSearchFacts()
    ensures Lower(Gas.name) == "gas" && Lower(Gas.id) == "nf - 0000005"
    ensures Lower("gas") == "gas" && Lower(" gas") == " gas"
  {
    assert Lower("Gas") == "gas";
    assert Lower("NF - 0000005") == "nf - 0000005";
    assert Lower("gas") == "gas";
    assert Lower(" gas") == " gas";
  }

  // ---------------------------------------------------------------------------
  // formatAmount

  const IncomeColor := "#7ED321"
  const ExpenseColor := "#ff4757"

  /** What `formatAmount` decides: the sign in front of the dollar sign, the
      magnitude shown, how many decimals `toFixed` renders and the colour. */
  datatype FormattedAmount = FormattedAmount(sign: string, magnitude: real, decimals: nat, color: string)

  predicate IsWhole(x: real)
  {
    x.Floor as real == x
  }

  /** `formatAmount`. */
  function FormatAmount(amount: real): (r: FormattedAmount)
    ensures r.sign == "+" <==> amount >= 0.0
    ensures r.sign == "" <==> amount < 0.0
    ensures r.color == IncomeColor <==> amount >= 0.0
    ensures r.color == ExpenseColor <==> amount < 0.0
    ensures r.magnitude >= 0.0 && (r.magnitude == amount || r.magnitude == -amount)
    ensures r.decimals == 2 <==> amount < 0.0 && !IsWhole(amount)
    ensures r.decimals == 0 <==> amount >= 0.0 || IsWhole(amount)
  {
    var nonNegative := amount >= 0.0;
    FormattedAmount(
      if nonNegative then "+" else "",
      if nonNegative then amount else -amount,
      if nonNegative then 0 else if IsWhole(amount) then 0 else 2,
      if nonNegative then IncomeColor else ExpenseColor)
  }

  /** The text drops the minus sign, but the amount can still be read back
      from the colour and the magnitude. */
  lemma AmountReadBack(amount: real)
    ensures var r := FormatAmount(amount);
            amount == if r.color == ExpenseColor then -r.magnitude else r.magnitude
  {
  }

  /** A whole amount is shown without decimals, whatever its sign. */
  lemma {:induction false} WholeAmountsHaveNoDecimals(n: int)
    ensures FormatAmount(n as real).decimals == 0
  {
    assert IsWhole(n as real);
  }

  // ---------------------------------------------------------------------------
  // The rendered table

  /** One row of the table. */
  datatype Row = Row(id: string, icon: string, name: string, amount: FormattedAmount, date: string, time: string)

  function RowOf(t: Transaction): (r: Row)
    ensures r.id == t.id && r.icon == t.icon && r.name == t.name && r.date == t.date && r.time == t.time
    ensures r.amount == FormatAmount(t.amount)
  {
    Row(t.id, t.icon, t.name, FormatAmount(t.amount), t.date, t.time)
  }

  /** The rows the page renders for a search term and a sort selection. */
  function RenderedRows(ts: seq<Transaction>, searchTerm: string, sortBy: string): (r: seq<Row>)
    ensures |r| == |FilterTransactions(ts, searchTerm)|
    ensures forall i :: 0 <= i < |r| ==> r[i] == RowOf(FilterTransactions(ts, searchTerm)[i])
  {
    var shown := FilterTransactions(ts, searchTerm);
    seq(|shown|, i requires 0 <= i < |shown| => RowOf(shown[i]))
  }

  /** The sort selection never changes what is rendered. */
  lemma SortSelectionIgnored(ts: seq<Transaction>, searchTerm: string, sortBy: string, sortBy': string)
    ensures RenderedRows(ts, searchTerm, sortBy) == RenderedRows(ts, searchTerm, sortBy')
  {
  }

  /** With an empty search the table lists every bundled transaction in
      list order, whichever sort is selected. */
  lemma {:induction false} EmptySearchRendersFixtureInOrder(sortBy: string)
    ensures var r := RenderedRows(Fixture, "", sortBy);
            |r| == |Fixture| && forall i :: 0 <= i < |r| ==> r[i].id == Fixture[i].id
  {
    EmptySearchRendersInOrder(Fixture, sortBy);
  }

  /** With an empty search every transaction gets its row, in list order. */
  lemma {:induction false} EmptySearchRendersInOrder(ts: seq<Transaction>, sortBy: string)
    ensures var r := RenderedRows(ts, "", sortBy);
            |r| == |ts| && forall i :: 0 <= i < |r| ==> r[i] == RowOf(ts[i]) && r[i].id == ts[i].id
  {
    EmptySearchKeepsAll(ts);
  }
}

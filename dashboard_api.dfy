/** The dashboard service's derivations: which two months the monthly summary
    compares, the spent and income totals of a month and their changes, and
    the pie chart of expenses by category. The HTTP requests, the logging and
    the fallback payloads are not modelled; a transaction's date is given as
    the (year, month) it falls in. */
module DashboardApi {
  import opened Text
  import opened JsObject
  import opened Lists

  // ---------------------------------------------------------------------------
  // Months

  type MonthNumber = m: int | 1 <= m <= 12 witness 1

  /** A calendar month; `month` counts from 1 for January. */
  datatype YearMonth = YearMonth(year: int, month: MonthNumber)

  /** `a` is an earlier month than `b`. */
  predicate Before(a: YearMonth, b: YearMonth)
  {
    a.year < b.year || (a.year == b.year && a.month < b.month)
  }

  /** Months counted from January of year 0. */
  function MonthIndex(m: YearMonth): (r: int)
  {
    m.year * 12 + m.month - 1
  }

  /** `Before` is the order of the month indices: a strict total order. */
  lemma BeforeIsIndexOrder(a: YearMonth, b: YearMonth)
    ensures Before(a, b) <==> MonthIndex(a) < MonthIndex(b)
    ensures a == b <==> MonthIndex(a) == MonthIndex(b)
  {
  }

  /** The calendar month before `m`: January rolls back to December of the
      year before. */
  function PreviousCalendarMonth(m: YearMonth): (p: YearMonth)
    ensures MonthIndex(p) == MonthIndex(m) - 1
  {
    if m.month == 1 then YearMonth(m.year - 1, 12) else YearMonth(m.year, m.month - 1)
  }

  /** Nothing lies strictly between a month and the month before it. */
  lemma {:induction false} PreviousIsImmediatelyBefore(m: YearMonth, x: YearMonth)
    ensures Before(PreviousCalendarMonth(m), m)
    ensures !(Before(PreviousCalendarMonth(m), x) && Before(x, m))
  {
    BeforeIsIndexOrder(PreviousCalendarMonth(m), m);
    BeforeIsIndexOrder(PreviousCalendarMonth(m), x);
    BeforeIsIndexOrder(x, m);
  }

  /** A transaction as the dashboard service receives it, with its date
      reduced to the month it falls in. */
  datatype Transaction = Transaction(id: string, month: YearMonth, description: string, amount: real, category: string)

  /** The two months the monthly summary compares: `current` is the latest
      month any transaction falls in (`today` when there are none), and
      `previous` the latest other month that has transactions, or else the
      calendar month before `current`. */
  predicate AreMostRecentMonths(transactions: seq<Transaction>, today: YearMonth, current: YearMonth, previous: YearMonth)
  {
    && (|transactions| == 0 ==> current == today)
    && (|transactions| > 0 ==>
          (exists i :: 0 <= i < |transactions| && transactions[i].month == current)
          && forall i :: 0 <= i < |transactions| ==> !Before(current, transactions[i].month))
    && ((exists i :: 0 <= i < |transactions| && transactions[i].month != current) ==>
          (exists i :: 0 <= i < |transactions| && transactions[i].month == previous)
          && forall i :: 0 <= i < |transactions| && transactions[i].month != current ==>
               !Before(previous, transactions[i].month))
    && ((forall i :: 0 <= i < |transactions| ==> transactions[i].month == current) ==>
          previous == PreviousCalendarMonth(current))
    && Before(previous, current)
  }

  /** The two months are determined by the transactions (and `today`): the
      summary never has a choice of months to compare. */
  lemma {:induction false} MostRecentMonthsUnique(transactions: seq<Transaction>, today: YearMonth,
                                                  c1: YearMonth, p1: YearMonth, c2: YearMonth, p2: YearMonth)
    requires AreMostRecentMonths(transactions, today, c1, p1)
    requires AreMostRecentMonths(transactions, today, c2, p2)
    ensures c1 == c2 && p1 == p2
  {
    if |transactions| > 0 {
      var i1 :| 0 <= i1 < |transactions| && transactions[i1].month == c1;
      var i2 :| 0 <= i2 < |transactions| && transactions[i2].month == c2;
      assert !Before(c1, c2) && !Before(c2, c1);
      BeforeIsIndexOrder(c1, c2);
      BeforeIsIndexOrder(c2, c1);
    }
    if exists i :: 0 <= i < |transactions| && transactions[i].month != c1 {
      var j1 :| 0 <= j1 < |transactions| && transactions[j1].month == p1;
      var j2 :| 0 <= j2 < |transactions| && transactions[j2].month == p2;
      assert p1 != c1 by { BeforeIsIndexOrder(p1, c1); }
      assert p2 != c2 by { BeforeIsIndexOrder(p2, c2); }
      assert !Before(p1, p2) && !Before(p2, p1);
      BeforeIsIndexOrder(p1, p2);
      BeforeIsIndexOrder(p2, p1);
    }
  }

  /** With no transactions the summary compares `today` with the calendar
      month before it. */
  lemma NoTransactionsComparesToday(today: YearMonth, current: YearMonth, previous: YearMonth)
    requires AreMostRecentMonths([], today, current, previous)
    ensures current == today && previous == PreviousCalendarMonth(today)
  {
  }

  /** `findMostRecentMonths`. With no transactions the code reads the clock;
      `today` stands for that reading. */
  method FindMostRecentMonths(transactions: seq<Transaction>, today: YearMonth)
    returns (current: YearMonth, previous: YearMonth)
    ensures AreMostRecentMonths(transactions, today, current, previous)
  {
    // The set of months present.
    var months: set<YearMonth> := {};
    for i := 0 to |transactions|
      invariant months == set j | 0 <= j < i :: transactions[j].month
    {
      months := months + {transactions[i].month};
    }

    var top, hasSecond, second := TwoLatest(months, today);
    current := top;
    if hasSecond {
      previous := second;
    } else {
      previous := PreviousCalendarMonth(current);
      PreviousIsImmediatelyBefore(current, current);
    }
    MonthsPresent(transactions, months);
    if |transactions| > 0 {
      assert transactions[0].month in months;
    }
  }

  /** The latest and the second latest month of a set, as the first two
      entries of the set sorted newest first; `absent` is returned for the
      latest of an empty set. */
  method TwoLatest(months: set<YearMonth>, absent: YearMonth)
    returns (top: YearMonth, hasSecond: bool, second: YearMonth)
    ensures months == {} ==> top == absent && !hasSecond
    ensures months != {} ==> top in months && forall x :: x in months ==> !Before(top, x)
    ensures hasSecond <==> exists x :: x in months && x != top
    ensures hasSecond ==> second in months && Before(second, top)
    ensures hasSecond ==> forall x :: x in months && x != top ==> !Before(second, x)
  {
    top, hasSecond, second := absent, false, absent;
    if months != {} {
      top := Latest(months);
      var others := months - {top};
      if others != {} {
        second := Latest(others);
        hasSecond := true;
      } else {
        forall x | x in months
          ensures x == top
        {
          assert x !in others;
        }
      }
    }
  }

  /** The latest month of a non-empty set. */
  method Latest(months: set<YearMonth>) returns (latest: YearMonth)
    requires months != {}
    ensures latest in months && forall x :: x in months ==> !Before(latest, x)
  {
    var rest := months;
    latest :| latest in rest;
    while rest != {}
      invariant rest <= months && latest in months
      invariant forall x :: x in months - rest ==> !Before(latest, x)
      decreases |rest|
    {
      var x :| x in rest;
      if Before(latest, x) {
        forall y | y in months - rest
          ensures !Before(x, y)
        {
          LaterThanLatest(latest, x, y);
        }
        latest := x;
      }
      rest := rest - {x};
    }
  }

  /** A month later than one no month of a set follows is followed by none
      of them either. */
  lemma LaterThanLatest(latest: YearMonth, x: YearMonth, y: YearMonth)
    requires !Before(latest, y) && Before(latest, x)
    ensures !Before(x, y)
  {
  }

  /** The months of the set are exactly the months of the transactions. */
  lemma MonthsPresent(transactions: seq<Transaction>, months: set<YearMonth>)
    requires months == set j | 0 <= j < |transactions| :: transactions[j].month
    ensures forall i :: 0 <= i < |transactions| ==> transactions[i].month in months
    ensures forall m :: m in months ==> exists i :: 0 <= i < |transactions| && transactions[i].month == m
  {
  }

  // ---------------------------------------------------------------------------
  // Month totals

  const MonthNames: seq<string> := [
    "January", "February", "March", "April", "May", "June",
    "July", "August", "September", "October", "November", "December"
  ]

  /** The transactions of one month, in their original order. */
  function InMonth(transactions: seq<Transaction>, m: YearMonth): (r: seq<Transaction>)
    ensures IsSubsequence(r, transactions)
    ensures forall i :: 0 <= i < |r| ==> r[i].month == m
    ensures forall i :: 0 <= i < |transactions| && transactions[i].month == m ==> transactions[i] in r
    ensures forall t :: multiset(r)[t] == if t.month == m then multiset(transactions)[t] else 0
  {
    FilterIsSubsequence(transactions, (t: Transaction) => t.month == m);
    FilterMembers(transactions, (t: Transaction) => t.month == m);
    Filter(transactions, (t: Transaction) => t.month == m)
  }

  predicate IsExpense(t: Transaction)
  {
    t.amount < 0.0
  }

  /** Income is a positive amount whose category is exactly "income" or whose
      description mentions a salary or a paycheck. */
  predicate IsIncome(t: Transaction)
  {
    t.amount > 0.0
    && (t.category == "income" || Contains(Lower(t.description), "salary")
        || Contains(Lower(t.description), "paycheck"))
  }

  function Abs(x: real): (r: real)
  {
    if x < 0.0 then -x else x
  }

  /** `reduce((sum, t) => sum + Math.abs(t.amount), 0)`. */
  function SumOfMagnitudes(ts: seq<Transaction>): (r: real)
    ensures r >= 0.0
  {
    if ts == [] then 0.0 else Abs(ts[0].amount) + SumOfMagnitudes(ts[1..])
  }

  /** `reduce((sum, t) => sum + t.amount, 0)`. */
  function SumOfAmounts(ts: seq<Transaction>): (r: real)
  {
    if ts == [] then 0.0 else ts[0].amount + SumOfAmounts(ts[1..])
  }

  /** What a month's transactions spent: the sum of the magnitudes of the
      negative amounts. */
  function TotalSpent(ts: seq<Transaction>): (r: real)
    ensures r >= 0.0
  {
    SumOfMagnitudes(Filter(ts, IsExpense))
  }

  /** What a month's transactions earned. */
  function TotalIncome(ts: seq<Transaction>): (r: real)
    ensures r >= 0.0
  {
    FilterMembers(ts, IsIncome);
    PositiveSum(Filter(ts, IsIncome));
    SumOfAmounts(Filter(ts, IsIncome))
  }

  lemma {:induction false} PositiveSum(ts: seq<Transaction>)
    requires forall i :: 0 <= i < |ts| ==> IsIncome(ts[i])
    ensures SumOfAmounts(ts) >= 0.0
  {
    if ts != [] {
      PositiveSum(ts[1..]);
    }
  }

  lemma {:induction false} SumOfMagnitudesAppend(a: seq<Transaction>, b: seq<Transaction>)
    ensures SumOfMagnitudes(a + b) == SumOfMagnitudes(a) + SumOfMagnitudes(b)
  {
    if a == [] {
      assert a + b == b;
    } else {
      assert (a + b)[1..] == a[1..] + b;
      SumOfMagnitudesAppend(a[1..], b);
    }
  }

  lemma {:induction false} SumOfAmountsAppend(a: seq<Transaction>, b: seq<Transaction>)
    ensures SumOfAmounts(a + b) == SumOfAmounts(a) + SumOfAmounts(b)
  {
    if a == [] {
      assert a + b == b;
    } else {
      assert (a + b)[1..] == a[1..] + b;
      SumOfAmountsAppend(a[1..], b);
    }
  }

  /** Spending adds up over a split of the transactions. */
  lemma TotalSpentAppend(a: seq<Transaction>, b: seq<Transaction>)
    ensures TotalSpent(a + b) == TotalSpent(a) + TotalSpent(b)
  {
    FilterAppend(a, b, IsExpense);
    SumOfMagnitudesAppend(Filter(a, IsExpense), Filter(b, IsExpense));
  }

  /** Income adds up over a split of the transactions. */
  lemma TotalIncomeAppend(a: seq<Transaction>, b: seq<Transaction>)
    ensures TotalIncome(a + b) == TotalIncome(a) + TotalIncome(b)
  {
    FilterAppend(a, b, IsIncome);
    SumOfAmountsAppend(Filter(a, IsIncome), Filter(b, IsIncome));
  }

  /** One more transaction adds its magnitude to the spending when it is an
      expense and nothing otherwise. */
  lemma OneMoreSpent(ts: seq<Transaction>, t: Transaction)
    ensures TotalSpent(ts + [t]) == TotalSpent(ts) + (if IsExpense(t) then -t.amount else 0.0)
  {
    TotalSpentAppend(ts, [t]);
    FilterCons(t, [], IsExpense);
    assert [t] + [] == [t];
    assert [t][1..] == [];
    if IsExpense(t) {
      assert Filter([t], IsExpense) == [t];
      assert SumOfMagnitudes([t]) == Abs(t.amount) + SumOfMagnitudes([]);
    } else {
      assert Filter([t], IsExpense) == [];
    }
  }

  /** One more transaction adds its amount to the income when it is income
      and nothing otherwise: a positive transfer or refund is not income. */
  lemma OneMoreIncome(ts: seq<Transaction>, t: Transaction)
    ensures TotalIncome(ts + [t]) == TotalIncome(ts) + (if IsIncome(t) then t.amount else 0.0)
  {
    TotalIncomeAppend(ts, [t]);
    FilterCons(t, [], IsIncome);
    assert [t] + [] == [t];
    assert [t][1..] == [];
    if IsIncome(t) {
      assert Filter([t], IsIncome) == [t];
      assert SumOfAmounts([t]) == t.amount + SumOfAmounts([]);
    } else {
      assert Filter([t], IsIncome) == [];
    }
  }

  /** A month spends something exactly when it has an expense. */
  lemma {:induction false} SpentIffExpense(ts: seq<Transaction>)
    ensures TotalSpent(ts) > 0.0 <==> exists i :: 0 <= i < |ts| && IsExpense(ts[i])
  {
    if ts != [] {
      SpentIffExpense(ts[1..]);
      assert ts == [ts[0]] + ts[1..];
      TotalSpentAppend([ts[0]], ts[1..]);
      assert [ts[0]][1..] == [];
      if IsExpense(ts[0]) {
        assert TotalSpent([ts[0]]) == -ts[0].amount;
      } else {
        assert TotalSpent([ts[0]]) == 0.0;
        assert forall i :: 1 <= i < |ts| ==> ts[i] == ts[1..][i - 1];
      }
    }
  }

  /** The change of a total relative to the previous month, in percent; 0
      when the previous month had nothing. */
  function PercentChange(change: real, previous: real): (r: real)
    ensures previous <= 0.0 ==> r == 0.0
    ensures previous > 0.0 ==> (r > 0.0 <==> change > 0.0) && (r < 0.0 <==> change < 0.0)
  {
    if previous > 0.0 then change / previous * 100.0 else 0.0
  }

  /** The percentage gives the change back: the current total is the
      previous one grown by that percentage. */
  lemma PercentRoundTrip(current: real, previous: real)
    requires previous > 0.0
    ensures previous + previous * PercentChange(current - previous, previous) / 100.0 == current
  {
  }

  datatype MonthTotals = MonthTotals(month: string, year: int, totalSpent: real, totalIncome: real, netAmount: real)

  datatype Comparison = Comparison(
    spendingChange: real, spendingChangePercent: real, incomeChange: real, incomeChangePercent: real)

  datatype MonthlySpendingSummary = MonthlySpendingSummary(
    currentMonth: MonthTotals, previousMonth: MonthTotals, comparison: Comparison)

  /** The totals of one month. */
  function TotalsOf(transactions: seq<Transaction>, m: YearMonth): (r: MonthTotals)
    ensures r.month == MonthNames[m.month - 1] && r.year == m.year
    ensures r.totalSpent == TotalSpent(InMonth(transactions, m)) && r.totalSpent >= 0.0
    ensures r.totalIncome == TotalIncome(InMonth(transactions, m)) && r.totalIncome >= 0.0
    ensures r.netAmount == r.totalIncome - r.totalSpent
  {
    var ts := InMonth(transactions, m);
    MonthTotals(MonthNames[m.month - 1], m.year, TotalSpent(ts), TotalIncome(ts),
                TotalIncome(ts) - TotalSpent(ts))
  }

  /** The summary for two given months. */
  function Summarize(transactions: seq<Transaction>, current: YearMonth, previous: YearMonth)
    : (s: MonthlySpendingSummary)
    ensures s.currentMonth == TotalsOf(transactions, current)
    ensures s.previousMonth == TotalsOf(transactions, previous)
    ensures s.comparison.spendingChange == s.currentMonth.totalSpent - s.previousMonth.totalSpent
    ensures s.comparison.incomeChange == s.currentMonth.totalIncome - s.previousMonth.totalIncome
    ensures s.comparison.spendingChangePercent == PercentChange(s.comparison.spendingChange, s.previousMonth.totalSpent)
    ensures s.comparison.incomeChangePercent == PercentChange(s.comparison.incomeChange, s.previousMonth.totalIncome)
    ensures s.previousMonth.totalSpent == 0.0 ==> s.comparison.spendingChangePercent == 0.0
    ensures s.previousMonth.totalIncome == 0.0 ==> s.comparison.incomeChangePercent == 0.0
    ensures s.currentMonth.netAmount - s.previousMonth.netAmount
         == s.comparison.incomeChange - s.comparison.spendingChange
  {
    var cur := TotalsOf(transactions, current);
    var prev := TotalsOf(transactions, previous);
    var spendingChange := cur.totalSpent - prev.totalSpent;
    var incomeChange := cur.totalIncome - prev.totalIncome;
    MonthlySpendingSummary(cur, prev,
      Comparison(spendingChange, PercentChange(spendingChange, prev.totalSpent),
                 incomeChange, PercentChange(incomeChange, prev.totalIncome)))
  }

  /** The computing part of `fetchMonthlySpendingSummary`: the latest month
      compared with the one before it. */
  method SpendingSummary(transactions: seq<Transaction>, today: YearMonth)
    returns (s: MonthlySpendingSummary, current: YearMonth, previous: YearMonth)
    ensures AreMostRecentMonths(transactions, today, current, previous)
    ensures s == Summarize(transactions, current, previous)
    ensures |transactions| > 0 ==>
              exists i :: 0 <= i < |transactions| && s.currentMonth.year == transactions[i].month.year
                && forall j :: 0 <= j < |transactions| ==> transactions[j].month.year <= s.currentMonth.year
  {
    current, previous := FindMostRecentMonths(transactions, today);
    s := Summarize(transactions, current, previous);
    if |transactions| > 0 {
      var i :| 0 <= i < |transactions| && transactions[i].month == current;
      assert s.currentMonth.year == transactions[i].month.year;
    }
  }

  // ---------------------------------------------------------------------------
  // The pie chart

  /** `categoryMapping` of `fetchPieChartData`. */
  const CategoryMapping: map<string, string> := map[
    "entertainment" := "Entertainment",
    "housing" := "Housing & Utilities",
    "dining" := "Food & Dining",
    "gas" := "Transportation",
    "travel" := "Travel",
    "utilities" := "Utilities",
    "groceries" := "Food & Groceries",
    "healthcare" := "Healthcare",
    "shopping" := "Shopping"
  ]

  lemma MappingFacts()
    ensures forall k :: k in CategoryMapping ==> CategoryMapping[k] != ""
    ensures CategoryMapping["gas"] == "Transportation"
  {
  }

  /** The label of a category: its mapped display name, or the category with
      its first letter capitalised. The lookup consults the mapping's own keys
      only (see `DisplayNameAsWritten`). */
  function DisplayName(category: string): (r: string)
    ensures r == "" <==> category == ""
    ensures Lower(category) !in CategoryMapping ==> r == Capitalize(category)
  {
    MappingFacts();
    var key := Lower(category);
    if key in CategoryMapping then CategoryMapping[key] else Capitalize(category)
  }

  /** Mapped categories are recognised in any letter case. */
  lemma DisplayNameOfMappedKey(category: string)
    requires Lower(category) in CategoryMapping
    ensures DisplayName(category) == CategoryMapping[Lower(category)]
    ensures DisplayName(category) == DisplayName(Lower(category))
  {
    LowerIdempotent(category);
  }

  lemma GasIsTransportation()
    ensures DisplayName("gas") == "Transportation"
    ensures DisplayName("GAS") == "Transportation"
  {
    assert Lower("gas") == "gas";
    assert Lower("GAS") == "gas";
    MappingFacts();
  }

  /** The label as written: `categoryMapping[key] || capitalised` also finds
      the members inherited from Object.prototype. */
  function DisplayNameAsWritten(category: string): (r: JsValue)
    ensures r.Str? || r.Inherited?
    ensures r.Str? ==> r.s == DisplayName(category)
    ensures r.Inherited? <==> Lower(category) !in CategoryMapping && Lower(category) in ObjectPrototypeMembers
  {
    MappingFacts();
    var found := Get(CategoryMapping, Lower(category));
    if Truthy(found) then found else Str(Capitalize(category))
  }

  /** Away from the inherited names the code gives the corrected label. */
  lemma DisplayNameAsWrittenAgreesOffPrototype(category: string)
    requires Lower(category) !in ObjectPrototypeMembers
    ensures DisplayNameAsWritten(category) == Str(DisplayName(category))
  {
    MappingFacts();
  }

  /** A category named "constructor" is labelled with the inherited
      `constructor` function instead of "Constructor". */
  lemma ConstructorLabel()
    ensures DisplayNameAsWritten("constructor") == Inherited("constructor")
    ensures DisplayName("constructor") == "Constructor"
  {
    ConstructorLabelFacts();
  }

  lemma ConstructorLabelFacts()
    ensures Lower("constructor") == "constructor"
    ensures "constructor" !in CategoryMapping && "constructor" in ObjectPrototypeMembers
    ensures Capitalize("constructor") == "Constructor"
  {
    assert Lower("constructor") == "constructor";
  }

  /** The labels of the entries whose amount is not zero, in entry order. */
  function PieLabels(entries: seq<(string, real)>): (r: seq<string>)
  {
    if entries == [] then []
    else
      var last := entries[|entries| - 1];
      PieLabels(entries[..|entries| - 1]) + (if Abs(last.1) > 0.0 then [DisplayName(last.0)] else [])
  }

  /** The magnitudes of the amounts that are not zero, in entry order. */
  function PieData(entries: seq<(string, real)>): (r: seq<real>)
  {
    if entries == [] then []
    else
      var last := entries[|entries| - 1];
      PieData(entries[..|entries| - 1]) + (if Abs(last.1) > 0.0 then [Abs(last.1)] else [])
  }

  /** Labels and data stay parallel, every slice is positive, and each slice
      comes from an entry with that display name and that magnitude. */
  lemma {:induction false} PieIsParallel(entries: seq<(string, real)>)
    ensures |PieLabels(entries)| == |PieData(entries)| <= |entries|
    ensures forall i :: 0 <= i < |PieData(entries)| ==> PieData(entries)[i] > 0.0
    ensures forall i :: 0 <= i < |PieData(entries)| ==>
              exists j :: 0 <= j < |entries| && PieLabels(entries)[i] == DisplayName(entries[j].0)
                                             && PieData(entries)[i] == Abs(entries[j].1)
  {
    if entries != [] {
      var init := entries[..|entries| - 1];
      var last := entries[|entries| - 1];
      PieIsParallel(init);
      var labels, data := PieLabels(entries), PieData(entries);
      assert labels == PieLabels(init) + (if Abs(last.1) > 0.0 then [DisplayName(last.0)] else []);
      assert data == PieData(init) + (if Abs(last.1) > 0.0 then [Abs(last.1)] else []);
      forall i | 0 <= i < |data|
        ensures exists j :: 0 <= j < |entries| && labels[i] == DisplayName(entries[j].0)
                                               && data[i] == Abs(entries[j].1)
      {
        if i < |PieData(init)| {
          var j :| 0 <= j < |init| && PieLabels(init)[i] == DisplayName(init[j].0)
                                   && PieData(init)[i] == Abs(init[j].1);
          assert labels[i] == PieLabels(init)[i] && data[i] == PieData(init)[i];
          assert entries[j] == init[j];
        } else {
          assert labels[i] == DisplayName(last.0) && data[i] == Abs(last.1);
        }
      }
    }
  }

  /** Appending one entry appends its slice, if any, to the labels. */
  lemma PieLabelsSnoc(s: seq<(string, real)>, e: (string, real))
    ensures PieLabels(s + [e]) == PieLabels(s) + (if Abs(e.1) > 0.0 then [DisplayName(e.0)] else [])
  {
    assert (s + [e])[..|s|] == s;
  }

  /** Appending one entry appends its slice, if any, to the data. */
  lemma PieDataSnoc(s: seq<(string, real)>, e: (string, real))
    ensures PieData(s + [e]) == PieData(s) + (if Abs(e.1) > 0.0 then [Abs(e.1)] else [])
  {
    assert (s + [e])[..|s|] == s;
  }

  /** The labels of a concatenation are the concatenation of the labels. */
  lemma {:induction false} PieLabelsAppend(a: seq<(string, real)>, b: seq<(string, real)>)
    ensures PieLabels(a + b) == PieLabels(a) + PieLabels(b)
  {
    if b == [] {
      assert a + b == a;
    } else {
      var init, last := b[..|b| - 1], b[|b| - 1];
      assert b == init + [last];
      assert a + b == (a + init) + [last];
      PieLabelsAppend(a, init);
      PieLabelsSnoc(a + init, last);
      PieLabelsSnoc(init, last);
    }
  }

  /** The data of a concatenation are the concatenation of the data. */
  lemma {:induction false} PieDataAppend(a: seq<(string, real)>, b: seq<(string, real)>)
    ensures PieData(a + b) == PieData(a) + PieData(b)
  {
    if b == [] {
      assert a + b == a;
    } else {
      var init, last := b[..|b| - 1], b[|b| - 1];
      assert b == init + [last];
      assert a + b == (a + init) + [last];
      PieDataAppend(a, init);
      PieDataSnoc(a + init, last);
      PieDataSnoc(init, last);
    }
  }

  /** The chart of a single entry: one slice exactly when its amount is not zero. */
  lemma {:induction false} PieOfOne(e: (string, real))
    ensures PieLabels([e]) == if Abs(e.1) > 0.0 then [DisplayName(e.0)] else []
    ensures PieData([e]) == if Abs(e.1) > 0.0 then [Abs(e.1)] else []
  {
    assert [e][..0] == [];
  }

  /** A category with a zero amount gets no slice, wherever it is listed. */
  lemma {:induction false} ZeroAmountDropped(before: seq<(string, real)>, category: string, after: seq<(string, real)>)
    ensures PieLabels(before + [(category, 0.0)] + after) == PieLabels(before) + PieLabels(after)
    ensures PieData(before + [(category, 0.0)] + after) == PieData(before) + PieData(after)
  {
    var zero := [(category, 0.0)];
    calc {
      PieLabels(before + zero + after);
    == { PieLabelsAppend(before + zero, after); }
      PieLabels(before + zero) + PieLabels(after);
    == { PieLabelsAppend(before, zero); PieOfOne((category, 0.0)); }
      PieLabels(before) + PieLabels(after);
    }
    calc {
      PieData(before + zero + after);
    == { PieDataAppend(before + zero, after); }
      PieData(before + zero) + PieData(after);
    == { PieDataAppend(before, zero); PieOfOne((category, 0.0)); }
      PieData(before) + PieData(after);
    }
  }

  /** A category with a non-zero amount gets its slice, in its place: its
      display name as the label and the magnitude of its amount as the value. */
  lemma {:induction false} NonZeroAmountKept(before: seq<(string, real)>, entry: (string, real), after: seq<(string, real)>)
    requires Abs(entry.1) > 0.0
    ensures PieLabels(before + [entry] + after) == PieLabels(before) + [DisplayName(entry.0)] + PieLabels(after)
    ensures PieData(before + [entry] + after) == PieData(before) + [Abs(entry.1)] + PieData(after)
  {
    calc {
      PieLabels(before + [entry] + after);
    == { PieLabelsAppend(before + [entry], after); }
      PieLabels(before + [entry]) + PieLabels(after);
    == { PieLabelsAppend(before, [entry]); PieOfOne(entry); }
      PieLabels(before) + [DisplayName(entry.0)] + PieLabels(after);
    }
    calc {
      PieData(before + [entry] + after);
    == { PieDataAppend(before + [entry], after); }
      PieData(before + [entry]) + PieData(after);
    == { PieDataAppend(before, [entry]); PieOfOne(entry); }
      PieData(before) + [Abs(entry.1)] + PieData(after);
    }
  }

  /** The transform of `fetchPieChartData` over the entries of the response,
      in the order `Object.entries` lists them. */
  method PieChart(entries: seq<(string, real)>) returns (labels: seq<string>, data: seq<real>)
    ensures labels == PieLabels(entries) && data == PieData(entries)
    ensures |labels| == |data|
    ensures forall i :: 0 <= i < |data| ==> data[i] > 0.0
  {
    labels, data := [], [];
    for i := 0 to |entries|
      invariant labels == PieLabels(entries[..i]) && data == PieData(entries[..i])
    {
      assert entries[..i + 1][..i] == entries[..i];
      var (category, amount) := entries[i];
      var displayName := DisplayName(category);
      var positiveAmount := Abs(amount);
      if positiveAmount > 0.0 {
        labels := labels + [displayName];
        data := data + [positiveAmount];
      }
    }
    assert entries[..|entries|] == entries;
    PieIsParallel(entries);
  }
}

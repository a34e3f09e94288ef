/** The daily-ledger screen: the entry form, whose income/expense toggle
    alone decides the sign of the stored amount, and the list view, which
    shows the entries of the active allowance tab grouped by date with the
    newest date first.

    Dates are `YYYY-MM-DD` strings, whose calendar order is their
    lexicographic order. */
module DailyPage {
  import opened Wrappers
  import opened Types
  import opened Lists
  import opened Totals
  import opened Ledger
  import opened Text
  import opened Sorting

  datatype Transaction = Income | Expense

  datatype DailyForm = DailyForm(
    date: string,
    description: string,
    amount: Option<int>,
    kind: ExpenseType,
    transaction: Transaction,
    activeTab: ExpenseType)

  /** The amount stored for an entered number: its magnitude, negated for
      an expense. */
  function SignedAmount(t: Transaction, n: int): (r: int)
    ensures Abs(r) == Abs(n)
    ensures t == Expense ==> r <= 0
    ensures t == Income ==> r >= 0
  {
    if t == Expense then -Abs(n) else Abs(n)
  }

  /** Submitting the form: with a description and an amount, one entry is
      added for the chosen date and allowance and the description and
      amount are cleared; otherwise nothing happens. */
  function SubmitDaily(s: BudgetState, form: DailyForm, newId: string): (r: Submission<DailyForm>)
    ensures form.description == "" || form.amount.None? ==> r == Submission(s, form)
    ensures form.description != "" && form.amount.Some? ==>
      && r.form == form.(description := "", amount := None)
      && r.state.dailyExpenses == s.dailyExpenses
           + [DailyExpense(newId, form.date, form.description, SignedAmount(form.transaction, form.amount.value), form.kind)]
      && r.state.(dailyExpenses := s.dailyExpenses) == s
  {
    if form.description == "" || form.amount.None? then Submission(s, form)
    else
      var amount := SignedAmount(form.transaction, form.amount.value);
      Submission(AddDailyExpense(s, form.date, form.description, amount, form.kind, newId),
                 form.(description := "", amount := None))
  }

  /** The sign of a stored entry follows the toggle alone: an expense
      never adds to its allowance and an income never takes from it,
      whatever sign the typed number had. */
  lemma {:induction false} SubmitDailySign(s: BudgetState, form: DailyForm, newId: string)
    requires form.description != "" && form.amount.Some?
    ensures var r := SubmitDaily(s, form, newId).state;
      && DailyNet(r.dailyExpenses, form.kind) == DailyNet(s.dailyExpenses, form.kind)
           + (if form.transaction == Expense then -Abs(form.amount.value) else Abs(form.amount.value))
      && (form.transaction == Expense ==> DailyIncome(r.dailyExpenses, form.kind) == DailyIncome(s.dailyExpenses, form.kind))
      && (form.transaction == Income ==> DailySpent(r.dailyExpenses, form.kind) == DailySpent(s.dailyExpenses, form.kind))
  {
    var e := DailyExpense(newId, form.date, form.description, SignedAmount(form.transaction, form.amount.value), form.kind);
    DailyAppend(s.dailyExpenses, [e], form.kind);
    assert [e][1..] == [];
  }

  /** Picking an allowance in the form also switches the list to its tab. */
  function ChooseType(form: DailyForm, k: ExpenseType): (r: DailyForm)
    ensures r.kind == k && r.activeTab == k
    ensures r.(kind := form.kind, activeTab := form.activeTab) == form
  {
    form.(kind := k, activeTab := k)
  }

  /** Picking a tab switches the list only. */
  function ChooseTab(form: DailyForm, k: ExpenseType): (r: DailyForm)
    ensures r.activeTab == k && r.(activeTab := form.activeTab) == form
  {
    form.(activeTab := k)
  }

  /** The entries of the active tab, in ledger order. */
  function Filtered(ds: seq<DailyExpense>, tab: ExpenseType): (r: seq<DailyExpense>)
    ensures |r| <= |ds|
    ensures forall i :: 0 <= i < |r| ==> r[i].kind == tab && r[i] in ds
    ensures forall i :: 0 <= i < |ds| && ds[i].kind == tab ==> ds[i] in r
  {
    if |ds| == 0 then []
    else (if ds[0].kind == tab then [ds[0]] else []) + Filtered(ds[1..], tab)
  }

  /** Filtering keeps ledger order: it distributes over concatenation, so
      the entries of the tab appear in the order they were entered. */
  lemma {:induction false} FilteredAppend(a: seq<DailyExpense>, b: seq<DailyExpense>, tab: ExpenseType)
    ensures Filtered(a + b, tab) == Filtered(a, tab) + Filtered(b, tab)
  {
    if |a| == 0 {
      assert a + b == b;
    } else {
      assert (a + b)[1..] == a[1..] + b;
      FilteredAppend(a[1..], b, tab);
    }
  }

  /** A tab's net flow is its own entries' flow: the other tab's entries
      count for nothing. */
  lemma {:induction false} FilteredNet(ds: seq<DailyExpense>, tab: ExpenseType)
    ensures DailyNet(Filtered(ds, tab), tab) == DailyNet(ds, tab)
    ensures DailyNet(Filtered(ds, tab), if tab == Nakit then Yk else Nakit) == 0
  {
    if |ds| > 0 {
      var head := if ds[0].kind == tab then [ds[0]] else [];
      FilteredNet(ds[1..], tab);
      DailyAppend(head, Filtered(ds[1..], tab), tab);
      DailyAppend(head, Filtered(ds[1..], tab), if tab == Nakit then Yk else Nakit);
      if ds[0].kind == tab {
        assert head[1..] == [];
      }
    }
  }

  /** The entries dated `d`, in ledger order. */
  function WithDate(ds: seq<DailyExpense>, d: string): (r: seq<DailyExpense>)
    ensures forall i :: 0 <= i < |r| ==> r[i].date == d && r[i] in ds
    ensures forall i :: 0 <= i < |ds| && ds[i].date == d ==> ds[i] in r
    ensures |r| == 0 <==> forall i :: 0 <= i < |ds| ==> ds[i].date != d
  {
    if |ds| == 0 then []
    else (if ds[0].date == d then [ds[0]] else []) + WithDate(ds[1..], d)
  }

  lemma {:induction false} WithDateAppend(a: seq<DailyExpense>, b: seq<DailyExpense>, d: string)
    ensures WithDate(a + b, d) == WithDate(a, d) + WithDate(b, d)
  {
    if |a| == 0 {
      assert a + b == b;
    } else {
      var head := if a[0].date == d then [a[0]] else [];
      assert (a + b)[0] == a[0] && (a + b)[1..] == a[1..] + b;
      assert WithDate(a + b, d) == head + WithDate(a[1..] + b, d);
      WithDateAppend(a[1..], b, d);
      AppendAssoc(head, WithDate(a[1..], d), WithDate(b, d));
    }
  }

  /** The groups of the list view, built entry by entry from the first:
      each entry is pushed onto the group of its date, which is opened
      when first seen. */
  function Grouped(ds: seq<DailyExpense>): map<string, seq<DailyExpense>>
    decreases |ds|
  {
    if |ds| == 0 then map[]
    else
      var groups := Grouped(ds[..|ds| - 1]);
      var e := ds[|ds| - 1];
      groups[e.date := (if e.date in groups then groups[e.date] else []) + [e]]
  }

  /** The dates in the order their groups were opened. */
  function Dates(ds: seq<DailyExpense>): (r: seq<string>)
    ensures Distinct(r)
    ensures forall d :: d in r <==> d in Grouped(ds)
    decreases |ds|
  {
    if |ds| == 0 then []
    else
      var before := Dates(ds[..|ds| - 1]);
      var d := ds[|ds| - 1].date;
      if d in before then before else before + [d]
  }

  /** There is a group for exactly the dates that occur, and each group
      holds exactly the entries of its date in ledger order; so every entry
      lands in the group of its own date and in no other. */
  lemma {:induction false} GroupedByDate(ds: seq<DailyExpense>)
    ensures forall d :: d in Grouped(ds) <==> exists i :: 0 <= i < |ds| && ds[i].date == d
    ensures forall d :: d in Grouped(ds) ==> Grouped(ds)[d] == WithDate(ds, d)
  {
    GroupedKeys(ds);
    GroupedContents(ds);
  }

  /** A group is opened for exactly the dates that occur. */
  lemma {:induction false} GroupedKeys(ds: seq<DailyExpense>)
    ensures forall d :: d in Grouped(ds) <==> exists i :: 0 <= i < |ds| && ds[i].date == d
    decreases |ds|
  {
    if |ds| > 0 {
      var p := ds[..|ds| - 1];
      var e := ds[|ds| - 1];
      GroupedKeys(p);
      forall d ensures d in Grouped(ds) <==> exists i :: 0 <= i < |ds| && ds[i].date == d {
        if d in Grouped(ds) && d != e.date {
          assert d in Grouped(p);
          var i :| 0 <= i < |p| && p[i].date == d;
          assert ds[i] == p[i];
        }
        if exists i :: 0 <= i < |ds| && ds[i].date == d {
          var i :| 0 <= i < |ds| && ds[i].date == d;
          if i < |p| {
            assert p[i] == ds[i];
          }
        }
      }
    }
  }

  /** Each group holds exactly the entries of its date, in ledger order. */
  lemma {:induction false} GroupedContents(ds: seq<DailyExpense>)
    ensures forall d :: d in Grouped(ds) ==> Grouped(ds)[d] == WithDate(ds, d)
    decreases |ds|
  {
    if |ds| > 0 {
      var p := ds[..|ds| - 1];
      var e := ds[|ds| - 1];
      assert ds == p + [e];
      GroupedKeys(p);
      GroupedContents(p);
      forall d | d in Grouped(ds) ensures Grouped(ds)[d] == WithDate(ds, d) {
        WithDateAppend(p, [e], d);
        assert WithDate([e], d) == if e.date == d then [e] else [];
        if d == e.date && d !in Grouped(p) {
          assert WithDate(p, d) == [];
        }
      }
    }
  }

  /** The identity key: dates are compared as themselves. */
  function DateKey(d: string): string { d }

  /** The dates of the list view, newest first. */
  function SortedDates(ds: seq<DailyExpense>): (r: seq<string>)
    ensures forall i, j :: 0 <= i < j < |r| ==> StrLt(r[j], r[i])
    ensures forall d :: d in r <==> exists i :: 0 <= i < |ds| && ds[i].date == d
  {
    var dates := Dates(ds);
    var r := SortDesc(dates, DateKey);
    DistinctPermutation(dates, r);
    StrictWhenDistinct(r, DateKey);
    GroupedByDate(ds);
    assert forall d :: d in r <==> d in dates by {
      forall d ensures d in r <==> d in dates {
        assert d in r <==> d in multiset(r);
        assert d in dates <==> d in multiset(dates);
      }
    }
    r
  }

  /** Each date paired with its group, in the order of `dates`. */
  function Pairs(dates: seq<string>, groups: map<string, seq<DailyExpense>>): (r: seq<(string, seq<DailyExpense>)>)
    requires forall k :: 0 <= k < |dates| ==> dates[k] in groups
    ensures |r| == |dates|
    ensures forall k :: 0 <= k < |dates| ==> r[k] == (dates[k], groups[dates[k]])
  {
    if |dates| == 0 then [] else [(dates[0], groups[dates[0]])] + Pairs(dates[1..], groups)
  }

  /** Every date shown has a group. */
  lemma SortedDatesGrouped(f: seq<DailyExpense>)
    ensures forall k :: 0 <= k < |SortedDates(f)| ==> SortedDates(f)[k] in Grouped(f)
  {
    var dates := SortedDates(f);
    GroupedByDate(f);
    forall k | 0 <= k < |dates| ensures dates[k] in Grouped(f) {
      assert dates[k] in dates;
      var i :| 0 <= i < |f| && f[i].date == dates[k];
    }
  }

  /** The list view of one tab: the tab's dates newest first, each with its
      group. */
  function View(ds: seq<DailyExpense>, tab: ExpenseType): (r: seq<(string, seq<DailyExpense>)>)
    ensures forall i, j :: 0 <= i < j < |r| ==> StrLt(r[j].0, r[i].0)
  {
    var f := Filtered(ds, tab);
    SortedDatesGrouped(f);
    Pairs(SortedDates(f), Grouped(f))
  }

  /** Each shown group holds exactly the tab's entries of its date, in
      ledger order, and is never empty; every entry of the tab is shown
      under its own date. */
  lemma ViewGroups(ds: seq<DailyExpense>, tab: ExpenseType)
    ensures var r := View(ds, tab);
      forall i :: 0 <= i < |r| ==> r[i].1 == WithDate(Filtered(ds, tab), r[i].0) && |r[i].1| > 0
    ensures var r := View(ds, tab);
      forall i :: 0 <= i < |ds| && ds[i].kind == tab ==> exists j :: 0 <= j < |r| && r[j].0 == ds[i].date && ds[i] in r[j].1
  {
    var f := Filtered(ds, tab);
    var dates := SortedDates(f);
    var r := View(ds, tab);
    SortedDatesGrouped(f);
    GroupedByDate(f);
    forall i | 0 <= i < |r| ensures r[i].1 == WithDate(f, r[i].0) && |r[i].1| > 0 {
      assert r[i].0 == dates[i];
      assert dates[i] in dates;
      var m :| 0 <= m < |f| && f[m].date == dates[i];
    }
    forall i | 0 <= i < |ds| && ds[i].kind == tab
      ensures exists j :: 0 <= j < |r| && r[j].0 == ds[i].date && ds[i] in r[j].1
    {
      var m :| 0 <= m < |f| && f[m] == ds[i];
      assert f[m].date == ds[i].date;
      assert ds[i].date in dates;
      var j :| 0 <= j < |dates| && dates[j] == ds[i].date;
      assert ds[i] in WithDate(f, ds[i].date);
      assert r[j].0 == ds[i].date;
    }
  }
}

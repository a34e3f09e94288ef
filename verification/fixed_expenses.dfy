/** The fixed-expenses screen: the add form with its guard, the income and
    rollover fields, and the total and paid sums shown at the top. A
    numeric input field hands over either a number or nothing (an empty
    field). */
module FixedExpensesPage {
  import opened Wrappers
  import opened Types
  import opened Totals
  import opened Ledger

  datatype FixedForm = FixedForm(title: string, amount: Option<int>)

  const EmptyFixedForm := FixedForm("", None)

  /** Submitting the add form: with a title and an amount, one unpaid
      expense is added and the form is cleared; otherwise nothing happens. */
  function SubmitFixed(s: BudgetState, form: FixedForm, newId: string): (r: Submission<FixedForm>)
    ensures form.title == "" || form.amount.None? ==> r == Submission(s, form)
    ensures form.title != "" && form.amount.Some? ==>
      && r.form == EmptyFixedForm
      && r.state.fixedExpenses == s.fixedExpenses + [FixedExpense(newId, form.title, form.amount.value, false)]
      && r.state.(fixedExpenses := s.fixedExpenses) == s
  {
    if form.title == "" || form.amount.None? then Submission(s, form)
    else Submission(AddFixedExpense(s, form.title, form.amount.value, newId), EmptyFixedForm)
  }

  /** A successful submission raises the total by the amount and leaves the
      paid sum alone; a refused one changes neither. */
  lemma {:induction false} SubmitFixedTotals(s: BudgetState, form: FixedForm, newId: string)
    ensures var r := SubmitFixed(s, form, newId).state;
      && FixedTotal(r.fixedExpenses) == FixedTotal(s.fixedExpenses) + (if form.title != "" && form.amount.Some? then form.amount.value else 0)
      && PaidTotal(r.fixedExpenses) == PaidTotal(s.fixedExpenses)
  {
    if form.title != "" && form.amount.Some? {
      var e := FixedExpense(newId, form.title, form.amount.value, false);
      FixedTotalsAppend(s.fixedExpenses, [e]);
      assert [e][1..] == [];
    }
  }

  /** Leaving the income field saves its number, or 0 when it is empty. */
  function SaveIncome(s: BudgetState, input: Option<int>): (r: BudgetState)
    ensures input.Some? ==> r.income == input.value
    ensures input.None? ==> r.income == 0
    ensures r.(income := s.income) == s
  {
    UpdateIncome(s, input.GetOr(0))
  }

  /** Leaving the rollover field saves its number, or 0 when it is empty. */
  function SaveRollover(s: BudgetState, input: Option<int>): (r: BudgetState)
    ensures input.Some? ==> r.rollover == input.value
    ensures input.None? ==> r.rollover == 0
    ensures r.(rollover := s.rollover) == s
  {
    UpdateRollover(s, input.GetOr(0))
  }

  /** The total shown counts every expense whether paid or not: it is the
      paid sum plus what is still open, and toggling an entry keeps it. */
  lemma {:induction false} TotalCountsPaidAndUnpaid(s: BudgetState, id: string)
    ensures FixedTotal(s.fixedExpenses) == PaidTotal(s.fixedExpenses) + UnpaidTotal(s.fixedExpenses)
    ensures FixedTotal(ToggleFixedExpense(s, id).fixedExpenses) == FixedTotal(s.fixedExpenses)
  {
    PaidPlusUnpaid(s.fixedExpenses);
    ToggleKeepsTotal(s.fixedExpenses, id);
  }

  lemma {:induction false} ToggleKeepsTotal(fs: seq<FixedExpense>, id: string)
    ensures FixedTotal(Toggled(fs, id)) == FixedTotal(fs)
  {
    if |fs| > 0 {
      assert Toggled(fs, id)[1..] == Toggled(fs[1..], id);
      ToggleKeepsTotal(fs[1..], id);
    }
  }
}

/** The credit-card screen: the add form with its guard and the debt total
    shown at the top. */
module DebtPage {
  import opened Wrappers
  import opened Types
  import opened Totals
  import opened Ledger

  datatype DebtForm = DebtForm(description: string, amount: Option<int>)

  const EmptyDebtForm := DebtForm("", None)

  /** Submitting the add form: with a description and an amount, one line
      without installment details is added and the form is cleared;
      otherwise nothing happens. */
  function SubmitDebt(s: BudgetState, form: DebtForm, newId: string): (r: Submission<DebtForm>)
    ensures form.description == "" || form.amount.None? ==> r == Submission(s, form)
    ensures form.description != "" && form.amount.Some? ==>
      && r.form == EmptyDebtForm
      && r.state.ccDebts == s.ccDebts + [CCDebt(newId, form.description, form.amount.value, None, None, None)]
      && r.state.(ccDebts := s.ccDebts) == s
  {
    if form.description == "" || form.amount.None? then Submission(s, form)
    else Submission(AddCCDebt(s, form.description, form.amount.value, None, None, None, newId), EmptyDebtForm)
  }

  /** A successful submission raises the total by exactly the amount. */
  lemma {:induction false} SubmitDebtTotal(s: BudgetState, form: DebtForm, newId: string)
    ensures DebtTotal(SubmitDebt(s, form, newId).state.ccDebts)
         == DebtTotal(s.ccDebts) + (if form.description != "" && form.amount.Some? then form.amount.value else 0)
  {
    if form.description != "" && form.amount.Some? {
      var d := CCDebt(newId, form.description, form.amount.value, None, None, None);
      DebtTotalAppend(s.ccDebts, [d]);
      assert [d][1..] == [];
    }
  }
}

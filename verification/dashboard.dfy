/** The summary screen: what is left of the cash and meal-card (YK)
    allowances, what the credit card owes, and how much of the cash budget
    is spent. Daily entries count as income when positive and as spending
    when negative, each towards its own allowance; paid fixed expenses
    count as cash spending. */
module Dashboard {
  import opened Wrappers
  import opened Types
  import opened Lists
  import opened Totals
  import opened Ledger
  import opened ProgressBar

  datatype Summary = Summary(
    totalYkResources: int,     // meal-card income plus rollover
    ykSpent: int,              // meal-card spending, as a positive sum
    dailyCashIncome: int,
    dailyYkIncome: int,
    finalYkResources: int,
    finalRemainingYk: int,
    totalCashResources: int,   // cash income, rollover and daily cash income
    paidFixedExpenses: int,
    cashSpent: int,            // daily cash spending, as a positive sum
    totalCashSpent: int,
    remainingCash: int,
    totalCCDebt: int,
    spendingPercentage: real,  // share of the cash resources spent
    barMax: int)               // the maximum handed to the progress bar

  /** Every figure of the summary screen. */
  function Summarize(s: BudgetState): (r: Summary)
    ensures r.ykSpent >= 0 && r.cashSpent >= 0
    ensures r.finalRemainingYk == OrZero(s.ykIncome) + OrZero(s.ykRollover) + DailyNet(s.dailyExpenses, Yk)
    ensures r.remainingCash == s.income + s.rollover + DailyNet(s.dailyExpenses, Nakit) - PaidTotal(s.fixedExpenses)
    ensures r.totalCashResources <= 0 ==> r.spendingPercentage == 0.0
    ensures r.totalCashResources > 0 ==> r.spendingPercentage * (r.totalCashResources as real) == (r.totalCashSpent as real) * 100.0
    ensures r.barMax != 0
    ensures r.totalCashResources != 0 ==> r.barMax == r.totalCashResources
  {
    var ds := s.dailyExpenses;
    var totalYkResources := OrZero(s.ykIncome) + OrZero(s.ykRollover);
    var ykSpent := DailySpent(ds, Yk);
    var dailyCashIncome := DailyIncome(ds, Nakit);
    var dailyYkIncome := DailyIncome(ds, Yk);
    var finalYkResources := totalYkResources + dailyYkIncome;
    var finalRemainingYk := finalYkResources - ykSpent;
    var totalCashResources := s.income + s.rollover + dailyCashIncome;
    var paidFixedExpenses := PaidTotal(s.fixedExpenses);
    var cashSpent := DailySpent(ds, Nakit);
    var totalCashSpent := paidFixedExpenses + cashSpent;
    var remainingCash := totalCashResources - totalCashSpent;
    var totalCCDebt := DebtTotal(s.ccDebts);
    var spendingPercentage :=
      if totalCashResources > 0 then (totalCashSpent as real) / (totalCashResources as real) * 100.0 else 0.0;
    var barMax := if totalCashResources != 0 then totalCashResources else 1;
    IncomeMinusSpent(ds, Yk);
    IncomeMinusSpent(ds, Nakit);
    Summary(totalYkResources, ykSpent, dailyCashIncome, dailyYkIncome, finalYkResources, finalRemainingYk,
            totalCashResources, paidFixedExpenses, cashSpent, totalCashSpent, remainingCash, totalCCDebt,
            spendingPercentage, barMax)
  }

  /** The share of the cash budget left, as displayed next to the bar. */
  function RemainingPercentage(s: BudgetState): (r: real)
    ensures Summarize(s).totalCashResources <= 0 ==> r == 100.0
  {
    100.0 - Summarize(s).spendingPercentage
  }

  /** A daily entry moves the remaining balance of its own allowance by its
      signed amount and leaves every figure of the other allowance alone;
      an entry of amount 0 changes no daily figure at all. */
  lemma {:induction false} DailyEntryEffect(s: BudgetState, date: string, description: string, amount: int, kind: ExpenseType, newId: string)
    ensures var before := Summarize(s);
      var after := Summarize(AddDailyExpense(s, date, description, amount, kind, newId));
      && after.finalRemainingYk == before.finalRemainingYk + (if kind == Yk then amount else 0)
      && after.remainingCash == before.remainingCash + (if kind == Nakit then amount else 0)
      && (kind == Nakit ==> after.ykSpent == before.ykSpent && after.dailyYkIncome == before.dailyYkIncome
                            && after.finalYkResources == before.finalYkResources)
      && (kind == Yk ==> after.cashSpent == before.cashSpent && after.dailyCashIncome == before.dailyCashIncome
                         && after.totalCashResources == before.totalCashResources)
      && (amount == 0 ==> after == before)
  {
    var e := DailyExpense(newId, date, description, amount, kind);
    var ds := s.dailyExpenses;
    DailyAppend(ds, [e], Yk);
    DailyAppend(ds, [e], Nakit);
    assert [e][1..] == [];
  }

  /** Marking an unpaid fixed expense paid lowers the remaining cash by
      exactly its amount; un-marking a paid one raises it by that amount. */
  lemma TogglePaidMovesCash(s: BudgetState, k: int, id: string)
    requires UniqueAt(s.fixedExpenses, k, id, FixedId)
    ensures Summarize(ToggleFixedExpense(s, id)).remainingCash
         == Summarize(s).remainingCash + (if s.fixedExpenses[k].isPaid then s.fixedExpenses[k].amount else -s.fixedExpenses[k].amount)
  {
    ToggleMovesAmount(s.fixedExpenses, k, id);
  }

  /** A new fixed expense starts unpaid and so leaves the remaining cash
      unchanged. */
  lemma {:induction false} UnpaidAddKeepsCash(s: BudgetState, title: string, amount: int, newId: string)
    ensures Summarize(AddFixedExpense(s, title, amount, newId)).remainingCash == Summarize(s).remainingCash
  {
    FixedTotalsAppend(s.fixedExpenses, [FixedExpense(newId, title, amount, false)]);
    assert [FixedExpense(newId, title, amount, false)][1..] == [];
  }

  /** After a month reset no fixed expense counts against the cash. */
  lemma ResetRestoresCash(s: BudgetState)
    ensures Summarize(ResetMonth(s)).remainingCash == s.income + s.rollover + DailyNet(s.dailyExpenses, Nakit)
  {
    ResetClearsPaid(s.fixedExpenses);
  }

  /** The credit-card figure is moved by adding or deleting a line exactly
      as the line's amount says. */
  lemma {:induction false} DebtFigure(s: BudgetState, description: string, amount: int, newId: string)
    ensures Summarize(AddCCDebt(s, description, amount, None, None, None, newId)).totalCCDebt
         == Summarize(s).totalCCDebt + amount
  {
    DebtTotalAppend(s.ccDebts, [CCDebt(newId, description, amount, None, None, None)]);
    assert [CCDebt(newId, description, amount, None, None, None)][1..] == [];
  }

  /** The progress bar of the summary screen is always drawn with a
      defined fill, and while the spending stays within positive resources
      it shows the displayed spending percentage. */
  lemma BarMatchesPercentage(s: BudgetState)
    ensures Percentage(Summarize(s).totalCashSpent as real, Summarize(s).barMax as real).Some?
    ensures var m := Summarize(s);
      m.totalCashResources > 0 && 0 <= m.totalCashSpent <= m.totalCashResources ==>
        Percentage(m.totalCashSpent as real, m.barMax as real) == Some(m.spendingPercentage)
  {
    var m := Summarize(s);
    if m.totalCashResources > 0 && 0 <= m.totalCashSpent <= m.totalCashResources {
      PercentageProportional(m.totalCashSpent as real, m.barMax as real);
    }
  }
}

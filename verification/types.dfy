/** The budget's entities and its root state record.

    The root record covers the fields of both shapes of the state found in
    the repository: the context's store (limits, gold holdings and gold
    prices) and the shared type declarations (current month, meal-card
    income and rollover, installment plans and the monthly history).
    Money is kept as exact integers (minor currency units); gold quantities
    and prices, which are fractional, are reals. */
module Types {
  import opened Wrappers

  /** A recurring monthly bill with a paid/unpaid flag. */
  datatype FixedExpense = FixedExpense(id: string, title: string, amount: int, isPaid: bool)

  /** Which allowance a daily entry draws on: cash (NAKIT) or the meal card (YK). */
  datatype ExpenseType = Nakit | Yk

  /** A dated cash or meal-card transaction; positive is income, negative is spending. */
  datatype DailyExpense = DailyExpense(id: string, date: string, description: string, amount: int, kind: ExpenseType)

  /** One line of the credit-card statement, optionally linked to an installment plan. */
  datatype CCDebt = CCDebt(
    id: string,
    description: string,
    amount: int,
    installmentId: Option<string>,
    currentInstallment: Option<int>,
    totalInstallments: Option<int>)

  /** A multi-month credit-card installment plan. */
  datatype Installment = Installment(
    id: string,
    description: string,
    totalAmount: int,
    installmentCount: int,
    remainingInstallments: int,
    monthlyAmount: int,
    startDate: string)

  /** The archived figures and lists of one past month. */
  datatype MonthlyHistory = MonthlyHistory(
    month: string,
    income: int,
    rollover: int,
    ykIncome: Option<int>,
    ykRollover: Option<int>,
    fixedExpenses: seq<FixedExpense>,
    dailyExpenses: seq<DailyExpense>,
    ccDebts: seq<CCDebt>)

  /** Daily spending limits for cash and meal card. */
  datatype Limits = Limits(nakit: int, yk: int)

  /** Gold holdings: grams of 22- and 24-carat gold and a count of Reşat coins. */
  datatype GoldPortfolio = GoldPortfolio(g22: real, g24: real, resat: real)

  /** Unit prices of the three gold kinds and the time they were stamped. */
  datatype GoldPrices = GoldPrices(g22: real, g24: real, resat: real, lastUpdated: string)

  /** The whole persisted budget. `ykIncome` and `ykRollover` may be absent
      in stored data; every reader treats an absent value as 0. */
  datatype BudgetState = BudgetState(
    currentMonth: string,
    income: int,
    rollover: int,
    ykIncome: Option<int>,
    ykRollover: Option<int>,
    limits: Limits,
    fixedExpenses: seq<FixedExpense>,
    dailyExpenses: seq<DailyExpense>,
    ccDebts: seq<CCDebt>,
    installments: seq<Installment>,
    history: seq<MonthlyHistory>,
    gold: GoldPortfolio,
    goldPrices: GoldPrices)

  /** What a form submission leaves behind: the next state and the form
      as it stands on screen afterwards. */
  datatype Submission<F> = Submission(state: BudgetState, form: F)

  // Identifier accessors, for operations generic over the id-keyed lists.
  function FixedId(e: FixedExpense): string { e.id }
  function DailyId(e: DailyExpense): string { e.id }
  function DebtId(d: CCDebt): string { d.id }
  function PlanId(p: Installment): string { p.id }

  /** `x || 0` for an optional number: an absent value reads as 0. */
  function OrZero(x: Option<int>): int {
    x.GetOr(0)
  }

  /** The store's starting state: no income, limits 250 (cash) and 320
      (meal card), no entries, no gold and unset prices. The fields the
      store's initial value does not mention are empty here. */
  const InitialState: BudgetState := BudgetState(
    "", 0, 0, None, None,
    Limits(250, 320),
    [], [], [], [], [],
    GoldPortfolio(0.0, 0.0, 0.0),
    GoldPrices(0.0, 0.0, 0.0, ""))
}

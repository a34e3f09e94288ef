/** The sums over filtered lists that every summary screen is built from:
    fixed-expense totals (all, paid, unpaid), the credit-card total, and
    per-allowance daily income, spending and net flow. Each is the
    left-to-right `reduce` of the source, starting from 0. */
module Totals {
  import opened Types

  /** Sum of every fixed-expense amount, paid or not. */
  function FixedTotal(fs: seq<FixedExpense>): int {
    if |fs| == 0 then 0 else fs[0].amount + FixedTotal(fs[1..])
  }

  /** Sum of the amounts of the fixed expenses marked paid. */
  function PaidTotal(fs: seq<FixedExpense>): int {
    if |fs| == 0 then 0
    else (if fs[0].isPaid then fs[0].amount else 0) + PaidTotal(fs[1..])
  }

  /** Sum of the amounts of the fixed expenses not yet paid. */
  function UnpaidTotal(fs: seq<FixedExpense>): int {
    if |fs| == 0 then 0
    else (if fs[0].isPaid then 0 else fs[0].amount) + UnpaidTotal(fs[1..])
  }

  /** Signed sum of every credit-card line. */
  function DebtTotal(cs: seq<CCDebt>): int {
    if |cs| == 0 then 0 else cs[0].amount + DebtTotal(cs[1..])
  }

  /** Sum of the positive amounts of the daily entries of kind `t`. */
  function DailyIncome(ds: seq<DailyExpense>, t: ExpenseType): (r: int)
    ensures r >= 0
  {
    if |ds| == 0 then 0
    else (if ds[0].kind == t && ds[0].amount > 0 then ds[0].amount else 0) + DailyIncome(ds[1..], t)
  }

  /** Sum of the absolute values of the negative amounts of the daily
      entries of kind `t`. */
  function DailySpent(ds: seq<DailyExpense>, t: ExpenseType): (r: int)
    ensures r >= 0
  {
    if |ds| == 0 then 0
    else (if ds[0].kind == t && ds[0].amount < 0 then Abs(ds[0].amount) else 0) + DailySpent(ds[1..], t)
  }

  /** Sum of all amounts, of either sign, of the daily entries of kind `t`. */
  function DailyNet(ds: seq<DailyExpense>, t: ExpenseType): int {
    if |ds| == 0 then 0
    else (if ds[0].kind == t then ds[0].amount else 0) + DailyNet(ds[1..], t)
  }

  function Abs(x: int): (r: int)
    ensures r >= 0 && (r == x || r == -x)
  {
    if x < 0 then -x else x
  }

  /** Paid and unpaid amounts together make up the whole fixed total. */
  lemma {:induction false} PaidPlusUnpaid(fs: seq<FixedExpense>)
    ensures PaidTotal(fs) + UnpaidTotal(fs) == FixedTotal(fs)
  {
    if |fs| > 0 {
      PaidPlusUnpaid(fs[1..]);
    }
  }

  /** Income minus spending of one allowance is its net daily flow: an
      entry counts in income when positive, in spending when negative and
      in neither when zero, and in the net with its sign. */
  lemma {:induction false} IncomeMinusSpent(ds: seq<DailyExpense>, t: ExpenseType)
    ensures DailyIncome(ds, t) - DailySpent(ds, t) == DailyNet(ds, t)
  {
    if |ds| > 0 {
      IncomeMinusSpent(ds[1..], t);
    }
  }

  lemma {:induction false} FixedTotalsAppend(a: seq<FixedExpense>, b: seq<FixedExpense>)
    ensures FixedTotal(a + b) == FixedTotal(a) + FixedTotal(b)
    ensures PaidTotal(a + b) == PaidTotal(a) + PaidTotal(b)
    ensures UnpaidTotal(a + b) == UnpaidTotal(a) + UnpaidTotal(b)
  {
    if |a| == 0 {
      assert a + b == b;
    } else {
      assert (a + b)[1..] == a[1..] + b;
      FixedTotalsAppend(a[1..], b);
    }
  }

  lemma {:induction false} DebtTotalAppend(a: seq<CCDebt>, b: seq<CCDebt>)
    ensures DebtTotal(a + b) == DebtTotal(a) + DebtTotal(b)
  {
    if |a| == 0 {
      assert a + b == b;
    } else {
      assert (a + b)[1..] == a[1..] + b;
      DebtTotalAppend(a[1..], b);
    }
  }

  lemma {:induction false} DailyAppend(a: seq<DailyExpense>, b: seq<DailyExpense>, t: ExpenseType)
    ensures DailyIncome(a + b, t) == DailyIncome(a, t) + DailyIncome(b, t)
    ensures DailySpent(a + b, t) == DailySpent(a, t) + DailySpent(b, t)
    ensures DailyNet(a + b, t) == DailyNet(a, t) + DailyNet(b, t)
  {
    if |a| == 0 {
      assert a + b == b;
    } else {
      assert (a + b)[1..] == a[1..] + b;
      DailyAppend(a[1..], b, t);
    }
  }
}

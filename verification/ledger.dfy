/** The store's state updaters: each user action is a total function from
    the previous state to the next one, touching one field and copying the
    rest. Identifiers that the store draws at random are parameters here.
    Loading merges a stored record over the initial state. */
module Ledger {
  import opened Wrappers
  import opened Types
  import opened Lists
  import opened Totals

  /** Adds an unpaid fixed expense with the given title and amount. */
  function AddFixedExpense(s: BudgetState, title: string, amount: int, newId: string): (r: BudgetState)
    ensures |r.fixedExpenses| == |s.fixedExpenses| + 1
    ensures r.fixedExpenses[..|s.fixedExpenses|] == s.fixedExpenses
    ensures r.fixedExpenses[|s.fixedExpenses|] == FixedExpense(newId, title, amount, false)
    ensures r.(fixedExpenses := s.fixedExpenses) == s
  {
    s.(fixedExpenses := s.fixedExpenses + [FixedExpense(newId, title, amount, false)])
  }

  /** `fs` with the paid flag flipped on every entry carrying `id`. */
  function Toggled(fs: seq<FixedExpense>, id: string): (r: seq<FixedExpense>)
    ensures |r| == |fs|
    ensures forall i :: 0 <= i < |fs| ==>
      && r[i].id == fs[i].id && r[i].title == fs[i].title && r[i].amount == fs[i].amount
      && r[i].isPaid == (if fs[i].id == id then !fs[i].isPaid else fs[i].isPaid)
  {
    if |fs| == 0 then []
    else
      var e := fs[0];
      [if e.id == id then e.(isPaid := !e.isPaid) else e] + Toggled(fs[1..], id)
  }

  /** Flips the paid flag of the fixed expenses carrying `id`. */
  function ToggleFixedExpense(s: BudgetState, id: string): (r: BudgetState)
    ensures r.(fixedExpenses := s.fixedExpenses) == s
  {
    s.(fixedExpenses := Toggled(s.fixedExpenses, id))
  }

  function DeleteFixedExpense(s: BudgetState, id: string): (r: BudgetState)
    ensures forall i :: 0 <= i < |r.fixedExpenses| ==> r.fixedExpenses[i].id != id
    ensures forall e :: e in s.fixedExpenses && e.id != id ==> e in r.fixedExpenses
    ensures forall e :: e in r.fixedExpenses ==> e in s.fixedExpenses
    ensures r.(fixedExpenses := s.fixedExpenses) == s
  {
    s.(fixedExpenses := Without(s.fixedExpenses, id, FixedId))
  }

  /** Appends a daily entry carrying the supplied fields and a new id. */
  function AddDailyExpense(s: BudgetState, date: string, description: string, amount: int, kind: ExpenseType, newId: string): (r: BudgetState)
    ensures |r.dailyExpenses| == |s.dailyExpenses| + 1
    ensures r.dailyExpenses[..|s.dailyExpenses|] == s.dailyExpenses
    ensures r.dailyExpenses[|s.dailyExpenses|] == DailyExpense(newId, date, description, amount, kind)
    ensures r.(dailyExpenses := s.dailyExpenses) == s
  {
    s.(dailyExpenses := s.dailyExpenses + [DailyExpense(newId, date, description, amount, kind)])
  }

  function DeleteDailyExpense(s: BudgetState, id: string): (r: BudgetState)
    ensures forall i :: 0 <= i < |r.dailyExpenses| ==> r.dailyExpenses[i].id != id
    ensures forall e :: e in s.dailyExpenses && e.id != id ==> e in r.dailyExpenses
    ensures forall e :: e in r.dailyExpenses ==> e in s.dailyExpenses
    ensures r.(dailyExpenses := s.dailyExpenses) == s
  {
    s.(dailyExpenses := Without(s.dailyExpenses, id, DailyId))
  }

  /** Appends a credit-card line carrying the supplied fields and a new id. */
  function AddCCDebt(
    s: BudgetState, description: string, amount: int,
    installmentId: Option<string>, currentInstallment: Option<int>, totalInstallments: Option<int>,
    newId: string): (r: BudgetState)
    ensures |r.ccDebts| == |s.ccDebts| + 1
    ensures r.ccDebts[..|s.ccDebts|] == s.ccDebts
    ensures r.ccDebts[|s.ccDebts|] == CCDebt(newId, description, amount, installmentId, currentInstallment, totalInstallments)
    ensures r.(ccDebts := s.ccDebts) == s
  {
    s.(ccDebts := s.ccDebts + [CCDebt(newId, description, amount, installmentId, currentInstallment, totalInstallments)])
  }

  function DeleteCCDebt(s: BudgetState, id: string): (r: BudgetState)
    ensures forall i :: 0 <= i < |r.ccDebts| ==> r.ccDebts[i].id != id
    ensures forall d :: d in s.ccDebts && d.id != id ==> d in r.ccDebts
    ensures forall d :: d in r.ccDebts ==> d in s.ccDebts
    ensures r.(ccDebts := s.ccDebts) == s
  {
    s.(ccDebts := Without(s.ccDebts, id, DebtId))
  }

  function UpdateGold(s: BudgetState, gold: GoldPortfolio): (r: BudgetState)
    ensures r.gold == gold && r.(gold := s.gold) == s
  {
    s.(gold := gold)
  }

  function UpdateGoldPrices(s: BudgetState, goldPrices: GoldPrices): (r: BudgetState)
    ensures r.goldPrices == goldPrices && r.(goldPrices := s.goldPrices) == s
  {
    s.(goldPrices := goldPrices)
  }

  function UpdateIncome(s: BudgetState, income: int): (r: BudgetState)
    ensures r.income == income && r.(income := s.income) == s
  {
    s.(income := income)
  }

  function UpdateRollover(s: BudgetState, rollover: int): (r: BudgetState)
    ensures r.rollover == rollover && r.(rollover := s.rollover) == s
  {
    s.(rollover := rollover)
  }

  function UpdateLimits(s: BudgetState, limits: Limits): (r: BudgetState)
    ensures r.limits == limits && r.(limits := s.limits) == s
  {
    s.(limits := limits)
  }

  /** `fs` with every entry marked unpaid. */
  function AllUnpaid(fs: seq<FixedExpense>): (r: seq<FixedExpense>)
    ensures |r| == |fs|
    ensures forall i :: 0 <= i < |fs| ==> r[i] == fs[i].(isPaid := false)
  {
    if |fs| == 0 then [] else [fs[0].(isPaid := false)] + AllUnpaid(fs[1..])
  }

  /** Starts a new month by clearing every paid flag; balances and all
      other lists stay as they are. */
  function ResetMonth(s: BudgetState): (r: BudgetState)
    ensures |r.fixedExpenses| == |s.fixedExpenses|
    ensures forall i :: 0 <= i < |s.fixedExpenses| ==>
      && !r.fixedExpenses[i].isPaid
      && r.fixedExpenses[i].id == s.fixedExpenses[i].id
      && r.fixedExpenses[i].title == s.fixedExpenses[i].title
      && r.fixedExpenses[i].amount == s.fixedExpenses[i].amount
    ensures r.(fixedExpenses := s.fixedExpenses) == s
  {
    s.(fixedExpenses := AllUnpaid(s.fixedExpenses))
  }

  // ---------------------------------------------------------------------
  // Loading from storage

  /** The fields found in a parsed stored record; `None` is a field that
      is missing (or, for the gold prices, falsy). */
  datatype Stored = Stored(
    currentMonth: Option<string>,
    income: Option<int>,
    rollover: Option<int>,
    ykIncome: Option<int>,
    ykRollover: Option<int>,
    limits: Option<Limits>,
    fixedExpenses: Option<seq<FixedExpense>>,
    dailyExpenses: Option<seq<DailyExpense>>,
    ccDebts: Option<seq<CCDebt>>,
    installments: Option<seq<Installment>>,
    history: Option<seq<MonthlyHistory>>,
    gold: Option<GoldPortfolio>,
    goldPrices: Option<GoldPrices>)

  /** What reading the storage slot produced. */
  datatype StorageRead =
    | NothingStored            // no entry, or an empty one
    | Unparseable              // the stored text is not valid JSON
    | Parsed(fields: Stored)

  /** The initial state with every stored field laid over it; the gold
      prices fall back to the initial ones when missing. */
  function Load(read: StorageRead): (r: BudgetState)
    ensures !read.Parsed? ==> r == InitialState
    ensures read.Parsed? && read.fields.goldPrices.None? ==> r.goldPrices == InitialState.goldPrices
    ensures read.Parsed? && read.fields.goldPrices.Some? ==> r.goldPrices == read.fields.goldPrices.value
  {
    match read
    case NothingStored => InitialState
    case Unparseable => InitialState
    case Parsed(f) =>
      var init := InitialState;
      BudgetState(
        f.currentMonth.GetOr(init.currentMonth),
        f.income.GetOr(init.income),
        f.rollover.GetOr(init.rollover),
        if f.ykIncome.Some? then f.ykIncome else init.ykIncome,
        if f.ykRollover.Some? then f.ykRollover else init.ykRollover,
        f.limits.GetOr(init.limits),
        f.fixedExpenses.GetOr(init.fixedExpenses),
        f.dailyExpenses.GetOr(init.dailyExpenses),
        f.ccDebts.GetOr(init.ccDebts),
        f.installments.GetOr(init.installments),
        f.history.GetOr(init.history),
        f.gold.GetOr(init.gold),
        f.goldPrices.GetOr(init.goldPrices))
  }

  /** The record a state is persisted as: every field present, except the
      meal-card figures when the state has none. */
  function Save(s: BudgetState): (f: Stored)
    ensures f.currentMonth == Some(s.currentMonth) && f.income == Some(s.income) && f.rollover == Some(s.rollover)
    ensures f.ykIncome == s.ykIncome && f.ykRollover == s.ykRollover
    ensures f.limits == Some(s.limits) && f.gold == Some(s.gold) && f.goldPrices == Some(s.goldPrices)
    ensures f.fixedExpenses == Some(s.fixedExpenses) && f.dailyExpenses == Some(s.dailyExpenses)
    ensures f.ccDebts == Some(s.ccDebts) && f.installments == Some(s.installments) && f.history == Some(s.history)
  {
    Stored(
      Some(s.currentMonth), Some(s.income), Some(s.rollover), s.ykIncome, s.ykRollover,
      Some(s.limits), Some(s.fixedExpenses), Some(s.dailyExpenses), Some(s.ccDebts),
      Some(s.installments), Some(s.history), Some(s.gold), Some(s.goldPrices))
  }

  // ---------------------------------------------------------------------
  // Properties

  /** Loading what was saved gives back the saved state. */
  lemma LoadSave(s: BudgetState)
    ensures Load(Parsed(Save(s))) == s
  {
  }

  /** A stored record with no fields loads as the initial state. */
  lemma LoadEmptyRecord()
    ensures Load(Parsed(Stored(None, None, None, None, None, None, None, None, None, None, None, None, None))) == InitialState
  {
  }

  /** A stored record that lacks only the gold prices keeps every stored
      field and takes the initial prices. */
  lemma LoadWithoutPrices(s: BudgetState)
    ensures Load(Parsed(Save(s).(goldPrices := None))) == s.(goldPrices := InitialState.goldPrices)
  {
  }

  /** Toggling the same id twice restores the list. */
  lemma ToggleTwice(s: BudgetState, id: string)
    ensures ToggleFixedExpense(ToggleFixedExpense(s, id), id) == s
  {
    var fs := s.fixedExpenses;
    var r := Toggled(Toggled(fs, id), id);
    assert forall i :: 0 <= i < |fs| ==> r[i] == fs[i];
  }

  /** Toggling keeps the fixed total and moves the toggled amounts between
      the paid and unpaid sums: with a single entry carrying `id`, the paid
      sum changes by exactly that entry's amount. */
  lemma {:induction false} ToggleMovesAmount(fs: seq<FixedExpense>, k: int, id: string)
    requires UniqueAt(fs, k, id, FixedId)
    ensures FixedTotal(Toggled(fs, id)) == FixedTotal(fs)
    ensures PaidTotal(Toggled(fs, id)) ==
      PaidTotal(fs) + (if fs[k].isPaid then -fs[k].amount else fs[k].amount)
  {
    if k == 0 {
      ToggleAbsent(fs[1..], id);
    } else {
      ToggleMovesAmount(fs[1..], k - 1, id);
    }
    assert Toggled(fs, id)[1..] == Toggled(fs[1..], id);
  }

  /** Toggling an id carried by no entry changes nothing. */
  lemma ToggleAbsent(fs: seq<FixedExpense>, id: string)
    requires Absent(fs, id, FixedId)
    ensures Toggled(fs, id) == fs
  {
    var r := Toggled(fs, id);
    assert forall i :: 0 <= i < |fs| ==> r[i] == fs[i];
  }

  /** After a reset nothing counts as paid, and the fixed total is kept. */
  lemma {:induction false} ResetClearsPaid(fs: seq<FixedExpense>)
    ensures PaidTotal(AllUnpaid(fs)) == 0
    ensures FixedTotal(AllUnpaid(fs)) == FixedTotal(fs)
  {
    if |fs| > 0 {
      assert AllUnpaid(fs)[1..] == AllUnpaid(fs[1..]);
      ResetClearsPaid(fs[1..]);
    }
  }

  /** Resetting twice is resetting once. */
  lemma ResetIdempotent(s: BudgetState)
    ensures ResetMonth(ResetMonth(s)) == ResetMonth(s)
  {
    var once := AllUnpaid(s.fixedExpenses);
    var twice := AllUnpaid(once);
    assert forall i :: 0 <= i < |once| ==> twice[i] == once[i];
  }

  /** Deleting twice is deleting once. */
  lemma DeleteIdempotent(s: BudgetState, id: string)
    ensures DeleteFixedExpense(DeleteFixedExpense(s, id), id) == DeleteFixedExpense(s, id)
    ensures DeleteDailyExpense(DeleteDailyExpense(s, id), id) == DeleteDailyExpense(s, id)
    ensures DeleteCCDebt(DeleteCCDebt(s, id), id) == DeleteCCDebt(s, id)
  {
    WithoutIdempotent(s.fixedExpenses, id, FixedId);
    WithoutIdempotent(s.dailyExpenses, id, DailyId);
    WithoutIdempotent(s.ccDebts, id, DebtId);
  }

  /** Deleting an id that no entry carries changes nothing. */
  lemma DeleteAbsent(s: BudgetState, id: string)
    requires Absent(s.fixedExpenses, id, FixedId)
    requires Absent(s.dailyExpenses, id, DailyId)
    requires Absent(s.ccDebts, id, DebtId)
    ensures DeleteFixedExpense(s, id) == s
    ensures DeleteDailyExpense(s, id) == s
    ensures DeleteCCDebt(s, id) == s
  {
    WithoutAbsent(s.fixedExpenses, id, FixedId);
    WithoutAbsent(s.dailyExpenses, id, DailyId);
    WithoutAbsent(s.ccDebts, id, DebtId);
  }

  /** Deleting by id keeps the other entries in their order: deleting from
      a state whose list is `a + b` deletes from `a` and `b` separately. */
  lemma DeleteKeepsOrder(s: BudgetState, a: seq<CCDebt>, b: seq<CCDebt>, id: string)
    requires s.ccDebts == a + b
    ensures DeleteCCDebt(s, id).ccDebts == Without(a, id, DebtId) + Without(b, id, DebtId)
  {
    WithoutAppend(a, b, id, DebtId);
  }

  /** Adding an entry under a fresh id and deleting that id again restores
      the state. */
  lemma DeleteUndoesAdd(s: BudgetState, title: string, amount: int, desc: string, date: string, kind: ExpenseType, newId: string)
    requires Absent(s.fixedExpenses, newId, FixedId)
    requires Absent(s.dailyExpenses, newId, DailyId)
    requires Absent(s.ccDebts, newId, DebtId)
    ensures DeleteFixedExpense(AddFixedExpense(s, title, amount, newId), newId) == s
    ensures DeleteDailyExpense(AddDailyExpense(s, date, desc, amount, kind, newId), newId) == s
    ensures DeleteCCDebt(AddCCDebt(s, desc, amount, None, None, None, newId), newId) == s
  {
    var f := FixedExpense(newId, title, amount, false);
    WithoutAppend(s.fixedExpenses, [f], newId, FixedId);
    WithoutAbsent(s.fixedExpenses, newId, FixedId);
    assert Without([f], newId, FixedId) == [];
    var d := DailyExpense(newId, date, desc, amount, kind);
    WithoutAppend(s.dailyExpenses, [d], newId, DailyId);
    WithoutAbsent(s.dailyExpenses, newId, DailyId);
    assert Without([d], newId, DailyId) == [];
    var c := CCDebt(newId, desc, amount, None, None, None);
    WithoutAppend(s.ccDebts, [c], newId, DebtId);
    WithoutAbsent(s.ccDebts, newId, DebtId);
    assert Without([c], newId, DebtId) == [];
  }

  /** Deleting a credit-card line whose id is unique lowers the debt total
      by exactly its amount. */
  lemma DeleteLowersDebt(s: BudgetState, k: int, id: string)
    requires UniqueAt(s.ccDebts, k, id, DebtId)
    ensures DebtTotal(DeleteCCDebt(s, id).ccDebts) == DebtTotal(s.ccDebts) - s.ccDebts[k].amount
  {
    var cs := s.ccDebts;
    WithoutUnique(cs, k, id, DebtId);
    assert cs == cs[..k] + ([cs[k]] + cs[k + 1..]);
    DebtTotalAppend(cs[..k], [cs[k]] + cs[k + 1..]);
    DebtTotalAppend([cs[k]], cs[k + 1..]);
    DebtTotalAppend(cs[..k], cs[k + 1..]);
  }
}

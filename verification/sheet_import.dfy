/** Reading a backup workbook back into a budget state.

    Rows are read in order and each one is tested against every rule: a
    `Section` label of a general figure sets that figure, a `Type` tag adds
    one entry to the matching list. Headings, notes and spacers match no
    rule. Sheets named "Mevcut…" are read into the state itself, sheets
    named `YYYY-MM` become history entries, all others are skipped, and the
    history is finally sorted newest month first.

    The random identifier drawn for a row without an id is a parameter:
    `newId(sheetName, n)` where `n` counts the entries already read into the
    state, so no two generated ids come from the same arguments. */
module SheetImport {
  import opened Wrappers
  import opened Types
  import opened Text
  import opened Sorting
  import opened SheetExport

  /** JavaScript truthiness of a cell: 0 and empty text are falsy. */
  predicate Truthy(c: Cell) {
    c != Num(0) && c != Text("")
  }

  /** `Number(cell)`; `None` stands for NaN. */
  function NumberOf(c: Cell): Option<int> {
    match c
    case Num(n) => Some(n)
    case Text(s) => ParseNumber(s)
  }

  /** `Number(cell) || fallback`: a zero or non-numeric cell gives `fallback`. */
  function NumberOr(c: Cell, fallback: int): (r: int)
    ensures NumberOf(c).Some? && NumberOf(c).value != 0 ==> r == NumberOf(c).value
    ensures NumberOf(c).None? || NumberOf(c) == Some(0) ==> r == fallback
  {
    match NumberOf(c)
    case Some(n) => if n == 0 then fallback else n
    case None => fallback
  }

  /** `cell ? Number(cell) : undefined` for the optional installment counters. */
  function OptionalNumber(c: Cell): (r: Option<int>)
    ensures !Truthy(c) ==> r.None?
    ensures c.Num? && c.n != 0 ==> r == Some(c.n)
  {
    if Truthy(c) then NumberOf(c) else None
  }

  /** The text a cell holds; a number is rendered in decimal. */
  function TextOf(c: Cell): string {
    match c
    case Text(s) => s
    case Num(n) => IntToString(n)
  }

  /** `row.ID || randomId`. */
  function IdOf(c: Cell, genId: string): (r: string)
    ensures Truthy(c) ==> r == TextOf(c)
    ensures !Truthy(c) ==> r == genId
  {
    if Truthy(c) then TextOf(c) else genId
  }

  function KindOf(c: Cell): (r: Option<ExpenseType>)
    ensures r == Some(Nakit) <==> c == Text("NAKIT")
    ensures r == Some(Yk) <==> c == Text("YK")
  {
    if c == Text("NAKIT") then Some(Nakit)
    else if c == Text("YK") then Some(Yk)
    else None
  }

  function DecodeFixed(row: Row, genId: string): (e: FixedExpense)
    ensures e.isPaid <==> row.isPaid == Text(Yes)
  {
    FixedExpense(IdOf(row.id, genId), TextOf(row.title), NumberOr(row.amount, 0), row.isPaid == Text(Yes))
  }

  /** A daily entry, or nothing when the row names no known allowance. */
  function DecodeDaily(row: Row, genId: string): Option<DailyExpense> {
    match KindOf(row.expenseType)
    case Some(k) => Some(DailyExpense(IdOf(row.id, genId), TextOf(row.date), TextOf(row.description), NumberOr(row.amount, 0), k))
    case None => None
  }

  function DecodeDebt(row: Row, genId: string): CCDebt {
    CCDebt(IdOf(row.id, genId), TextOf(row.description), NumberOr(row.amount, 0),
           Some(TextOf(row.installmentId)),
           OptionalNumber(row.currentInstallment), OptionalNumber(row.totalInstallments))
  }

  /** An installment plan; a zero, empty or non-numeric count reads as 1. */
  function DecodePlan(row: Row, genId: string): (p: Installment)
    ensures p.installmentCount != 0
    ensures (NumberOf(row.installmentCount).Some? && NumberOf(row.installmentCount).value != 0) ==>
              p.installmentCount == NumberOf(row.installmentCount).value
    ensures (NumberOf(row.installmentCount).None? || NumberOf(row.installmentCount) == Some(0)) ==>
              p.installmentCount == 1
  {
    Installment(IdOf(row.id, genId), TextOf(row.description),
                NumberOr(row.totalAmount, 0), NumberOr(row.installmentCount, 1),
                NumberOr(row.remainingInstallments, 0), NumberOr(row.monthlyAmount, 0),
                TextOf(row.startDate))
  }

  /** Entries read into the state so far. */
  function EntryCount(st: BudgetState): nat {
    |st.fixedExpenses| + |st.dailyExpenses| + |st.ccDebts| + |st.installments|
  }

  /** The effect of one row on the state being filled. The month is taken
      only on the current sheet, and installment plans only there too. */
  function ParseRow(row: Row, st: BudgetState, isCurrent: bool, newId: nat -> string): BudgetState {
    var genId := newId(EntryCount(st));
    var s1 := if row.section == Text(MonthLabel) && isCurrent then st.(currentMonth := TextOf(row.value)) else st;
    var s2 := if row.section == Text(IncomeLabel) then s1.(income := NumberOr(row.value, 0)) else s1;
    var s3 := if row.section == Text(RolloverLabel) then s2.(rollover := NumberOr(row.value, 0)) else s2;
    var s4 := if row.section == Text(YkIncomeLabel) then s3.(ykIncome := Some(NumberOr(row.value, 0))) else s3;
    var s5 := if row.section == Text(YkRolloverLabel) then s4.(ykRollover := Some(NumberOr(row.value, 0))) else s4;
    var s6 :=
      if row.kind == Text(FixedTag) then s5.(fixedExpenses := s5.fixedExpenses + [DecodeFixed(row, genId)])
      else s5;
    var s7 :=
      if row.kind == Text(DailyTag) && DecodeDaily(row, genId).Some? then
        s6.(dailyExpenses := s6.dailyExpenses + [DecodeDaily(row, genId).value])
      else s6;
    var s8 :=
      if row.kind == Text(DebtTag) then s7.(ccDebts := s7.ccDebts + [DecodeDebt(row, genId)])
      else s7;
    var s9 :=
      if isCurrent && row.kind == Text(PlanTag) then s8.(installments := s8.installments + [DecodePlan(row, genId)])
      else s8;
    s9
  }

  /** The rows of one sheet applied in order. */
  function ParseRows(rows: seq<Row>, st: BudgetState, isCurrent: bool, newId: nat -> string): BudgetState {
    if |rows| == 0 then st else ParseRows(rows[1..], ParseRow(rows[0], st, isCurrent, newId), isCurrent, newId)
  }

  /** The state an import starts from, and the scratch state a history sheet
      is read into: the given month, every figure 0, every list empty. */
  function EmptyImport(month: string): BudgetState {
    InitialState.(currentMonth := month, ykIncome := Some(0), ykRollover := Some(0))
  }

  /** A history entry named by its sheet, holding the figures and lists its
      rows describe. */
  function HistoryFromRows(name: string, rows: seq<Row>, newId: nat -> string): (h: MonthlyHistory)
    ensures h.month == name
  {
    var t := ParseRows(rows, EmptyImport(name), false, newId);
    MonthlyHistory(name, t.income, t.rollover, t.ykIncome, t.ykRollover, t.fixedExpenses, t.dailyExpenses, t.ccDebts)
  }

  datatype SheetKind = CurrentSheet | HistorySheet | Skipped

  /** How a sheet is treated, by its name alone. */
  function Classify(name: string): (k: SheetKind)
    ensures k == CurrentSheet <==> StartsWith(name, CurrentPrefix)
    ensures k == HistorySheet <==> !StartsWith(name, CurrentPrefix) && IsMonthName(name)
  {
    if StartsWith(name, CurrentPrefix) then CurrentSheet
    else if IsMonthName(name) then HistorySheet
    else Skipped
  }

  /** The id generator as seen from one sheet. */
  function SheetIds(newId: (string, nat) -> string, name: string): nat -> string {
    (n: nat) => newId(name, n)
  }

  /** The sheets applied in workbook order. Every current sheet is read into
      the same state; every history sheet appends one entry. */
  function ImportSheets(sheets: seq<Sheet>, st: BudgetState, newId: (string, nat) -> string): BudgetState {
    if |sheets| == 0 then st
    else
      var sh := sheets[0];
      var next :=
        match Classify(sh.name)
        case CurrentSheet => ParseRows(sh.rows, st, true, SheetIds(newId, sh.name))
        case HistorySheet => st.(history := st.history + [HistoryFromRows(sh.name, sh.rows, SheetIds(newId, sh.name))])
        case Skipped => st;
      ImportSheets(sheets[1..], next, newId)
  }

  function MonthOf(h: MonthlyHistory): string { h.month }

  /** The whole import: `defaultMonth` is the month used when no current
      sheet names one; the history comes out newest month first. */
  function ImportWorkbook(sheets: seq<Sheet>, defaultMonth: string, newId: (string, nat) -> string): (r: BudgetState)
    ensures SortedDesc(r.history, MonthOf)
    ensures multiset(r.history) == multiset(ImportSheets(sheets, EmptyImport(defaultMonth), newId).history)
  {
    var st := ImportSheets(sheets, EmptyImport(defaultMonth), newId);
    st.(history := SortDesc(st.history, MonthOf))
  }
}

/** The spreadsheet backup format: one sheet for the current month named
    "Mevcut - <month>" and one sheet per archived month named by that month.
    A sheet is a flat list of row records: `Section`/`Value` rows for the
    general figures and section headings, `Note` rows for empty lists, and
    `Type`-tagged rows for fixed expenses, daily entries, credit-card lines
    and installment plans.

    The spreadsheet library's conversion between row records and worksheet
    cells is taken to be the identity on rows. */
module SheetExport {
  import opened Wrappers
  import opened Types

  /** A cell value: a number or a piece of text. A column a row does not
      have reads as empty text. */
  datatype Cell = Num(n: int) | Text(s: string)

  const Empty: Cell := Text("")

  /** One row record over the columns the backup uses; the comment names the
      column header. */
  datatype Row = Row(
    section: Cell,                // Section
    value: Cell,                  // Value
    note: Cell,                   // Note
    kind: Cell,                   // Type
    id: Cell,                     // ID
    title: Cell,                  // Title
    amount: Cell,                 // Amount
    isPaid: Cell,                 // IsPaid
    date: Cell,                   // Date
    description: Cell,            // Description
    expenseType: Cell,            // ExpenseType
    installmentId: Cell,          // InstallmentId
    currentInstallment: Cell,     // CurrentInstallment
    totalInstallments: Cell,      // TotalInstallments
    totalAmount: Cell,            // TotalAmount
    installmentCount: Cell,       // InstallmentCount
    remainingInstallments: Cell,  // RemainingInstallments
    monthlyAmount: Cell,          // MonthlyAmount
    startDate: Cell)              // StartDate

  const BlankRow: Row := Row(
    Empty, Empty, Empty, Empty, Empty, Empty, Empty, Empty, Empty, Empty,
    Empty, Empty, Empty, Empty, Empty, Empty, Empty, Empty, Empty)

  datatype Sheet = Sheet(name: string, rows: seq<Row>)

  // Section names and type tags of the format.
  const GeneralHeading := "GENEL BİLGİLER"
  const MonthLabel := "Ay"
  const IncomeLabel := "Gelir (Nakit)"
  const RolloverLabel := "Devreden (Nakit)"
  const YkIncomeLabel := "Yemek Kartı Geliri"
  const YkRolloverLabel := "Yemek Kartı Devreden"
  const FixedHeading := "SABİT GİDERLER"
  const DailyHeading := "GÜNLÜK HARCAMALAR"
  const DebtHeading := "KREDİ KARTI BORÇLARI"
  const PlanHeading := "TAKSİTLER (Aktif)"
  const FixedTag := "FixedExpense"
  const DailyTag := "DailyExpense"
  const DebtTag := "CCDebt"
  const PlanTag := "Installment"
  const Yes := "Evet"
  const No := "Hayır"
  const CurrentPrefix := "Mevcut"

  function SectionRow(section: string, value: Cell): Row {
    BlankRow.(section := Text(section), value := value)
  }

  /** The blank separator row `{ Section: '', Value: '' }`. */
  const Spacer: Row := SectionRow("", Empty)

  function NoteRow(note: string): Row {
    BlankRow.(note := Text(note))
  }

  function KindName(k: ExpenseType): string {
    match k
    case Nakit => "NAKIT"
    case Yk => "YK"
  }

  /** `x || ''` for an optional count: absent and 0 both become empty text. */
  function CountCell(x: Option<int>): (c: Cell)
    ensures x.Some? && x.value != 0 ==> c == Num(x.value)
    ensures x.None? || x.value == 0 ==> c == Empty
  {
    if x.Some? && x.value != 0 then Num(x.value) else Empty
  }

  function FixedRow(e: FixedExpense): Row {
    BlankRow.(kind := Text(FixedTag), id := Text(e.id), title := Text(e.title), amount := Num(e.amount),
              isPaid := Text(if e.isPaid then Yes else No))
  }

  function DailyRow(e: DailyExpense): Row {
    BlankRow.(kind := Text(DailyTag), id := Text(e.id), date := Text(e.date), description := Text(e.description),
              amount := Num(e.amount), expenseType := Text(KindName(e.kind)))
  }

  function DebtRow(d: CCDebt): Row {
    BlankRow.(kind := Text(DebtTag), id := Text(d.id), description := Text(d.description), amount := Num(d.amount),
              installmentId := Text(d.installmentId.GetOr("")),
              currentInstallment := CountCell(d.currentInstallment),
              totalInstallments := CountCell(d.totalInstallments))
  }

  function PlanRow(p: Installment): Row {
    BlankRow.(kind := Text(PlanTag), id := Text(p.id), description := Text(p.description),
              totalAmount := Num(p.totalAmount), installmentCount := Num(p.installmentCount),
              remainingInstallments := Num(p.remainingInstallments), monthlyAmount := Num(p.monthlyAmount),
              startDate := Text(p.startDate))
  }

  /** One `Type`-tagged row per element, in list order. */
  function FixedRows(fs: seq<FixedExpense>): (r: seq<Row>)
    ensures |r| == |fs| && forall i :: 0 <= i < |fs| ==> r[i] == FixedRow(fs[i])
  {
    if |fs| == 0 then [] else [FixedRow(fs[0])] + FixedRows(fs[1..])
  }

  function DailyRows(ds: seq<DailyExpense>): (r: seq<Row>)
    ensures |r| == |ds| && forall i :: 0 <= i < |ds| ==> r[i] == DailyRow(ds[i])
  {
    if |ds| == 0 then [] else [DailyRow(ds[0])] + DailyRows(ds[1..])
  }

  function DebtRows(cs: seq<CCDebt>): (r: seq<Row>)
    ensures |r| == |cs| && forall i :: 0 <= i < |cs| ==> r[i] == DebtRow(cs[i])
  {
    if |cs| == 0 then [] else [DebtRow(cs[0])] + DebtRows(cs[1..])
  }

  function PlanRows(ps: seq<Installment>): (r: seq<Row>)
    ensures |r| == |ps| && forall i :: 0 <= i < |ps| ==> r[i] == PlanRow(ps[i])
  {
    if |ps| == 0 then [] else [PlanRow(ps[0])] + PlanRows(ps[1..])
  }

  /** The list rows of a current-sheet section, or its single note when the
      list is empty. */
  function OrNote(rows: seq<Row>, note: string): (r: seq<Row>)
    ensures |rows| > 0 ==> r == rows
    ensures |rows| == 0 ==> r == [NoteRow(note)]
  {
    if |rows| > 0 then rows else [NoteRow(note)]
  }

  /** The general block: heading, month, cash income and rollover, meal-card
      income and rollover (0 when absent), then a spacer. */
  function GeneralRows(month: string, income: int, rollover: int, ykIncome: Option<int>, ykRollover: Option<int>): seq<Row> {
    [ SectionRow(GeneralHeading, Empty),
      SectionRow(MonthLabel, Text(month)),
      SectionRow(IncomeLabel, Num(income)),
      SectionRow(RolloverLabel, Num(rollover)),
      SectionRow(YkIncomeLabel, Num(OrZero(ykIncome))),
      SectionRow(YkRolloverLabel, Num(OrZero(ykRollover))),
      Spacer ]
  }

  /** A section: its heading row, then its body. */
  function Headed(heading: string, body: seq<Row>): (r: seq<Row>)
    ensures |r| == 1 + |body| && r[0] == SectionRow(heading, Empty) && r[1..] == body
  {
    [SectionRow(heading, Empty)] + body
  }

  /** The rows of the current-month sheet: the general block, then the four
      list sections separated by spacers. */
  function CurrentRows(s: BudgetState): seq<Row> {
    GeneralRows(s.currentMonth, s.income, s.rollover, s.ykIncome, s.ykRollover)
    + (Headed(FixedHeading, OrNote(FixedRows(s.fixedExpenses), "Sabit gider bulunmuyor.")) + [Spacer])
    + (Headed(DailyHeading, OrNote(DailyRows(s.dailyExpenses), "Günlük harcama bulunmuyor.")) + [Spacer])
    + (Headed(DebtHeading, OrNote(DebtRows(s.ccDebts), "Kredi kartı borcu bulunmuyor.")) + [Spacer])
    + Headed(PlanHeading, OrNote(PlanRows(s.installments), "Aktif taksit bulunmuyor."))
  }

  /** The rows of an archived month's sheet: no notes for empty lists and
      no installment section. */
  function HistoryRows(h: MonthlyHistory): seq<Row> {
    GeneralRows(h.month, h.income, h.rollover, h.ykIncome, h.ykRollover)
    + (Headed(FixedHeading, FixedRows(h.fixedExpenses)) + [Spacer])
    + (Headed(DailyHeading, DailyRows(h.dailyExpenses)) + [Spacer])
    + Headed(DebtHeading, DebtRows(h.ccDebts))
  }

  function HistorySheets(hs: seq<MonthlyHistory>): (r: seq<Sheet>)
    ensures |r| == |hs|
    ensures forall i :: 0 <= i < |hs| ==> r[i] == Sheet(hs[i].month, HistoryRows(hs[i]))
  {
    if |hs| == 0 then [] else [Sheet(hs[0].month, HistoryRows(hs[0]))] + HistorySheets(hs[1..])
  }

  /** The workbook: the current sheet first, then one sheet per archived
      month in history order. */
  function ExportWorkbook(s: BudgetState): (r: seq<Sheet>)
    ensures |r| == 1 + |s.history|
    ensures r[0].name == CurrentPrefix + " - " + s.currentMonth
    ensures forall i :: 0 <= i < |s.history| ==> r[i + 1].name == s.history[i].month
  {
    [Sheet(CurrentPrefix + " - " + s.currentMonth, CurrentRows(s))] + HistorySheets(s.history)
  }

  /** A name the spreadsheet library accepts for a sheet: at most 31
      characters, none of them one of `: \ / ? * [ ]`. */
  predicate SheetNameAllowed(name: string) {
    |name| <= 31 && forall i :: 0 <= i < |name| ==> name[i] !in ":\\/?*[]"
  }

  /** The states whose workbook the library can assemble: it refuses a bad
      sheet name and a name already in the workbook, and the export then
      fails instead of producing a file. */
  predicate SheetNamesAccepted(s: BudgetState) {
    && SheetNameAllowed(CurrentPrefix + " - " + s.currentMonth)
    && (forall i :: 0 <= i < |s.history| ==> SheetNameAllowed(s.history[i].month))
    && (forall i, j :: 0 <= i < j < |s.history| ==> s.history[i].month != s.history[j].month)
  }

  /** The current sheet opens with the general block in its fixed order,
      writing absent meal-card figures as 0. */
  lemma CurrentSheetOpening(s: BudgetState)
    ensures |CurrentRows(s)| > 8
    ensures CurrentRows(s)[..6] == [
      SectionRow("GENEL BİLGİLER", Empty),
      SectionRow("Ay", Text(s.currentMonth)),
      SectionRow("Gelir (Nakit)", Num(s.income)),
      SectionRow("Devreden (Nakit)", Num(s.rollover)),
      SectionRow("Yemek Kartı Geliri", Num(s.ykIncome.GetOr(0))),
      SectionRow("Yemek Kartı Devreden", Num(s.ykRollover.GetOr(0)))]
  {
  }
}

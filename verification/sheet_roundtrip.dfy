/** What survives a spreadsheet backup: exporting a state and importing
    the workbook gives back the state, except at four documented spots —
    an absent installment link comes back as the empty link, an installment
    counter of 0 or absent comes back absent, an installment count of 0
    comes back as 1, and absent meal-card figures come back as 0 — and
    except that the history comes back newest month first. */
module SheetRoundTrip {
  import opened Wrappers
  import opened Types
  import opened Lists
  import opened Text
  import opened Sorting
  import opened SheetExport
  import opened SheetImport

  // ---------------------------------------------------------------------
  // The state as the import restores it

  /** An installment counter as it comes back: 0 reads as absent. */
  function DropZero(x: Option<int>): Option<int> {
    if x == Some(0) then None else x
  }

  function RestoredDebt(d: CCDebt): CCDebt {
    d.(installmentId := Some(d.installmentId.GetOr("")),
       currentInstallment := DropZero(d.currentInstallment),
       totalInstallments := DropZero(d.totalInstallments))
  }

  function RestoredPlan(p: Installment): Installment {
    p.(installmentCount := if p.installmentCount == 0 then 1 else p.installmentCount)
  }

  function RestoredDebts(cs: seq<CCDebt>): (r: seq<CCDebt>)
    ensures |r| == |cs| && forall i :: 0 <= i < |cs| ==> r[i] == RestoredDebt(cs[i])
  {
    if |cs| == 0 then [] else [RestoredDebt(cs[0])] + RestoredDebts(cs[1..])
  }

  function RestoredPlans(ps: seq<Installment>): (r: seq<Installment>)
    ensures |r| == |ps| && forall i :: 0 <= i < |ps| ==> r[i] == RestoredPlan(ps[i])
  {
    if |ps| == 0 then [] else [RestoredPlan(ps[0])] + RestoredPlans(ps[1..])
  }

  function RestoredHistory(h: MonthlyHistory): MonthlyHistory {
    h.(ykIncome := Some(OrZero(h.ykIncome)), ykRollover := Some(OrZero(h.ykRollover)),
       ccDebts := RestoredDebts(h.ccDebts))
  }

  function RestoredHistories(hs: seq<MonthlyHistory>): (r: seq<MonthlyHistory>)
    ensures |r| == |hs| && forall i :: 0 <= i < |hs| ==> r[i] == RestoredHistory(hs[i])
  {
    if |hs| == 0 then [] else [RestoredHistory(hs[0])] + RestoredHistories(hs[1..])
  }

  /** Every list entry of the current month has a non-empty id. */
  predicate CurrentIdsPresent(s: BudgetState) {
    && Absent(s.fixedExpenses, "", FixedId)
    && Absent(s.dailyExpenses, "", DailyId)
    && Absent(s.ccDebts, "", DebtId)
    && Absent(s.installments, "", PlanId)
  }

  predicate HistoryIdsPresent(h: MonthlyHistory) {
    && Absent(h.fixedExpenses, "", FixedId)
    && Absent(h.dailyExpenses, "", DailyId)
    && Absent(h.ccDebts, "", DebtId)
  }

  /** The states whose backup is written and read back faithfully: the
      library accepts every sheet name, ids are present and every archived
      month is named `YYYY-MM`. */
  predicate Exportable(s: BudgetState) {
    && SheetNamesAccepted(s)
    && CurrentIdsPresent(s)
    && forall i :: 0 <= i < |s.history| ==> HistoryIdsPresent(s.history[i]) && IsMonthName(s.history[i].month)
  }

  // ---------------------------------------------------------------------
  // Single rows

  /** A fixed-expense row decodes to the expense it was written from; the
      paid flag is written 'Evet'/'Hayır' and read as "is exactly 'Evet'". */
  lemma FixedRowRoundTrip(e: FixedExpense, genId: string)
    requires e.id != ""
    ensures DecodeFixed(FixedRow(e), genId) == e
  {
  }

  lemma DailyRowRoundTrip(e: DailyExpense, genId: string)
    requires e.id != ""
    ensures DecodeDaily(DailyRow(e), genId) == Some(e)
  {
  }

  lemma DebtRowRoundTrip(d: CCDebt, genId: string)
    requires d.id != ""
    ensures DecodeDebt(DebtRow(d), genId) == RestoredDebt(d)
  {
  }

  lemma PlanRowRoundTrip(p: Installment, genId: string)
    requires p.id != ""
    ensures DecodePlan(PlanRow(p), genId) == RestoredPlan(p)
  {
  }

  /** A numeric field holding text that is not a number reads as 0. */
  lemma NonNumericReadsAsZero(row: Row, genId: string)
    requires NumberOf(row.amount).None?
    ensures DecodeFixed(row, genId).amount == 0
    ensures DecodeDebt(row, genId).amount == 0
  {
  }

  /** A row without an id gets the generated one. */
  lemma MissingIdIsGenerated(row: Row, genId: string)
    requires row.id == Text("")
    ensures DecodeFixed(row, genId).id == genId
    ensures DecodeDebt(row, genId).id == genId
  {
  }

  /** Headings, spacers and notes leave the state unchanged. */
  lemma LayoutRowsIgnored(st: BudgetState, isCurrent: bool, newId: nat -> string, heading: string, note: string)
    requires heading !in {MonthLabel, IncomeLabel, RolloverLabel, YkIncomeLabel, YkRolloverLabel}
    ensures ParseRow(SectionRow(heading, Empty), st, isCurrent, newId) == st
    ensures ParseRow(Spacer, st, isCurrent, newId) == st
    ensures ParseRow(NoteRow(note), st, isCurrent, newId) == st
  {
  }

  /** Each list row appends its decoded entry to its list and touches
      nothing else; installment rows do so on the current sheet only. */
  lemma ParseFixedRow(e: FixedExpense, st: BudgetState, isCurrent: bool, newId: nat -> string)
    requires e.id != ""
    ensures ParseRow(FixedRow(e), st, isCurrent, newId) == st.(fixedExpenses := st.fixedExpenses + [e])
  {
    FixedRowRoundTrip(e, newId(EntryCount(st)));
  }

  lemma ParseDailyRow(e: DailyExpense, st: BudgetState, isCurrent: bool, newId: nat -> string)
    requires e.id != ""
    ensures ParseRow(DailyRow(e), st, isCurrent, newId) == st.(dailyExpenses := st.dailyExpenses + [e])
  {
    DailyRowRoundTrip(e, newId(EntryCount(st)));
  }

  lemma ParseDebtRow(d: CCDebt, st: BudgetState, isCurrent: bool, newId: nat -> string)
    requires d.id != ""
    ensures ParseRow(DebtRow(d), st, isCurrent, newId) == st.(ccDebts := st.ccDebts + [RestoredDebt(d)])
  {
    DebtRowRoundTrip(d, newId(EntryCount(st)));
  }

  lemma ParsePlanRow(p: Installment, st: BudgetState, isCurrent: bool, newId: nat -> string)
    requires p.id != ""
    ensures isCurrent ==> ParseRow(PlanRow(p), st, isCurrent, newId) == st.(installments := st.installments + [RestoredPlan(p)])
    ensures !isCurrent ==> ParseRow(PlanRow(p), st, isCurrent, newId) == st
  {
    PlanRowRoundTrip(p, newId(EntryCount(st)));
  }

  // ---------------------------------------------------------------------
  // Sequences of rows

  lemma {:induction false} ParseRowsAppend(a: seq<Row>, b: seq<Row>, st: BudgetState, isCurrent: bool, newId: nat -> string)
    ensures ParseRows(a + b, st, isCurrent, newId) == ParseRows(b, ParseRows(a, st, isCurrent, newId), isCurrent, newId)
  {
    if |a| > 0 {
      assert (a + b)[1..] == a[1..] + b;
      ParseRowsAppend(a[1..], b, ParseRow(a[0], st, isCurrent, newId), isCurrent, newId);
    } else {
      assert a + b == b;
    }
  }

  /** A list whose ids are all non-empty has a non-empty first id and a
      tail with the same property. */
  lemma AbsentTail<T>(xs: seq<T>, key: T -> string)
    requires |xs| > 0 && Absent(xs, "", key)
    ensures key(xs[0]) != "" && Absent(xs[1..], "", key)
  {
    forall i | 0 <= i < |xs[1..]| ensures key(xs[1..][i]) != "" {
      assert xs[1..][i] == xs[i + 1];
    }
  }

  lemma {:induction false} ParseFixedRows(fs: seq<FixedExpense>, st: BudgetState, isCurrent: bool, newId: nat -> string)
    requires Absent(fs, "", FixedId)
    ensures ParseRows(FixedRows(fs), st, isCurrent, newId) == st.(fixedExpenses := st.fixedExpenses + fs)
  {
    if |fs| > 0 {
      AbsentTail(fs, FixedId);
      var st' := st.(fixedExpenses := st.fixedExpenses + [fs[0]]);
      assert ParseRows(FixedRows(fs), st, isCurrent, newId) == ParseRows(FixedRows(fs[1..]), st', isCurrent, newId) by {
        var rows := FixedRows(fs);
        assert rows[0] == FixedRow(fs[0]) && rows[1..] == FixedRows(fs[1..]);
        ParseFixedRow(fs[0], st, isCurrent, newId);
      }
      ParseFixedRows(fs[1..], st', isCurrent, newId);
      assert st'.fixedExpenses + fs[1..] == st.fixedExpenses + fs by {
        AppendAssoc(st.fixedExpenses, [fs[0]], fs[1..]);
        assert [fs[0]] + fs[1..] == fs;
      }
    } else {
      assert st.fixedExpenses + fs == st.fixedExpenses;
    }
  }

  lemma {:induction false} ParseDailyRows(ds: seq<DailyExpense>, st: BudgetState, isCurrent: bool, newId: nat -> string)
    requires Absent(ds, "", DailyId)
    ensures ParseRows(DailyRows(ds), st, isCurrent, newId) == st.(dailyExpenses := st.dailyExpenses + ds)
  {
    if |ds| > 0 {
      AbsentTail(ds, DailyId);
      var st' := st.(dailyExpenses := st.dailyExpenses + [ds[0]]);
      assert ParseRows(DailyRows(ds), st, isCurrent, newId) == ParseRows(DailyRows(ds[1..]), st', isCurrent, newId) by {
        var rows := DailyRows(ds);
        assert rows[0] == DailyRow(ds[0]) && rows[1..] == DailyRows(ds[1..]);
        ParseDailyRow(ds[0], st, isCurrent, newId);
      }
      ParseDailyRows(ds[1..], st', isCurrent, newId);
      assert st'.dailyExpenses + ds[1..] == st.dailyExpenses + ds by {
        AppendAssoc(st.dailyExpenses, [ds[0]], ds[1..]);
        assert [ds[0]] + ds[1..] == ds;
      }
    } else {
      assert st.dailyExpenses + ds == st.dailyExpenses;
    }
  }

  lemma {:induction false} ParseDebtRows(cs: seq<CCDebt>, st: BudgetState, isCurrent: bool, newId: nat -> string)
    requires Absent(cs, "", DebtId)
    ensures ParseRows(DebtRows(cs), st, isCurrent, newId) == st.(ccDebts := st.ccDebts + RestoredDebts(cs))
  {
    if |cs| > 0 {
      AbsentTail(cs, DebtId);
      var st' := st.(ccDebts := st.ccDebts + [RestoredDebt(cs[0])]);
      assert ParseRows(DebtRows(cs), st, isCurrent, newId) == ParseRows(DebtRows(cs[1..]), st', isCurrent, newId) by {
        var rows := DebtRows(cs);
        assert rows[0] == DebtRow(cs[0]) && rows[1..] == DebtRows(cs[1..]);
        ParseDebtRow(cs[0], st, isCurrent, newId);
      }
      ParseDebtRows(cs[1..], st', isCurrent, newId);
      assert st'.ccDebts + RestoredDebts(cs[1..]) == st.ccDebts + RestoredDebts(cs) by {
        AppendAssoc(st.ccDebts, [RestoredDebt(cs[0])], RestoredDebts(cs[1..]));
        assert [RestoredDebt(cs[0])] + RestoredDebts(cs[1..]) == RestoredDebts(cs);
      }
    } else {
      assert st.ccDebts + RestoredDebts(cs) == st.ccDebts;
    }
  }

  /** On the current sheet each installment row appends its plan. */
  lemma {:induction false} ParseCurrentPlanRows(ps: seq<Installment>, st: BudgetState, newId: nat -> string)
    requires Absent(ps, "", PlanId)
    ensures ParseRows(PlanRows(ps), st, true, newId) == st.(installments := st.installments + RestoredPlans(ps))
  {
    if |ps| > 0 {
      AbsentTail(ps, PlanId);
      var st' := st.(installments := st.installments + [RestoredPlan(ps[0])]);
      assert ParseRows(PlanRows(ps), st, true, newId) == ParseRows(PlanRows(ps[1..]), st', true, newId) by {
        var rows := PlanRows(ps);
        assert rows[0] == PlanRow(ps[0]) && rows[1..] == PlanRows(ps[1..]);
        ParsePlanRow(ps[0], st, true, newId);
      }
      ParseCurrentPlanRows(ps[1..], st', newId);
      assert st'.installments + RestoredPlans(ps[1..]) == st.installments + RestoredPlans(ps) by {
        AppendAssoc(st.installments, [RestoredPlan(ps[0])], RestoredPlans(ps[1..]));
        assert [RestoredPlan(ps[0])] + RestoredPlans(ps[1..]) == RestoredPlans(ps);
      }
    } else {
      assert st.installments + RestoredPlans(ps) == st.installments;
    }
  }

  /** On a history sheet installment rows are skipped. */
  lemma {:induction false} ParseHistoryPlanRows(ps: seq<Installment>, st: BudgetState, newId: nat -> string)
    requires Absent(ps, "", PlanId)
    ensures ParseRows(PlanRows(ps), st, false, newId) == st
  {
    if |ps| > 0 {
      var rows := PlanRows(ps);
      assert rows[1..] == PlanRows(ps[1..]);
      AbsentTail(ps, PlanId);
      ParsePlanRow(ps[0], st, false, newId);
      ParseHistoryPlanRows(ps[1..], st, newId);
    }
  }

  /** Installment rows are read on the current sheet only. */
  lemma ParsePlanRows(ps: seq<Installment>, st: BudgetState, isCurrent: bool, newId: nat -> string)
    requires Absent(ps, "", PlanId)
    ensures isCurrent ==> ParseRows(PlanRows(ps), st, isCurrent, newId) == st.(installments := st.installments + RestoredPlans(ps))
    ensures !isCurrent ==> ParseRows(PlanRows(ps), st, isCurrent, newId) == st
  {
    if isCurrent {
      ParseCurrentPlanRows(ps, st, newId);
    } else {
      ParseHistoryPlanRows(ps, st, newId);
    }
  }

  /** A section's list rows, or its note when empty, read as the list rows. */
  lemma ParseOrNote(rows: seq<Row>, note: string, st: BudgetState, isCurrent: bool, newId: nat -> string)
    ensures ParseRows(OrNote(rows, note), st, isCurrent, newId) == ParseRows(rows, st, isCurrent, newId)
  {
  }

  /** A row of the general block sets the one figure its label names, the
      month only on the current sheet, and nothing else. */
  lemma ParseSectionRow(name: string, v: Cell, st: BudgetState, isCurrent: bool, newId: nat -> string)
    ensures var r := ParseRow(SectionRow(name, v), st, isCurrent, newId);
      && (name == MonthLabel ==> r == if isCurrent then st.(currentMonth := TextOf(v)) else st)
      && (name == IncomeLabel ==> r == st.(income := NumberOr(v, 0)))
      && (name == RolloverLabel ==> r == st.(rollover := NumberOr(v, 0)))
      && (name == YkIncomeLabel ==> r == st.(ykIncome := Some(NumberOr(v, 0))))
      && (name == YkRolloverLabel ==> r == st.(ykRollover := Some(NumberOr(v, 0))))
      && (name !in {MonthLabel, IncomeLabel, RolloverLabel, YkIncomeLabel, YkRolloverLabel} ==> r == st)
  {
  }

  /** The figure rows of the general block and its closing spacer set the
      four figures. */
  lemma ParseFigureRows(income: int, rollover: int, yk: int, ykr: int, st: BudgetState, isCurrent: bool, newId: nat -> string)
    ensures ParseRows([SectionRow(IncomeLabel, Num(income)), SectionRow(RolloverLabel, Num(rollover)),
                       SectionRow(YkIncomeLabel, Num(yk)), SectionRow(YkRolloverLabel, Num(ykr)), Spacer],
                      st, isCurrent, newId)
         == st.(income := income, rollover := rollover, ykIncome := Some(yk), ykRollover := Some(ykr))
  {
    var rows := [SectionRow(IncomeLabel, Num(income)), SectionRow(RolloverLabel, Num(rollover)),
                 SectionRow(YkIncomeLabel, Num(yk)), SectionRow(YkRolloverLabel, Num(ykr)), Spacer];
    var s1 := st.(income := income);
    var s2 := s1.(rollover := rollover);
    var s3 := s2.(ykIncome := Some(yk));
    var s4 := s3.(ykRollover := Some(ykr));
    assert ParseRows(rows[4..], s4, isCurrent, newId) == s4 by {
      LayoutRowsIgnored(s4, isCurrent, newId, GeneralHeading, "");
    }
    assert ParseRows(rows[3..], s3, isCurrent, newId) == s4 by {
      assert rows[3..][1..] == rows[4..];
      ParseSectionRow(YkRolloverLabel, Num(ykr), s3, isCurrent, newId);
    }
    assert ParseRows(rows[2..], s2, isCurrent, newId) == s4 by {
      assert rows[2..][1..] == rows[3..];
      ParseSectionRow(YkIncomeLabel, Num(yk), s2, isCurrent, newId);
    }
    assert ParseRows(rows[1..], s1, isCurrent, newId) == s4 by {
      assert rows[1..][1..] == rows[2..];
      ParseSectionRow(RolloverLabel, Num(rollover), s1, isCurrent, newId);
    }
    ParseSectionRow(IncomeLabel, Num(income), st, isCurrent, newId);
  }

  /** The general block sets the four figures (meal-card ones to 0 when
      absent) and, on the current sheet only, the month. */
  lemma ParseGeneral(month: string, income: int, rollover: int, yk: Option<int>, ykr: Option<int>,
                     st: BudgetState, isCurrent: bool, newId: nat -> string)
    ensures ParseRows(GeneralRows(month, income, rollover, yk, ykr), st, isCurrent, newId)
         == st.(currentMonth := if isCurrent then month else st.currentMonth,
                income := income, rollover := rollover,
                ykIncome := Some(OrZero(yk)), ykRollover := Some(OrZero(ykr)))
  {
    var head := [SectionRow(GeneralHeading, Empty), SectionRow(MonthLabel, Text(month))];
    var figures := [SectionRow(IncomeLabel, Num(income)), SectionRow(RolloverLabel, Num(rollover)),
                    SectionRow(YkIncomeLabel, Num(OrZero(yk))), SectionRow(YkRolloverLabel, Num(OrZero(ykr))), Spacer];
    assert GeneralRows(month, income, rollover, yk, ykr) == head + figures;
    var s2 := st.(currentMonth := if isCurrent then month else st.currentMonth);
    assert ParseRows(head, st, isCurrent, newId) == s2 by {
      var tail := [SectionRow(MonthLabel, Text(month))];
      assert head[0] == SectionRow(GeneralHeading, Empty) && head[1..] == tail;
      ParseSectionRow(GeneralHeading, Empty, st, isCurrent, newId);
      assert ParseRows(head, st, isCurrent, newId) == ParseRows(tail, st, isCurrent, newId);
      assert tail[1..] == [];
      ParseSectionRow(MonthLabel, Text(month), st, isCurrent, newId);
      assert ParseRows(tail, st, isCurrent, newId) == ParseRow(tail[0], st, isCurrent, newId);
    }
    ParseRowsAppend(head, figures, st, isCurrent, newId);
    ParseFigureRows(income, rollover, OrZero(yk), OrZero(ykr), s2, isCurrent, newId);
  }

  /** A heading followed by a block (and optionally a spacer) reads as the
      block alone. */
  lemma ParseHeaded(heading: string, body: seq<Row>, st: BudgetState, isCurrent: bool, newId: nat -> string)
    requires heading !in {MonthLabel, IncomeLabel, RolloverLabel, YkIncomeLabel, YkRolloverLabel}
    ensures ParseRows(Headed(heading, body), st, isCurrent, newId) == ParseRows(body, st, isCurrent, newId)
    ensures ParseRows(Headed(heading, body) + [Spacer], st, isCurrent, newId) == ParseRows(body, st, isCurrent, newId)
  {
    LayoutRowsIgnored(st, isCurrent, newId, heading, "");
    ParseRowsAppend(Headed(heading, body), [Spacer], st, isCurrent, newId);
    LayoutRowsIgnored(ParseRows(body, st, isCurrent, newId), isCurrent, newId, heading, "");
  }

  // ---------------------------------------------------------------------
  // Whole sheets

  /** Reading the current sheet into any state sets the month and the four
      figures and appends every list element for element. */
  lemma CurrentSheetRoundTrip(s: BudgetState, st: BudgetState, newId: nat -> string)
    requires CurrentIdsPresent(s)
    ensures ParseRows(CurrentRows(s), st, true, newId)
         == st.(currentMonth := s.currentMonth, income := s.income, rollover := s.rollover,
                ykIncome := Some(OrZero(s.ykIncome)), ykRollover := Some(OrZero(s.ykRollover)),
                fixedExpenses := st.fixedExpenses + s.fixedExpenses,
                dailyExpenses := st.dailyExpenses + s.dailyExpenses,
                ccDebts := st.ccDebts + RestoredDebts(s.ccDebts),
                installments := st.installments + RestoredPlans(s.installments))
  {
    var g := GeneralRows(s.currentMonth, s.income, s.rollover, s.ykIncome, s.ykRollover);
    var r1 := FixedRows(s.fixedExpenses);
    var r2 := DailyRows(s.dailyExpenses);
    var r3 := DebtRows(s.ccDebts);
    var r4 := PlanRows(s.installments);
    var b1 := Headed(FixedHeading, OrNote(r1, "Sabit gider bulunmuyor.")) + [Spacer];
    var b2 := Headed(DailyHeading, OrNote(r2, "Günlük harcama bulunmuyor.")) + [Spacer];
    var b3 := Headed(DebtHeading, OrNote(r3, "Kredi kartı borcu bulunmuyor.")) + [Spacer];
    var b4 := Headed(PlanHeading, OrNote(r4, "Aktif taksit bulunmuyor."));
    var t0 := st.(currentMonth := s.currentMonth, income := s.income, rollover := s.rollover,
                  ykIncome := Some(OrZero(s.ykIncome)), ykRollover := Some(OrZero(s.ykRollover)));
    var t1 := t0.(fixedExpenses := st.fixedExpenses + s.fixedExpenses);
    var t2 := t1.(dailyExpenses := st.dailyExpenses + s.dailyExpenses);
    var t3 := t2.(ccDebts := st.ccDebts + RestoredDebts(s.ccDebts));
    var t4 := t3.(installments := st.installments + RestoredPlans(s.installments));
    assert ParseRows(g, st, true, newId) == t0 by {
      ParseGeneral(s.currentMonth, s.income, s.rollover, s.ykIncome, s.ykRollover, st, true, newId);
    }
    assert ParseRows(b1, t0, true, newId) == t1 by {
      ParseHeaded(FixedHeading, OrNote(r1, "Sabit gider bulunmuyor."), t0, true, newId);
      ParseOrNote(r1, "Sabit gider bulunmuyor.", t0, true, newId);
      ParseFixedRows(s.fixedExpenses, t0, true, newId);
    }
    assert ParseRows(b2, t1, true, newId) == t2 by {
      ParseHeaded(DailyHeading, OrNote(r2, "Günlük harcama bulunmuyor."), t1, true, newId);
      ParseOrNote(r2, "Günlük harcama bulunmuyor.", t1, true, newId);
      ParseDailyRows(s.dailyExpenses, t1, true, newId);
    }
    assert ParseRows(b3, t2, true, newId) == t3 by {
      ParseHeaded(DebtHeading, OrNote(r3, "Kredi kartı borcu bulunmuyor."), t2, true, newId);
      ParseOrNote(r3, "Kredi kartı borcu bulunmuyor.", t2, true, newId);
      ParseDebtRows(s.ccDebts, t2, true, newId);
    }
    assert ParseRows(b4, t3, true, newId) == t4 by {
      ParseHeaded(PlanHeading, OrNote(r4, "Aktif taksit bulunmuyor."), t3, true, newId);
      ParseOrNote(r4, "Aktif taksit bulunmuyor.", t3, true, newId);
      ParsePlanRows(s.installments, t3, true, newId);
    }
    ParseRowsAppend(g, b1, st, true, newId);
    ParseRowsAppend(g + b1, b2, st, true, newId);
    ParseRowsAppend(g + b1 + b2, b3, st, true, newId);
    ParseRowsAppend(g + b1 + b2 + b3, b4, st, true, newId);
  }

  /** Importing the exported current sheet alone restores the month, the
      figures and all four lists. */
  lemma CurrentStateRoundTrip(s: BudgetState, defaultMonth: string, newId: nat -> string)
    requires CurrentIdsPresent(s)
    ensures var r := ParseRows(CurrentRows(s), EmptyImport(defaultMonth), true, newId);
      && r.currentMonth == s.currentMonth
      && r.income == s.income && r.rollover == s.rollover
      && r.ykIncome == Some(OrZero(s.ykIncome)) && r.ykRollover == Some(OrZero(s.ykRollover))
      && r.fixedExpenses == s.fixedExpenses
      && r.dailyExpenses == s.dailyExpenses
      && r.ccDebts == RestoredDebts(s.ccDebts)
      && r.installments == RestoredPlans(s.installments)
  {
    CurrentSheetRoundTrip(s, EmptyImport(defaultMonth), newId);
  }

  /** Reading an archived month's sheet sets the four figures and appends
      the three lists, leaving the month alone. */
  lemma HistoryRowsRead(h: MonthlyHistory, st: BudgetState, newId: nat -> string)
    requires HistoryIdsPresent(h)
    ensures ParseRows(HistoryRows(h), st, false, newId)
         == st.(income := h.income, rollover := h.rollover,
                ykIncome := Some(OrZero(h.ykIncome)), ykRollover := Some(OrZero(h.ykRollover)),
                fixedExpenses := st.fixedExpenses + h.fixedExpenses,
                dailyExpenses := st.dailyExpenses + h.dailyExpenses,
                ccDebts := st.ccDebts + RestoredDebts(h.ccDebts))
  {
    var g := GeneralRows(h.month, h.income, h.rollover, h.ykIncome, h.ykRollover);
    var b1 := Headed(FixedHeading, FixedRows(h.fixedExpenses)) + [Spacer];
    var b2 := Headed(DailyHeading, DailyRows(h.dailyExpenses)) + [Spacer];
    var b3 := Headed(DebtHeading, DebtRows(h.ccDebts));
    var t0 := st.(income := h.income, rollover := h.rollover,
                  ykIncome := Some(OrZero(h.ykIncome)), ykRollover := Some(OrZero(h.ykRollover)));
    var t1 := t0.(fixedExpenses := st.fixedExpenses + h.fixedExpenses);
    var t2 := t1.(dailyExpenses := st.dailyExpenses + h.dailyExpenses);
    var t3 := t2.(ccDebts := st.ccDebts + RestoredDebts(h.ccDebts));
    assert ParseRows(g, st, false, newId) == t0 by {
      ParseGeneral(h.month, h.income, h.rollover, h.ykIncome, h.ykRollover, st, false, newId);
    }
    assert ParseRows(b1, t0, false, newId) == t1 by {
      ParseHeaded(FixedHeading, FixedRows(h.fixedExpenses), t0, false, newId);
      ParseFixedRows(h.fixedExpenses, t0, false, newId);
    }
    assert ParseRows(b2, t1, false, newId) == t2 by {
      ParseHeaded(DailyHeading, DailyRows(h.dailyExpenses), t1, false, newId);
      ParseDailyRows(h.dailyExpenses, t1, false, newId);
    }
    assert ParseRows(b3, t2, false, newId) == t3 by {
      ParseHeaded(DebtHeading, DebtRows(h.ccDebts), t2, false, newId);
      ParseDebtRows(h.ccDebts, t2, false, newId);
    }
    ParseRowsAppend(g, b1, st, false, newId);
    ParseRowsAppend(g + b1, b2, st, false, newId);
    ParseRowsAppend(g + b1 + b2, b3, st, false, newId);
  }

  /** An archived month's sheet reads back as the archived month. */
  lemma HistorySheetRoundTrip(h: MonthlyHistory, newId: nat -> string)
    requires HistoryIdsPresent(h)
    ensures HistoryFromRows(h.month, HistoryRows(h), newId) == RestoredHistory(h)
  {
    HistoryRowsRead(h, EmptyImport(h.month), newId);
    assert [] + h.fixedExpenses == h.fixedExpenses;
    assert [] + h.dailyExpenses == h.dailyExpenses;
    assert [] + RestoredDebts(h.ccDebts) == RestoredDebts(h.ccDebts);
  }

  /** One exported history sheet appends its restored month. */
  lemma ImportHistorySheet(h: MonthlyHistory, rest: seq<Sheet>, st: BudgetState, newId: (string, nat) -> string)
    requires HistoryIdsPresent(h) && IsMonthName(h.month)
    ensures ImportSheets([Sheet(h.month, HistoryRows(h))] + rest, st, newId)
         == ImportSheets(rest, st.(history := st.history + [RestoredHistory(h)]), newId)
  {
    MonthNameIsNotCurrent(h.month);
    HistorySheetRoundTrip(h, SheetIds(newId, h.month));
    assert ([Sheet(h.month, HistoryRows(h))] + rest)[1..] == rest;
  }

  /** Reading the exported history sheets appends one restored entry per
      archived month, in history order. */
  lemma {:induction false} ImportHistorySheets(hs: seq<MonthlyHistory>, st: BudgetState, newId: (string, nat) -> string)
    requires forall i :: 0 <= i < |hs| ==> HistoryIdsPresent(hs[i]) && IsMonthName(hs[i].month)
    ensures ImportSheets(HistorySheets(hs), st, newId) == st.(history := st.history + RestoredHistories(hs))
  {
    if |hs| > 0 {
      var rest := HistorySheets(hs[1..]);
      var st' := st.(history := st.history + [RestoredHistory(hs[0])]);
      assert ImportSheets(HistorySheets(hs), st, newId) == ImportSheets(rest, st', newId) by {
        assert HistorySheets(hs) == [Sheet(hs[0].month, HistoryRows(hs[0]))] + rest;
        ImportHistorySheet(hs[0], rest, st, newId);
      }
      assert forall i :: 0 <= i < |hs[1..]| ==> HistoryIdsPresent(hs[1..][i]) && IsMonthName(hs[1..][i].month) by {
        forall i | 0 <= i < |hs[1..]| ensures HistoryIdsPresent(hs[1..][i]) && IsMonthName(hs[1..][i].month) {
          assert hs[1..][i] == hs[i + 1];
        }
      }
      ImportHistorySheets(hs[1..], st', newId);
      assert RestoredHistories(hs) == [RestoredHistory(hs[0])] + RestoredHistories(hs[1..]);
      AppendAssoc(st.history, [RestoredHistory(hs[0])], RestoredHistories(hs[1..]));
    } else {
      assert st.history + RestoredHistories(hs) == st.history;
    }
  }

  /** The state the sheets of a backup of `s` are read into, before the
      history is sorted. */
  function Unsorted(s: BudgetState): BudgetState {
    EmptyImport(s.currentMonth).(
      income := s.income, rollover := s.rollover,
      ykIncome := Some(OrZero(s.ykIncome)), ykRollover := Some(OrZero(s.ykRollover)),
      fixedExpenses := s.fixedExpenses, dailyExpenses := s.dailyExpenses,
      ccDebts := RestoredDebts(s.ccDebts), installments := RestoredPlans(s.installments),
      history := RestoredHistories(s.history))
  }

  /** The state a backup of `s` restores to. */
  function Restored(s: BudgetState): BudgetState {
    Unsorted(s).(history := SortDesc(RestoredHistories(s.history), MonthOf))
  }

  /** The current sheet's name marks it as the current sheet. */
  lemma CurrentNameClassified(month: string)
    ensures Classify(CurrentPrefix + " - " + month) == CurrentSheet
  {
    var name := CurrentPrefix + " - " + month;
    assert name[..|CurrentPrefix|] == CurrentPrefix;
  }

  /** For an exportable state no two sheets of the workbook share a name,
      so the library never meets a duplicate. */
  lemma ExportedNamesDistinct(s: BudgetState)
    requires Exportable(s)
    ensures var w := ExportWorkbook(s);
      forall i, j :: 0 <= i < j < |w| ==> w[i].name != w[j].name
  {
    var w := ExportWorkbook(s);
    CurrentNameClassified(s.currentMonth);
    forall i, j | 0 <= i < j < |w| ensures w[i].name != w[j].name {
      assert w[j].name == s.history[j - 1].month;
      if i == 0 {
        MonthNameIsNotCurrent(s.history[j - 1].month);
        assert StartsWith(w[0].name, CurrentPrefix);
      } else {
        assert w[i].name == s.history[i - 1].month;
      }
    }
  }

  /** Reading the exported sheets in order gives the unsorted restored state. */
  lemma ImportExportedSheets(s: BudgetState, defaultMonth: string, newId: (string, nat) -> string)
    requires Exportable(s)
    ensures ImportSheets(ExportWorkbook(s), EmptyImport(defaultMonth), newId) == Unsorted(s)
  {
    var sheets := ExportWorkbook(s);
    var name := CurrentPrefix + " - " + s.currentMonth;
    var st0 := EmptyImport(defaultMonth);
    var st1 := ParseRows(CurrentRows(s), st0, true, SheetIds(newId, name));
    assert ImportSheets(sheets, st0, newId) == ImportSheets(HistorySheets(s.history), st1, newId) by {
      CurrentNameClassified(s.currentMonth);
      assert sheets[1..] == HistorySheets(s.history);
    }
    assert st1 == Unsorted(s).(history := []) by {
      CurrentSheetRoundTrip(s, st0, SheetIds(newId, name));
      assert [] + s.fixedExpenses == s.fixedExpenses;
      assert [] + s.dailyExpenses == s.dailyExpenses;
      assert [] + RestoredDebts(s.ccDebts) == RestoredDebts(s.ccDebts);
      assert [] + RestoredPlans(s.installments) == RestoredPlans(s.installments);
    }
    ImportHistorySheets(s.history, st1, newId);
    assert [] + RestoredHistories(s.history) == RestoredHistories(s.history);
  }

  /** Exporting a workbook and importing it restores the state, with the
      history sorted newest month first. */
  lemma WorkbookRoundTrip(s: BudgetState, defaultMonth: string, newId: (string, nat) -> string)
    requires Exportable(s)
    ensures ImportWorkbook(ExportWorkbook(s), defaultMonth, newId) == Restored(s)
    ensures ImportWorkbook(ExportWorkbook(s), defaultMonth, newId).history == RestoredHistories(SortDesc(s.history, MonthOf))
  {
    ImportExportedSheets(s, defaultMonth, newId);
    SortRestoredHistory(s.history);
  }

  /** Restoring does not change months, so sorting the restored history is
      restoring the sorted history: the imported history is the original
      history sorted newest month first. */
  lemma {:induction false} SortRestoredHistory(hs: seq<MonthlyHistory>)
    ensures SortDesc(RestoredHistories(hs), MonthOf) == RestoredHistories(SortDesc(hs, MonthOf))
  {
    if |hs| > 0 {
      assert RestoredHistories(hs)[1..] == RestoredHistories(hs[1..]);
      SortRestoredHistory(hs[1..]);
      InsertRestored(hs[0], SortDesc(hs[1..], MonthOf));
    }
  }

  /** Restoring keeps every month, and so keeps a history sorted. */
  lemma RestoredSorted(xs: seq<MonthlyHistory>)
    requires SortedDesc(xs, MonthOf)
    ensures SortedDesc(RestoredHistories(xs), MonthOf)
  {
    var rs := RestoredHistories(xs);
    forall i, j | 0 <= i < j < |rs| ensures StrLe(MonthOf(rs[j]), MonthOf(rs[i])) {
      assert MonthOf(rs[i]) == MonthOf(xs[i]) && MonthOf(rs[j]) == MonthOf(xs[j]);
    }
  }

  lemma RestoredCons(x: MonthlyHistory, xs: seq<MonthlyHistory>)
    ensures RestoredHistories([x] + xs) == [RestoredHistory(x)] + RestoredHistories(xs)
  {
    assert ([x] + xs)[1..] == xs;
  }

  /** The case where the new month goes in front. */
  lemma InsertRestoredFront(h: MonthlyHistory, xs: seq<MonthlyHistory>)
    requires SortedDesc(xs, MonthOf) && |xs| > 0 && StrLe(MonthOf(xs[0]), MonthOf(h))
    ensures SortedDesc(RestoredHistories(xs), MonthOf)
    ensures Insert(RestoredHistory(h), RestoredHistories(xs), MonthOf) == RestoredHistories(Insert(h, xs, MonthOf))
  {
    RestoredSorted(xs);
    var rs := RestoredHistories(xs);
    assert MonthOf(rs[0]) == MonthOf(xs[0]);
    assert Insert(h, xs, MonthOf) == [h] + xs;
    RestoredCons(h, xs);
  }

  lemma {:induction false} InsertRestored(h: MonthlyHistory, xs: seq<MonthlyHistory>)
    requires SortedDesc(xs, MonthOf)
    ensures SortedDesc(RestoredHistories(xs), MonthOf)
    ensures Insert(RestoredHistory(h), RestoredHistories(xs), MonthOf) == RestoredHistories(Insert(h, xs, MonthOf))
    decreases |xs|, 1
  {
    RestoredSorted(xs);
    if |xs| == 0 {
      assert Insert(h, xs, MonthOf) == [h];
      RestoredCons(h, []);
    } else if StrLe(MonthOf(xs[0]), MonthOf(h)) {
      InsertRestoredFront(h, xs);
    } else {
      InsertRestoredLater(h, xs);
    }
  }

  /** The case where the new month goes after the first one. */
  lemma {:induction false} InsertRestoredLater(h: MonthlyHistory, xs: seq<MonthlyHistory>)
    requires SortedDesc(xs, MonthOf) && |xs| > 0 && !StrLe(MonthOf(xs[0]), MonthOf(h))
    ensures SortedDesc(RestoredHistories(xs), MonthOf)
    ensures Insert(RestoredHistory(h), RestoredHistories(xs), MonthOf) == RestoredHistories(Insert(h, xs, MonthOf))
    decreases |xs|, 0
  {
    RestoredSorted(xs);
    var rs := RestoredHistories(xs);
    var rh := RestoredHistory(h);
    assert MonthOf(rs[0]) == MonthOf(xs[0]);
    assert SortedDesc(xs[1..], MonthOf);
    var tail := Insert(h, xs[1..], MonthOf);
    assert Insert(h, xs, MonthOf) == [xs[0]] + tail;
    assert Insert(rh, rs, MonthOf) == [rs[0]] + Insert(rh, rs[1..], MonthOf);
    assert rs[1..] == RestoredHistories(xs[1..]);
    InsertRestored(h, xs[1..]);
    RestoredCons(xs[0], tail);
  }
}

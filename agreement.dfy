/** How the build-time and the browser extractors relate: on a grid whose
    data rows all carry a label, the filtered label list of one and the
    unfiltered column of the other coincide, and both produce the same
    months, user counts and monthly figures. */
module Agreement {
  import opened Values
  import opened Coercion
  import opened Ledger
  import opened FinancialPlan
  import opened ParsePlan

  /** A build-time month and a browser month report the same figures. */
  predicate SameMonth(a: MonthlyFinancial, b: BrowserMonth) {
    && a.month == b.month
    && a.revenue == b.totalRevenue
    && a.marketing == b.marketing && a.it == b.it && a.founder == b.founder && a.hire == b.hire
    && a.net == b.net
    && a.cash == b.cash
  }

  /** With no blank label, `rowFor` and `getRow` select the same row for
      every name. */
  lemma LookupsAgree(rows: Grid, name: string)
    requires |rows| >= 1 && NoBlankLabels(rows)
    ensures |Labels(rows)| < |rows|
    ensures RowFor(rows, Labels(rows), name) == GetRow(rows, name)
  {
    LabelsWithoutBlanks(rows);
  }

  /** The rows both extractors read agree, hence so do the opening funding
      and the users. */
  lemma InputsAgree(rows: Grid, months: seq<Cell>)
    requires |rows| >= 1 && NoBlankLabels(rows)
    ensures |Labels(rows)| < |rows|
    ensures LedgerOf(rows, Labels(rows)) == BrowserLedger(rows)
    ensures OpeningFunding(rows, Labels(rows)) == BrowserOpening(rows)
    ensures UsersFrom(rows, Labels(rows), months) == BrowserUsers(rows, months)
  {
    LookupsAgree(rows, "Total Revenue €");
    LookupsAgree(rows, "Marketing €");
    LookupsAgree(rows, "IT Supplier (Dev/Hosting) €");
    LookupsAgree(rows, "Founder Wage €");
    LookupsAgree(rows, "New Hire Wage €");
    LookupsAgree(rows, "Opening Funding Balance €");
    LookupsAgree(rows, "Free Users");
    LookupsAgree(rows, "Freemium Users");
    LookupsAgree(rows, "Enterprise Users");
  }

  /** From the same rows, months and opening funding, the two monthly maps
      agree entry by entry. */
  lemma MonthlyAgree(months: seq<Cell>, l: LedgerRows, opening: real)
    ensures |MonthlyOf(months, l, opening)| == |BrowserMonthlyOf(months, l, opening)| == |months|
    ensures forall i :: 0 <= i < |months| ==>
      SameMonth(MonthlyOf(months, l, opening)[i], BrowserMonthlyOf(months, l, opening)[i])
  {
  }

  /** The two Summary readings agree: the same month cells, and the balances
      the build-time copy wraps are the ones the browser copy stores. */
  lemma MetricsAgree(opening: real, wb: Workbook)
    ensures SummaryMetrics(opening, wb).openingFunding == BrowserMetricsOf(opening, wb).openingFunding
    ensures SummarySheet !in wb ==> BrowserMetricsOf(opening, wb) == OpeningOnly(opening)
    ensures SummarySheet in wb ==>
      var m := SummaryMetrics(opening, wb);
      var b := BrowserMetricsOf(opening, wb);
      && b.WithSummary?
      && m.breakevenMonth == b.breakevenMonth && m.lowestCashMonth == b.lowestCashMonth
      && m.lowestCashBalance == Some(b.lowestCashBalance) && m.endingCashDec28 == Some(b.endingCashDec28)
  {
  }

  /** The fields of the two results, given that the rows they read agree. */
  lemma AgreeFromParts(p: Plan, q: BrowserPlan, l: LedgerRows, opening: real)
    requires q.months == p.months
    requires p.monthly == MonthlyOf(p.months, l, opening)
    requires q.monthly == BrowserMonthlyOf(q.months, l, opening)
    ensures |q.monthly| == |p.monthly|
    ensures forall i :: 0 <= i < |p.monthly| ==> SameMonth(p.monthly[i], q.monthly[i])
  {
    MonthlyAgree(p.months, l, opening);
  }

  /** On a grid that passes the build-time validation and has a truthy label
      in every data row, the browser extractor also succeeds and reports the
      same months, user counts, monthly figures, opening funding and Summary
      values. */
  lemma CopiesAgree(wb: Workbook, p: Plan)
    requires FinancialPlanOf(wb) == Ok(p)
    requires FinancialSheet in wb && NoBlankLabels(wb[FinancialSheet])
    ensures ParseWorkbookOf(Loaded(wb)).Ok?
    ensures var q := ParseWorkbookOf(Loaded(wb)).value;
      && q.months == p.months
      && q.users == p.users
      && |q.monthly| == |p.monthly|
      && (forall i :: 0 <= i < |p.monthly| ==> SameMonth(p.monthly[i], q.monthly[i]))
      && q.metrics.openingFunding == p.metrics.openingFunding
      && (SummarySheet !in wb ==> q.metrics == OpeningOnly(p.metrics.openingFunding))
      && (SummarySheet in wb ==>
            && q.metrics.WithSummary?
            && p.metrics.breakevenMonth == q.metrics.breakevenMonth
            && p.metrics.lowestCashMonth == q.metrics.lowestCashMonth
            && p.metrics.lowestCashBalance == Some(q.metrics.lowestCashBalance)
            && p.metrics.endingCashDec28 == Some(q.metrics.endingCashDec28))
  {
    PlanParts(wb, p);
    var rows := wb[FinancialSheet];
    InputsAgree(rows, p.months);
    var q := ParseRows(rows, wb);
    assert ParseWorkbookOf(Loaded(wb)) == Ok(q);
    AgreeFromParts(p, q, BrowserLedger(rows), p.metrics.openingFunding);
    MetricsAgree(p.metrics.openingFunding, wb);
  }

  /** Without that condition the copies can part: a blank-label row before
      "Free Users" makes `rowFor` read the blank row, while `getRow` reads the
      labelled one. */
  lemma BlankLabelSplitsCopies()
    ensures var rows := [[Empty, Text("Jan 26")], [Empty, Num(7.0)], [Text("Free Users"), Num(5.0)]];
      && RowFor(rows, Labels(rows), "Free Users") == rows[1]
      && GetRow(rows, "Free Users") == rows[2]
  {
    var rows := [[Empty, Text("Jan 26")], [Empty, Num(7.0)], [Text("Free Users"), Num(5.0)]];
    BlankLabelRowShiftsRowFor();
    GetRowFindsLabelledRow(rows, "Free Users", 2);
  }
}

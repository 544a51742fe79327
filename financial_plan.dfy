/** The build-time extractor (`loadFinancialPlan` and `validateSheetData`),
    from the "Financial Plan" grid onward: validation, the label lookup
    `rowFor`, the months, user counts and monthly financials with their
    running cash balance, and the Summary metrics. */
module FinancialPlan {
  import opened Values
  import opened Coercion
  import opened Ledger

  /** The nine rows the monthly sheet must carry, in the order in which a
      missing-rows error lists them. */
  const RequiredLabels: seq<string> := [
    "Free Users",
    "Freemium Users",
    "Enterprise Users",
    "Opening Funding Balance €",
    "Total Revenue €",
    "Marketing €",
    "IT Supplier (Dev/Hosting) €",
    "Founder Wage €",
    "New Hire Wage €"
  ]

  /** What `validateSheetData` returns on success. */
  datatype Validated = Validated(labels: seq<Cell>, header: seq<Cell>)

  /** `rows.slice(1).map(row => row[0]).filter(Boolean)`: the truthy labels
      of the data rows, blank ones dropped. */
  function Labels(rows: Grid): (ls: seq<Cell>)
    ensures |rows| >= 1 ==> |ls| < |rows|
  {
    if |rows| == 0 then [] else FilterTruthy(Column0(rows[1..]))
  }

  /** Some data row (after the header) carries `l` as a truthy column-0 value. */
  predicate Present(rows: Grid, l: string) {
    l != "" && exists k :: 1 <= k < |rows| && Get(rows[k], 0) == Text(l)
  }

  /** `labels.includes(l)` on the filtered label list asks exactly whether
      some data row is labelled `l`. */
  lemma LabelsMembership(rows: Grid, l: string)
    ensures Text(l) in Labels(rows) <==> Present(rows, l)
  {
    if |rows| >= 1 {
      var col := Column0(rows[1..]);
      if Text(l) in col {
        var j :| 0 <= j < |col| && col[j] == Text(l);
        assert Get(rows[j + 1], 0) == Text(l);
      }
      if l != "" && exists k :: 1 <= k < |rows| && Get(rows[k], 0) == Text(l) {
        var k :| 1 <= k < |rows| && Get(rows[k], 0) == Text(l);
        assert col[k - 1] == Text(l);
      }
    }
  }

  /** `xs` occurs in `ys` in order, possibly with gaps. */
  predicate IsSubsequence(xs: seq<string>, ys: seq<string>)
    decreases |ys|
  {
    if xs == [] then true
    else if ys == [] then false
    else if xs[0] == ys[0] then IsSubsequence(xs[1..], ys[1..])
    else IsSubsequence(xs, ys[1..])
  }

  /** `requiredLabels.filter(label => !labels.includes(label))`: every missing
      label and only those, in the order of the required list. */
  function MissingLabels(required: seq<string>, labels: seq<Cell>): (m: seq<string>)
    ensures forall l :: l in m <==> l in required && Text(l) !in labels
    ensures IsSubsequence(m, required)
  {
    if required == [] then []
    else
      var rest := MissingLabels(required[1..], labels);
      if Text(required[0]) in labels then
        assert rest != [] ==> rest[0] != required[0];
        rest
      else
        assert ([required[0]] + rest)[1..] == rest;
        [required[0]] + rest
  }

  lemma {:induction false} NothingMissing(required: seq<string>, labels: seq<Cell>)
    requires forall l :: l in required ==> Text(l) in labels
    ensures MissingLabels(required, labels) == []
  {
    if required != [] {
      NothingMissing(required[1..], labels);
    }
  }

  /** `validateSheetData`: fewer than two rows, then any missing required
      label, then fewer than 12 month labels are errors, checked in that
      order. */
  function ValidateSheetData(rows: Grid, required: seq<string>): (r: Result<Validated>)
    ensures r.Ok? ==> |rows| >= 2 && r.value == Validated(Labels(rows), Header(rows))
    ensures r.Ok? ==> |r.value.header| >= 12 && forall l :: l in required ==> Text(l) in r.value.labels
  {
    if |rows| < 2 then Err(InsufficientData)
    else
      var labels := Labels(rows);
      var missing := MissingLabels(required, labels);
      if |missing| > 0 then Err(MissingRows(missing))
      else
        var header := Header(rows);
        if |header| < 12 then Err(InsufficientMonths)
        else Ok(Validated(labels, header))
  }

  /** The outcome of validation in terms of the grid alone. */
  lemma ValidateOutcomes(rows: Grid, required: seq<string>)
    ensures ValidateSheetData(rows, required) == Err(InsufficientData) <==> |rows| < 2
    ensures ValidateSheetData(rows, required).Err? && ValidateSheetData(rows, required).error.MissingRows?
      <==> |rows| >= 2 && exists l :: l in required && !Present(rows, l)
    ensures ValidateSheetData(rows, required).Err? && ValidateSheetData(rows, required).error.MissingRows? ==>
      && (forall l :: l in ValidateSheetData(rows, required).error.missing <==> l in required && !Present(rows, l))
      && IsSubsequence(ValidateSheetData(rows, required).error.missing, required)
    ensures ValidateSheetData(rows, required) == Err(InsufficientMonths)
      <==> |rows| >= 2 && (forall l :: l in required ==> Present(rows, l)) && |Header(rows)| < 12
    ensures ValidateSheetData(rows, required).Ok?
      <==> |rows| >= 2 && (forall l :: l in required ==> Present(rows, l)) && |Header(rows)| >= 12
  {
    forall l {
      LabelsMembership(rows, l);
    }
    if |rows| >= 2 {
      var m := MissingLabels(required, Labels(rows));
      if exists l :: l in required && !Present(rows, l) {
        var l :| l in required && !Present(rows, l);
        assert l in m;
      } else {
        NothingMissing(required, Labels(rows));
      }
    }
  }

  /** `rowFor(name)`: `financialRows[labels.indexOf(name) + 1]`, where
      `labels` is the FILTERED label list. (The `|| []` fallback never
      applies: the index is always inside the grid.) */
  function RowFor(rows: Grid, labels: seq<Cell>, name: string): Row
    requires |labels| < |rows|
  {
    rows[IndexOf(labels, Text(name)) + 1]
  }

  /** Every data row has a truthy column-0 cell. */
  predicate NoBlankLabels(rows: Grid) {
    forall k :: 1 <= k < |rows| ==> Truthy(Get(rows[k], 0))
  }

  /** With no blank label, filtering the label column removes nothing. */
  lemma LabelsWithoutBlanks(rows: Grid)
    requires |rows| >= 1 && NoBlankLabels(rows)
    ensures Labels(rows) == Column0(rows[1..])
  {
    var col := Column0(rows[1..]);
    forall i | 0 <= i < |col|
      ensures Truthy(col[i])
    {
      assert col[i] == Get(rows[i + 1], 0);
    }
    FilterTruthyKeepsTruthy(col);
  }

  /** The number of blank labels among data rows `1 .. k - 1`. */
  function BlanksBefore(rows: Grid, k: nat): nat
    requires 1 <= k <= |rows|
  {
    Blanks(Column0(rows[1..k]))
  }

  /** For a name first carried by row `k`, `rowFor(name)` is `rows[k - b]`,
      where `b` counts the blank labels before row `k`: each one moves the
      result one row up. */
  lemma RowForSkipsBlanks(rows: Grid, name: string, k: nat)
    requires name != ""
    requires 1 <= k < |rows| && Get(rows[k], 0) == Text(name)
    requires forall j :: 1 <= j < k ==> Get(rows[j], 0) != Text(name)
    ensures BlanksBefore(rows, k) < k
    ensures RowFor(rows, Labels(rows), name) == rows[k - BlanksBefore(rows, k)]
  {
    var col := Column0(rows[1..]);
    var pre := Column0(rows[1..k]);
    var rest := col[k - 1..];
    assert col[..k - 1] == pre;
    assert col == pre + rest;
    assert rest[0] == Text(name);
    assert FilterTruthy(rest) == [Text(name)] + FilterTruthy(rest[1..]);
    FilterTruthyAppend(pre, rest);
    FilterTruthyLength(pre);
    var fp := FilterTruthy(pre);
    forall j | 0 <= j < |pre|
      ensures pre[j] != Text(name)
    {
      assert pre[j] == Get(rows[j + 1], 0);
    }
    var ls := Labels(rows);
    assert ls == fp + ([Text(name)] + FilterTruthy(rest[1..]));
    assert ls[|fp|] == Text(name);
    forall j | 0 <= j < |fp|
      ensures ls[j] != Text(name)
    {
      assert ls[j] == fp[j] && fp[j] in pre;
    }
    IndexOfFirst(ls, Text(name), |fp|);
  }

  /** So when no blank label precedes the first row labelled `name`,
      `rowFor(name)` is that row; blank labels after it do not matter. */
  lemma RowForFindsLabelledRow(rows: Grid, name: string, k: nat)
    requires name != ""
    requires 1 <= k < |rows| && Get(rows[k], 0) == Text(name)
    requires forall j :: 1 <= j < k ==> Get(rows[j], 0) != Text(name) && Truthy(Get(rows[j], 0))
    ensures RowFor(rows, Labels(rows), name) == rows[k]
  {
    var pre := Column0(rows[1..k]);
    assert BlanksBefore(rows, k) == 0 by {
      forall j | 0 <= j < |pre|
        ensures Truthy(pre[j])
      {
        assert pre[j] == Get(rows[j + 1], 0);
      }
      FilterTruthyKeepsTruthy(pre);
      FilterTruthyLength(pre);
    }
    RowForSkipsBlanks(rows, name, k);
  }

  /** A label absent from the list reads the header row, `rows[0]`. */
  lemma RowForAbsentReadsHeader(rows: Grid, labels: seq<Cell>, name: string)
    requires |labels| < |rows| && Text(name) !in labels
    ensures RowFor(rows, labels, name) == rows[0]
  {
  }

  /** A blank-label row before a labelled row makes `rowFor` return the
      wrong row: here the blank row instead of the "Free Users" row. */
  lemma BlankLabelRowShiftsRowFor()
    ensures var rows := [[Empty, Text("Jan 26")], [Empty, Num(7.0)], [Text("Free Users"), Num(5.0)]];
      RowFor(rows, Labels(rows), "Free Users") == rows[1] != rows[2]
  {
    var rows := [[Empty, Text("Jan 26")], [Empty, Num(7.0)], [Text("Free Users"), Num(5.0)]];
    assert Column0(rows[1..]) == [Empty, Text("Free Users")];
    assert Labels(rows) == [Text("Free Users")];
  }

  /** One entry of `monthly`. */
  datatype MonthlyFinancial = MonthlyFinancial(
    month: Cell,
    revenue: real,
    marketing: real,
    it: real,
    founder: real,
    hire: real,
    expenses: real,
    net: real,
    cash: int)

  /** The figures of month `i`; its cash is the running balance after
      month `i`, rounded and floored at 0. */
  function MonthAt(month: Cell, l: LedgerRows, opening: real, i: nat): MonthlyFinancial {
    MonthlyFinancial(month, RevenueAt(l, i), MarketingAt(l, i), ItAt(l, i), FounderAt(l, i),
                     HireAt(l, i), ExpensesAt(l, i), NetAt(l, i),
                     Displayed(RunningBalance(opening, l, i)))
  }

  function MonthlyOf(months: seq<Cell>, l: LedgerRows, opening: real): seq<MonthlyFinancial> {
    seq(|months|, i requires 0 <= i < |months| => MonthAt(months[i], l, opening, i))
  }

  /** The `monthly` map with its mutable `rollingCash` accumulator, which
      carries the unfloored balance from month to month. */
  method BuildMonthly(months: seq<Cell>, l: LedgerRows, opening: real) returns (monthly: seq<MonthlyFinancial>)
    ensures monthly == MonthlyOf(months, l, opening)
  {
    var rollingCash := opening;
    monthly := [];
    var i := 0;
    while i < |months|
      invariant 0 <= i <= |months| && |monthly| == i
      invariant rollingCash == opening + Total(Nets(l, i))
      invariant forall k :: 0 <= k < i ==> monthly[k] == MonthAt(months[k], l, opening, k)
    {
      var revenue := CoerceNumber(Get(l.revenue, i + 1));
      var marketing := CoerceNumber(Get(l.marketing, i + 1));
      var it := CoerceNumber(Get(l.it, i + 1));
      var founder := CoerceNumber(Get(l.founder, i + 1));
      var hire := CoerceNumber(Get(l.hire, i + 1));
      var expenses := marketing + it + founder + hire;
      var net := revenue - expenses;
      NetsExtend(l, i);
      TotalAppend(Nets(l, i), NetAt(l, i));
      rollingCash := rollingCash + net;
      monthly := monthly + [MonthlyFinancial(months[i], revenue, marketing, it, founder, hire,
                                             expenses, net, Displayed(rollingCash))];
      i := i + 1;
    }
  }

  /** The summary metrics; the four Summary fields are null (`Empty` and
      `None`) when there is no Summary sheet. */
  datatype Metrics = Metrics(
    openingFunding: real,
    breakevenMonth: Cell,
    lowestCashMonth: Cell,
    lowestCashBalance: Option<real>,
    endingCashDec28: Option<real>)

  /** `findValue(label) ?? 0`. */
  function OrZero(v: Option<Cell>): Cell {
    match v
    case Some(c) => if c == Empty then Num(0.0) else c
    case None => Num(0.0)
  }

  function SummaryMetrics(opening: real, wb: Workbook): Metrics {
    if SummarySheet !in wb then Metrics(opening, Empty, Empty, None, None)
    else
      var s := wb[SummarySheet];
      Metrics(opening,
              OrNull(LookupValue(s, "Breakeven Month")),
              OrNull(LookupValue(s, "Lowest Cash Month")),
              Some(CoerceNumber(OrZero(LookupValue(s, "Lowest Cash Balance €")))),
              Some(CoerceNumber(OrZero(LookupValue(s, "Ending Cash Dec-28 €")))))
  }

  /** Without a Summary sheet only the opening funding is known and the four
      Summary fields are null. With one, both balances are numbers: 0 when
      their row is absent. The month fields are null when their row is
      absent. */
  lemma SummaryDefaults(opening: real, wb: Workbook)
    ensures SummaryMetrics(opening, wb).openingFunding == opening
    ensures SummarySheet !in wb ==> SummaryMetrics(opening, wb) == Metrics(opening, Empty, Empty, None, None)
    ensures SummarySheet in wb ==>
      var s := wb[SummarySheet];
      var m := SummaryMetrics(opening, wb);
      && m.lowestCashBalance.Some? && m.endingCashDec28.Some?
      && (NoRowLabelled(s, "Breakeven Month") ==> m.breakevenMonth == Empty)
      && (NoRowLabelled(s, "Lowest Cash Month") ==> m.lowestCashMonth == Empty)
      && (NoRowLabelled(s, "Lowest Cash Balance €") ==> m.lowestCashBalance == Some(0.0))
      && (NoRowLabelled(s, "Ending Cash Dec-28 €") ==> m.endingCashDec28 == Some(0.0))
  {
  }

  /** Each field takes column 1 of the first row carrying its label: as it
      is for the two month fields, coerced for the two balances. */
  lemma SummaryFirstRowWins(opening: real, wb: Workbook, k: nat)
    requires SummarySheet in wb
    ensures var s := wb[SummarySheet];
      var m := SummaryMetrics(opening, wb);
      && (FirstLabelled(s, "Breakeven Month", k) ==> m.breakevenMonth == Get(s[k], 1))
      && (FirstLabelled(s, "Lowest Cash Month", k) ==> m.lowestCashMonth == Get(s[k], 1))
      && (FirstLabelled(s, "Lowest Cash Balance €", k) ==> m.lowestCashBalance == Some(CoerceNumber(Get(s[k], 1))))
      && (FirstLabelled(s, "Ending Cash Dec-28 €", k) ==> m.endingCashDec28 == Some(CoerceNumber(Get(s[k], 1))))
  {
    var s := wb[SummarySheet];
    if FirstLabelled(s, "Breakeven Month", k) {
      LookupFirst(s, "Breakeven Month", k);
    }
    if FirstLabelled(s, "Lowest Cash Month", k) {
      LookupFirst(s, "Lowest Cash Month", k);
    }
    if FirstLabelled(s, "Lowest Cash Balance €", k) {
      LookupFirst(s, "Lowest Cash Balance €", k);
    }
    if FirstLabelled(s, "Ending Cash Dec-28 €", k) {
      LookupFirst(s, "Ending Cash Dec-28 €", k);
    }
  }

  /** What `loadFinancialPlan` returns. */
  datatype Plan = Plan(
    months: seq<Cell>,
    users: seq<UserSnapshot>,
    monthly: seq<MonthlyFinancial>,
    metrics: Metrics,
    financialSheetRows: Grid)

  function LedgerOf(rows: Grid, labels: seq<Cell>): LedgerRows
    requires |labels| < |rows|
  {
    LedgerRows(RowFor(rows, labels, "Total Revenue €"),
               RowFor(rows, labels, "Marketing €"),
               RowFor(rows, labels, "IT Supplier (Dev/Hosting) €"),
               RowFor(rows, labels, "Founder Wage €"),
               RowFor(rows, labels, "New Hire Wage €"))
  }

  /** The opening funding: column 1 only of its row, coerced. */
  function OpeningFunding(rows: Grid, labels: seq<Cell>): real
    requires |labels| < |rows|
  {
    CoerceNumber(Get(RowFor(rows, labels, "Opening Funding Balance €"), 1))
  }

  function UsersFrom(rows: Grid, labels: seq<Cell>, months: seq<Cell>): seq<UserSnapshot>
    requires |labels| < |rows|
  {
    UsersOf(months, RowFor(rows, labels, "Free Users"), RowFor(rows, labels, "Freemium Users"),
            RowFor(rows, labels, "Enterprise Users"))
  }

  /** The plan built from a validated grid: months, users, monthly figures
      and metrics. */
  function Assemble(rows: Grid, labels: seq<Cell>, months: seq<Cell>, wb: Workbook): Plan
    requires |labels| < |rows|
  {
    var opening := OpeningFunding(rows, labels);
    Plan(months,
         UsersFrom(rows, labels, months),
         MonthlyOf(months, LedgerOf(rows, labels), opening),
         SummaryMetrics(opening, wb),
         rows)
  }

  /** The plan extracted from a workbook, as a function of its sheets. */
  function FinancialPlanOf(wb: Workbook): Result<Plan> {
    if FinancialSheet !in wb then Err(SheetNotFound)
    else
      var rows := wb[FinancialSheet];
      match ValidateSheetData(rows, RequiredLabels)
      case Err(e) => Err(e)
      case Ok(v) => Ok(Assemble(rows, v.labels, v.header, wb))
  }

  /** `loadFinancialPlan` from the converted workbook onward. */
  method LoadFinancialPlan(wb: Workbook) returns (r: Result<Plan>)
    ensures r == FinancialPlanOf(wb)
  {
    if FinancialSheet !in wb {
      return Err(SheetNotFound);
    }
    var financialRows := wb[FinancialSheet];
    var validated := ValidateSheetData(financialRows, RequiredLabels);
    if validated.Err? {
      return Err(validated.error);
    }
    var labels, months := validated.value.labels, validated.value.header;
    var users := UsersFrom(financialRows, labels, months);
    var openingFunding := OpeningFunding(financialRows, labels);
    var monthly := BuildMonthly(months, LedgerOf(financialRows, labels), openingFunding);
    var metrics := Metrics(openingFunding, Empty, Empty, None, None);
    if SummarySheet in wb {
      var summaryRows := wb[SummarySheet];
      metrics := metrics.(
        breakevenMonth := OrNull(LookupValue(summaryRows, "Breakeven Month")),
        lowestCashMonth := OrNull(LookupValue(summaryRows, "Lowest Cash Month")),
        lowestCashBalance := Some(CoerceNumber(OrZero(LookupValue(summaryRows, "Lowest Cash Balance €")))),
        endingCashDec28 := Some(CoerceNumber(OrZero(LookupValue(summaryRows, "Ending Cash Dec-28 €")))));
    }
    return Ok(Plan(months, users, monthly, metrics, financialRows));
  }

  /** Helper: a successful plan spelled out in terms of the grid. */
  lemma PlanUnfold(wb: Workbook, p: Plan)
    requires FinancialPlanOf(wb) == Ok(p)
    ensures FinancialSheet in wb
    ensures var rows := wb[FinancialSheet];
      && |rows| >= 2 && |Labels(rows)| < |rows| && |Header(rows)| >= 12
      && p == Assemble(rows, Labels(rows), Header(rows), wb)
  {
  }

  /** Helper: the fields of a successful plan, one by one, so that the
      lemmas below need not unfold the extraction themselves. */
  lemma PlanParts(wb: Workbook, p: Plan)
    requires FinancialPlanOf(wb) == Ok(p)
    ensures FinancialSheet in wb && p.financialSheetRows == wb[FinancialSheet]
    ensures |p.financialSheetRows| >= 2 && |Labels(p.financialSheetRows)| < |p.financialSheetRows|
    ensures p.months == Header(p.financialSheetRows) && |p.months| >= 12
    ensures p.metrics.openingFunding == OpeningFunding(p.financialSheetRows, Labels(p.financialSheetRows))
    ensures p.users == UsersFrom(p.financialSheetRows, Labels(p.financialSheetRows), p.months)
    ensures p.monthly == MonthlyOf(p.months, LedgerOf(p.financialSheetRows, Labels(p.financialSheetRows)), p.metrics.openingFunding)
    ensures p.metrics == SummaryMetrics(p.metrics.openingFunding, wb)
  {
    PlanUnfold(wb, p);
  }

  /** Extraction fails exactly when the sheet is missing or validation fails,
      and then with validation's error. */
  lemma PlanErrors(wb: Workbook)
    ensures FinancialSheet !in wb ==> FinancialPlanOf(wb) == Err(SheetNotFound)
    ensures FinancialSheet in wb && ValidateSheetData(wb[FinancialSheet], RequiredLabels).Err? ==>
      FinancialPlanOf(wb) == Err(ValidateSheetData(wb[FinancialSheet], RequiredLabels).error)
    ensures FinancialPlanOf(wb).Ok? <==>
      && FinancialSheet in wb
      && |wb[FinancialSheet]| >= 2
      && (forall l :: l in RequiredLabels ==> Present(wb[FinancialSheet], l))
      && |Header(wb[FinancialSheet])| >= 12
  {
    if FinancialSheet in wb {
      ValidateOutcomes(wb[FinancialSheet], RequiredLabels);
    }
  }

  /** On success the months are the header's truthy cells (at least 12), and
      users and monthly have one entry per month. */
  lemma PlanShape(wb: Workbook, p: Plan)
    requires FinancialPlanOf(wb) == Ok(p)
    ensures FinancialSheet in wb && p.financialSheetRows == wb[FinancialSheet]
    ensures |p.financialSheetRows| >= 2 && p.months == Header(p.financialSheetRows)
    ensures |p.months| >= 12
    ensures |p.users| == |p.months| && |p.monthly| == |p.months|
    ensures forall i :: 0 <= i < |p.months| ==> p.users[i].month == p.months[i] && p.monthly[i].month == p.months[i]
  {
  }

  /** Month `i` of figures built from `rows` reads column `i + 1`. */
  lemma ReadsColumnsFrom(p: Plan, rows: Grid, i: nat)
    requires |Labels(rows)| < |rows| && i < |p.months|
    requires p.users == UsersFrom(rows, Labels(rows), p.months)
    requires p.monthly == MonthlyOf(p.months, LedgerOf(rows, Labels(rows)), p.metrics.openingFunding)
    ensures var ls := Labels(rows);
      && p.users[i].free == CoerceNumber(Get(RowFor(rows, ls, "Free Users"), i + 1))
      && p.users[i].freemium == CoerceNumber(Get(RowFor(rows, ls, "Freemium Users"), i + 1))
      && p.users[i].enterprise == CoerceNumber(Get(RowFor(rows, ls, "Enterprise Users"), i + 1))
      && p.monthly[i].revenue == CoerceNumber(Get(RowFor(rows, ls, "Total Revenue €"), i + 1))
      && p.monthly[i].marketing == CoerceNumber(Get(RowFor(rows, ls, "Marketing €"), i + 1))
      && p.monthly[i].it == CoerceNumber(Get(RowFor(rows, ls, "IT Supplier (Dev/Hosting) €"), i + 1))
      && p.monthly[i].founder == CoerceNumber(Get(RowFor(rows, ls, "Founder Wage €"), i + 1))
      && p.monthly[i].hire == CoerceNumber(Get(RowFor(rows, ls, "New Hire Wage €"), i + 1))
  {
    var ls := Labels(rows);
    UsersAt(p.months, RowFor(rows, ls, "Free Users"), RowFor(rows, ls, "Freemium Users"),
            RowFor(rows, ls, "Enterprise Users"), i);
    assert p.monthly[i] == MonthAt(p.months[i], LedgerOf(rows, ls), p.metrics.openingFunding, i);
  }

  /** Month `i` reads column `i + 1` of the rows `rowFor` selects; a cell
      past the end of a row counts as 0. */
  lemma PlanReadsColumns(wb: Workbook, p: Plan, i: nat)
    requires FinancialPlanOf(wb) == Ok(p) && i < |p.months|
    ensures var rows := p.financialSheetRows;
      var ls := Labels(rows);
      && |ls| < |rows|
      && p.users[i].free == CoerceNumber(Get(RowFor(rows, ls, "Free Users"), i + 1))
      && p.users[i].freemium == CoerceNumber(Get(RowFor(rows, ls, "Freemium Users"), i + 1))
      && p.users[i].enterprise == CoerceNumber(Get(RowFor(rows, ls, "Enterprise Users"), i + 1))
      && p.monthly[i].revenue == CoerceNumber(Get(RowFor(rows, ls, "Total Revenue €"), i + 1))
      && p.monthly[i].marketing == CoerceNumber(Get(RowFor(rows, ls, "Marketing €"), i + 1))
      && p.monthly[i].it == CoerceNumber(Get(RowFor(rows, ls, "IT Supplier (Dev/Hosting) €"), i + 1))
      && p.monthly[i].founder == CoerceNumber(Get(RowFor(rows, ls, "Founder Wage €"), i + 1))
      && p.monthly[i].hire == CoerceNumber(Get(RowFor(rows, ls, "New Hire Wage €"), i + 1))
      && p.metrics.openingFunding == CoerceNumber(Get(RowFor(rows, ls, "Opening Funding Balance €"), 1))
  {
    PlanParts(wb, p);
    ReadsColumnsFrom(p, p.financialSheetRows, i);
  }

  /** The figures of every month built from given rows balance, and no cash
      balance is negative. */
  lemma MonthlyArithmetic(p: Plan, l: LedgerRows, i: nat)
    requires p.monthly == MonthlyOf(p.months, l, p.metrics.openingFunding) && i < |p.monthly|
    ensures p.monthly[i].expenses == p.monthly[i].marketing + p.monthly[i].it + p.monthly[i].founder + p.monthly[i].hire
    ensures p.monthly[i].net == p.monthly[i].revenue - p.monthly[i].expenses
    ensures p.monthly[i].cash >= 0
  {
    assert p.monthly[i] == MonthAt(p.months[i], l, p.metrics.openingFunding, i);
  }

  /** Every month's expenses are its four cost lines, its net is revenue
      minus expenses, and its cash is never negative. */
  lemma PlanArithmetic(wb: Workbook, p: Plan, i: nat)
    requires FinancialPlanOf(wb) == Ok(p) && i < |p.monthly|
    ensures p.monthly[i].expenses == p.monthly[i].marketing + p.monthly[i].it + p.monthly[i].founder + p.monthly[i].hire
    ensures p.monthly[i].net == p.monthly[i].revenue - p.monthly[i].expenses
    ensures p.monthly[i].cash >= 0
  {
    var l := PlanLedger(wb, p);
    MonthlyArithmetic(p, l, i);
  }

  /** The nets of a list of months. */
  function NetsOf(ms: seq<MonthlyFinancial>): seq<real> {
    seq(|ms|, k requires 0 <= k < |ms| => ms[k].net)
  }

  /** `cash[i] = max(0, round(opening + net[0] + ... + net[i]))`, stated
      over the nets the monthly list itself reports. */
  lemma MonthlyCashIsRunningTotal(months: seq<Cell>, l: LedgerRows, opening: real, monthly: seq<MonthlyFinancial>, i: nat)
    requires monthly == MonthlyOf(months, l, opening) && i < |months|
    ensures monthly[i].cash == Displayed(opening + Total(NetsOf(monthly[..i + 1])))
  {
    var ms := monthly[..i + 1];
    forall k | 0 <= k < i + 1
      ensures NetsOf(ms)[k] == Nets(l, i + 1)[k]
    {
      assert ms[k] == MonthAt(months[k], l, opening, k);
    }
    assert NetsOf(ms) == Nets(l, i + 1);
  }

  /** The rows a successful plan's monthly figures are read from. */
  lemma PlanLedger(wb: Workbook, p: Plan) returns (l: LedgerRows)
    requires FinancialPlanOf(wb) == Ok(p)
    ensures p.monthly == MonthlyOf(p.months, l, p.metrics.openingFunding)
  {
    PlanParts(wb, p);
    l := LedgerOf(p.financialSheetRows, Labels(p.financialSheetRows));
  }

  /** Helper: `MonthlyCashIsRunningTotal` restated for the fields of a plan,
      so that callers need not unfold `MonthlyOf`. */
  lemma PlanCash(p: Plan, l: LedgerRows, i: nat)
    requires p.monthly == MonthlyOf(p.months, l, p.metrics.openingFunding) && i < |p.monthly|
    ensures p.monthly[i].cash == Displayed(p.metrics.openingFunding + Total(NetsOf(p.monthly[..i + 1])))
  {
    MonthlyCashIsRunningTotal(p.months, l, p.metrics.openingFunding, p.monthly, i);
  }

  /** The same, for the plan: the opening funding plus the nets so far. */
  lemma CashIsRunningTotal(wb: Workbook, p: Plan, i: nat)
    requires FinancialPlanOf(wb) == Ok(p) && i < |p.monthly|
    ensures p.monthly[i].cash == Displayed(p.metrics.openingFunding + Total(NetsOf(p.monthly[..i + 1])))
  {
    var l := PlanLedger(wb, p);
    PlanCash(p, l, i);
  }

  /** When the header has no blank cell after column 0, month `i` is the
      label written above column `i + 1`, the column it is read from. */
  lemma HeaderAligned(rows: Grid, i: nat)
    requires |rows| >= 1 && i < |Header(rows)|
    requires forall j :: 1 <= j < |rows[0]| ==> Truthy(rows[0][j])
    ensures Header(rows)[i] == Get(rows[0], i + 1)
  {
    var h := Drop1(rows[0]);
    forall k | 0 <= k < |h|
      ensures Truthy(h[k])
    {
      assert h[k] == rows[0][k + 1];
    }
    FilterTruthyKeepsTruthy(h);
  }

  /** The same for a plan's months. */
  lemma MonthsAlignedWithoutBlankHeader(wb: Workbook, p: Plan, i: nat)
    requires FinancialPlanOf(wb) == Ok(p) && i < |p.months| && |p.financialSheetRows| >= 1
    requires forall j :: 1 <= j < |p.financialSheetRows[0]| ==> Truthy(p.financialSheetRows[0][j])
    ensures p.months[i] == Get(p.financialSheetRows[0], i + 1)
  {
    PlanShape(wb, p);
    HeaderAligned(p.financialSheetRows, i);
  }

  /** A blank header cell shifts the pairing: "Feb" is month 1 but is read
      from column 2, which sits under the blank cell, not under "Feb". */
  lemma BlankHeaderCellShiftsMonths()
    ensures var header := [Empty, Text("Jan"), Empty, Text("Feb")];
      Header([header]) == [Text("Jan"), Text("Feb")] && Get(header, 1 + 1) == Empty
  {
    var header := [Empty, Text("Jan"), Empty, Text("Feb")];
    var tail := [Text("Jan"), Empty, Text("Feb")];
    assert Drop1(header) == tail;
    assert tail[1..] == [Empty, Text("Feb")];
    assert tail[1..][1..] == [Text("Feb")];
    assert FilterTruthy([Text("Feb")]) == [Text("Feb")];
    assert FilterTruthy(tail[1..]) == [Text("Feb")];
  }

  /** The running balance is carried unfloored: after a month that drives it
      below zero (shown as 0), the next month adds to the negative balance,
      where flooring before carrying would show 100 rather than 50. */
  lemma FloorDoesNotCompound()
    ensures var l := LedgerRows([Empty, Num(0.0), Num(100.0)], [Empty, Num(150.0)], [], [], []);
      var m := MonthlyOf([Text("Jan"), Text("Feb")], l, 100.0);
      && m[0].net == -150.0 && m[0].cash == 0
      && m[1].net == 100.0 && m[1].cash == 50
      && Round(CarriedBalance(100.0, [m[0].net, m[1].net])) == 100
  {
    var l := LedgerRows([Empty, Num(0.0), Num(100.0)], [Empty, Num(150.0)], [], [], []);
    assert NetAt(l, 0) == -150.0;
    assert NetAt(l, 1) == 100.0;
    assert Nets(l, 1) == [-150.0];
    assert Nets(l, 2) == [-150.0, 100.0];
    assert [-150.0, 100.0][..1] == [-150.0];
    assert [-150.0][..0] == [];
  }

  /** A sheet whose data rows carry no "Founder Wage €" label fails with a
      missing-rows error that names it. */
  lemma MissingFounderWage(wb: Workbook)
    requires FinancialSheet in wb && |wb[FinancialSheet]| >= 2
    requires forall k :: 1 <= k < |wb[FinancialSheet]| ==> Get(wb[FinancialSheet][k], 0) != Text("Founder Wage €")
    ensures FinancialPlanOf(wb).Err? && FinancialPlanOf(wb).error.MissingRows?
    ensures "Founder Wage €" in FinancialPlanOf(wb).error.missing
  {
    var rows := wb[FinancialSheet];
    ValidateOutcomes(rows, RequiredLabels);
    assert "Founder Wage €" in RequiredLabels && !Present(rows, "Founder Wage €");
  }

  /** A grid with every required row but only six truthy month labels fails
      with the months error. */
  lemma ShortHorizon(wb: Workbook)
    requires FinancialSheet in wb && |wb[FinancialSheet]| >= 2
    requires forall l :: l in RequiredLabels ==> Present(wb[FinancialSheet], l)
    requires |Header(wb[FinancialSheet])| == 6
    ensures FinancialPlanOf(wb) == Err(InsufficientMonths)
  {
    ValidateOutcomes(wb[FinancialSheet], RequiredLabels);
  }

  /** An opening balance of 100000, revenue 10000 and marketing 2000 in the
      first month, other costs 0: the first net is 8000 and the cash 108000. */
  lemma FirstMonthScenario(months: seq<Cell>)
    requires |months| >= 1
    ensures var l := LedgerRows([Text("Total Revenue €"), Num(10000.0)], [Text("Marketing €"), Num(2000.0)],
                                [Text("IT Supplier (Dev/Hosting) €"), Num(0.0)], [Text("Founder Wage €"), Num(0.0)],
                                [Text("New Hire Wage €"), Num(0.0)]);
      var m := MonthlyOf(months, l, 100000.0);
      m[0].net == 8000.0 && m[0].cash == 108000
  {
    var l := LedgerRows([Text("Total Revenue €"), Num(10000.0)], [Text("Marketing €"), Num(2000.0)],
                        [Text("IT Supplier (Dev/Hosting) €"), Num(0.0)], [Text("Founder Wage €"), Num(0.0)],
                        [Text("New Hire Wage €"), Num(0.0)]);
    assert NetAt(l, 0) == 8000.0;
    assert Nets(l, 1) == [8000.0];
    assert Nets(l, 1)[..0] == [];
  }
}

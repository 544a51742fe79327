/** The browser extractor (`parseWorkbook`), from the fetch status and the
    converted workbook onward: the label lookup `getRow` over the unfiltered
    label column, the months, user counts and monthly figures with their
    running cash balance, and the optional Summary metrics. */
module ParsePlan {
  import opened Values
  import opened Coercion
  import opened Ledger

  /** What the fetch produced: a non-ok HTTP status, or the converted workbook. */
  datatype Fetched = Failed(status: int) | Loaded(workbook: Workbook)

  /** `labels.findIndex(l => l === name)` on the UNFILTERED label column,
      then `rows[idx + 1]`. (The `|| []` fallback never applies: the index is
      always inside the grid, and a row is never falsy.) */
  function GetRow(rows: Grid, name: string): Row
    requires |rows| >= 1
  {
    rows[IndexOf(Column0(rows[1..]), Text(name)) + 1]
  }

  /** `getRow(name)` is the first data row labelled `name`, whatever blank
      rows precede it. */
  lemma GetRowFindsLabelledRow(rows: Grid, name: string, k: nat)
    requires 1 <= k < |rows| && Get(rows[k], 0) == Text(name)
    requires forall j :: 1 <= j < k ==> Get(rows[j], 0) != Text(name)
    ensures GetRow(rows, name) == rows[k]
  {
    var col := Column0(rows[1..]);
    assert col[k - 1] == Text(name);
    assert forall j :: 0 <= j < k - 1 ==> col[j] == Get(rows[j + 1], 0);
  }

  /** An absent label makes `findIndex` return -1, which selects the header
      row. */
  lemma GetRowAbsentReadsHeader(rows: Grid, name: string)
    requires |rows| >= 1
    requires forall k :: 1 <= k < |rows| ==> Get(rows[k], 0) != Text(name)
    ensures GetRow(rows, name) == rows[0]
  {
    var col := Column0(rows[1..]);
    assert forall j :: 0 <= j < |col| ==> col[j] == Get(rows[j + 1], 0);
  }

  /** One entry of `monthly`: revenue is stored as `totalRevenue`, and there
      is no `expenses` field. */
  datatype BrowserMonth = BrowserMonth(
    month: Cell,
    totalRevenue: real,
    marketing: real,
    it: real,
    founder: real,
    hire: real,
    net: real,
    cash: int)

  function BrowserMonthAt(month: Cell, l: LedgerRows, opening: real, i: nat): BrowserMonth {
    BrowserMonth(month, RevenueAt(l, i), MarketingAt(l, i), ItAt(l, i), FounderAt(l, i), HireAt(l, i),
                 NetAt(l, i), Displayed(RunningBalance(opening, l, i)))
  }

  function BrowserMonthlyOf(months: seq<Cell>, l: LedgerRows, opening: real): seq<BrowserMonth> {
    seq(|months|, i requires 0 <= i < |months| => BrowserMonthAt(months[i], l, opening, i))
  }

  /** The `monthly` map with the mutable `cash` accumulator it updates. */
  method BuildBrowserMonthly(months: seq<Cell>, l: LedgerRows, opening: real) returns (monthly: seq<BrowserMonth>)
    ensures monthly == BrowserMonthlyOf(months, l, opening)
  {
    var cash := opening;
    monthly := [];
    var i := 0;
    while i < |months|
      invariant 0 <= i <= |months| && |monthly| == i
      invariant cash == opening + Total(Nets(l, i))
      invariant forall k :: 0 <= k < i ==> monthly[k] == BrowserMonthAt(months[k], l, opening, k)
    {
      var rev := CoerceNumber(Get(l.revenue, i + 1));
      var expMarketing := CoerceNumber(Get(l.marketing, i + 1));
      var expIt := CoerceNumber(Get(l.it, i + 1));
      var expFounder := CoerceNumber(Get(l.founder, i + 1));
      var expHire := CoerceNumber(Get(l.hire, i + 1));
      var expenses := expMarketing + expIt + expFounder + expHire;
      var net := rev - expenses;
      NetsExtend(l, i);
      TotalAppend(Nets(l, i), NetAt(l, i));
      cash := cash + net;
      monthly := monthly + [BrowserMonth(months[i], rev, expMarketing, expIt, expFounder, expHire,
                                         net, Displayed(cash))];
      i := i + 1;
    }
  }

  /** `metrics`: just the opening funding without a Summary sheet; with one,
      the month fields as found (Empty for undefined) and the balance fields
      coerced. */
  datatype BrowserMetrics =
    | OpeningOnly(openingFunding: real)
    | WithSummary(openingFunding: real, breakevenMonth: Cell, lowestCashMonth: Cell,
                  lowestCashBalance: real, endingCashDec28: real)

  function BrowserMetricsOf(opening: real, wb: Workbook): BrowserMetrics {
    if SummarySheet !in wb then OpeningOnly(opening)
    else
      var s := wb[SummarySheet];
      WithSummary(opening,
                  OrNull(LookupValue(s, "Breakeven Month")),
                  OrNull(LookupValue(s, "Lowest Cash Month")),
                  CoerceNumber(OrNull(LookupValue(s, "Lowest Cash Balance €"))),
                  CoerceNumber(OrNull(LookupValue(s, "Ending Cash Dec-28 €"))))
  }

  /** Without a Summary sheet the metrics are the opening funding alone. With
      one, an absent month row gives undefined and an absent balance row 0. */
  lemma BrowserMetricsFacts(opening: real, wb: Workbook)
    ensures BrowserMetricsOf(opening, wb).openingFunding == opening
    ensures BrowserMetricsOf(opening, wb).OpeningOnly? <==> SummarySheet !in wb
    ensures SummarySheet in wb ==>
      var s := wb[SummarySheet];
      var m := BrowserMetricsOf(opening, wb);
      && (NoRowLabelled(s, "Breakeven Month") ==> m.breakevenMonth == Empty)
      && (NoRowLabelled(s, "Lowest Cash Month") ==> m.lowestCashMonth == Empty)
      && (NoRowLabelled(s, "Lowest Cash Balance €") ==> m.lowestCashBalance == 0.0)
      && (NoRowLabelled(s, "Ending Cash Dec-28 €") ==> m.endingCashDec28 == 0.0)
  {
  }

  /** With a Summary sheet each field takes column 1 of the first row
      carrying its label: as it is for the month fields, coerced for the
      balances. */
  lemma BrowserSummaryFirstRowWins(opening: real, wb: Workbook, k: nat)
    requires SummarySheet in wb
    ensures var s := wb[SummarySheet];
      var m := BrowserMetricsOf(opening, wb);
      && m.WithSummary?
      && (FirstLabelled(s, "Breakeven Month", k) ==> m.breakevenMonth == Get(s[k], 1))
      && (FirstLabelled(s, "Lowest Cash Month", k) ==> m.lowestCashMonth == Get(s[k], 1))
      && (FirstLabelled(s, "Lowest Cash Balance €", k) ==> m.lowestCashBalance == CoerceNumber(Get(s[k], 1)))
      && (FirstLabelled(s, "Ending Cash Dec-28 €", k) ==> m.endingCashDec28 == CoerceNumber(Get(s[k], 1)))
  {
    var s := wb[SummarySheet];
    if FirstLabelled(s, "Breakeven Month", k) {
      LookupFirst(s, "Breakeven Month", k);
    }
    if FirstLabelled(s, "Lowest Cash Month", k) {
      LookupFirst(s, "Lowest Cash Month", k);
    }
    if FirstLabelled(s, "Lowest Cash Balance €", k) {
      LookupFirst(s, "Lowest Cash Balance €", k);
    }
    if FirstLabelled(s, "Ending Cash Dec-28 €", k) {
      LookupFirst(s, "Ending Cash Dec-28 €", k);
    }
  }

  /** What `parseWorkbook` resolves to. */
  datatype BrowserPlan = BrowserPlan(
    months: seq<Cell>,
    users: seq<UserSnapshot>,
    monthly: seq<BrowserMonth>,
    metrics: BrowserMetrics)

  function BrowserLedger(rows: Grid): LedgerRows
    requires |rows| >= 1
  {
    LedgerRows(GetRow(rows, "Total Revenue €"), GetRow(rows, "Marketing €"),
               GetRow(rows, "IT Supplier (Dev/Hosting) €"), GetRow(rows, "Founder Wage €"),
               GetRow(rows, "New Hire Wage €"))
  }

  function BrowserOpening(rows: Grid): real
    requires |rows| >= 1
  {
    CoerceNumber(Get(GetRow(rows, "Opening Funding Balance €"), 1))
  }

  function BrowserUsers(rows: Grid, months: seq<Cell>): seq<UserSnapshot>
    requires |rows| >= 1
  {
    UsersOf(months, GetRow(rows, "Free Users"), GetRow(rows, "Freemium Users"), GetRow(rows, "Enterprise Users"))
  }

  /** The plan read from a non-empty grid. */
  function ParseRows(rows: Grid, wb: Workbook): BrowserPlan
    requires |rows| >= 1
  {
    var months := Header(rows);
    var opening := BrowserOpening(rows);
    BrowserPlan(months, BrowserUsers(rows, months),
                BrowserMonthlyOf(months, BrowserLedger(rows), opening),
                BrowserMetricsOf(opening, wb))
  }

  /** The outcome of `parseWorkbook`, as a function of what was fetched. */
  function ParseWorkbookOf(f: Fetched): Result<BrowserPlan> {
    match f
    case Failed(status) => Err(FetchFailed(status))
    case Loaded(wb) =>
      if FinancialSheet !in wb then Err(SheetNotFound)
      else if |wb[FinancialSheet]| == 0 then Err(NoData)
      else Ok(ParseRows(wb[FinancialSheet], wb))
  }

  /** `parseWorkbook` from the response onward. */
  method ParseWorkbook(f: Fetched) returns (r: Result<BrowserPlan>)
    ensures r == ParseWorkbookOf(f)
  {
    if f.Failed? {
      return Err(FetchFailed(f.status));
    }
    var wb := f.workbook;
    if FinancialSheet !in wb {
      return Err(SheetNotFound);
    }
    var rows := wb[FinancialSheet];
    if |rows| == 0 {
      return Err(NoData);
    }
    var months := Header(rows);
    var users := BrowserUsers(rows, months);
    var openingFunding := BrowserOpening(rows);
    var monthly := BuildBrowserMonthly(months, BrowserLedger(rows), openingFunding);
    var metrics := OpeningOnly(openingFunding);
    if SummarySheet in wb {
      var srows := wb[SummarySheet];
      metrics := WithSummary(metrics.openingFunding,
                             OrNull(LookupValue(srows, "Breakeven Month")),
                             OrNull(LookupValue(srows, "Lowest Cash Month")),
                             CoerceNumber(OrNull(LookupValue(srows, "Lowest Cash Balance €"))),
                             CoerceNumber(OrNull(LookupValue(srows, "Ending Cash Dec-28 €"))));
    }
    return Ok(BrowserPlan(months, users, monthly, metrics));
  }

  /** The only failures are a non-ok response, a missing sheet and an empty
      grid: there is no label check and no month-count check. */
  lemma ParseErrors(f: Fetched)
    ensures f.Failed? ==> ParseWorkbookOf(f) == Err(FetchFailed(f.status))
    ensures f.Loaded? && FinancialSheet !in f.workbook ==> ParseWorkbookOf(f) == Err(SheetNotFound)
    ensures f.Loaded? && FinancialSheet in f.workbook && |f.workbook[FinancialSheet]| == 0 ==>
      ParseWorkbookOf(f) == Err(NoData)
    ensures ParseWorkbookOf(f).Ok? <==>
      f.Loaded? && FinancialSheet in f.workbook && |f.workbook[FinancialSheet]| >= 1
  {
  }

  /** Helper: a successful parse spelled out in terms of the grid. */
  lemma BrowserParts(f: Fetched, p: BrowserPlan) returns (rows: Grid)
    requires ParseWorkbookOf(f) == Ok(p)
    ensures f.Loaded? && FinancialSheet in f.workbook && rows == f.workbook[FinancialSheet] && |rows| >= 1
    ensures p.months == Header(rows)
    ensures p.users == BrowserUsers(rows, p.months)
    ensures p.metrics == BrowserMetricsOf(BrowserOpening(rows), f.workbook)
    ensures p.monthly == BrowserMonthlyOf(p.months, BrowserLedger(rows), p.metrics.openingFunding)
  {
    rows := f.workbook[FinancialSheet];
  }

  /** On success `users` and `monthly` have one entry per month, paired in
      order with the months. */
  lemma BrowserShape(f: Fetched, p: BrowserPlan)
    requires ParseWorkbookOf(f) == Ok(p)
    ensures |p.users| == |p.months| && |p.monthly| == |p.months|
    ensures forall i :: 0 <= i < |p.months| ==> p.users[i].month == p.months[i] && p.monthly[i].month == p.months[i]
  {
  }

  /** Month `i` reads column `i + 1` of the rows `getRow` selects. */
  lemma BrowserReadsColumns(f: Fetched, p: BrowserPlan, i: nat)
    requires ParseWorkbookOf(f) == Ok(p) && i < |p.months|
    ensures f.Loaded? && FinancialSheet in f.workbook && |f.workbook[FinancialSheet]| >= 1
    ensures var rows := f.workbook[FinancialSheet];
      && p.users[i].free == CoerceNumber(Get(GetRow(rows, "Free Users"), i + 1))
      && p.users[i].freemium == CoerceNumber(Get(GetRow(rows, "Freemium Users"), i + 1))
      && p.users[i].enterprise == CoerceNumber(Get(GetRow(rows, "Enterprise Users"), i + 1))
      && p.monthly[i].totalRevenue == CoerceNumber(Get(GetRow(rows, "Total Revenue €"), i + 1))
      && p.monthly[i].marketing == CoerceNumber(Get(GetRow(rows, "Marketing €"), i + 1))
      && p.monthly[i].it == CoerceNumber(Get(GetRow(rows, "IT Supplier (Dev/Hosting) €"), i + 1))
      && p.monthly[i].founder == CoerceNumber(Get(GetRow(rows, "Founder Wage €"), i + 1))
      && p.monthly[i].hire == CoerceNumber(Get(GetRow(rows, "New Hire Wage €"), i + 1))
      && p.metrics.openingFunding == CoerceNumber(Get(GetRow(rows, "Opening Funding Balance €"), 1))
  {
    var rows := BrowserParts(f, p);
    var l := BrowserLedger(rows);
    assert p.monthly[i] == BrowserMonthAt(p.months[i], l, p.metrics.openingFunding, i);
  }

  /** Each month's net is its revenue minus its four cost lines. */
  predicate NetsBalanced(ms: seq<BrowserMonth>) {
    forall k :: 0 <= k < |ms| ==>
      ms[k].net == ms[k].totalRevenue - (ms[k].marketing + ms[k].it + ms[k].founder + ms[k].hire)
  }

  /** Every month shown has a non-negative cash balance. */
  predicate CashNonNegative(ms: seq<BrowserMonth>) {
    forall k :: 0 <= k < |ms| ==> ms[k].cash >= 0
  }

  lemma BrowserMonthlyArithmetic(months: seq<Cell>, l: LedgerRows, opening: real)
    ensures NetsBalanced(BrowserMonthlyOf(months, l, opening))
    ensures CashNonNegative(BrowserMonthlyOf(months, l, opening))
  {
  }

  /** On success every month balances and no cash balance is negative. */
  lemma BrowserArithmetic(f: Fetched, p: BrowserPlan)
    requires ParseWorkbookOf(f) == Ok(p)
    ensures NetsBalanced(p.monthly) && CashNonNegative(p.monthly)
  {
    var rows := BrowserParts(f, p);
    BrowserMonthlyArithmetic(p.months, BrowserLedger(rows), p.metrics.openingFunding);
  }

  /** The nets of a list of months. */
  function BrowserNets(ms: seq<BrowserMonth>): seq<real> {
    seq(|ms|, k requires 0 <= k < |ms| => ms[k].net)
  }

  /** `cash[i] = max(0, round(opening + net[0] + ... + net[i]))`. */
  lemma BrowserMonthlyCash(months: seq<Cell>, l: LedgerRows, opening: real, monthly: seq<BrowserMonth>, i: nat)
    requires monthly == BrowserMonthlyOf(months, l, opening) && i < |months|
    ensures monthly[i].cash == Displayed(opening + Total(BrowserNets(monthly[..i + 1])))
  {
    var ms := monthly[..i + 1];
    forall k | 0 <= k < i + 1
      ensures BrowserNets(ms)[k] == Nets(l, i + 1)[k]
    {
      assert ms[k] == BrowserMonthAt(months[k], l, opening, k);
    }
    assert BrowserNets(ms) == Nets(l, i + 1);
  }

  /** Helper: `BrowserMonthlyCash` restated for the fields of a parse. */
  lemma BrowserPlanCash(p: BrowserPlan, l: LedgerRows, i: nat)
    requires p.monthly == BrowserMonthlyOf(p.months, l, p.metrics.openingFunding) && i < |p.monthly|
    ensures p.monthly[i].cash == Displayed(p.metrics.openingFunding + Total(BrowserNets(p.monthly[..i + 1])))
  {
    BrowserMonthlyCash(p.months, l, p.metrics.openingFunding, p.monthly, i);
  }

  /** The same, for a successful parse. */
  lemma BrowserCashIsRunningTotal(f: Fetched, p: BrowserPlan, i: nat)
    requires ParseWorkbookOf(f) == Ok(p) && i < |p.monthly|
    ensures p.monthly[i].cash == Displayed(p.metrics.openingFunding + Total(BrowserNets(p.monthly[..i + 1])))
  {
    var rows := BrowserParts(f, p);
    BrowserPlanCash(p, BrowserLedger(rows), i);
  }

  /** The rows of a header-only grid all read the header. */
  lemma HeaderOnlyLedger(header: Row)
    ensures BrowserLedger([header]) == LedgerRows(header, header, header, header, header)
    ensures BrowserOpening([header]) == CoerceNumber(Get(header, 1))
    ensures BrowserUsers([header], Header([header])) == UsersOf(Header([header]), header, header, header)
  {
    var rows := [header];
    assert Column0(rows[1..]) == [];
  }

  /** The month read from a ledger whose every row is the header
      `["Plan", "Jan 26"]`. */
  lemma HeaderOnlyMonth()
    ensures var header := [Text("Plan"), Text("Jan 26")];
      BrowserMonthlyOf([Text("Jan 26")], LedgerRows(header, header, header, header, header), 26.0)
      == [BrowserMonth(Text("Jan 26"), 26.0, 26.0, 26.0, 26.0, 26.0, -78.0, 0)]
  {
    var header := [Text("Plan"), Text("Jan 26")];
    var l := LedgerRows(header, header, header, header, header);
    CoerceMonthLabel();
    assert RevenueAt(l, 0) == 26.0;
    assert NetAt(l, 0) == -78.0;
    assert Nets(l, 1) == [-78.0];
    assert Nets(l, 1)[..0] == [];
    assert RunningBalance(26.0, l, 0) == -52.0;
  }

  lemma HeaderOnlyUsers()
    ensures var header := [Text("Plan"), Text("Jan 26")];
      UsersOf([Text("Jan 26")], header, header, header) == [UserSnapshot(Text("Jan 26"), 26.0, 26.0, 26.0)]
  {
    CoerceMonthLabel();
  }

  /** A header-only sheet is accepted, and every series then reads the header
      row itself: "Jan 26" makes 26 users of each tier, 26 revenue, 26 opening
      funding and, with four cost lines of 26, a net of -78 and a cash balance
      of 0. */
  lemma HeaderOnlySheet()
    ensures ParseWorkbookOf(Loaded(map[FinancialSheet := [[Text("Plan"), Text("Jan 26")]]]))
      == Ok(BrowserPlan([Text("Jan 26")],
                        [UserSnapshot(Text("Jan 26"), 26.0, 26.0, 26.0)],
                        [BrowserMonth(Text("Jan 26"), 26.0, 26.0, 26.0, 26.0, 26.0, -78.0, 0)],
                        OpeningOnly(26.0)))
  {
    var header := [Text("Plan"), Text("Jan 26")];
    var rows := [header];
    var wb := map[FinancialSheet := rows];
    var months := [Text("Jan 26")];
    assert Drop1(header) == months;
    assert Header(rows) == months;
    HeaderOnlyLedger(header);
    CoerceMonthLabel();
    assert BrowserOpening(rows) == 26.0;
    HeaderOnlyUsers();
    assert BrowserUsers(rows, months) == [UserSnapshot(Text("Jan 26"), 26.0, 26.0, 26.0)];
    HeaderOnlyMonth();
    assert BrowserMonthlyOf(months, BrowserLedger(rows), 26.0)
      == [BrowserMonth(Text("Jan 26"), 26.0, 26.0, 26.0, 26.0, 26.0, -78.0, 0)];
    assert SummarySheet !in wb;
    assert BrowserMetricsOf(26.0, wb) == OpeningOnly(26.0);
  }
}

/** The dashboard's chart data (`transformedData`), built from what the
    browser extractor returns: the revenue series, the user split of the last
    snapshot, the four expense totals and the headline figures. */
module Dashboard {
  import opened Values
  import opened Ledger
  import opened ParsePlan

  /** `x || fallback` on a number: 0 is falsy. */
  function Or(x: real, fallback: real): real {
    if x != 0.0 then x else fallback
  }

  /** `x || 0` leaves a number as it is. */
  lemma OrZeroIsIdentity(x: real)
    ensures Or(x, 0.0) == x
  {
  }

  /** A point of the revenue chart. */
  datatype RevenuePoint = RevenuePoint(month: Cell, revenue: real, cashFlow: real, cashBalance: int)

  /** A named value of a pie or bar chart (the colours are left out). */
  datatype Slice = Slice(name: string, value: real)

  datatype ChartData = ChartData(
    revenueData: seq<RevenuePoint>,
    userDistribution: seq<Slice>,
    expenseBreakdown: seq<Slice>,
    totalRevenue: real,
    totalExpenses: real,
    finalCash: int,
    totalUsers: real,
    breakevenMonth: Cell)

  function Point(m: BrowserMonth): RevenuePoint {
    RevenuePoint(m.month, Or(m.totalRevenue, 0.0), Or(m.net, 0.0), if m.cash != 0 then m.cash else 0)
  }

  function RevenueData(ms: seq<BrowserMonth>): seq<RevenuePoint> {
    seq(|ms|, k requires 0 <= k < |ms| => Point(ms[k]))
  }

  /** The three user tiers and the four cost lines. */
  datatype Tier = Free | Freemium | Enterprise
  datatype CostLine = Marketing | It | Founder | Hire

  function Count(u: UserSnapshot, t: Tier): real {
    match t
    case Free => u.free
    case Freemium => u.freemium
    case Enterprise => u.enterprise
  }

  function Cost(m: BrowserMonth, c: CostLine): real {
    match c
    case Marketing => m.marketing
    case It => m.it
    case Founder => m.founder
    case Hire => m.hire
  }

  /** `users[users.length - 1]?.[tier] || fallback`: no snapshot counts as
      undefined, which is falsy. */
  function LastCount(users: seq<UserSnapshot>, t: Tier, fallback: real): real {
    if |users| == 0 then fallback else Or(Count(users[|users| - 1], t), fallback)
  }

  /** The placeholder shown for a tier whose count is 0 or missing. */
  function Placeholder(t: Tier): real {
    match t
    case Free => 35200.0
    case Freemium => 8500.0
    case Enterprise => 1500.0
  }

  function UserDistribution(users: seq<UserSnapshot>): seq<Slice> {
    [Slice("Free Users", LastCount(users, Free, Placeholder(Free))),
     Slice("Freemium Users", LastCount(users, Freemium, Placeholder(Freemium))),
     Slice("Enterprise Users", LastCount(users, Enterprise, Placeholder(Enterprise)))]
  }

  /** `monthly.reduce((sum, m) => sum + (m[line] || 0), 0)`. */
  function CostTotal(ms: seq<BrowserMonth>, c: CostLine): real {
    Total(seq(|ms|, k requires 0 <= k < |ms| => Or(Cost(ms[k], c), 0.0)))
  }

  function RevenueTotal(ms: seq<BrowserMonth>): real {
    Total(seq(|ms|, k requires 0 <= k < |ms| => Or(ms[k].totalRevenue, 0.0)))
  }

  /** A month's four cost lines, each `|| 0`, added in the reducer's order. */
  function MonthCosts(m: BrowserMonth): real {
    Or(m.marketing, 0.0) + Or(m.it, 0.0) + Or(m.founder, 0.0) + Or(m.hire, 0.0)
  }

  function ExpensesTotal(ms: seq<BrowserMonth>): real {
    Total(seq(|ms|, k requires 0 <= k < |ms| => MonthCosts(ms[k])))
  }

  /** `monthly[monthly.length - 1]?.cash || 0`. */
  function FinalCash(ms: seq<BrowserMonth>): int {
    if |ms| == 0 then 0
    else if ms[|ms| - 1].cash != 0 then ms[|ms| - 1].cash else 0
  }

  /** `metrics?.breakevenMonth || 'Q2 2026'`: without a Summary sheet the
      field is undefined. */
  function Breakeven(m: BrowserMetrics): Cell {
    if m.WithSummary? && Truthy(m.breakevenMonth) then m.breakevenMonth else Text("Q2 2026")
  }

  function Transform(p: BrowserPlan): ChartData {
    ChartData(
      RevenueData(p.monthly),
      UserDistribution(p.users),
      [Slice("Marketing", CostTotal(p.monthly, Marketing)),
       Slice("IT/Development", CostTotal(p.monthly, It)),
       Slice("Founder Wage", CostTotal(p.monthly, Founder)),
       Slice("New Hire Wages", CostTotal(p.monthly, Hire))],
      RevenueTotal(p.monthly),
      ExpensesTotal(p.monthly),
      FinalCash(p.monthly),
      LastCount(p.users, Free, 0.0) + LastCount(p.users, Freemium, 0.0) + LastCount(p.users, Enterprise, 0.0),
      Breakeven(p.metrics))
  }

  /** The projection of one figure over all months. */
  function Revenues(ms: seq<BrowserMonth>): seq<real> {
    seq(|ms|, k requires 0 <= k < |ms| => ms[k].totalRevenue)
  }

  function Costs(ms: seq<BrowserMonth>, c: CostLine): seq<real> {
    seq(|ms|, k requires 0 <= k < |ms| => Cost(ms[k], c))
  }

  /** The revenue chart has one point per month, in order, carrying that
      month's revenue, net and cash unchanged. */
  lemma RevenueDataMirrorsMonthly(p: BrowserPlan)
    ensures |Transform(p).revenueData| == |p.monthly|
    ensures forall k :: 0 <= k < |p.monthly| ==>
      Transform(p).revenueData[k] == RevenuePoint(p.monthly[k].month, p.monthly[k].totalRevenue,
                                                  p.monthly[k].net, p.monthly[k].cash)
  {
  }

  /** Each expense bar is the plain sum of its cost line, and the revenue
      total the plain sum of revenue. */
  lemma TotalsArePlainSums(p: BrowserPlan)
    ensures Transform(p).expenseBreakdown[0].value == Total(Costs(p.monthly, Marketing))
    ensures Transform(p).expenseBreakdown[1].value == Total(Costs(p.monthly, It))
    ensures Transform(p).expenseBreakdown[2].value == Total(Costs(p.monthly, Founder))
    ensures Transform(p).expenseBreakdown[3].value == Total(Costs(p.monthly, Hire))
    ensures Transform(p).totalRevenue == Total(Revenues(p.monthly))
  {
    var ms := p.monthly;
    forall c: CostLine
      ensures CostTotal(ms, c) == Total(Costs(ms, c))
    {
      assert seq(|ms|, k requires 0 <= k < |ms| => Or(Cost(ms[k], c), 0.0)) == Costs(ms, c);
    }
    assert seq(|ms|, k requires 0 <= k < |ms| => Or(ms[k].totalRevenue, 0.0)) == Revenues(ms);
  }

  /** Total expenses are the sum of the four expense bars. */
  lemma {:induction false} ExpensesAreBreakdownSum(ms: seq<BrowserMonth>)
    ensures ExpensesTotal(ms) == CostTotal(ms, Marketing) + CostTotal(ms, It) + CostTotal(ms, Founder) + CostTotal(ms, Hire)
  {
    var mk := seq(|ms|, k requires 0 <= k < |ms| => Or(Cost(ms[k], Marketing), 0.0));
    var it := seq(|ms|, k requires 0 <= k < |ms| => Or(Cost(ms[k], It), 0.0));
    var fo := seq(|ms|, k requires 0 <= k < |ms| => Or(Cost(ms[k], Founder), 0.0));
    var hi := seq(|ms|, k requires 0 <= k < |ms| => Or(Cost(ms[k], Hire), 0.0));
    var a := seq(|ms|, k requires 0 <= k < |ms| => mk[k] + it[k]);
    var b := seq(|ms|, k requires 0 <= k < |ms| => a[k] + fo[k]);
    var all := seq(|ms|, k requires 0 <= k < |ms| => MonthCosts(ms[k]));
    TotalSum(mk, it, a);
    TotalSum(a, fo, b);
    TotalSum(b, hi, all);
  }

  /** For months whose net is revenue minus the four cost lines, as every
      parse produces, total revenue minus total expenses is the sum of the
      nets. */
  lemma RevenueMinusExpensesIsNet(ms: seq<BrowserMonth>)
    requires NetsBalanced(ms)
    ensures RevenueTotal(ms) - ExpensesTotal(ms) == Total(BrowserNets(ms))
  {
    TotalDifference(seq(|ms|, k requires 0 <= k < |ms| => Or(ms[k].totalRevenue, 0.0)),
                    seq(|ms|, k requires 0 <= k < |ms| => MonthCosts(ms[k])),
                    BrowserNets(ms));
  }

  /** The same for the dashboard built from any successful parse. */
  lemma DashboardBalances(f: Fetched, p: BrowserPlan)
    requires ParseWorkbookOf(f) == Ok(p)
    ensures Transform(p).totalRevenue - Transform(p).totalExpenses == Total(BrowserNets(p.monthly))
    ensures Transform(p).totalExpenses == Transform(p).expenseBreakdown[0].value + Transform(p).expenseBreakdown[1].value
      + Transform(p).expenseBreakdown[2].value + Transform(p).expenseBreakdown[3].value
  {
    BrowserArithmetic(f, p);
    RevenueMinusExpensesIsNet(p.monthly);
    ExpensesAreBreakdownSum(p.monthly);
  }

  /** The final cash is the last month's cash, or 0 with no months; after a
      parse it is never negative. */
  lemma FinalCashIsLast(ms: seq<BrowserMonth>)
    ensures |ms| == 0 ==> FinalCash(ms) == 0
    ensures |ms| > 0 ==> FinalCash(ms) == ms[|ms| - 1].cash
    ensures CashNonNegative(ms) ==> FinalCash(ms) >= 0
  {
  }

  /** Each pie slice is the last snapshot's count when it is non-zero, and
      the tier's placeholder when the count is 0 or there is no snapshot. */
  lemma DistributionFallbacks(users: seq<UserSnapshot>, t: Tier)
    ensures |users| == 0 ==> LastCount(users, t, Placeholder(t)) == Placeholder(t)
    ensures |users| > 0 && Count(users[|users| - 1], t) != 0.0 ==>
      LastCount(users, t, Placeholder(t)) == Count(users[|users| - 1], t)
    ensures |users| > 0 && Count(users[|users| - 1], t) == 0.0 ==>
      LastCount(users, t, Placeholder(t)) == Placeholder(t)
    ensures LastCount(users, t, Placeholder(t)) != 0.0
  {
  }

  /** The user total adds the last snapshot's counts without placeholders. */
  lemma TotalUsersIsLastSnapshot(p: BrowserPlan)
    ensures |p.users| == 0 ==> Transform(p).totalUsers == 0.0
    ensures |p.users| > 0 ==>
      var u := p.users[|p.users| - 1];
      Transform(p).totalUsers == u.free + u.freemium + u.enterprise
  {
  }

  /** So the headline user total can disagree with the pie: a last snapshot
      of 0 free, 10 freemium and 20 enterprise users shows a total of 30 but
      a free slice of 35200. */
  lemma TotalUsersDiffersFromPie()
    ensures var p := BrowserPlan([Text("Jan")], [UserSnapshot(Text("Jan"), 0.0, 10.0, 20.0)], [], OpeningOnly(0.0));
      && Transform(p).totalUsers == 30.0
      && Transform(p).userDistribution[0].value == 35200.0
      && Transform(p).userDistribution[0].value + Transform(p).userDistribution[1].value
         + Transform(p).userDistribution[2].value != Transform(p).totalUsers
  {
  }

  /** The breakeven month is the Summary's value when truthy, 'Q2 2026'
      otherwise, including when there is no Summary sheet. */
  lemma BreakevenFallback(m: BrowserMetrics)
    ensures Truthy(Breakeven(m))
    ensures m.WithSummary? && Truthy(m.breakevenMonth) ==> Breakeven(m) == m.breakevenMonth
    ensures m.OpeningOnly? || !Truthy(m.breakevenMonth) ==> Breakeven(m) == Text("Q2 2026")
  {
  }
}

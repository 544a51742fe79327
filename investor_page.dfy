/** The figures the static investor page derives from the build-time plan:
    the revenue and expense totals, the latest user total, the per-row user
    totals and the ending cash. */
module InvestorPage {
  import opened Values
  import opened Ledger
  import opened FinancialPlan

  function RevenueList(ms: seq<MonthlyFinancial>): seq<real> {
    seq(|ms|, k requires 0 <= k < |ms| => ms[k].revenue)
  }

  function ExpenseList(ms: seq<MonthlyFinancial>): seq<real> {
    seq(|ms|, k requires 0 <= k < |ms| => ms[k].expenses)
  }

  /** The `totals` reduce, whose accumulator fields start at 0 and are
      updated in place month by month. */
  method Totals(monthly: seq<MonthlyFinancial>) returns (revenue: real, expenses: real)
    ensures revenue == Total(RevenueList(monthly))
    ensures expenses == Total(ExpenseList(monthly))
  {
    revenue, expenses := 0.0, 0.0;
    var i := 0;
    while i < |monthly|
      invariant 0 <= i <= |monthly|
      invariant revenue == Total(RevenueList(monthly[..i]))
      invariant expenses == Total(ExpenseList(monthly[..i]))
    {
      var item := monthly[i];
      assert RevenueList(monthly[..i + 1]) == RevenueList(monthly[..i]) + [item.revenue];
      assert ExpenseList(monthly[..i + 1]) == ExpenseList(monthly[..i]) + [item.expenses];
      TotalAppend(RevenueList(monthly[..i]), item.revenue);
      TotalAppend(ExpenseList(monthly[..i]), item.expenses);
      revenue := revenue + item.revenue;
      expenses := expenses + item.expenses;
      i := i + 1;
    }
    assert monthly[..i] == monthly;
  }

  /** When every month's net is its revenue minus its expenses, the totals
      differ by the sum of the nets. */
  lemma TotalsBalance(ms: seq<MonthlyFinancial>)
    requires forall k :: 0 <= k < |ms| ==> ms[k].net == ms[k].revenue - ms[k].expenses
    ensures Total(RevenueList(ms)) - Total(ExpenseList(ms)) == Total(NetsOf(ms))
  {
    TotalDifference(RevenueList(ms), ExpenseList(ms), NetsOf(ms));
  }

  lemma MonthlyBalances(months: seq<Cell>, l: LedgerRows, opening: real)
    ensures var ms := MonthlyOf(months, l, opening);
      forall k :: 0 <= k < |ms| ==> ms[k].net == ms[k].revenue - ms[k].expenses
  {
  }

  /** So for every plan the revenue card minus the spend card is the sum of
      the monthly nets. */
  lemma PlanTotalsBalance(wb: Workbook, p: Plan)
    requires FinancialPlanOf(wb) == Ok(p)
    ensures Total(RevenueList(p.monthly)) - Total(ExpenseList(p.monthly)) == Total(NetsOf(p.monthly))
  {
    var l := PlanLedger(wb, p);
    MonthlyBalances(p.months, l, p.metrics.openingFunding);
    TotalsBalance(p.monthly);
  }

  /** A row of the user table: `free + freemium + enterprise`. */
  function RowTotal(u: UserSnapshot): real {
    u.free + u.freemium + u.enterprise
  }

  function UserRowTotals(users: seq<UserSnapshot>): seq<real> {
    seq(|users|, k requires 0 <= k < |users| => RowTotal(users[k]))
  }

  /** `latestUsers.free + latestUsers.freemium + latestUsers.enterprise`; an
      empty user list would make `latestUsers` undefined and the page fail. */
  function TotalUsers(users: seq<UserSnapshot>): real
    requires |users| > 0
  {
    var latest := users[|users| - 1];
    latest.free + latest.freemium + latest.enterprise
  }

  /** The headline user count is the total of the table's last row. */
  lemma TotalUsersIsLastRow(users: seq<UserSnapshot>)
    requires |users| > 0
    ensures |UserRowTotals(users)| == |users|
    ensures TotalUsers(users) == UserRowTotals(users)[|users| - 1]
  {
  }

  /** Every plan has at least twelve user snapshots, so `latestUsers` is
      always defined. */
  lemma PlanHasUsers(wb: Workbook, p: Plan)
    requires FinancialPlanOf(wb) == Ok(p)
    ensures |p.users| >= 12 && |p.monthly| >= 12
  {
    PlanShape(wb, p);
  }

  /** `monthly[monthly.length - 1].cash`. */
  function EndingCash(monthly: seq<MonthlyFinancial>): int
    requires |monthly| > 0
  {
    monthly[|monthly| - 1].cash
  }

  lemma EndingCashFrom(p: Plan, l: LedgerRows)
    requires p.monthly == MonthlyOf(p.months, l, p.metrics.openingFunding) && |p.monthly| > 0
    ensures EndingCash(p.monthly) == Displayed(p.metrics.openingFunding + Total(NetsOf(p.monthly)))
  {
    var n := |p.monthly|;
    PlanCash(p, l, n - 1);
    assert p.monthly[..n] == p.monthly;
  }

  /** The ending-cash card shows the rounded final balance of all months,
      floored at 0. */
  lemma EndingCashOfPlan(wb: Workbook, p: Plan)
    requires FinancialPlanOf(wb) == Ok(p)
    ensures |p.monthly| > 0
    ensures EndingCash(p.monthly) == Displayed(p.metrics.openingFunding + Total(NetsOf(p.monthly)))
    ensures EndingCash(p.monthly) >= 0
  {
    PlanHasUsers(wb, p);
    var l := PlanLedger(wb, p);
    EndingCashFrom(p, l);
  }
}

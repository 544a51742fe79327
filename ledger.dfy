/** The month-by-month arithmetic that both extractors perform in the same
    way: reading user and financial rows at a month's column, the expenses and
    net cash flow of a month, and the cash balance shown for it, which is the
    unfloored running balance rounded and then floored at zero. */
module Ledger {
  import opened Values
  import opened Coercion

  /** `Math.round`: the nearest integer, halves rounded towards +infinity. */
  function Round(x: real): (r: int)
    ensures r as real - 0.5 <= x < r as real + 0.5
  {
    (x + 0.5).Floor
  }

  /** `Math.max(0, Math.round(total))`: the cash shown for a running total. */
  function Displayed(total: real): (c: int)
    ensures c >= 0 && c >= Round(total)
    ensures c == 0 || c == Round(total)
  {
    var r := Round(total);
    if r < 0 then 0 else r
  }

  /** `rows[0].slice(1).filter(Boolean)`: the month labels, the truthy
      header cells after column 0. */
  function Header(rows: Grid): seq<Cell>
    requires |rows| >= 1
  {
    FilterTruthy(Drop1(rows[0]))
  }

  /** One month of the three user tiers. */
  datatype UserSnapshot = UserSnapshot(month: Cell, free: real, freemium: real, enterprise: real)

  /** `months.map((month, i) => ...)` over the three user rows: month `i` is
      read from column `i + 1` of each row. */
  function UsersOf(months: seq<Cell>, free: Row, freemium: Row, enterprise: Row): seq<UserSnapshot> {
    seq(|months|, i requires 0 <= i < |months| =>
      UserSnapshot(months[i],
                   CoerceNumber(Get(free, i + 1)),
                   CoerceNumber(Get(freemium, i + 1)),
                   CoerceNumber(Get(enterprise, i + 1))))
  }

  lemma UsersAt(months: seq<Cell>, free: Row, freemium: Row, enterprise: Row, i: nat)
    requires i < |months|
    ensures |UsersOf(months, free, freemium, enterprise)| == |months|
    ensures UsersOf(months, free, freemium, enterprise)[i]
      == UserSnapshot(months[i], CoerceNumber(Get(free, i + 1)), CoerceNumber(Get(freemium, i + 1)),
                      CoerceNumber(Get(enterprise, i + 1)))
  {
  }

  /** The five rows the monthly financials are read from. */
  datatype LedgerRows = LedgerRows(revenue: Row, marketing: Row, it: Row, founder: Row, hire: Row)

  // Month `i` (0-based) is read from column `i + 1` of each row.

  function RevenueAt(l: LedgerRows, i: nat): real {
    CoerceNumber(Get(l.revenue, i + 1))
  }

  function MarketingAt(l: LedgerRows, i: nat): real {
    CoerceNumber(Get(l.marketing, i + 1))
  }

  function ItAt(l: LedgerRows, i: nat): real {
    CoerceNumber(Get(l.it, i + 1))
  }

  function FounderAt(l: LedgerRows, i: nat): real {
    CoerceNumber(Get(l.founder, i + 1))
  }

  function HireAt(l: LedgerRows, i: nat): real {
    CoerceNumber(Get(l.hire, i + 1))
  }

  function ExpensesAt(l: LedgerRows, i: nat): real {
    MarketingAt(l, i) + ItAt(l, i) + FounderAt(l, i) + HireAt(l, i)
  }

  function NetAt(l: LedgerRows, i: nat): real {
    RevenueAt(l, i) - ExpensesAt(l, i)
  }

  /** The sum of `xs`, folded from the left as `reduce` does. */
  function Total(xs: seq<real>): real {
    if xs == [] then 0.0 else Total(xs[..|xs| - 1]) + xs[|xs| - 1]
  }

  lemma TotalAppend(xs: seq<real>, x: real)
    ensures Total(xs + [x]) == Total(xs) + x
  {
    assert (xs + [x])[..|xs|] == xs;
  }

  /** Summing pointwise differences is the difference of the sums. */
  lemma {:induction false} TotalDifference(xs: seq<real>, ys: seq<real>, zs: seq<real>)
    requires |xs| == |ys| == |zs|
    requires forall i :: 0 <= i < |zs| ==> zs[i] == xs[i] - ys[i]
    ensures Total(zs) == Total(xs) - Total(ys)
  {
    if zs != [] {
      var n := |zs| - 1;
      TotalDifference(xs[..n], ys[..n], zs[..n]);
    }
  }

  /** Summing pointwise sums is the sum of the sums. */
  lemma {:induction false} TotalSum(xs: seq<real>, ys: seq<real>, zs: seq<real>)
    requires |xs| == |ys| == |zs|
    requires forall i :: 0 <= i < |zs| ==> zs[i] == xs[i] + ys[i]
    ensures Total(zs) == Total(xs) + Total(ys)
  {
    if zs != [] {
      var n := |zs| - 1;
      TotalSum(xs[..n], ys[..n], zs[..n]);
    }
  }

  /** The nets of months 0 .. n-1. */
  function Nets(l: LedgerRows, n: nat): seq<real> {
    seq(n, i requires 0 <= i < n => NetAt(l, i))
  }

  lemma NetsExtend(l: LedgerRows, n: nat)
    ensures Nets(l, n + 1) == Nets(l, n) + [NetAt(l, n)]
  {
  }

  /** The unfloored running balance after month `i`: the opening funding
      plus the nets of months 0 .. i. */
  function RunningBalance(opening: real, l: LedgerRows, i: nat): real {
    opening + Total(Nets(l, i + 1))
  }

  /** The alternative reading in which the balance is floored at 0 before it
      is carried into the next month. */
  function CarriedBalance(opening: real, nets: seq<real>): real {
    if nets == [] then opening
    else
      var b := CarriedBalance(opening, nets[..|nets| - 1]) + nets[|nets| - 1];
      if b < 0.0 then 0.0 else b
  }

  /** As long as the true running balance never goes negative, flooring
      before carrying makes no difference. */
  lemma {:induction false} CarryAgreesWhileSolvent(opening: real, nets: seq<real>)
    requires forall k :: 0 <= k <= |nets| ==> opening + Total(nets[..k]) >= 0.0
    ensures CarriedBalance(opening, nets) == opening + Total(nets)
  {
    if nets == [] {
      assert nets[..0] == nets;
    } else {
      var n := |nets| - 1;
      var front := nets[..n];
      forall k | 0 <= k <= |front|
        ensures opening + Total(front[..k]) >= 0.0
      {
        assert front[..k] == nets[..k];
      }
      CarryAgreesWhileSolvent(opening, front);
      assert nets[..|nets|] == nets;
    }
  }
}

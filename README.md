# ConsultantCloud funding plan: grid-to-plan extraction

This project models how the ConsultantCloud funding-plan site turns an
exported spreadsheet into a plan, and proves properties of that model.

The workbook holds a "Financial Plan" sheet and, optionally, a "Summary"
sheet. Each sheet is already converted to a row-major grid of cells:
- row 0 holds the month labels;
- column 0 holds the row labels;
- cell `(r, i + 1)` holds month `i` of row `r`.

Two copies of the extractor read such a grid. Both give a month list,
per-month user counts, per-month financials with a running cash balance,
and Summary metrics.

- **Build-time extractor** (`loadFinancialPlan`, `lib/financialPlan.js`).
  - It validates the sheet first: at least two rows, the nine required
    labels, and at least twelve month labels.
  - It finds rows through the *filtered* label list (`rowFor`).
  - Its result feeds the static investor page (`pages/index.js`).
- **Browser extractor** (`parseWorkbook`, `src/lib/parsePlan.js`).
  - It does no validation.
  - It finds rows through the *unfiltered* label column (`getRow`).
  - Its result feeds the React dashboard's chart data (`src/App.jsx`).
- **Shared rules.**
  - Both copies coerce cells with the same permissive `coerceNumber`.
  - Both carry the running balance unfloored from month to month. Each
    month shows `max(0, round(balance))`.
- **Chart library.** `getChartVariant` (`src/config.js`) chooses the
  dashboard's chart library from three optional settings.

Modules, one per concern:
- `Values`: cells, grids, workbooks, the error datatype, JavaScript
  truthiness, `indexOf`/`findIndex` and the Summary `find`.
- `Coercion`: `coerceNumber`, including a model of `Number()` on the
  stripped string.
- `Ledger`: the month arithmetic both copies share (`Math.round`, the
  floor at 0, running totals).
- `FinancialPlan`: the build-time copy.
- `ParsePlan`: the browser copy.
- `Agreement`: how the two copies relate.
- `Dashboard`: `transformedData` in `src/App.jsx`.
- `InvestorPage`: the totals and user figures in `pages/index.js`.
- `ChartConfig`: `getChartVariant`.

The two loops that thread a mutable cash accumulator are methods with loop
invariants:
- `BuildMonthly` (`rollingCash`);
- `BuildBrowserMonthly` (`cash`).

The `totals` reduce of the investor page is the method `InvestorPage.Totals`.
Each method's `ensures` ties its result to a specification function. The
lemmas then prove the promised properties about that function: running
totals, the floor at 0, balance of nets, agreement between copies.

Quirks of the code are modelled as written:
- `rowFor` indexes the blank-filtered label list back into the unfiltered
  grid. A blank-label data row therefore shifts every later lookup.
- An absent label makes `findIndex` return -1, so `getRow` reads the header
  row itself, month labels included.
- Month `i` is always read from column `i + 1`, even when a blank header cell
  was filtered out of the month list.
- Both copies write `rows[k] || []`, but the fallback never applies: the
  index is always inside the grid, and a row is never falsy. The model
  therefore leaves it out.

### Behaviour of the code worth knowing

- **Absent label.** A label missing from the lookup does not give an empty
  row. In both copies the computed index is at least 0, so an absent label
  reads the header row `rows[0]` (`FinancialPlan.RowForAbsentReadsHeader`,
  `ParsePlan.GetRowAbsentReadsHeader`).
- **Label lookup.** The build-time `rowFor` takes indexes from the
  blank-filtered label list and uses them in the unfiltered grid. With `b`
  blank-label rows before the first row labelled `name`, it returns row
  `k - b` instead of row `k`. It returns the labelled row exactly when no
  blank-label row precedes it (`FinancialPlan.RowForSkipsBlanks`,
  `FinancialPlan.RowForFindsLabelledRow`,
  `FinancialPlan.BlankLabelRowShiftsRowFor`).
- **Summary balances.** Without a Summary sheet the build-time copy sets both
  Summary balances to null, and the browser copy leaves them out. The model
  therefore keeps them as `Option<real>` in the build-time plan
  (`FinancialPlan.SummaryDefaults`).

## Model

| member | source | states |
|---|---|---|
| Values.FilterTruthy | lib/financialPlan.js:17 | `filter(Boolean)` keeps exactly the truthy cells and never lengthens the list |
| Values.FilterTruthyKeepsTruthy | lib/financialPlan.js:24 | filtering a list with no falsy cell returns it unchanged |
| Values.IndexOf | src/lib/parsePlan.js:23 | the first position holding the value, with nothing equal before it; -1 exactly when the value is absent |
| Values.LookupValue | lib/financialPlan.js:110-113 | the Summary `find`: None exactly when no row carries the label; otherwise column 1 of the first row whose column 0 is the label |
| Coercion.Strip | lib/financialPlan.js:8 | the regex replace keeps only characters in `0-9 . -`, and never lengthens the string |
| Coercion.StripAppend | lib/financialPlan.js:8 | stripping distributes over concatenation |
| Coercion.StripKeepsKept | lib/financialPlan.js:8 | a string made only of kept characters is left unchanged |
| Coercion.StripDropsNoise | lib/financialPlan.js:8 | a string with no kept character strips to the empty string |
| Coercion.FindDot | lib/financialPlan.js:8 | the position of the first '.', or the length when there is none |
| Coercion.CoerceIdempotent | lib/financialPlan.js:5-10 | the result is a number, and a number passes through, so coercing twice equals coercing once |
| Coercion.MinusBlocksUnsigned | lib/financialPlan.js:8-9 | a '-' anywhere in an unsigned literal makes `Number` NaN |
| Coercion.InnerMinusIsNaN | lib/financialPlan.js:8-9 | a '-' after the first character of the stripped text makes the parse fail |
| Coercion.CoerceSeesStripped | lib/financialPlan.js:6-9 | a text cell coerces to the same value as its stripped text |
| Coercion.NoiseIsIgnored | lib/financialPlan.js:5-10 | inserting characters outside `0-9 . -` anywhere in a text cell does not change its value |
| Coercion.NatText | lib/financialPlan.js:8 | a natural number written in decimal is a non-empty string of digits |
| Coercion.NatTextValue | lib/financialPlan.js:8 | reading back the decimal digits of `n` gives `n` |
| Coercion.ParseDigits | lib/financialPlan.js:8 | `Number` on a non-empty digit string is that string's decimal value |
| Coercion.CoerceIntText | lib/financialPlan.js:5-10 | coercing the decimal text of any integer, negative ones included, gives that integer back |
| Coercion.CoerceCurrencyText | lib/financialPlan.js:8-9 | "€1,234.50" coerces to 1234.5 |
| Coercion.CoerceNotAvailable | lib/financialPlan.js:8-9 | "N/A" coerces to 0 |
| Coercion.CoerceInnerMinus | lib/financialPlan.js:8-9 | "1-2" coerces to 0 |
| Coercion.CoerceTwoDots | lib/financialPlan.js:8-9 | "1.2.3" coerces to 0 |
| Coercion.CoerceMonthLabel | src/lib/parsePlan.js:3-8 | the month label "Jan 26" coerces to 26 |
| Ledger.Round | lib/financialPlan.js:96 | `Math.round`: the integer within one half of `x`, with halves rounded up |
| Ledger.Displayed | lib/financialPlan.js:96 | `Math.max(0, Math.round(x))` is never negative, and is either 0 or the rounded value |
| Ledger.TotalDifference | lib/financialPlan.js:85 | summing pointwise differences gives the difference of the sums |
| Ledger.TotalSum | src/App.jsx:66 | summing pointwise sums gives the sum of the sums |
| Ledger.CarryAgreesWhileSolvent | lib/financialPlan.js:77-96 | while the true balance never goes negative, flooring before carrying gives the same balance |
| FinancialPlan.Labels | lib/financialPlan.js:17 | the filtered label list is shorter than the grid, so `labels.indexOf(name) + 1` is always a row |
| FinancialPlan.LabelsMembership | lib/financialPlan.js:17-18 | `labels.includes(l)` holds exactly when some data row carries `l` in column 0 |
| FinancialPlan.MissingLabels | lib/financialPlan.js:18 | the missing list holds exactly the required labels absent from the label list, in required-list order |
| FinancialPlan.NothingMissing | lib/financialPlan.js:18-22 | with every required label present, the missing list is empty |
| FinancialPlan.ValidateSheetData | lib/financialPlan.js:12-30 | on success: at least two rows, all required labels present, at least 12 months, and `{labels, header}` returned as computed |
| FinancialPlan.ValidateOutcomes | lib/financialPlan.js:12-30 | each error happens exactly under its condition, checked in order (rows, then labels, then months); the missing-rows error names all absent labels in required order; success holds exactly when all three checks pass |
| FinancialPlan.LabelsWithoutBlanks | lib/financialPlan.js:17 | with no blank label, the filtered list is the whole label column |
| FinancialPlan.RowForSkipsBlanks | lib/financialPlan.js:17-58 | with `b` blank-label rows before the first row labelled `name` (at index `k`), `b < k` and `rowFor(name)` is row `k - b` of the grid |
| FinancialPlan.RowForFindsLabelledRow | lib/financialPlan.js:17-58 | when no blank-label row precedes the first row labelled `name`, `rowFor(name)` is that row |
| FinancialPlan.RowForAbsentReadsHeader | lib/financialPlan.js:58 | a name absent from the label list makes `rowFor` read the header row |
| FinancialPlan.BlankLabelRowShiftsRowFor | lib/financialPlan.js:17-58 | a blank-label row before "Free Users" makes `rowFor("Free Users")` return the blank row |
| FinancialPlan.BuildMonthly | lib/financialPlan.js:77-98 | the `monthly` map with its `rollingCash` accumulator yields, for each month, that month's figures and the shown running balance |
| FinancialPlan.SummaryDefaults | lib/financialPlan.js:100-122 | opening funding is always kept. With no Summary sheet the four fields are null. With one, both balances are numbers; when a label's row is absent, its month field is null and its balance is 0 |
| FinancialPlan.SummaryFirstRowWins | lib/financialPlan.js:110-120 | for each of the four labels, the field is column 1 of the first row carrying it: uncoerced for breakeven and lowest-cash month, coerced for the lowest-cash and ending balances |
| FinancialPlan.LoadFinancialPlan | lib/financialPlan.js:37-130 | `loadFinancialPlan` from the workbook onward returns exactly the extraction function's result, errors included |
| FinancialPlan.PlanErrors | lib/financialPlan.js:37-56 | a missing sheet fails with not-found; a validation error passes through unchanged; success holds exactly when the sheet exists with ≥ 2 rows, every required label, and ≥ 12 months |
| FinancialPlan.PlanShape | lib/financialPlan.js:24-78 | the months are the header's truthy cells (≥ 12); `users` and `monthly` have one entry per month, paired in order |
| FinancialPlan.ReadsColumnsFrom | lib/financialPlan.js:62-83 | entry `i` of users and monthly reads column `i + 1` of the selected rows, coerced |
| FinancialPlan.PlanReadsColumns | lib/financialPlan.js:62-83 | the same for a successful plan; the opening funding is column 1 of its row, coerced |
| FinancialPlan.MonthlyArithmetic | lib/financialPlan.js:84-96 | each month has expenses = the four cost lines, net = revenue − expenses, and cash ≥ 0 |
| FinancialPlan.PlanArithmetic | lib/financialPlan.js:84-96 | the same for every month of a successful plan |
| FinancialPlan.MonthlyCashIsRunningTotal | lib/financialPlan.js:77-96 | month `i`'s cash is `max(0, round(opening + net[0] + … + net[i]))`, over the nets the list itself reports |
| FinancialPlan.PlanLedger | lib/financialPlan.js:71-98 | a successful plan's monthly figures are read from one fixed set of five rows |
| FinancialPlan.CashIsRunningTotal | lib/financialPlan.js:70-96 | the running-total cash formula for every month of a successful plan |
| FinancialPlan.HeaderAligned | lib/financialPlan.js:24-79 | with no blank header cell, month `i` is the label written above column `i + 1` |
| FinancialPlan.MonthsAlignedWithoutBlankHeader | lib/financialPlan.js:24-79 | the same for a successful plan's months |
| FinancialPlan.BlankHeaderCellShiftsMonths | lib/financialPlan.js:24-79 | a blank header cell shifts the pairing: month 1 "Feb" is read from the column under the blank cell |
| FinancialPlan.FloorDoesNotCompound | lib/financialPlan.js:77-96 | after a month shown as 0, the next month adds to the negative balance: it shows 50 where floor-and-carry would show 100 |
| FinancialPlan.MissingFounderWage | lib/financialPlan.js:18-22 | a sheet with no "Founder Wage €" row fails with a missing-rows error naming it |
| FinancialPlan.ShortHorizon | lib/financialPlan.js:24-27 | with every required row but six month labels, extraction fails with the months error |
| FinancialPlan.FirstMonthScenario | lib/financialPlan.js:77-96 | opening 100000, revenue 10000 and marketing 2000 give a first net of 8000 and cash of 108000 |
| ParsePlan.GetRowFindsLabelledRow | src/lib/parsePlan.js:21-24 | `getRow(name)` is the first data row labelled `name`, whatever blank rows come before it |
| ParsePlan.GetRowAbsentReadsHeader | src/lib/parsePlan.js:23-24 | a label no data row carries makes `getRow` read the header row |
| ParsePlan.BuildBrowserMonthly | src/lib/parsePlan.js:48-68 | the `monthly` map with its `cash` accumulator yields, for each month, that month's figures and the shown running balance |
| ParsePlan.BrowserMetricsFacts | src/lib/parsePlan.js:70-86 | opening funding is always kept; the metrics are opening funding alone exactly when there is no Summary sheet. With one, an absent label gives undefined for a month field and 0 for a balance |
| ParsePlan.BrowserSummaryFirstRowWins | src/lib/parsePlan.js:73-85 | with a Summary sheet, each of the four fields is column 1 of the first row carrying its label: uncoerced for the month fields, coerced for the balances |
| ParsePlan.ParseWorkbook | src/lib/parsePlan.js:12-88 | `parseWorkbook` from the response onward returns exactly the extraction function's result, errors included |
| ParsePlan.ParseErrors | src/lib/parsePlan.js:12-19 | the only failures are a non-ok response, a missing sheet and a zero-row grid; every other workbook parses |
| ParsePlan.BrowserShape | src/lib/parsePlan.js:20-49 | `users` and `monthly` have one entry per month, paired in order |
| ParsePlan.BrowserReadsColumns | src/lib/parsePlan.js:29-54 | entry `i` reads column `i + 1` of the rows `getRow` selects; the opening funding is column 1 of its row |
| ParsePlan.BrowserMonthlyArithmetic | src/lib/parsePlan.js:55-66 | net = totalRevenue − (marketing + it + founder + hire), and cash ≥ 0, in every month |
| ParsePlan.BrowserArithmetic | src/lib/parsePlan.js:55-66 | the same for every successful parse |
| ParsePlan.BrowserMonthlyCash | src/lib/parsePlan.js:41-66 | month `i`'s cash is `max(0, round(opening + net[0] + … + net[i]))` |
| ParsePlan.BrowserCashIsRunningTotal | src/lib/parsePlan.js:41-66 | the running-total cash formula for every month of a successful parse |
| ParsePlan.HeaderOnlyLedger | src/lib/parsePlan.js:23-46 | on a header-only grid every looked-up row is the header row |
| ParsePlan.HeaderOnlySheet | src/lib/parsePlan.js:16-88 | a header-only sheet is accepted, and every series reads the header: "Jan 26" gives 26 users per tier, revenue 26, opening 26, net −78 and cash 0 |
| Agreement.LookupsAgree | src/lib/parsePlan.js:21-24 | with no blank label, `rowFor` and `getRow` select the same row for every name |
| Agreement.InputsAgree | src/lib/parsePlan.js:29-46 | with no blank label, both copies read the same five ledger rows, the same opening funding and the same users |
| Agreement.MonthlyAgree | src/lib/parsePlan.js:48-68 | from the same rows and opening, the two monthly lists have the same length and agree month by month on every figure |
| Agreement.MetricsAgree | src/lib/parsePlan.js:70-86 | the two Summary readings agree on every field: the month fields are equal up to null versus undefined, and the build-time copy's balances are the browser ones wrapped as numbers |
| Agreement.CopiesAgree | src/lib/parsePlan.js:16-88 | if a grid passes the build-time validation and has no blank label, the browser copy also succeeds. Both give the same months, users, per-month figures, net and cash, opening funding and Summary values, the month fields up to null versus undefined |
| Agreement.BlankLabelSplitsCopies | src/lib/parsePlan.js:21-24 | with a blank-label row before "Free Users", the two copies read different rows |
| Dashboard.OrZeroIsIdentity | src/App.jsx:21-23 | `x \|\| 0` (the JavaScript `\|\|`, which falls back when its left side is 0) returns `x` for every number |
| Dashboard.RevenueDataMirrorsMonthly | src/App.jsx:19-24 | one chart point per month, in order, carrying that month's revenue, net and cash; the `\|\| 0` fallbacks leave each value unchanged |
| Dashboard.TotalsArePlainSums | src/App.jsx:42-65 | each expense bar is the sum of its cost line over all months; the revenue total is the sum of revenue |
| Dashboard.ExpensesAreBreakdownSum | src/App.jsx:42-66 | total expenses equal the sum of the four expense bars |
| Dashboard.RevenueMinusExpensesIsNet | src/App.jsx:65-66 | for months whose net balances, total revenue minus total expenses is the sum of the nets |
| Dashboard.DashboardBalances | src/App.jsx:42-66 | for every successful parse: revenue minus expenses is the sum of nets, and expenses are the sum of the bars |
| Dashboard.FinalCashIsLast | src/App.jsx:67 | final cash is the last month's cash, or 0 with no months; it is never negative after a parse |
| Dashboard.DistributionFallbacks | src/App.jsx:25-41 | a pie slice is the last snapshot's non-zero count, or the tier's placeholder (35200, 8500, 1500) when that count is 0 or there is no snapshot; a slice is never 0 |
| Dashboard.TotalUsersIsLastSnapshot | src/App.jsx:68-70 | the user total is the last snapshot's three counts added, with no placeholder, or 0 with no snapshot |
| Dashboard.TotalUsersDiffersFromPie | src/App.jsx:25-70 | counts of 0 / 10 / 20 give a total of 30, but a free slice of 35200, so the slices do not add up to the total |
| Dashboard.BreakevenFallback | src/App.jsx:71 | the Summary's breakeven month when truthy, otherwise 'Q2 2026' (also without a Summary sheet); always truthy |
| InvestorPage.Totals | pages/index.js:103-110 | the `totals` reduce: revenue and expenses are the sums of the monthly fields, starting from 0 |
| InvestorPage.TotalsBalance | pages/index.js:103-110 | when each month nets revenue minus expenses, the totals differ by the sum of the nets |
| InvestorPage.MonthlyBalances | lib/financialPlan.js:85 | every built month has net = revenue − expenses |
| InvestorPage.PlanTotalsBalance | pages/index.js:103-110 | for every plan, `totals.revenue − totals.expenses` is the sum of the monthly nets |
| InvestorPage.TotalUsersIsLastRow | pages/index.js:228-229 | the headline user count is the row total of the last user-table row; there is one row total per snapshot |
| InvestorPage.PlanHasUsers | lib/financialPlan.js:24-62 | every plan has at least twelve user snapshots and months, so `latestUsers` is defined |
| InvestorPage.EndingCashFrom | pages/index.js:154 | the last month's cash is the shown final balance: opening plus all nets, rounded and floored at 0 |
| InvestorPage.EndingCashOfPlan | pages/index.js:154 | for every plan the ending-cash card is defined, equals that shown final balance, and is ≥ 0 |
| ChartConfig.Precedence | src/config.js:7 | the `\|\|` chain: the first of query, stored value and build value that is neither missing nor empty wins; with none, 'chartjs' |
| ChartConfig.GetChartVariant | src/config.js:1-12 | the result is always 'recharts' or 'chartjs' |
| ChartConfig.LowerSpells | src/config.js:7 | ASCII lower-casing gives a lower-case word exactly when the string spells it in any mix of cases |
| ChartConfig.RechartsExactlyWhen | src/config.js:2-11 | the result is 'recharts' exactly when nothing threw and the chosen value spells "recharts" in any case |
| ChartConfig.MixedCaseSelects | src/config.js:7-8 | 'ReCharts' in the query selects recharts |
| ChartConfig.UnknownQueryShadows | src/config.js:7-8 | query 'foo' shadows a stored 'recharts', giving 'chartjs' |
| ChartConfig.EmptyQueryFallsThrough | src/config.js:7-8 | an empty query falls through to a stored 'RECHARTS' |
| ChartConfig.Defaults | src/config.js:7-11 | with nothing set, or after an exception, the result is 'chartjs' |

## Left out

- File and spreadsheet I/O are outside the model: reading the `.xlsx` file from disk, `XLSX.read` and `sheet_to_json`. The model starts from the workbook as a map from sheet name to grid.
- Network I/O is outside the model: `fetch` and `arrayBuffer`. The response is a parameter, either a non-ok status or the converted workbook.
- Spreadsheet cells are null/undefined, numbers or strings. Boolean and date cells are not modelled.
- Amounts and figures are exact reals, so IEEE-754 behaviour is not modelled: rounding of float sums, `-0`, and overflow to Infinity (which `Number.isFinite` would turn into 0). `Math.round` is `Floor(x + 0.5)`.
- `Coercion.ParseDecimal` handles only `Number()` on strings over `0-9 . -`, which is all the strip leaves. Exponents and hex are left out: `e`, `x` and letters are stripped first, so they never reach `Number()`.
- `ChartConfig.GetChartVariant`: lower-casing is ASCII only, without Unicode case mapping. The browser reads (`window.location`, `localStorage`, `import.meta.env`) become optional-string parameters. Whether they throw is a boolean parameter.
- The `|| []` fallbacks of `rowFor` and `getRow` are left out, because they can never apply. Both indexes always fall inside the grid.
- React rendering is UI and is left out: the loading and error state, the tabs, the charts and their colours.
- `generateMockData` in `src/App.jsx` is left out, because it is random.
- The currency and number formatters are left out: they rely on float formatting and `Intl.NumberFormat`. `console.log` calls are left out too.
- The static research-source lists of the investor page are left out.
- Agreement.MetricsAgree: null (the build-time `?? null`, lib/financialPlan.js:117-118) and undefined (the browser copy's failed `find`, src/lib/parsePlan.js:81-82) are one cell value, `Empty`, in the model. The month fields are therefore equal only up to that difference, which `===` in JavaScript would see.
- Agreement.CopiesAgree: its Summary month fields are equal only up to null versus undefined, as for `MetricsAgree`.
- Dashboard fields are read by name (`m.totalRevenue`, `users[k]['Free Users']`) and modelled as datatype fields. A field that is present but holds a non-number cannot occur, because every figure is coerced first.

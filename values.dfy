/** Spreadsheet cells, sheet grids and workbooks as the spreadsheet reader hands
    them to both plan extractors, with the JavaScript array and truthiness
    operations the extractors apply to them. */
module Values {

  datatype Option<T> = None | Some(value: T)

  /** One cell of a sheet converted in header-row mode: `Empty` stands for
      null/undefined, `Num` for a native number, `Text` for a string. */
  datatype Cell = Empty | Num(n: real) | Text(s: string)

  type Row = seq<Cell>

  /** A sheet as a row-major grid. */
  type Grid = seq<Row>

  /** Sheet name to converted grid. */
  type Workbook = map<string, Grid>

  const FinancialSheet: string := "Financial Plan"
  const SummarySheet: string := "Summary"

  /** Every way either extractor can fail. */
  datatype PlanError =
    | FetchFailed(status: int)
    | SheetNotFound
    | InsufficientData
    | MissingRows(missing: seq<string>)
    | InsufficientMonths
    | NoData

  datatype Result<T> = Ok(value: T) | Err(error: PlanError)

  /** JavaScript truthiness: null/undefined, 0 and '' are falsy. */
  predicate Truthy(c: Cell) {
    match c
    case Empty => false
    case Num(x) => x != 0.0
    case Text(s) => s != ""
  }

  /** `row[j]`: an index past the end of the row reads as undefined. */
  function Get(row: Row, j: nat): Cell {
    if j < |row| then row[j] else Empty
  }

  /** `row.slice(1)`. */
  function Drop1(row: Row): Row {
    if |row| == 0 then [] else row[1..]
  }

  /** `rows.map(r => r[0])`: the label column. */
  function Column0(rows: Grid): seq<Cell> {
    seq(|rows|, i requires 0 <= i < |rows| => Get(rows[i], 0))
  }

  /** `cells.filter(Boolean)`. */
  function FilterTruthy(cs: seq<Cell>): (r: seq<Cell>)
    ensures |r| <= |cs|
    ensures forall c :: c in r <==> c in cs && Truthy(c)
  {
    if cs == [] then []
    else (if Truthy(cs[0]) then [cs[0]] else []) + FilterTruthy(cs[1..])
  }

  /** Filtering changes nothing when no cell is falsy. */
  lemma {:induction false} FilterTruthyKeepsTruthy(cs: seq<Cell>)
    requires forall i :: 0 <= i < |cs| ==> Truthy(cs[i])
    ensures FilterTruthy(cs) == cs
  {
    if cs != [] {
      FilterTruthyKeepsTruthy(cs[1..]);
    }
  }

  /** Filtering distributes over concatenation. */
  lemma {:induction false} FilterTruthyAppend(a: seq<Cell>, b: seq<Cell>)
    ensures FilterTruthy(a + b) == FilterTruthy(a) + FilterTruthy(b)
  {
    if a == [] {
      assert a + b == b;
    } else {
      var head := if Truthy(a[0]) then [a[0]] else [];
      assert (a + b)[0] == a[0];
      assert (a + b)[1..] == a[1..] + b;
      FilterTruthyAppend(a[1..], b);
      assert FilterTruthy(a + b) == head + (FilterTruthy(a[1..]) + FilterTruthy(b));
    }
  }

  /** The number of falsy cells. */
  function Blanks(cs: seq<Cell>): nat {
    if cs == [] then 0 else (if Truthy(cs[0]) then 0 else 1) + Blanks(cs[1..])
  }

  /** Filtering removes exactly the falsy cells. */
  lemma {:induction false} FilterTruthyLength(cs: seq<Cell>)
    ensures |FilterTruthy(cs)| + Blanks(cs) == |cs|
  {
    if cs != [] {
      FilterTruthyLength(cs[1..]);
    }
  }

  /** `xs.indexOf(x)` and `xs.findIndex(y => y === x)`: the first position
      holding `x`, or -1. */
  function IndexOf(xs: seq<Cell>, x: Cell): (k: int)
    ensures -1 <= k < |xs|
    ensures k >= 0 ==> xs[k] == x && forall j :: 0 <= j < k ==> xs[j] != x
    ensures k == -1 <==> x !in xs
  {
    if xs == [] then -1
    else if xs[0] == x then 0
    else
      var k := IndexOf(xs[1..], x);
      if k == -1 then -1 else k + 1
  }

  /** Position `k` holds the first occurrence of `x`. */
  lemma IndexOfFirst(xs: seq<Cell>, x: Cell, k: nat)
    requires k < |xs| && xs[k] == x && forall j :: 0 <= j < k ==> xs[j] != x
    ensures IndexOf(xs, x) == k
  {
    var i := IndexOf(xs, x);
    assert x in xs;
    assert xs[i] == x && xs[k] == x;
  }

  /** A looked-up value as the extractors store it: an absent value is
      undefined (`findVal`) or null (`findValue(label) ?? null`), both Empty. */
  function OrNull(v: Option<Cell>): Cell {
    match v
    case None => Empty
    case Some(c) => c
  }

  /** `rows.find(r => r[0] === key)` followed by `row ? row[1] : undefined`:
      the column-1 cell of the first row labelled `key`, None when no row is. */
  function LookupValue(rows: Grid, key: string): (v: Option<Cell>)
    ensures v.None? <==> forall i :: 0 <= i < |rows| ==> Get(rows[i], 0) != Text(key)
    ensures v.Some? ==>
      exists i :: (0 <= i < |rows| && Get(rows[i], 0) == Text(key)
                   && (forall j :: 0 <= j < i ==> Get(rows[j], 0) != Text(key))
                   && v.value == Get(rows[i], 1))
  {
    var col := Column0(rows);
    var k := IndexOf(col, Text(key));
    if k < 0 then
      assert forall i :: 0 <= i < |rows| ==> col[i] == Get(rows[i], 0);
      None
    else
      assert forall j :: 0 <= j < k ==> col[j] == Get(rows[j], 0);
      Some(Get(rows[k], 1))
  }

  /** No row of `rows` carries `key` in column 0. */
  predicate NoRowLabelled(rows: Grid, key: string) {
    forall i :: 0 <= i < |rows| ==> Get(rows[i], 0) != Text(key)
  }

  /** Row `k` is the first row carrying `key` in column 0. */
  predicate FirstLabelled(rows: Grid, key: string, k: nat) {
    && k < |rows| && Get(rows[k], 0) == Text(key)
    && forall j :: 0 <= j < k ==> Get(rows[j], 0) != Text(key)
  }

  /** The lookup of a label takes column 1 of the first row carrying it. */
  lemma LookupFirst(rows: Grid, key: string, k: nat)
    requires FirstLabelled(rows, key, k)
    ensures LookupValue(rows, key) == Some(Get(rows[k], 1))
  {
    var v := LookupValue(rows, key);
    var i :| 0 <= i < |rows| && Get(rows[i], 0) == Text(key)
      && (forall j :: 0 <= j < i ==> Get(rows[j], 0) != Text(key)) && v.value == Get(rows[i], 1);
    assert i == k;
  }

  /** The lookup of a label no row carries finds nothing. */
  lemma LookupAbsent(rows: Grid, key: string)
    requires NoRowLabelled(rows, key)
    ensures LookupValue(rows, key) == None
  {
  }
}

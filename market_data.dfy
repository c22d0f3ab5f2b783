/** Price bars and the cursor that replays a price table row by row: the
    `Data`, `OHLCV` and `OHLCVIter` classes of the backtester. */
module MarketData {
  import opened Wrappers

  /** The value of a row's Date cell. */
  type Instant = int

  /** One row of the price table: its Date cell and its other cells by column name. */
  datatype Row = Row(date: Instant, cells: map<string, real>)

  /** One bar as handed to the portfolio and to the strategy. */
  datatype Data = Data(symbol: string, date: Instant, price: real, indicators: map<string, real>)

  /** Index of the first of `columns`, in list order, that `cells` lacks;
      `|columns|` when every column is present. */
  function FirstMissing(columns: seq<string>, cells: map<string, real>): (k: nat)
    ensures k <= |columns|
    ensures forall j :: 0 <= j < k ==> columns[j] in cells
    ensures k < |columns| ==> columns[k] !in cells
  {
    if columns == [] || columns[0] !in cells then 0
    else 1 + FirstMissing(columns[1..], cells)
  }

  /** Every one of `columns` is a key of `cells`. */
  predicate AllPresent(columns: seq<string>, cells: map<string, real>) {
    forall j :: 0 <= j < |columns| ==> columns[j] in cells
  }

  /** The indicator mapping built by assigning the columns one after another,
      as the `for` loop of `__next__` does. */
  function Indicators(columns: seq<string>, cells: map<string, real>): (m: map<string, real>)
    requires forall j :: 0 <= j < |columns| ==> columns[j] in cells
    ensures forall c :: c in m ==> c in columns && m[c] == cells[c]
  {
    if columns == [] then map[]
    else
      var last := columns[|columns| - 1];
      Indicators(columns[..|columns| - 1], cells)[last := cells[last]]
  }

  /** The indicator mapping holds exactly the requested columns, each with the
      row's value, whatever the order and repetitions of the columns. */
  lemma {:induction false} IndicatorsExact(columns: seq<string>, cells: map<string, real>)
    requires forall j :: 0 <= j < |columns| ==> columns[j] in cells
    ensures forall c :: c in Indicators(columns, cells) <==> c in columns
    ensures forall c :: c in Indicators(columns, cells) ==> Indicators(columns, cells)[c] == cells[c]
  {
    if columns != [] {
      var n := |columns| - 1;
      IndicatorsExact(columns[..n], cells);
      assert columns == columns[..n] + [columns[n]];
    }
  }

  /** The row has every requested indicator column and the price column. */
  predicate Converts(priceColumn: string, indicatorColumns: seq<string>, row: Row) {
    AllPresent(indicatorColumns, row.cells) && priceColumn in row.cells
  }

  /** The bar a complete row yields: the symbol, the row's date and price, and its
      indicators (see `ToDataIndicators`). */
  function ToData(symbol: string, priceColumn: string, indicatorColumns: seq<string>, row: Row): (d: Data)
    requires Converts(priceColumn, indicatorColumns, row)
    ensures d.symbol == symbol && d.date == row.date && d.price == row.cells[priceColumn]
  {
    Data(symbol, row.date, row.cells[priceColumn], Indicators(indicatorColumns, row.cells))
  }

  /** A bar's indicators are keyed exactly by the requested indicator columns and
      carry the row's values. */
  lemma ToDataIndicators(symbol: string, priceColumn: string, indicatorColumns: seq<string>, row: Row)
    requires Converts(priceColumn, indicatorColumns, row)
    ensures var d := ToData(symbol, priceColumn, indicatorColumns, row);
      && (forall c :: c in d.indicators <==> c in indicatorColumns)
      && (forall c :: c in d.indicators ==> d.indicators[c] == row.cells[c])
  {
    IndicatorsExact(indicatorColumns, row.cells);
  }

  /** The column whose lookup raises the KeyError for an incomplete row: the first
      absent indicator column in list order, else the price column. */
  function MissingColumn(priceColumn: string, indicatorColumns: seq<string>, row: Row): (c: string)
    requires !Converts(priceColumn, indicatorColumns, row)
    ensures c !in row.cells
    ensures c == priceColumn || c in indicatorColumns
  {
    var k := FirstMissing(indicatorColumns, row.cells);
    if k < |indicatorColumns| then indicatorColumns[k] else priceColumn
  }

  /** The reported column is an indicator column when any of them is missing, and
      no missing indicator column comes before it; the price column is reported
      only when every indicator column is present. */
  lemma MissingColumnFirst(priceColumn: string, indicatorColumns: seq<string>, row: Row)
    requires !Converts(priceColumn, indicatorColumns, row)
    ensures var c := MissingColumn(priceColumn, indicatorColumns, row);
      && (forall j :: 0 <= j < |indicatorColumns| && indicatorColumns[j] !in row.cells ==>
            exists i :: 0 <= i <= j && indicatorColumns[i] == c)
      && (c !in indicatorColumns ==> forall j :: 0 <= j < |indicatorColumns| ==> indicatorColumns[j] in row.cells)
  {
    var k := FirstMissing(indicatorColumns, row.cells);
    forall j | 0 <= j < |indicatorColumns| && indicatorColumns[j] !in row.cells
      ensures exists i :: 0 <= i <= j && indicatorColumns[i] == MissingColumn(priceColumn, indicatorColumns, row)
    {
      assert k <= j;
      assert indicatorColumns[k] == MissingColumn(priceColumn, indicatorColumns, row);
    }
  }

  /** What `__next__` produces for one row: its bar, or the KeyError it raises. */
  function RowToData(symbol: string, priceColumn: string, indicatorColumns: seq<string>, row: Row): (r: Result<Data>)
    ensures r.Ok? <==> Converts(priceColumn, indicatorColumns, row)
    ensures r.Ok? ==> r.value == ToData(symbol, priceColumn, indicatorColumns, row)
    ensures r.Err? ==> r.error == KeyError(MissingColumn(priceColumn, indicatorColumns, row))
  {
    if Converts(priceColumn, indicatorColumns, row) then Ok(ToData(symbol, priceColumn, indicatorColumns, row))
    else Err(KeyError(MissingColumn(priceColumn, indicatorColumns, row)))
  }

  /** Index of the first row that raises a KeyError; `|rows|` when none does. */
  function FirstBadRow(priceColumn: string, indicatorColumns: seq<string>, rows: seq<Row>): (n: nat)
    ensures n <= |rows|
    ensures forall j :: 0 <= j < n ==> Converts(priceColumn, indicatorColumns, rows[j])
    ensures n < |rows| ==> !Converts(priceColumn, indicatorColumns, rows[n])
  {
    if rows == [] || !Converts(priceColumn, indicatorColumns, rows[0]) then 0
    else 1 + FirstBadRow(priceColumn, indicatorColumns, rows[1..])
  }

  /** The bars of rows that all convert, in row order. */
  function Bars(symbol: string, priceColumn: string, indicatorColumns: seq<string>, rows: seq<Row>): (ds: seq<Data>)
    requires forall j :: 0 <= j < |rows| ==> Converts(priceColumn, indicatorColumns, rows[j])
    ensures |ds| == |rows|
    ensures forall j :: 0 <= j < |rows| ==> ds[j] == ToData(symbol, priceColumn, indicatorColumns, rows[j])
  {
    seq(|rows|, j requires 0 <= j < |rows| => ToData(symbol, priceColumn, indicatorColumns, rows[j]))
  }

  /** Converting one more row appends its bar. */
  lemma BarsSnoc(symbol: string, priceColumn: string, indicatorColumns: seq<string>, rows: seq<Row>, i: nat)
    requires i < |rows|
    requires forall j :: 0 <= j <= i ==> Converts(priceColumn, indicatorColumns, rows[j])
    ensures Bars(symbol, priceColumn, indicatorColumns, rows[..i + 1])
         == Bars(symbol, priceColumn, indicatorColumns, rows[..i]) + [ToData(symbol, priceColumn, indicatorColumns, rows[i])]
  {
    assert rows[..i + 1][..i] == rows[..i];
  }

  /** Every price cell of the table is positive. */
  ghost predicate PositivePrices(priceColumn: string, rows: seq<Row>) {
    forall j :: 0 <= j < |rows| && priceColumn in rows[j].cells ==> rows[j].cells[priceColumn] > 0.0
  }

  /** Every bar is priced above zero. */
  predicate Priced(bars: seq<Data>) {
    forall k :: 0 <= k < |bars| ==> bars[k].price > 0.0
  }

  /** The bars of a table with positive prices are priced above zero. */
  lemma BarsPriced(symbol: string, priceColumn: string, indicatorColumns: seq<string>, rows: seq<Row>, n: nat)
    requires n <= |rows| && PositivePrices(priceColumn, rows)
    requires forall j :: 0 <= j < n ==> Converts(priceColumn, indicatorColumns, rows[j])
    ensures Priced(Bars(symbol, priceColumn, indicatorColumns, rows[..n]))
  {
    var bars := Bars(symbol, priceColumn, indicatorColumns, rows[..n]);
    forall k | 0 <= k < n
      ensures bars[k].price > 0.0
    {
      assert rows[..n][k] == rows[k];
    }
  }

  /** Dropping the first row keeps every price positive. */
  lemma PositivePricesTail(priceColumn: string, rows: seq<Row>)
    requires rows != [] && PositivePrices(priceColumn, rows)
    ensures PositivePrices(priceColumn, rows[1..])
  {
    forall j | 0 <= j < |rows| - 1 && priceColumn in rows[1..][j].cells
      ensures rows[1..][j].cells[priceColumn] > 0.0
    {
      assert rows[1..][j] == rows[j + 1];
    }
  }

  /** The bars of the rows before the first incomplete one start with the first
      row's bar when that row is complete. */
  lemma BarsCons(symbol: string, priceColumn: string, indicatorColumns: seq<string>, rows: seq<Row>)
    requires rows != [] && Converts(priceColumn, indicatorColumns, rows[0])
    ensures var n := FirstBadRow(priceColumn, indicatorColumns, rows);
      var m := FirstBadRow(priceColumn, indicatorColumns, rows[1..]);
      && n == m + 1
      && Bars(symbol, priceColumn, indicatorColumns, rows[..n])
         == [ToData(symbol, priceColumn, indicatorColumns, rows[0])] + Bars(symbol, priceColumn, indicatorColumns, rows[1..][..m])
  {
    var n := FirstBadRow(priceColumn, indicatorColumns, rows);
    var m := FirstBadRow(priceColumn, indicatorColumns, rows[1..]);
    assert rows[1..][..m] == rows[..n][1..];
  }

  /** The wrapped price table. The backtester never reassigns its attributes, so
      they are constants here; the table itself is held as a value, a snapshot of
      the rows at construction. */
  class OHLCV {
    const ohlcv: seq<Row>
    const symbol: string
    const priceColumn: string
    const indicatorColumns: seq<string>
    const size: nat

    /** `size` is the table's row count (`shape[0]`). */
    predicate Valid() {
      size == |ohlcv|
    }

    constructor (ohlcv: seq<Row>, symbol: string, priceColumn: string, indicatorColumns: seq<string>)
      ensures this.ohlcv == ohlcv && this.symbol == symbol && this.priceColumn == priceColumn
      ensures this.indicatorColumns == indicatorColumns && size == |ohlcv| && Valid()
    {
      this.ohlcv := ohlcv;
      this.symbol := symbol;
      this.priceColumn := priceColumn;
      this.indicatorColumns := indicatorColumns;
      this.size := |ohlcv|;
    }

    /** `__iter__`: every call starts a new, independent cursor at the first row. */
    method Iter() returns (it: OHLCVIter)
      requires Valid()
      ensures fresh(it) && it.Valid() && it.currentIndex == 0
      ensures it.ohlcv == ohlcv && it.ohlcvSize == size && it.symbol == symbol
      ensures it.priceColumn == priceColumn && it.indicatorColumns == indicatorColumns
    {
      it := new OHLCVIter(this);
    }
  }

  /** The cursor: a copy of the table's attributes and the index of the next row. */
  class OHLCVIter {
    const ohlcv: seq<Row>
    const ohlcvSize: nat
    const symbol: string
    const priceColumn: string
    const indicatorColumns: seq<string>
    var currentIndex: nat

    ghost predicate Valid()
      reads this
    {
      ohlcvSize == |ohlcv| && currentIndex <= ohlcvSize
    }

    constructor (source: OHLCV)
      requires source.Valid()
      ensures Valid() && currentIndex == 0
      ensures ohlcv == source.ohlcv && ohlcvSize == source.size && symbol == source.symbol
      ensures priceColumn == source.priceColumn && indicatorColumns == source.indicatorColumns
    {
      ohlcv := source.ohlcv;
      ohlcvSize := source.size;
      symbol := source.symbol;
      priceColumn := source.priceColumn;
      indicatorColumns := source.indicatorColumns;
      currentIndex := 0;
    }

    /** `__next__`: `None` is StopIteration; otherwise the row at the cursor
        converted to a bar, and the cursor moves on only when no KeyError was raised. */
    method Next() returns (r: Option<Result<Data>>)
      requires Valid()
      modifies this
      ensures Valid()
      ensures r.Some? <==> old(currentIndex) < ohlcvSize
      ensures r.Some? ==> r.value == RowToData(symbol, priceColumn, indicatorColumns, ohlcv[old(currentIndex)])
      ensures currentIndex == if r.Some? && r.value.Ok? then old(currentIndex) + 1 else old(currentIndex)
    {
      if currentIndex < ohlcvSize {
        var row := ohlcv[currentIndex];
        var indicators: map<string, real> := map[];
        var i := 0;
        while i < |indicatorColumns|
          invariant 0 <= i <= |indicatorColumns|
          invariant forall j :: 0 <= j < i ==> indicatorColumns[j] in row.cells
          invariant indicators == Indicators(indicatorColumns[..i], row.cells)
        {
          var column := indicatorColumns[i];
          if column !in row.cells {
            return Some(Err(KeyError(column)));
          }
          assert indicatorColumns[..i + 1][..i] == indicatorColumns[..i];
          indicators := indicators[column := row.cells[column]];
          i := i + 1;
        }
        if priceColumn !in row.cells {
          return Some(Err(KeyError(priceColumn)));
        }
        assert indicatorColumns[..i] == indicatorColumns;
        var data := Data(symbol, row.date, row.cells[priceColumn], indicators);
        currentIndex := currentIndex + 1;
        return Some(Ok(data));
      }
      return None;
    }
  }

  /** Draining a fresh cursor, as `[x for x in ohlcv]` does: the bars of all rows in
      row order, or the KeyError of the first row that lacks a column. Every call
      walks its own cursor, so two calls yield the same outcome. */
  method Collect(source: OHLCV) returns (r: Result<seq<Data>>)
    requires source.Valid()
    ensures var n := FirstBadRow(source.priceColumn, source.indicatorColumns, source.ohlcv);
      r == if n == |source.ohlcv|
           then Ok(Bars(source.symbol, source.priceColumn, source.indicatorColumns, source.ohlcv))
           else Err(RowToData(source.symbol, source.priceColumn, source.indicatorColumns, source.ohlcv[n]).error)
  {
    var it := source.Iter();
    var bars: seq<Data> := [];
    while true
      invariant it.Valid()
      invariant forall j :: 0 <= j < it.currentIndex ==>
        Converts(source.priceColumn, source.indicatorColumns, source.ohlcv[j])
      invariant bars == Bars(source.symbol, source.priceColumn, source.indicatorColumns, source.ohlcv[..it.currentIndex])
      decreases source.size - it.currentIndex
    {
      ghost var i := it.currentIndex;
      var next := it.Next();
      if next.None? {
        assert source.ohlcv[..i] == source.ohlcv;
        return Ok(bars);
      }
      if next.value.Err? {
        return Err(next.value.error);
      }
      assert Converts(source.priceColumn, source.indicatorColumns, source.ohlcv[i]);
      BarsSnoc(source.symbol, source.priceColumn, source.indicatorColumns, source.ohlcv, i);
      bars := bars + [next.value.value];
    }
  }
}

/** The tester map loader: the rows of the tester sheet become the map
    from a tester's serial number to its asset number. Among the first ten
    rows, the last cell naming a serial number fixes the serial column and
    the header row, and the last cell naming an asset fixes the asset
    column; each later row with both cells filled adds its pair, a later
    row overwriting an earlier one with the same serial number. */
module TesterMap {
  import opened Base
  import opened PyText
  import opened Limits

  /** Number of leading rows searched for the header. */
  const TesterHeaderRows: nat := 10

  datatype HeaderKind = SerialKind | AssetKind

  /** A filled header cell naming the serial-number column ("SERIAL" or
      "S/N") or the asset column ("ASSET"), in any case. */
  predicate Names(kind: HeaderKind, cell: string) {
    cell != "" &&
    match kind
    case SerialKind => Contains(Upper(cell), "SERIAL") || Contains(Upper(cell), "S/N")
    case AssetKind => Contains(Upper(cell), "ASSET")
  }

  /** The last of the first `n` cells of a row that names the kind. */
  function LastCell(kind: HeaderKind, row: Row, n: nat): (c: Option<nat>)
    requires n <= |row|
    ensures c.Some? ==> c.value < n && Names(kind, row[c.value]) && forall j :: c.value < j < n ==> !Names(kind, row[j])
    ensures c.None? ==> forall j :: 0 <= j < n ==> !Names(kind, row[j])
  {
    if n == 0 then None
    else if Names(kind, row[n - 1]) then Some(n - 1)
    else LastCell(kind, row, n - 1)
  }

  /** The last of the first `n` rows with a cell naming the kind. */
  function LastRow(kind: HeaderKind, rows: seq<Row>, n: nat): (r: Option<nat>)
    requires n <= |rows|
    ensures r.Some? ==> r.value < n && LastCell(kind, rows[r.value], |rows[r.value]|).Some?
    ensures r.Some? ==> forall j :: r.value < j < n ==> LastCell(kind, rows[j], |rows[j]|).None?
    ensures r.None? ==> forall j :: 0 <= j < n ==> LastCell(kind, rows[j], |rows[j]|).None?
  {
    if n == 0 then None
    else if LastCell(kind, rows[n - 1], |rows[n - 1]|).Some? then Some(n - 1)
    else LastRow(kind, rows, n - 1)
  }

  /** What the header scan has found: the serial and asset columns and the
      row of the serial header. */
  datatype TesterHeader = TesterHeader(snCol: Option<nat>, assetCol: Option<nat>, headerRow: Option<nat>)

  const NoHeader := TesterHeader(None, None, None)

  /** One header cell: a serial cell moves the serial column and the header
      row to it; an asset cell moves the asset column to it. */
  function HeaderCellStep(h: TesterHeader, r: nat, c: nat, cell: string): TesterHeader {
    var h1 := if Names(SerialKind, cell) then h.(snCol := Some(c), headerRow := Some(r)) else h;
    if Names(AssetKind, cell) then h1.(assetCol := Some(c)) else h1
  }

  /** The first `n` cells of row `r`, left to right. */
  function HeaderCells(h: TesterHeader, r: nat, row: Row, n: nat): TesterHeader
    requires n <= |row|
  {
    if n == 0 then h else HeaderCellStep(HeaderCells(h, r, row, n - 1), r, n - 1, row[n - 1])
  }

  /** The first `n` rows, top to bottom. */
  function HeaderRows(h: TesterHeader, rows: seq<Row>, n: nat): TesterHeader
    requires n <= |rows|
  {
    if n == 0 then h else HeaderCells(HeaderRows(h, rows, n - 1), n - 1, rows[n - 1], |rows[n - 1]|)
  }

  function HeaderBound(rows: seq<Row>): (n: nat)
    ensures n <= |rows| && n <= TesterHeaderRows
  {
    if |rows| < TesterHeaderRows then |rows| else TesterHeaderRows
  }

  /** The header scan of the loader over the first ten rows. */
  function TesterHeaderOf(rows: seq<Row>): TesterHeader {
    HeaderRows(NoHeader, rows, HeaderBound(rows))
  }

  /** Within one row, the last serial cell and the last asset cell win. */
  lemma {:induction false} HeaderCellsAreLast(h: TesterHeader, r: nat, row: Row, n: nat)
    requires n <= |row|
    ensures var out := HeaderCells(h, r, row, n);
      var sn := LastCell(SerialKind, row, n);
      var asset := LastCell(AssetKind, row, n);
      && out.snCol == (if sn.Some? then sn else h.snCol)
      && out.headerRow == (if sn.Some? then Some(r) else h.headerRow)
      && out.assetCol == (if asset.Some? then asset else h.assetCol)
  {
    if n > 0 {
      HeaderCellsAreLast(h, r, row, n - 1);
    }
  }

  /** Over the rows, the last row with a serial cell is the header row, its
      last serial cell the serial column, and the last asset cell of the
      last row with one the asset column. */
  lemma {:induction false} HeaderRowsAreLast(h: TesterHeader, rows: seq<Row>, n: nat)
    requires n <= |rows|
    ensures var out := HeaderRows(h, rows, n);
      var sr := LastRow(SerialKind, rows, n);
      var ar := LastRow(AssetKind, rows, n);
      && out.headerRow == (if sr.Some? then sr else h.headerRow)
      && out.snCol == (if sr.Some? then LastCell(SerialKind, rows[sr.value], |rows[sr.value]|) else h.snCol)
      && out.assetCol == (if ar.Some? then LastCell(AssetKind, rows[ar.value], |rows[ar.value]|) else h.assetCol)
  {
    if n > 0 {
      HeaderRowsAreLast(h, rows, n - 1);
      HeaderCellsAreLast(HeaderRows(h, rows, n - 1), n - 1, rows[n - 1], |rows[n - 1]|);
    }
  }

  /** The cache entry a data row gives: its stripped serial number and
      asset number, when the row reaches both columns and both are filled. */
  function TesterEntry(row: Row, snCol: nat, assetCol: nat): (e: Option<(string, string)>)
    ensures e.Some? ==> snCol < |row| && assetCol < |row|
    ensures e.Some? ==> e.value == (Strip(row[snCol]), Strip(row[assetCol]))
    ensures e.Some? <==> snCol < |row| && assetCol < |row| && Strip(row[snCol]) != "" && Strip(row[assetCol]) != ""
  {
    if |row| <= snCol || |row| <= assetCol then None
    else
      var sn := Strip(row[snCol]);
      var asset := Strip(row[assetCol]);
      if sn != "" && asset != "" then Some((sn, asset)) else None
  }

  function TesterEntries(rows: seq<Row>, snCol: nat, assetCol: nat): (es: seq<Option<(string, string)>>)
    ensures |es| == |rows|
  {
    if rows == [] then [] else TesterEntries(rows[..|rows| - 1], snCol, assetCol) + [TesterEntry(rows[|rows| - 1], snCol, assetCol)]
  }

  lemma {:induction false} TesterEntriesAt(rows: seq<Row>, snCol: nat, assetCol: nat, j: nat)
    requires j < |rows|
    ensures TesterEntries(rows, snCol, assetCol)[j] == TesterEntry(rows[j], snCol, assetCol)
  {
    if j < |rows| - 1 {
      TesterEntriesAt(rows[..|rows| - 1], snCol, assetCol, j);
    }
  }

  /** The header scan found both columns. */
  predicate Complete(h: TesterHeader, rows: seq<Row>) {
    h.snCol.Some? && h.assetCol.Some? && h.headerRow.Some? && h.headerRow.value < |rows|
  }

  /** The entries of the rows after the header row; none without a
      complete header. */
  function DataEntries(rows: seq<Row>): seq<Option<(string, string)>> {
    var h := TesterHeaderOf(rows);
    if !Complete(h, rows) then []
    else TesterEntries(rows[h.headerRow.value + 1..], h.snCol.value, h.assetCol.value)
  }

  /** Data entry `j` is the entry of the `j`-th row after the header. */
  lemma DataEntriesAt(rows: seq<Row>, j: nat)
    requires Complete(TesterHeaderOf(rows), rows)
    requires j < |DataEntries(rows)|
    ensures var h := TesterHeaderOf(rows);
      h.headerRow.value + 1 + j < |rows|
      && DataEntries(rows)[j] == TesterEntry(rows[h.headerRow.value + 1 + j], h.snCol.value, h.assetCol.value)
  {
    var h := TesterHeaderOf(rows);
    var r := h.headerRow.value;
    assert DataEntries(rows) == TesterEntries(rows[r + 1..], h.snCol.value, h.assetCol.value);
    EntriesAfterRow(rows, r, h.snCol.value, h.assetCol.value, j);
  }

  /** Entry `j` of the rows after row `r` is the entry of row `r + 1 + j`. */
  lemma EntriesAfterRow(rows: seq<Row>, r: nat, snCol: nat, assetCol: nat, j: nat)
    requires r < |rows| && j < |rows| - (r + 1)
    ensures TesterEntries(rows[r + 1..], snCol, assetCol)[j] == TesterEntry(rows[r + 1 + j], snCol, assetCol)
  {
    var data := rows[r + 1..];
    TesterEntriesAt(data, snCol, assetCol, j);
    assert data[j] == rows[r + 1 + j];
  }

  /** `load_tester_map` on the rows of the sheet. */
  function TesterMapOf(rows: seq<Row>): map<string, string> {
    ApplyEntries(map[], DataEntries(rows))
  }

  /** The header scan as the source runs it: every cell of the first ten
      rows, in order. */
  method ScanTesterHeader(rows: seq<Row>) returns (h: TesterHeader)
    ensures h == TesterHeaderOf(rows)
  {
    var bound := HeaderBound(rows);
    h := NoHeader;
    var r := 0;
    while r < bound
      invariant 0 <= r <= bound
      invariant h == HeaderRows(NoHeader, rows, r)
    {
      var row := rows[r];
      var c := 0;
      ghost var start := h;
      while c < |row|
        invariant 0 <= c <= |row|
        invariant h == HeaderCells(start, r, row, c)
      {
        var cell := row[c];
        if cell != "" {
          var upper := Upper(cell);
          if Contains(upper, "SERIAL") || Contains(upper, "S/N") {
            h := h.(snCol := Some(c), headerRow := Some(r));
          }
          if Contains(upper, "ASSET") {
            h := h.(assetCol := Some(c));
          }
        }
        c := c + 1;
      }
      r := r + 1;
    }
  }

  /** `load_tester_map` after the workbook is read. */
  method LoadTesterMap(rows: seq<Row>) returns (testerMap: map<string, string>)
    ensures testerMap == TesterMapOf(rows)
  {
    var h := ScanTesterHeader(rows);
    if h.snCol.None? || h.assetCol.None? || h.headerRow.None? || h.headerRow.value >= |rows| {
      return map[];
    }
    testerMap := ApplyDataRows(map[], TesterEntries(rows[h.headerRow.value + 1..], h.snCol.value, h.assetCol.value));
  }

  /** Without a serial cell or an asset cell among the first ten rows the
      map is empty. */
  lemma NoHeaderNoMap(rows: seq<Row>)
    requires LastRow(SerialKind, rows, HeaderBound(rows)).None? || LastRow(AssetKind, rows, HeaderBound(rows)).None?
    ensures TesterMapOf(rows) == map[]
  {
    HeaderRowsAreLast(NoHeader, rows, HeaderBound(rows));
  }

  /** The last data row giving a serial number decides its asset number. */
  lemma LastTesterRowWins(rows: seq<Row>, k: nat, sn: string)
    requires k < |DataEntries(rows)|
    requires DataEntries(rows)[k].Some? && DataEntries(rows)[k].value.0 == sn
    requires forall j :: k < j < |DataEntries(rows)| ==> DataEntries(rows)[j].None? || DataEntries(rows)[j].value.0 != sn
    ensures sn in TesterMapOf(rows) && TesterMapOf(rows)[sn] == DataEntries(rows)[k].value.1
  {
    LastEntryWins(map[], DataEntries(rows), k, sn);
  }

  /** A serial number no data row gives is not in the map, so the upload
      row falls back to the serial number itself. */
  lemma UnknownTester(rows: seq<Row>, sn: string)
    requires forall j :: 0 <= j < |DataEntries(rows)| ==> DataEntries(rows)[j].None? || DataEntries(rows)[j].value.0 != sn
    ensures sn !in TesterMapOf(rows)
  {
    UntouchedKey(map[], DataEntries(rows), sn);
  }
}

/** What the Fluke parser reads from a CSV the DTA converter writes: the
    results header is found right after the applied parts, its value and
    status columns are those the test rows fill, the parser's measurements
    are exactly those of the written test rows, and the serial number of
    the device under test becomes the tester serial number, because the
    key "Serial Number :" on the fifth row sits in the fifth column and is
    the first serial key the scan meets. */
module Compatibility {
  import opened Base
  import opened PyText
  import F = FlukeParser
  import D = DtaConverter

  // ------------------------------------------------------------------
  // Facts about the literal cells
  // ------------------------------------------------------------------

  /** A text lacking a capital letter and its lower-case form does not,
      once upper-cased, contain a word with that letter. */
  lemma NoLetterNoWord(cell: string, word: string, c: char)
    requires 'A' <= c <= 'Z' && c in word
    requires c !in cell && (c as int + 32) as char !in cell
    ensures !Contains(Upper(cell), word)
  {
    UpperMissing(cell, c);
    NotContainsMissingChar(Upper(cell), word, c);
  }

  /** A text that starts with a word contains it. */
  lemma PrefixContained(s: string, w: string)
    requires StartsWith(s, w)
    ensures Contains(s, w)
  {
    ContainsAt(s, w);
    assert OccursAt(s, w, 0);
  }

  lemma ValueNamesValue()
    ensures F.NamesColumn(F.ValueColumn, "Value")
  {
    assert Upper("Value") == "VALUE";
    PrefixContained("VALUE", "VALUE");
  }

  lemma StatusNamesStatus()
    ensures F.NamesColumn(F.StatusColumn, "Status")
  {
    assert Upper("Status") == "STATUS";
    PrefixContained("STATUS", "STATUS");
  }

  /** Neither a value nor a result: no 'V', no 'R'. */
  lemma NotValueColumn(cell: string)
    requires 'V' !in cell && 'v' !in cell && 'R' !in cell && 'r' !in cell
    ensures !F.NamesColumn(F.ValueColumn, cell)
  {
    NoLetterNoWord(cell, "VALUE", 'V');
    NoLetterNoWord(cell, "RESULT", 'R');
  }

  /** A header row of eight cells whose value cell is the fifth and whose
      status cell is the last maps the columns 4 and 7. */
  lemma ColumnsOfHeader(row: F.Row)
    requires |row| == 8
    requires F.NamesColumn(F.ValueColumn, row[4]) && F.NamesColumn(F.StatusColumn, row[7])
    requires !F.NamesColumn(F.ValueColumn, row[5]) && !F.NamesColumn(F.ValueColumn, row[6])
    requires !F.NamesColumn(F.ValueColumn, row[7])
    ensures F.ColumnMap(row) == (4, 7)
  {
  }

  lemma HeaderValueCell()
    ensures F.NamesColumn(F.ValueColumn, D.ResultsHeaderRow[4])
  {
    ValueNamesValue();
  }

  lemma HeaderStatusCell()
    ensures F.NamesColumn(F.StatusColumn, D.ResultsHeaderRow[7])
  {
    StatusNamesStatus();
  }

  lemma HeaderLimitCells()
    ensures !F.NamesColumn(F.ValueColumn, D.ResultsHeaderRow[5])
    ensures !F.NamesColumn(F.ValueColumn, D.ResultsHeaderRow[6])
    ensures !F.NamesColumn(F.ValueColumn, D.ResultsHeaderRow[7])
  {
    var row := D.ResultsHeaderRow;
    forall i | 5 <= i < 8
      ensures !F.NamesColumn(F.ValueColumn, row[i])
    {
      NotValueColumn(row[i]);
    }
  }

  /** The header row's columns: the value cell is column 4 and the status
      cell column 7, the columns `to_csv` writes the result and the status
      of every test into. */
  lemma ResultsHeaderColumns()
    ensures F.ColumnMap(D.ResultsHeaderRow) == (4, 7)
  {
    HeaderValueCell();
    HeaderStatusCell();
    HeaderLimitCells();
    ColumnsOfHeader(D.ResultsHeaderRow);
  }

  lemma TestNameCell()
    ensures Upper(Strip("Test Name")) == "TEST NAME"
  {
    TestNameKept("Test Name");
    TestNameUpper("Test Name");
  }

  lemma TestNameKept(t: string)
    requires t == "Test Name"
    ensures Strip(t) == t
  {
    assert !IsSpace(t[0]) && !IsSpace(t[|t| - 1]);
    StripKeeps(t);
  }

  lemma TestNameUpper(t: string)
    requires t == "Test Name"
    ensures Upper(t) == "TEST NAME"
  {
  }

  /** The header row `to_csv` writes is a results header. */
  lemma HeaderRowIsResultsHeader()
    ensures F.IsResultsHeader(D.ResultsHeaderRow)
  {
    TestNameCell();
    ValueNamesValue();
    assert Contains(Upper(D.ResultsHeaderRow[4]), "VALUE");
  }

  /** A first cell that strip leaves alone and that has other than nine
      characters is not "Test Name" in any case. */
  lemma NotTestName(cell: string)
    requires cell == [] || (!IsSpace(cell[0]) && !IsSpace(cell[|cell| - 1]))
    requires |cell| != 9
    ensures NotTestNameLabel(cell)
  {
    StripKeeps(cell);
  }

  predicate NotTestNameLabel(cell: string) {
    Upper(Strip(cell)) != "TEST NAME"
  }

  /** A row whose first cell is not "Test Name" is no results header. */
  predicate FirstCellNotTestName(row: seq<string>) {
    |row| > 0 && NotTestNameLabel(row[0])
  }

  lemma HeadRowsNotHeader()
    ensures NoHeaderRows(D.HeadRows)
  {
    forall j | 0 <= j < |D.HeadRows|
      ensures FirstCellNotTestName(D.HeadRows[j])
    {
      NotTestName(D.HeadRows[j][0]);
    }
  }

  lemma DutLabelsNotTestName()
    ensures forall j :: 0 <= j < |D.DutLabels| ==> NotTestNameLabel(D.DutLabels[j])
  {
    forall j | 0 <= j < |D.DutLabels|
      ensures NotTestNameLabel(D.DutLabels[j])
    {
      NotTestName(D.DutLabels[j]);
    }
  }

  lemma JobRowsNotHeader()
    ensures NoHeaderRows(D.JobRows)
  {
    forall j | 0 <= j < |D.JobRows|
      ensures FirstCellNotTestName(D.JobRows[j])
    {
      NotTestName(D.JobRows[j][0]);
    }
  }

  lemma TemplateLabelsNotTestName()
    ensures forall j :: 0 <= j < |D.TemplateLabels| ==> NotTestNameLabel(D.TemplateLabels[j])
  {
    forall j | 0 <= j < |D.TemplateLabels|
      ensures NotTestNameLabel(D.TemplateLabels[j])
    {
      NotTestName(D.TemplateLabels[j]);
    }
  }

  lemma SettingLabelsNotTestName()
    ensures forall j :: 0 <= j < |D.SettingLabels| ==> NotTestNameLabel(D.SettingLabels[j])
  {
    forall j | 0 <= j < |D.SettingLabels|
      ensures NotTestNameLabel(D.SettingLabels[j])
    {
      NotTestName(D.SettingLabels[j]);
    }
  }

  lemma PlcRowsNotHeader()
    ensures NoHeaderRows(D.PlcRows)
  {
    forall j | 0 <= j < |D.PlcRows|
      ensures FirstCellNotTestName(D.PlcRows[j])
    {
      NotTestName(D.PlcRows[j][0]);
    }
  }

  /** No row of the block has "Test Name" as its first cell. */
  predicate NoHeaderRows(rows: seq<seq<string>>) {
    forall j :: 0 <= j < |rows| ==> FirstCellNotTestName(rows[j])
  }

  lemma NoHeaderRowsAppend(a: seq<seq<string>>, b: seq<seq<string>>)
    requires NoHeaderRows(a) && NoHeaderRows(b)
    ensures NoHeaderRows(a + b)
  {
    assert forall j :: |a| <= j < |a + b| ==> (a + b)[j] == b[j - |a|];
  }

  /** A block whose first cells are labels other than "Test Name". */
  lemma LabelledRows(rows: seq<seq<string>>, labels: seq<string>)
    requires |rows| == |labels|
    requires forall j :: 0 <= j < |rows| ==> |rows[j]| > 0 && rows[j][0] == labels[j]
    requires forall j :: 0 <= j < |labels| ==> NotTestNameLabel(labels[j])
    ensures NoHeaderRows(rows)
  {
  }

  /** No row of the setup section has "Test Name" as its first cell. */
  lemma SetupRowsNotHeader(h: map<string, string>)
    ensures NoHeaderRows(D.SetupRows(h))
  {
    var dut := D.DutRows(h);
    var template := D.TemplateRows(h);
    var settings := D.SettingRows(h);
    HeadRowsNotHeader();
    DutLabelsNotTestName();
    LabelledRows(dut, D.DutLabels);
    JobRowsNotHeader();
    TemplateLabelsNotTestName();
    LabelledRows(template, D.TemplateLabels);
    SettingLabelsNotTestName();
    LabelledRows(settings, D.SettingLabels);
    PlcRowsNotHeader();
    NoHeaderRowsAppend(D.HeadRows, dut);
    NoHeaderRowsAppend(D.HeadRows + dut, D.JobRows);
    NoHeaderRowsAppend(D.HeadRows + dut + D.JobRows, template);
    NoHeaderRowsAppend(D.HeadRows + dut + D.JobRows + template, settings);
    NoHeaderRowsAppend(D.HeadRows + dut + D.JobRows + template + settings, D.PlcRows);
  }

  lemma TitleRowsNotHeader()
    ensures NoHeaderRows(D.ResultsTitleRows)
  {
    forall j | 0 <= j < |D.ResultsTitleRows|
      ensures FirstCellNotTestName(D.ResultsTitleRows[j])
    {
      NotTestName(D.ResultsTitleRows[j][0]);
    }
  }

  /** No applied part is named "Test Name" in any case. */
  predicate NoTestNamePart(parts: seq<D.AppliedPart>) {
    forall k :: 0 <= k < |parts| ==> NotTestNameLabel(parts[k].name)
  }

  /** The rows `to_csv` writes before the results header. */
  function Before(h: map<string, string>, parts: seq<D.AppliedPart>): (rows: seq<F.Row>)
    ensures |rows| == D.ResultsHeaderIndex(parts)
  {
    D.SetupRows(h) + D.PartRows(parts) + D.ResultsTitleRows
  }

  /** The rows after the results header: a blank row, the test rows and
      the footer. */
  function AfterHeader(ws: seq<D.TestRecord>): (rows: seq<F.Row>)
    ensures |rows| == 1 + |ws| + |D.FooterRows|
  {
    [D.Blank] + D.TestRows(ws) + D.FooterRows
  }

  /** The rows `to_csv` writes: those before the results header, the
      header, and those after it. */
  lemma CsvRowsAround(h: map<string, string>, results: seq<D.TestRecord>, parts: seq<D.AppliedPart>)
    ensures D.CsvRows(h, results, parts) == Before(h, parts) + [D.ResultsHeaderRow] + AfterHeader(D.WrittenTests(results))
  {
  }

  /** When no applied part is named "Test Name", no row before the results
      header has "Test Name" as its first cell. */
  lemma BeforeNotHeader(h: map<string, string>, parts: seq<D.AppliedPart>)
    requires NoTestNamePart(parts)
    ensures NoHeaderRows(Before(h, parts))
  {
    var partRows := D.PartRows(parts);
    SetupRowsNotHeader(h);
    TitleRowsNotHeader();
    assert NoHeaderRows(partRows);
    NoHeaderRowsAppend(D.SetupRows(h), partRows);
    NoHeaderRowsAppend(D.SetupRows(h) + partRows, D.ResultsTitleRows);
  }

  /** The parser finds the results header where it was written when no
      row before it starts with "Test Name". */
  lemma HeaderFoundAt(before: seq<F.Row>, header: F.Row, after: seq<F.Row>)
    requires NoHeaderRows(before) && F.IsResultsHeader(header)
    ensures F.ResultsHeaderIndex(before + [header] + after) == Some(|before|)
  {
    var rows := before + [header] + after;
    forall j | 0 <= j < |before|
      ensures !F.IsResultsHeader(rows[j])
    {
      assert rows[j] == before[j];
      assert FirstCellNotTestName(before[j]);
    }
    assert rows[|before|] == header;
    FirstHeaderAt(rows, |before|);
  }

  /** A header row with no header row before it is the one found. */
  lemma FirstHeaderAt(rows: seq<F.Row>, h: nat)
    requires h < |rows| && F.IsResultsHeader(rows[h])
    requires forall j :: 0 <= j < h ==> !F.IsResultsHeader(rows[j])
    ensures F.ResultsHeaderIndex(rows) == Some(h)
  {
    var found := F.ResultsHeaderIndex(rows);
    assert found.Some?;
  }

  // ------------------------------------------------------------------
  // The measurements read back
  // ------------------------------------------------------------------

  /** The parser's measurement of a written test row, with the value and
      status columns of the header `to_csv` writes. */
  function TestMeasurement(t: D.TestRecord, parseFloat: string -> Option<real>): Option<F.Measurement> {
    F.RowMeasurement(D.TestRow(t), 4, 7, parseFloat)
  }

  function TestMeasurements(ws: seq<D.TestRecord>, parseFloat: string -> Option<real>): (ms: seq<Option<F.Measurement>>)
    ensures |ms| == |ws|
    ensures forall k :: 0 <= k < |ws| ==> ms[k] == TestMeasurement(ws[k], parseFloat)
  {
    seq(|ws|, k requires 0 <= k < |ws| => TestMeasurement(ws[k], parseFloat))
  }

  lemma {:induction false} RowMeasurementsAppend(a: seq<F.Row>, b: seq<F.Row>, parseFloat: string -> Option<real>)
    ensures F.RowMeasurements(a + b, 4, 7, parseFloat) == F.RowMeasurements(a, 4, 7, parseFloat) + F.RowMeasurements(b, 4, 7, parseFloat)
  {
    if b == [] {
      assert a + b == a;
    } else {
      assert (a + b)[..|a + b| - 1] == a + b[..|b| - 1];
      RowMeasurementsAppend(a, b[..|b| - 1], parseFloat);
    }
  }

  lemma {:induction false} KeptAppend<T>(a: seq<Option<T>>, b: seq<Option<T>>)
    ensures F.Kept(a + b) == F.Kept(a) + F.Kept(b)
  {
    if b == [] {
      assert a + b == a;
    } else {
      assert (a + b)[..|a + b| - 1] == a + b[..|b| - 1];
      KeptAppend(a, b[..|b| - 1]);
    }
  }

  lemma {:induction false} KeptNone<T>(xs: seq<Option<T>>)
    requires forall k :: 0 <= k < |xs| ==> xs[k].None?
    ensures F.Kept(xs) == []
  {
    if xs != [] {
      KeptNone(xs[..|xs| - 1]);
    }
  }

  /** The measurements of the written test rows are those of the tests. */
  lemma TestRowMeasurements(ws: seq<D.TestRecord>, parseFloat: string -> Option<real>)
    ensures F.RowMeasurements(D.TestRows(ws), 4, 7, parseFloat) == TestMeasurements(ws, parseFloat)
  {
    var rows := D.TestRows(ws);
    var ms := F.RowMeasurements(rows, 4, 7, parseFloat);
    forall k | 0 <= k < |ws|
      ensures ms[k] == TestMeasurement(ws[k], parseFloat)
    {
      F.RowMeasurementsAt(rows, 4, 7, parseFloat, k);
    }
  }

  /** Rows whose first cell is empty yield no measurement. */
  lemma UnnamedRowsNoMeasurement(rows: seq<F.Row>, parseFloat: string -> Option<real>)
    requires forall j :: 0 <= j < |rows| ==> |rows[j]| > 0 && rows[j][0] == ""
    ensures F.Kept(F.RowMeasurements(rows, 4, 7, parseFloat)) == []
  {
    var ms := F.RowMeasurements(rows, 4, 7, parseFloat);
    forall k | 0 <= k < |rows|
      ensures ms[k].None?
    {
      F.RowMeasurementsAt(rows, 4, 7, parseFloat, k);
      F.SkippedRows(rows[k], 4, 7, parseFloat);
    }
    KeptNone(ms);
  }

  /** The blank row after the header and the footer rows yield nothing. */
  lemma FillerRowsNoMeasurement(parseFloat: string -> Option<real>)
    ensures F.Kept(F.RowMeasurements([D.Blank], 4, 7, parseFloat)) == []
    ensures F.Kept(F.RowMeasurements(D.FooterRows, 4, 7, parseFloat)) == []
  {
    var footer := D.FooterRows;
    assert forall j :: 0 <= j < |footer| ==> |footer[j]| > 0 && footer[j][0] == "";
    UnnamedRowsNoMeasurement([D.Blank], parseFloat);
    UnnamedRowsNoMeasurement(footer, parseFloat);
  }

  /** The parser reads back, from the rows after the header, exactly the
      measurements of the written tests, in order: the blank row after the
      header and the footer yield nothing. */
  lemma ReadBack(ws: seq<D.TestRecord>, parseFloat: string -> Option<real>)
    ensures F.MeasurementsOf(AfterHeader(ws), 4, 7, parseFloat) == F.Kept(TestMeasurements(ws, parseFloat))
  {
    var tests := D.TestRows(ws);
    RowMeasurementsAppend([D.Blank] + tests, D.FooterRows, parseFloat);
    RowMeasurementsAppend([D.Blank], tests, parseFloat);
    var mb := F.RowMeasurements([D.Blank], 4, 7, parseFloat);
    var mt := F.RowMeasurements(tests, 4, 7, parseFloat);
    var mf := F.RowMeasurements(D.FooterRows, 4, 7, parseFloat);
    KeptAppend(mb + mt, mf);
    KeptAppend(mb, mt);
    FillerRowsNoMeasurement(parseFloat);
    TestRowMeasurements(ws, parseFloat);
  }

  // ------------------------------------------------------------------
  // The tester serial number
  // ------------------------------------------------------------------

  /** A cell that cannot set the tester serial number: not a key, or a key
      that does not name "SERIAL". */
  predicate NoSerialKey(cell: string) {
    !F.IsKeyCell(cell) || !Contains(Upper(Strip(cell)), "SERIAL")
  }

  /** Cells of the left five columns without a serial key leave the tester
      serial number as it was. */
  lemma {:induction false} ScanCellsKeepSerial(m: F.Metadata, row: F.Row, n: nat)
    requires n <= |row|
    requires forall i :: 0 <= i < n && i < 5 ==> NoSerialKey(row[i])
    ensures F.ScanCells(m, row, n).testerSn == m.testerSn
  {
    if n > 0 {
      ScanCellsKeepSerial(m, row, n - 1);
      var before := F.ScanCells(m, row, n - 1);
      if n - 1 >= 5 {
        F.SerialOnlyInLeftColumns(before, row, n - 1);
      } else {
        CellKeepsSerial(before, row, n - 1);
      }
    }
  }

  /** A cell without a serial key leaves the tester serial number as it
      was. */
  lemma CellKeepsSerial(m: F.Metadata, row: F.Row, i: nat)
    requires i < |row| && NoSerialKey(row[i])
    ensures F.CellStep(m, row, i).testerSn == m.testerSn
  {
    if F.IsKeyCell(row[i]) {
      var slot := F.KeySlot(Upper(Strip(row[i])), i, m);
      assert slot != F.SerialSlot;
      assert F.Field(F.CellStep(m, row, i), F.SerialSlot) == F.Field(m, F.SerialSlot);
    }
  }

  /** The first four cells of a row, none a serial key, leave the tester
      serial number as it was. */
  lemma FourCellsKeepSerial(m: F.Metadata, row: F.Row)
    requires |row| >= 4
    requires NoSerialKey(row[0]) && NoSerialKey(row[1]) && NoSerialKey(row[2]) && NoSerialKey(row[3])
    ensures F.ScanCells(m, row, 4).testerSn == m.testerSn
  {
    assert F.ScanCells(m, row, 1) == F.CellStep(m, row, 0);
    CellKeepsSerial(m, row, 0);
    CellKeepsSerial(F.ScanCells(m, row, 1), row, 1);
    CellKeepsSerial(F.ScanCells(m, row, 2), row, 2);
    CellKeepsSerial(F.ScanCells(m, row, 3), row, 3);
  }

  /** A row without a serial key in its left five columns leaves the
      tester serial number as it was. */
  lemma RowKeepsSerial(m: F.Metadata, row: F.Row)
    requires forall i :: 0 <= i < |row| && i < 5 ==> NoSerialKey(row[i])
    ensures F.RowStep(m, row).testerSn == m.testerSn
  {
    if |row| >= 2 {
      ScanCellsKeepSerial(m, row, |row|);
    }
  }

  /** Rows without a serial key in their left five columns leave the
      tester serial number as it was. */
  lemma {:induction false} ScanRowsKeepSerial(m: F.Metadata, rows: seq<F.Row>)
    requires forall j, i :: 0 <= j < |rows| && 0 <= i < |rows[j]| && i < 5 ==> NoSerialKey(rows[j][i])
    ensures F.ScanRows(m, rows).testerSn == m.testerSn
  {
    if rows != [] {
      var init := rows[..|rows| - 1];
      assert forall j :: 0 <= j < |init| ==> init[j] == rows[j];
      ScanRowsKeepSerial(m, init);
      RowKeepsSerial(F.ScanRows(m, init), rows[|rows| - 1]);
    }
  }

  /** A cell without ':' is no key; a key without an 's' names no serial
      number. */
  lemma NoSerialText(cell: string)
    requires ':' !in cell || ('S' !in cell && 's' !in cell && !IsSpace(cell[0]) && !IsSpace(cell[|cell| - 1]))
    ensures NoSerialKey(cell)
  {
    if ':' in cell {
      StripKeeps(cell);
      NoLetterNoWord(cell, "SERIAL", 'S');
    }
  }

  /** No cell of the test setup title rows is a key. */
  lemma HeadRowsKeepSerial(m: F.Metadata)
    ensures F.ScanRows(m, D.HeadRows).testerSn == m.testerSn
  {
    var head := D.HeadRows;
    forall j, i | 0 <= j < |head| && 0 <= i < |head[j]|
      ensures NoSerialKey(head[j][i])
    {
      NoSerialText(head[j][i]);
    }
    ScanRowsKeepSerial(m, head);
  }

  /** A cell whose characters show it names no serial key: it has no ':',
      or it has no 's' in either case and no surrounding white space. */
  predicate NoSerialChars(cell: string) {
    ':' !in cell || ('S' !in cell && 's' !in cell && !IsSpace(cell[0]) && !IsSpace(cell[|cell| - 1]))
  }

  /** A cell whose characters show it is a serial key naming no field
      checked before the serial number: it holds ':', starts with
      "Serial", has no surrounding white space and no 'O', 'Q' or 'T' in
      either case. */
  predicate SerialKeyChars(cell: string) {
    ':' in cell && |cell| >= 6 && cell[..6] == "Serial"
    && !IsSpace(cell[0]) && !IsSpace(cell[|cell| - 1])
    && 'O' !in cell && 'o' !in cell && 'Q' !in cell && 'q' !in cell && 'T' !in cell && 't' !in cell
  }

  /** A key naming a serial number and none of the fields checked before
      it. */
  predicate SerialKeyText(cell: string) {
    var key := Upper(Strip(cell));
    F.IsKeyCell(cell) && Contains(key, "SERIAL")
    && !Contains(key, "OPERATOR") && !Contains(key, "EQUIPMENT") && !Contains(key, "ASSET")
  }

  lemma SerialKeyOfChars(cell: string)
    requires SerialKeyChars(cell)
    ensures SerialKeyText(cell)
  {
    StripKeeps(cell);
    var key := Upper(cell);
    NoLetterNoWord(cell, "OPERATOR", 'O');
    NoLetterNoWord(cell, "EQUIPMENT", 'Q');
    NoLetterNoWord(cell, "ASSET", 'T');
    assert key[..6] == Upper(cell[..6]);
    assert key[..6] == "SERIAL";
    PrefixContained(key, "SERIAL");
  }

  /** A pair row whose left five cells hold no serial key leaves the
      tester serial number as it was. */
  lemma PairKeepsSerial(m: F.Metadata, row: F.Row)
    requires |row| == 8 && row[1] == "" && row[3] == ""
    requires NoSerialChars(row[0]) && NoSerialKey(row[2]) && NoSerialChars(row[4])
    ensures F.RowStep(m, row).testerSn == m.testerSn
  {
    NoSerialText(row[0]);
    NoSerialText(row[4]);
    FourCellsKeepSerial(m, row);
    CellKeepsSerial(F.ScanCells(m, row, 4), row, 4);
    F.SerialOnlyInLeftColumns(F.ScanCells(m, row, 5), row, 5);
    F.SerialOnlyInLeftColumns(F.ScanCells(m, row, 6), row, 6);
    F.SerialOnlyInLeftColumns(F.ScanCells(m, row, 7), row, 7);
  }

  /** A serial key in the left five columns fills an empty tester serial
      number with the value beside it. */
  lemma SerialCellSets(m: F.Metadata, row: F.Row, i: nat)
    requires i < 5 && i < |row| && SerialKeyText(row[i]) && m.testerSn == ""
    ensures F.CellStep(m, row, i).testerSn == F.MetaValue(row, i)
  {
    assert F.KeySlot(Upper(Strip(row[i])), i, m) == F.SerialSlot;
  }

  /** The value of the key in column 4 of a pair row is column 6. */
  lemma PairValue(row: F.Row)
    requires |row| == 8 && Strip(row[6]) != ""
    ensures F.MetaValue(row, 4) == Strip(row[6])
  {
  }

  /** A pair row whose first four cells hold no serial key and whose fifth
      is a serial key sets an empty tester serial number to the value two
      cells to the right. */
  lemma PairSetsSerial(m: F.Metadata, row: F.Row)
    requires |row| == 8 && row[1] == "" && row[3] == ""
    requires NoSerialChars(row[0]) && NoSerialKey(row[2])
    requires SerialKeyChars(row[4]) && Strip(row[6]) != ""
    requires m.testerSn == ""
    ensures F.RowStep(m, row).testerSn == Strip(row[6])
  {
    FirstFiveSetSerial(m, row);
    F.SerialOnlyInLeftColumns(F.ScanCells(m, row, 5), row, 5);
    F.SerialOnlyInLeftColumns(F.ScanCells(m, row, 6), row, 6);
    F.SerialOnlyInLeftColumns(F.ScanCells(m, row, 7), row, 7);
  }

  lemma FirstFiveSetSerial(m: F.Metadata, row: F.Row)
    requires |row| == 8 && row[1] == "" && row[3] == ""
    requires NoSerialChars(row[0]) && NoSerialKey(row[2])
    requires SerialKeyChars(row[4]) && Strip(row[6]) != ""
    requires m.testerSn == ""
    ensures F.ScanCells(m, row, 5).testerSn == Strip(row[6])
  {
    NoSerialText(row[0]);
    FourCellsKeepSerial(m, row);
    SerialKeyOfChars(row[4]);
    SerialCellSets(F.ScanCells(m, row, 4), row, 4);
    PairValue(row);
  }

  lemma OperatorLabel()
    ensures NoSerialChars("Operator ID :")
  {
  }

  lemma EquipmentLabel()
    ensures NoSerialChars("Equipment Number :")
  {
  }

  lemma CalibrationTechLabel()
    ensures NoSerialChars("Calibration Tech :")
  {
  }

  lemma SerialLabelLetters()
    ensures var cell := "Serial Number :";
      'O' !in cell && 'o' !in cell && 'Q' !in cell && 'q' !in cell && 'T' !in cell && 't' !in cell
  {
  }

  lemma SerialLabel()
    ensures SerialKeyChars("Serial Number :")
  {
    var cell := "Serial Number :";
    SerialLabelLetters();
    assert cell[..6] == "Serial" by {
      assert cell[0] == 'S' && cell[1] == 'e' && cell[2] == 'r' && cell[3] == 'i' && cell[4] == 'a' && cell[5] == 'l';
    }
  }

  /** The operator row: "Operator ID :" and "Equipment Number :" have no
      's'. */
  lemma OperatorPair(operator: string, equipment: string)
    ensures var row := D.Pair("Operator ID :", operator, "Equipment Number :", equipment);
      && |row| == 8 && row[1] == "" && row[3] == "" && row[2] == operator
      && NoSerialChars(row[0]) && NoSerialChars(row[4])
  {
    OperatorLabel();
    EquipmentLabel();
  }

  lemma OperatorRowCells(h: map<string, string>)
    ensures var row := D.DutRows(h)[0];
      && |row| == 8 && row[1] == "" && row[3] == "" && row[2] == Get(h, "ESA615OPID", "")
      && NoSerialChars(row[0]) && NoSerialChars(row[4])
  {
    OperatorPair(Get(h, "ESA615OPID", ""), Get(h, "DUTEQUIPNUM", ""));
    assert D.DutRows(h)[0] == D.Pair("Operator ID :", Get(h, "ESA615OPID", ""), "Equipment Number :", Get(h, "DUTEQUIPNUM", ""));
  }

  /** The calibration row: "Calibration Tech :" has no 's', and
      "Serial Number :" in the fifth column is a serial key beside the
      device's serial number. */
  lemma CalibrationPair(tech: string, serial: string)
    ensures var row := D.Pair("Calibration Tech :", tech, "Serial Number :", serial);
      && |row| == 8 && row[1] == "" && row[3] == "" && row[2] == tech
      && NoSerialChars(row[0]) && SerialKeyChars(row[4]) && row[6] == serial
  {
    CalibrationTechLabel();
    SerialLabel();
  }

  lemma CalibrationRowCells(h: map<string, string>)
    ensures var row := D.DutRows(h)[1];
      && |row| == 8 && row[1] == "" && row[3] == "" && row[2] == Get(h, "ESA615CALTECH", "")
      && NoSerialChars(row[0]) && SerialKeyChars(row[4]) && row[6] == Get(h, "DUTSN", "")
  {
    CalibrationPair(Get(h, "ESA615CALTECH", ""), Get(h, "DUTSN", ""));
    assert D.DutRows(h)[1] == D.Pair("Calibration Tech :", Get(h, "ESA615CALTECH", ""), "Serial Number :", Get(h, "DUTSN", ""));
  }

  /** The first twenty rows of the setup section: the title rows, the
      operator row, the calibration row, then the rest. */
  lemma SetupPrefix(head: seq<F.Row>, dut: seq<F.Row>, job: seq<F.Row>, template: seq<F.Row>, settings: seq<F.Row>, plc: seq<F.Row>)
    requires |head| == 3 && |dut| == 6 && |job| == 3 && |template| == 3 && |settings| == 7
    ensures (head + dut + job + template + settings + plc)[..20]
      == head + [dut[0]] + [dut[1]] + (dut[2..] + job + template + settings[..5])
  {
  }

  /** Under the title rows, a pair row without serial keys and then a pair
      row with a serial key in its fifth column: the tester serial number
      read is the value beside that key. */
  lemma PairRowsSerial(d0: F.Row, d1: F.Row)
    requires |d0| == 8 && d0[1] == "" && d0[3] == ""
    requires NoSerialChars(d0[0]) && NoSerialKey(d0[2]) && NoSerialChars(d0[4])
    requires |d1| == 8 && d1[1] == "" && d1[3] == ""
    requires NoSerialChars(d1[0]) && NoSerialKey(d1[2])
    requires SerialKeyChars(d1[4]) && Strip(d1[6]) != ""
    ensures F.ScanRows(F.NoMetadata, D.HeadRows + [d0] + [d1]).testerSn == Strip(d1[6])
  {
    var first := D.HeadRows + [d0];
    F.ScanRowsAppend(F.NoMetadata, first, [d1]);
    F.ScanRowsAppend(F.NoMetadata, D.HeadRows, [d0]);
    HeadRowsKeepSerial(F.NoMetadata);
    var m3 := F.ScanRows(F.NoMetadata, D.HeadRows);
    PairKeepsSerial(m3, d0);
    assert F.ScanRows(m3, [d0]) == F.RowStep(m3, d0);
    var m4 := F.ScanRows(F.NoMetadata, first);
    PairSetsSerial(m4, d1);
    assert F.ScanRows(m4, [d1]) == F.RowStep(m4, d1);
  }

  /** Once found, the tester serial number survives any further rows. */
  lemma SerialSurvives(first: seq<F.Row>, rest: seq<F.Row>)
    requires F.ScanRows(F.NoMetadata, first).testerSn != ""
    ensures F.ScanRows(F.NoMetadata, first + rest).testerSn == F.ScanRows(F.NoMetadata, first).testerSn
  {
    F.ScanRowsAppend(F.NoMetadata, first, rest);
    var m := F.ScanRows(F.NoMetadata, first);
    F.ScanRowsExtends(m, rest);
    assert F.Field(m, F.SerialSlot) != "";
  }

  /** The tester serial number the parser reads from the setup section is
      the serial number of the device under test: the "Serial Number :"
      beside it is the first serial key in the left five columns, and a
      field once found keeps its value, so the tester's own
      "Serial Number :" row below is never read. */
  lemma SetupSerial(h: map<string, string>)
    requires NoSerialKey(Get(h, "ESA615OPID", "")) && NoSerialKey(Get(h, "ESA615CALTECH", ""))
    requires Strip(Get(h, "DUTSN", "")) != ""
    ensures F.ScanRows(F.NoMetadata, D.SetupRows(h)[..20]).testerSn == Strip(Get(h, "DUTSN", ""))
  {
    var dut := D.DutRows(h);
    var rest := dut[2..] + D.JobRows + D.TemplateRows(h) + D.SettingRows(h)[..5];
    SetupPrefix(D.HeadRows, dut, D.JobRows, D.TemplateRows(h), D.SettingRows(h), D.PlcRows);
    OperatorRowCells(h);
    CalibrationRowCells(h);
    PairRowsSerial(dut[0], dut[1]);
    SerialSurvives(D.HeadRows + [dut[0]] + [dut[1]], rest);
  }

  // ------------------------------------------------------------------
  // The whole round
  // ------------------------------------------------------------------

  /** The metadata of a file is that of its first twenty rows. */
  lemma MetadataOfPrefix(before: seq<F.Row>, rest: seq<F.Row>)
    requires |before| >= F.MetadataRows
    ensures F.MetadataOf(before + rest) == F.ScanRows(F.NoMetadata, before[..F.MetadataRows])
  {
    assert (before + rest)[..F.MetadataRows] == before[..F.MetadataRows];
  }

  /** The first twenty rows before the results header are setup rows. */
  lemma BeforePrefix(h: map<string, string>, parts: seq<D.AppliedPart>)
    ensures Before(h, parts)[..F.MetadataRows] == D.SetupRows(h)[..F.MetadataRows]
  {
  }

  /** Once the results header is found, with its value in column 4 and
      its status in column 7, the parse fails only for missing metadata
      and otherwise reads the rows below the header. */
  lemma ParseWithHeader(rows: seq<F.Row>, ext: F.Externals, h: nat)
    requires |rows| >= 10 && F.ResultsHeaderIndex(rows) == Some(h)
    requires F.ColumnMap(rows[h]) == (4, 7)
    ensures var meta := F.MetadataOf(rows);
      var r := F.ParseFlukeRows(rows, ext);
      && (r.Failure? ==> MissingMetadata(r.error))
      && (r.Failure? && meta.testerSn != "" ==> r.error == "Missing Equipment Number" || r.error == "Missing Template Name")
      && (r.Success? ==>
            r.value.testerSn == meta.testerSn
            && r.value.measurements == F.MeasurementsOf(rows[h + 1..], 4, 7, ext.parseFloat))
  {
    var meta := F.MetadataOf(rows);
    ParseCases(rows, ext);
    ResultsWithHeader(rows, meta, F.TestDate(meta.testDate, ext), ext.parseFloat, h);
  }

  /** The metadata checks of the parse: with complete metadata the parse
      is the reading of the results; otherwise it fails for the first
      missing field. */
  lemma ParseCases(rows: seq<F.Row>, ext: F.Externals)
    requires |rows| >= 10
    ensures var meta := F.MetadataOf(rows);
      var r := F.ParseFlukeRows(rows, ext);
      if meta.equipment != "" && meta.testerSn != "" && meta.template != "" then
        r == F.ResultsOf(rows, meta, F.TestDate(meta.testDate, ext), ext.parseFloat)
      else
        r.Failure? && MissingMetadata(r.error)
        && (meta.testerSn != "" ==> r.error == "Missing Equipment Number" || r.error == "Missing Template Name")
  {
  }

  /** With the results header found, the results carry the measurements
      of the rows below it. */
  lemma ResultsWithHeader(rows: seq<F.Row>, meta: F.Metadata, dt: F.Date, parseFloat: string -> Option<real>, h: nat)
    requires F.ResultsHeaderIndex(rows) == Some(h) && F.ColumnMap(rows[h]) == (4, 7)
    ensures F.ResultsOf(rows, meta, dt, parseFloat).Success?
    ensures F.ResultsOf(rows, meta, dt, parseFloat).value.measurements == F.MeasurementsOf(rows[h + 1..], 4, 7, parseFloat)
  {
  }

  /** The errors of the metadata checks. */
  predicate MissingMetadata(error: string) {
    error == "Missing Equipment Number" || error == "Missing Tester S/N" || error == "Missing Template Name"
  }

  /** What the parse of a converted file reports: it fails only for a
      missing equipment number or template name, and when it succeeds it
      carries the given tester serial number and measurements. */
  predicate ParsedAs(r: Result<F.FlukeParsed, string>, testerSn: string, ms: seq<F.Measurement>) {
    && (r.Failure? ==> r.error == "Missing Equipment Number" || r.error == "Missing Template Name")
    && (r.Success? ==> r.value.testerSn == testerSn && r.value.measurements == ms)
  }

  /** Parsing rows laid out as a converted file: metadata rows that name a
      tester serial number, no results header before the one written, and
      the rows after it. */
  lemma ParsedFile(before: seq<F.Row>, header: F.Row, after: seq<F.Row>, ext: F.Externals, testerSn: string, ms: seq<F.Measurement>)
    requires NoHeaderRows(before) && |before| >= F.MetadataRows
    requires F.IsResultsHeader(header) && F.ColumnMap(header) == (4, 7)
    requires F.ScanRows(F.NoMetadata, before[..F.MetadataRows]).testerSn == testerSn && testerSn != ""
    requires F.MeasurementsOf(after, 4, 7, ext.parseFloat) == ms
    ensures ParsedAs(F.ParseFlukeRows(before + [header] + after, ext), testerSn, ms)
  {
    var rows := before + [header] + after;
    FileLayout(before, header, after);
    ParsedFrom(rows, ext, |before|, testerSn, ms);
  }

  /** Where the parser finds the parts of rows laid out as a converted
      file. */
  lemma FileLayout(before: seq<F.Row>, header: F.Row, after: seq<F.Row>)
    requires NoHeaderRows(before) && |before| >= F.MetadataRows
    requires F.IsResultsHeader(header) && F.ColumnMap(header) == (4, 7)
    ensures var rows := before + [header] + after;
      && |rows| >= 10 && F.ResultsHeaderIndex(rows) == Some(|before|)
      && F.ColumnMap(rows[|before|]) == (4, 7) && rows[|before| + 1..] == after
      && F.MetadataOf(rows) == F.ScanRows(F.NoMetadata, before[..F.MetadataRows])
  {
    HeaderFoundAt(before, header, after);
    AroundHeader(before, header, after);
    MetadataAround(before, header, after);
  }

  lemma AroundHeader(before: seq<F.Row>, header: F.Row, after: seq<F.Row>)
    ensures var rows := before + [header] + after;
      rows[|before|] == header && rows[|before| + 1..] == after
  {
    var rows := before + [header] + after;
    assert rows[|before|] == header;
    assert rows[|before| + 1..] == after;
  }

  lemma MetadataAround(before: seq<F.Row>, header: F.Row, after: seq<F.Row>)
    requires |before| >= F.MetadataRows
    ensures F.MetadataOf(before + [header] + after) == F.ScanRows(F.NoMetadata, before[..F.MetadataRows])
  {
    MetadataOfPrefix(before, [header] + after);
    assert before + [header] + after == before + ([header] + after);
  }

  /** The parse of rows whose results header is found, with its value in
      column 4 and its status in column 7, and whose metadata names a
      tester serial number. */
  lemma ParsedFrom(rows: seq<F.Row>, ext: F.Externals, h: nat, testerSn: string, ms: seq<F.Measurement>)
    requires |rows| >= 10 && F.ResultsHeaderIndex(rows) == Some(h) && F.ColumnMap(rows[h]) == (4, 7)
    requires F.MetadataOf(rows).testerSn == testerSn && testerSn != ""
    requires F.MeasurementsOf(rows[h + 1..], 4, 7, ext.parseFloat) == ms
    ensures ParsedAs(F.ParseFlukeRows(rows, ext), testerSn, ms)
  {
    ParseWithHeader(rows, ext, h);
  }

  /** Parsing a converted file: the results header is always found, so the
      parse fails only for a missing equipment number or template name;
      when it succeeds the tester serial number is the device's and the
      measurements are exactly those of the written tests, in order. */
  lemma ConvertedFileParses(h: map<string, string>, results: seq<D.TestRecord>, parts: seq<D.AppliedPart>, ext: F.Externals)
    requires NoTestNamePart(parts)
    requires NoSerialKey(Get(h, "ESA615OPID", "")) && NoSerialKey(Get(h, "ESA615CALTECH", ""))
    requires Strip(Get(h, "DUTSN", "")) != ""
    ensures var r := F.ParseFlukeRows(D.CsvRows(h, results, parts), ext);
      && (r.Failure? ==> r.error == "Missing Equipment Number" || r.error == "Missing Template Name")
      && (r.Success? ==>
            r.value.testerSn == Strip(Get(h, "DUTSN", ""))
            && r.value.measurements == F.Kept(TestMeasurements(D.WrittenTests(results), ext.parseFloat)))
  {
    var ws := D.WrittenTests(results);
    CsvRowsAround(h, results, parts);
    BeforeNotHeader(h, parts);
    HeaderRowIsResultsHeader();
    ResultsHeaderColumns();
    BeforePrefix(h, parts);
    SetupSerial(h);
    ReadBack(ws, ext.parseFloat);
    ParsedFile(Before(h, parts), D.ResultsHeaderRow, AfterHeader(ws), ext,
      Strip(Get(h, "DUTSN", "")), F.Kept(TestMeasurements(ws, ext.parseFloat)));
  }
}

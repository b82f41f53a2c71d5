/** The parsing layer: from the decoded rows of a Fluke ESA615 export to
    the parsed record of one test, or to the error message the converter
    reports. The file is read under an ordered list of encodings; the
    metadata comes from key cells in the first twenty rows; the results
    table starts at the first "Test Name" row that names a value column;
    each later row with a recognised group and a numeric value becomes a
    measurement. */
module FlukeParser {
  import opened Base
  import opened PyText
  import opened Rules

  /** A row of the export as the text of its cells. */
  type Row = seq<string>

  datatype PassFail = Pass | Fail

  /** A calendar date, as the date parser produces it. */
  datatype Date = Date(day: nat, month: nat, year: nat)

  datatype Measurement = Measurement(group: Group, cond: Condition, subtest: string, value: real, pf: PassFail)

  /** The five metadata fields; "" while not yet found. */
  datatype Metadata = Metadata(operator: string, equipment: string, testerSn: string, template: string, testDate: string)

  datatype FlukeParsed = FlukeParsed(
    operator: string, equipment: string, testerSn: string, template: string,
    dt: Date, measurements: seq<Measurement>)

  /** What the parser takes from outside: `float()` on a cleaned value,
      the date parser on the metadata date, and the current date used when
      there is none or it does not parse. */
  datatype Externals = Externals(parseFloat: string -> Option<real>, parseDate: string -> Option<Date>, now: Date)

  // ------------------------------------------------------------------
  // clean_value
  // ------------------------------------------------------------------

  /** The characters `clean_value` removes: ASCII letters, white space
      and the signs '<', '>' and '='. */
  predicate IsUnitChar(c: char) {
    IsAsciiLetter(c) || IsSpace(c) || c == '<' || c == '>' || c == '='
  }

  /** The value text with every unit character removed, order kept. */
  function NumericChars(s: string): (t: string)
    ensures |t| <= |s|
    ensures forall i :: 0 <= i < |t| ==> !IsUnitChar(t[i])
  {
    if s == [] then []
    else if IsUnitChar(s[0]) then NumericChars(s[1..])
    else [s[0]] + NumericChars(s[1..])
  }

  /** A text without unit characters is kept whole. */
  lemma {:induction false} NumericCharsKeeps(s: string)
    requires forall i :: 0 <= i < |s| ==> !IsUnitChar(s[i])
    ensures NumericChars(s) == s
  {
    if s != [] {
      NumericCharsKeeps(s[1..]);
    }
  }

  /** Removing unit characters twice removes nothing more. */
  lemma NumericCharsIdempotent(s: string)
    ensures NumericChars(NumericChars(s)) == NumericChars(s)
  {
    NumericCharsKeeps(NumericChars(s));
  }

  /** Unit characters around a value do not change the cleaned text. */
  lemma {:induction false} NumericCharsAppend(a: string, b: string)
    ensures NumericChars(a + b) == NumericChars(a) + NumericChars(b)
  {
    if a != [] {
      assert (a + b)[0] == a[0];
      assert (a + b)[1..] == a[1..] + b;
      NumericCharsAppend(a[1..], b);
      if IsUnitChar(a[0]) {
        assert NumericChars(a + b) == NumericChars(a[1..] + b);
      } else {
        assert NumericChars(a + b) == [a[0]] + NumericChars(a[1..] + b);
        assert NumericChars(a) == [a[0]] + NumericChars(a[1..]);
      }
    } else {
      assert a + b == b;
    }
  }

  /** `clean_value`: no value for an empty cell; otherwise `float()` of the
      text left after removing unit characters and stripping. */
  function CleanValue(s: string, parseFloat: string -> Option<real>): (v: Option<real>)
    ensures s == "" ==> v.None?
    ensures s != "" ==> v == parseFloat(NumericChars(s))
  {
    if s == "" then None
    else
      var cleaned := NumericChars(s);
      StripKeeps(cleaned);
      parseFloat(Strip(cleaned))
  }

  // ------------------------------------------------------------------
  // _find_results_column_map
  // ------------------------------------------------------------------

  datatype ColumnKind = ValueColumn | StatusColumn {
    /** The column the parser uses when no header cell names one. */
    function Default(): nat {
      match this
      case ValueColumn => 5
      case StatusColumn => 8
    }
  }

  /** A nonempty header cell naming a value column ("VALUE", "RESULT") or
      a status column ("STATUS", "PASS", "P/F"), in any case. */
  predicate NamesColumn(kind: ColumnKind, cell: string) {
    cell != "" &&
    match kind
    case ValueColumn => Contains(Upper(cell), "VALUE") || Contains(Upper(cell), "RESULT")
    case StatusColumn => Contains(Upper(cell), "STATUS") || Contains(Upper(cell), "PASS") || Contains(Upper(cell), "P/F")
  }

  /** The last of the first `n` cells that names a column of the kind, or
      the kind's default when none does. */
  function LastColumn(header: Row, n: nat, kind: ColumnKind): (c: nat)
    requires n <= |header|
    ensures (forall j :: 0 <= j < n ==> !NamesColumn(kind, header[j])) ==> c == kind.Default()
    ensures (exists j :: 0 <= j < n && NamesColumn(kind, header[j])) ==>
      c < n && NamesColumn(kind, header[c]) && forall j :: c < j < n ==> !NamesColumn(kind, header[j])
  {
    if n == 0 then kind.Default()
    else if NamesColumn(kind, header[n - 1]) then n - 1
    else LastColumn(header, n - 1, kind)
  }

  /** One more header cell moves the column to it exactly when it names
      the column. */
  lemma LastColumnStep(header: Row, n: nat, kind: ColumnKind)
    requires n < |header|
    ensures LastColumn(header, n + 1, kind) == if NamesColumn(kind, header[n]) then n else LastColumn(header, n, kind)
  {
  }

  /** The (value, status) columns of a results header. */
  function ColumnMap(header: Row): (nat, nat)
  {
    (LastColumn(header, |header|, ValueColumn), LastColumn(header, |header|, StatusColumn))
  }

  /** `_find_results_column_map`: one pass over the header cells, each
      match moving the column to the right. */
  method FindResultsColumnMap(header: Row) returns (valueCol: nat, statusCol: nat)
    ensures (valueCol, statusCol) == ColumnMap(header)
  {
    valueCol := 5;
    statusCol := 8;
    var idx := 0;
    while idx < |header|
      invariant 0 <= idx <= |header|
      invariant valueCol == LastColumn(header, idx, ValueColumn)
      invariant statusCol == LastColumn(header, idx, StatusColumn)
    {
      var cell := header[idx];
      LastColumnStep(header, idx, ValueColumn);
      LastColumnStep(header, idx, StatusColumn);
      if cell != "" {
        var upper := Upper(cell);
        if Contains(upper, "VALUE") || Contains(upper, "RESULT") {
          valueCol := idx;
        }
        if Contains(upper, "STATUS") || Contains(upper, "PASS") || Contains(upper, "P/F") {
          statusCol := idx;
        }
      }
      idx := idx + 1;
    }
  }

  // ------------------------------------------------------------------
  // Metadata
  // ------------------------------------------------------------------

  /** Rows searched for metadata. */
  const MetadataRows: nat := 20

  const NoMetadata := Metadata("", "", "", "", "")

  /** The stripped text of cell `j`, "" past the end of the row. */
  function CellText(row: Row, j: nat): (t: string)
    ensures j >= |row| ==> t == ""
  {
    if j < |row| then Strip(row[j]) else ""
  }

  /** The value of the key in cell `i`: two cells to the right (one when
      that is past the end), falling back to the next cell when empty. */
  function MetaValue(row: Row, i: nat): string {
    var first := CellText(row, if i + 2 < |row| then i + 2 else i + 1);
    if first != "" then first else CellText(row, i + 1)
  }

  /** A cell is a key when it is nonempty and holds a ':'. */
  predicate IsKeyCell(cell: string) {
    cell != "" && ':' in cell
  }

  /** The metadata fields a key can fill. */
  datatype Slot = OperatorSlot | EquipmentSlot | SerialSlot | TemplateSlot | DateSlot | NoSlot

  /** The text of a field of the metadata. */
  function Field(m: Metadata, slot: Slot): string {
    match slot
    case OperatorSlot => m.operator
    case EquipmentSlot => m.equipment
    case SerialSlot => m.testerSn
    case TemplateSlot => m.template
    case DateSlot => m.testDate
    case NoSlot => ""
  }

  /** The field an upper-cased key in column `i` fills: the first of
      operator, equipment or asset, serial (left five columns only),
      template, date and time that the key names and that is still empty. */
  function KeySlot(key: string, i: nat, m: Metadata): (slot: Slot)
    ensures slot != NoSlot ==> Field(m, slot) == ""
    ensures slot == OperatorSlot <==> Contains(key, "OPERATOR") && m.operator == ""
    ensures slot == EquipmentSlot <==>
      !(Contains(key, "OPERATOR") && m.operator == "")
      && (Contains(key, "EQUIPMENT") || Contains(key, "ASSET")) && m.equipment == ""
    ensures slot == SerialSlot <==>
      !(Contains(key, "OPERATOR") && m.operator == "")
      && !((Contains(key, "EQUIPMENT") || Contains(key, "ASSET")) && m.equipment == "")
      && Contains(key, "SERIAL") && i < 5 && m.testerSn == ""
    ensures slot == TemplateSlot <==>
      !(Contains(key, "OPERATOR") && m.operator == "")
      && !((Contains(key, "EQUIPMENT") || Contains(key, "ASSET")) && m.equipment == "")
      && !(Contains(key, "SERIAL") && i < 5 && m.testerSn == "")
      && Contains(key, "TEMPLATE") && m.template == ""
    ensures slot == DateSlot <==>
      !(Contains(key, "OPERATOR") && m.operator == "")
      && !((Contains(key, "EQUIPMENT") || Contains(key, "ASSET")) && m.equipment == "")
      && !(Contains(key, "SERIAL") && i < 5 && m.testerSn == "")
      && !(Contains(key, "TEMPLATE") && m.template == "")
      && Contains(key, "DATE") && Contains(key, "TIME") && m.testDate == ""
  {
    if Contains(key, "OPERATOR") && m.operator == "" then OperatorSlot
    else if (Contains(key, "EQUIPMENT") || Contains(key, "ASSET")) && m.equipment == "" then EquipmentSlot
    else if Contains(key, "SERIAL") && i < 5 && m.testerSn == "" then SerialSlot
    else if Contains(key, "TEMPLATE") && m.template == "" then TemplateSlot
    else if Contains(key, "DATE") && Contains(key, "TIME") && m.testDate == "" then DateSlot
    else NoSlot
  }

  /** The metadata with one field set; every other field unchanged. */
  function Fill(m: Metadata, slot: Slot, value: string): (n: Metadata)
    ensures slot != NoSlot ==> Field(n, slot) == value
    ensures forall other :: other != slot ==> Field(n, other) == Field(m, other)
  {
    match slot
    case OperatorSlot => m.(operator := value)
    case EquipmentSlot => m.(equipment := value)
    case SerialSlot => m.(testerSn := value)
    case TemplateSlot => m.(template := value)
    case DateSlot => m.(testDate := value)
    case NoSlot => m
  }

  /** The effect of cell `i` of a row on the metadata found so far: a key
      cell fills the field its upper-cased, stripped text selects with the
      value beside it. */
  function CellStep(m: Metadata, row: Row, i: nat): Metadata
    requires i < |row|
  {
    if !IsKeyCell(row[i]) then m
    else Fill(m, KeySlot(Upper(Strip(row[i])), i, m), MetaValue(row, i))
  }

  /** The first `n` cells of a row, left to right. */
  function ScanCells(m: Metadata, row: Row, n: nat): Metadata
    requires n <= |row|
  {
    if n == 0 then m else CellStep(ScanCells(m, row, n - 1), row, n - 1)
  }

  /** A row with fewer than two cells is skipped. */
  function RowStep(m: Metadata, row: Row): Metadata {
    if |row| < 2 then m else ScanCells(m, row, |row|)
  }

  function ScanRows(m: Metadata, rows: seq<Row>): Metadata {
    if rows == [] then m else RowStep(ScanRows(m, rows[..|rows| - 1]), rows[|rows| - 1])
  }

  function MetadataPrefix(rows: seq<Row>): (p: seq<Row>)
    ensures |p| <= MetadataRows && |p| <= |rows| && p == rows[..|p|]
    ensures |rows| >= MetadataRows ==> |p| == MetadataRows
    ensures |rows| < MetadataRows ==> p == rows
  {
    if |rows| < MetadataRows then rows else rows[..MetadataRows]
  }

  /** The metadata of a file: the first twenty rows scanned in order. */
  function MetadataOf(rows: seq<Row>): Metadata {
    ScanRows(NoMetadata, MetadataPrefix(rows))
  }

  /** Every field already found keeps its value: the first nonempty
      occurrence of a key wins. */
  predicate Extends(m: Metadata, n: Metadata) {
    forall slot :: Field(m, slot) != "" ==> Field(n, slot) == Field(m, slot)
  }

  lemma CellStepExtends(m: Metadata, row: Row, i: nat)
    requires i < |row|
    ensures Extends(m, CellStep(m, row, i))
  {
  }

  lemma {:induction false} ScanCellsExtends(m: Metadata, row: Row, n: nat)
    requires n <= |row|
    ensures Extends(m, ScanCells(m, row, n))
  {
    if n > 0 {
      ScanCellsExtends(m, row, n - 1);
      CellStepExtends(ScanCells(m, row, n - 1), row, n - 1);
    }
  }

  lemma RowStepExtends(m: Metadata, row: Row)
    ensures Extends(m, RowStep(m, row))
  {
    if |row| >= 2 {
      ScanCellsExtends(m, row, |row|);
    }
  }

  /** No later row can change a field once it is found. */
  lemma {:induction false} ScanRowsExtends(m: Metadata, rows: seq<Row>)
    ensures Extends(m, ScanRows(m, rows))
  {
    if rows != [] {
      ScanRowsExtends(m, rows[..|rows| - 1]);
      RowStepExtends(ScanRows(m, rows[..|rows| - 1]), rows[|rows| - 1]);
    }
  }

  /** Scanning two blocks of rows is scanning the first, then the second
      from where the first left off. */
  lemma {:induction false} ScanRowsAppend(m: Metadata, a: seq<Row>, b: seq<Row>)
    ensures ScanRows(m, a + b) == ScanRows(ScanRows(m, a), b)
  {
    if b == [] {
      assert a + b == a;
    } else {
      assert (a + b)[..|a + b| - 1] == a + b[..|b| - 1];
      ScanRowsAppend(m, a, b[..|b| - 1]);
    }
  }

  /** A serial-number key right of the fifth column never sets the tester
      serial number. */
  lemma SerialOnlyInLeftColumns(m: Metadata, row: Row, i: nat)
    requires 5 <= i < |row|
    ensures CellStep(m, row, i).testerSn == m.testerSn
  {
  }

  /** The metadata scan as the source runs it: rows, then cells of each
      row. */
  method ExtractMetadata(rows: seq<Row>) returns (m: Metadata)
    ensures m == MetadataOf(rows)
  {
    var prefix := MetadataPrefix(rows);
    m := NoMetadata;
    var r := 0;
    while r < |prefix|
      invariant 0 <= r <= |prefix|
      invariant m == ScanRows(NoMetadata, prefix[..r])
    {
      assert prefix[..r + 1][..r] == prefix[..r];
      var row := prefix[r];
      if |row| >= 2 {
        var i := 0;
        ghost var start := m;
        while i < |row|
          invariant 0 <= i <= |row|
          invariant m == ScanCells(start, row, i)
        {
          m := CellStep(m, row, i);
          i := i + 1;
        }
      }
      r := r + 1;
    }
    assert prefix[..r] == prefix;
  }

  // ------------------------------------------------------------------
  // Results header
  // ------------------------------------------------------------------

  /** The row that starts the results table: its first cell reads "TEST
      NAME" and some cell names a value or result. */
  predicate IsResultsHeader(row: Row) {
    |row| > 0 && Upper(Strip(row[0])) == "TEST NAME"
    && exists k :: 0 <= k < |row| && (Contains(Upper(row[k]), "VALUE") || Contains(Upper(row[k]), "RESULT"))
  }

  function FirstResultsHeaderFrom(rows: seq<Row>, i: nat): (h: Option<nat>)
    requires i <= |rows|
    ensures h.Some? ==> i <= h.value < |rows| && IsResultsHeader(rows[h.value])
    decreases |rows| - i
  {
    if i == |rows| then None
    else if IsResultsHeader(rows[i]) then Some(i)
    else FirstResultsHeaderFrom(rows, i + 1)
  }

  /** The search from row `i` stops at the first header row at or after
      `i`, and finds none only when there is none. */
  lemma {:induction false} FirstResultsHeaderIsFirst(rows: seq<Row>, i: nat)
    requires i <= |rows|
    ensures var h := FirstResultsHeaderFrom(rows, i);
      && (h.Some? ==> forall j :: i <= j < h.value ==> !IsResultsHeader(rows[j]))
      && (h.None? ==> forall j :: i <= j < |rows| ==> !IsResultsHeader(rows[j]))
    decreases |rows| - i
  {
    if i < |rows| && !IsResultsHeader(rows[i]) {
      var h := FirstResultsHeaderFrom(rows, i + 1);
      assert FirstResultsHeaderFrom(rows, i) == h;
      FirstResultsHeaderIsFirst(rows, i + 1);
      var limit := if h.Some? then h.value else |rows|;
      forall j | i <= j < limit
        ensures !IsResultsHeader(rows[j])
      {
        if j == i {
          assert !IsResultsHeader(rows[i]);
        } else {
          assert i + 1 <= j < limit;
        }
      }
    }
  }

  /** Index of the first results header, if any. */
  function ResultsHeaderIndex(rows: seq<Row>): (h: Option<nat>)
    ensures h.Some? ==> h.value < |rows| && IsResultsHeader(rows[h.value])
    ensures h.Some? ==> forall j :: 0 <= j < h.value ==> !IsResultsHeader(rows[j])
    ensures h.None? ==> forall j :: 0 <= j < |rows| ==> !IsResultsHeader(rows[j])
  {
    FirstResultsHeaderIsFirst(rows, 0);
    FirstResultsHeaderFrom(rows, 0)
  }

  method FindResultsHeader(rows: seq<Row>) returns (h: Option<nat>)
    ensures h == ResultsHeaderIndex(rows)
  {
    var idx := 0;
    while idx < |rows|
      invariant 0 <= idx <= |rows|
      invariant FirstResultsHeaderFrom(rows, 0) == FirstResultsHeaderFrom(rows, idx)
    {
      if IsResultsHeader(rows[idx]) {
        return Some(idx);
      }
      idx := idx + 1;
    }
    return None;
  }

  // ------------------------------------------------------------------
  // Measurement rows
  // ------------------------------------------------------------------

  function Max(a: int, b: int): int {
    if a < b then b else a
  }

  /** The test name split on '-' into stripped group, condition and
      subtest parts. */
  function NameParts(testName: string): (parts: seq<string>)
    ensures |parts| >= 1
  {
    StripAll(Split(testName, '-'))
  }

  /** The measurement one row after the results header yields, if any: the
      row must reach both columns, have a test name whose group part is
      recognised, and a value that cleans to a number. */
  function RowMeasurement(row: Row, valueCol: nat, statusCol: nat, parseFloat: string -> Option<real>): Option<Measurement>
  {
    if |row| <= Max(valueCol, statusCol) then None
    else
      var testName := Strip(row[0]);
      if testName == "" then None
      else
        var parts := NameParts(testName);
        var rawCond := if |parts| > 1 then parts[1] else "";
        var subtest := if |parts| > 2 then parts[2] else testName;
        match CanonicalGroup(parts[0])
        case None => None
        case Some(group) =>
          var cond := NormalizeCondition(rawCond);
          var value := CleanValue(Strip(row[valueCol]), parseFloat);
          var status := Upper(Strip(row[statusCol]));
          if value.None? then None
          else Some(Measurement(group, cond, subtest, value.value, if StartsWith(status, "P") then Pass else Fail))
  }

  /** What a kept measurement says about its row: the group the name's
      first part canonicalises to, the condition of its second part, the
      cleaned value of the value cell, and "Pass" exactly when the
      upper-cased status starts with "P". */
  lemma RowMeasurementMeaning(row: Row, valueCol: nat, statusCol: nat, parseFloat: string -> Option<real>)
    requires RowMeasurement(row, valueCol, statusCol, parseFloat).Some?
    ensures var m := RowMeasurement(row, valueCol, statusCol, parseFloat).value;
      var parts := NameParts(Strip(row[0]));
      && valueCol < |row| && statusCol < |row|
      && Strip(row[0]) != ""
      && CanonicalGroup(parts[0]) == Some(m.group)
      && m.cond == NormalizeCondition(if |parts| > 1 then parts[1] else "")
      && CleanValue(Strip(row[valueCol]), parseFloat) == Some(m.value)
      && (m.pf == Pass <==> StartsWith(Upper(Strip(row[statusCol])), "P"))
  {
  }

  /** Rows too short for the columns, and rows without a test name, give
      no measurement. */
  lemma SkippedRows(row: Row, valueCol: nat, statusCol: nat, parseFloat: string -> Option<real>)
    ensures |row| <= Max(valueCol, statusCol) ==> RowMeasurement(row, valueCol, statusCol, parseFloat).None?
    ensures |row| > 0 && Strip(row[0]) == "" ==> RowMeasurement(row, valueCol, statusCol, parseFloat).None?
  {
  }

  /** The measurement of each row, in order. */
  function RowMeasurements(rows: seq<Row>, valueCol: nat, statusCol: nat, parseFloat: string -> Option<real>): (ms: seq<Option<Measurement>>)
    ensures |ms| == |rows|
  {
    if rows == [] then []
    else RowMeasurements(rows[..|rows| - 1], valueCol, statusCol, parseFloat)
         + [RowMeasurement(rows[|rows| - 1], valueCol, statusCol, parseFloat)]
  }

  lemma {:induction false} RowMeasurementsAt(rows: seq<Row>, valueCol: nat, statusCol: nat, parseFloat: string -> Option<real>, j: nat)
    requires j < |rows|
    ensures RowMeasurements(rows, valueCol, statusCol, parseFloat)[j] == RowMeasurement(rows[j], valueCol, statusCol, parseFloat)
  {
    if j < |rows| - 1 {
      RowMeasurementsAt(rows[..|rows| - 1], valueCol, statusCol, parseFloat, j);
    }
  }

  /** The kept values, in order. */
  function Kept<T>(xs: seq<Option<T>>): (ys: seq<T>)
    ensures |ys| <= |xs|
  {
    if xs == [] then []
    else Kept(xs[..|xs| - 1]) + (if xs[|xs| - 1].Some? then [xs[|xs| - 1].value] else [])
  }

  /** Every kept value is one of the inputs. */
  lemma {:induction false} KeptFrom<T>(xs: seq<Option<T>>, y: T)
    requires y in Kept(xs)
    ensures Some(y) in xs
  {
    if xs != [] {
      var init := xs[..|xs| - 1];
      if y in Kept(init) {
        KeptFrom(init, y);
        assert Some(y) in init;
      } else {
        assert xs[|xs| - 1] == Some(y);
      }
    }
  }

  /** Every present input is kept. */
  lemma {:induction false} KeptAll<T>(xs: seq<Option<T>>, j: nat)
    requires j < |xs| && xs[j].Some?
    ensures xs[j].value in Kept(xs)
  {
    if j < |xs| - 1 {
      KeptAll(xs[..|xs| - 1], j);
    }
  }

  /** The measurements of the rows after the results header. */
  function MeasurementsOf(rows: seq<Row>, valueCol: nat, statusCol: nat, parseFloat: string -> Option<real>): seq<Measurement> {
    Kept(RowMeasurements(rows, valueCol, statusCol, parseFloat))
  }

  /** The measurement loop: each row's measurement, when there is one,
      appended in order. */
  method ParseMeasurements(ms: seq<Option<Measurement>>) returns (measurements: seq<Measurement>)
    ensures measurements == Kept(ms)
  {
    measurements := [];
    var k := 0;
    while k < |ms|
      invariant 0 <= k <= |ms|
      invariant measurements == Kept(ms[..k])
    {
      assert ms[..k + 1][..k] == ms[..k];
      if ms[k].Some? {
        measurements := measurements + [ms[k].value];
      }
      k := k + 1;
    }
    assert ms[..k] == ms;
  }

  // ------------------------------------------------------------------
  // parse_fluke_file after decoding
  // ------------------------------------------------------------------

  /** The test date: the parsed metadata date when there is one that
      parses, the current date otherwise. */
  function TestDate(testDate: string, ext: Externals): Date {
    if testDate != "" && ext.parseDate(testDate).Some? then ext.parseDate(testDate).value else ext.now
  }

  /** `parse_fluke_file` on decoded rows. The checks run in this order:
      too few rows, missing equipment, missing tester serial number,
      missing template, no results header. */
  function ParseFlukeRows(rows: seq<Row>, ext: Externals): (r: Result<FlukeParsed, string>)
    ensures |rows| < 10 ==> r == Failure("CSV file too short")
    ensures |rows| >= 10 && MetadataOf(rows).equipment == "" ==> r == Failure("Missing Equipment Number")
    ensures |rows| >= 10 && MetadataOf(rows).equipment != "" && MetadataOf(rows).testerSn == "" ==>
      r == Failure("Missing Tester S/N")
    ensures (|rows| >= 10 && MetadataOf(rows).equipment != "" && MetadataOf(rows).testerSn != ""
      && MetadataOf(rows).template == "") ==> r == Failure("Missing Template Name")
    ensures r.Success? ==>
      && r.value.equipment != "" && r.value.testerSn != "" && r.value.template != ""
      && ResultsHeaderIndex(rows).Some?
  {
    if |rows| < 10 then Failure("CSV file too short")
    else
      var meta := MetadataOf(rows);
      if meta.equipment == "" then Failure("Missing Equipment Number")
      else if meta.testerSn == "" then Failure("Missing Tester S/N")
      else if meta.template == "" then Failure("Missing Template Name")
      else
        ResultsOf(rows, meta, TestDate(meta.testDate, ext), ext.parseFloat)
  }

  /** The second half of the parse, once the metadata is complete: the
      results table after the first results header. */
  function ResultsOf(rows: seq<Row>, meta: Metadata, dt: Date, parseFloat: string -> Option<real>): (r: Result<FlukeParsed, string>)
    ensures r.Failure? <==> ResultsHeaderIndex(rows).None?
    ensures r.Failure? ==> r.error == "Could not find results header"
    ensures r.Success? ==>
      && r.value.dt == dt && r.value.operator == meta.operator && r.value.equipment == meta.equipment
      && r.value.testerSn == meta.testerSn && r.value.template == meta.template
    ensures r.Success? ==>
      var h := ResultsHeaderIndex(rows).value;
      r.value.measurements == MeasurementsOf(rows[h + 1..], ColumnMap(rows[h]).0, ColumnMap(rows[h]).1, parseFloat)
  {
    match ResultsHeaderIndex(rows)
    case None => Failure("Could not find results header")
    case Some(h) =>
      var cols := ColumnMap(rows[h]);
      var ms := MeasurementsOf(rows[h + 1..], cols.0, cols.1, parseFloat);
      Success(FlukeParsed(meta.operator, meta.equipment, meta.testerSn, meta.template, dt, ms))
  }

  /** The results-table half of `parse_fluke_file`. */
  method ReadResults(rows: seq<Row>, meta: Metadata, dt: Date, parseFloat: string -> Option<real>) returns (r: Result<FlukeParsed, string>)
    ensures r == ResultsOf(rows, meta, dt, parseFloat)
  {
    var start := FindResultsHeader(rows);
    if start.None? {
      return Failure("Could not find results header");
    }
    var valueCol, statusCol := FindResultsColumnMap(rows[start.value]);
    var ms := ParseMeasurements(RowMeasurements(rows[start.value + 1..], valueCol, statusCol, parseFloat));
    r := Success(FlukeParsed(meta.operator, meta.equipment, meta.testerSn, meta.template, dt, ms));
  }

  /** A parsed record carries the first-found metadata, and each of its
      measurements comes from a row after the results header. */
  lemma ParsedFromRows(rows: seq<Row>, ext: Externals, m: Measurement)
    requires ParseFlukeRows(rows, ext).Success?
    requires m in ParseFlukeRows(rows, ext).value.measurements
    ensures var h := ResultsHeaderIndex(rows).value;
      var cols := ColumnMap(rows[h]);
      exists j :: h < j < |rows| && RowMeasurement(rows[j], cols.0, cols.1, ext.parseFloat) == Some(m)
  {
    var h := ResultsHeaderIndex(rows).value;
    var cols := ColumnMap(rows[h]);
    ParsedMeasurements(rows, ext);
    KeptFromRow(rows, h, cols.0, cols.1, ext.parseFloat, m);
  }

  lemma KeptFromRow(rows: seq<Row>, h: nat, valueCol: nat, statusCol: nat, parseFloat: string -> Option<real>, m: Measurement)
    requires h < |rows| && m in MeasurementsOf(rows[h + 1..], valueCol, statusCol, parseFloat)
    ensures exists j :: h < j < |rows| && RowMeasurement(rows[j], valueCol, statusCol, parseFloat) == Some(m)
  {
    var data := rows[h + 1..];
    var ms := RowMeasurements(data, valueCol, statusCol, parseFloat);
    KeptFrom(ms, m);
    var k :| 0 <= k < |ms| && ms[k] == Some(m);
    RowMeasurementsAt(data, valueCol, statusCol, parseFloat, k);
    assert data[k] == rows[h + 1 + k];
  }

  /** Conversely, every row below a header that yields a measurement
      has it among the measurements read after that header (the row
      `k + 1` places below, for every `k`); `ResultsOf` reads exactly
      these after the first results header. */
  lemma {:induction false} RowsParsed(rows: seq<Row>, h: nat, valueCol: nat, statusCol: nat, parseFloat: string -> Option<real>, k: nat)
    requires h + 1 + k < |rows| && RowMeasurement(rows[h + 1 + k], valueCol, statusCol, parseFloat).Some?
    ensures RowMeasurement(rows[h + 1 + k], valueCol, statusCol, parseFloat).value in MeasurementsOf(rows[h + 1..], valueCol, statusCol, parseFloat)
  {
    RowMeasurementAfter(rows, h, valueCol, statusCol, parseFloat, k);
    KeptAll(RowMeasurements(rows[h + 1..], valueCol, statusCol, parseFloat), k);
  }

  lemma {:induction false} RowMeasurementAfter(rows: seq<Row>, h: nat, valueCol: nat, statusCol: nat, parseFloat: string -> Option<real>, k: nat)
    requires h + 1 + k < |rows|
    ensures RowMeasurements(rows[h + 1..], valueCol, statusCol, parseFloat)[k] == RowMeasurement(rows[h + 1 + k], valueCol, statusCol, parseFloat)
  {
    var data := rows[h + 1..];
    assert data[k] == rows[h + 1 + k];
    RowMeasurementsAt(data, valueCol, statusCol, parseFloat, k);
  }

  /** The parsed measurements are those of the rows after the header. */
  lemma ParsedMeasurements(rows: seq<Row>, ext: Externals)
    requires ParseFlukeRows(rows, ext).Success?
    ensures var h := ResultsHeaderIndex(rows).value;
      ParseFlukeRows(rows, ext).value.measurements
        == MeasurementsOf(rows[h + 1..], ColumnMap(rows[h]).0, ColumnMap(rows[h]).1, ext.parseFloat)
  {
  }

  /** `parse_fluke_file` on decoded rows as the source runs it. */
  method ParseFlukeFile(rows: seq<Row>, ext: Externals) returns (r: Result<FlukeParsed, string>)
    ensures r == ParseFlukeRows(rows, ext)
  {
    if |rows| < 10 {
      return Failure("CSV file too short");
    }
    var meta := ExtractMetadata(rows);
    if meta.equipment == "" {
      return Failure("Missing Equipment Number");
    }
    if meta.testerSn == "" {
      return Failure("Missing Tester S/N");
    }
    if meta.template == "" {
      return Failure("Missing Template Name");
    }
    r := ReadResults(rows, meta, TestDate(meta.testDate, ext), ext.parseFloat);
  }

  // ------------------------------------------------------------------
  // Decoding
  // ------------------------------------------------------------------

  /** The encodings tried, in order. */
  const Encodings: seq<string> := ["utf-8-sig", "utf-8", "windows-1252", "latin-1", "iso-8859-1"]

  /** Reading the file under one encoding: its rows, a decoding error, or
      any other error (a missing file, a malformed line). */
  datatype ReadOutcome = Decoded(rows: seq<Row>) | DecodeError(message: string) | OtherError(message: string)

  /** The attempts in order: the first encoding that reads wins, decoding
      errors move on to the next encoding, any other error ends the parse.
      `last` is the message of the latest decoding error. */
  function DecodeFrom(read: string -> ReadOutcome, encs: seq<string>, last: string): (r: Result<seq<Row>, string>)
  {
    if encs == [] then Failure("Could not decode CSV file with any common encoding. Last error: " + last)
    else
      match read(encs[0])
      case Decoded(rows) => Success(rows)
      case DecodeError(msg) => DecodeFrom(read, encs[1..], msg)
      case OtherError(msg) => Failure("Parse error: " + msg)
  }

  /** The encoding the rows are read under is the first one that does not
      fail to decode, and only when every earlier one failed to decode. */
  lemma {:induction false} DecodeFirstReadWins(read: string -> ReadOutcome, encs: seq<string>, last: string, k: nat)
    requires k < |encs| && read(encs[k]).Decoded?
    requires forall j :: 0 <= j < k ==> read(encs[j]).DecodeError?
    ensures DecodeFrom(read, encs, last) == Success(read(encs[k]).rows)
  {
    if k > 0 {
      DecodeFirstReadWins(read, encs[1..], read(encs[0]).message, k - 1);
    }
  }

  /** When every encoding fails to decode, the message names the last
      error. */
  lemma {:induction false} DecodeAllFail(read: string -> ReadOutcome, encs: seq<string>, last: string)
    requires |encs| > 0 && forall j :: 0 <= j < |encs| ==> read(encs[j]).DecodeError?
    ensures DecodeFrom(read, encs, last) ==
      Failure("Could not decode CSV file with any common encoding. Last error: " + read(encs[|encs| - 1]).message)
  {
    if |encs| > 1 {
      DecodeAllFail(read, encs[1..], read(encs[0]).message);
    }
  }

  /** The encoding loop of `parse_fluke_file`. */
  method Decode(read: string -> ReadOutcome) returns (r: Result<seq<Row>, string>)
    ensures r == DecodeFrom(read, Encodings, "")
  {
    var last := "";
    var k := 0;
    while k < |Encodings|
      invariant 0 <= k <= |Encodings|
      invariant DecodeFrom(read, Encodings, "") == DecodeFrom(read, Encodings[k..], last)
    {
      assert Encodings[k..][1..] == Encodings[k + 1..];
      var outcome := read(Encodings[k]);
      if outcome.Decoded? {
        return Success(outcome.rows);
      } else if outcome.OtherError? {
        return Failure("Parse error: " + outcome.message);
      }
      last := outcome.message;
      k := k + 1;
    }
    r := Failure("Could not decode CSV file with any common encoding. Last error: " + last);
  }

  /** `parse_fluke_file` from the file read: decoding, then the parse. */
  function ParseFluke(read: string -> ReadOutcome, ext: Externals): Result<FlukeParsed, string> {
    match DecodeFrom(read, Encodings, "")
    case Failure(msg) => Failure(msg)
    case Success(rows) => ParseFlukeRows(rows, ext)
  }
}

/** The limits-summary loader: the rows of the summary sheet become the
    cache that `Rules.FixedLimit` consults. The header is the first of the
    first ten rows naming both "Standard" and "Field"; every later row with
    a standard, a field and a limit adds the entry `standard|class|field`,
    and a later row overwrites an earlier one with the same key. */
module Limits {
  import opened Base
  import opened PyText
  import opened Rules

  /** A sheet row as the text of its cells; "" is an empty cell. */
  type Row = seq<string>

  /** Number of leading rows searched for a header. */
  const HeaderScanRows: nat := 10

  /** The stripped text of cell `i`, "" when the row is shorter. */
  function Cell(row: Row, i: nat): (t: string)
    ensures i >= |row| ==> t == ""
    ensures i < |row| ==> t == Strip(row[i])
  {
    if i < |row| then Strip(row[i]) else ""
  }

  /** The header test: some cell names "Standard" and some cell names
      "Field". */
  predicate IsLimitsHeader(row: Row) {
    (exists k :: 0 <= k < |row| && Contains(row[k], "Standard"))
    && (exists k :: 0 <= k < |row| && Contains(row[k], "Field"))
  }

  /** First header at index `i` or later, among the rows before `bound`. */
  function FirstHeaderFrom(rows: seq<Row>, i: nat, bound: nat): (h: Option<nat>)
    requires bound <= |rows|
    ensures h.Some? ==> i <= h.value < bound && IsLimitsHeader(rows[h.value])
    ensures h.Some? ==> forall j :: i <= j < h.value ==> !IsLimitsHeader(rows[j])
    ensures h.None? ==> forall j :: i <= j < bound ==> !IsLimitsHeader(rows[j])
    decreases bound - i
  {
    if i >= bound then None
    else if IsLimitsHeader(rows[i]) then Some(i)
    else FirstHeaderFrom(rows, i + 1, bound)
  }

  function ScanBound(rows: seq<Row>): (n: nat)
    ensures n <= |rows| && n <= HeaderScanRows
  {
    if |rows| < HeaderScanRows then |rows| else HeaderScanRows
  }

  /** Index of the header row, if one of the first ten rows is one. */
  function HeaderIndex(rows: seq<Row>): (h: Option<nat>)
    ensures h.Some? ==> h.value < HeaderScanRows && h.value < |rows| && IsLimitsHeader(rows[h.value])
    ensures h.Some? ==> forall j :: 0 <= j < h.value ==> !IsLimitsHeader(rows[j])
    ensures h.None? ==> forall j :: 0 <= j < |rows| && j < HeaderScanRows ==> !IsLimitsHeader(rows[j])
  {
    FirstHeaderFrom(rows, 0, ScanBound(rows))
  }

  /** The cache entry one data row contributes: the key from the stripped
      standard, class and lower-cased field, and the stripped limit. A row
      missing the standard, the field or the limit contributes nothing. */
  function RowEntry(row: Row): Option<(string, string)>
  {
    var standard := Cell(row, 0);
    var classType := Cell(row, 1);
    var field := Lower(Cell(row, 2));
    var limit := Cell(row, 3);
    if standard == "" || field == "" || limit == "" then None
    else Some((LimitKey(standard, classType, field), limit))
  }

  /** What a data row contributes: nothing without a standard, a field or
      a limit; otherwise the stripped limit under the key built from the
      stripped standard and class and the lower-cased field. */
  lemma RowEntryMeaning(row: Row)
    ensures RowEntry(row).None? <==> Cell(row, 0) == "" || Cell(row, 2) == "" || Cell(row, 3) == ""
    ensures RowEntry(row).Some? ==>
      RowEntry(row).value == (LimitKey(Cell(row, 0), Cell(row, 1), Lower(Cell(row, 2))), Cell(row, 3))
    ensures |row| < 4 ==> RowEntry(row).None?
  {
  }

  /** The entry of each data row, in order. */
  function RowEntries(rows: seq<Row>): (es: seq<Option<(string, string)>>)
    ensures |es| == |rows|
  {
    if rows == [] then [] else RowEntries(rows[..|rows| - 1]) + [RowEntry(rows[|rows| - 1])]
  }

  /** Entry `j` of the sequence is the entry of row `j`. */
  lemma {:induction false} RowEntriesAt(rows: seq<Row>, j: nat)
    requires j < |rows|
    ensures RowEntries(rows)[j] == RowEntry(rows[j])
  {
    if j < |rows| - 1 {
      RowEntriesAt(rows[..|rows| - 1], j);
    }
  }

  /** The cache after the entries, applied in order. */
  function ApplyEntries(cache: map<string, string>, es: seq<Option<(string, string)>>): map<string, string>
  {
    if es == [] then cache
    else
      var before := ApplyEntries(cache, es[..|es| - 1]);
      match es[|es| - 1]
      case None => before
      case Some(kv) => before[kv.0 := kv.1]
  }

  /** `load_fixed_limits_from_summary` on the rows of the sheet: empty when
      there is no header. */
  function LimitsFromSheet(rows: seq<Row>): map<string, string>
  {
    match HeaderIndex(rows)
    case None => map[]
    case Some(h) => ApplyEntries(map[], RowEntries(rows[h + 1..]))
  }

  /** The header search of the loader: the first header among the first
      ten rows. */
  method FindLimitsHeader(rows: seq<Row>) returns (header: Option<nat>)
    ensures header == HeaderIndex(rows)
  {
    var bound := ScanBound(rows);
    header := None;
    var i := 0;
    while i < bound
      invariant 0 <= i <= bound
      invariant FirstHeaderFrom(rows, 0, bound) == FirstHeaderFrom(rows, i, bound)
      decreases bound - i
    {
      if IsLimitsHeader(rows[i]) {
        header := Some(i);
        return;
      }
      i := i + 1;
    }
  }

  /** The pass over the data rows, updating the cache with each row's
      entry in turn. */
  method ApplyDataRows(start: map<string, string>, es: seq<Option<(string, string)>>) returns (cache: map<string, string>)
    ensures cache == ApplyEntries(start, es)
  {
    cache := start;
    var k := 0;
    while k < |es|
      invariant 0 <= k <= |es|
      invariant cache == ApplyEntries(start, es[..k])
    {
      assert es[..k + 1][..k] == es[..k];
      if es[k].Some? {
        cache := cache[es[k].value.0 := es[k].value.1];
      }
      k := k + 1;
    }
    assert es[..k] == es;
  }

  /** `load_fixed_limits_from_summary` after the workbook is read: the
      cache it leaves behind. */
  method LoadFixedLimits(rows: seq<Row>) returns (cache: map<string, string>)
    ensures cache == LimitsFromSheet(rows)
  {
    var header := FindLimitsHeader(rows);
    if header.None? {
      return map[];
    }
    cache := ApplyDataRows(map[], RowEntries(rows[header.value + 1..]));
  }

  /** A limit value: nonempty, without surrounding white space. */
  predicate IsLimitValue(v: string) {
    v != "" && Strip(v) == v
  }

  lemma EntryIsLimit(row: Row)
    ensures RowEntry(row).Some? ==> IsLimitValue(RowEntry(row).value.1)
  {
    if RowEntry(row).Some? {
      StripIdempotent(row[3]);
    }
  }

  /** Applying entries whose values are limits keeps every value a limit. */
  lemma {:induction false} AppliedValuesAreLimits(cache: map<string, string>, es: seq<Option<(string, string)>>)
    requires forall key :: key in cache ==> IsLimitValue(cache[key])
    requires forall j :: 0 <= j < |es| && es[j].Some? ==> IsLimitValue(es[j].value.1)
    ensures forall key :: key in ApplyEntries(cache, es) ==> IsLimitValue(ApplyEntries(cache, es)[key])
  {
    if es != [] {
      AppliedValuesAreLimits(cache, es[..|es| - 1]);
    }
  }

  /** Every limit the loader stores is a nonempty text without surrounding
      white space. */
  lemma LoadedValuesAreLimits(rows: seq<Row>)
    ensures forall key :: key in LimitsFromSheet(rows) ==> IsLimitValue(LimitsFromSheet(rows)[key])
  {
    match HeaderIndex(rows)
    case None =>
    case Some(h) =>
      var data := rows[h + 1..];
      var es := RowEntries(data);
      forall j | 0 <= j < |es| && es[j].Some?
        ensures IsLimitValue(es[j].value.1)
      {
        RowEntriesAt(data, j);
        EntryIsLimit(data[j]);
      }
      AppliedValuesAreLimits(map[], es);
  }

  /** The last entry giving a key decides its value: entries after it that
      give other keys, or none, leave it alone. */
  lemma {:induction false} LastEntryWins(cache: map<string, string>, es: seq<Option<(string, string)>>, i: nat, key: string)
    requires i < |es| && es[i].Some? && es[i].value.0 == key
    requires forall j :: i < j < |es| ==> es[j].None? || es[j].value.0 != key
    ensures key in ApplyEntries(cache, es) && ApplyEntries(cache, es)[key] == es[i].value.1
  {
    if i < |es| - 1 {
      var init := es[..|es| - 1];
      assert forall j :: i < j < |init| ==> init[j] == es[j];
      LastEntryWins(cache, init, i, key);
    }
  }

  /** A key no entry gives keeps its value from before. */
  lemma {:induction false} UntouchedKey(cache: map<string, string>, es: seq<Option<(string, string)>>, key: string)
    requires forall j :: 0 <= j < |es| ==> es[j].None? || es[j].value.0 != key
    ensures (key in ApplyEntries(cache, es)) == (key in cache)
    ensures key in cache ==> ApplyEntries(cache, es)[key] == cache[key]
  {
    if es != [] {
      var init := es[..|es| - 1];
      assert forall j :: 0 <= j < |init| ==> init[j] == es[j];
      UntouchedKey(cache, init, key);
    }
  }

  /** Loader and lookup together: the limit on the last data row that
      gives the key of a standard, class and field is the limit the lookup
      returns for them. Data row `k`'s entry is `RowEntry(rows[h + 1 + k])`
      (`RowEntriesAt`). */
  lemma SummaryRowDecidesLimit(rows: seq<Row>, h: nat, k: nat, standard: Standard, classType: string, field: string)
    requires HeaderIndex(rows) == Some(h)
    requires var es := RowEntries(rows[h + 1..]);
      k < |es| && es[k].Some? && es[k].value.0 == LimitKey(standard.Name(), classType, field)
    requires var es := RowEntries(rows[h + 1..]);
      forall j :: k < j < |es| ==> es[j].None? || es[j].value.0 != LimitKey(standard.Name(), classType, field)
    ensures FixedLimit(LimitsFromSheet(rows), standard, classType, field) == RowEntries(rows[h + 1..])[k].value.1
  {
    LastEntryWins(map[], RowEntries(rows[h + 1..]), k, LimitKey(standard.Name(), classType, field));
    ExactLimitWins(LimitsFromSheet(rows), standard, classType, field);
  }
}

/** The DTA converter: a Fluke ESA615 `.dta` text becomes the rows of a
    CSV in the layout the Fluke parser reads. Parsing is line by line:
    `<HEADER>`/`<\HEADER>` and `<BODY>`/`<\BODY>` lines switch two flags;
    `key=value` lines inside the header fill a first-wins header map;
    inside the body, `<TEST=...>`/`<TESTAP=...>` lines open a test, `<\TEST`
    lines close it, and comma lines fill its limit, result and status. */
module DtaConverter {
  import opened Base
  import opened PyText

  /** A test of the body. The source keeps a dictionary per test; a key
      it never set reads as "" (or false for the applied-part flag). */
  datatype TestRecord = TestRecord(
    testName: string, isAppliedPart: bool, apName: string, limit: string, result: string, status: string)

  datatype AppliedPart = AppliedPart(name: string, apType: string, num: string)

  // ------------------------------------------------------------------
  // The test tag: re.search(r'<TEST(?:AP)?=(.+?)>', line)
  // ------------------------------------------------------------------

  /** The shortest nonempty text before a '>' at the front of `rest`. */
  function GroupBeforeClose(rest: string): (g: Option<string>)
    ensures g.Some? ==> |g.value| >= 1 && |g.value| < |rest| && g.value == rest[..|g.value|]
    ensures g.Some? ==> rest[|g.value|] == '>' && '>' !in g.value[1..]
    ensures g.None? <==> |rest| < 2 || '>' !in rest[1..]
  {
    if |rest| < 2 || '>' !in rest[1..] then None
    else
      var k := 1 + IndexOf(rest[1..], '>');
      assert rest[..k][1..] == rest[1..][..k - 1];
      Some(rest[..k])
  }

  /** The match of the tag pattern starting at index `i`, if any. */
  function TagAt(line: string, i: nat): Option<string>
    requires i <= |line|
  {
    if StartsWith(line[i..], "<TESTAP=") then GroupBeforeClose(line[i + 8..])
    else if StartsWith(line[i..], "<TEST=") then GroupBeforeClose(line[i + 6..])
    else None
  }

  /** No match starts at an index in [i, j). */
  predicate NoTagBetween(line: string, i: nat, j: nat)
    requires j <= |line|
  {
    forall k :: i <= k < j ==> TagAt(line, k).None?
  }

  /** The leftmost match at index `i` or later. */
  function TagFrom(line: string, i: nat): (g: Option<string>)
    requires i <= |line|
    ensures g.Some? ==> exists j :: i <= j <= |line| && TagAt(line, j) == g
    ensures g.None? ==> forall j :: i <= j <= |line| ==> TagAt(line, j).None?
    decreases |line| - i
  {
    if TagAt(line, i).Some? then TagAt(line, i)
    else if i == |line| then None
    else TagFrom(line, i + 1)
  }

  /** The match `TagFrom` gives is the leftmost one: no index before it
      starts a match. */
  lemma {:induction false} TagFromLeftmost(line: string, i: nat)
    requires i <= |line|
    ensures TagFrom(line, i).Some? ==>
      exists j :: i <= j <= |line| && TagAt(line, j) == TagFrom(line, i) && NoTagBetween(line, i, j)
    decreases |line| - i
  {
    if TagAt(line, i).Some? {
      assert NoTagBetween(line, i, i);
    } else if i < |line| && TagFrom(line, i + 1).Some? {
      TagFromLeftmost(line, i + 1);
      var j :| i + 1 <= j <= |line| && TagAt(line, j) == TagFrom(line, i + 1) && NoTagBetween(line, i + 1, j);
      NoTagBefore(line, i, j);
    }
  }

  lemma NoTagBefore(line: string, i: nat, j: nat)
    requires i < j <= |line| && TagAt(line, i).None? && NoTagBetween(line, i + 1, j)
    ensures NoTagBetween(line, i, j)
  {
  }

  /** The test name of a test line: the first group of the leftmost match. */
  function TestTag(line: string): (g: Option<string>)
    ensures g.Some? ==> |g.value| >= 1 && '>' !in g.value[1..]
    ensures g.Some? ==> exists j :: 0 <= j <= |line| && TagAt(line, j) == g && NoTagBetween(line, 0, j)
    ensures g.None? <==> forall j :: 0 <= j <= |line| ==> TagAt(line, j).None?
  {
    TagFromLeftmost(line, 0);
    TagFrom(line, 0)
  }

  /** A test line `<TEST=name>` names its test. */
  lemma TestTagOfTestLine(name: string)
    requires |name| >= 1 && '>' !in name && '<' !in name
    ensures TestTag("<TEST=" + name + ">") == Some(name)
  {
    var line := "<TEST=" + name + ">";
    assert line[0..][..6] == "<TEST=";
    assert line[0..][..8] != "<TESTAP=" by {
      if |line| >= 8 {
        assert line[5] == '=';
      }
    }
    var rest := line[6..];
    assert rest == name + ">";
    assert rest[1..] == name[1..] + ">";
    assert rest[1..][|name| - 1] == '>';
    var k := 1 + IndexOf(rest[1..], '>');
    assert '>' !in rest[1..][..|name| - 1] by {
      assert rest[1..][..|name| - 1] == name[1..];
    }
    assert k == |name|;
    assert rest[..k] == name;
  }

  // ------------------------------------------------------------------
  // The line scan
  // ------------------------------------------------------------------

  /** The state of the scan. `aliases` are the indices of the results that
      are the very dictionary still open as `current` (a test line whose
      tag does not match appends the open test and keeps it open, so later
      data lines change both). */
  datatype ScanState = ScanState(
    inHeader: bool, inBody: bool, header: map<string, string>,
    results: seq<TestRecord>, current: Option<TestRecord>, aliases: set<nat>)

  /** The aliases point at copies of the open test, and only while one is
      open. */
  predicate Consistent(st: ScanState) {
    && (st.current.None? ==> st.aliases == {})
    && (forall i :: i in st.aliases ==> i < |st.results| && st.current.Some? && st.results[i] == st.current.value)
  }

  /** Every test appended has a name. */
  predicate NamedTests(st: ScanState) {
    && (forall i :: 0 <= i < |st.results| ==> st.results[i].testName != "")
    && (st.current.Some? ==> st.current.value.testName != "")
  }

  /** Appending the open test; it stays open, aliased to the new entry. */
  function AppendCurrent(st: ScanState): (next: ScanState)
    requires st.current.Some?
    ensures next.results == st.results + [st.current.value]
  {
    st.(results := st.results + [st.current.value], aliases := st.aliases + {|st.results|})
  }

  /** Changing the open test changes every result aliased to it. */
  function UpdateCurrent(st: ScanState, rec: TestRecord): (next: ScanState)
    ensures |next.results| == |st.results|
    ensures forall i :: 0 <= i < |st.results| ==> next.results[i] == if i in st.aliases then rec else st.results[i]
  {
    var results := seq(|st.results|, i requires 0 <= i < |st.results| => if i in st.aliases then rec else st.results[i]);
    st.(results := results, current := Some(rec))
  }

  /** A data line of the open test: its stripped comma-separated parts,
      read by the applied-part layout or the ordinary one. */
  function DataUpdate(rec: TestRecord, parts: seq<string>): (r: TestRecord)
    requires |parts| >= 3
    ensures r.testName == rec.testName && r.isAppliedPart == rec.isAppliedPart
    ensures rec.isAppliedPart ==>
      && r.apName == parts[0] && r.limit == parts[1]
      && r.result == (if |parts| > 3 then parts[3] else "")
      && r.status == (if |parts| > 4 then parts[4] else "")
    ensures !rec.isAppliedPart ==>
      && r.apName == rec.apName && r.limit == parts[0] && r.result == parts[2]
      && r.status == (if |parts| > 3 then parts[3] else "")
  {
    if rec.isAppliedPart then
      rec.(apName := parts[0], limit := parts[1],
           result := if |parts| > 3 then parts[3] else "",
           status := if |parts| > 4 then parts[4] else "")
    else
      rec.(limit := parts[0], result := parts[2], status := if |parts| > 3 then parts[3] else "")
  }

  predicate IsTestStart(line: string) {
    Contains(line, "<TEST=") || Contains(line, "<TESTAP=")
  }

  predicate IsTestEnd(line: string) {
    Contains(line, "<\\TEST")
  }

  /** One stripped line inside the body. */
  function BodyStep(st: ScanState, line: string): ScanState {
    if IsTestStart(line) then
      var appended := if st.current.Some? then AppendCurrent(st) else st;
      match TestTag(line)
      case None => appended
      case Some(name) =>
        appended.(current := Some(TestRecord(name, Contains(line, "<TESTAP="), "", "", "", "")), aliases := {})
    else if IsTestEnd(line) then
      if st.current.Some? then AppendCurrent(st).(current := None, aliases := {}) else st
    else if st.current.Some? && ',' in line && !StartsWith(line, "<") then
      var parts := StripAll(Split(line, ','));
      if |parts| >= 3 then UpdateCurrent(st, DataUpdate(st.current.value, parts)) else st
    else st
  }

  /** A marker line switching one of the flags. */
  predicate IsMarker(line: string) {
    Contains(line, "<HEADER>") || Contains(line, "<\\HEADER>") || Contains(line, "<BODY>") || Contains(line, "<\\BODY>")
  }

  /** A `key=value` line inside the header adds its key unless present. */
  function HeaderStep(header: map<string, string>, line: string): (h: map<string, string>)
    requires '=' in line
    ensures forall k :: k in header ==> k in h && h[k] == header[k]
    ensures h.Keys == header.Keys + {SplitOnce(line, '=').0}
    ensures SplitOnce(line, '=').0 !in header ==> h[SplitOnce(line, '=').0] == SplitOnce(line, '=').1
  {
    var kv := SplitOnce(line, '=');
    if kv.0 in header then header else header[kv.0 := kv.1]
  }

  /** One line of the file. */
  function Step(st: ScanState, raw: string): ScanState {
    var line := Strip(raw);
    if Contains(line, "<HEADER>") then st.(inHeader := true)
    else if Contains(line, "<\\HEADER>") then st.(inHeader := false)
    else if Contains(line, "<BODY>") then st.(inBody := true)
    else if Contains(line, "<\\BODY>") then st.(inBody := false)
    else
      var afterHeader := if st.inHeader && '=' in line then st.(header := HeaderStep(st.header, line)) else st;
      if afterHeader.inBody then BodyStep(afterHeader, line) else afterHeader
  }

  /** The lines, in order. */
  function ScanLines(st: ScanState, lines: seq<string>): ScanState {
    if lines == [] then st else Step(ScanLines(st, lines[..|lines| - 1]), lines[|lines| - 1])
  }

  // ------------------------------------------------------------------
  // Properties of the scan
  // ------------------------------------------------------------------

  /** Appending the open test keeps the aliases consistent and every
      test named. */
  lemma AppendKeepsState(st: ScanState)
    requires Consistent(st) && NamedTests(st) && st.current.Some?
    ensures Consistent(AppendCurrent(st)) && NamedTests(AppendCurrent(st))
  {
    var next := AppendCurrent(st);
    forall i | i in next.aliases
      ensures i < |next.results| && next.results[i] == next.current.value
    {
      if i != |st.results| {
        assert i in st.aliases;
      }
    }
  }

  /** Changing the open test, keeping its name, keeps the aliases
      consistent and every test named. */
  lemma UpdateKeepsState(st: ScanState, rec: TestRecord)
    requires Consistent(st) && NamedTests(st) && st.current.Some?
    requires rec.testName == st.current.value.testName
    ensures Consistent(UpdateCurrent(st, rec)) && NamedTests(UpdateCurrent(st, rec))
  {
  }

  lemma BodyStepKeepsState(st: ScanState, line: string)
    requires Consistent(st) && NamedTests(st)
    ensures Consistent(BodyStep(st, line)) && NamedTests(BodyStep(st, line))
    ensures BodyStep(st, line).header == st.header
    ensures st.results <= BodyStep(st, line).results || |BodyStep(st, line).results| == |st.results|
  {
    if IsTestStart(line) {
      if st.current.Some? {
        AppendKeepsState(st);
      }
    } else if IsTestEnd(line) {
      if st.current.Some? {
        AppendKeepsState(st);
      }
    } else if st.current.Some? && ',' in line && !StartsWith(line, "<") {
      var parts := StripAll(Split(line, ','));
      if |parts| >= 3 {
        UpdateKeepsState(st, DataUpdate(st.current.value, parts));
      }
    }
  }

  /** A marker line switches a flag and nothing else. */
  lemma MarkerStep(st: ScanState, raw: string)
    requires IsMarker(Strip(raw))
    ensures var next := Step(st, raw);
      next.header == st.header && next.results == st.results && next.current == st.current && next.aliases == st.aliases
  {
  }

  /** The state after the header part of a line that is not a marker. */
  function HeaderPart(st: ScanState, line: string): ScanState {
    if st.inHeader && '=' in line then st.(header := HeaderStep(st.header, line)) else st
  }

  /** Any other line goes to the header, then to the body. */
  lemma PlainStep(st: ScanState, raw: string)
    requires !IsMarker(Strip(raw))
    ensures var afterHeader := HeaderPart(st, Strip(raw));
      Step(st, raw) == if afterHeader.inBody then BodyStep(afterHeader, Strip(raw)) else afterHeader
  {
  }

  /** The scan keeps the aliases consistent and every test named, and
      never changes a header key once set. */
  lemma StepKeepsState(st: ScanState, raw: string)
    requires Consistent(st) && NamedTests(st)
    ensures Consistent(Step(st, raw)) && NamedTests(Step(st, raw))
    ensures forall k :: k in st.header ==> k in Step(st, raw).header && Step(st, raw).header[k] == st.header[k]
  {
    var line := Strip(raw);
    if IsMarker(line) {
      MarkerStep(st, raw);
    } else {
      PlainStep(st, raw);
      var afterHeader := HeaderPart(st, line);
      if afterHeader.inBody {
        BodyStepKeepsState(afterHeader, line);
      }
    }
  }

  lemma {:induction false} ScanKeepsState(st: ScanState, lines: seq<string>)
    requires Consistent(st) && NamedTests(st)
    ensures Consistent(ScanLines(st, lines)) && NamedTests(ScanLines(st, lines))
    ensures forall k :: k in st.header ==> k in ScanLines(st, lines).header && ScanLines(st, lines).header[k] == st.header[k]
  {
    if lines != [] {
      ScanKeepsState(st, lines[..|lines| - 1]);
      StepKeepsState(ScanLines(st, lines[..|lines| - 1]), lines[|lines| - 1]);
    }
  }

  /** Only a header line changes the header: a `key=value` line read while
      the header flag is on, whose key is new, adds that key with the text
      after the first '='. */
  lemma HeaderOnlyFromHeaderLines(st: ScanState, raw: string)
    ensures var line := Strip(raw);
      Step(st, raw).header == (if !IsMarker(line) && st.inHeader && '=' in line then HeaderStep(st.header, line) else st.header)
  {
    var line := Strip(raw);
    if IsMarker(line) {
      MarkerStep(st, raw);
    } else {
      PlainStep(st, raw);
      var afterHeader := HeaderPart(st, line);
      if afterHeader.inBody {
        BodyStepKeepsHeader(afterHeader, line);
      }
    }
  }

  lemma BodyStepKeepsHeader(st: ScanState, line: string)
    ensures BodyStep(st, line).header == st.header && BodyStep(st, line).inHeader == st.inHeader
  {
    if IsTestStart(line) {
    } else if IsTestEnd(line) {
    } else if st.current.Some? && ',' in line && !StartsWith(line, "<") {
      var parts := StripAll(Split(line, ','));
      if |parts| >= 3 {
        assert BodyStep(st, line) == UpdateCurrent(st, DataUpdate(st.current.value, parts));
      }
    }
  }

  /** A test is appended exactly on a test line or a closing line while a
      test is open, and it is the open test. */
  lemma AppendOnlyOnTestLines(st: ScanState, line: string)
    ensures var next := BodyStep(st, line);
      && (|next.results| == |st.results| + 1 <==> st.current.Some? && (IsTestStart(line) || IsTestEnd(line)))
      && (|next.results| == |st.results| + 1 ==> next.results == st.results + [st.current.value])
      && (|next.results| != |st.results| + 1 ==> |next.results| == |st.results|)
  {
  }

  /** A closing line closes the open test: nothing stays open or aliased. */
  lemma EndClosesTest(st: ScanState, line: string)
    requires Consistent(st) && !IsTestStart(line) && IsTestEnd(line)
    ensures BodyStep(st, line).current.None? && BodyStep(st, line).aliases == {}
  {
  }

  // ------------------------------------------------------------------
  // Applied parts
  // ------------------------------------------------------------------

  /** The applied part at position `i` of the stripped name list, when
      its name is not blank; its type and number are "" past the end of
      their lists. */
  function PartAt(names: seq<string>, types: seq<string>, nums: seq<string>, i: nat): (p: Option<AppliedPart>)
    requires i < |names|
    ensures p.Some? <==> names[i] != ""
    ensures p.Some? ==> p.value.name == names[i]
  {
    if names[i] == "" then None
    else Some(AppliedPart(names[i], if i < |types| then types[i] else "", if i < |nums| then nums[i] else ""))
  }

  /** The parts of the first `n` names. */
  function PartsUpTo(names: seq<string>, types: seq<string>, nums: seq<string>, n: nat): (ps: seq<AppliedPart>)
    requires n <= |names|
    ensures |ps| <= n
  {
    if n == 0 then []
    else
      var before := PartsUpTo(names, types, nums, n - 1);
      var p := PartAt(names, types, nums, n - 1);
      if p.Some? then before + [p.value] else before
  }

  /** A comma-separated header entry, each item stripped. */
  function Field(header: map<string, string>, key: string): (items: seq<string>)
    ensures |items| >= 1
  {
    StripAll(Split(Get(header, key, ""), ','))
  }

  /** The applied parts of a header, from its comma-separated name, type
      and number lists. */
  function AppliedPartsOf(header: map<string, string>): seq<AppliedPart> {
    var names := Field(header, "APNAME");
    PartsUpTo(names, Field(header, "APTYPE"), Field(header, "NUMAP"), |names|)
  }

  /** The names that are not blank, in order. */
  function NonBlank(names: seq<string>): seq<string> {
    if names == [] then []
    else NonBlank(names[..|names| - 1]) + (if names[|names| - 1] == "" then [] else [names[|names| - 1]])
  }

  function PartNames(ps: seq<AppliedPart>): (ns: seq<string>)
    ensures |ns| == |ps| && forall k :: 0 <= k < |ps| ==> ns[k] == ps[k].name
  {
    seq(|ps|, k requires 0 <= k < |ps| => ps[k].name)
  }

  /** The parts of the first `n` names are named by the non-blank ones
      among them, in order. */
  lemma {:induction false} PartsUpToNames(names: seq<string>, types: seq<string>, nums: seq<string>, n: nat)
    requires n <= |names|
    ensures PartNames(PartsUpTo(names, types, nums, n)) == NonBlank(names[..n])
  {
    if n > 0 {
      PartsUpToNames(names, types, nums, n - 1);
      var init := names[..n];
      assert init[..n - 1] == names[..n - 1];
      var before := PartsUpTo(names, types, nums, n - 1);
      var p := PartAt(names, types, nums, n - 1);
      if p.Some? {
        assert NonBlank(init) == NonBlank(names[..n - 1]) + [names[n - 1]];
        assert PartNames(before + [p.value]) == PartNames(before) + [p.value.name];
      } else {
        assert NonBlank(init) == NonBlank(names[..n - 1]);
      }
    }
  }

  /** The applied parts of stripped name, type and number lists are
      named exactly by the non-blank names, in order. */
  lemma PartsAreNonBlankNames(names: seq<string>, types: seq<string>, nums: seq<string>)
    ensures PartNames(PartsUpTo(names, types, nums, |names|)) == NonBlank(names)
  {
    PartsUpToNames(names, types, nums, |names|);
    assert names[..|names|] == names;
  }

  // ------------------------------------------------------------------
  // Dates
  // ------------------------------------------------------------------

  /** The calibration date `MmmDddYyyyy`-style text rewritten as
      `m/d/yyyy` when it starts with 'M', holds 'D' and 'Y', and both
      numbers read as integers; kept otherwise. */
  function CalDateText(cal: string): string {
    if StartsWith(cal, "M") && 'D' in cal && 'Y' in cal then
      var m := PyInt(Slice(cal, 1, 3));
      var d := PyInt(Slice(cal, 4, 6));
      if m.Some? && d.Some? then IntToString(m.value) + "/" + IntToString(d.value) + "/" + Slice(cal, 7, 11)
      else cal
    else cal
  }

  /** The date and time of the test: a date of three '/'-separated parts
      whose last two read as integers becomes `month/day/year time`, the
      integers without leading zeros; any other date is kept. */
  function DateTimeText(date: string, time: string): string {
    var parts := Split(date, '/');
    if |parts| == 3 && PyInt(parts[1]).Some? && PyInt(parts[2]).Some? then
      IntToString(PyInt(parts[1]).value) + "/" + IntToString(PyInt(parts[2]).value) + "/" + parts[0] + " " + time
    else date + " " + time
  }

  /** `M`mm`D`dd`Y`yyyy becomes `m/d/yyyy`, the two-digit month and day
      read without leading zeros. */
  lemma CalibrationDateRewritten(m1: char, m2: char, d1: char, d2: char, y1: char, y2: char, y3: char, y4: char)
    requires IsDigit(m1) && IsDigit(m2) && IsDigit(d1) && IsDigit(d2)
    ensures CalDateText(['M', m1, m2, 'D', d1, d2, 'Y', y1, y2, y3, y4]) ==
      NatToString(DigitsValue([m1, m2])) + "/" + NatToString(DigitsValue([d1, d2])) + "/" + [y1, y2, y3, y4]
  {
    var cal := ['M', m1, m2, 'D', d1, d2, 'Y', y1, y2, y3, y4];
    assert cal[..1] == "M";
    assert cal[3] == 'D' && cal[6] == 'Y';
    assert Slice(cal, 1, 3) == [m1, m2];
    assert Slice(cal, 4, 6) == [d1, d2];
    assert Slice(cal, 7, 11) == [y1, y2, y3, y4];
    CalDateOfDigits(cal, [m1, m2], [d1, d2]);
  }

  lemma CalDateOfDigits(cal: string, mm: string, dd: string)
    requires StartsWith(cal, "M") && 'D' in cal && 'Y' in cal
    requires Slice(cal, 1, 3) == mm && Slice(cal, 4, 6) == dd
    requires |mm| > 0 && forall i :: 0 <= i < |mm| ==> IsDigit(mm[i])
    requires |dd| > 0 && forall i :: 0 <= i < |dd| ==> IsDigit(dd[i])
    ensures CalDateText(cal) == NatToString(DigitsValue(mm)) + "/" + NatToString(DigitsValue(dd)) + "/" + Slice(cal, 7, 11)
  {
    DigitTextValue(mm);
    DigitTextValue(dd);
    CalDateOfNumbers(cal, DigitsValue(mm), DigitsValue(dd));
  }

  lemma CalDateOfNumbers(cal: string, m: int, d: int)
    requires StartsWith(cal, "M") && 'D' in cal && 'Y' in cal
    requires PyInt(Slice(cal, 1, 3)) == Some(m) && PyInt(Slice(cal, 4, 6)) == Some(d)
    ensures CalDateText(cal) == IntToString(m) + "/" + IntToString(d) + "/" + Slice(cal, 7, 11)
  {
  }

  /** A calibration date not starting with 'M', lacking 'D' or 'Y', or
      whose month or day does not read as an integer is kept. */
  lemma OtherCalibrationDateKept(cal: string)
    requires !StartsWith(cal, "M") || 'D' !in cal || 'Y' !in cal
      || PyInt(Slice(cal, 1, 3)).None? || PyInt(Slice(cal, 4, 6)).None?
    ensures CalDateText(cal) == cal
  {
  }

  /** A date that is not three '/'-separated parts, or whose second or
      third part does not read as an integer, is kept. */
  lemma OtherDateKept(date: string, time: string)
    requires var parts := Split(date, '/');
      |parts| != 3 || PyInt(parts[1]).None? || PyInt(parts[2]).None?
    ensures DateTimeText(date, time) == date + " " + time
  {
  }

  /** `year/mm/dd` becomes `m/d/year`, digits read without leading zeros. */
  lemma YearFirstDateRewritten(year: string, mm: string, dd: string, time: string)
    requires '/' !in year
    requires |mm| > 0 && forall i :: 0 <= i < |mm| ==> IsDigit(mm[i])
    requires |dd| > 0 && forall i :: 0 <= i < |dd| ==> IsDigit(dd[i])
    ensures DateTimeText(year + "/" + mm + "/" + dd, time) ==
      NatToString(DigitsValue(mm)) + "/" + NatToString(DigitsValue(dd)) + "/" + year + " " + time
  {
    ThreeParts(year, mm, dd);
    DigitTextValue(mm);
    DigitTextValue(dd);
    DateOfNumbers(year + "/" + mm + "/" + dd, time, year, mm, dd, DigitsValue(mm), DigitsValue(dd));
  }

  lemma DateOfNumbers(date: string, time: string, year: string, mm: string, dd: string, m: int, d: int)
    requires Split(date, '/') == [year, mm, dd]
    requires PyInt(mm) == Some(m) && PyInt(dd) == Some(d)
    ensures DateTimeText(date, time) == IntToString(m) + "/" + IntToString(d) + "/" + year + " " + time
  {
  }

  lemma ThreeParts(year: string, mm: string, dd: string)
    requires '/' !in year
    requires forall i :: 0 <= i < |mm| ==> IsDigit(mm[i])
    requires forall i :: 0 <= i < |dd| ==> IsDigit(dd[i])
    ensures Split(year + "/" + mm + "/" + dd, '/') == [year, mm, dd]
  {
    DigitsHaveNoSlash(mm);
    DigitsHaveNoSlash(dd);
    SplitWithoutSeparator(dd, '/');
    SplitAfterPart(mm, '/', dd);
    SplitAfterPart(year, '/', mm + "/" + dd);
    assert year + "/" + mm + "/" + dd == year + ['/'] + (mm + ['/'] + dd);
  }

  lemma DigitsHaveNoSlash(s: string)
    requires forall i :: 0 <= i < |s| ==> IsDigit(s[i])
    ensures '/' !in s
  {
    forall i | 0 <= i < |s|
      ensures s[i] != '/'
    {
      assert IsDigit(s[i]);
    }
  }

  /** A digit text reads as its value, and prints back without leading
      zeros. */
  lemma DigitTextValue(s: string)
    requires |s| > 0 && forall i :: 0 <= i < |s| ==> IsDigit(s[i])
    ensures PyInt(s) == Some(DigitsValue(s))
    ensures IntToString(DigitsValue(s)) == NatToString(DigitsValue(s))
  {
    assert !IsSpace(s[0]) && !IsSpace(s[|s| - 1]) by {
      assert IsDigit(s[0]) && IsDigit(s[|s| - 1]);
    }
    StripKeeps(s);
    PyIntUnsigned(s);
  }

  // ------------------------------------------------------------------
  // The CSV rows
  // ------------------------------------------------------------------

  /** Number of cells of every CSV row. */
  const Width: nat := 8

  const Blank: seq<string> := ["", "", "", "", "", "", "", ""]

  /** A row with one text in the first cell. */
  function Title(t: string): seq<string> {
    [t, "", "", "", "", "", "", ""]
  }

  /** A row with two label-value pairs, each value two cells right of its
      label. */
  function Pair(label1: string, value1: string, label2: string, value2: string): seq<string> {
    [label1, "", value1, "", label2, "", value2, ""]
  }

  /** The rows before the applied parts, section by section: test setup,
      DUT information, the job name, the template, the settings with their
      defaults, and the applied-part table header. */
  function SetupRows(h: map<string, string>): (rows: seq<seq<string>>)
    ensures |rows| == 28
  {
    HeadRows + DutRows(h) + JobRows + TemplateRows(h) + SettingRows(h) + PlcRows
  }

  const HeadRows: seq<seq<string>> := [Title("Test Setup"), ["", "", "", "DUT Information", "", "", "", ""], Blank]

  /** The first cells of the DUT information rows. */
  const DutLabels: seq<string> := ["Operator ID :", "Calibration Tech :", "Calibration Date :", "Firmware Version :", "Serial Number :", "Date & Time :"]

  /** The tester's fields on the left, the device's on the right. */
  function DutRows(h: map<string, string>): (rows: seq<seq<string>>)
    ensures |rows| == 6
    ensures forall j :: 0 <= j < 6 ==> |rows[j]| == Width && rows[j][0] == DutLabels[j]
  {
    [ Pair(DutLabels[0], Get(h, "ESA615OPID", ""), "Equipment Number :", Get(h, "DUTEQUIPNUM", "")),
      Pair(DutLabels[1], Get(h, "ESA615CALTECH", ""), "Serial Number :", Get(h, "DUTSN", "")),
      Pair(DutLabels[2], CalDateText(Get(h, "ESA615CALDATE", "")), "Manufacturer :", Get(h, "DUTMANF", "")),
      Pair(DutLabels[3], Get(h, "ESA615UIFW", ""), "Model :", Get(h, "DUTMODEL", "")),
      Pair(DutLabels[4], Get(h, "ESA615SN", ""), "Location :", Get(h, "DUTLOC", "")),
      Pair(DutLabels[5], DateTimeText(Get(h, "DATEOFTEST", ""), Get(h, "TIMEOFTEST", "")), "Other :", Get(h, "OTHER", "")) ]
  }

  const JobRows: seq<seq<string>> := [Title("JOB Name :"), Blank, Blank]

  const TemplateLabels: seq<string> := ["Template Information", "", "Template Name :"]

  function TemplateRows(h: map<string, string>): (rows: seq<seq<string>>)
    ensures |rows| == 3
    ensures forall j :: 0 <= j < 3 ==> |rows[j]| == Width && rows[j][0] == TemplateLabels[j]
  {
    [ Title("Template Information"),
      Blank,
      Pair("Template Name :", Get(h, "MASTERFILE", ""), "Standard :", Get(h, "STANDARD", "")) ]
  }

  /** The first cells of the settings rows. */
  const SettingLabels: seq<string> := [
    "Pause after Power ON:", "Power ON delay:", "Test Speed:", "Halt on Test Failure:",
    "Include Time:", "Insulation Resistance Voltage:", "Multiple Non-Earth Leakage:"]

  /** The test settings, each with the default written when the file does
      not give it. */
  function SettingRows(h: map<string, string>): (rows: seq<seq<string>>)
    ensures |rows| == 7
    ensures forall j :: 0 <= j < 7 ==> |rows[j]| == Width && rows[j][0] == SettingLabels[j]
  {
    [ Pair(SettingLabels[0], Get(h, "PAUSEAFTERON", "NO"), "Pause before Power OFF:", Get(h, "PAUSEBEFOREOFF", "NO")),
      Pair(SettingLabels[1], Get(h, "PONDELAY", "1"), "Power OFF delay:", Get(h, "POFFDELAY", "0")),
      Pair(SettingLabels[2], Get(h, "TSPEED", "RAPID"), "Test Mode:", Get(h, "TMODE", "AUTO")),
      Pair(SettingLabels[3], Get(h, "HALTONFAIL", "YES"), "Multiple PE Test:", Get(h, "MULTIPETEST", "YES")),
      Pair(SettingLabels[4], Get(h, "INCLUDETIME", "YES"), "Patient Lead Record:", Get(h, "MULTIRESSTORE", "WORST/LAST")),
      Pair(SettingLabels[5], Get(h, "INSVOLTAGE", "500V"), "Reverse Polarity:", Get(h, "REVERSEPOL", "YES")),
      Pair(SettingLabels[6], Get(h, "MULTIENCLTEST", "YES"), "Classification:", Get(h, "CLASSIFICATION", "I")) ]
  }

  const PlcRows: seq<seq<string>> := [
    Blank, Blank, Blank, Title("PLC Configuration-Applied part setup"), Blank,
    ["AP Name", "AP Type", "AP Num", "", "", "", "", ""]]

  function PartRow(p: AppliedPart): seq<string> {
    [p.name, p.apType, p.num, "", "", "", "", ""]
  }

  function PartRows(parts: seq<AppliedPart>): (rows: seq<seq<string>>)
    ensures |rows| == |parts|
    ensures forall k :: 0 <= k < |parts| ==> rows[k] == PartRow(parts[k])
  {
    seq(|parts|, k requires 0 <= k < |parts| => PartRow(parts[k]))
  }

  /** The rows between the applied parts and the results header. */
  const ResultsTitleRows: seq<seq<string>> := [Blank, Blank, Blank, Blank, Blank, Title("ESA615 Test Results"), Blank]

  const ResultsHeaderRow: seq<string> := ["Test Name", "", "", "", "Value", "High Limits", "Low Limits", "Status"]

  /** Message tests and two named tests are not written. */
  predicate IsSkippedTest(name: string) {
    Contains(name, "MSGE") || name == "LOAD601" || name == "GFI10"
  }

  /** The tests written, in order. */
  function WrittenTests(results: seq<TestRecord>): (ws: seq<TestRecord>)
    ensures |ws| <= |results|
    ensures forall k :: 0 <= k < |ws| ==> ws[k] in results && !IsSkippedTest(ws[k].testName)
  {
    if results == [] then []
    else
      var last := results[|results| - 1];
      WrittenTests(results[..|results| - 1]) + (if IsSkippedTest(last.testName) then [] else [last])
  }

  /** Every test that is not skipped is written. */
  lemma {:induction false} UnskippedTestsWritten(results: seq<TestRecord>, j: nat)
    requires j < |results| && !IsSkippedTest(results[j].testName)
    ensures results[j] in WrittenTests(results)
  {
    if j < |results| - 1 {
      UnskippedTestsWritten(results[..|results| - 1], j);
    }
  }

  /** A test row: the name, the applied part in column 3, the result in the
      value column 4, the limit in column 5, the status in column 7. */
  function TestRow(t: TestRecord): seq<string> {
    [t.testName, "", "", t.apName, t.result, t.limit, "", t.status]
  }

  function TestRows(tests: seq<TestRecord>): (rows: seq<seq<string>>)
    ensures |rows| == |tests|
    ensures forall k :: 0 <= k < |tests| ==> rows[k] == TestRow(tests[k])
  {
    seq(|tests|, k requires 0 <= k < |tests| => TestRow(tests[k]))
  }

  const FooterRows: seq<seq<string>> := [Blank, Blank, ["", "", "", "", "", "________", "", ""], ["", "", "", "", "", "Signature", "", ""]]

  /** Index of the results header row. */
  function ResultsHeaderIndex(parts: seq<AppliedPart>): nat {
    28 + |parts| + 7
  }

  /** The rows `to_csv` writes. */
  function CsvRows(h: map<string, string>, results: seq<TestRecord>, parts: seq<AppliedPart>): seq<seq<string>> {
    SetupRows(h) + PartRows(parts) + ResultsTitleRows + [ResultsHeaderRow, Blank]
      + TestRows(WrittenTests(results)) + FooterRows
  }

  /** Every row of a block has eight cells. */
  predicate EightWide(rows: seq<seq<string>>) {
    forall k :: 0 <= k < |rows| ==> |rows[k]| == Width
  }

  lemma EightWideAppend(a: seq<seq<string>>, b: seq<seq<string>>)
    requires EightWide(a) && EightWide(b)
    ensures EightWide(a + b)
  {
    forall k | 0 <= k < |a + b|
      ensures |(a + b)[k]| == Width
    {
      if k < |a| {
        assert (a + b)[k] == a[k];
      } else {
        assert (a + b)[k] == b[k - |a|];
      }
    }
  }

  lemma SetupRowsWide(h: map<string, string>)
    ensures EightWide(SetupRows(h))
  {
    EightWideAppend(HeadRows, DutRows(h));
    EightWideAppend(HeadRows + DutRows(h), JobRows);
    EightWideAppend(HeadRows + DutRows(h) + JobRows, TemplateRows(h));
    EightWideAppend(HeadRows + DutRows(h) + JobRows + TemplateRows(h), SettingRows(h));
    EightWideAppend(HeadRows + DutRows(h) + JobRows + TemplateRows(h) + SettingRows(h), PlcRows);
  }

  /** Six eight-wide blocks make an eight-wide file. */
  lemma BlocksWide(a: seq<seq<string>>, b: seq<seq<string>>, c: seq<seq<string>>,
                   d: seq<seq<string>>, e: seq<seq<string>>, f: seq<seq<string>>)
    requires EightWide(a) && EightWide(b) && EightWide(c) && EightWide(d) && EightWide(e) && EightWide(f)
    ensures EightWide(a + b + c + d + e + f)
  {
    EightWideAppend(a, b);
    EightWideAppend(a + b, c);
    EightWideAppend(a + b + c, d);
    EightWideAppend(a + b + c + d, e);
    EightWideAppend(a + b + c + d + e, f);
  }

  /** Every row has eight cells. */
  lemma CsvRowsWidth(h: map<string, string>, results: seq<TestRecord>, parts: seq<AppliedPart>)
    ensures forall k :: 0 <= k < |CsvRows(h, results, parts)| ==> |CsvRows(h, results, parts)[k]| == Width
  {
    SetupRowsWide(h);
    var tests := TestRows(WrittenTests(results));
    assert EightWide(tests);
    assert EightWide(PartRows(parts));
    BlocksWide(SetupRows(h), PartRows(parts), ResultsTitleRows, [ResultsHeaderRow, Blank], tests, FooterRows);
  }

  /** The layout of the rows of a file written for the applied parts and
      the written tests: the applied parts start at row 28; the results
      header follows them and the seven title rows; after it and one blank
      row come the written tests, one row each, then the four footer rows. */
  predicate LaidOut(rows: seq<seq<string>>, parts: seq<AppliedPart>, ws: seq<TestRecord>) {
    var hi := ResultsHeaderIndex(parts);
    && |rows| == hi + 2 + |ws| + |FooterRows|
    && rows[hi] == ResultsHeaderRow && rows[hi + 1] == Blank
    && (forall k :: 0 <= k < |parts| ==> rows[28 + k] == PartRow(parts[k]))
    && (forall k :: 0 <= k < |ws| ==> rows[hi + 2 + k] == TestRow(ws[k]))
  }

  /** Any 28 setup rows followed by the other blocks are laid out so. */
  lemma BlocksLaidOut(setup: seq<seq<string>>, parts: seq<AppliedPart>, ws: seq<TestRecord>)
    requires |setup| == 28
    ensures LaidOut(setup + PartRows(parts) + ResultsTitleRows + [ResultsHeaderRow, Blank] + TestRows(ws) + FooterRows, parts, ws)
  {
    var partRows, tests := PartRows(parts), TestRows(ws);
    var rows := setup + partRows + ResultsTitleRows + [ResultsHeaderRow, Blank] + tests + FooterRows;
    var hi := ResultsHeaderIndex(parts);
    forall k | 0 <= k < |parts|
      ensures rows[28 + k] == PartRow(parts[k])
    {
      assert rows == setup + (partRows + (ResultsTitleRows + [ResultsHeaderRow, Blank] + tests + FooterRows));
    }
    var prefix := setup + partRows + ResultsTitleRows + [ResultsHeaderRow, Blank];
    assert |prefix| == hi + 2;
    assert rows == prefix + (tests + FooterRows);
    forall k | 0 <= k < |ws|
      ensures rows[hi + 2 + k] == TestRow(ws[k])
    {
      assert rows[hi + 2 + k] == tests[k];
    }
  }

  /** The rows of `to_csv` are laid out so. */
  lemma CsvRowsLayout(h: map<string, string>, results: seq<TestRecord>, parts: seq<AppliedPart>)
    ensures LaidOut(CsvRows(h, results, parts), parts, WrittenTests(results))
  {
    BlocksLaidOut(SetupRows(h), parts, WrittenTests(results));
  }

  // ------------------------------------------------------------------
  // The converter object
  // ------------------------------------------------------------------

  class DtaToCsvConverter {
    var data: string
    var header: map<string, string>
    var testResults: seq<TestRecord>
    var appliedParts: seq<AppliedPart>

    constructor(content: string)
      ensures data == content && header == map[] && testResults == [] && appliedParts == []
    {
      data := content;
      header := map[];
      testResults := [];
      appliedParts := [];
    }

    /** `parse`: the lines are scanned into the header and the results,
        then the applied parts of the header are appended. Like the source,
        a second call scans again on top of what the first left. */
    method Parse() returns (h: map<string, string>, results: seq<TestRecord>)
      modifies this
      ensures var st := ParseState(old(header), old(testResults), data);
        header == st.header && testResults == st.results
        && appliedParts == old(appliedParts) + AppliedPartsOf(st.header)
      ensures data == old(data)
      ensures h == header && results == testResults
    {
      var st := ScanText(header, testResults, data);
      header := st.header;
      testResults := st.results;
      var parts := ReadAppliedParts(header);
      appliedParts := appliedParts + parts;
      h, results := header, testResults;
    }

    /** `to_csv` up to the file write: parse, then the rows in order. */
    method ToCsv() returns (rows: seq<seq<string>>)
      modifies this
      ensures var st := ParseState(old(header), old(testResults), data);
        header == st.header && testResults == st.results
        && appliedParts == old(appliedParts) + AppliedPartsOf(st.header)
      ensures data == old(data)
      ensures rows == CsvRows(header, testResults, appliedParts)
    {
      var _, _ := Parse();
      rows := WriteRows(header, testResults, appliedParts);
    }
  }

  /** The state the scan starts from: both flags off, nothing open, and
      the header and results the converter already holds. */
  function StartState(header: map<string, string>, results: seq<TestRecord>): (st: ScanState)
    ensures Consistent(st)
  {
    ScanState(false, false, header, results, None, {})
  }

  /** The scan of the whole text, line by line. */
  function ParseState(header: map<string, string>, results: seq<TestRecord>, data: string): ScanState {
    ScanLines(StartState(header, results), Split(data, '\n'))
  }

  /** The split into lines and the line loop of `parse`. */
  method ScanText(header: map<string, string>, results: seq<TestRecord>, data: string) returns (st: ScanState)
    ensures st == ParseState(header, results, data)
  {
    st := ScanAll(StartState(header, results), Split(data, '\n'));
  }

  /** The line loop of `parse`. */
  method ScanAll(start: ScanState, lines: seq<string>) returns (st: ScanState)
    ensures st == ScanLines(start, lines)
  {
    st := start;
    var k := 0;
    while k < |lines|
      invariant 0 <= k <= |lines|
      invariant st == ScanLines(start, lines[..k])
    {
      assert lines[..k + 1][..k] == lines[..k];
      st := ScanLine(st, lines[k]);
      k := k + 1;
    }
    assert lines[..k] == lines;
  }

  /** One line of `parse`, as the source runs it. */
  method ScanLine(st: ScanState, raw: string) returns (next: ScanState)
    ensures next == Step(st, raw)
  {
    var line := Strip(raw);
    next := st;
    if Contains(line, "<HEADER>") {
      next := next.(inHeader := true);
    } else if Contains(line, "<\\HEADER>") {
      next := next.(inHeader := false);
    } else if Contains(line, "<BODY>") {
      next := next.(inBody := true);
    } else if Contains(line, "<\\BODY>") {
      next := next.(inBody := false);
    } else {
      if next.inHeader && '=' in line {
        var kv := SplitOnce(line, '=');
        if kv.0 !in next.header {
          next := next.(header := next.header[kv.0 := kv.1]);
        }
      }
      if next.inBody {
        next := BodyStep(next, line);
      }
    }
  }

  /** The applied-part loop of `parse`. */
  method ReadAppliedParts(header: map<string, string>) returns (parts: seq<AppliedPart>)
    ensures parts == AppliedPartsOf(header)
  {
    var names := Field(header, "APNAME");
    parts := ReadParts(names, Field(header, "APTYPE"), Field(header, "NUMAP"));
  }

  method ReadParts(names: seq<string>, types: seq<string>, nums: seq<string>) returns (parts: seq<AppliedPart>)
    ensures parts == PartsUpTo(names, types, nums, |names|)
  {
    parts := [];
    var i := 0;
    while i < |names|
      invariant 0 <= i <= |names|
      invariant parts == PartsUpTo(names, types, nums, i)
    {
      var name := names[i];
      if name != "" {
        var apType := if i < |types| then types[i] else "";
        var num := if i < |nums| then nums[i] else "";
        parts := parts + [AppliedPart(name, apType, num)];
      }
      i := i + 1;
    }
  }

  /** The writes of `to_csv`, in order. */
  method WriteRows(h: map<string, string>, results: seq<TestRecord>, parts: seq<AppliedPart>) returns (rows: seq<seq<string>>)
    ensures rows == CsvRows(h, results, parts)
  {
    rows := SetupRows(h);
    rows := WritePartRows(rows, parts);
    rows := rows + ResultsTitleRows + [ResultsHeaderRow, Blank];
    rows := WriteTestRows(rows, results);
    rows := rows + FooterRows;
  }

  /** The applied-part loop of `to_csv`. */
  method WritePartRows(before: seq<seq<string>>, parts: seq<AppliedPart>) returns (rows: seq<seq<string>>)
    ensures rows == before + PartRows(parts)
  {
    rows := before;
    var k := 0;
    while k < |parts|
      invariant 0 <= k <= |parts|
      invariant rows == before + PartRows(parts[..k])
    {
      assert PartRows(parts[..k + 1]) == PartRows(parts[..k]) + [PartRow(parts[k])];
      rows := rows + [PartRow(parts[k])];
      k := k + 1;
    }
    assert parts[..k] == parts;
  }

  /** The test loop of `to_csv`, skipping the filtered tests. */
  method WriteTestRows(before: seq<seq<string>>, results: seq<TestRecord>) returns (rows: seq<seq<string>>)
    ensures rows == before + TestRows(WrittenTests(results))
  {
    rows := before;
    var j := 0;
    while j < |results|
      invariant 0 <= j <= |results|
      invariant rows == before + TestRows(WrittenTests(results[..j]))
    {
      assert results[..j + 1][..j] == results[..j];
      var test := results[j];
      if !IsSkippedTest(test.testName) {
        assert TestRows(WrittenTests(results[..j + 1])) == TestRows(WrittenTests(results[..j])) + [TestRow(test)];
        rows := rows + [TestRow(test)];
      }
      j := j + 1;
    }
    assert results[..j] == results;
  }
}

/** The mapping layer: one parsed Fluke file becomes the 22-column upload
    row. The standard and class come from the template name; each reading
    column shows the first measurement of its group and condition, with its
    limit and unit, or "NA"; the earthed and per-standard gates decide which
    readings are shown at all; the overall result fails when any
    measurement fails. */
module Mapping {
  import opened Base
  import opened PyText
  import opened Rules
  import opened FlukeParser

  /** The upload row, in the order of its columns. */
  datatype InterfaceRow = InterfaceRow(
    operator: string,
    equipmentNumber: string,
    assetNumber: string,
    standard: string,
    testType: string,
    classType: string,
    testSeq: string,
    testDate: string,
    visualPassFail: string,
    lineLoad: string,
    earthBond: string,
    insulation: string,
    earthLeakageNc: string,
    earthLeakageNo: string,
    enclosureLeakageNc: string,
    enclosureLeakageNo: string,
    enclosureLeakageEo: string,
    appliedPartLeakageNc: string,
    appliedPartLeakageNo: string,
    appliedPartLeakageEo: string,
    mainsContact: string,
    overallPassFail: string)

  /** Number of columns of the upload sheet. */
  const ColumnCount: nat := 22

  /** The cells of a row in the order the sheet takes them. */
  function Columns(row: InterfaceRow): (cells: seq<string>)
    ensures |cells| == ColumnCount
  {
    [row.operator, row.equipmentNumber, row.assetNumber, row.standard, row.testType,
     row.classType, row.testSeq, row.testDate, row.visualPassFail, row.lineLoad,
     row.earthBond, row.insulation, row.earthLeakageNc, row.earthLeakageNo,
     row.enclosureLeakageNc, row.enclosureLeakageNo, row.enclosureLeakageEo,
     row.appliedPartLeakageNc, row.appliedPartLeakageNo, row.appliedPartLeakageEo,
     row.mainsContact, row.overallPassFail]
  }

  /** Reading a sheet row back into the record. */
  function FromColumns(cells: seq<string>): InterfaceRow
    requires |cells| == ColumnCount
  {
    InterfaceRow(cells[0], cells[1], cells[2], cells[3], cells[4], cells[5], cells[6],
      cells[7], cells[8], cells[9], cells[10], cells[11], cells[12], cells[13], cells[14],
      cells[15], cells[16], cells[17], cells[18], cells[19], cells[20], cells[21])
  }

  /** The column order loses nothing: each field has its own column. */
  lemma ColumnsRoundTrip(row: InterfaceRow)
    ensures FromColumns(Columns(row)) == row
  {
  }

  lemma FromColumnsRoundTrip(cells: seq<string>)
    requires |cells| == ColumnCount
    ensures Columns(FromColumns(cells)) == cells
  {
  }

  /** The sheet the rows are appended to, as its rows of cells. */
  class Sheet {
    var rows: seq<seq<string>>

    constructor(existing: seq<seq<string>>)
      ensures rows == existing
    {
      rows := existing;
    }

    /** `append_rows_to_template`: each record becomes one new row after
        the last one, its fields in column order. */
    method AppendRows(records: seq<InterfaceRow>)
      modifies this
      ensures |rows| == |old(rows)| + |records|
      ensures rows[..|old(rows)|] == old(rows)
      ensures forall k :: 0 <= k < |records| ==> rows[|old(rows)| + k] == Columns(records[k])
    {
      var k := 0;
      while k < |records|
        invariant 0 <= k <= |records|
        invariant |rows| == |old(rows)| + k
        invariant rows[..|old(rows)|] == old(rows)
        invariant forall j :: 0 <= j < k ==> rows[|old(rows)| + j] == Columns(records[j])
      {
        rows := rows + [Columns(records[k])];
        k := k + 1;
      }
    }
  }

  // ------------------------------------------------------------------
  // The measurement lookup
  // ------------------------------------------------------------------

  /** The lookup key of a measurement. */
  function KeyOf(m: Measurement): (Group, Condition) {
    (m.group, m.cond)
  }

  /** The measurements with a key, in their original order. */
  function Matching(ms: seq<Measurement>, key: (Group, Condition)): (r: seq<Measurement>)
    ensures |r| <= |ms|
    ensures forall j :: 0 <= j < |r| ==> KeyOf(r[j]) == key && r[j] in ms
  {
    if ms == [] then []
    else Matching(ms[..|ms| - 1], key) + (if KeyOf(ms[|ms| - 1]) == key then [ms[|ms| - 1]] else [])
  }

  /** The lookup the mapping builds: each key to its measurements in order. */
  function MeasMap(ms: seq<Measurement>): map<(Group, Condition), seq<Measurement>> {
    if ms == [] then map[]
    else
      var m := MeasMap(ms[..|ms| - 1]);
      var last := ms[|ms| - 1];
      m[KeyOf(last) := Get(m, KeyOf(last), []) + [last]]
  }

  /** The lookup holds, for every key, exactly the measurements with that
      key, and holds no key without one. */
  lemma {:induction false} MeasMapIsMatching(ms: seq<Measurement>, key: (Group, Condition))
    ensures Get(MeasMap(ms), key, []) == Matching(ms, key)
    ensures key in MeasMap(ms) <==> Matching(ms, key) != []
  {
    if ms != [] {
      MeasMapIsMatching(ms[..|ms| - 1], key);
    }
  }

  /** The lookup loop: each measurement appended to the list of its key. */
  method GroupMeasurements(ms: seq<Measurement>) returns (measMap: map<(Group, Condition), seq<Measurement>>)
    ensures measMap == MeasMap(ms)
  {
    measMap := map[];
    var k := 0;
    while k < |ms|
      invariant 0 <= k <= |ms|
      invariant measMap == MeasMap(ms[..k])
    {
      assert ms[..k + 1][..k] == ms[..k];
      var key := KeyOf(ms[k]);
      if key !in measMap {
        measMap := measMap[key := []];
      }
      measMap := measMap[key := measMap[key] + [ms[k]]];
      k := k + 1;
    }
    assert ms[..k] == ms;
  }

  /** The head of a lookup list, when it is not empty. */
  function Head(list: seq<Measurement>): (h: Option<Measurement>)
    ensures h.None? <==> list == []
    ensures h.Some? ==> h.value == list[0]
  {
    if list == [] then None else Some(list[0])
  }

  /** The first measurement of a group and condition. */
  function FirstOf(ms: seq<Measurement>, g: Group, c: Condition): (m: Option<Measurement>)
  {
    Head(Matching(ms, (g, c)))
  }

  /** One more measurement is the first of its key only when no earlier
      one has that key. */
  lemma FirstOfStep(ms: seq<Measurement>, g: Group, c: Condition)
    requires ms != []
    ensures var init := ms[..|ms| - 1];
      FirstOf(ms, g, c) ==
        if FirstOf(init, g, c).Some? then FirstOf(init, g, c)
        else if KeyOf(ms[|ms| - 1]) == (g, c) then Some(ms[|ms| - 1])
        else None
  {
    var init := ms[..|ms| - 1];
    var earlier := Matching(init, (g, c));
    assert Matching(ms, (g, c)) == earlier + (if KeyOf(ms[|ms| - 1]) == (g, c) then [ms[|ms| - 1]] else []);
    if earlier != [] {
      assert Matching(ms, (g, c))[0] == earlier[0];
    }
  }

  /** The first measurement of a key is the earliest one with that key. */
  lemma {:induction false} FirstOfIsEarliest(ms: seq<Measurement>, g: Group, c: Condition)
    ensures FirstOf(ms, g, c).None? <==> forall j :: 0 <= j < |ms| ==> KeyOf(ms[j]) != (g, c)
    ensures FirstOf(ms, g, c).Some? ==>
      exists i :: (0 <= i < |ms| && ms[i] == FirstOf(ms, g, c).value
        && KeyOf(ms[i]) == (g, c) && forall j :: 0 <= j < i ==> KeyOf(ms[j]) != (g, c))
  {
    if ms != [] {
      var init := ms[..|ms| - 1];
      FirstOfIsEarliest(init, g, c);
      FirstOfStep(ms, g, c);
      assert forall j :: 0 <= j < |init| ==> ms[j] == init[j];
      if FirstOf(init, g, c).Some? {
        var i :| 0 <= i < |init| && init[i] == FirstOf(init, g, c).value
          && KeyOf(init[i]) == (g, c) && forall j :: 0 <= j < i ==> KeyOf(init[j]) != (g, c);
        assert FirstOf(ms, g, c) == FirstOf(init, g, c);
        assert ms[i] == FirstOf(ms, g, c).value;
      } else if KeyOf(ms[|ms| - 1]) == (g, c) {
        assert FirstOf(ms, g, c) == Some(ms[|ms| - 1]);
      } else {
        assert FirstOf(ms, g, c).None?;
      }
    }
  }

  // ------------------------------------------------------------------
  // Column texts
  // ------------------------------------------------------------------

  function PassFailText(pf: PassFail): string {
    match pf
    case Pass => "Pass"
    case Fail => "Failed"
  }

  /** A reading column: "NA" without a measurement, otherwise the value,
      "Pass" or "Failed", the limit and the unit, separated by commas. */
  function FormatField(meas: Option<Measurement>, limit: string, unit: string, show: real -> string): (t: string)
    ensures meas.None? ==> t == "NA"
    ensures meas.Some? ==> ',' in t
    ensures t == "NA" <==> meas.None?
  {
    match meas
    case None => "NA"
    case Some(m) =>
      var t := show(m.value) + ("," + (PassFailText(m.pf) + ("," + (limit + ("," + unit)))));
      assert t[|show(m.value)|] == ',';
      assert ',' !in "NA";
      t
  }

  /** A shown reading splits back into its value, result, limit and unit,
      and is never "NA". */
  lemma FormatFieldParts(m: Measurement, limit: string, unit: string, show: real -> string)
    requires ',' !in show(m.value) && ',' !in limit && ',' !in unit
    ensures Split(FormatField(Some(m), limit, unit, show), ',') == [show(m.value), PassFailText(m.pf), limit, unit]
    ensures FormatField(Some(m), limit, unit, show) != "NA"
  {
    assert ',' !in PassFailText(m.pf);
    SplitFourFields(show(m.value), PassFailText(m.pf), limit, unit, ',');
  }

  /** The line-load text from the L-N and N-E mains readings. */
  function LineLoadText(ln: real, ne: real, show: real -> string): (t: string)
    ensures t != "NA"
  {
    var t := show(ln) + "V [L-N=" + show(ne) + "V][Load=0.0kVA]";
    assert t[|t| - 1] == ']';
    t
  }

  /** The insulation test voltage named in a subtest: 250 V before 500 V. */
  function VoltageLabel(subtest: string): string {
    if subtest == "" then ""
    else if Contains(subtest, "250") then " [250V]"
    else if Contains(subtest, "500") then " [500V]"
    else ""
  }

  /** Two digits, with a leading zero below ten, as in "%d" and "%m". */
  function Pad2(n: nat): (t: string)
    ensures |t| >= 2 && forall i :: 0 <= i < |t| ==> IsDigit(t[i])
  {
    if n < 10 then "0" + NatToString(n) else NatToString(n)
  }

  lemma Pad2Length(n: nat)
    requires n < 100
    ensures |Pad2(n)| == 2
  {
    if n >= 10 {
      assert |NatToString(n / 10)| == 1;
    }
  }

  /** The padded digits read back as the number. */
  lemma Pad2Value(n: nat)
    ensures DigitsValue(Pad2(n)) == n
  {
    DigitsValueOfNat(n);
    if n < 10 {
      var t := Pad2(n);
      assert t[..|t| - 1] == "0";
      assert DigitsValue("0") == 0;
    }
  }

  /** The test date as "%d/%m/%Y". */
  function DateText(d: Date): string {
    Pad2(d.day) + "/" + Pad2(d.month) + "/" + NatToString(d.year)
  }

  lemma YearDigits(y: nat)
    requires 1000 <= y <= 9999
    ensures |NatToString(y)| == 4
  {
    assert |NatToString(y / 10)| == 3 by {
      assert |NatToString(y / 100)| == 2 by {
        assert |NatToString(y / 1000)| == 1;
      }
    }
  }

  /** A date with day and month below 100 and a four-digit year is ten
      characters: two digits, a slash, two digits, a slash, the year, each
      part reading back as the date's own number. */
  lemma DateTextShape(d: Date)
    requires d.day < 100 && d.month < 100 && 1000 <= d.year <= 9999
    ensures var t := DateText(d);
      && |t| == 10 && t[2] == '/' && t[5] == '/'
      && DigitsValue(t[..2]) == d.day && DigitsValue(t[3..5]) == d.month && DigitsValue(t[6..]) == d.year
  {
    var t := DateText(d);
    var dd := Pad2(d.day);
    var mm := Pad2(d.month);
    var yy := NatToString(d.year);
    Pad2Length(d.day);
    Pad2Length(d.month);
    YearDigits(d.year);
    assert t[..2] == dd && t[3..5] == mm && t[6..] == yy;
    Pad2Value(d.day);
    Pad2Value(d.month);
    DigitsValueOfNat(d.year);
  }

  // ------------------------------------------------------------------
  // The test sequence: re.sub(r'^_\d+\s*-\s*', '', template)
  // ------------------------------------------------------------------

  /** The length of the digit run at the front of a text. */
  function DigitRunLength(s: string): (n: nat)
    ensures n <= |s|
    ensures forall i :: 0 <= i < n ==> IsDigit(s[i])
    ensures n == |s| || !IsDigit(s[n])
  {
    if s == [] || !IsDigit(s[0]) then 0 else 1 + DigitRunLength(s[1..])
  }

  /** The length of the white-space run at the front of a text. */
  function SpaceRunLength(s: string): (n: nat)
    ensures n <= |s|
    ensures forall i :: 0 <= i < n ==> IsSpace(s[i])
    ensures n == |s| || !IsSpace(s[n])
  {
    if s == [] || !IsSpace(s[0]) then 0 else 1 + SpaceRunLength(s[1..])
  }

  /** The text after optional white space, a dash and optional white
      space, when it starts that way. */
  function AfterDash(s: string): (r: Option<string>)
    ensures r.Some? ==> |r.value| < |s| && r.value == s[|s| - |r.value|..]
  {
    var a := s[SpaceRunLength(s)..];
    if a == [] || a[0] != '-' then None
    else
      var b := a[1..];
      Some(b[SpaceRunLength(b)..])
  }

  /** The template name without a leading sequence prefix (an underscore,
      digits, optional white space, a dash, optional white space); other
      names are kept whole. */
  function TestSeq(template: string): (t: string)
    ensures |t| <= |template| && t == template[|template| - |t|..]
  {
    if template == [] || template[0] != '_' then template
    else
      var digits := DigitRunLength(template[1..]);
      if digits == 0 then template
      else
        match AfterDash(template[1..][digits..])
        case None => template
        case Some(rest) => rest
  }

  /** A name that does not start with an underscore is its own sequence. */
  lemma TestSeqWithoutPrefix(template: string)
    requires template == [] || template[0] != '_'
    ensures TestSeq(template) == template
  {
  }

  lemma {:induction false} DigitRunOf(digits: string, rest: string)
    requires forall i :: 0 <= i < |digits| ==> IsDigit(digits[i])
    requires rest == [] || !IsDigit(rest[0])
    ensures DigitRunLength(digits + rest) == |digits|
  {
    if digits != [] {
      assert (digits + rest)[1..] == digits[1..] + rest;
      DigitRunOf(digits[1..], rest);
    } else {
      assert digits + rest == rest;
    }
  }

  lemma {:induction false} SpaceRunOf(spaces: string, rest: string)
    requires forall i :: 0 <= i < |spaces| ==> IsSpace(spaces[i])
    requires rest == [] || !IsSpace(rest[0])
    ensures SpaceRunLength(spaces + rest) == |spaces|
  {
    if spaces != [] {
      assert (spaces + rest)[1..] == spaces[1..] + rest;
      SpaceRunOf(spaces[1..], rest);
    } else {
      assert spaces + rest == rest;
    }
  }

  lemma AfterDashOf(before: string, after: string, rest: string)
    requires forall i :: 0 <= i < |before| ==> IsSpace(before[i])
    requires forall i :: 0 <= i < |after| ==> IsSpace(after[i])
    requires rest == [] || !IsSpace(rest[0])
    ensures AfterDash(before + "-" + after + rest) == Some(rest)
  {
    var x := after + rest;
    var tail := ['-'] + x;
    assert before + "-" + after + rest == before + tail;
    SpaceRunOf(before, tail);
    DashAfterSpaces(before, tail);
    assert tail[1..] == x;
    SpaceRunOf(after, rest);
    assert x[|after|..] == rest;
  }

  /** After the leading white space comes the dash. */
  lemma DashAfterSpaces(lead: string, tail: string)
    requires SpaceRunLength(lead + tail) == |lead|
    requires tail != [] && tail[0] == '-'
    ensures AfterDash(lead + tail) == Some(tail[1..][SpaceRunLength(tail[1..])..])
  {
    assert (lead + tail)[|lead|..] == tail;
  }

  /** The sequence prefix is removed: `_0001 - Rest` gives `Rest`, for any
      digits and any white space around the dash. */
  lemma TestSeqStripsPrefix(digits: string, before: string, after: string, rest: string)
    requires |digits| > 0 && forall i :: 0 <= i < |digits| ==> IsDigit(digits[i])
    requires forall i :: 0 <= i < |before| ==> IsSpace(before[i])
    requires forall i :: 0 <= i < |after| ==> IsSpace(after[i])
    requires rest == [] || !IsSpace(rest[0])
    ensures TestSeq("_" + digits + before + "-" + after + rest) == rest
  {
    var tail := before + "-" + after + rest;
    var t := "_" + digits + before + "-" + after + rest;
    assert t[1..] == digits + tail;
    assert tail == [] || !IsDigit(tail[0]) by {
      if before != [] {
        assert tail[0] == before[0];
      } else {
        assert tail[0] == '-';
      }
    }
    DigitRunOf(digits, tail);
    assert (digits + tail)[|digits|..] == tail;
    AfterDashOf(before, after, rest);
  }

  // ------------------------------------------------------------------
  // build_interface_row
  // ------------------------------------------------------------------

  /** Everything a reading column needs besides the measurements. */
  datatype Setting = Setting(standard: Standard, classType: string, limits: map<string, string>, show: real -> string)
  {
    predicate Earthed() {
      ClassIsEarthed(classType, standard)
    }

    function Limit(field: string): string {
      FixedLimit(limits, standard, classType, field)
    }
  }

  /** The column of a group and condition: its first measurement, shown
      with the limit the lookup gives for the field. */
  function Reading(ms: seq<Measurement>, s: Setting, g: Group, c: Condition, field: string, unit: string): string {
    FormatField(FirstOf(ms, g, c), s.Limit(field), unit, s.show)
  }

  /** The line-load column: only when both the L-N and the N-E normal
      condition readings exist. */
  function LineLoadOf(ms: seq<Measurement>, show: real -> string): string {
    var ln := FirstOf(ms, MainsVoltageLN, NormalCondition);
    var ne := FirstOf(ms, MainsVoltageNE, NormalCondition);
    if ln.Some? && ne.Some? then LineLoadText(ln.value.value, ne.value.value, show) else "NA"
  }

  /** The earth-bond column, for an earthed class only. */
  function EarthBondOf(ms: seq<Measurement>, s: Setting): string {
    if s.Earthed() then Reading(ms, s, ProtEarthRes, NormalCondition, "earth_bond", "Ohms") else "NA"
  }

  /** The insulation column, its unit naming the test voltage of the
      first insulation reading's subtest. */
  function InsulationOf(ms: seq<Measurement>, s: Setting): string {
    var first := FirstOf(ms, Insulation, NormalCondition);
    var unit := "MOhms" + (if first.Some? then VoltageLabel(first.value.subtest) else "");
    Reading(ms, s, Insulation, NormalCondition, "insulation", unit)
  }

  /** Whether earth leakage is reported: always under 3760, under 3551
      only for an earthed class. */
  predicate EarthLeakageApplies(standard: Standard, earthed: bool) {
    standard == AS3760 || (standard == AS3551 && earthed)
  }

  function EarthLeakageOf(ms: seq<Measurement>, s: Setting, c: Condition, field: string): string {
    if EarthLeakageApplies(s.standard, s.Earthed()) then Reading(ms, s, EarthLeak, c, field, "uA") else "NA"
  }

  /** The applied-part and mains-contact columns, under 3551 only. */
  function PatientOf(ms: seq<Measurement>, s: Setting, g: Group, c: Condition, field: string): string {
    if s.standard == AS3551 then Reading(ms, s, g, c, field, "uA") else "NA"
  }

  /** Some measurement failed. */
  predicate HasFailure(ms: seq<Measurement>) {
    exists j :: 0 <= j < |ms| && ms[j].pf == Fail
  }

  /** The row of a parsed file, once its standard and class are known. */
  function RowFor(parsed: FlukeParsed, testerMap: map<string, string>, s: Setting): InterfaceRow {
    var ms := parsed.measurements;
    InterfaceRow(
      operator := parsed.operator,
      equipmentNumber := parsed.equipment,
      assetNumber := Get(testerMap, parsed.testerSn, parsed.testerSn),
      standard := s.standard.Name(),
      testType := "Routine",
      classType := s.classType,
      testSeq := TestSeq(parsed.template),
      testDate := DateText(parsed.dt),
      visualPassFail := "P",
      lineLoad := LineLoadOf(ms, s.show),
      earthBond := EarthBondOf(ms, s),
      insulation := InsulationOf(ms, s),
      earthLeakageNc := EarthLeakageOf(ms, s, NormalCondition, "earth_leakage_nc"),
      earthLeakageNo := EarthLeakageOf(ms, s, OpenNeutral, "earth_leakage_no"),
      enclosureLeakageNc := Reading(ms, s, EnclosureLeak, NormalCondition, "enclosure_leakage_nc", "uA"),
      enclosureLeakageNo := Reading(ms, s, EnclosureLeak, OpenNeutral, "enclosure_leakage_no", "uA"),
      enclosureLeakageEo := Reading(ms, s, EnclosureLeak, OpenEarth, "enclosure_leakage_eo", "uA"),
      appliedPartLeakageNc := PatientOf(ms, s, PatientLeak, NormalCondition, "patient_leakage_nc"),
      appliedPartLeakageNo := PatientOf(ms, s, PatientLeak, OpenNeutral, "patient_leakage_no"),
      appliedPartLeakageEo := PatientOf(ms, s, PatientLeak, OpenEarth, "patient_leakage_eo"),
      mainsContact := PatientOf(ms, s, MainsOnAppliedPart, NormalCondition, "mains_contact"),
      overallPassFail := if HasFailure(ms) then "F" else "P")
  }

  /** The error `build_interface_row` reports for a template without a
      standard. */
  function NoStandardError(template: string): string {
    "Could not infer standard from template: " + template
  }

  /** `build_interface_row`: no row, and one error naming the template,
      exactly when no standard can be inferred from the template. */
  function InterfaceRowOf(parsed: FlukeParsed, testerMap: map<string, string>, limits: map<string, string>, show: real -> string): (r: Result<InterfaceRow, seq<string>>)
    ensures r.Failure? <==> InferStandard(parsed.template).None?
    ensures r.Failure? ==> r.error == [NoStandardError(parsed.template)]
    ensures r.Success? ==> r.value.standard == InferStandard(parsed.template).value.Name()
  {
    match InferStandard(parsed.template)
    case None => Failure([NoStandardError(parsed.template)])
    case Some(standard) =>
      var classType := InferClassType(parsed.template, standard);
      Success(RowFor(parsed, testerMap, Setting(standard, classType, limits, show)))
  }

  /** A reading column is "NA" exactly when its group and condition have
      no measurement. */
  lemma ReadingNAIff(ms: seq<Measurement>, s: Setting, g: Group, c: Condition, field: string, unit: string)
    ensures Reading(ms, s, g, c, field, unit) == "NA" <==> forall j :: 0 <= j < |ms| ==> KeyOf(ms[j]) != (g, c)
  {
    FirstOfIsEarliest(ms, g, c);
  }

  /** A shown reading is the first measurement of its key, with its result,
      the limit the lookup gives and the unit. */
  lemma ReadingParts(ms: seq<Measurement>, s: Setting, g: Group, c: Condition, field: string, unit: string)
    requires FirstOf(ms, g, c).Some?
    requires ',' !in s.show(FirstOf(ms, g, c).value.value) && ',' !in s.Limit(field) && ',' !in unit
    ensures var m := FirstOf(ms, g, c).value;
      Split(Reading(ms, s, g, c, field, unit), ',') == [s.show(m.value), PassFailText(m.pf), s.Limit(field), unit]
  {
    FormatFieldParts(FirstOf(ms, g, c).value, s.Limit(field), unit, s.show);
  }

  /** Under 3760 the applied-part and mains-contact columns stay "NA". */
  lemma PatientColumnsOnlyUnder3551(parsed: FlukeParsed, testerMap: map<string, string>, limits: map<string, string>, show: real -> string)
    requires InferStandard(parsed.template) == Some(AS3760)
    ensures var row := InterfaceRowOf(parsed, testerMap, limits, show).value;
      && row.appliedPartLeakageNc == "NA" && row.appliedPartLeakageNo == "NA"
      && row.appliedPartLeakageEo == "NA" && row.mainsContact == "NA"
  {
  }

  /** A class that is not earthed gets no earth-bond and no earth-leakage
      reading. */
  lemma UnearthedGetsNoEarthReadings(parsed: FlukeParsed, testerMap: map<string, string>, limits: map<string, string>, show: real -> string)
    requires InferStandard(parsed.template).Some?
    requires !ClassIsEarthed(InferClassType(parsed.template, InferStandard(parsed.template).value), InferStandard(parsed.template).value)
    ensures var row := InterfaceRowOf(parsed, testerMap, limits, show).value;
      row.earthBond == "NA" && row.earthLeakageNc == "NA" && row.earthLeakageNo == "NA"
  {
  }

  /** A "NO EARTH" template governed by 3551 is reported without earth
      readings. */
  lemma NoEarthTemplateUnder3551(parsed: FlukeParsed, testerMap: map<string, string>, limits: map<string, string>, show: real -> string)
    requires Contains(Upper(parsed.template), "NO EARTH")
    requires InferStandard(parsed.template) == Some(AS3551)
    ensures var row := InterfaceRowOf(parsed, testerMap, limits, show).value;
      row.earthBond == "NA" && row.earthLeakageNc == "NA" && row.earthLeakageNo == "NA"
  {
    NoEarthTemplateEarthedness(parsed.template, AS3551);
    UnearthedGetsNoEarthReadings(parsed, testerMap, limits, show);
  }

  /** The line load is shown exactly when there is both an L-N and an N-E
      mains-voltage measurement under normal condition. */
  lemma LineLoadShownIff(parsed: FlukeParsed, testerMap: map<string, string>, limits: map<string, string>, show: real -> string)
    requires InferStandard(parsed.template).Some?
    ensures var row := InterfaceRowOf(parsed, testerMap, limits, show).value;
      var ms := parsed.measurements;
      row.lineLoad != "NA" <==>
        (exists i :: 0 <= i < |ms| && KeyOf(ms[i]) == (MainsVoltageLN, NormalCondition))
        && (exists i :: 0 <= i < |ms| && KeyOf(ms[i]) == (MainsVoltageNE, NormalCondition))
  {
    FirstOfIsEarliest(parsed.measurements, MainsVoltageLN, NormalCondition);
    FirstOfIsEarliest(parsed.measurements, MainsVoltageNE, NormalCondition);
  }

  /** The overall result is "F" exactly when some measurement failed, and
      "P" otherwise. */
  lemma OverallFailsIff(parsed: FlukeParsed, testerMap: map<string, string>, limits: map<string, string>, show: real -> string)
    requires InferStandard(parsed.template).Some?
    ensures var row := InterfaceRowOf(parsed, testerMap, limits, show).value;
      && (row.overallPassFail == "F" <==> exists j :: 0 <= j < |parsed.measurements| && parsed.measurements[j].pf == Fail)
      && row.overallPassFail in ["P", "F"]
  {
  }

  /** The asset number is the tester map's entry for the tester serial
      number, or the serial number itself when the map has none. */
  lemma AssetNumberFromTesterMap(parsed: FlukeParsed, testerMap: map<string, string>, limits: map<string, string>, show: real -> string)
    requires InferStandard(parsed.template).Some?
    ensures var row := InterfaceRowOf(parsed, testerMap, limits, show).value;
      && (parsed.testerSn in testerMap ==> row.assetNumber == testerMap[parsed.testerSn])
      && (parsed.testerSn !in testerMap ==> row.assetNumber == parsed.testerSn)
  {
  }

  /** The overall result loop: "F" at the first failed measurement, "P"
      when there is none. */
  method OverallPassFail(ms: seq<Measurement>) returns (overall: string)
    ensures overall == "F" <==> HasFailure(ms)
    ensures overall == "P" <==> !HasFailure(ms)
  {
    overall := "P";
    var k := 0;
    while k < |ms|
      invariant 0 <= k <= |ms|
      invariant forall j :: 0 <= j < k ==> ms[j].pf != Fail
    {
      if ms[k].pf == Fail {
        overall := "F";
        break;
      }
      k := k + 1;
    }
  }

  /** The first measurement of a key, read from the lookup. */
  method LookupFirst(measMap: map<(Group, Condition), seq<Measurement>>, ghost ms: seq<Measurement>, g: Group, c: Condition) returns (m: Option<Measurement>)
    requires measMap == MeasMap(ms)
    ensures m == FirstOf(ms, g, c)
  {
    MeasMapIsMatching(ms, (g, c));
    var list := Get(measMap, (g, c), []);
    m := if list != [] then Some(list[0]) else None;
  }

  /** One reading column from the lookup: left at "NA" when the key has no
      measurements. */
  method LookupReading(measMap: map<(Group, Condition), seq<Measurement>>, ghost ms: seq<Measurement>, s: Setting, g: Group, c: Condition, field: string, unit: string) returns (t: string)
    requires measMap == MeasMap(ms)
    ensures t == Reading(ms, s, g, c, field, unit)
  {
    var first := LookupFirst(measMap, ms, g, c);
    t := "NA";
    if first.Some? {
      t := FormatField(first, s.Limit(field), unit, s.show);
    }
  }

  /** The mains-voltage, earth-bond and insulation columns. */
  method MainsReadings(measMap: map<(Group, Condition), seq<Measurement>>, ghost ms: seq<Measurement>, s: Setting)
    returns (lineLoad: string, earthBond: string, insulation: string)
    requires measMap == MeasMap(ms)
    ensures lineLoad == LineLoadOf(ms, s.show)
    ensures earthBond == EarthBondOf(ms, s)
    ensures insulation == InsulationOf(ms, s)
  {
    lineLoad := "NA";
    var ln := LookupFirst(measMap, ms, MainsVoltageLN, NormalCondition);
    var ne := LookupFirst(measMap, ms, MainsVoltageNE, NormalCondition);
    if ln.Some? && ne.Some? {
      lineLoad := LineLoadText(ln.value.value, ne.value.value, s.show);
    }
    earthBond := "NA";
    if s.Earthed() {
      earthBond := LookupReading(measMap, ms, s, ProtEarthRes, NormalCondition, "earth_bond", "Ohms");
    }
    var ins := LookupFirst(measMap, ms, Insulation, NormalCondition);
    var voltage := "";
    if ins.Some? {
      voltage := VoltageLabel(ins.value.subtest);
    }
    insulation := LookupReading(measMap, ms, s, Insulation, NormalCondition, "insulation", "MOhms" + voltage);
  }

  /** The earth- and enclosure-leakage columns. */
  method LeakageReadings(measMap: map<(Group, Condition), seq<Measurement>>, ghost ms: seq<Measurement>, s: Setting)
    returns (earthNc: string, earthNo: string, encNc: string, encNo: string, encEo: string)
    requires measMap == MeasMap(ms)
    ensures earthNc == EarthLeakageOf(ms, s, NormalCondition, "earth_leakage_nc")
    ensures earthNo == EarthLeakageOf(ms, s, OpenNeutral, "earth_leakage_no")
    ensures encNc == Reading(ms, s, EnclosureLeak, NormalCondition, "enclosure_leakage_nc", "uA")
    ensures encNo == Reading(ms, s, EnclosureLeak, OpenNeutral, "enclosure_leakage_no", "uA")
    ensures encEo == Reading(ms, s, EnclosureLeak, OpenEarth, "enclosure_leakage_eo", "uA")
  {
    earthNc, earthNo := "NA", "NA";
    if EarthLeakageApplies(s.standard, s.Earthed()) {
      earthNc := LookupReading(measMap, ms, s, EarthLeak, NormalCondition, "earth_leakage_nc", "uA");
      earthNo := LookupReading(measMap, ms, s, EarthLeak, OpenNeutral, "earth_leakage_no", "uA");
    }
    encNc := LookupReading(measMap, ms, s, EnclosureLeak, NormalCondition, "enclosure_leakage_nc", "uA");
    encNo := LookupReading(measMap, ms, s, EnclosureLeak, OpenNeutral, "enclosure_leakage_no", "uA");
    encEo := LookupReading(measMap, ms, s, EnclosureLeak, OpenEarth, "enclosure_leakage_eo", "uA");
  }

  /** The applied-part and mains-contact columns. */
  method PatientReadings(measMap: map<(Group, Condition), seq<Measurement>>, ghost ms: seq<Measurement>, s: Setting)
    returns (patNc: string, patNo: string, patEo: string, mainsContact: string)
    requires measMap == MeasMap(ms)
    ensures patNc == PatientOf(ms, s, PatientLeak, NormalCondition, "patient_leakage_nc")
    ensures patNo == PatientOf(ms, s, PatientLeak, OpenNeutral, "patient_leakage_no")
    ensures patEo == PatientOf(ms, s, PatientLeak, OpenEarth, "patient_leakage_eo")
    ensures mainsContact == PatientOf(ms, s, MainsOnAppliedPart, NormalCondition, "mains_contact")
  {
    patNc, patNo, patEo, mainsContact := "NA", "NA", "NA", "NA";
    if s.standard == AS3551 {
      patNc := LookupReading(measMap, ms, s, PatientLeak, NormalCondition, "patient_leakage_nc", "uA");
      patNo := LookupReading(measMap, ms, s, PatientLeak, OpenNeutral, "patient_leakage_no", "uA");
      patEo := LookupReading(measMap, ms, s, PatientLeak, OpenEarth, "patient_leakage_eo", "uA");
      mainsContact := LookupReading(measMap, ms, s, MainsOnAppliedPart, NormalCondition, "mains_contact", "uA");
    }
  }

  /** `build_interface_row` as the source runs it: the identity columns
      with every reading at "NA", then the lookup, the gated readings and
      the overall result. */
  method BuildInterfaceRow(parsed: FlukeParsed, testerMap: map<string, string>, limits: map<string, string>, show: real -> string)
    returns (r: Result<InterfaceRow, seq<string>>)
    ensures r == InterfaceRowOf(parsed, testerMap, limits, show)
  {
    var inferred := InferStandard(parsed.template);
    if inferred.None? {
      return Failure([NoStandardError(parsed.template)]);
    }
    var standard := inferred.value;
    var classType := InferClassType(parsed.template, standard);
    var s := Setting(standard, classType, limits, show);
    var row := InterfaceRow(parsed.operator, parsed.equipment, Get(testerMap, parsed.testerSn, parsed.testerSn),
      standard.Name(), "Routine", classType, TestSeq(parsed.template), DateText(parsed.dt), "P",
      "NA", "NA", "NA", "NA", "NA", "NA", "NA", "NA", "NA", "NA", "NA", "NA", "P");
    var measMap := GroupMeasurements(parsed.measurements);
    var lineLoad, earthBond, insulation := MainsReadings(measMap, parsed.measurements, s);
    row := row.(lineLoad := lineLoad, earthBond := earthBond, insulation := insulation);
    var earthNc, earthNo, encNc, encNo, encEo := LeakageReadings(measMap, parsed.measurements, s);
    row := row.(earthLeakageNc := earthNc, earthLeakageNo := earthNo,
      enclosureLeakageNc := encNc, enclosureLeakageNo := encNo, enclosureLeakageEo := encEo);
    var patNc, patNo, patEo, mainsContact := PatientReadings(measMap, parsed.measurements, s);
    row := row.(appliedPartLeakageNc := patNc, appliedPartLeakageNo := patNo,
      appliedPartLeakageEo := patEo, mainsContact := mainsContact);
    var overall := OverallPassFail(parsed.measurements);
    row := row.(overallPassFail := overall);
    r := Success(row);
  }
}

/** The pure rules layer of the converter: canonical measurement groups,
    electrical conditions, the governing standard and equipment class
    inferred from a template name, the earthed predicate, and the
    three-level limit lookup (limits table entry for the class, entry for
    the standard, built-in default). */
module Rules {
  import opened Base
  import opened PyText

  // ------------------------------------------------------------------
  // Closed tag sets
  // ------------------------------------------------------------------

  /** The eight canonical measurement groups. */
  datatype Group =
    | ProtEarthRes | MainsVoltageLN | MainsVoltageNE | Insulation
    | EarthLeak | EnclosureLeak | PatientLeak | MainsOnAppliedPart
  {
    /** The group's constant in the source. */
    function Tag(): string {
      match this
      case ProtEarthRes => "G_PROT_EARTH_RES"
      case MainsVoltageLN => "G_MAINS_V_LN"
      case MainsVoltageNE => "G_MAINS_V_NE"
      case Insulation => "G_INSULATION"
      case EarthLeak => "G_EARTH_LEAK"
      case EnclosureLeak => "G_ENC_LEAK"
      case PatientLeak => "G_PATIENT_LEAK"
      case MainsOnAppliedPart => "G_MAINS_ON_AP"
    }

    /** Position of the group's rule in the order the rules are tried. */
    function Rank(): nat {
      match this
      case ProtEarthRes => 0
      case MainsVoltageLN => 1
      case MainsVoltageNE => 2
      case Insulation => 3
      case EarthLeak => 4
      case EnclosureLeak => 5
      case PatientLeak => 6
      case MainsOnAppliedPart => 7
    }
  }

  /** The three normalised electrical conditions. */
  datatype Condition = NormalCondition | OpenNeutral | OpenEarth {
    function Text(): string {
      match this
      case NormalCondition => "NORMAL CONDITION"
      case OpenNeutral => "OPEN NEUTRAL"
      case OpenEarth => "OPEN EARTH"
    }
  }

  /** The two safety standards a template can be governed by. */
  datatype Standard = AS3760 | AS3551 {
    function Name(): string {
      match this
      case AS3760 => "AS/NZS 3760"
      case AS3551 => "AS/NZS 3551"
    }
  }

  // ------------------------------------------------------------------
  // Group canonicalisation
  // ------------------------------------------------------------------

  /** The test that assigns group `g` to the upper-cased group text `u`,
      taken on its own, without the rules tried before it. */
  predicate GroupRule(g: Group, u: string) {
    match g
    case ProtEarthRes =>
      Contains(u, "PROTECTIVE EARTH") || Contains(u, "EARTH BOND") || Contains(u, "EARTH CONTINUITY")
    case MainsVoltageLN =>
      Contains(u, "MAINS") && (Contains(u, "L-N") || Contains(u, "LN")) && Contains(u, "VOLTAGE")
    case MainsVoltageNE =>
      Contains(u, "MAINS") && (Contains(u, "N-E") || Contains(u, "NE")) && Contains(u, "VOLTAGE")
    case Insulation =>
      Contains(u, "INSULATION")
    case EarthLeak =>
      Contains(u, "EARTH") && Contains(u, "LEAKAGE") && !Contains(u, "ENCLOSURE")
    case EnclosureLeak =>
      Contains(u, "ENCLOSURE") && Contains(u, "LEAKAGE")
    case PatientLeak =>
      (Contains(u, "PATIENT") || Contains(u, "APPLIED PART")) && Contains(u, "LEAKAGE")
    case MainsOnAppliedPart =>
      Contains(u, "MAINS") && (Contains(u, "APPLIED") || Contains(u, "PATIENT"))
      && (Contains(u, "CONTACT") || Contains(u, "ON"))
  }

  /** `canonical_group`: the group of the first rule that matches the
      upper-cased text, or `None` when no rule matches. */
  function CanonicalGroup(raw: string): (g: Option<Group>)
    ensures g.Some? ==> GroupRule(g.value, Upper(raw))
    ensures g.Some? ==> forall h: Group :: h.Rank() < g.value.Rank() ==> !GroupRule(h, Upper(raw))
    ensures g.None? <==> forall h: Group :: !GroupRule(h, Upper(raw))
    ensures GroupRule(ProtEarthRes, Upper(raw)) ==> g == Some(ProtEarthRes)
  {
    var upper := Upper(raw);
    if Contains(upper, "PROTECTIVE EARTH") || Contains(upper, "EARTH BOND") || Contains(upper, "EARTH CONTINUITY") then
      assert GroupRule(ProtEarthRes, upper);
      Some(ProtEarthRes)
    else if Contains(upper, "MAINS") && (Contains(upper, "L-N") || Contains(upper, "LN")) && Contains(upper, "VOLTAGE") then
      assert GroupRule(MainsVoltageLN, upper);
      Some(MainsVoltageLN)
    else if Contains(upper, "MAINS") && (Contains(upper, "N-E") || Contains(upper, "NE")) && Contains(upper, "VOLTAGE") then
      assert GroupRule(MainsVoltageNE, upper);
      Some(MainsVoltageNE)
    else if Contains(upper, "INSULATION") then
      assert GroupRule(Insulation, upper);
      Some(Insulation)
    else if Contains(upper, "EARTH") && Contains(upper, "LEAKAGE") && !Contains(upper, "ENCLOSURE") then
      assert GroupRule(EarthLeak, upper);
      Some(EarthLeak)
    else if Contains(upper, "ENCLOSURE") && Contains(upper, "LEAKAGE") then
      assert GroupRule(EnclosureLeak, upper);
      Some(EnclosureLeak)
    else if (Contains(upper, "PATIENT") || Contains(upper, "APPLIED PART")) && Contains(upper, "LEAKAGE") then
      assert GroupRule(PatientLeak, upper);
      Some(PatientLeak)
    else if Contains(upper, "MAINS") && (Contains(upper, "APPLIED") || Contains(upper, "PATIENT"))
            && (Contains(upper, "CONTACT") || Contains(upper, "ON")) then
      assert GroupRule(MainsOnAppliedPart, upper);
      Some(MainsOnAppliedPart)
    else
      None
  }

  /** Upper-casing is idempotent, so the case of the group text never
      matters. */
  lemma UpperIdempotent(s: string)
    ensures Upper(Upper(s)) == Upper(s)
  {
  }

  lemma CanonicalGroupIgnoresCase(raw: string)
    ensures CanonicalGroup(Upper(raw)) == CanonicalGroup(raw)
  {
    UpperIdempotent(raw);
  }

  // ------------------------------------------------------------------
  // Condition normalisation
  // ------------------------------------------------------------------

  predicate NeutralOpenText(u: string) {
    Contains(u, "OPEN NEUTRAL") || Contains(u, "OPEN N") || Contains(u, "O/N")
  }

  predicate EarthOpenText(u: string) {
    Contains(u, "OPEN EARTH") || Contains(u, "OPEN E") || Contains(u, "O/E")
  }

  /** `normalize_condition`: total; open-neutral patterns are tried before
      open-earth ones, and everything else is the normal condition. */
  function NormalizeCondition(raw: string): (c: Condition)
    ensures c == OpenNeutral <==> NeutralOpenText(Upper(raw))
    ensures c == OpenEarth <==> !NeutralOpenText(Upper(raw)) && EarthOpenText(Upper(raw))
    ensures c == NormalCondition <==> !NeutralOpenText(Upper(raw)) && !EarthOpenText(Upper(raw))
  {
    var upper := Upper(raw);
    if Contains(upper, "OPEN NEUTRAL") || Contains(upper, "OPEN N") || Contains(upper, "O/N") then OpenNeutral
    else if Contains(upper, "OPEN EARTH") || Contains(upper, "OPEN E") || Contains(upper, "O/E") then OpenEarth
    else NormalCondition
  }

  /** Text with neither a 'P' nor a '/' matches no open-conductor
      pattern. */
  lemma NoOpenPattern(u: string)
    requires 'P' !in u && '/' !in u
    ensures !NeutralOpenText(u) && !EarthOpenText(u)
  {
    NotContainsMissingChar(u, "OPEN NEUTRAL", 'P');
    NotContainsMissingChar(u, "OPEN N", 'P');
    NotContainsMissingChar(u, "O/N", '/');
    NotContainsMissingChar(u, "OPEN EARTH", 'P');
    NotContainsMissingChar(u, "OPEN E", 'P');
    NotContainsMissingChar(u, "O/E", '/');
  }

  /** Text whose only 'O' is its first character, which has no 'U' and no
      '/', and whose sixth character is not 'N', matches no open-neutral
      pattern. */
  lemma NoOpenNeutralPattern(u: string)
    requires |u| >= 6 && u[5] != 'N'
    requires 'U' !in u && '/' !in u && 'O' !in u[1..]
    ensures !NeutralOpenText(u)
  {
    NotContainsMissingChar(u, "OPEN NEUTRAL", 'U');
    NotContainsMissingChar(u, "O/N", '/');
    assert !StartsWith(u, "OPEN N") by { assert u[..6][5] != "OPEN N"[5]; }
    NotContainsMissingChar(u[1..], "OPEN N", 'O');
  }

  lemma NormalTextIsFixedPoint()
    ensures NormalizeCondition("NORMAL CONDITION") == NormalCondition
  {
    var t := "NORMAL CONDITION";
    assert Upper(t) == t;
    NoOpenPattern(t);
  }

  lemma OpenNeutralTextIsFixedPoint()
    ensures NormalizeCondition("OPEN NEUTRAL") == OpenNeutral
  {
    var t := "OPEN NEUTRAL";
    assert Upper(t) == t;
    assert StartsWith(t, t);
  }

  lemma OpenEarthIsUpper()
    ensures Upper("OPEN EARTH") == "OPEN EARTH"
  {
  }

  lemma OpenEarthIsNotNeutral()
    ensures !NeutralOpenText("OPEN EARTH")
  {
    NoOpenNeutralPattern("OPEN EARTH");
  }

  lemma OpenEarthIsEarth()
    ensures EarthOpenText("OPEN EARTH")
  {
    assert StartsWith("OPEN EARTH", "OPEN EARTH");
  }

  lemma OpenEarthTextIsFixedPoint()
    ensures NormalizeCondition("OPEN EARTH") == OpenEarth
  {
    OpenEarthIsUpper();
    OpenEarthIsNotNeutral();
    OpenEarthIsEarth();
  }

  /** Each condition's own text normalises to that condition, so
      normalising is idempotent on its results. */
  lemma ConditionTextIsFixedPoint(c: Condition)
    ensures NormalizeCondition(c.Text()) == c
  {
    match c
    case NormalCondition => NormalTextIsFixedPoint();
    case OpenNeutral => OpenNeutralTextIsFixedPoint();
    case OpenEarth => OpenEarthTextIsFixedPoint();
  }

  lemma NormalizeConditionIdempotent(raw: string)
    ensures NormalizeCondition(NormalizeCondition(raw).Text()) == NormalizeCondition(raw)
  {
    ConditionTextIsFixedPoint(NormalizeCondition(raw));
  }

  // ------------------------------------------------------------------
  // Standard inference
  // ------------------------------------------------------------------

  /** Rule 5: some word token names a 3760 class. */
  predicate Has3760Token(toks: seq<string>) {
    exists k :: 0 <= k < |toks| && toks[k] in ["1D", "2D", "5D"]
  }

  /** Rule 6: some word token names a 3551 class or, when "TYPE" occurs in
      the template, an applied-part type. */
  predicate Has3551Token(toks: seq<string>, u: string) {
    exists k :: 0 <= k < |toks| &&
      (toks[k] in ["5B", "5BF", "5CF", "5C"] || (Contains(u, "TYPE") && toks[k] in ["BF", "CF", "B"]))
  }

  /** `infer_standard`: six rules tried in order; `None` when all fail. */
  function InferStandard(template: string): (s: Option<Standard>)
    ensures var u := Upper(template);
      && (Contains(u, "3760") ==> s == Some(AS3760))
      && (!Contains(u, "3760") && Contains(u, "3551") ==> s == Some(AS3551))
      && (!Contains(u, "3760") && !Contains(u, "3551") && Contains(u, "NO EARTH") ==>
            s == Some(if Contains(u, "DOMESTIC") then AS3760 else AS3551))
      && (!Contains(u, "3760") && !Contains(u, "3551") && !Contains(u, "NO EARTH") ==>
            s == (if Has3760Token(Tokens(u)) then Some(AS3760)
                  else if Has3551Token(Tokens(u), u) then Some(AS3551)
                  else None))
  {
    var upper := Upper(template);
    var tokens := Tokens(upper);
    if Contains(upper, "3760") then Some(AS3760)
    else if Contains(upper, "3551") then Some(AS3551)
    else if Contains(upper, "NO EARTH") && Contains(upper, "DOMESTIC") then Some(AS3760)
    else if Contains(upper, "NO EARTH") then Some(AS3551)
    else if exists k :: 0 <= k < |tokens| && tokens[k] in ["1D", "2D", "5D"] then Some(AS3760)
    else if exists k :: 0 <= k < |tokens| &&
              (tokens[k] in ["5B", "5BF", "5CF", "5C"] || (Contains(upper, "TYPE") && tokens[k] in ["BF", "CF", "B"])) then
      Some(AS3551)
    else None
  }

  /** Inference fails exactly when none of the six rules applies. */
  lemma InferStandardFailsIff(template: string)
    ensures var u := Upper(template);
      InferStandard(template).None? <==>
        !Contains(u, "3760") && !Contains(u, "3551") && !Contains(u, "NO EARTH")
        && !Has3760Token(Tokens(u)) && !Has3551Token(Tokens(u), u)
  {
  }

  // ------------------------------------------------------------------
  // Class inference
  // ------------------------------------------------------------------

  /** A token the earthed-class scan stops at: a bare "1", "2" or "5", or
      one of those digits followed by capital letters only. */
  predicate IsClassToken(t: string) {
    |t| >= 1 && t[0] in "125" && forall i :: 1 <= i < |t| ==> 'A' <= t[i] <= 'Z'
  }

  /** The class digit of the first class token, "1" when there is none. */
  function BaseClass(toks: seq<string>): (b: char)
    ensures b in "125"
    ensures (forall k :: 0 <= k < |toks| ==> !IsClassToken(toks[k])) ==> b == '1'
    ensures forall k :: (0 <= k < |toks| && IsClassToken(toks[k]) &&
              (forall j :: 0 <= j < k ==> !IsClassToken(toks[j]))) ==> b == toks[k][0]
  {
    if toks == [] then '1'
    else if IsClassToken(toks[0]) then toks[0][0]
    else BaseClass(toks[1..])
  }

  /** The classes a "NO EARTH" template can be given. */
  predicate IsNoEarthClass(c: string) {
    c in ["5D", "5CF&5BF", "5", "5CF", "5BF", "5B"]
  }

  /** `infer_class_type`. A "NO EARTH" template gets a class 5 variant
      whatever the standard; otherwise the class digit of the first class
      token followed by "D" under 3760 or by the applied-part type under
      3551. */
  function InferClassType(template: string, standard: Standard): (c: string)
    ensures Contains(Upper(template), "NO EARTH") ==> IsNoEarthClass(c)
    ensures !Contains(Upper(template), "NO EARTH") ==>
      |c| >= 1 && c[0] == BaseClass(Tokens(Upper(template)))
      && (standard == AS3760 ==> c[1..] == "D")
      && (standard == AS3551 ==> c[1..] in ["CF", "BF", "B"])
  {
    var upper := Upper(template);
    var tokens := Tokens(upper);
    if Contains(upper, "NO EARTH") then
      if Contains(upper, "DOMESTIC") then "5D"
      else if NamesBothParts(tokens) then "5CF&5BF"
      else if NamesNoApplied(upper) then "5"
      else if NamesCf(upper, tokens) then "5CF"
      else if NamesBf(upper, tokens) then "5BF"
      else if Contains(upper, "TYPE B") || "B" in tokens then "5B"
      else "5"
    else
      var base := BaseClass(tokens);
      if standard == AS3760 then [base] + "D"
      else if NamesCf(upper, tokens) then [base] + "CF"
      else if NamesBf(upper, tokens) then [base] + "BF"
      else if Contains(upper, "TYPE B") then [base] + "B"
      else [base] + "BF"
  }

  /** The applied-part cues `infer_class_type` looks for in an upper-cased
      template and its tokens. */
  predicate NamesCf(u: string, toks: seq<string>) {
    Contains(u, "TYPE CF") || "CF" in toks
  }

  predicate NamesBf(u: string, toks: seq<string>) {
    Contains(u, "TYPE BF") || "BF" in toks
  }

  predicate NamesNoApplied(u: string) {
    Contains(u, "NO AP") || Contains(u, "NO APPLIED")
  }

  predicate NamesBothParts(toks: seq<string>) {
    "5CF" in toks && ("5BF" in toks || "BF" in toks)
  }

  /** A "NO EARTH" template: the class does not depend on the standard,
      and each variant is chosen exactly when its cue is present and no
      earlier cue is, in the order domestic, both CF and BF parts, no
      applied part, CF, BF, B (phrase or bare token), plain 5. */
  lemma NoEarthClassChoice(template: string)
    requires Contains(Upper(template), "NO EARTH")
    ensures InferClassType(template, AS3760) == InferClassType(template, AS3551)
    ensures var u := Upper(template); var toks := Tokens(u);
      var c := InferClassType(template, AS3551);
      var domestic := Contains(u, "DOMESTIC");
      var both := NamesBothParts(toks);
      var typeB := Contains(u, "TYPE B") || "B" in toks;
      && (c == "5D" <==> domestic)
      && (c == "5CF&5BF" <==> !domestic && both)
      && (c == "5CF" <==> !domestic && !both && !NamesNoApplied(u) && NamesCf(u, toks))
      && (c == "5BF" <==> !domestic && !both && !NamesNoApplied(u) && !NamesCf(u, toks) && NamesBf(u, toks))
      && (c == "5B" <==> !domestic && !both && !NamesNoApplied(u) && !NamesCf(u, toks) && !NamesBf(u, toks) && typeB)
      && (c == "5" <==> !domestic && !both && (NamesNoApplied(u) || (!NamesCf(u, toks) && !NamesBf(u, toks) && !typeB)))
  {
  }

  /** A template without "NO EARTH" under 3551: the first class token's
      digit followed by "CF" when a CF cue is present, else "B" only for
      the phrase "TYPE B" with no BF cue (a bare "B" token does not count
      here), else "BF". */
  lemma EarthedClassChoice(template: string)
    requires !Contains(Upper(template), "NO EARTH")
    ensures var u := Upper(template); var toks := Tokens(u);
      var c := InferClassType(template, AS3551);
      && |c| >= 2 && c[0] == BaseClass(toks)
      && (c[1..] == "CF" <==> NamesCf(u, toks))
      && (c[1..] == "BF" <==> !NamesCf(u, toks) && (NamesBf(u, toks) || !Contains(u, "TYPE B")))
      && (c[1..] == "B" <==> !NamesCf(u, toks) && !NamesBf(u, toks) && Contains(u, "TYPE B"))
  {
  }

  /** Under 3760 a template without "NO EARTH" is class 1D, 2D or 5D, and
      1D when no token names a class. */
  lemma ClassUnder3760(template: string)
    requires !Contains(Upper(template), "NO EARTH")
    ensures InferClassType(template, AS3760) in ["1D", "2D", "5D"]
    ensures (forall k :: 0 <= k < |Tokens(Upper(template))| ==> !IsClassToken(Tokens(Upper(template))[k]))
            ==> InferClassType(template, AS3760) == "1D"
  {
    var c := InferClassType(template, AS3760);
    var b := BaseClass(Tokens(Upper(template)));
    assert c == [b] + "D";
    if b == '1' { assert c == "1D"; }
    else if b == '2' { assert c == "2D"; }
    else { assert c == "5D"; }
  }

  /** `class_is_earthed`: only a class 5 variant under 3551 is unearthed. */
  function ClassIsEarthed(classType: string, standard: Standard): (earthed: bool)
    ensures !earthed <==> |classType| >= 1 && classType[0] == '5' && standard == AS3551
  {
    if StartsWith(classType, "5") && standard == AS3551 then false else true
  }

  /** A "NO EARTH" template is unearthed exactly when its inferred standard
      is 3551, whatever the rest of its name says. */
  lemma NoEarthTemplateEarthedness(template: string, standard: Standard)
    requires Contains(Upper(template), "NO EARTH")
    requires InferStandard(template) == Some(standard)
    ensures ClassIsEarthed(InferClassType(template, standard), standard) <==> standard == AS3760
  {
  }

  /** A template without "NO EARTH" under 3551 is unearthed exactly when its
      first class token is a 5. */
  lemma EarthedTemplateUnder3551(template: string)
    requires !Contains(Upper(template), "NO EARTH")
    ensures !ClassIsEarthed(InferClassType(template, AS3551), AS3551) <==>
            BaseClass(Tokens(Upper(template))) == '5'
  {
  }

  // ------------------------------------------------------------------
  // Limits
  // ------------------------------------------------------------------

  /** `get_default_limits`: the built-in limits of a standard; the 3760 set
      has no patient-leakage and no mains-contact entries. */
  function DefaultLimits(standard: Standard): (d: map<string, string>)
    ensures standard == AS3760 ==>
      "patient_leakage_nc" !in d && "patient_leakage_no" !in d && "patient_leakage_eo" !in d && "mains_contact" !in d
    ensures "earth_bond" in d && "insulation" in d
  {
    match standard
    case AS3551 => map[
      "earth_bond" := "0.2",
      "insulation" := "1.0",
      "earth_leakage_nc" := "5000",
      "earth_leakage_no" := "5000",
      "enclosure_leakage_nc" := "500",
      "enclosure_leakage_no" := "500",
      "enclosure_leakage_eo" := "500",
      "patient_leakage_nc" := "500",
      "patient_leakage_no" := "500",
      "patient_leakage_eo" := "500",
      "mains_contact" := "25000"]
    case AS3760 => map[
      "earth_bond" := "1",
      "insulation" := "1.0",
      "earth_leakage_nc" := "5000",
      "earth_leakage_no" := "5000",
      "enclosure_leakage_nc" := "1000",
      "enclosure_leakage_no" := "1000",
      "enclosure_leakage_eo" := "1000"]
  }

  /** The cache key `standard|class|field`. */
  function LimitKey(standard: string, classType: string, field: string): string {
    standard + "|" + classType + "|" + field
  }

  /** `get_fixed_limit_for_field` over an explicit limits cache. */
  function FixedLimit(cache: map<string, string>, standard: Standard, classType: string, field: string): string {
    var exact := LimitKey(standard.Name(), classType, field);
    var generic := LimitKey(standard.Name(), "", field);
    if exact in cache then cache[exact]
    else if generic in cache then cache[generic]
    else Get(DefaultLimits(standard), field, "")
  }

  /** An entry for the exact class beats an entry for the standard. */
  lemma ExactLimitWins(cache: map<string, string>, standard: Standard, classType: string, field: string)
    requires LimitKey(standard.Name(), classType, field) in cache
    ensures FixedLimit(cache, standard, classType, field) == cache[LimitKey(standard.Name(), classType, field)]
  {
  }

  /** Without an exact entry, an entry for the standard beats the defaults. */
  lemma GenericLimitBeatsDefault(cache: map<string, string>, standard: Standard, classType: string, field: string)
    requires LimitKey(standard.Name(), classType, field) !in cache
    requires LimitKey(standard.Name(), "", field) in cache
    ensures FixedLimit(cache, standard, classType, field) == cache[LimitKey(standard.Name(), "", field)]
  {
  }

  /** With neither entry the default applies, and a field the defaults
      lack gives the empty text. */
  lemma DefaultLimitApplies(cache: map<string, string>, standard: Standard, classType: string, field: string)
    requires LimitKey(standard.Name(), classType, field) !in cache
    requires LimitKey(standard.Name(), "", field) !in cache
    ensures field in DefaultLimits(standard) ==> FixedLimit(cache, standard, classType, field) == DefaultLimits(standard)[field]
    ensures field !in DefaultLimits(standard) ==> FixedLimit(cache, standard, classType, field) == ""
  {
  }

  /** With no limits table, 3760 has no patient-leakage or mains-contact
      limit and 3551 earth bond defaults to 0.2. */
  lemma DefaultLimitExamples(classType: string)
    ensures FixedLimit(map[], AS3760, classType, "patient_leakage_nc") == ""
    ensures FixedLimit(map[], AS3760, classType, "mains_contact") == ""
    ensures FixedLimit(map[], AS3551, classType, "earth_bond") == "0.2"
    ensures FixedLimit(map[], AS3760, classType, "earth_bond") == "1"
  {
  }

  // ------------------------------------------------------------------
  // Worked examples
  // ------------------------------------------------------------------

  /** An explicit "3760" in the template decides the standard. */
  lemma Explicit3760Example(t: string)
    requires t == "TEST_3760_5D"
    ensures InferStandard(t) == Some(AS3760)
  {
    assert Upper(t) == t;
    assert OccursAt(t, "3760", 5);
    ContainsAt(t, "3760");
  }

  /** A text without small letters is its own upper-case form. */
  lemma UpperOfCapitals(s: string)
    requires forall i :: 0 <= i < |s| ==> !('a' <= s[i] <= 'z')
    ensures Upper(s) == s
  {
  }

  /** The two "NO EARTH" example names are upper case and name no
      standard number. */
  lemma NoEarthText(t: string)
    requires t == "NO EARTH DOMESTIC" || t == "NO EARTH TYPE BF"
    ensures Upper(t) == t && !Contains(t, "3760") && !Contains(t, "3551")
  {
    UpperOfCapitals(t);
    NotContainsMissingChar(t, "3760", '3');
    NotContainsMissingChar(t, "3551", '3');
  }

  lemma NoEarthDomesticWords(t: string)
    requires t == "NO EARTH DOMESTIC"
    ensures Contains(t, "NO EARTH") && Contains(t, "DOMESTIC")
  {
    assert StartsWith(t, "NO EARTH");
    assert OccursAt(t, "DOMESTIC", 9);
    ContainsAt(t, "DOMESTIC");
  }

  /** "NO EARTH" with "DOMESTIC" is 3760. */
  lemma NoEarthDomesticExample(t: string)
    requires t == "NO EARTH DOMESTIC"
    ensures InferStandard(t) == Some(AS3760)
  {
    NoEarthText(t);
    NoEarthDomesticWords(t);
  }

  lemma NoEarthTypeWords(t: string)
    requires t == "NO EARTH TYPE BF"
    ensures Contains(t, "NO EARTH") && !Contains(t, "DOMESTIC")
  {
    assert StartsWith(t, "NO EARTH");
    NotContainsMissingChar(t, "DOMESTIC", 'D');
  }

  /** "NO EARTH" without "DOMESTIC" is 3551. */
  lemma NoEarthTypeExample(t: string)
    requires t == "NO EARTH TYPE BF"
    ensures InferStandard(t) == Some(AS3551)
  {
    NoEarthText(t);
    NoEarthTypeWords(t);
  }

  lemma RandomTemplateSplit(u: string)
    requires u == "RANDOM TEMPLATE"
    ensures u == "RANDOM" + [' '] + "TEMPLATE"
  {
  }

  lemma WordChars(w: string)
    requires w in ["RANDOM", "TEMPLATE", "CLASS", "1", "2"]
    ensures |w| > 0 && forall i :: 0 <= i < |w| ==> IsWordChar(w[i])
  {
  }

  /** The tokens of "RANDOM TEMPLATE". */
  lemma RandomTemplateTokens(u: string)
    requires u == "RANDOM TEMPLATE"
    ensures Tokens(u) == ["RANDOM", "TEMPLATE"]
  {
    RandomTemplateSplit(u);
    WordChars("RANDOM");
    WordChars("TEMPLATE");
    TokensOfWordPair("RANDOM", "TEMPLATE");
  }

  lemma RandomTemplateNumbers(u: string)
    requires u == "RANDOM TEMPLATE"
    ensures !Contains(u, "3760") && !Contains(u, "3551")
  {
    assert '3' !in u;
    NotContainsMissingChar(u, "3760", '3');
    NotContainsMissingChar(u, "3551", '3');
  }

  lemma RandomTemplateWords(u: string)
    requires u == "RANDOM TEMPLATE"
    ensures !Contains(u, "NO EARTH") && !Contains(u, "TYPE")
  {
    assert 'H' !in u && 'Y' !in u;
    NotContainsMissingChar(u, "NO EARTH", 'H');
    NotContainsMissingChar(u, "TYPE", 'Y');
  }

  lemma RandomTemplateText(u: string)
    requires u == "RANDOM TEMPLATE"
    ensures !Contains(u, "3760") && !Contains(u, "3551") && !Contains(u, "NO EARTH") && !Contains(u, "TYPE")
  {
    RandomTemplateNumbers(u);
    RandomTemplateWords(u);
  }

  lemma RandomTemplateNoClassToken(u: string)
    requires u == "RANDOM TEMPLATE"
    ensures !Has3760Token(Tokens(u)) && !Has3551Token(Tokens(u), u)
  {
    RandomTemplateTokens(u);
    RandomTemplateText(u);
    NotClassWord("RANDOM");
    NotClassWord("TEMPLATE");
  }

  lemma NotClassWord(w: string)
    requires w in ["RANDOM", "TEMPLATE"]
    ensures w !in ["1D", "2D", "5D"] && w !in ["5B", "5BF", "5CF", "5C"] && w !in ["BF", "CF", "B"]
  {
    assert |w| > 3;
  }

  /** A template that names no standard, no "NO EARTH" and no class
      token gives no standard. */
  lemma NoStandardExample(t: string)
    requires t == "random template"
    ensures InferStandard(t).None?
  {
    var u := Upper(t);
    assert u == "RANDOM TEMPLATE";
    RandomTemplateText(u);
    RandomTemplateNoClassToken(u);
  }

  lemma ClassTwoTokens(t: string)
    requires t == "CLASS 2"
    ensures Tokens(t) == ["CLASS", "2"]
  {
    assert t == "CLASS" + [' '] + "2";
    WordChars("CLASS");
    WordChars("2");
    TokensOfWordPair("CLASS", "2");
  }

  lemma ClassTwoText(t: string)
    requires t == "CLASS 2"
    ensures Upper(t) == t && !Contains(t, "NO EARTH")
  {
    UpperOfCapitals(t);
    NotContainsMissingChar(t, "NO EARTH", 'H');
  }

  lemma ClassTwoBase(toks: seq<string>)
    requires toks == ["CLASS", "2"]
    ensures BaseClass(toks) == '2'
  {
    assert !IsClassToken(toks[0]);
    assert IsClassToken(toks[1]);
  }

  /** A bare class digit "2" under 3760 gives class "2D". */
  lemma ClassTwoExample(t: string)
    requires t == "CLASS 2"
    ensures InferClassType(t, AS3760) == "2D"
  {
    ClassTwoText(t);
    ClassTwoTokens(t);
    ClassTwoBase(Tokens(t));
  }

  lemma TypeCfTokens(t: string)
    requires t == "CLASS 1 TYPE CF"
    ensures |Tokens(t)| >= 2 && Tokens(t)[0] == "CLASS" && Tokens(t)[1] == "1"
  {
    assert t == "CLASS" + [' '] + ("1" + [' '] + "TYPE CF");
    WordChars("CLASS");
    WordChars("1");
    TokensOfTwoWords("CLASS", "1", "TYPE CF");
  }

  lemma TypeCfUpper(t: string)
    requires t == "CLASS 1 TYPE CF"
    ensures Upper(t) == t && !Contains(t, "NO EARTH")
  {
    UpperOfCapitals(t);
    assert 'H' !in t;
    NotContainsMissingChar(t, "NO EARTH", 'H');
  }

  lemma TypeCfContainsType(t: string)
    requires t == "CLASS 1 TYPE CF"
    ensures Contains(t, "TYPE CF")
  {
    assert t[8..15] == "TYPE CF";
    assert OccursAt(t, "TYPE CF", 8);
    ContainsAt(t, "TYPE CF");
  }

  lemma TypeCfText(t: string)
    requires t == "CLASS 1 TYPE CF"
    ensures Upper(t) == t && !Contains(t, "NO EARTH") && Contains(t, "TYPE CF")
  {
    TypeCfUpper(t);
    TypeCfContainsType(t);
  }

  lemma TypeCfBase(toks: seq<string>)
    requires |toks| >= 2 && toks[0] == "CLASS" && toks[1] == "1"
    ensures BaseClass(toks) == '1'
  {
    assert !IsClassToken(toks[0]);
    assert IsClassToken(toks[1]);
  }

  /** "TYPE CF" under 3551 gives the class digit followed by "CF". */
  lemma TypeCfExample(t: string)
    requires t == "CLASS 1 TYPE CF"
    ensures InferClassType(t, AS3551) == "1CF"
  {
    TypeCfText(t);
    TypeCfTokens(t);
    TypeCfBase(Tokens(t));
  }
}

/**
 * The General settings tab: the form's validation schema, the parsing of
 * the numeric inputs, and the effect that reports the form's values to the
 * dialog whenever they differ from the settings it was given.
 */
module GeneralTab {
  import opened Wrappers
  import opened Text
  import opened SettingsStore
  import opened SettingsDialog

  // ---------------------------------------------------------------------
  // Validation schema
  // ---------------------------------------------------------------------

  /** The form values as the schema sees them: the report style is any string. */
  datatype RawForm = RawForm(
    autoAcceptedPlan: bool,
    maxPlanIterations: int,
    maxStepNum: int,
    maxSearchResults: int,
    reportStyle: string,
    userBackground: string)

  /** The enumeration check of the schema, read back as the style it names. */
  function StyleNamed(name: string): (r: Option<ReportStyle>)
    ensures r.Some? ==> StyleName(r.value) == name
  {
    if name == "aggressive" then Some(Aggressive)
    else if name == "conservative" then Some(Conservative)
    else if name == "go_nuts" then Some(GoNuts)
    else if name == "friendly" then Some(Friendly)
    else None
  }

  /** Every style's name passes the enumeration check and names that style. */
  lemma StyleNameRoundTrip(s: ReportStyle)
    ensures StyleNamed(StyleName(s)) == Some(s)
  {
  }

  /** The four names are exactly the ones the schema accepts. */
  lemma StyleNamedIff(name: string)
    ensures StyleNamed(name).Some?
            <==> name in ["aggressive", "conservative", "go_nuts", "friendly"]
  {
  }

  /**
   * The schema: the three counts must be at least 1 and the report style one
   * of the four names; a valid form reads as the general settings it holds.
   */
  function Validate(f: RawForm): (r: Option<General>)
    ensures r.Some? <==>
              f.maxPlanIterations >= 1 && f.maxStepNum >= 1 && f.maxSearchResults >= 1
              && f.reportStyle in ["aggressive", "conservative", "go_nuts", "friendly"]
    ensures r.Some? ==>
              r.value.autoAcceptedPlan == f.autoAcceptedPlan
              && r.value.maxPlanIterations == f.maxPlanIterations
              && r.value.maxStepNum == f.maxStepNum
              && r.value.maxSearchResults == f.maxSearchResults
              && StyleName(r.value.reportStyle) == f.reportStyle
              && r.value.userBackground == f.userBackground
  {
    StyleNamedIff(f.reportStyle);
    var style := StyleNamed(f.reportStyle);
    if f.maxPlanIterations >= 1 && f.maxStepNum >= 1 && f.maxSearchResults >= 1 && style.Some? then
      Some(General(f.autoAcceptedPlan, f.maxPlanIterations, f.maxStepNum, f.maxSearchResults,
                   style.value, f.userBackground))
    else None
  }

  /** The form filled from general settings. */
  function FormOf(g: General): RawForm
  {
    RawForm(g.autoAcceptedPlan, g.maxPlanIterations, g.maxStepNum, g.maxSearchResults,
            StyleName(g.reportStyle), g.userBackground)
  }

  /** Validation accepts exactly the settings whose counts are positive, and gives them back. */
  lemma ValidateFormOf(g: General)
    ensures Validate(FormOf(g)).Some? <==> g.maxPlanIterations >= 1 && g.maxStepNum >= 1 && g.maxSearchResults >= 1
    ensures Validate(FormOf(g)).Some? ==> Validate(FormOf(g)).value == g
  {
    StyleNameRoundTrip(g.reportStyle);
  }

  /** The defaults pass validation. */
  lemma DefaultsAreValid()
    ensures Validate(FormOf(DefaultGeneral)) == Some(DefaultGeneral)
  {
    ValidateFormOf(DefaultGeneral);
  }

  // ---------------------------------------------------------------------
  // Numeric inputs: parseInt(event.target.value || "0")
  // ---------------------------------------------------------------------

  predicate IsHexDigit(c: char)
  {
    IsAsciiDigit(c) || ('a' <= c <= 'f') || ('A' <= c <= 'F')
  }

  function HexDigitValue(c: char): (v: nat)
    requires IsHexDigit(c)
    ensures v < 16
  {
    if IsAsciiDigit(c) then DigitValue(c)
    else if 'a' <= c <= 'f' then c as int - 'a' as int + 10
    else c as int - 'A' as int + 10
  }

  function HexRun(s: string): (n: nat)
    ensures n <= |s| && AllChars(s[..n], IsHexDigit)
  {
    if s != [] && IsHexDigit(s[0]) then
      var n := 1 + HexRun(s[1..]);
      assert s[..n] == [s[0]] + s[1..][..n - 1];
      n
    else 0
  }

  function HexValue(s: string): nat
    requires AllChars(s, IsHexDigit)
  {
    if s == [] then 0 else HexValue(s[..|s| - 1]) * 16 + HexDigitValue(s[|s| - 1])
  }

  predicate HasHexPrefix(s: string)
  {
    |s| >= 2 && s[0] == '0' && (s[1] == 'x' || s[1] == 'X')
  }

  /**
   * The unsigned part of parseInt: "0x"/"0X" selects base 16, otherwise the
   * longest decimal digit prefix is read; no digit at all is NaN (`None`).
   */
  function Magnitude(body: string): (r: Option<nat>)
    ensures r.None? <==> (if HasHexPrefix(body) then HexRun(body[2..]) == 0 else DigitRun(body) == 0)
  {
    if HasHexPrefix(body) then
      var n := HexRun(body[2..]);
      if n == 0 then None else Some(HexValue(body[2..][..n]))
    else
      var n := DigitRun(body);
      if n == 0 then None else Some(DecimalValue(body[..n]))
  }

  /**
   * ECMAScript `parseInt(s)` with no radix, `None` standing for NaN: leading
   * white space is skipped and one sign is allowed before the magnitude.
   */
  function JsParseInt(s: string): (r: Option<int>)
    ensures r.None? <==> Magnitude(SignedBody(TrimLeft(s, IsJsSpace))).None?
  {
    var t := TrimLeft(s, IsJsSpace);
    var magnitude := Magnitude(SignedBody(t));
    if magnitude.None? then None
    else if t != [] && t[0] == '-' then Some(-(magnitude.value as int))
    else Some(magnitude.value as int)
  }

  function SignedBody(t: string): string
  {
    if t != [] && (t[0] == '-' || t[0] == '+') then t[1..] else t
  }

  /** What a numeric input hands to the form: the empty text counts as "0". */
  function ParseNumberInput(text: string): Option<int>
  {
    JsParseInt(if text == "" then "0" else text)
  }

  lemma MagnitudeOfNumeral(n: nat)
    ensures Magnitude(NatToString(n)) == Some(n)
  {
    var s := NatToString(n);
    DigitRunOfDigits(s);
    assert s[..|s|] == s;
  }

  /** parseInt reads back every number it is shown in decimal. */
  lemma ParseIntOfNumeral(n: nat)
    ensures JsParseInt(NatToString(n)) == Some(n)
  {
    var s := NatToString(n);
    assert !IsJsSpace(s[0]);
    assert TrimLeft(s, IsJsSpace) == s;
    assert SignedBody(s) == s;
    MagnitudeOfNumeral(n);
  }

  /** A negative number shown with its minus sign reads back as itself. */
  lemma ParseIntOfNegative(n: nat)
    requires n > 0
    ensures JsParseInt("-" + NatToString(n)) == Some(-(n as int))
  {
    var s := "-" + NatToString(n);
    assert TrimLeft(s, IsJsSpace) == s;
    assert SignedBody(s) == NatToString(n);
    MagnitudeOfNumeral(n);
  }

  /** A cleared input reads as 0. */
  lemma ClearedInputIsZero()
    ensures ParseNumberInput("") == Some(0)
  {
    assert NatToString(0) == "0";
    ParseIntOfNumeral(0);
  }

  /** A count taken from a cleared input makes the form invalid. */
  lemma ClearedInputIsInvalid(f: RawForm)
    requires ParseNumberInput("") == Some(f.maxStepNum)
    ensures Validate(f).None?
  {
    ClearedInputIsZero();
  }

  // ---------------------------------------------------------------------
  // Change reporting
  // ---------------------------------------------------------------------

  /** The values the form holds; the style select only offers the four styles. */
  datatype FormValues = FormValues(
    autoAcceptedPlan: bool,
    maxPlanIterations: int,
    maxStepNum: int,
    maxSearchResults: int,
    reportStyle: ReportStyle,
    userBackground: string)

  function DefaultValues(g: General): FormValues
  {
    FormValues(g.autoAcceptedPlan, g.maxPlanIterations, g.maxStepNum, g.maxSearchResults,
               g.reportStyle, g.userBackground)
  }

  /**
   * The effect on every render: if the form's values differ from the
   * settings' general part, report a change of `general` carrying the six
   * form fields; otherwise report nothing.
   */
  function ChangeFor(form: FormValues, general: General): (r: Option<Changes>)
    ensures r.None? <==> form == DefaultValues(general)
    ensures r.Some? ==> r.value.servers.None? && r.value.general.Some?
    ensures r.Some? ==> DefaultValues(r.value.general.value) == form
  {
    if form == DefaultValues(general) then None
    else
      Some(Changes(Some(General(form.autoAcceptedPlan, form.maxPlanIterations, form.maxStepNum,
                                form.maxSearchResults, form.reportStyle, form.userBackground)), None))
  }

  /** Reporting a change and merging it leaves nothing more to report: the effect settles. */
  lemma ChangeSettles(form: FormValues, s: Settings)
    requires ChangeFor(form, s.general).Some?
    ensures ChangeFor(form, Apply(s, ChangeFor(form, s.general).value).general).None?
  {
  }

  /** An untouched form reports nothing. */
  lemma UntouchedFormIsSilent(g: General)
    ensures ChangeFor(DefaultValues(g), g).None?
  {
  }
}

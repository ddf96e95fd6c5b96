/**
 * `RuntimeParser`: the strict runtime syntax `ASAP-DD.MM.YYYY` and
 * `DD.MM.YYYY-DD.MM.YYYY`, calendar validation of the dates, the
 * end-after-start rule, and the "still running" test against a reference
 * date that the caller passes in.
 */
module RuntimeParser {
  import opened Wrappers
  import opened PyText
  import opened PyDate
  import opened PyValue
  import opened Exceptions

  /** `ParseResult`: no start date for ASAP runtimes. */
  datatype ParseResult = ParseResult(startDate: Option<ValidDate>, endDate: ValidDate, isRunning: bool)

  // ---------------------------------------------------------------------
  // The two patterns. Both are anchored at both ends and are applied to
  // stripped text, which cannot end in the newline `$` would also accept.

  /** `(\d{2})\.(\d{2})\.(\d{4})` */
  predicate IsDateText(s: string) {
    |s| == 10 && AllDigits(s[0..2]) && s[2] == '.' && AllDigits(s[3..5]) && s[5] == '.' && AllDigits(s[6..10])
  }

  /** The date the three groups of a date text name, before any calendar check. */
  function TextDate(s: string): Date
    requires IsDateText(s)
  {
    Date(DigitsValue(s[6..10]), DigitsValue(s[3..5]), DigitsValue(s[0..2]))
  }

  /** `ASAP_PATTERN`: `^ASAP-(\d{2})\.(\d{2})\.(\d{4})$` */
  predicate AsapMatch(t: string) {
    |t| == 15 && t[..5] == "ASAP-" && IsDateText(t[5..])
  }

  /** `STANDARD_PATTERN`: `^(\d{2})\.(\d{2})\.(\d{4})-(\d{2})\.(\d{2})\.(\d{4})$` */
  predicate StandardMatch(t: string) {
    |t| == 21 && IsDateText(t[..10]) && t[10] == '-' && IsDateText(t[11..])
  }

  /** The date text `DD.MM.YYYY` of a date, as the patterns expect it. */
  function DateText(d: Date): string
    requires Valid(d)
  {
    ZeroPad(d.day, 2) + "." + ZeroPad(d.month, 2) + "." + ZeroPad(d.year, 4)
  }

  /** Every valid date has a date text, and reading it back gives the date. */
  lemma DateTextRoundTrip(d: Date)
    requires Valid(d)
    ensures IsDateText(DateText(d)) && TextDate(DateText(d)) == d
  {
    NatTextLength(d.day, 2);
    NatTextLength(d.month, 2);
    NatTextLength(d.year, 4);
    var s := DateText(d);
    assert s[0..2] == ZeroPad(d.day, 2);
    assert s[3..5] == ZeroPad(d.month, 2);
    assert s[6..10] == ZeroPad(d.year, 4);
    ZeroPadValue(d.day, 2);
    ZeroPadValue(d.month, 2);
    ZeroPadValue(d.year, 4);
  }

  // ---------------------------------------------------------------------
  // Building the result

  /** `RuntimeParser._create_date(day, month, year)` */
  function CreateDate(day: nat, month: nat, year: nat): (r: Result<ValidDate, PyError>)
    ensures r.Ok? <==> Valid(Date(year, month, day))
    ensures r.Ok? ==> r.value == Date(year, month, day)
    ensures r.Err? ==> r.error.ValueError?
  {
    match MakeDate(year, month, day)
    case Ok(d) => Ok(d)
    case Err(msg) =>
      Err(ValueError("Invalid date " + ZeroPad(day, 2) + "." + ZeroPad(month, 2) + "." + IntText(year) + ": " + msg))
  }

  /** `_create_date` applied to the groups of a date text. */
  function CreateDateOf(s: string): (r: Result<ValidDate, PyError>)
    requires IsDateText(s)
    ensures r.Ok? <==> Valid(TextDate(s))
    ensures r.Ok? ==> r.value == TextDate(s)
    ensures r.Err? ==> r.error.ValueError?
  {
    CreateDate(DigitsValue(s[0..2]), DigitsValue(s[3..5]), DigitsValue(s[6..10]))
  }

  function ParserDetails(methodName: string, input: string, context: string): Details {
    map["service" := VStr("RuntimeParser"), "method" := VStr(methodName),
        "input_value" := VStr(input), "validation_context" := VStr(context)]
  }

  /** `end_date >= current_date` */
  predicate StillRunning(end: Date, current: Date) {
    AtOrBefore(current, end)
  }

  /** `RuntimeParser._parse_asap_format(match, current_date)` */
  function ParseAsapFormat(t: string, current: ValidDate): (r: Result<ParseResult, PyError>)
    requires AsapMatch(t)
    ensures r.Ok? <==> Valid(TextDate(t[5..]))
    ensures r.Ok? ==> r.value == ParseResult(None, TextDate(t[5..]), StillRunning(TextDate(t[5..]), current))
    ensures r.Err? ==> IsRuntimeError(r.error)
  {
    var g := t[5..];
    match CreateDateOf(g)
    case Err(e) =>
      Err(PPV(RuntimeParsing, "Invalid end date in ASAP format: " + Message(e),
              ParserDetails("_parse_asap_format", g, "ASAP_date_validation")["original_error" := VStr(Message(e))]))
    case Ok(end) => Ok(ParseResult(None, end, StillRunning(end, current)))
  }

  /** `RuntimeParser._parse_standard_format(match, current_date)` */
  function ParseStandardFormat(t: string, current: ValidDate): (r: Result<ParseResult, PyError>)
    requires StandardMatch(t)
    ensures r.Ok? <==>
      Valid(TextDate(t[..10])) && Valid(TextDate(t[11..])) && Before(TextDate(t[..10]), TextDate(t[11..]))
    ensures r.Ok? ==>
      r.value == ParseResult(Some(TextDate(t[..10])), TextDate(t[11..]), StillRunning(TextDate(t[11..]), current))
    ensures r.Err? && IsBusinessError(r.error) <==>
      Valid(TextDate(t[..10])) && Valid(TextDate(t[11..])) && !Before(TextDate(t[..10]), TextDate(t[11..]))
    ensures r.Err? ==> IsRuntimeError(r.error) || IsBusinessError(r.error)
  {
    var startDate := CreateDateOf(t[..10]);
    var endDate := CreateDateOf(t[11..]);
    if startDate.Err? || endDate.Err? then
      Err(StandardDateError(t, if startDate.Err? then startDate.error else endDate.error))
    else
      var start, end := startDate.value, endDate.value;
      if !Before(start, end) then Err(OrderError(start, end))
      else Ok(ParseResult(Some(start), end, StillRunning(end, current)))
  }

  /** The `RuntimeParsingError` raised when a date of the standard pattern does not exist. */
  function StandardDateError(t: string, e: PyError): (r: PyError)
    ensures IsRuntimeError(r)
  {
    PPV(RuntimeParsing, "Invalid date in standard format: " + Message(e),
        ParserDetails("_parse_standard_format", t, "standard_date_validation")["original_error" := VStr(Message(e))])
  }

  /** The `BusinessRuleViolationError` raised when the end date is not after the start date. */
  function OrderError(start: ValidDate, end: ValidDate): (r: PyError)
    ensures IsBusinessError(r)
  {
    PPV(BusinessRule, "End date " + IsoText(end) + " must be after start date " + IsoText(start),
        map["service" := VStr("RuntimeParser"), "method" := VStr("_parse_standard_format"),
            "business_rule" := VStr("end_date_after_start_date"),
            "provided_start_date" := VStr(IsoText(start)), "provided_end_date" := VStr(IsoText(end)),
            "business_context" := VStr("campaign_date_logic")])
  }

  const ExpectedPatterns: seq<string> := ["ASAP-DD.MM.YYYY", "DD.MM.YYYY-DD.MM.YYYY"]

  /** `RuntimeParser.parse(runtime_string, current_date)`: the ASAP pattern is tried first. */
  function Parse(v: Value, current: ValidDate): (r: Result<ParseResult, PyError>)
    ensures !v.VStr? ==> r == Err(TypeError("Runtime string must be a string"))
    ensures v.VStr? && AsapMatch(Strip(v.s)) ==> r == ParseAsapFormat(Strip(v.s), current)
    ensures v.VStr? && StandardMatch(Strip(v.s)) ==> r == ParseStandardFormat(Strip(v.s), current)
    ensures v.VStr? && !AsapMatch(Strip(v.s)) && !StandardMatch(Strip(v.s)) ==> r.Err? && IsRuntimeError(r.error)
    ensures r.Err? ==> r.error.TypeError? || r.error.PPV?
  {
    if !v.VStr? then Err(TypeError("Runtime string must be a string"))
    else
      var text := v.s;
      var cleaned := Strip(text);
      if cleaned == "" then
        Err(PPV(RuntimeParsing, "Runtime string cannot be empty",
                ParserDetails("parse", text, "empty_runtime_string")))
      else if AsapMatch(cleaned) then ParseAsapFormat(cleaned, current)
      else if StandardMatch(cleaned) then ParseStandardFormat(cleaned, current)
      else
        Err(PPV(RuntimeParsing,
                "Invalid runtime format: '" + text + "'. Expected 'ASAP-DD.MM.YYYY' or 'DD.MM.YYYY-DD.MM.YYYY'",
                ParserDetails("parse", text, "runtime_format_matching")["expected_patterns" := StrList(ExpectedPatterns)]))
  }

  /** A non-string raises `TypeError`; blank text raises `RuntimeParsingError`. */
  lemma ParseRejectsBadInput(v: Value, current: ValidDate)
    ensures !v.VStr? ==> Parse(v, current).Err? && Parse(v, current).error.TypeError?
    ensures v.VStr? && AllSpace(v.s) ==>
      Parse(v, current) == Err(PPV(RuntimeParsing, "Runtime string cannot be empty",
                                   ParserDetails("parse", v.s, "empty_runtime_string")))
  {
    if v.VStr? {
      StripEmptyIff(v.s);
      if AllSpace(v.s) {
        assert !AsapMatch(Strip(v.s)) && !StandardMatch(Strip(v.s));
      }
    }
  }

  /** Text in neither shape names both accepted patterns in its error. */
  lemma OtherShapesRejected(s: string, current: ValidDate)
    requires Strip(s) != "" && !AsapMatch(Strip(s)) && !StandardMatch(Strip(s))
    ensures Parse(VStr(s), current).Err? && IsRuntimeError(Parse(VStr(s), current).error)
    ensures Parse(VStr(s), current).error.details["expected_patterns"] == StrList(ExpectedPatterns)
  {
  }

  /** A calendar-invalid date in either shape is a parsing error, never a business-rule error. */
  lemma CalendarErrorIsParsingError(s: string, current: ValidDate)
    requires var t := Strip(s);
      (AsapMatch(t) && !Valid(TextDate(t[5..]))) ||
      (StandardMatch(t) && (!Valid(TextDate(t[..10])) || !Valid(TextDate(t[11..]))))
    ensures Parse(VStr(s), current).Err? && IsRuntimeError(Parse(VStr(s), current).error)
  {
    var t := Strip(s);
    if StandardMatch(t) {
      assert !AsapMatch(t);
    }
  }

  /** `ASAP-DD.MM.YYYY` for any valid date: no start, that end date, running iff the end is not before the reference date. */
  lemma AsapRoundTrip(d: ValidDate, t: string, current: ValidDate)
    requires t == "ASAP-" + DateText(d)
    ensures Parse(VStr(t), current) == Ok(ParseResult(None, d, StillRunning(d, current)))
  {
    AsapText(d);
    AsapParsed(t, d, current);
  }

  lemma AsapParsed(t: string, d: ValidDate, current: ValidDate)
    requires AsapMatch(t) && Strip(t) == t && TextDate(t[5..]) == d
    ensures Parse(VStr(t), current) == Ok(ParseResult(None, d, StillRunning(d, current)))
  {
    assert Parse(VStr(t), current) == ParseAsapFormat(t, current);
  }

  lemma AsapText(d: Date)
    requires Valid(d)
    ensures var t := "ASAP-" + DateText(d);
      AsapMatch(t) && Strip(t) == t && TextDate(t[5..]) == d
  {
    DateTextRoundTrip(d);
    var t := "ASAP-" + DateText(d);
    assert t[5..] == DateText(d);
    assert t[..5] == "ASAP-";
    DigitNotSpace(t[14]);
    StripNoop(t);
  }

  /** `DD.MM.YYYY-DD.MM.YYYY` for valid dates: accepted exactly when the end is strictly after the start. */
  lemma StandardRoundTrip(a: ValidDate, b: ValidDate, t: string, current: ValidDate)
    requires t == DateText(a) + "-" + DateText(b)
    ensures var r := Parse(VStr(t), current);
      (Before(a, b) ==> r == Ok(ParseResult(Some(a), b, StillRunning(b, current)))) &&
      (!Before(a, b) ==> r.Err? && IsBusinessError(r.error))
  {
    StandardText(a, b, t);
    StandardParsed(t, a, b, current);
  }

  lemma StandardParsed(t: string, a: ValidDate, b: ValidDate, current: ValidDate)
    requires StandardMatch(t) && !IsSpace(t[0]) && !IsSpace(t[20]) && TextDate(t[..10]) == a && TextDate(t[11..]) == b
    ensures var r := Parse(VStr(t), current);
      (Before(a, b) ==> r == Ok(ParseResult(Some(a), b, StillRunning(b, current)))) &&
      (!Before(a, b) ==> r.Err? && IsBusinessError(r.error))
  {
    StripNoop(t);
    assert Parse(VStr(t), current) == ParseStandardFormat(t, current);
  }

  lemma StandardText(a: ValidDate, b: ValidDate, t: string)
    requires t == DateText(a) + "-" + DateText(b)
    ensures StandardMatch(t) && !IsSpace(t[0]) && !IsSpace(t[20]) && TextDate(t[..10]) == a && TextDate(t[11..]) == b
  {
    DateTextRoundTrip(a);
    DateTextRoundTrip(b);
    assert t[..10] == DateText(a);
    assert t[11..] == DateText(b);
    DigitNotSpace(t[0]);
    DigitNotSpace(t[20]);
  }

  /** Equal start and end dates are rejected by the end-after-start rule. */
  lemma EqualDatesRejected(d: Date, current: ValidDate)
    requires Valid(d)
    ensures Parse(VStr(DateText(d) + "-" + DateText(d)), current).Err?
    ensures IsBusinessError(Parse(VStr(DateText(d) + "-" + DateText(d)), current).error)
  {
    StandardRoundTrip(d, d, DateText(d) + "-" + DateText(d), current);
  }

  /** Spaces around the hyphen are not accepted. */
  lemma SpacedHyphenRejected(a: Date, b: Date, current: ValidDate)
    requires Valid(a) && Valid(b)
    ensures Parse(VStr(DateText(a) + " - " + DateText(b)), current).Err?
    ensures IsRuntimeError(Parse(VStr(DateText(a) + " - " + DateText(b)), current).error)
  {
    DateTextRoundTrip(a);
    DateTextRoundTrip(b);
    var t := DateText(a) + " - " + DateText(b);
    DigitNotSpace(t[0]);
    DigitNotSpace(t[22]);
    StripNoop(t);
    OtherShapesRejected(t, current);
  }

  // ---------------------------------------------------------------------
  // The convenience methods

  /** `RuntimeParser.validate_runtime_format(runtime_string)`: the shape only, no calendar check. */
  function ValidateRuntimeFormat(v: Value): (ok: bool)
    ensures ok <==> v.VStr? && (AsapMatch(Strip(v.s)) || StandardMatch(Strip(v.s)))
  {
    if !v.VStr? || Strip(v.s) == "" then false
    else AsapMatch(Strip(v.s)) || StandardMatch(Strip(v.s))
  }

  /** `is_runtime_valid(runtime_string)` */
  function IsRuntimeValid(v: Value): bool {
    ValidateRuntimeFormat(v)
  }

  /** Whatever `parse` accepts has a valid format. */
  lemma ParsedHasValidFormat(v: Value, current: ValidDate)
    requires Parse(v, current).Ok?
    ensures ValidateRuntimeFormat(v)
  {
  }

  /** The format check does not look at the calendar: a well-shaped impossible date passes it but fails `parse`. */
  lemma FormatIgnoresCalendar(s: string, current: ValidDate)
    requires AsapMatch(s) && !Valid(TextDate(s[5..]))
    ensures ValidateRuntimeFormat(VStr(s)) && Parse(VStr(s), current).Err?
  {
    AsapStripped(s);
    assert Parse(VStr(s), current) == ParseAsapFormat(s, current);
  }

  /** Text in the ASAP shape has no surrounding whitespace. */
  lemma AsapStripped(t: string)
    requires AsapMatch(t)
    ensures Strip(t) == t
  {
    assert t[0] == t[..5][0] == 'A';
    assert t[14] == t[5..][6..10][3];
    DigitNotSpace(t[14]);
    StripNoop(t);
  }

  /**
   * `RuntimeParser.is_campaign_completed(runtime_string, current_date)`. Its
   * handler catches only the local `RuntimeParseError` and `ValueError`,
   * neither of which `parse` raises, so every parsing failure propagates.
   */
  function IsCampaignCompleted(v: Value, current: ValidDate): (r: Result<bool, PyError>)
    ensures Parse(v, current).Err? ==> r == Err(Parse(v, current).error)
  {
    match Parse(v, current)
    case Ok(p) => Ok(!p.isRunning)
    case Err(e) => if IsValueError(e) then Ok(false) else Err(e)
  }

  /** A parsed campaign is completed exactly when its end date lies before the reference date. */
  lemma CompletedIffEnded(v: Value, current: ValidDate)
    requires Parse(v, current).Ok?
    ensures IsCampaignCompleted(v, current) == Ok(Before(Parse(v, current).value.endDate, current))
  {
    var p := Parse(v, current).value;
    BeforeTotal(p.endDate, current);
  }

  /** `RuntimeParser.extract_date_range(runtime_string)`, with today passed in. */
  function ExtractDateRange(v: Value, today: ValidDate): (r: Result<(Option<ValidDate>, ValidDate), PyError>)
    ensures r.Ok? <==> Parse(v, today).Ok?
    ensures r.Ok? ==> r.value == (Parse(v, today).value.startDate, Parse(v, today).value.endDate)
  {
    var p :- Parse(v, today);
    Ok((p.startDate, p.endDate))
  }

  /**
   * `RuntimeParser.get_campaign_duration_days(runtime_string)`, with today
   * passed in: `None` for ASAP, both ends counted otherwise. Parsing failures
   * propagate for the same reason as in `is_campaign_completed`.
   */
  function GetCampaignDurationDays(v: Value, today: ValidDate): (r: Result<Option<int>, PyError>)
    ensures Parse(v, today).Err? ==> r == Err(Parse(v, today).error)
    ensures r.Ok? && r.value.Some? ==> r.value.value >= 2
  {
    match Parse(v, today)
    case Err(e) => if IsValueError(e) then Ok(None) else Err(e)
    case Ok(p) =>
      if p.startDate.Some? then ParsedInOrder(v, today); Ok(DurationOf(p))
      else Ok(DurationOf(p))
  }

  /** The duration of a parsed runtime: none for ASAP, both ends counted otherwise. */
  function DurationOf(p: ParseResult): (r: Option<int>)
    requires p.startDate.Some? ==> Before(p.startDate.value, p.endDate)
    ensures r.None? <==> p.startDate.None?
    ensures r.Some? ==> r.value >= 2
  {
    match p.startDate
    case None => None
    case Some(start) =>
      OrdinalOrder(start, p.endDate);
      Some(DaysBetween(start, p.endDate) + 1)
  }

  /** A parsed start date always lies strictly before the end date. */
  lemma ParsedInOrder(v: Value, current: ValidDate)
    requires Parse(v, current).Ok? && Parse(v, current).value.startDate.Some?
    ensures Before(Parse(v, current).value.startDate.value, Parse(v, current).value.endDate)
  {
  }

  /** The duration is `None` exactly for ASAP runtimes, and otherwise counts the days from start to end inclusively. */
  lemma DurationOfParsed(v: Value, today: ValidDate)
    requires Parse(v, today).Ok?
    ensures var p := Parse(v, today).value;
      GetCampaignDurationDays(v, today) ==
        if p.startDate.None? then Ok(None) else Ok(Some(DaysBetween(p.startDate.value, p.endDate) + 1))
  {
    var p := Parse(v, today).value;
    if p.startDate.Some? {
      ParsedInOrder(v, today);
    }
    assert GetCampaignDurationDays(v, today) == Ok(DurationOf(p));
  }

  /** `ParseResult.to_dict()` */
  function ToDict(p: ParseResult): (d: Details)
    ensures d.Keys == {"start_date", "end_date", "is_running"}
    ensures d["end_date"] == VDate(p.endDate) && d["is_running"] == VBool(p.isRunning)
    ensures d["start_date"] == if p.startDate.None? then VNone else VDate(p.startDate.value)
  {
    map["start_date" := (if p.startDate.None? then VNone else VDate(p.startDate.value)),
        "end_date" := VDate(p.endDate), "is_running" := VBool(p.isRunning)]
  }

  /** The module-level `parse_runtime(runtime_string)`, with today passed in. */
  function ParseRuntime(v: Value, today: ValidDate): (r: Result<Details, PyError>)
    ensures r.Ok? <==> Parse(v, today).Ok?
    ensures r.Ok? ==> r.value == ToDict(Parse(v, today).value)
  {
    var p :- Parse(v, today);
    Ok(ToDict(p))
  }
}

/**
 * `app.models.campaign`: the keyword checks and rewrites of
 * `Campaign.__init__`, its own lenient runtime reader, the derived
 * `entity_type`, `fulfillment_percentage` and `is_over_delivered`, the
 * delivered-impressions update, and the `UploadSession` status record.
 */
module CampaignModel {
  import opened Wrappers
  import opened PyText
  import opened PyDate
  import opened PyValue
  import opened PyUuid
  import opened Exceptions
  import ModelBase
  import RuntimeParser
  import CampaignClassifier

  /** The mapped columns of `campaigns`, with `created_at` and `updated_at` from `TimestampMixin`. */
  const Columns: set<string> := {"id", "name", "runtime", "impression_goal", "budget_eur", "cpm_eur", "buyer",
    "runtime_start", "runtime_end", "is_running", "delivered_impressions", "created_at", "updated_at"}

  /** The columns `__init__` stores exactly as given (`None` when not given). */
  const Kept: set<string> := Columns - {"id", "cpm_eur", "runtime_start", "runtime_end", "is_running"}

  // ---------------------------------------------------------------------
  // The lenient runtime reader

  /** The error `_parse_german_date` raises for any text it cannot read. */
  function GermanDateError(s: string): PyError {
    ValueError("Invalid German date format '" + s + "'. Expected DD.MM.YYYY")
  }

  /**
   * `Campaign._parse_german_date(date_str)`, as the day of the midnight
   * datetime it returns: three dot-separated parts after stripping, each
   * read by `int()`, then `date(year, month, day)`.
   */
  function ParseGermanDate(s: string): (r: Result<ValidDate, PyError>)
    ensures r.Err? ==> r.error == GermanDateError(s)
    ensures r.Ok? ==> |Split(Strip(s), '.')| == 3
  {
    var parts := Split(Strip(s), '.');
    if |parts| != 3 then Err(GermanDateError(s))
    else
      match (ParseInt(parts[2]), ParseInt(parts[1]), ParseInt(parts[0]))
      case (Some(y), Some(m), Some(d)) =>
        (match MakeDate(y, m, d)
         case Ok(date) => Ok(date)
         case Err(_) => Err(GermanDateError(s)))
      case _ => Err(GermanDateError(s))
  }

  /** The dates `_parse_and_set_runtime_dates` reads, before its date-logic check. */
  function RuntimeDates(text: string): (r: Result<(Option<ValidDate>, ValidDate), PyError>)
    ensures r.Ok? ==> (r.value.0.None? <==> StartsWith(text, "ASAP-"))
  {
    if StartsWith(text, "ASAP-") then
      var end :- ParseGermanDate(text[5..]);
      Ok((None, end))
    else if '-' in text && !StartsWith(text, "ASAP") then
      var parts := SplitFirst(text, '-');
      var start :- ParseGermanDate(parts[0]);
      var end :- ParseGermanDate(parts[1]);
      Ok((Some(start), end))
    else
      Err(ValueError("Invalid runtime format: " + text))
  }

  /** Every failure inside `_parse_and_set_runtime_dates` is re-raised under this message. */
  function RuntimeError(text: string, cause: PyError): PyError {
    ValueError("Error parsing runtime '" + text + "': " + Message(cause))
  }

  /** `Campaign._parse_and_set_runtime_dates`: the start (none for ASAP) and end date it stores. */
  function ParseRuntimeDates(text: string): (r: Result<(Option<ValidDate>, ValidDate), PyError>)
    ensures r.Ok? <==> RuntimeDates(text).Ok? &&
                       (RuntimeDates(text).value.0.None? || AtOrBefore(RuntimeDates(text).value.0.value, RuntimeDates(text).value.1))
    ensures r.Ok? ==> r.value == RuntimeDates(text).value
    ensures r.Err? ==> r.error.ValueError? && StartsWith(r.error.msg, "Error parsing runtime '" + text + "': ")
  {
    var prefix := "Error parsing runtime '" + text + "': ";
    match RuntimeDates(text)
    case Err(e) =>
      assert (prefix + Message(e))[..|prefix|] == prefix;
      Err(RuntimeError(text, e))
    case Ok(dates) =>
      match ModelBase.ValidateDateLogic(dates.0, Some(dates.1))
      case Err(e) =>
        assert (prefix + Message(e))[..|prefix|] == prefix;
        Err(RuntimeError(text, e))
      case Ok(_) => Ok(dates)
  }

  lemma SplitThree(a: string, b: string, c: string, sep: char)
    requires sep !in a && sep !in b && sep !in c
    ensures Split(a + [sep] + b + [sep] + c, sep) == [a, b, c]
  {
    var s := a + [sep] + b + [sep] + c;
    assert s[|a|] == sep;
    assert s[..|a|] == a;
    IndexOfAt(s, sep, |a|);
    assert s[|a| + 1..] == b + [sep] + c;
    SplitTwo(b, c, sep);
  }

  lemma DigitsParse(t: string)
    requires IsDigitString(t)
    ensures ParseInt(t) == Some(DigitsValue(t))
  {
    DigitNotSpace(t[0]);
    DigitNotSpace(t[|t| - 1]);
    StripNoop(t);
  }

  /**
   * Three digit strings of any width joined by dots are read as day, month
   * and year, so `1.6.2025` is accepted as well as `01.06.2025`.
   */
  lemma GermanDigits(ds: string, ms: string, ys: string)
    requires IsDigitString(ds) && IsDigitString(ms) && IsDigitString(ys)
    ensures var s := ds + "." + ms + "." + ys;
      var date := Date(DigitsValue(ys), DigitsValue(ms), DigitsValue(ds));
      (Valid(date) ==> ParseGermanDate(s) == Ok(date)) &&
      (!Valid(date) ==> ParseGermanDate(s) == Err(GermanDateError(s)))
  {
    var s := ds + "." + ms + "." + ys;
    assert s == ds + ['.'] + ms + ['.'] + ys;
    DigitNotSpace(s[0]);
    DigitNotSpace(s[|s| - 1]);
    StripNoop(s);
    SplitThree(ds, ms, ys, '.');
    DigitsParse(ds);
    DigitsParse(ms);
    DigitsParse(ys);
    GermanFromParts(s, [ds, ms, ys], DigitsValue(ys), DigitsValue(ms), DigitsValue(ds));
  }

  /** Three parts that `int()` reads are a date exactly when `date()` accepts them. */
  lemma GermanFromParts(s: string, parts: seq<string>, y: int, m: int, d: int)
    requires Split(Strip(s), '.') == parts && |parts| == 3
    requires ParseInt(parts[2]) == Some(y) && ParseInt(parts[1]) == Some(m) && ParseInt(parts[0]) == Some(d)
    ensures Valid(Date(y, m, d)) ==> ParseGermanDate(s) == Ok(Date(y, m, d))
    ensures !Valid(Date(y, m, d)) ==> ParseGermanDate(s) == Err(GermanDateError(s))
  {
  }

  /** The padded text the strict parser prints is read back as the same date. */
  lemma GermanDateText(d: ValidDate)
    ensures ParseGermanDate(RuntimeParser.DateText(d)) == Ok(d)
  {
    ZeroPadValue(d.day, 2);
    ZeroPadValue(d.month, 2);
    ZeroPadValue(d.year, 4);
    GermanDigits(ZeroPad(d.day, 2), ZeroPad(d.month, 2), ZeroPad(d.year, 4));
  }

  /** Unpadded numbers are accepted too: single-digit days and months. */
  lemma GermanDateUnpadded(d: ValidDate)
    ensures ParseGermanDate(NatText(d.day) + "." + NatText(d.month) + "." + NatText(d.year)) == Ok(d)
  {
    NatTextValue(d.day);
    NatTextValue(d.month);
    NatTextValue(d.year);
    GermanDigits(NatText(d.day), NatText(d.month), NatText(d.year));
  }

  lemma DigitNotAsap(t: string)
    requires t != [] && IsDigit(t[0])
    ensures !StartsWith(t, "ASAP") && !StartsWith(t, "ASAP-")
  {
    assert t[0] != 'A';
    if |t| >= 4 {
      assert t[..4][0] == t[0];
    }
    if |t| >= 5 {
      assert t[..5][0] == t[0];
    }
  }

  lemma StripPadded(t: string)
    requires t != [] && !IsSpace(t[0]) && !IsSpace(t[|t| - 1])
    ensures Strip(t + " ") == t && Strip(" " + t) == t
  {
    var a := t + " ";
    LStripNoop(a);
    assert a[..|a| - 1] == t;
    RStripNoop(t);
    var b := " " + t;
    assert b[1..] == t;
    LStripNoop(t);
    RStripNoop(t);
  }

  /** Only the stripped text decides whether a date is read, and which. */
  lemma GermanDateStripped(s: string, t: string, d: ValidDate)
    requires Strip(s) == Strip(t) && ParseGermanDate(t) == Ok(d)
    ensures ParseGermanDate(s) == Ok(d)
  {
  }

  /** A date text has no hyphen and starts with a digit. */
  lemma DateTextShape(d: ValidDate)
    ensures var x := RuntimeParser.DateText(d);
      '-' !in x && |x| == 10 && IsDigit(x[0]) && IsDigit(x[9])
  {
    var x := RuntimeParser.DateText(d);
    RuntimeParser.DateTextRoundTrip(d);
    assert forall i :: 0 <= i < |x| ==> x[i] == '.' || IsDigit(x[i]) by {
      forall i | 0 <= i < |x| ensures x[i] == '.' || IsDigit(x[i]) {
        if i < 2 {
          assert x[i] == x[0..2][i];
        } else if 3 <= i < 5 {
          assert x[i] == x[3..5][i - 3];
        } else if 6 <= i {
          assert x[i] == x[6..10][i - 6];
        }
      }
    }
    assert x[9] == x[6..10][3];
    assert x[0] == x[0..2][0];
  }

  lemma SplitAtFirstHyphen(p: string, q: string)
    requires '-' !in p
    ensures SplitFirst(p + "-" + q, '-') == [p, q]
  {
    var t := p + "-" + q;
    assert t[|p|] == '-' && t[..|p|] == p && t[|p| + 1..] == q;
    IndexOfAt(t, '-', |p|);
  }

  lemma RangeDates(p: string, q: string, a: ValidDate, b: ValidDate)
    requires p != [] && IsDigit(p[0]) && '-' !in p
    requires ParseGermanDate(p) == Ok(a) && ParseGermanDate(q) == Ok(b)
    ensures RuntimeDates(p + "-" + q) == Ok((Some(a), b))
  {
    var t := p + "-" + q;
    assert t[0] == p[0] && t[|p|] == '-';
    DigitNotAsap(t);
    SplitAtFirstHyphen(p, q);
  }

  /** A range whose first part starts with a digit is split at its first hyphen and both halves read as dates. */
  lemma RangeRead(p: string, q: string, a: ValidDate, b: ValidDate)
    requires p != [] && IsDigit(p[0]) && '-' !in p
    requires ParseGermanDate(p) == Ok(a) && ParseGermanDate(q) == Ok(b) && AtOrBefore(a, b)
    ensures ParseRuntimeDates(p + "-" + q) == Ok((Some(a), b))
  {
    RangeDates(p, q, a, b);
  }

  /**
   * Spaces around the hyphen are accepted here; the strict parser rejects
   * the same text (`RuntimeParser.SpacedHyphenRejected`).
   */
  lemma SpacedRangeAccepted(a: ValidDate, b: ValidDate)
    requires AtOrBefore(a, b)
    ensures ParseRuntimeDates(RuntimeParser.DateText(a) + " - " + RuntimeParser.DateText(b)) == Ok((Some(a), b))
  {
    var x := RuntimeParser.DateText(a);
    var y := RuntimeParser.DateText(b);
    DateTextShape(a);
    PaddedDateText(a);
    PaddedDateText(b);
    assert (x + " ")[0] == x[0];
    assert '-' !in x + " ";
    RangeRead(x + " ", " " + y, a, b);
    SpacedConcat(x, y);
  }

  lemma SpacedConcat(x: string, y: string)
    ensures x + " " + "-" + (" " + y) == x + " - " + y
  {
    var l := x + " " + "-" + (" " + y);
    var r := x + " - " + y;
    assert |l| == |r|;
    forall i | 0 <= i < |l| ensures l[i] == r[i] {
      if i < |x| {
        assert l[i] == x[i] && r[i] == x[i];
      } else if i > |x| + 2 {
        assert l[i] == y[i - |x| - 3] && r[i] == y[i - |x| - 3];
      }
    }
  }

  /** A date text with a space before or after it is still read as its date. */
  lemma PaddedDateText(d: ValidDate)
    ensures ParseGermanDate(RuntimeParser.DateText(d) + " ") == Ok(d)
    ensures ParseGermanDate(" " + RuntimeParser.DateText(d)) == Ok(d)
  {
    var x := RuntimeParser.DateText(d);
    DateTextShape(d);
    DigitNotSpace(x[0]);
    DigitNotSpace(x[9]);
    StripPadded(x);
    GermanDateText(d);
    StripNoop(x);
    GermanDateStripped(x + " ", x, d);
    GermanDateStripped(" " + x, x, d);
  }

  /** A start equal to the end is accepted here; the strict parser rejects it (`RuntimeParser.EqualDatesRejected`). */
  lemma EqualDatesAccepted(d: ValidDate)
    ensures ParseRuntimeDates(RuntimeParser.DateText(d) + "-" + RuntimeParser.DateText(d)) == Ok((Some(d), d))
  {
    StrictRangeAccepted(d, d);
  }

  /** The strict parser's range shape reads the same here, for any start not after the end. */
  lemma StrictRangeAccepted(a: ValidDate, b: ValidDate)
    requires AtOrBefore(a, b)
    ensures ParseRuntimeDates(RuntimeParser.DateText(a) + "-" + RuntimeParser.DateText(b)) == Ok((Some(a), b))
  {
    DateTextShape(a);
    GermanDateText(a);
    GermanDateText(b);
    RangeRead(RuntimeParser.DateText(a), RuntimeParser.DateText(b), a, b);
  }

  /** The strict parser's ASAP shape reads the same here. */
  lemma StrictAsapAccepted(d: ValidDate)
    ensures ParseRuntimeDates("ASAP-" + RuntimeParser.DateText(d)) == Ok((None, d))
  {
    GermanDateText(d);
    AsapAccepted(d, RuntimeParser.DateText(d));
  }

  /** `ASAP-` followed by a date reads as no start and that end. */
  lemma AsapAccepted(d: ValidDate, rest: string)
    requires ParseGermanDate(rest) == Ok(d)
    ensures ParseRuntimeDates("ASAP-" + rest) == Ok((None, d))
  {
    var t := "ASAP-" + rest;
    assert t[..5] == "ASAP-" && t[5..] == rest;
  }

  /** Text that neither starts with `ASAP-` nor has a hyphen after another start names itself in the error. */
  lemma OtherShapeRejected(text: string)
    requires !StartsWith(text, "ASAP-") && ('-' !in text || StartsWith(text, "ASAP"))
    ensures ParseRuntimeDates(text) == Err(RuntimeError(text, ValueError("Invalid runtime format: " + text)))
  {
  }

  // ---------------------------------------------------------------------
  // Campaign.__init__

  /** `kw.get(k)` */
  function Arg(kw: Dict, k: string): Value {
    if k in kw then kw[k] else VNone
  }

  /** A parsed start date as the datetime stored for it. */
  function StartValue(d: Option<ValidDate>): Value {
    if d.None? then VNone else VDateTime(d.value)
  }

  /** `_calculate_is_running`: `runtime_end.date() > date.today()`. */
  predicate IsRunning(end: Date, today: Date) {
    Before(today, end)
  }

  /**
   * The exception `__init__` raises, in the order of its checks (lines
   * 77-114), or `None`. The earlier rewrites touch only `id` and `cpm_eur`,
   * which no later check reads, so every check can look at the keywords as
   * given. When `cmp_eur` is present the value checked is the one under
   * `cpm_eur` (a `KeyError` when there is none); `.strip()` on a non-string
   * raises `AttributeError`, and so does `.date()` on a truthy `runtime_end`
   * that is not a datetime.
   */
  function InitError(kw: Dict): Option<PyError> {
    if NumberError(kw).Some? then NumberError(kw)
    else if TextError(kw).Some? then TextError(kw)
    else EndError(kw)
  }

  /** The checks of lines 77-89: the id, the goal, the budget and the CPM. */
  function NumberError(kw: Dict): Option<PyError> {
    if "id" in kw && ModelBase.ValidateUuid(kw["id"]).Err? then
      Some(ModelBase.ValidateUuid(kw["id"]).error)
    else if "impression_goal" in kw && ModelBase.ValidateImpressionGoalRange(kw["impression_goal"]).Err? then
      Some(ModelBase.ValidateImpressionGoalRange(kw["impression_goal"]).error)
    else if "budget_eur" in kw && ModelBase.ValidatePositiveValue("Budget", kw["budget_eur"]).Err? then
      Some(ModelBase.ValidatePositiveValue("Budget", kw["budget_eur"]).error)
    else if "cmp_eur" in kw && "cpm_eur" !in kw then
      Some(KeyError("cpm_eur"))
    else if "cmp_eur" in kw && ModelBase.ValidatePositiveValue("CPM", kw["cpm_eur"]).Err? then
      Some(ModelBase.ValidatePositiveValue("CPM", kw["cpm_eur"]).error)
    else
      None
  }

  /** The checks of lines 96-107: the name, the runtime and the buyer. */
  function TextError(kw: Dict): Option<PyError> {
    if "name" in kw && !kw["name"].VStr? then
      Some(NoAttribute(TpName(kw["name"]), "strip"))
    else if "name" in kw && Strip(kw["name"].s) == [] then
      Some(ValueError("Campaign name cannot be empty"))
    else if "runtime" in kw && !kw["runtime"].VStr? then
      Some(NoAttribute(TpName(kw["runtime"]), "strip"))
    else if "runtime" in kw && Strip(kw["runtime"].s) == [] then
      Some(ValueError("Runtime cannot be empty"))
    else if "runtime" in kw && ParseRuntimeDates(kw["runtime"].s).Err? then
      Some(ParseRuntimeDates(kw["runtime"].s).error)
    else if "buyer" in kw && kw["buyer"].VNone? then
      Some(ValueError("Buyer field is required"))
    else
      None
  }

  /** Lines 113-114: `.date()` on a given end date that is not a datetime (a parsed runtime always gives one). */
  function EndError(kw: Dict): Option<PyError> {
    if "runtime" !in kw && Truthy(Arg(kw, "runtime_end")) && !Arg(kw, "runtime_end").VDateTime? then
      Some(NoAttribute(TpName(Arg(kw, "runtime_end")), "date"))
    else
      None
  }

  /** What the keywords must satisfy, check by check, in no particular order. */
  predicate Accepted(kw: Dict) {
    NumbersAccepted(kw) && TextsAccepted(kw) && EndAccepted(kw)
  }

  predicate NumbersAccepted(kw: Dict) {
    ("id" in kw ==> ModelBase.ValidateUuid(kw["id"]).Ok?) &&
    ("impression_goal" in kw ==> ModelBase.ValidateImpressionGoalRange(kw["impression_goal"]).Ok?) &&
    ("budget_eur" in kw ==> ModelBase.ValidatePositiveValue("Budget", kw["budget_eur"]).Ok?) &&
    ("cmp_eur" in kw ==> "cpm_eur" in kw && ModelBase.ValidatePositiveValue("CPM", kw["cpm_eur"]).Ok?)
  }

  predicate TextsAccepted(kw: Dict) {
    ("name" in kw ==> kw["name"].VStr? && !AllSpace(kw["name"].s)) &&
    ("runtime" in kw ==> kw["runtime"].VStr? && !AllSpace(kw["runtime"].s) && ParseRuntimeDates(kw["runtime"].s).Ok?) &&
    ("buyer" in kw ==> !kw["buyer"].VNone?)
  }

  predicate EndAccepted(kw: Dict) {
    "runtime" !in kw && Truthy(Arg(kw, "runtime_end")) ==> Arg(kw, "runtime_end").VDateTime?
  }

  /** The order of the checks decides only which error is raised, not whether one is. */
  lemma InitErrorIffRejected(kw: Dict)
    ensures InitError(kw).None? <==> Accepted(kw)
  {
    NumberErrorIff(kw);
    TextErrorIff(kw);
  }

  lemma NumberErrorIff(kw: Dict)
    ensures NumberError(kw).None? <==> NumbersAccepted(kw)
  {
  }

  lemma TextErrorIff(kw: Dict)
    ensures TextError(kw).None? <==> TextsAccepted(kw)
  {
    var nameBad := "name" in kw && (!kw["name"].VStr? || Strip(kw["name"].s) == []);
    var runtimeBad := "runtime" in kw && (!kw["runtime"].VStr? || Strip(kw["runtime"].s) == [] || ParseRuntimeDates(kw["runtime"].s).Err?);
    var buyerBad := "buyer" in kw && kw["buyer"].VNone?;
    assert TextError(kw).None? <==> !nameBad && !runtimeBad && !buyerBad;
    if "name" in kw && kw["name"].VStr? {
      StripEmptyIff(kw["name"].s);
    }
    assert nameBad <==> !("name" in kw ==> kw["name"].VStr? && !AllSpace(kw["name"].s));
    if "runtime" in kw && kw["runtime"].VStr? {
      StripEmptyIff(kw["runtime"].s);
    }
    assert runtimeBad <==> !("runtime" in kw ==> kw["runtime"].VStr? && !AllSpace(kw["runtime"].s) && ParseRuntimeDates(kw["runtime"].s).Ok?);
  }

  /**
   * The attributes of the instance built from accepted keywords: the id in
   * its printed form, a `cmp_eur` value moved to `cpm_eur`, the dates parsed
   * from the runtime, every other column as given (`None` when not given,
   * since the column defaults apply only on insert), and `is_running`
   * recomputed when there is an end date.
   */
  function Fields(kw: Dict, today: ValidDate): (f: Dict)
    requires Accepted(kw)
    ensures f.Keys == Columns
  {
    var id := if "id" in kw then Some(ModelBase.ValidateUuid(kw["id"]).value) else None;
    var dates := if "runtime" in kw then Some(ParseRuntimeDates(kw["runtime"].s).value) else None;
    Attributes(kw, id, dates, today)
  }

  /** `Fields` once the id has been printed and the runtime parsed. */
  function Attributes(kw: Dict, id: Option<string>, dates: Option<(Option<ValidDate>, ValidDate)>, today: ValidDate): (f: Dict)
    ensures f.Keys == Columns
  {
    Declared(WithDates(MovedCmp(WithId(kw, id)), dates), today)
  }

  function WithId(kw: Dict, id: Option<string>): Dict {
    if id.Some? then kw["id" := VStr(id.value)] else kw
  }

  /** Lines 92-93: `kwargs['cpm_eur'] = kwargs.pop('cmp_eur')`. */
  function MovedCmp(kw: Dict): Dict {
    if "cmp_eur" in kw then (kw - {"cmp_eur"})["cpm_eur" := kw["cmp_eur"]] else kw
  }

  function WithDates(kw: Dict, dates: Option<(Option<ValidDate>, ValidDate)>): Dict {
    if dates.Some? then kw["runtime_start" := StartValue(dates.value.0)]["runtime_end" := VDateTime(dates.value.1)] else kw
  }

  /** Lines 110-114: the columns set from the keywords, then `is_running` from the end date. */
  function Declared(kw: Dict, today: ValidDate): (f: Dict)
    ensures f.Keys == Columns
  {
    var declared := map c | c in Columns :: Arg(kw, c);
    var end := declared["runtime_end"];
    if Truthy(end) && end.VDateTime? then declared["is_running" := VBool(IsRunning(end.day, today))] else declared
  }

  lemma AttributesRuntime(kw: Dict, id: Option<string>, dates: Option<(Option<ValidDate>, ValidDate)>, today: ValidDate)
    requires dates.Some?
    ensures var f := Attributes(kw, id, dates, today);
      f["runtime_start"] == StartValue(dates.value.0) && f["runtime_end"] == VDateTime(dates.value.1) &&
      f["is_running"] == VBool(IsRunning(dates.value.1, today)) && f["runtime"] == Arg(kw, "runtime")
  {
  }

  /** `Campaign(**kwargs)`: the attributes of the new instance, or the first error. Keywords must be column names (or `cmp_eur`). */
  function Init(kwargs: Dict, today: ValidDate): (r: Result<Dict, PyError>)
    requires kwargs.Keys <= Columns + {"cmp_eur"}
    ensures r.Ok? <==> Accepted(kwargs)
    ensures r.Err? ==> InitError(kwargs) == Some(r.error)
    ensures r.Ok? ==> r.value == Fields(kwargs, today)
  {
    InitErrorIffRejected(kwargs);
    match InitError(kwargs)
    case Some(e) => Err(e)
    case None => Ok(Fields(kwargs, today))
  }

  /** Every column but the id, `cpm_eur` and the three runtime-derived ones is stored exactly as given. */
  lemma InitStoresValues(kwargs: Dict, today: ValidDate, c: string)
    requires Accepted(kwargs) && c in Kept
    ensures Fields(kwargs, today)[c] == Arg(kwargs, c)
  {
    var id := if "id" in kwargs then Some(ModelBase.ValidateUuid(kwargs["id"]).value) else None;
    var dates := if "runtime" in kwargs then Some(ParseRuntimeDates(kwargs["runtime"].s).value) else None;
    AttributesKeep(kwargs, id, dates, today, c);
  }

  lemma AttributesKeep(kw: Dict, id: Option<string>, dates: Option<(Option<ValidDate>, ValidDate)>, today: ValidDate, c: string)
    requires c in Kept
    ensures Attributes(kw, id, dates, today)[c] == Arg(kw, c)
  {
    assert c != "cmp_eur";
    var moved := MovedCmp(WithId(kw, id));
    assert Arg(moved, c) == Arg(kw, c);
    assert Arg(WithDates(moved, dates), c) == Arg(kw, c);
  }

  /** The id is stored in its printed form, the one `str(uuid.UUID(...))` gives. */
  lemma InitPrintsId(kwargs: Dict, today: ValidDate)
    requires Accepted(kwargs) && "id" in kwargs
    ensures ParseUuid(TextOf(kwargs["id"])).Some?
    ensures Fields(kwargs, today)["id"] == VStr(ParseUuid(TextOf(kwargs["id"])).value)
    ensures IsCanonical(ParseUuid(TextOf(kwargs["id"])).value)
  {
    var id := ModelBase.ValidateUuid(kwargs["id"]).value;
    var dates := if "runtime" in kwargs then Some(ParseRuntimeDates(kwargs["runtime"].s).value) else None;
    AttributesId(kwargs, id, dates, today);
  }

  lemma AttributesId(kw: Dict, id: string, dates: Option<(Option<ValidDate>, ValidDate)>, today: ValidDate)
    ensures Attributes(kw, Some(id), dates, today)["id"] == VStr(id)
  {
  }

  /** A `cmp_eur` value ends up under `cpm_eur`; otherwise `cpm_eur` is kept as given. */
  lemma InitMovesCmp(kwargs: Dict, today: ValidDate)
    requires Accepted(kwargs)
    ensures Fields(kwargs, today)["cpm_eur"] == if "cmp_eur" in kwargs then kwargs["cmp_eur"] else Arg(kwargs, "cpm_eur")
  {
    var id := if "id" in kwargs then Some(ModelBase.ValidateUuid(kwargs["id"]).value) else None;
    var dates := if "runtime" in kwargs then Some(ParseRuntimeDates(kwargs["runtime"].s).value) else None;
    AttributesCpm(kwargs, id, dates, today);
  }

  lemma AttributesCpm(kw: Dict, id: Option<string>, dates: Option<(Option<ValidDate>, ValidDate)>, today: ValidDate)
    ensures Attributes(kw, id, dates, today)["cpm_eur"] == if "cmp_eur" in kw then kw["cmp_eur"] else Arg(kw, "cpm_eur")
  {
  }

  /** The runtime text is parsed into the stored start and end, and `is_running` follows the end. */
  lemma InitParsesRuntime(kwargs: Dict, today: ValidDate)
    requires Accepted(kwargs) && "runtime" in kwargs
    ensures kwargs["runtime"].VStr? && ParseRuntimeDates(kwargs["runtime"].s).Ok?
    ensures var f := Fields(kwargs, today);
      var dates := ParseRuntimeDates(kwargs["runtime"].s).value;
      f["runtime_start"] == StartValue(dates.0) && f["runtime_end"] == VDateTime(dates.1) &&
      f["is_running"] == VBool(IsRunning(dates.1, today)) && f["runtime"] == kwargs["runtime"]
  {
    var id := if "id" in kwargs then Some(ModelBase.ValidateUuid(kwargs["id"]).value) else None;
    AttributesRuntime(kwargs, id, Some(ParseRuntimeDates(kwargs["runtime"].s).value), today);
  }

  /** A campaign ending today is not running, although the runtime parser calls it still running. */
  lemma EndingTodayNotRunning(d: ValidDate)
    ensures !IsRunning(d, d)
    ensures RuntimeParser.StillRunning(d, d)
  {
  }

  /** A bad id is reported before anything else is looked at. */
  lemma InitChecksIdFirst(kwargs: Dict, today: ValidDate)
    requires kwargs.Keys <= Columns + {"cmp_eur"} && "id" in kwargs && ModelBase.ValidateUuid(kwargs["id"]).Err?
    ensures Init(kwargs, today) == Err(ModelBase.ValidateUuid(kwargs["id"]).error)
  {
  }

  /** `cmp_eur` without `cpm_eur` raises `KeyError('cpm_eur')` once the earlier checks pass. */
  lemma CmpAloneIsKeyError(kwargs: Dict, today: ValidDate)
    requires kwargs.Keys <= Columns + {"cmp_eur"} && "cmp_eur" in kwargs && "cpm_eur" !in kwargs
    requires "id" in kwargs ==> ModelBase.ValidateUuid(kwargs["id"]).Ok?
    requires "impression_goal" in kwargs ==> ModelBase.ValidateImpressionGoalRange(kwargs["impression_goal"]).Ok?
    requires "budget_eur" in kwargs ==> ModelBase.ValidatePositiveValue("Budget", kwargs["budget_eur"]).Ok?
    ensures Init(kwargs, today) == Err(KeyError("cpm_eur"))
  {
  }

  /** The `cmp_eur` value itself is never checked, only the `cpm_eur` it replaces: a negative one is stored as the CPM. */
  lemma CmpValueUnchecked(kwargs: Dict, today: ValidDate, x: int)
    requires Accepted(kwargs) && "cmp_eur" !in kwargs && "cpm_eur" in kwargs && x < 0
    requires ModelBase.ValidatePositiveValue("CPM", kwargs["cpm_eur"]).Ok?
    ensures Accepted(kwargs["cmp_eur" := VInt(x)])
    ensures Fields(kwargs["cmp_eur" := VInt(x)], today)["cpm_eur"] == VInt(x)
  {
    var k := kwargs["cmp_eur" := VInt(x)];
    forall c | c != "cmp_eur" ensures (c in k <==> c in kwargs) && (c in k ==> k[c] == kwargs[c]) && Arg(k, c) == Arg(kwargs, c) {
    }
    InitMovesCmp(k, today);
  }

  /** A CPM passed as `cpm_eur` is never checked: a negative one is accepted and stored. */
  lemma DirectCpmUnchecked(kwargs: Dict, today: ValidDate, x: int)
    requires Accepted(kwargs) && "cmp_eur" !in kwargs && x < 0
    ensures Accepted(kwargs["cpm_eur" := VInt(x)])
    ensures Fields(kwargs["cpm_eur" := VInt(x)], today)["cpm_eur"] == VInt(x)
  {
    var k := kwargs["cpm_eur" := VInt(x)];
    forall c | c != "cpm_eur" ensures (c in k <==> c in kwargs) && (c in k ==> k[c] == kwargs[c]) && Arg(k, c) == Arg(kwargs, c) {
    }
    InitMovesCmp(k, today);
  }

  // ---------------------------------------------------------------------
  // The Campaign instance

  /** A `Campaign` row object: its column attributes. */
  class Campaign {
    var fields: Dict

    /** `BaseModel.__init__(**kwargs)`: the declared columns, `None` where not given. */
    constructor (kwargs: Dict)
      ensures fields == map c | c in Columns :: Arg(kwargs, c)
    {
      fields := map c | c in Columns :: Arg(kwargs, c);
    }

    /** `update_delivered_impressions(delivered)`: reports the exception raised, if any. */
    method UpdateDeliveredImpressions(delivered: Value) returns (raised: Option<PyError>)
      modifies this
      ensures raised == DeliveredError(delivered)
      ensures raised.None? ==> fields == old(fields)["delivered_impressions" := delivered]
      ensures raised.Some? ==> fields == old(fields)
    {
      if !IsNumber(delivered) {
        return Some(TypeError("'<' not supported between instances of '" + TpName(delivered) + "' and 'int'"));
      }
      if NumberOf(delivered) < 0.0 {
        return Some(ValueError("Delivered impressions cannot be negative"));
      }
      fields := fields["delivered_impressions" := delivered];
      return None;
    }
  }

  /** What `delivered < 0` and the negativity check raise for a delivered count, if anything. */
  function DeliveredError(v: Value): (e: Option<PyError>)
    ensures e.None? <==> IsNumber(v) && NumberOf(v) >= 0.0
    ensures IsNumber(v) && NumberOf(v) < 0.0 ==> e == Some(ValueError("Delivered impressions cannot be negative"))
    ensures !IsNumber(v) ==> e.Some? && e.value.TypeError?
  {
    if !IsNumber(v) then Some(TypeError("'<' not supported between instances of '" + TpName(v) + "' and 'int'"))
    else if NumberOf(v) < 0.0 then Some(ValueError("Delivered impressions cannot be negative"))
    else None
  }

  /** The id as `validate_uuid` prints it, when there is one. */
  function IdOf(kw: Dict): Option<string> {
    if "id" in kw && ModelBase.ValidateUuid(kw["id"]).Ok? then Some(ModelBase.ValidateUuid(kw["id"]).value) else None
  }

  /** The runtime dates, when there is a runtime that parses. */
  function DatesOf(kw: Dict): Option<(Option<ValidDate>, ValidDate)> {
    if "runtime" in kw && kw["runtime"].VStr? && ParseRuntimeDates(kw["runtime"].s).Ok? then Some(ParseRuntimeDates(kw["runtime"].s).value) else None
  }

  /** Lines 77-93 of `__init__`, rewriting the keyword dictionary in place. */
  method CheckNumbers(kwargs: Dict) returns (r: Result<Dict, PyError>)
    ensures r.Err? <==> NumberError(kwargs).Some?
    ensures r.Err? ==> NumberError(kwargs) == Some(r.error)
    ensures r.Ok? ==> r.value == MovedCmp(WithId(kwargs, IdOf(kwargs)))
  {
    var kw := kwargs;
    if "id" in kw {
      var id := ModelBase.ValidateUuid(kw["id"]);
      if id.Err? {
        return Err(id.error);
      }
      kw := kw["id" := VStr(id.value)];
    }
    assert kw == WithId(kwargs, IdOf(kwargs));
    if "impression_goal" in kw {
      var goal := ModelBase.ValidateImpressionGoalRange(kw["impression_goal"]);
      if goal.Err? {
        return Err(goal.error);
      }
      assert goal.value == kw["impression_goal"];
      kw := kw["impression_goal" := goal.value];
    }
    assert kw == WithId(kwargs, IdOf(kwargs));
    if "budget_eur" in kw {
      var budget := ModelBase.ValidatePositiveValue("Budget", kw["budget_eur"]);
      if budget.Err? {
        return Err(budget.error);
      }
      assert budget.value == kw["budget_eur"];
      kw := kw["budget_eur" := budget.value];
    }
    assert kw == WithId(kwargs, IdOf(kwargs));
    if "cmp_eur" in kw {
      if "cpm_eur" !in kw {
        return Err(KeyError("cpm_eur"));
      }
      var cpm := ModelBase.ValidatePositiveValue("CPM", kw["cpm_eur"]);
      if cpm.Err? {
        return Err(cpm.error);
      }
      assert cpm.value == kw["cpm_eur"];
      kw := kw["cpm_eur" := cpm.value];
    }
    assert kw == WithId(kwargs, IdOf(kwargs));
    if "cmp_eur" in kw {
      kw := (kw - {"cmp_eur"})["cpm_eur" := kw["cmp_eur"]];
    }
    return Ok(kw);
  }

  /** Lines 96-107 of `__init__`: the text checks, and the parsed dates added to the keywords. */
  method CheckTexts(kw: Dict) returns (r: Result<Dict, PyError>)
    ensures r.Err? <==> TextError(kw).Some?
    ensures r.Err? ==> TextError(kw) == Some(r.error)
    ensures r.Ok? ==> r.value == WithDates(kw, DatesOf(kw))
  {
    if "name" in kw {
      var name := kw["name"];
      if !name.VStr? {
        return Err(NoAttribute(TpName(name), "strip"));
      }
      if Strip(name.s) == [] {
        return Err(ValueError("Campaign name cannot be empty"));
      }
    }
    var rewritten := kw;
    if "runtime" in kw {
      var runtime := kw["runtime"];
      if !runtime.VStr? {
        return Err(NoAttribute(TpName(runtime), "strip"));
      }
      if Strip(runtime.s) == [] {
        return Err(ValueError("Runtime cannot be empty"));
      }
      var parsed := ParseRuntimeDates(runtime.s);
      if parsed.Err? {
        return Err(parsed.error);
      }
      rewritten := kw["runtime_start" := StartValue(parsed.value.0)]["runtime_end" := VDateTime(parsed.value.1)];
    }
    if "buyer" in kw && kw["buyer"].VNone? {
      return Err(ValueError("Buyer field is required"));
    }
    return Ok(rewritten);
  }

  /**
   * `Campaign(**kwargs)` as the constructor runs it: the keyword dictionary
   * is rewritten check by check, an exception ends it early, and
   * `is_running` is set on the new instance.
   */
  method NewCampaign(kwargs: Dict, today: ValidDate) returns (r: Result<Campaign, PyError>)
    requires kwargs.Keys <= Columns + {"cmp_eur"}
    ensures r.Err? <==> !Accepted(kwargs)
    ensures r.Err? ==> InitError(kwargs) == Some(r.error)
    ensures r.Ok? ==> fresh(r.value) && r.value.fields == Fields(kwargs, today)
  {
    InitErrorIffRejected(kwargs);
    var numbers := CheckNumbers(kwargs);
    if numbers.Err? {
      return Err(numbers.error);
    }
    var kw := numbers.value;
    TextChecksAfterRewrite(kwargs);
    var texts := CheckTexts(kw);
    if texts.Err? {
      return Err(texts.error);
    }
    var campaign := new Campaign(texts.value);
    var end := campaign.fields["runtime_end"];
    EndAfterChecks(kwargs, texts.value);
    if Truthy(end) {
      if !end.VDateTime? {
        return Err(NoAttribute(TpName(end), "date"));
      }
      campaign.fields := campaign.fields["is_running" := VBool(IsRunning(end.day, today))];
    }
    FieldsUnfold(kwargs, today);
    return Ok(campaign);
  }

  /** The end date the instance holds after the checks: a `.date()` failure there is `EndError`. */
  lemma EndAfterChecks(kwargs: Dict, kw: Dict)
    requires NumberError(kwargs).None? && TextError(kwargs).None?
    requires kw == WithDates(MovedCmp(WithId(kwargs, IdOf(kwargs))), DatesOf(kwargs))
    ensures EndError(kwargs).Some? <==> Truthy(Arg(kw, "runtime_end")) && !Arg(kw, "runtime_end").VDateTime?
    ensures EndError(kwargs).Some? ==> EndError(kwargs) == Some(NoAttribute(TpName(Arg(kw, "runtime_end")), "date"))
  {
    var moved := MovedCmp(WithId(kwargs, IdOf(kwargs)));
    RewriteKeeps(kwargs, "runtime_end");
    if DatesOf(kwargs).Some? {
      assert "runtime" in kwargs;
      assert Arg(kw, "runtime_end") == VDateTime(DatesOf(kwargs).value.1);
    } else {
      assert kw == moved;
    }
  }

  /** `Fields` in the terms the constructor builds it in. */
  lemma FieldsUnfold(kwargs: Dict, today: ValidDate)
    requires Accepted(kwargs)
    ensures Fields(kwargs, today) == Declared(WithDates(MovedCmp(WithId(kwargs, IdOf(kwargs))), DatesOf(kwargs)), today)
  {
  }

  /** Rewriting the id and the CPM does not touch anything the later checks read. */
  lemma TextChecksAfterRewrite(kwargs: Dict)
    ensures var kw := MovedCmp(WithId(kwargs, IdOf(kwargs)));
      TextError(kw) == TextError(kwargs) && EndError(kw) == EndError(kwargs) && DatesOf(kw) == DatesOf(kwargs)
  {
    var kw := MovedCmp(WithId(kwargs, IdOf(kwargs)));
    RewriteKeeps(kwargs, "name");
    RewriteKeeps(kwargs, "runtime");
    RewriteKeeps(kwargs, "buyer");
    RewriteKeeps(kwargs, "runtime_end");
    SameTextError(kw, kwargs);
    SameEndError(kw, kwargs);
  }

  /** A key other than `id`, `cmp_eur` and `cpm_eur` is untouched by the rewrites. */
  lemma RewriteKeeps(kwargs: Dict, c: string)
    requires c != "id" && c != "cmp_eur" && c != "cpm_eur"
    ensures SameOn(MovedCmp(WithId(kwargs, IdOf(kwargs))), kwargs, c)
  {
  }

  /** `a` and `b` agree on whether they hold `c` and on its value. */
  predicate SameOn(a: Dict, b: Dict, c: string) {
    (c in a <==> c in b) && Arg(a, c) == Arg(b, c)
  }

  /** The text checks read only `name`, `runtime` and `buyer`. */
  lemma SameTextError(a: Dict, b: Dict)
    requires SameOn(a, b, "name") && SameOn(a, b, "runtime") && SameOn(a, b, "buyer")
    ensures TextError(a) == TextError(b) && DatesOf(a) == DatesOf(b)
  {
  }

  /** The end-date check reads only `runtime` and `runtime_end`. */
  lemma SameEndError(a: Dict, b: Dict)
    requires SameOn(a, b, "runtime") && SameOn(a, b, "runtime_end")
    ensures EndError(a) == EndError(b)
  {
  }

  // ---------------------------------------------------------------------
  // Derived values

  /** `entity_type` (and its alias `campaign_type`): an exact match on the marker value. */
  function EntityType(f: Dict): (t: string)
    ensures t == CampaignClassifier.Campaign || t == CampaignClassifier.Deal
  {
    if Arg(f, "buyer") == VStr(CampaignClassifier.CampaignBuyerValue) then CampaignClassifier.Campaign
    else CampaignClassifier.Deal
  }

  /** The entity type agrees with the classifier's `is_campaign`, even on the buyers `classify` refuses. */
  lemma EntityTypeMatchesClassifier(f: Dict)
    ensures EntityType(f) == CampaignClassifier.Campaign <==> CampaignClassifier.IsCampaign(Arg(f, "buyer"))
    ensures Arg(f, "buyer").VNone? ==> EntityType(f) == CampaignClassifier.Deal && CampaignClassifier.Classify(Arg(f, "buyer")).Err?
  {
  }

  /**
   * `fulfillment_percentage`: `None` without a delivered count or a goal, or
   * with a goal equal to 0; the `TypeError` of `/` for anything but numbers.
   */
  function FulfillmentPercentage(f: Dict): (r: Result<Option<real>, PyError>)
    ensures r == Ok(None) <==>
      Arg(f, "delivered_impressions").VNone? || Arg(f, "impression_goal").VNone? ||
      (IsNumber(Arg(f, "impression_goal")) && NumberOf(Arg(f, "impression_goal")) == 0.0)
    ensures r.Err? <==>
      !Arg(f, "delivered_impressions").VNone? && !Arg(f, "impression_goal").VNone? &&
      !(IsNumber(Arg(f, "impression_goal")) && NumberOf(Arg(f, "impression_goal")) == 0.0) &&
      !(IsNumber(Arg(f, "delivered_impressions")) && IsNumber(Arg(f, "impression_goal")))
    ensures r.Ok? && r.value.Some? ==>
      var d := Arg(f, "delivered_impressions");
      var g := Arg(f, "impression_goal");
      IsNumber(d) && IsNumber(g) && NumberOf(g) != 0.0 && r.value.value * NumberOf(g) == 100.0 * NumberOf(d)
  {
    var d := Arg(f, "delivered_impressions");
    var g := Arg(f, "impression_goal");
    if d.VNone? || g.VNone? then Ok(None)
    else if IsNumber(g) && NumberOf(g) == 0.0 then Ok(None)
    else if !IsNumber(d) || !IsNumber(g) then
      Err(TypeError("unsupported operand type(s) for /: '" + TpName(d) + "' and '" + TpName(g) + "'"))
    else Ok(Some(Percent(NumberOf(d), NumberOf(g))))
  }

  /** `part / whole * 100` */
  function Percent(part: real, whole: real): (r: real)
    requires whole != 0.0
    ensures r * whole == 100.0 * part
  {
    assert part / whole * whole == part;
    part / whole * 100.0
  }

  /** `is_over_delivered`: the fulfillment is known and above 100 percent. */
  function IsOverDelivered(f: Dict): (r: Result<bool, PyError>)
    ensures r.Err? <==> FulfillmentPercentage(f).Err?
    ensures r.Ok? ==> (r.value <==> FulfillmentPercentage(f).value.Some? && FulfillmentPercentage(f).value.value > 100.0)
  {
    var pct :- FulfillmentPercentage(f);
    Ok(pct.Some? && pct.value > 100.0)
  }

  /** With numbers on both sides and a non-zero goal, the fulfillment is the percentage of the goal delivered. */
  lemma FulfillmentOfNumbers(f: Dict)
    requires IsNumber(Arg(f, "delivered_impressions")) && IsNumber(Arg(f, "impression_goal"))
    requires NumberOf(Arg(f, "impression_goal")) != 0.0
    ensures FulfillmentPercentage(f) ==
            Ok(Some(Percent(NumberOf(Arg(f, "delivered_impressions")), NumberOf(Arg(f, "impression_goal")))))
  {
  }

  /** With a positive goal, a campaign is over-delivered exactly when it delivered more than its goal. */
  lemma OverDeliveredIffAboveGoal(f: Dict)
    requires IsNumber(Arg(f, "delivered_impressions")) && IsNumber(Arg(f, "impression_goal"))
    requires NumberOf(Arg(f, "impression_goal")) > 0.0
    ensures IsOverDelivered(f) == Ok(NumberOf(Arg(f, "delivered_impressions")) > NumberOf(Arg(f, "impression_goal")))
  {
    var d := NumberOf(Arg(f, "delivered_impressions"));
    var g := NumberOf(Arg(f, "impression_goal"));
    FulfillmentOfNumbers(f);
    OverDeliveredFrom(f, d, g);
  }

  lemma OverDeliveredFrom(f: Dict, d: real, g: real)
    requires g > 0.0 && FulfillmentPercentage(f) == Ok(Some(Percent(d, g)))
    ensures IsOverDelivered(f) == Ok(d > g)
  {
    PercentAbove(Percent(d, g), d, g);
  }

  /** A percentage `p` of `d` over `g` exceeds 100 exactly when `d` exceeds `g`. */
  lemma PercentAbove(p: real, d: real, g: real)
    requires g > 0.0 && p * g == 100.0 * d
    ensures p > 100.0 <==> d > g
  {
    ScaleOrder(p, 100.0, g);
  }

  /** A percentage of a non-negative part of a positive whole is non-negative. */
  lemma PercentSign(part: real, whole: real)
    requires part >= 0.0 && whole > 0.0
    ensures Percent(part, whole) >= 0.0
  {
    ScaleOrder(0.0, Percent(part, whole), whole);
  }

  /** Multiplying by a positive factor keeps the order. */
  lemma ScaleOrder(x: real, y: real, g: real)
    requires g > 0.0
    ensures x > y <==> x * g > y * g
  {
    if x > y {
      assert (x - y) * g > 0.0;
    } else {
      assert (y - x) * g >= 0.0;
    }
  }

  /** After a successful update the fulfillment is the percentage of the goal the new count reaches, never negative for a positive goal. */
  lemma FulfillmentAfterUpdate(f: Dict, delivered: Value)
    requires DeliveredError(delivered).None? && IsNumber(Arg(f, "impression_goal")) && NumberOf(Arg(f, "impression_goal")) != 0.0
    ensures FulfillmentPercentage(f["delivered_impressions" := delivered]) ==
            Ok(Some(Percent(NumberOf(delivered), NumberOf(Arg(f, "impression_goal")))))
    ensures NumberOf(Arg(f, "impression_goal")) > 0.0 ==> Percent(NumberOf(delivered), NumberOf(Arg(f, "impression_goal"))) >= 0.0
  {
    var f2 := f["delivered_impressions" := delivered];
    assert Arg(f2, "impression_goal") == Arg(f, "impression_goal");
    assert Arg(f2, "delivered_impressions") == delivered;
    FulfillmentOfNumbers(f2);
    if NumberOf(Arg(f, "impression_goal")) > 0.0 {
      PercentSign(NumberOf(delivered), NumberOf(Arg(f, "impression_goal")));
    }
  }

  // ---------------------------------------------------------------------
  // UploadSession

  /** An `UploadSession` row; timestamps are opaque clock readings passed in by the caller. */
  class UploadSession {
    var filename: string
    var fileSize: int
    var status: Option<string>
    var processingStartedAt: Option<nat>
    var processingCompletedAt: Option<nat>
    var totalRowsProcessed: Option<int>
    var successfulCampaigns: Option<int>
    var failedCampaigns: Option<int>
    var validationErrors: Option<string>

    /** A completed session carries its counts, and a finished one its completion time. */
    predicate Consistent()
      reads this
    {
      (status == Some("completed") ==>
         totalRowsProcessed.Some? && successfulCampaigns.Some? && failedCampaigns.Some?) &&
      (status == Some("completed") || status == Some("failed") ==> processingCompletedAt.Some?)
    }

    /** `UploadSession(filename=..., file_size=...)`: the other columns stay unset until insert. */
    constructor (filename: string, fileSize: int)
      ensures this.filename == filename && this.fileSize == fileSize
      ensures status.None? && processingStartedAt.None? && processingCompletedAt.None?
      ensures totalRowsProcessed.None? && successfulCampaigns.None? && failedCampaigns.None? && validationErrors.None?
      ensures Consistent()
    {
      this.filename := filename;
      this.fileSize := fileSize;
      status := None;
      processingStartedAt := None;
      processingCompletedAt := None;
      totalRowsProcessed := None;
      successfulCampaigns := None;
      failedCampaigns := None;
      validationErrors := None;
    }

    /** `mark_processing_started()` */
    method MarkProcessingStarted(now: nat)
      modifies this
      ensures status == Some("processing") && processingStartedAt == Some(now)
      ensures filename == old(filename) && fileSize == old(fileSize)
      ensures processingCompletedAt == old(processingCompletedAt) && validationErrors == old(validationErrors)
      ensures totalRowsProcessed == old(totalRowsProcessed) && successfulCampaigns == old(successfulCampaigns) && failedCampaigns == old(failedCampaigns)
      ensures Consistent()
    {
      status := Some("processing");
      processingStartedAt := Some(now);
    }

    /** `mark_completed(successful, failed, total)` */
    method MarkCompleted(now: nat, successful: int, failed: int, total: int)
      modifies this
      ensures status == Some("completed") && processingCompletedAt == Some(now)
      ensures successfulCampaigns == Some(successful) && failedCampaigns == Some(failed) && totalRowsProcessed == Some(total)
      ensures filename == old(filename) && fileSize == old(fileSize)
      ensures processingStartedAt == old(processingStartedAt) && validationErrors == old(validationErrors)
      ensures Consistent()
    {
      status := Some("completed");
      processingCompletedAt := Some(now);
      successfulCampaigns := Some(successful);
      failedCampaigns := Some(failed);
      totalRowsProcessed := Some(total);
    }

    /** `mark_failed(error_message)`: the counts are left as they were. */
    method MarkFailed(now: nat, message: string)
      modifies this
      ensures status == Some("failed") && processingCompletedAt == Some(now) && validationErrors == Some(message)
      ensures filename == old(filename) && fileSize == old(fileSize) && processingStartedAt == old(processingStartedAt)
      ensures totalRowsProcessed == old(totalRowsProcessed) && successfulCampaigns == old(successfulCampaigns) && failedCampaigns == old(failedCampaigns)
      ensures Consistent()
    {
      status := Some("failed");
      processingCompletedAt := Some(now);
      validationErrors := Some(message);
    }
  }
}

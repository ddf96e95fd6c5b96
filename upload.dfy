/**
 * `app.api.upload`: the row pipeline of `XLSXProcessor` (header mapping, row
 * extraction and conversion, the per-row error records and the summary), the
 * per-campaign persistence loop of `upload_campaigns`, and the upload
 * session's final state and outcome.
 *
 * The worksheet is a header row and a sequence of data rows; the database is
 * a `CampaignStore` holding the committed ids; JSON encoding, the clock and
 * any database failure other than a duplicate id are parameters.
 */
module Upload {
  import opened Wrappers
  import opened PyText
  import opened PyDate
  import opened PyValue
  import opened Exceptions
  import opened PyUuid
  import DataConversion
  import RuntimeParser
  import CampaignModel

  /** A worksheet row as `iter_rows(values_only=True)` yields it; an empty cell is `VNone`. */
  type Row = seq<Value>

  /** Field name to column index, as `_extract_headers` returns it. */
  type Headers = map<string, nat>

  const RequiredFields: seq<string> := ["id", "name", "runtime", "impression_goal", "budget_eur", "cpm_eur", "buyer"]

  /** The keys of the dictionary `_process_row` returns. */
  const OutputKeys: set<string> := {"id", "name", "buyer", "impression_goal", "budget_eur", "cpm_eur",
    "runtime", "runtime_start", "runtime_end"}

  // ---------------------------------------------------------------------
  // Header mapping

  /** The field a cleaned header names: the rules are tried in order and the first match wins. */
  function FieldOfHeader(c: string): (r: Option<string>)
    ensures r.Some? ==> r.value in RequiredFields
  {
    if Contains(c, "id") || Contains(c, "uuid") then Some("id")
    else if Contains(c, "deal/campaign") && Contains(c, "name") then Some("name")
    else if Contains(c, "runtime") then Some("runtime")
    else if Contains(c, "impression") && Contains(c, "goal") then Some("impression_goal")
    else if Contains(c, "budget") then Some("budget_eur")
    else if Contains(c, "cpm") then Some("cpm_eur")
    else if Contains(c, "buyer") then Some("buyer")
    else None
  }

  /** The field one header cell maps to; empty headers are ignored. */
  function HeaderField(h: Value): (r: Option<string>)
    ensures r.Some? ==> r.value in RequiredFields
    ensures !Truthy(h) ==> r.None?
  {
    if !Truthy(h) then None
    else
      FieldOfHeader(Lower(Strip(FormatText(h))))
  }

  /** The mapping after the header cells of `row`, left to right, with `field` as the rule set. */
  function HeadersWith(row: Row, field: Value -> Option<string>): (h: Headers)
    ensures forall f :: f in h ==> h[f] < |row|
    decreases |row|
  {
    if row == [] then map[]
    else
      var i := |row| - 1;
      var h := HeadersWith(row[..i], field);
      match field(row[i])
      case Some(f) => h[f := i]
      case None => h
  }

  /** What `_extract_headers` returns for a header row. */
  function HeadersOf(row: Row): Headers {
    HeadersWith(row, HeaderField)
  }

  /** `XLSXProcessor._extract_headers(worksheet)` on the first row. */
  method ExtractHeaders(headerRow: Row) returns (headers: Headers)
    ensures headers == HeadersOf(headerRow)
  {
    headers := map[];
    var idx := 0;
    while idx < |headerRow|
      invariant 0 <= idx <= |headerRow|
      invariant headers == HeadersWith(headerRow[..idx], HeaderField)
    {
      var hit := HeaderField(headerRow[idx]);
      HeadersStep(headerRow, idx, HeaderField);
      if hit.Some? {
        headers := headers[hit.value := idx];
      }
      idx := idx + 1;
    }
    assert headerRow[..|headerRow|] == headerRow;
  }

  /** One more header cell: its field, if any, now maps to its column. */
  lemma HeadersStep(row: Row, i: nat, field: Value -> Option<string>)
    requires i < |row|
    ensures var h := HeadersWith(row[..i], field);
            HeadersWith(row[..i + 1], field) == if field(row[i]).Some? then h[field(row[i]).value := i] else h
  {
    assert row[..i + 1][..i] == row[..i];
    assert row[..i + 1][i] == row[i];
  }

  /**
   * A field is mapped exactly when some header cell maps to it, and then to
   * the last such column: a later column overwrites an earlier one.
   */
  lemma {:induction false} LastColumnWins(row: Row, field: Value -> Option<string>, f: string)
    ensures f in HeadersWith(row, field) <==> exists i :: 0 <= i < |row| && field(row[i]) == Some(f)
    ensures f in HeadersWith(row, field) ==>
              field(row[HeadersWith(row, field)[f]]) == Some(f) &&
              forall j :: HeadersWith(row, field)[f] < j < |row| ==> field(row[j]) != Some(f)
    decreases |row|
  {
    if row != [] {
      var i := |row| - 1;
      var prefix := row[..i];
      LastColumnWins(prefix, field, f);
      assert forall j :: 0 <= j < i ==> prefix[j] == row[j];
      if f in HeadersWith(prefix, field) {
        var k :| 0 <= k < i && field(prefix[k]) == Some(f);
        assert field(row[k]) == Some(f);
      }
      if exists j :: 0 <= j < |row| && field(row[j]) == Some(f) {
        var j :| 0 <= j < |row| && field(row[j]) == Some(f);
        if j < i {
          assert field(prefix[j]) == Some(f);
        }
      }
    }
  }

  /** `_extract_headers` maps only model fields, to the last column whose header names them. */
  lemma HeadersLastWins(row: Row, f: string)
    ensures f in HeadersOf(row) <==> exists i :: 0 <= i < |row| && HeaderField(row[i]) == Some(f)
    ensures f in HeadersOf(row) ==>
              f in RequiredFields && HeaderField(row[HeadersOf(row)[f]]) == Some(f) &&
              forall j :: HeadersOf(row)[f] < j < |row| ==> HeaderField(row[j]) != Some(f)
  {
    LastColumnWins(row, HeaderField, f);
  }

  /** `LowerChar` keeps whitespace and turns nothing else into whitespace. */
  lemma LowerKeepsSpace(c: char)
    ensures IsSpace(LowerChar(c)) <==> IsSpace(c)
    ensures LowerChar(LowerChar(c)) == LowerChar(c)
  {
  }

  /** The header text of a string cell is the string itself. */
  lemma HeaderFieldOfText(t: string)
    ensures HeaderField(VStr(t)) == if t == [] then None else FieldOfHeader(Lower(Strip(t)))
  {
    StrOfStr(t);
  }

  /** Lower-casing twice is lower-casing once. */
  lemma LowerIdempotent(s: string)
    ensures Lower(Lower(s)) == Lower(s)
  {
    var c := Lower(s);
    forall i | 0 <= i < |c| ensures Lower(c)[i] == c[i] {
      LowerKeepsSpace(s[i]);
    }
  }

  /** A trimmed, lower-cased text is its own trimmed, lower-cased form. */
  lemma CleanIsFixed(t: string)
    requires Strip(t) != []
    ensures Lower(Strip(Lower(Strip(t)))) == Lower(Strip(t))
  {
    StripShape(t);
    LowerTrimmed(Strip(t));
  }

  /** Lower-casing a text without surrounding whitespace leaves none to trim. */
  lemma LowerTrimmed(s: string)
    requires s != [] && !IsSpace(s[0]) && !IsSpace(s[|s| - 1])
    ensures Lower(Strip(Lower(s))) == Lower(s)
  {
    var c := Lower(s);
    assert c[0] == LowerChar(s[0]) && c[|c| - 1] == LowerChar(s[|s| - 1]);
    LowerKeepsSpace(s[0]);
    LowerKeepsSpace(s[|s| - 1]);
    StripNoop(c);
    LowerIdempotent(s);
  }

  /** Headers are compared trimmed and lower-cased, so surrounding spaces and letter case do not matter. */
  lemma HeaderNormalised(t: string)
    requires Strip(t) != []
    ensures HeaderField(VStr(t)) == HeaderField(VStr(Lower(Strip(t))))
  {
    CleanIsFixed(t);
    HeaderFieldOfText(t);
    HeaderFieldOfText(Lower(Strip(t)));
  }

  /** Every character of a contained text occurs in the text containing it. */
  lemma {:induction false} ContainedChars(s: string, sub: string, j: nat)
    requires Contains(s, sub) && j < |sub|
    ensures sub[j] in s
    decreases |s|
  {
    if StartsWith(s, sub) {
      assert s[j] == sub[j];
    } else {
      ContainedChars(s[1..], sub, j);
    }
  }

  /** A text lacking the character at position `j` of `sub` does not contain `sub`. */
  lemma NotContained(s: string, sub: string, j: nat)
    requires j < |sub| && sub[j] !in s
    ensures !Contains(s, sub)
  {
    if Contains(s, sub) {
      ContainedChars(s, sub, j);
    }
  }

  /** A bare "name" header is ignored: the name rule also asks for "deal/campaign". */
  lemma BareNameIgnored()
    ensures FieldOfHeader("name") == None
  {
    NotContained("name", "id", 0);
    NotContained("name", "uuid", 0);
    NotContained("name", "deal/campaign", 0);
    NotContained("name", "runtime", 0);
    NotContained("name", "impression", 0);
    NotContained("name", "budget", 0);
    NotContained("name", "cpm", 0);
    NotContained("name", "buyer", 0);
  }

  /** The id rule is tried first and matches "id" anywhere, so "paid budget" is taken for the id column. */
  lemma IdRuleFirst()
    ensures FieldOfHeader("paid budget") == Some("id")
  {
  }

  lemma BudgetHeader()
    ensures FieldOfHeader("budget") == Some("budget_eur")
  {
    NotContained("budget", "id", 0);
    NotContained("budget", "uuid", 2);
    NotContained("budget", "deal/campaign", 5);
    NotContained("budget", "runtime", 0);
    NotContained("budget", "impression", 0);
  }

  lemma CpmHeader()
    ensures FieldOfHeader("cpm") == Some("cpm_eur")
  {
    NotContained("cpm", "id", 0);
    NotContained("cpm", "uuid", 0);
    NotContained("cpm", "deal/campaign", 0);
    NotContained("cpm", "runtime", 0);
    NotContained("cpm", "impression", 0);
    NotContained("cpm", "budget", 0);
  }

  // ---------------------------------------------------------------------
  // One row

  /** `not any(cell for cell in row)` */
  predicate BlankRow(row: Row) {
    forall i :: 0 <= i < |row| ==> !Truthy(row[i])
  }

  /** The cells the mapped columns point at, for the columns the row reaches. */
  function RawData(row: Row, headers: Headers): Dict {
    map f | f in headers && headers[f] < |row| :: row[headers[f]]
  }

  /** The extraction loop of `_process_row` over `headers.items()`. */
  method ReadRaw(row: Row, headers: Headers) returns (raw: Dict)
    ensures raw == RawData(row, headers)
  {
    raw := map[];
    var todo := headers.Keys;
    while todo != {}
      invariant todo <= headers.Keys
      invariant raw == map f | f in headers && f !in todo && headers[f] < |row| :: row[headers[f]]
      decreases |todo|
    {
      var f :| f in todo;
      if headers[f] < |row| {
        raw := raw[f := row[headers[f]]];
      }
      todo := todo - {f};
    }
  }

  /** The fields of `fields`, in their order, that are absent from `raw` or `None` there. */
  function MissingFrom(fields: seq<string>, raw: Dict): (m: seq<string>)
    ensures forall f :: f in m <==> f in fields && (f !in raw || raw[f].VNone?)
    ensures |m| <= |fields|
  {
    if fields == [] then []
    else
      var f := fields[0];
      (if f !in raw || raw[f].VNone? then [f] else []) + MissingFrom(fields[1..], raw)
  }

  /** `missing_fields` of `_process_row` */
  function Missing(raw: Dict): seq<string> {
    MissingFrom(RequiredFields, raw)
  }

  /** Every required field is present and not `None`. */
  predicate Complete(raw: Dict) {
    Present(raw, "id") && Present(raw, "name") && Present(raw, "runtime") && Present(raw, "impression_goal") &&
    Present(raw, "budget_eur") && Present(raw, "cpm_eur") && Present(raw, "buyer")
  }

  predicate Present(raw: Dict, f: string) {
    f in raw && !raw[f].VNone?
  }

  /** `f"Missing required fields: {missing_fields}"`, which prints the list with its `repr`. */
  function MissingMessage(m: seq<string>): string {
    "Missing required fields: " + FormatText(StrList(m))
  }

  /** The three converted amounts of a row. */
  datatype Amounts = Amounts(goal: int, budget: Dec, cpm: Dec)

  /** The converter calls of `_process_row`, each on `str()` of the cell. */
  function ConvertAmounts(raw: Dict): Result<Amounts, PyError>
    requires Complete(raw)
  {
    var goal :- DataConversion.ConvertImpressionGoal(VStr(FormatText(raw["impression_goal"])));
    var budget :- DataConversion.ConvertEuropeanDecimal(VStr(FormatText(raw["budget_eur"])));
    var cpm :- DataConversion.ConvertEuropeanDecimal(VStr(FormatText(raw["cpm_eur"])));
    Ok(Amounts(goal, budget, cpm))
  }

  /** `str(raw_data["runtime"]).strip()` */
  function RuntimeText(raw: Dict): string
    requires Complete(raw)
  {
    Strip(FormatText(raw["runtime"]))
  }

  /** `dict.get(key)` */
  function Get(d: Dict, key: string): Value {
    if key in d then d[key] else VNone
  }

  /** The shape of a `campaign_data` dictionary: the nine keys, the id a string. */
  predicate CampaignData(d: Dict) {
    d.Keys == OutputKeys && d["id"].VStr?
  }

  /** The stripped `str()` of the id, name, buyer and runtime cells. */
  datatype Texts = Texts(id: string, name: string, buyer: string, runtime: string)

  function TextsOf(raw: Dict): Texts
    requires Complete(raw)
  {
    Texts(Strip(FormatText(raw["id"])), Strip(FormatText(raw["name"])), Strip(FormatText(raw["buyer"])), RuntimeText(raw))
  }

  /** The dictionary `_process_row` returns once every step has succeeded. */
  function Output(t: Texts, a: Amounts, runtime: Dict): Dict {
    map["id" := VStr(t.id), "name" := VStr(t.name), "buyer" := VStr(t.buyer), "impression_goal" := VInt(a.goal),
        "budget_eur" := VFloat(a.budget), "cpm_eur" := VFloat(a.cpm), "runtime" := VStr(t.runtime),
        "runtime_start" := Get(runtime, "start_date"), "runtime_end" := Get(runtime, "end_date")]
  }

  /**
   * `except (ConversionError, RuntimeParseError, ValueError)`: the first two
   * are the classes `data_conversion` and `runtime_parser` declare locally
   * and never raise, so only a `ValueError` is caught and re-raised with the
   * prefix; any other error leaves the row unchanged.
   */
  function Guarded(r: Result<Dict, PyError>): Result<Dict, PyError> {
    if r.Err? && r.error.ValueError? then Err(ValueError("Data conversion failed: " + Message(r.error))) else r
  }

  /** The conversion steps with the module-level `parse_runtime` doing the runtime. */
  function Converted(raw: Dict, today: ValidDate): Result<Dict, PyError>
    requires Complete(raw)
  {
    var a :- ConvertAmounts(raw);
    var runtime :- RuntimeParser.ParseRuntime(VStr(RuntimeText(raw)), today);
    Ok(Output(TextsOf(raw), a, runtime))
  }

  /** The conversion steps as written: `self.runtime_parser.parse_runtime` is not an attribute of `RuntimeParser`. */
  function ConvertedAsWritten(raw: Dict): Result<Dict, PyError>
    requires Complete(raw)
  {
    var a :- ConvertAmounts(raw);
    Err(NoAttribute("RuntimeParser", "parse_runtime"))
  }

  /** No required field is missing exactly when the row is complete. */
  lemma NoneMissingIffComplete(raw: Dict)
    ensures Missing(raw) == [] <==> Complete(raw)
  {
    var m := Missing(raw);
    if m == [] {
      assert forall f :: f in RequiredFields ==> f in raw && !raw[f].VNone?;
      assert RequiredFields[0] == "id" && RequiredFields[1] == "name" && RequiredFields[2] == "runtime";
      assert RequiredFields[3] == "impression_goal" && RequiredFields[4] == "budget_eur";
      assert RequiredFields[5] == "cpm_eur" && RequiredFields[6] == "buyer";
    } else {
      assert m[0] in m;
    }
  }

  /** The required-field check and the conversions of `_process_row`, on the extracted cells. */
  function CheckedRow(raw: Dict, today: ValidDate): Result<Option<Dict>, PyError> {
    var m := Missing(raw);
    if m != [] then Err(ValueError(MissingMessage(m)))
    else
      NoneMissingIffComplete(raw);
      Finish(Guarded(Converted(raw, today)))
  }

  /** The same with the runtime call as written. */
  function CheckedRowAsWritten(raw: Dict): Result<Option<Dict>, PyError> {
    var m := Missing(raw);
    if m != [] then Err(ValueError(MissingMessage(m)))
    else
      NoneMissingIffComplete(raw);
      Finish(Guarded(ConvertedAsWritten(raw)))
  }

  /** `return campaign_data`, or the error the conversions raised. */
  function Finish(r: Result<Dict, PyError>): Result<Option<Dict>, PyError> {
    match r
    case Ok(d) => Ok(Some(d))
    case Err(e) => Err(e)
  }

  /** `XLSXProcessor._process_row(row, headers, row_number)`, with the runtime call corrected. */
  function RowOutcome(row: Row, headers: Headers, today: ValidDate): Result<Option<Dict>, PyError> {
    if BlankRow(row) then Ok(None) else CheckedRow(RawData(row, headers), today)
  }

  /** `XLSXProcessor._process_row(row, headers, row_number)` as written. */
  function RowOutcomeAsWritten(row: Row, headers: Headers): Result<Option<Dict>, PyError> {
    if BlankRow(row) then Ok(None) else CheckedRowAsWritten(RawData(row, headers))
  }

  /** `_process_row`: blank check, extraction loop, then the checks and conversions. */
  method ProcessRow(row: Row, headers: Headers, today: ValidDate) returns (r: Result<Option<Dict>, PyError>)
    ensures r == RowOutcome(row, headers, today)
  {
    if BlankRow(row) {
      return Ok(None);
    }
    var raw := ReadRaw(row, headers);
    r := CheckedRow(raw, today);
  }

  /** The converters, given a string, fail only with an application error. */
  lemma ConverterErrors(s: string)
    ensures DataConversion.ConvertImpressionGoal(VStr(s)).Err? ==> DataConversion.ConvertImpressionGoal(VStr(s)).error.PPV?
    ensures DataConversion.ConvertEuropeanDecimal(VStr(s)).Err? ==> DataConversion.ConvertEuropeanDecimal(VStr(s)).error.PPV?
  {
  }

  /** The runtime parser, given a string, fails only with an application error. */
  lemma ParserErrors(s: string, today: ValidDate)
    ensures RuntimeParser.ParseRuntime(VStr(s), today).Err? ==> RuntimeParser.ParseRuntime(VStr(s), today).error.PPV?
  {
  }

  lemma AmountErrors(raw: Dict)
    requires Complete(raw)
    ensures ConvertAmounts(raw).Err? ==> ConvertAmounts(raw).error.PPV?
  {
    ConverterErrors(FormatText(raw["impression_goal"]));
    ConverterErrors(FormatText(raw["budget_eur"]));
    ConverterErrors(FormatText(raw["cpm_eur"]));
  }

  /** Only a `ValueError` would be re-raised with the prefix, and no conversion step raises one. */
  lemma ConversionErrorsPassThrough(raw: Dict, today: ValidDate)
    requires Complete(raw)
    ensures Converted(raw, today).Err? ==> Converted(raw, today).error.PPV?
    ensures ConvertedAsWritten(raw).Err?
    ensures ConvertedAsWritten(raw).error.PPV? || ConvertedAsWritten(raw).error.AttributeError?
    ensures Guarded(Converted(raw, today)) == Converted(raw, today)
    ensures Guarded(ConvertedAsWritten(raw)) == ConvertedAsWritten(raw)
  {
    AmountErrors(raw);
    ParserErrors(RuntimeText(raw), today);
  }

  /** An accepted goal cell holds digits only, their value within the goal range. */
  lemma GoalMeaning(s: string)
    requires DataConversion.ConvertImpressionGoal(VStr(s)).Ok?
    ensures IsDigitString(Strip(s))
    ensures DataConversion.ConvertImpressionGoal(VStr(s)).value == DigitsValue(Strip(s))
    ensures DataConversion.MinImpressionGoal <= DigitsValue(Strip(s)) <= DataConversion.MaxImpressionGoal
  {
  }

  /** When every conversion succeeds the row's dictionary is built from their results. */
  lemma ConvertedOk(raw: Dict, today: ValidDate)
    requires Complete(raw) && ConvertAmounts(raw).Ok?
    requires RuntimeParser.Parse(VStr(RuntimeText(raw)), today).Ok?
    ensures Converted(raw, today) ==
            Ok(Output(TextsOf(raw), ConvertAmounts(raw).value, RuntimeParser.ToDict(RuntimeParser.Parse(VStr(RuntimeText(raw)), today).value)))
  {
  }

  /** The stored runtime dates are the parser's: `runtime_start` is `None` for an ASAP runtime. */
  lemma OutputDates(t: Texts, a: Amounts, p: RuntimeParser.ParseResult)
    ensures Output(t, a, RuntimeParser.ToDict(p))["runtime_end"] == VDate(p.endDate)
    ensures Output(t, a, RuntimeParser.ToDict(p))["runtime_start"] == if p.startDate.None? then VNone else VDate(p.startDate.value)
  {
    var rt := RuntimeParser.ToDict(p);
    assert Get(rt, "start_date") == rt["start_date"] && Get(rt, "end_date") == rt["end_date"];
  }

  /** The dictionary has exactly the nine keys, and its id is the stripped text of the id cell. */
  lemma OutputShape(t: Texts, a: Amounts, runtime: Dict)
    ensures CampaignData(Output(t, a, runtime))
    ensures Output(t, a, runtime)["id"] == VStr(t.id)
  {
  }

  /** What the required-field check and the conversions do to a row's cells. */
  lemma CheckedRowShape(raw: Dict, today: ValidDate)
    ensures CheckedRow(raw, today) != Ok(None)
    ensures Missing(raw) != [] ==> CheckedRow(raw, today) == Err(ValueError(MissingMessage(Missing(raw))))
    ensures Missing(raw) == [] && CheckedRow(raw, today).Err? ==> CheckedRow(raw, today).error.PPV?
    ensures CheckedRow(raw, today).Ok? ==> CheckedRow(raw, today).value.Some? && CampaignData(CheckedRow(raw, today).value.value)
  {
    NoneMissingIffComplete(raw);
    if Complete(raw) {
      ConversionErrorsPassThrough(raw, today);
      if ConvertAmounts(raw).Ok? && RuntimeParser.Parse(VStr(RuntimeText(raw)), today).Ok? {
        ConvertedOk(raw, today);
        OutputShape(TextsOf(raw), ConvertAmounts(raw).value, RuntimeParser.ToDict(RuntimeParser.Parse(VStr(RuntimeText(raw)), today).value));
      }
    }
  }

  /**
   * A row is skipped exactly when it is blank; a row missing a required field
   * fails with the list of missing fields; any other failure is the
   * converter's or the parser's own error, without the "Data conversion
   * failed" prefix.
   */
  lemma RowShape(row: Row, headers: Headers, today: ValidDate)
    ensures RowOutcome(row, headers, today) == Ok(None) <==> BlankRow(row)
    ensures !BlankRow(row) && Missing(RawData(row, headers)) != [] ==>
              RowOutcome(row, headers, today) == Err(ValueError(MissingMessage(Missing(RawData(row, headers)))))
    ensures !BlankRow(row) && Missing(RawData(row, headers)) == [] && RowOutcome(row, headers, today).Err? ==>
              RowOutcome(row, headers, today).error.PPV?
    ensures RowOutcome(row, headers, today).Ok? && RowOutcome(row, headers, today).value.Some? ==>
              CampaignData(RowOutcome(row, headers, today).value.value)
  {
    CheckedRowShape(RawData(row, headers), today);
  }

  /**
   * A complete row whose amounts convert and whose runtime parses becomes a
   * campaign built from the trimmed texts, the amounts and the parsed dates.
   */
  lemma CompleteRowYields(row: Row, headers: Headers, today: ValidDate)
    requires !BlankRow(row) && Complete(RawData(row, headers))
    requires ConvertAmounts(RawData(row, headers)).Ok?
    requires RuntimeParser.Parse(VStr(RuntimeText(RawData(row, headers))), today).Ok?
    ensures RowOutcome(row, headers, today) ==
            Ok(Some(Output(TextsOf(RawData(row, headers)), ConvertAmounts(RawData(row, headers)).value,
                           RuntimeParser.ToDict(RuntimeParser.Parse(VStr(RuntimeText(RawData(row, headers))), today).value))))
  {
    var raw := RawData(row, headers);
    NoneMissingIffComplete(raw);
    ConversionErrorsPassThrough(raw, today);
    ConvertedOk(raw, today);
  }

  /** As written, no row ever yields a campaign: a complete row whose amounts convert fails on the missing attribute. */
  lemma RowAsWrittenNeverYields(row: Row, headers: Headers)
    ensures RowOutcomeAsWritten(row, headers).Ok? <==> BlankRow(row)
    ensures RowOutcomeAsWritten(row, headers).Ok? ==> RowOutcomeAsWritten(row, headers).value.None?
    ensures !BlankRow(row) && Complete(RawData(row, headers)) && ConvertAmounts(RawData(row, headers)).Ok? ==>
              RowOutcomeAsWritten(row, headers) == Err(NoAttribute("RuntimeParser", "parse_runtime"))
  {
    var raw := RawData(row, headers);
    NoneMissingIffComplete(raw);
    if !BlankRow(row) && Complete(raw) {
      ConversionErrorsPassThrough(raw, Date(1, 1, 1));
    }
  }

  /** The message of the characterization test's row without a name. */
  lemma MissingNameMessage()
    ensures MissingMessage(["name"]) == "Missing required fields: ['name']"
  {
    var v := StrList(["name"]);
    assert v.items == [VStr("name")];
    assert '\'' !in "name";
    assert ReprStr("name") == "'" + "name" + "'" == "'name'";
    assert ReprOf(VStr("name")) == Some("'name'");
    assert v.items[1..] == [];
    assert ReprItems(v, v.items[1..]) == Some([]);
    assert ["'name'"] + [] == ["'name'"];
    assert ReprItems(v, v.items) == Some(["'name'"]);
  }

  // ---------------------------------------------------------------------
  // The row loop of `process_xlsx_file`

  /** One entry of `errors`: the sheet row number, `str(e)`, and the first non-empty cells. */
  datatype RowError = RowError(row: nat, error: string, data: seq<string>)

  /** The `campaigns` and `errors` lists the row loop builds. */
  datatype Processing = Processing(campaigns: seq<Dict>, errors: seq<RowError>)

  /** `[str(cell) for cell in row if cell is not None]` */
  function PresentTexts(row: Row): (r: seq<string>)
    ensures |r| <= |row|
  {
    if row == [] then []
    else (if row[0].VNone? then [] else [FormatText(row[0])]) + PresentTexts(row[1..])
  }

  /** The `data` of an error record: at most the first five non-`None` cells, in order. */
  function ContextOf(row: Row): (r: seq<string>)
    ensures |r| <= 5 && |r| <= |PresentTexts(row)| && r == PresentTexts(row)[..|r|]
    ensures |PresentTexts(row)| <= 5 ==> r == PresentTexts(row)
  {
    var t := PresentTexts(row);
    if |t| <= 5 then t else t[..5]
  }

  /** A row without `None` cells keeps all its texts; an all-`None` row keeps none. */
  lemma {:induction false} PresentTextsOf(row: Row)
    ensures (forall i :: 0 <= i < |row| ==> !row[i].VNone?) ==>
              |PresentTexts(row)| == |row| && forall i :: 0 <= i < |row| ==> PresentTexts(row)[i] == FormatText(row[i])
    ensures (forall i :: 0 <= i < |row| ==> row[i].VNone?) ==> PresentTexts(row) == []
    decreases |row|
  {
    if row != [] {
      PresentTextsOf(row[1..]);
      assert forall i :: 1 <= i < |row| ==> row[1..][i - 1] == row[i];
    }
  }

  /** The lists after the data rows `rows`, with `step` processing each row; the first data row is sheet row 2. */
  function SheetWith(rows: seq<Row>, step: Row -> Result<Option<Dict>, PyError>): (p: Processing)
    ensures |p.campaigns| + |p.errors| <= |rows|
    ensures forall k :: 0 <= k < |p.errors| ==> 2 <= p.errors[k].row <= |rows| + 1 && |p.errors[k].data| <= 5
    ensures forall j, k :: 0 <= j < k < |p.errors| ==> p.errors[j].row < p.errors[k].row
    decreases |rows|
  {
    if rows == [] then Processing([], [])
    else
      var i := |rows| - 1;
      var p := SheetWith(rows[..i], step);
      match step(rows[i])
      case Ok(None) => p
      case Ok(Some(d)) => if d == map[] then p else Processing(p.campaigns + [d], p.errors)
      case Err(e) => Processing(p.campaigns, p.errors + [RowError(i + 2, Message(e), ContextOf(rows[i]))])
  }

  /** `_process_row` with the runtime call corrected, as a step of the row loop. */
  function RowStep(headers: Headers, today: ValidDate): Row -> Result<Option<Dict>, PyError> {
    row => RowOutcome(row, headers, today)
  }

  /** `_process_row` as written, as a step of the row loop. */
  function AsWrittenStep(headers: Headers): Row -> Result<Option<Dict>, PyError> {
    row => RowOutcomeAsWritten(row, headers)
  }

  /** The number of rows with some truthy cell. */
  function NonBlankCount(rows: seq<Row>): (n: nat)
    ensures n <= |rows|
    decreases |rows|
  {
    if rows == [] then 0
    else NonBlankCount(rows[..|rows| - 1]) + (if BlankRow(rows[|rows| - 1]) then 0 else 1)
  }

  /** The row loop of `process_xlsx_file`: a failing row is recorded and the loop goes on. */
  method ProcessSheet(rows: seq<Row>, headers: Headers, today: ValidDate) returns (p: Processing, rowNumber: nat)
    ensures p == SheetWith(rows, RowStep(headers, today))
    ensures rowNumber == |rows| + 1
  {
    var campaigns: seq<Dict> := [];
    var errors: seq<RowError> := [];
    rowNumber := 1;
    while rowNumber - 1 < |rows|
      invariant 1 <= rowNumber <= |rows| + 1
      invariant Processing(campaigns, errors) == SheetWith(rows[..rowNumber - 1], RowStep(headers, today))
    {
      var row := rows[rowNumber - 1];
      assert rows[..rowNumber][..rowNumber - 1] == rows[..rowNumber - 1];
      rowNumber := rowNumber + 1;
      var r := ProcessRow(row, headers, today);
      match r {
        case Ok(None) =>
        case Ok(Some(d)) =>
          if d != map[] {
            campaigns := campaigns + [d];
          }
        case Err(e) =>
          errors := errors + [RowError(rowNumber, Message(e), ContextOf(row))];
      }
    }
    assert rows[..|rows|] == rows;
    p := Processing(campaigns, errors);
  }

  /** A step skips blank rows only, and what it yields is a campaign dictionary. */
  lemma RowStepShape(row: Row, headers: Headers, today: ValidDate)
    ensures RowStep(headers, today)(row) == Ok(None) <==> BlankRow(row)
    ensures RowStep(headers, today)(row).Ok? && RowStep(headers, today)(row).value.Some? ==>
              CampaignData(RowStep(headers, today)(row).value.value)
  {
    RowShape(row, headers, today);
  }

  /** Every non-blank row becomes either a campaign or an error; blank rows become neither. */
  lemma SheetPartition(rows: seq<Row>, headers: Headers, today: ValidDate)
    ensures var p := SheetWith(rows, RowStep(headers, today));
            |p.campaigns| + |p.errors| == NonBlankCount(rows) &&
            forall k :: 0 <= k < |p.campaigns| ==> CampaignData(p.campaigns[k])
  {
    var step := RowStep(headers, today);
    forall row ensures (step(row) == Ok(None) <==> BlankRow(row)) &&
                       (step(row).Ok? && step(row).value.Some? ==> CampaignData(step(row).value.value)) {
      RowStepShape(row, headers, today);
    }
    PartitionWith(rows, step);
  }

  /** The partition for any step that skips exactly the blank rows and yields only campaign dictionaries. */
  lemma {:induction false} PartitionWith(rows: seq<Row>, step: Row -> Result<Option<Dict>, PyError>)
    requires forall row :: step(row) == Ok(None) <==> BlankRow(row)
    requires forall row :: step(row).Ok? && step(row).value.Some? ==> CampaignData(step(row).value.value)
    ensures var p := SheetWith(rows, step);
            |p.campaigns| + |p.errors| == NonBlankCount(rows) &&
            forall k :: 0 <= k < |p.campaigns| ==> CampaignData(p.campaigns[k])
    decreases |rows|
  {
    if rows != [] {
      var i := |rows| - 1;
      PartitionWith(rows[..i], step);
      var r := step(rows[i]);
      if r.Ok? && r.value.Some? {
        assert "id" in r.value.value;
      }
    }
  }

  /** Every campaign the row loop yields can be handed to `Campaign(**campaign_data)`. */
  lemma SheetConstructible(rows: seq<Row>, headers: Headers, today: ValidDate)
    ensures var p := SheetWith(rows, RowStep(headers, today));
            forall k :: 0 <= k < |p.campaigns| ==> Constructible(p.campaigns[k])
  {
    var p := SheetWith(rows, RowStep(headers, today));
    SheetPartition(rows, headers, today);
    forall k | 0 <= k < |p.campaigns| ensures Constructible(p.campaigns[k]) {
      CampaignDataConstructible(p.campaigns[k]);
    }
  }

  /** As written, the row loop yields no campaign and records an error for every non-blank row. */
  lemma {:induction false} AsWrittenSheetFails(rows: seq<Row>, headers: Headers)
    ensures var p := SheetWith(rows, AsWrittenStep(headers));
            p.campaigns == [] && |p.errors| == NonBlankCount(rows)
    decreases |rows|
  {
    if rows != [] {
      var i := |rows| - 1;
      AsWrittenSheetFails(rows[..i], headers);
      RowAsWrittenNeverYields(rows[i], headers);
    }
  }

  /** The `summary` of `process_xlsx_file`. */
  datatype Summary = Summary(totalRows: nat, successfulCampaigns: nat, failedCampaigns: nat, successRate: real)

  function SummaryOf(totalRows: nat, p: Processing): Summary {
    Summary(totalRows, |p.campaigns|, |p.errors|,
            if totalRows > 0 then (|p.campaigns| as real / totalRows as real) * 100.0 else 0.0)
  }

  /** A share of a positive whole, as a percentage, lies between 0 and 100 and is 100 only for the whole. */
  lemma PercentOf(part: nat, whole: nat)
    requires part <= whole && whole > 0
    ensures 0.0 <= (part as real / whole as real) * 100.0 <= 100.0
    ensures (part as real / whole as real) * 100.0 == 100.0 <==> part == whole
  {
    var q := part as real / whole as real;
    assert q * whole as real == part as real;
    assert q <= 1.0 by {
      if q > 1.0 {
        assert q * whole as real > 1.0 * whole as real;
      }
    }
  }

  /** `total_rows` counts every data row, blank ones included; successes and failures never exceed it. */
  lemma SummaryBounds(rows: seq<Row>, headers: Headers, today: ValidDate)
    ensures var s := SummaryOf(|rows|, SheetWith(rows, RowStep(headers, today)));
            s.totalRows == |rows| &&
            s.successfulCampaigns + s.failedCampaigns <= s.totalRows &&
            0.0 <= s.successRate <= 100.0 &&
            (s.successRate == 100.0 <==> |rows| > 0 && s.successfulCampaigns == |rows|)
  {
    var p := SheetWith(rows, RowStep(headers, today));
    if |rows| > 0 {
      PercentOf(|p.campaigns|, |rows|);
    }
  }

  /** An `HTTPException`: the status code, the detail and the `X-Processing-Errors` header when there is one. */
  datatype HttpError = HttpError(status: nat, detail: string, processingErrors: Option<nat>)

  /** The uploaded file, once `openpyxl` has read it: the first row and the data rows of the active sheet. */
  datatype Workbook = Workbook(header: Row, rows: seq<Row>) | Unreadable(reason: string)

  /** `XLSXProcessor.process_xlsx_file(file_content)`: a file that cannot be loaded becomes a 400. */
  method ProcessXlsxFile(book: Workbook, today: ValidDate) returns (r: Result<(Processing, Summary), HttpError>)
    ensures book.Unreadable? ==> r == Err(HttpError(400, "XLSX file processing failed: " + book.reason, None))
    ensures book.Workbook? ==> r.Ok? && r.value.0 == SheetWith(book.rows, RowStep(HeadersOf(book.header), today)) &&
                               r.value.1 == SummaryOf(|book.rows|, r.value.0)
  {
    if book.Unreadable? {
      return Err(HttpError(400, "XLSX file processing failed: " + book.reason, None));
    }
    var headers := ExtractHeaders(book.header);
    var p, rowNumber := ProcessSheet(book.rows, headers, today);
    var summary := Summary(rowNumber - 1, |p.campaigns|, |p.errors|,
                           if rowNumber > 1 then (|p.campaigns| as real / (rowNumber - 1) as real) * 100.0 else 0.0);
    r := Ok((p, summary));
  }

  // ---------------------------------------------------------------------
  // Persistence in `upload_campaigns`

  /** What the database does with one insert beyond the primary key on `id`, which the model checks itself. */
  datatype DbOutcome = Commits | Violates | Breaks(message: string)

  /** One entry of `persistence_errors`: the campaign's id and the error text. */
  datatype SaveError = SaveError(campaignId: string, error: string)

  const DuplicateMessage: string := "Duplicate campaign ID or constraint violation"

  /** A dictionary `Campaign(**campaign_data)` accepts as keywords, with a string id. */
  predicate Constructible(c: Dict) {
    "id" in c && c["id"].VStr? && c.Keys <= CampaignModel.Columns
  }

  /** Every dictionary the row loop yields can be handed to `Campaign`. */
  lemma CampaignDataConstructible(d: Dict)
    requires CampaignData(d)
    ensures Constructible(d)
  {
  }

  /** The database's behaviour on the `i`-th insert; inserts past the end of `db` commit. */
  function DbAt(db: seq<DbOutcome>, i: nat): DbOutcome {
    if i < |db| then db[i] else Commits
  }

  /**
   * One pass of the persistence loop: `Campaign(**campaign_data)`, then
   * `db.add`/`db.commit`. A constructor error is caught by `except Exception`;
   * an id already stored is an `IntegrityError`.
   */
  function SaveOne(c: Dict, stored: set<string>, db: DbOutcome, today: ValidDate): (r: Result<string, SaveError>)
    requires Constructible(c)
    ensures r.Ok? <==> CampaignModel.Accepted(c) && db.Commits? && TextOf(CampaignModel.Fields(c, today)["id"]) !in stored
    ensures r.Ok? ==> r.value !in stored && IsCanonical(r.value) && ParseUuid(c["id"].s) == Some(r.value)
    ensures r.Err? ==> r.error.campaignId == c["id"].s
    ensures !CampaignModel.Accepted(c) ==> r.Err? && StartsWith(r.error.error, "Database error: ")
  {
    match CampaignModel.Init(c, today)
    case Err(e) => Err(SaveError(c["id"].s, "Database error: " + Message(e)))
    case Ok(f) =>
      CampaignModel.InitPrintsId(c, today);
      var id := TextOf(f["id"]);
      if id in stored || db.Violates? then Err(SaveError(c["id"].s, DuplicateMessage))
      else if db.Breaks? then Err(SaveError(c["id"].s, "Database error: " + db.message))
      else Ok(id)
  }

  /** `campaign_ids`, `persistence_errors`, and the ids in the table afterwards. */
  datatype Persisted = Persisted(ids: seq<string>, errors: seq<SaveError>, store: set<string>)

  /** The persistence loop over `cs`, starting from a table holding `stored`. */
  function PersistOf(cs: seq<Dict>, db: seq<DbOutcome>, stored: set<string>, today: ValidDate): (p: Persisted)
    requires forall k :: 0 <= k < |cs| ==> Constructible(cs[k])
    ensures |p.ids| + |p.errors| == |cs|
    ensures forall x :: x in p.store <==> x in stored || x in p.ids
    ensures forall k :: 0 <= k < |p.ids| ==> p.ids[k] !in stored && IsCanonical(p.ids[k])
    ensures forall j, k :: 0 <= j < k < |p.ids| ==> p.ids[j] != p.ids[k]
    decreases |cs|
  {
    if cs == [] then Persisted([], [], stored)
    else
      var i := |cs| - 1;
      var p := PersistOf(cs[..i], db, stored, today);
      var r := SaveOne(cs[i], p.store, DbAt(db, i), today);
      RecordedKeeps(p, r, stored);
      Recorded(p, r)
  }

  /** Recording an id that is new to the table and canonical keeps the lists and the table consistent. */
  lemma RecordedKeeps(p: Persisted, r: Result<string, SaveError>, stored: set<string>)
    requires forall x :: x in p.store <==> x in stored || x in p.ids
    requires forall k :: 0 <= k < |p.ids| ==> p.ids[k] !in stored && IsCanonical(p.ids[k])
    requires forall j, k :: 0 <= j < k < |p.ids| ==> p.ids[j] != p.ids[k]
    requires r.Ok? ==> r.value !in p.store && IsCanonical(r.value)
    ensures var q := Recorded(p, r);
      |q.ids| + |q.errors| == |p.ids| + |p.errors| + 1 &&
      (forall x :: x in q.store <==> x in stored || x in q.ids) &&
      (forall k :: 0 <= k < |q.ids| ==> q.ids[k] !in stored && IsCanonical(q.ids[k])) &&
      (forall j, k :: 0 <= j < k < |q.ids| ==> q.ids[j] != q.ids[k])
  {
  }

  /** The lists and the table after one more campaign: its id stored and listed, or its error listed. */
  function Recorded(p: Persisted, r: Result<string, SaveError>): Persisted {
    match r
    case Ok(id) => Persisted(p.ids + [id], p.errors, p.store + {id})
    case Err(e) => Persisted(p.ids, p.errors + [e], p.store)
  }

  /** The loop over one more campaign records that campaign's outcome. */
  lemma PersistNext(cs: seq<Dict>, i: nat, db: seq<DbOutcome>, stored: set<string>, today: ValidDate)
    requires i < |cs| && forall k :: 0 <= k < |cs| ==> Constructible(cs[k])
    ensures PersistOf(cs[..i + 1], db, stored, today) ==
            Recorded(PersistOf(cs[..i], db, stored, today), SaveOne(cs[i], PersistOf(cs[..i], db, stored, today).store, DbAt(db, i), today))
  {
    assert cs[..i + 1][..i] == cs[..i];
  }

  /** A second campaign with the same id as a stored one is reported as a duplicate, and the table keeps one copy. */
  lemma SecondCopyIsDuplicate(c: Dict, db: seq<DbOutcome>, stored: set<string>, today: ValidDate)
    requires Constructible(c)
    requires PersistOf([c], db, stored, today).ids != []
    ensures PersistOf([c, c], db, stored, today) ==
            Persisted(PersistOf([c], db, stored, today).ids, [SaveError(c["id"].s, DuplicateMessage)], PersistOf([c], db, stored, today).store)
  {
    assert [c, c][..1] == [c];
    assert [c][..0] == [];
    var first := PersistOf([c], db, stored, today);
    assert first.ids[0] in first.store;
  }

  /** The `campaign` table, as the set of ids it holds. */
  class CampaignStore {
    var ids: set<string>

    constructor (ids: set<string>)
      ensures this.ids == ids
    {
      this.ids := ids;
    }
  }

  /** The persistence loop of `upload_campaigns`; each committed campaign is added to `store`. */
  method PersistAll(store: CampaignStore, cs: seq<Dict>, db: seq<DbOutcome>, today: ValidDate)
    returns (ids: seq<string>, errors: seq<SaveError>)
    requires forall k :: 0 <= k < |cs| ==> Constructible(cs[k])
    modifies store
    ensures Persisted(ids, errors, store.ids) == PersistOf(cs, db, old(store.ids), today)
  {
    ids := [];
    errors := [];
    var i := 0;
    while i < |cs|
      invariant 0 <= i <= |cs|
      invariant Persisted(ids, errors, store.ids) == PersistOf(cs[..i], db, old(store.ids), today)
    {
      PersistNext(cs, i, db, old(store.ids), today);
      var r := SaveOne(cs[i], store.ids, DbAt(db, i), today);
      match r {
        case Ok(id) =>
          ids := ids + [id];
          store.ids := store.ids + {id};
        case Err(e) =>
          errors := errors + [e];
      }
      i := i + 1;
    }
    assert cs[..|cs|] == cs;
  }

  // ---------------------------------------------------------------------
  // `upload_campaigns`

  const MaxFileSize: nat := 50 * 1024 * 1024

  /** Lines 265-274: the file name must end in `.xlsx` or `.XLSX`, and a known size may not exceed 50 MB. */
  function ValidateFile(filename: string, size: Option<nat>): (r: Result<(), HttpError>)
    ensures r.Ok? <==> (EndsWith(filename, ".xlsx") || EndsWith(filename, ".XLSX")) && (size.None? || size.value <= MaxFileSize)
    ensures !(EndsWith(filename, ".xlsx") || EndsWith(filename, ".XLSX")) ==> r.Err? && r.error.status == 400
    ensures r.Err? ==> r.error.processingErrors.None? && (r.error.status == 400 || r.error.status == 413)
  {
    if !(EndsWith(filename, ".xlsx") || EndsWith(filename, ".XLSX")) then
      Err(HttpError(400, "Only XLSX files are supported. Please upload a valid Excel file.", None))
    else if size.Some? && size.value > MaxFileSize then
      Err(HttpError(413, "File size exceeds 50MB limit. Please upload a smaller file.", None))
    else Ok(())
  }

  /** An entry of `all_errors`: a row error or a persistence error. */
  datatype UploadError = RowFailure(rowError: RowError) | SaveFailure(saveError: SaveError)

  /** `processing_result["errors"] + persistence_errors` */
  function AllErrors(rowErrors: seq<RowError>, saveErrors: seq<SaveError>): (all: seq<UploadError>)
    ensures |all| == |rowErrors| + |saveErrors|
    ensures forall k :: 0 <= k < |rowErrors| ==> all[k] == RowFailure(rowErrors[k])
    ensures forall k :: 0 <= k < |saveErrors| ==> all[|rowErrors| + k] == SaveFailure(saveErrors[k])
  {
    seq(|rowErrors|, k requires 0 <= k < |rowErrors| => RowFailure(rowErrors[k])) +
    seq(|saveErrors|, k requires 0 <= k < |saveErrors| => SaveFailure(saveErrors[k]))
  }

  /** `all_errors[:10]` and `len(all_errors)`, present only when there are errors. */
  datatype ErrorReport = ErrorReport(first: seq<UploadError>, total: nat)

  /** The JSON body of a successful or partially successful upload. */
  datatype Body = Body(processedCount: nat, failedCount: nat, campaignIds: seq<string>, summary: Summary,
                       persistenceErrors: nat, errors: Option<ErrorReport>)

  /** 201 with the body, 207 with the body, or an `HTTPException`. */
  datatype Reply = Created(body: Body) | MultiStatus(body: Body) | Refused(error: HttpError)

  /** Everything the pipeline computed for a readable workbook. */
  datatype Run = Run(p: Processing, summary: Summary, saved: Persisted)

  const NoCampaignsMessage: string := "No campaigns could be processed successfully"

  /** At most the first ten errors. */
  function Capped(all: seq<UploadError>): (r: seq<UploadError>)
    ensures |r| <= 10 && |r| <= |all| && r == all[..|r|]
    ensures |all| <= 10 ==> r == all
  {
    if |all| <= 10 then all else all[..10]
  }

  /** `successful_campaigns` */
  function Successful(run: Run): nat {
    |run.saved.ids|
  }

  /** `failed_campaigns`: row errors plus persistence errors. */
  function Failed(run: Run): nat {
    |run.p.errors| + |run.saved.errors|
  }

  /** `total_campaigns + failed_campaigns`, the `total` recorded on the session. */
  function Total(run: Run): nat {
    |run.p.campaigns| + Failed(run)
  }

  /** The reply lines 351-384 build from the counts. */
  function ReplyOf(run: Run): Reply {
    var all := AllErrors(run.p.errors, run.saved.errors);
    var body := Body(Successful(run), Failed(run), run.saved.ids, run.summary, |run.saved.errors|,
                     if all == [] then None else Some(ErrorReport(Capped(all), |all|)));
    if Failed(run) > 0 && Successful(run) > 0 then MultiStatus(body)
    else if Successful(run) == 0 then Refused(HttpError(400, NoCampaignsMessage, Some(|all|)))
    else Created(body)
  }

  /** The run for a readable workbook whose table held `stored`. */
  function RunOf(header: Row, rows: seq<Row>, stored: set<string>, db: seq<DbOutcome>, today: ValidDate): Run {
    var p := SheetWith(rows, RowStep(HeadersOf(header), today));
    SheetPartition(rows, HeadersOf(header), today);
    Run(p, SummaryOf(|rows|, p), PersistOf(p.campaigns, db, stored, today))
  }

  /** `mark_failed` text of the `except HTTPException` handler. */
  const HttpValidationError: string := "HTTP validation error"

  /** Lines 333-384 once the campaigns are persisted: the session's counts and error log, and the reply. */
  method Conclude(s: CampaignModel.UploadSession, run: Run, dumps: seq<UploadError> -> string,
                  completedAt: nat, failedAt: nat) returns (reply: Reply)
    modifies s
    ensures reply == ReplyOf(run)
    ensures s.filename == old(s.filename) && s.fileSize == old(s.fileSize) && s.processingStartedAt == old(s.processingStartedAt)
    ensures s.Consistent()
    ensures s.successfulCampaigns == Some(Successful(run)) && s.failedCampaigns == Some(Failed(run)) &&
            s.totalRowsProcessed == Some(Total(run))
    ensures reply.Refused? ==>
              s.status == Some("failed") && s.validationErrors == Some(HttpValidationError) && s.processingCompletedAt == Some(failedAt)
    ensures !reply.Refused? ==>
              s.status == Some("completed") && s.processingCompletedAt == Some(completedAt) &&
              var all := AllErrors(run.p.errors, run.saved.errors);
              s.validationErrors == if all == [] then old(s.validationErrors) else Some(dumps(all))
  {
    var successful := |run.saved.ids|;
    var failed := |run.p.errors| + |run.saved.errors|;
    s.MarkCompleted(completedAt, successful, failed, Total(run));
    var all := AllErrors(run.p.errors, run.saved.errors);
    if all != [] {
      s.validationErrors := Some(dumps(all));
    }
    var body := Body(successful, failed, run.saved.ids, run.summary, |run.saved.errors|,
                     if all == [] then None else Some(ErrorReport(Capped(all), |all|)));
    if failed > 0 && successful > 0 {
      reply := MultiStatus(body);
    } else if successful == 0 {
      s.MarkFailed(failedAt, HttpValidationError);
      reply := Refused(HttpError(400, NoCampaignsMessage, Some(|all|)));
    } else {
      reply := Created(body);
    }
  }

  /** Lines 296-384: the persistence loop, then the session update and the reply. */
  method SaveAndConclude(s: CampaignModel.UploadSession, p: Processing, summary: Summary, store: CampaignStore,
                         db: seq<DbOutcome>, dumps: seq<UploadError> -> string, today: ValidDate,
                         completedAt: nat, failedAt: nat) returns (reply: Reply)
    requires forall k :: 0 <= k < |p.campaigns| ==> Constructible(p.campaigns[k])
    modifies s, store
    ensures var run := Run(p, summary, PersistOf(p.campaigns, db, old(store.ids), today));
            store.ids == run.saved.store && reply == ReplyOf(run) &&
            s.filename == old(s.filename) && s.fileSize == old(s.fileSize) && s.processingStartedAt == old(s.processingStartedAt) &&
            s.Consistent() &&
            s.successfulCampaigns == Some(Successful(run)) && s.failedCampaigns == Some(Failed(run)) &&
            s.totalRowsProcessed == Some(Total(run)) &&
            (reply.Refused? ==>
               s.status == Some("failed") && s.validationErrors == Some(HttpValidationError) && s.processingCompletedAt == Some(failedAt)) &&
            (!reply.Refused? ==>
               s.status == Some("completed") && s.processingCompletedAt == Some(completedAt) &&
               var all := AllErrors(run.p.errors, run.saved.errors);
               s.validationErrors == if all == [] then old(s.validationErrors) else Some(dumps(all)))
  {
    var ids, saveErrors := PersistAll(store, p.campaigns, db, today);
    var run := Run(p, summary, Persisted(ids, saveErrors, store.ids));
    assert run == Run(p, summary, PersistOf(p.campaigns, db, old(store.ids), today));
    reply := Conclude(s, run, dumps, completedAt, failedAt);
  }

  /**
   * `upload_campaigns(file, db)`. `size` is `file.size`, `store` the campaign
   * table, `db` what each campaign insert does, `dumps` stands for
   * `json.dumps`, and the three times are the `utcnow()` readings of the
   * session's status changes.
   */
  method UploadCampaigns(filename: string, size: Option<nat>, book: Workbook, store: CampaignStore,
                         db: seq<DbOutcome>, dumps: seq<UploadError> -> string, today: ValidDate,
                         startedAt: nat, completedAt: nat, failedAt: nat)
    returns (session: CampaignModel.UploadSession?, reply: Reply)
    modifies store
    ensures ValidateFile(filename, size).Err? ==>
              session == null && reply == Refused(ValidateFile(filename, size).error) && store.ids == old(store.ids)
    ensures ValidateFile(filename, size).Ok? ==>
              session != null && fresh(session) && session.Consistent() &&
              session.filename == filename && session.fileSize == size.GetOr(0) &&
              session.processingStartedAt == Some(startedAt)
    ensures ValidateFile(filename, size).Ok? && book.Unreadable? ==>
              session != null && store.ids == old(store.ids) &&
              reply == Refused(HttpError(400, "XLSX file processing failed: " + book.reason, None)) &&
              session.status == Some("failed") && session.validationErrors == Some(HttpValidationError) &&
              session.processingCompletedAt == Some(failedAt) &&
              session.totalRowsProcessed.None? && session.successfulCampaigns.None? && session.failedCampaigns.None?
    ensures ValidateFile(filename, size).Ok? && book.Workbook? ==>
              var run := RunOf(book.header, book.rows, old(store.ids), db, today);
              session != null && store.ids == run.saved.store && reply == ReplyOf(run) &&
              session.successfulCampaigns == Some(Successful(run)) && session.failedCampaigns == Some(Failed(run)) &&
              session.totalRowsProcessed == Some(Total(run)) &&
              (reply.Refused? ==> session.status == Some("failed") && session.validationErrors == Some(HttpValidationError) &&
                                  session.processingCompletedAt == Some(failedAt)) &&
              (!reply.Refused? ==> session.status == Some("completed") && session.processingCompletedAt == Some(completedAt) &&
                                   var all := AllErrors(run.p.errors, run.saved.errors);
                                   session.validationErrors == if all == [] then None else Some(dumps(all)))
  {
    var valid := ValidateFile(filename, size);
    if valid.Err? {
      return null, Refused(valid.error);
    }
    var s := new CampaignModel.UploadSession(filename, size.GetOr(0));
    session := s;
    s.MarkProcessingStarted(startedAt);
    var processed := ProcessXlsxFile(book, today);
    if processed.Err? {
      s.MarkFailed(failedAt, HttpValidationError);
      return s, Refused(processed.error);
    }
    SheetConstructible(book.rows, HeadersOf(book.header), today);
    ghost var run := RunOf(book.header, book.rows, store.ids, db, today);
    assert run == Run(processed.value.0, processed.value.1, PersistOf(processed.value.0.campaigns, db, store.ids, today));
    reply := SaveAndConclude(s, processed.value.0, processed.value.1, store, db, dumps, today, completedAt, failedAt);
  }

  /** The reply's status follows the two counts; a failing upload reports how many errors there were. */
  lemma ReplyFollowsCounts(run: Run)
    ensures ReplyOf(run).Created? <==> Successful(run) > 0 && Failed(run) == 0
    ensures ReplyOf(run).MultiStatus? <==> Successful(run) > 0 && Failed(run) > 0
    ensures ReplyOf(run).Refused? <==> Successful(run) == 0
    ensures ReplyOf(run).Refused? ==> ReplyOf(run).error == HttpError(400, NoCampaignsMessage, Some(Failed(run)))
    ensures !ReplyOf(run).Refused? ==>
              var b := ReplyOf(run).body;
              b.processedCount == Successful(run) && b.failedCount == Failed(run) && b.campaignIds == run.saved.ids &&
              (b.errors.None? <==> Failed(run) == 0) &&
              (b.errors.Some? ==> b.errors.value.total == Failed(run) &&
                                  |b.errors.value.first| == if Failed(run) <= 10 then Failed(run) else 10)
  {
  }

  /**
   * Every non-blank row ends up counted once as a success or a failure, but
   * the recorded total adds each campaign that failed to save a second time.
   */
  lemma TotalDoubleCounts(header: Row, rows: seq<Row>, stored: set<string>, db: seq<DbOutcome>, today: ValidDate)
    ensures var run := RunOf(header, rows, stored, db, today);
            Successful(run) + Failed(run) == NonBlankCount(rows) &&
            Total(run) == NonBlankCount(rows) + |run.saved.errors|
  {
    SheetPartition(rows, HeadersOf(header), today);
  }

  /** As written, every readable workbook is refused with one error per non-blank row. */
  lemma AsWrittenUploadRefused(header: Row, rows: seq<Row>, stored: set<string>, db: seq<DbOutcome>, today: ValidDate)
    ensures SheetWith(rows, AsWrittenStep(HeadersOf(header))).campaigns == []
    ensures var p := SheetWith(rows, AsWrittenStep(HeadersOf(header)));
            var run := Run(p, SummaryOf(|rows|, p), PersistOf(p.campaigns, db, stored, today));
            run.saved == Persisted([], [], stored) &&
            ReplyOf(run) == Refused(HttpError(400, NoCampaignsMessage, Some(NonBlankCount(rows))))
  {
    AsWrittenSheetFails(rows, HeadersOf(header));
  }

  /** Both spellings of the extension pass, and 50 MB itself is allowed. */
  lemma FileAccepted()
    ensures ValidateFile("campaigns.xlsx", None).Ok?
    ensures ValidateFile("CAMPAIGNS.XLSX", Some(MaxFileSize)).Ok?
  {
    assert "campaigns.xlsx"[9..] == ".xlsx";
    assert "CAMPAIGNS.XLSX"[9..] == ".XLSX";
  }

  /** One byte over 50 MB is a 413. */
  lemma FileTooLarge()
    ensures ValidateFile("campaigns.xlsx", Some(MaxFileSize + 1)) ==
            Err(HttpError(413, "File size exceeds 50MB limit. Please upload a smaller file.", None))
  {
    assert "campaigns.xlsx"[9..] == ".xlsx";
  }

  /** The extension check is case-sensitive: a mixed-case extension is a 400. */
  lemma MixedCaseRefused()
    ensures ValidateFile("campaigns.Xlsx", None) ==
            Err(HttpError(400, "Only XLSX files are supported. Please upload a valid Excel file.", None))
  {
    assert "campaigns.Xlsx"[9..][1] == 'X';
  }
}

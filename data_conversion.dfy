/**
 * `DataConverter`: European and US number strings to exact decimals, impression
 * goals to range-checked integers, and the range check used for budgets and CPM.
 */
module DataConversion {
  import opened Wrappers
  import opened PyText
  import opened PyValue
  import opened Exceptions

  const MinImpressionGoal: int := 1
  const MaxImpressionGoal: int := 2000000000

  /** An upper bound of `validate_numeric_range`: a float or `float('inf')`. */
  datatype Limit = Finite(bound: Dec) | Infinity

  predicate WithinMax(v: Dec, max: Limit) {
    max.Infinity? || LessEq(v, max.bound)
  }

  function LimitValue(max: Limit): Value {
    match max
    case Finite(d) => VFloat(d)
    case Infinity => VObject("float", Some("inf"), true)
  }

  /** The details every converter error carries. */
  function ConverterDetails(methodName: string, input: string, context: string): Details {
    map["service" := VStr("DataConverter"), "method" := VStr(methodName),
        "input_value" := VStr(input), "validation_context" := VStr(context)]
  }

  // ---------------------------------------------------------------------
  // convert_european_decimal

  /** The final `float(cleaned)` of `_convert_european_format`. */
  function EuropeanFloat(s: string, cleaned: string): (r: Result<Dec, PyError>)
    ensures r.Ok? <==> ParseFloat(cleaned).Some?
    ensures r.Ok? ==> r.value == ParseFloat(cleaned).value
    ensures r.Err? ==> IsDataError(r.error)
  {
    match ParseFloat(cleaned)
    case Some(d) => Ok(d)
    case None =>
      Err(PPV(DataValidation, "Cannot convert '" + s + "' to decimal",
              ConverterDetails("_convert_european_format", s, "European_format_conversion")["cleaned_value" := VStr(cleaned)]))
  }

  /**
   * `_convert_european_format`: one comma is the decimal point, dots before
   * it are thousands separators, the part after it must be digits.
   */
  function ConvertEuropeanFormat(s: string): (r: Result<Dec, PyError>)
    ensures r.Err? ==> IsDataError(r.error)
  {
    if ',' in s then
      var parts := Split(s, ',');
      if |parts| != 2 then
        Err(PPV(DataValidation, "Invalid European decimal format: '" + s + "' - multiple commas",
                ConverterDetails("_convert_european_format", s, "European_decimal_format")))
      else
        var integerPart := RemoveChar(parts[0], '.');
        var decimalPart := parts[1];
        if !IsDigitString(decimalPart) then
          Err(PPV(DataValidation, "Invalid decimal part: '" + decimalPart + "'",
                  ConverterDetails("_convert_european_format", s, "decimal_part_validation")["decimal_part" := VStr(decimalPart)]))
        else
          EuropeanFloat(s, integerPart + "." + decimalPart)
    else
      EuropeanFloat(s, RemoveChar(s, '.'))
  }

  /** The direct `float(cleaned)` branches of `convert_european_decimal`. */
  function DirectFloat(original: string, cleaned: string, context: string): (r: Result<Dec, PyError>)
    ensures r.Ok? <==> ParseFloat(cleaned).Some?
    ensures r.Ok? ==> r.value == ParseFloat(cleaned).value
    ensures r.Err? ==> IsDataError(r.error)
  {
    match ParseFloat(cleaned)
    case Some(d) => Ok(d)
    case None =>
      Err(PPV(DataValidation, "Cannot convert '" + original + "' to decimal",
              ConverterDetails("convert_european_decimal", original, context)))
  }

  /** `DataConverter.convert_european_decimal(value_string)` */
  function ConvertEuropeanDecimal(v: Value): (r: Result<Dec, PyError>)
    ensures r.Err? ==> r.error.TypeError? || IsDataError(r.error)
  {
    if !v.VStr? then Err(TypeError("Input must be a string"))
    else if Strip(v.s) == "" then
      Err(PPV(DataValidation, "Input cannot be empty string",
              ConverterDetails("convert_european_decimal", v.s, "empty_string_check")))
    else ConvertCleaned(v.s, Strip(v.s))
  }

  /** The format dispatch of `convert_european_decimal` on the trimmed text. */
  function ConvertCleaned(original: string, cleaned: string): (r: Result<Dec, PyError>)
    ensures r.Err? ==> IsDataError(r.error)
  {
    if ',' in cleaned && Count(cleaned, '.') > 1 then ConvertEuropeanFormat(cleaned)
    else if ',' in cleaned && '.' !in cleaned then ConvertEuropeanFormat(cleaned)
    else if ',' !in cleaned && '.' in cleaned then DirectFloat(original, cleaned, "US_format_conversion")
    else if ',' !in cleaned && '.' !in cleaned then DirectFloat(original, cleaned, "integer_format_conversion")
    else ConvertEuropeanFormat(cleaned)
  }

  /** A non-string raises `TypeError`; an empty or all-whitespace string raises `DataValidationError`. */
  lemma DecimalRejectsBadInput(v: Value)
    ensures !v.VStr? ==> ConvertEuropeanDecimal(v) == Err(TypeError("Input must be a string"))
    ensures v.VStr? && AllSpace(v.s) ==>
      ConvertEuropeanDecimal(v).Err? && IsDataError(ConvertEuropeanDecimal(v).error) &&
      ConvertEuropeanDecimal(v).error.msg == "Input cannot be empty string"
  {
    if v.VStr? {
      StripEmptyIff(v.s);
    }
  }

  /** Dispatch: whenever the trimmed text holds a comma, the European rules decide. */
  lemma CommaMeansEuropean(s: string)
    requires ',' in Strip(s)
    ensures ConvertEuropeanDecimal(VStr(s)) == ConvertEuropeanFormat(Strip(s))
  {
  }

  /** Dispatch: without a comma the trimmed text is read by `float()` directly, dot as decimal point. */
  lemma NoCommaMeansFloat(s: string)
    requires ',' !in Strip(s) && Strip(s) != ""
    ensures ConvertEuropeanDecimal(VStr(s)).Ok? <==> ParseFloat(Strip(s)).Some?
    ensures ConvertEuropeanDecimal(VStr(s)).Ok? ==> ConvertEuropeanDecimal(VStr(s)).value == ParseFloat(Strip(s)).value
  {
    var t := Strip(s);
    assert ConvertEuropeanDecimal(VStr(s)) == ConvertCleaned(s, t);
    if '.' in t {
      assert ConvertCleaned(s, t) == DirectFloat(s, t, "US_format_conversion");
    } else {
      assert ConvertCleaned(s, t) == DirectFloat(s, t, "integer_format_conversion");
    }
  }

  /** More than one comma is always rejected, with the "multiple commas" message. */
  lemma MultipleCommasRejected(s: string)
    requires Count(s, ',') >= 2
    ensures ConvertEuropeanFormat(s) ==
      Err(PPV(DataValidation, "Invalid European decimal format: '" + s + "' - multiple commas",
              ConverterDetails("_convert_european_format", s, "European_decimal_format")))
  {
  }

  /**
   * With exactly one comma, `a,b` succeeds exactly when `b` is a non-empty
   * digit string and `float()` accepts `a` without its dots, a point, and `b`.
   */
  lemma OneCommaShape(a: string, b: string)
    requires ',' !in a && ',' !in b
    ensures var r := ConvertEuropeanFormat(a + "," + b);
      (r.Ok? <==> IsDigitString(b) && ParseFloat(RemoveChar(a, '.') + "." + b).Some?) &&
      (r.Ok? ==> r.value == ParseFloat(RemoveChar(a, '.') + "." + b).value) &&
      (!IsDigitString(b) ==> r.Err? && r.error.msg == "Invalid decimal part: '" + b + "'")
  {
    var s := a + "," + b;
    assert s[|a|] == ',';
    SplitTwo(a, b, ',');
  }

  /**
   * The European rewrite: digits grouped by dots, a comma, and decimal digits
   * give the number whose digits are all of them, scaled by the decimal places.
   */
  lemma EuropeanValue(a: string, b: string)
    requires ',' !in a && IsDigitString(RemoveChar(a, '.')) && IsDigitString(b)
    ensures ConvertEuropeanFormat(a + "," + b) == Ok(Dec(DigitsValue(RemoveChar(a, '.') + b), |b|))
  {
    OneCommaShape(a, b);
    ParseFloatPoint(RemoveChar(a, '.'), b);
  }

  /** The same seen from `convert_european_decimal`, for text without surrounding whitespace. */
  lemma EuropeanDecimalValue(a: string, b: string)
    requires a != [] && !IsSpace(a[0])
    requires ',' !in a && IsDigitString(RemoveChar(a, '.')) && IsDigitString(b)
    ensures ConvertEuropeanDecimal(VStr(a + "," + b)) == Ok(Dec(DigitsValue(RemoveChar(a, '.') + b), |b|))
  {
    var s := a + "," + b;
    DigitNotSpace(b[|b| - 1]);
    assert s[|s| - 1] == b[|b| - 1];
    StripNoop(s);
    assert s[|a|] == ',';
    CommaMeansEuropean(s);
    EuropeanValue(a, b);
  }

  // ---------------------------------------------------------------------
  // convert_impression_goal

  /** `DataConverter.convert_impression_goal(value_string)` */
  function ConvertImpressionGoal(v: Value): (r: Result<int, PyError>)
    ensures r.Ok? <==>
      v.VStr? && IsDigitString(Strip(TextOf(v))) && MinImpressionGoal <= DigitsValue(Strip(TextOf(v))) <= MaxImpressionGoal
    ensures r.Ok? ==> r.value == DigitsValue(Strip(TextOf(v)))
    ensures r.Err? ==> r.error.TypeError? || IsDataError(r.error) || IsBusinessError(r.error)
    ensures r.Err? && IsBusinessError(r.error) ==> v.VStr? && IsDigitString(Strip(TextOf(v)))
  {
    if !v.VStr? then Err(TypeError("Input must be a string"))
    else if Strip(v.s) == "" then
      Err(PPV(DataValidation, "Impression goal cannot be empty",
              ConverterDetails("convert_impression_goal", v.s, "empty_impression_goal")))
    else
      GoalOfText(v.s)
  }

  /** `convert_impression_goal` past the emptiness check: the format, the parse, the range. */
  function GoalOfText(text: string): (r: Result<int, PyError>)
    requires Strip(text) != ""
    ensures r.Ok? <==> IsDigitString(Strip(text)) && MinImpressionGoal <= DigitsValue(Strip(text)) <= MaxImpressionGoal
    ensures r.Ok? ==> r.value == DigitsValue(Strip(text))
    ensures r.Err? ==> IsDataError(r.error) || IsBusinessError(r.error)
    ensures r.Err? && IsBusinessError(r.error) ==> IsDigitString(Strip(text))
  {
    var cleaned := Strip(text);
    if !IsDigitString(cleaned) then
      Err(PPV(DataValidation, "Impression goal must be integer value: '" + text + "'",
              ConverterDetails("convert_impression_goal", text, "integer_format_validation")))
    else
      ParseIntOfDigits(cleaned);
      match ParseInt(cleaned)
      case None =>
        Err(PPV(DataValidation, "Cannot convert '" + text + "' to integer",
                ConverterDetails("convert_impression_goal", text, "integer_conversion")))
      case Some(value) =>
        GoalInRange(value)
  }

  /** The two range checks of `convert_impression_goal`, on the parsed integer. */
  function GoalInRange(value: int): (r: Result<int, PyError>)
    ensures r.Ok? <==> MinImpressionGoal <= value <= MaxImpressionGoal
    ensures r.Ok? ==> r.value == value
    ensures r.Err? ==> IsBusinessError(r.error)
  {
    if value < MinImpressionGoal then
      Err(PPV(BusinessRule, "Impression goal must be at least " + IntText(MinImpressionGoal) + ": " + IntText(value),
              GoalRuleDetails("impression_goal_minimum", value, MinImpressionGoal)))
    else if value > MaxImpressionGoal then
      Err(PPV(BusinessRule, "Impression goal cannot exceed " + IntText(MaxImpressionGoal) + ": " + IntText(value),
              GoalRuleDetails("impression_goal_maximum", value, MaxImpressionGoal)))
    else Ok(value)
  }

  function GoalRuleDetails(rule: string, value: int, limit: int): Details {
    map["service" := VStr("DataConverter"), "method" := VStr("convert_impression_goal"),
        "business_rule" := VStr(rule), "provided_value" := VInt(value), "limit" := VInt(limit),
        "business_context" := VStr("system_performance_constraint")]
  }

  /** A goal that is not a plain digit string (a sign, thousands dots) is a format error, never a range error. */
  lemma GoalFormatError(s: string)
    requires Strip(s) != "" && !IsDigitString(Strip(s))
    ensures ConvertImpressionGoal(VStr(s)) ==
      Err(PPV(DataValidation, "Impression goal must be integer value: '" + s + "'",
              ConverterDetails("convert_impression_goal", s, "integer_format_validation")))
  {
  }

  /** A sign or a thousands dot in the trimmed goal is a format error, never a range error. */
  lemma GoalSignOrDotRejected(s: string, c: char)
    requires Strip(s) != "" && c in Strip(s) && (c == '-' || c == '+' || c == '.')
    ensures ConvertImpressionGoal(VStr(s)).Err? && IsDataError(ConvertImpressionGoal(VStr(s)).error)
  {
    var t := Strip(s);
    var i := IndexOf(t, c);
    assert !IsDigit(t[i]);
    GoalFormatError(s);
  }

  /** The decimal text of a number is accepted exactly when the number is in range. */
  lemma GoalOfNumber(n: nat)
    ensures ConvertImpressionGoal(VStr(NatText(n))).Ok? <==> MinImpressionGoal <= n <= MaxImpressionGoal
    ensures ConvertImpressionGoal(VStr(NatText(n))).Ok? ==> ConvertImpressionGoal(VStr(NatText(n))).value == n
    ensures !(MinImpressionGoal <= n <= MaxImpressionGoal) ==> IsBusinessError(ConvertImpressionGoal(VStr(NatText(n))).error)
  {
    var t := NatText(n);
    DigitNotSpace(t[0]);
    DigitNotSpace(t[|t| - 1]);
    StripNoop(t);
    NatTextValue(n);
  }

  // ---------------------------------------------------------------------
  // validate_numeric_range and the wrappers

  /** `DataConverter.validate_numeric_range(value, min_val, max_val)` */
  function ValidateNumericRange(value: Dec, minVal: Dec, maxVal: Limit): (r: Result<bool, PyError>)
    ensures r.Ok? <==> LessEq(minVal, value) && WithinMax(value, maxVal)
    ensures r.Ok? ==> r.value
    ensures r.Err? ==> IsBusinessError(r.error)
    ensures r.Err? && Less(value, minVal) ==> r.error.msg == "Value " + DecText(value) + " is below minimum " + DecText(minVal)
  {
    if Less(value, minVal) then
      Err(PPV(BusinessRule, "Value " + DecText(value) + " is below minimum " + DecText(minVal),
              RangeRuleDetails("numeric_range_minimum", value, VFloat(minVal))))
    else if maxVal.Finite? && Less(maxVal.bound, value) then
      Err(PPV(BusinessRule, "Value " + DecText(value) + " exceeds maximum " + DecText(maxVal.bound),
              RangeRuleDetails("numeric_range_maximum", value, LimitValue(maxVal))))
    else Ok(true)
  }

  function RangeRuleDetails(rule: string, value: Dec, limit: Value): Details {
    map["service" := VStr("DataConverter"), "method" := VStr("validate_numeric_range"),
        "business_rule" := VStr(rule), "provided_value" := VFloat(value), "limit" := limit,
        "business_context" := VStr("range_validation")]
  }

  /** `convert_budget_eur` and `convert_cpm_eur`: convert, then require a value of at least 0.0. */
  function ConvertNonNegative(v: Value): (r: Result<Dec, PyError>)
    ensures r.Ok? <==> ConvertEuropeanDecimal(v).Ok? && ConvertEuropeanDecimal(v).value.mant >= 0
    ensures r.Ok? ==> r.value == ConvertEuropeanDecimal(v).value
    ensures ConvertEuropeanDecimal(v).Err? ==> r == ConvertEuropeanDecimal(v)
    ensures ConvertEuropeanDecimal(v).Ok? && r.Err? ==> IsBusinessError(r.error)
  {
    var c := ConvertEuropeanDecimal(v);
    if c.Err? then c
    else
      LessZero(c.value);
      var check := ValidateNumericRange(c.value, Dec(0, 0), Infinity);
      if check.Err? then Err(check.error) else c
  }

  /** `convert_budget_eur(budget_string)` */
  function ConvertBudgetEur(v: Value): Result<Dec, PyError> {
    ConvertNonNegative(v)
  }

  /** `convert_cpm_eur(cpm_string)` */
  function ConvertCpmEur(v: Value): Result<Dec, PyError> {
    ConvertNonNegative(v)
  }

  /** European amounts written with digits, dots and a comma are accepted as budget and CPM. */
  lemma EuropeanAmountAccepted(a: string, b: string)
    requires a != [] && !IsSpace(a[0])
    requires ',' !in a && IsDigitString(RemoveChar(a, '.')) && IsDigitString(b)
    ensures ConvertBudgetEur(VStr(a + "," + b)) == Ok(Dec(DigitsValue(RemoveChar(a, '.') + b), |b|))
    ensures ConvertCpmEur(VStr(a + "," + b)) == Ok(Dec(DigitsValue(RemoveChar(a, '.') + b), |b|))
  {
    EuropeanDecimalValue(a, b);
  }

  /** Negative values never pass as a budget or CPM. */
  lemma NegativeRejected(v: Value)
    requires ConvertEuropeanDecimal(v).Ok? && ConvertEuropeanDecimal(v).value.mant < 0
    ensures ConvertBudgetEur(v).Err? && IsBusinessError(ConvertBudgetEur(v).error)
    ensures ConvertCpmEur(v).Err? && IsBusinessError(ConvertCpmEur(v).error)
  {
  }

  // ---------------------------------------------------------------------
  // convert_batch_european_decimal

  /**
   * What `convert_batch_european_decimal` returns for `values`: every value
   * converted by `convert` in order, or the error of the first one that fails.
   */
  function ConvertAll(values: seq<Value>, convert: Value -> Result<Dec, PyError>): Result<seq<Dec>, PyError> {
    if values == [] then Ok([])
    else
      match ConvertAll(values[..|values| - 1], convert)
      case Err(e) => Err(e)
      case Ok(ds) =>
        match convert(values[|values| - 1])
        case Err(e) => Err(e)
        case Ok(d) => Ok(ds + [d])
  }

  /** A failure in a prefix is the failure of the whole batch. */
  lemma {:induction false} ConvertAllErrSticky(xs: seq<Value>, ys: seq<Value>, convert: Value -> Result<Dec, PyError>)
    requires ConvertAll(xs, convert).Err?
    ensures ConvertAll(xs + ys, convert) == ConvertAll(xs, convert)
    decreases |ys|
  {
    if ys != [] {
      var zs := xs + ys;
      assert zs[..|zs| - 1] == xs + ys[..|ys| - 1];
      ConvertAllErrSticky(xs, ys[..|ys| - 1], convert);
    } else {
      assert xs + ys == xs;
    }
  }

  /** The batch succeeds exactly when every value converts, with the values in order and nothing else. */
  lemma {:induction false} ConvertAllOk(values: seq<Value>, convert: Value -> Result<Dec, PyError>)
    ensures ConvertAll(values, convert).Ok? <==> forall k :: 0 <= k < |values| ==> convert(values[k]).Ok?
    ensures ConvertAll(values, convert).Ok? ==> (|ConvertAll(values, convert).value| == |values| &&
      forall k :: 0 <= k < |values| ==> ConvertAll(values, convert).value[k] == convert(values[k]).value)
  {
    if values != [] {
      var init := values[..|values| - 1];
      ConvertAllOk(init, convert);
      assert forall k :: 0 <= k < |init| ==> init[k] == values[k];
    }
  }

  /** A failing batch reports the error of its first failing value. */
  lemma {:induction false} ConvertAllFirstError(values: seq<Value>, k: nat, convert: Value -> Result<Dec, PyError>)
    requires k < |values| && convert(values[k]).Err?
    requires forall j :: 0 <= j < k ==> convert(values[j]).Ok?
    ensures ConvertAll(values, convert) == Err(convert(values[k]).error)
  {
    var pre := values[..k];
    assert forall j :: 0 <= j < |pre| ==> pre[j] == values[j];
    ConvertAllOk(pre, convert);
    var upto := values[..k + 1];
    assert upto[..|upto| - 1] == pre;
    assert values == upto + values[k + 1..];
    ConvertAllErrSticky(upto, values[k + 1..], convert);
  }

  /** The loop of `convert_batch_european_decimal`: converts in order, stopping at the first failure. */
  method ConvertEach(values: seq<Value>, convert: Value -> Result<Dec, PyError>) returns (r: Result<seq<Dec>, PyError>)
    ensures r == ConvertAll(values, convert)
  {
    var results: seq<Dec> := [];
    var i := 0;
    while i < |values|
      invariant 0 <= i <= |values|
      invariant ConvertAll(values[..i], convert) == Ok(results)
    {
      assert values[..i + 1][..i] == values[..i];
      var c := convert(values[i]);
      if c.Err? {
        assert values == values[..i + 1] + values[i + 1..];
        ConvertAllErrSticky(values[..i + 1], values[i + 1..], convert);
        return Err(c.error);
      }
      results := results + [c.value];
      i := i + 1;
    }
    assert values[..i] == values;
    return Ok(results);
  }

  /** `DataConverter.convert_batch_european_decimal(value_strings)` */
  method ConvertBatchEuropeanDecimal(values: seq<Value>) returns (r: Result<seq<Dec>, PyError>)
    ensures r == ConvertAll(values, ConvertEuropeanDecimal)
  {
    r := ConvertEach(values, ConvertEuropeanDecimal);
  }
}

/**
 * The structured exception hierarchy of the application (`PPVBaseException`
 * and its three subclasses), the Python built-in exceptions the pipeline
 * raises, per-class error-code counters, and the `create_*` helpers.
 */
module Exceptions {
  import opened Wrappers
  import opened PyText
  import opened PyValue

  /** The four classes of the hierarchy. */
  datatype ExcClass = PPVBase | DataValidation | RuntimeParsing | BusinessRule

  /** Backward-compatibility aliases: `ConversionError = DataValidationError`, `RuntimeParseError = RuntimeParsingError`. */
  const ConversionError: ExcClass := DataValidation
  const RuntimeParseError: ExcClass := RuntimeParsing

  /** `type(e).__name__` */
  function ClassName(c: ExcClass): string {
    match c
    case PPVBase => "PPVBaseException"
    case DataValidation => "DataValidationError"
    case RuntimeParsing => "RuntimeParsingError"
    case BusinessRule => "BusinessRuleError"
  }

  function CodePrefix(c: ExcClass): string {
    match c
    case PPVBase => "PPV_BASE_"
    case DataValidation => "PPV_DATA_"
    case RuntimeParsing => "PPV_RUNTIME_"
    case BusinessRule => "PPV_BUSINESS_"
  }

  type Details = map<string, Value>

  /**
   * An exception as the code that raises it builds it. Application
   * exceptions raised by the services carry their class, message and details;
   * their error code and timestamp are attached by `ErrorCodes.Raise`.
   */
  datatype PyError =
    | TypeError(msg: string)
    | ValueError(msg: string)
    | AttributeError(msg: string)
    | KeyError(key: string)
    | ClassificationError(msg: string)
    | PPV(cls: ExcClass, msg: string, details: Details)

  /** `str(e)`: the message; a `KeyError` shows its key quoted. */
  function Message(e: PyError): string {
    match e
    case KeyError(k) => ReprStr(k)
    case TypeError(m) => m
    case ValueError(m) => m
    case AttributeError(m) => m
    case ClassificationError(m) => m
    case PPV(_, m, _) => m
  }

  predicate IsDataError(e: PyError) { e.PPV? && e.cls == DataValidation }

  predicate IsRuntimeError(e: PyError) { e.PPV? && e.cls == RuntimeParsing }

  predicate IsBusinessError(e: PyError) { e.PPV? && e.cls == BusinessRule }

  /** `isinstance(e, ValueError)`: none of the application classes derives from `ValueError`. */
  predicate IsValueError(e: PyError) { e.ValueError? }

  /** The `AttributeError` Python raises for a missing method. */
  function NoAttribute(typeName: string, attr: string): PyError {
    AttributeError("'" + typeName + "' object has no attribute '" + attr + "'")
  }

  /** A raised application exception, with its error code and its (opaque) creation time. */
  datatype PPVException = PPVException(cls: ExcClass, message: string, errorCode: string, details: Details, timestamp: nat)

  /** The code generated for the `n`-th exception of class `c`: prefix plus counter, at least three digits. */
  function CodeFor(c: ExcClass, n: nat): (code: string)
    ensures StartsWith(code, CodePrefix(c))
    ensures |code| >= |CodePrefix(c)| + 3
  {
    CodePrefix(c) + ZeroPad(n, 3)
  }

  /** The counter value a generated code carries. */
  function CodeNumber(c: ExcClass, code: string): Option<nat> {
    var p := CodePrefix(c);
    if StartsWith(code, p) && IsDigitString(code[|p|..]) then Some(DigitsValue(code[|p|..])) else None
  }

  /** Reading the number back from a generated code gives the counter value. */
  lemma CodeNumberOfCode(c: ExcClass, n: nat)
    ensures CodeNumber(c, CodeFor(c, n)) == Some(n)
  {
    var code := CodeFor(c, n);
    assert code[|CodePrefix(c)|..] == ZeroPad(n, 3);
    ZeroPadValue(n, 3);
  }

  /** The two letters after `PPV_` tell the class of a generated code. */
  function ClassOfTag(tag: string): ExcClass {
    if tag == "BA" then PPVBase
    else if tag == "DA" then DataValidation
    else if tag == "RU" then RuntimeParsing
    else BusinessRule
  }

  lemma PrefixTag(c: ExcClass)
    ensures ClassOfTag(CodePrefix(c)[4..6]) == c
  {
    match c
    case PPVBase => assert CodePrefix(c)[4..6] == "BA";
    case DataValidation => assert CodePrefix(c)[4..6] == "DA";
    case RuntimeParsing => assert CodePrefix(c)[4..6] == "RU";
    case BusinessRule => assert CodePrefix(c)[4..6] == "BU";
  }

  /** Generated codes never collide: different class or different counter value, different code. */
  lemma CodeForInjective(c1: ExcClass, n1: nat, c2: ExcClass, n2: nat)
    requires CodeFor(c1, n1) == CodeFor(c2, n2)
    ensures c1 == c2 && n1 == n2
  {
    var code := CodeFor(c1, n1);
    assert code[4..6] == CodePrefix(c1)[4..6];
    assert code[4..6] == CodePrefix(c2)[4..6];
    PrefixTag(c1);
    PrefixTag(c2);
    CodeNumberOfCode(c1, n1);
    CodeNumberOfCode(c2, n2);
  }

  /** `e.is_business_rule_violation()` */
  predicate IsBusinessRuleViolation(e: PPVException) {
    e.cls == BusinessRule || ("business_rule" in e.details && e.details["business_rule"] != VNone)
  }

  /** `e.get_service()`: `details.get("service")`. */
  function GetService(e: PPVException): (r: Value)
    ensures "service" in e.details ==> r == e.details["service"]
    ensures "service" !in e.details ==> r == VNone
  {
    if "service" in e.details then e.details["service"] else VNone
  }

  /** `e.get_context()`: a copy of the details. */
  function GetContext(e: PPVException): (r: Details)
    ensures r.Keys == e.details.Keys
    ensures forall k :: k in r ==> r[k] == e.details[k]
  {
    e.details
  }

  /** The record `e.to_dict()` returns. */
  datatype ErrorRecord = ErrorRecord(error: string, errorCode: string, details: Details, timestamp: nat, typeName: string)

  /** `e.to_dict()` */
  function ToDict(e: PPVException): ErrorRecord {
    ErrorRecord(e.message, e.errorCode, e.details, e.timestamp, ClassName(e.cls))
  }

  lemma ClassNameInjective(a: ExcClass, b: ExcClass)
    requires ClassName(a) == ClassName(b)
    ensures a == b
  {
    assert ClassName(a)[0] == ClassName(b)[0];
    if ClassName(a)[0] == 'R' || ClassName(a)[0] == 'P' || ClassName(a)[0] == 'B' {
    } else {
      assert ClassName(a)[0] == 'D';
    }
  }

  /** `to_dict()` loses nothing: the record determines the exception. */
  lemma ToDictInjective(a: PPVException, b: PPVException)
    requires ToDict(a) == ToDict(b)
    ensures a == b
  {
    ClassNameInjective(a.cls, b.cls);
  }

  // ---------------------------------------------------------------------
  // Details built by the create_* helpers

  /**
   * The details of `create_data_validation_error`: `service` and
   * `validation_context` only when truthy, `input_value` (as `str()`) only
   * when not None. `str()` of the input may itself raise.
   */
  function DataValidationDetails(service: Value, inputValue: Value, validationContext: Value): (r: Result<Details, PyError>)
    ensures r.Err? <==> inputValue != VNone && StrOf(inputValue).None?
    ensures r.Ok? ==> r.value.Keys <= {"service", "input_value", "validation_context"}
    ensures r.Ok? ==> ("service" in r.value <==> Truthy(service))
    ensures r.Ok? ==> ("input_value" in r.value <==> inputValue != VNone)
    ensures r.Ok? ==> ("validation_context" in r.value <==> Truthy(validationContext))
    ensures r.Ok? && inputValue != VNone ==> r.value["input_value"] == VStr(StrOf(inputValue).value)
  {
    var d0: Details := map[];
    var d1 := if Truthy(service) then d0["service" := service] else d0;
    if inputValue != VNone && StrOf(inputValue).None? then Err(TypeError("__str__ raised"))
    else
      var d2 := if inputValue != VNone then d1["input_value" := VStr(StrOf(inputValue).value)] else d1;
      Ok(if Truthy(validationContext) then d2["validation_context" := validationContext] else d2)
  }

  /** The details of `create_runtime_parsing_error`: each key only when its value is truthy. */
  function RuntimeParsingDetails(inputRuntime: Value, expectedPatterns: Value): (r: Details)
    ensures r.Keys <= {"input_runtime", "expected_patterns"}
    ensures "input_runtime" in r <==> Truthy(inputRuntime)
    ensures "expected_patterns" in r <==> Truthy(expectedPatterns)
    ensures forall k :: k in r ==> Truthy(r[k])
  {
    var d0: Details := map[];
    var d1 := if Truthy(inputRuntime) then d0["input_runtime" := inputRuntime] else d0;
    if Truthy(expectedPatterns) then d1["expected_patterns" := expectedPatterns] else d1
  }

  /**
   * The details of `create_business_rule_error`: `business_rule` always (the
   * rule, or "unknown" when it is falsy), value and limit when not None,
   * context when truthy.
   */
  function BusinessRuleDetails(rule: Value, providedValue: Value, limit: Value, businessContext: Value): (r: Details)
    ensures "business_rule" in r && r["business_rule"] != VNone
    ensures r["business_rule"] == if Truthy(rule) then rule else VStr("unknown")
    ensures "provided_value" in r <==> providedValue != VNone
    ensures "limit" in r <==> limit != VNone
    ensures "business_context" in r <==> Truthy(businessContext)
    ensures r.Keys <= {"business_rule", "provided_value", "limit", "business_context"}
  {
    var d0: Details := map["business_rule" := if Truthy(rule) then rule else VStr("unknown")];
    var d1 := if providedValue != VNone then d0["provided_value" := providedValue] else d0;
    var d2 := if limit != VNone then d1["limit" := limit] else d1;
    if Truthy(businessContext) then d2["business_context" := businessContext] else d2
  }

  /** Whatever class carries them, the business-rule details make `is_business_rule_violation()` true. */
  lemma BusinessDetailsAreViolation(c: ExcClass, m: string, code: string, rule: Value, pv: Value, lim: Value, ctx: Value, t: nat)
    ensures IsBusinessRuleViolation(PPVException(c, m, code, BusinessRuleDetails(rule, pv, lim, ctx), t))
  {
  }

  // ---------------------------------------------------------------------
  // Error-code counters

  /**
   * The class-level counters `_error_counter`, `_data_error_counter`,
   * `_runtime_error_counter` and `_business_error_counter`.
   */
  class ErrorCodes {
    var baseCount: nat
    var dataCount: nat
    var runtimeCount: nat
    var businessCount: nat

    constructor ()
      ensures baseCount == 0 && dataCount == 0 && runtimeCount == 0 && businessCount == 0
    {
      baseCount, dataCount, runtimeCount, businessCount := 0, 0, 0, 0;
    }

    function Counter(c: ExcClass): nat
      reads this
    {
      match c
      case PPVBase => baseCount
      case DataValidation => dataCount
      case RuntimeParsing => runtimeCount
      case BusinessRule => businessCount
    }

    /** `_generate_error_code()`: bumps the class's own counter by one and formats it. */
    method NextCode(c: ExcClass) returns (code: string)
      modifies this
      ensures Counter(c) == old(Counter(c)) + 1
      ensures forall d :: d != c ==> Counter(d) == old(Counter(d))
      ensures code == CodeFor(c, Counter(c))
    {
      match c {
        case PPVBase => baseCount := baseCount + 1;
        case DataValidation => dataCount := dataCount + 1;
        case RuntimeParsing => runtimeCount := runtimeCount + 1;
        case BusinessRule => businessCount := businessCount + 1;
      }
      code := CodeFor(c, Counter(c));
    }

    /**
     * `Cls(message, error_code, details)`: a non-empty supplied code is kept
     * and no counter moves; otherwise a code is generated; missing details
     * become the empty map.
     */
    method Raise(c: ExcClass, message: string, errorCode: Option<string>, details: Option<Details>, timestamp: nat)
      returns (e: PPVException)
      modifies this
      ensures e.cls == c && e.message == message && e.timestamp == timestamp
      ensures e.details == details.GetOr(map[])
      ensures errorCode.Some? && errorCode.value != "" ==>
        (e.errorCode == errorCode.value && forall d :: Counter(d) == old(Counter(d)))
      ensures !(errorCode.Some? && errorCode.value != "") ==>
        (Counter(c) == old(Counter(c)) + 1 && e.errorCode == CodeFor(c, Counter(c)) &&
         forall d :: d != c ==> Counter(d) == old(Counter(d)))
    {
      var code: string;
      if errorCode.Some? && errorCode.value != "" {
        code := errorCode.value;
      } else {
        code := NextCode(c);
      }
      e := PPVException(c, message, code, details.GetOr(map[]), timestamp);
    }

    /** Raise an exception built by a service (class, message, details) and stamp it with a new code. */
    method Stamp(err: PyError, timestamp: nat) returns (e: PPVException)
      requires err.PPV?
      modifies this
      ensures e == PPVException(err.cls, err.msg, CodeFor(err.cls, Counter(err.cls)), err.details, timestamp)
      ensures Counter(err.cls) == old(Counter(err.cls)) + 1
      ensures forall d :: d != err.cls ==> Counter(d) == old(Counter(d))
    {
      e := Raise(err.cls, err.msg, None, Some(err.details), timestamp);
    }
  }

  /** `create_data_validation_error(...)` */
  method CreateDataValidationError(codes: ErrorCodes, message: string, service: Value, inputValue: Value,
                                   validationContext: Value, timestamp: nat)
    returns (r: Result<PPVException, PyError>)
    modifies codes
    ensures r.Ok? <==> DataValidationDetails(service, inputValue, validationContext).Ok?
    ensures r.Ok? ==>
      (r.value.cls == DataValidation && r.value.message == message &&
       r.value.details == DataValidationDetails(service, inputValue, validationContext).value &&
       r.value.errorCode == CodeFor(DataValidation, codes.Counter(DataValidation)) &&
       codes.Counter(DataValidation) == old(codes.Counter(DataValidation)) + 1 &&
       forall d :: d != DataValidation ==> codes.Counter(d) == old(codes.Counter(d)))
    ensures r.Err? ==> forall d :: codes.Counter(d) == old(codes.Counter(d))
  {
    var d := DataValidationDetails(service, inputValue, validationContext);
    if d.Err? {
      return Err(d.error);
    }
    var e := codes.Raise(DataValidation, message, None, Some(d.value), timestamp);
    r := Ok(e);
  }

  /** `create_runtime_parsing_error(...)` */
  method CreateRuntimeParsingError(codes: ErrorCodes, message: string, inputRuntime: Value, expectedPatterns: Value,
                                   timestamp: nat)
    returns (e: PPVException)
    modifies codes
    ensures e.cls == RuntimeParsing && e.message == message
    ensures e.details == RuntimeParsingDetails(inputRuntime, expectedPatterns)
    ensures e.errorCode == CodeFor(RuntimeParsing, codes.Counter(RuntimeParsing))
    ensures codes.Counter(RuntimeParsing) == old(codes.Counter(RuntimeParsing)) + 1
    ensures forall d :: d != RuntimeParsing ==> codes.Counter(d) == old(codes.Counter(d))
  {
    e := codes.Raise(RuntimeParsing, message, None, Some(RuntimeParsingDetails(inputRuntime, expectedPatterns)), timestamp);
  }

  /** `create_business_rule_error(...)` */
  method CreateBusinessRuleError(codes: ErrorCodes, message: string, rule: Value, providedValue: Value, limit: Value,
                                 businessContext: Value, timestamp: nat)
    returns (e: PPVException)
    modifies codes
    ensures e.cls == BusinessRule && e.message == message
    ensures e.details == BusinessRuleDetails(rule, providedValue, limit, businessContext)
    ensures e.errorCode == CodeFor(BusinessRule, codes.Counter(BusinessRule))
    ensures codes.Counter(BusinessRule) == old(codes.Counter(BusinessRule)) + 1
    ensures forall d :: d != BusinessRule ==> codes.Counter(d) == old(codes.Counter(d))
    ensures IsBusinessRuleViolation(e)
  {
    e := codes.Raise(BusinessRule, message, None, Some(BusinessRuleDetails(rule, providedValue, limit, businessContext)), timestamp);
  }
}

/**
 * `RefactoredCampaignConstructor.refactored_init`: the campaign constructor
 * rebuilt from `CampaignDataCleaner`, `CampaignDataValidator` and the strict
 * `RuntimeParser`, setting every cleaned keyword on the instance.
 */
module RefactoredConstructor {
  import opened Wrappers
  import opened PyText
  import opened PyDate
  import opened PyValue
  import opened Exceptions
  import PyUuid
  import CampaignDataValidator
  import CampaignDataCleaner
  import ModelBase
  import RuntimeParser
  import CampaignModel

  /** Lines 79-105: `.strip()` is outside the `try`; every later failure is wrapped with the runtime text. */
  function RuntimeStep(runtime: Value, today: ValidDate): (r: Result<(Option<ValidDate>, ValidDate), PyError>)
    ensures !runtime.VStr? ==> r == Err(NoAttribute(TpName(runtime), "strip"))
    ensures runtime.VStr? && AllSpace(runtime.s) ==> r == Err(ValueError("Runtime cannot be empty"))
    ensures r.Ok? <==> runtime.VStr? && !AllSpace(runtime.s) && RuntimeParser.Parse(runtime, today).Ok?
    ensures r.Ok? ==> r.value == (RuntimeParser.Parse(runtime, today).value.startDate, RuntimeParser.Parse(runtime, today).value.endDate)
    ensures runtime.VStr? && !AllSpace(runtime.s) && r.Err? ==>
      r.error.ValueError? && StartsWith(r.error.msg, "Error parsing runtime '" + runtime.s + "': ")
  {
    if !runtime.VStr? then Err(NoAttribute(TpName(runtime), "strip"))
    else if Strip(runtime.s) == [] then (StripEmptyIff(runtime.s); Err(ValueError("Runtime cannot be empty")))
    else
      StripEmptyIff(runtime.s);
      var prefix := "Error parsing runtime '" + runtime.s + "': ";
      match RuntimeParser.Parse(runtime, today)
      case Err(e) => Wrapped(prefix, e)
      case Ok(p) =>
        ParsedDatesInOrder(runtime, today);
        match ModelBase.ValidateDateLogic(p.startDate, Some(p.endDate))
        case Err(e) => Wrapped(prefix, e)
        case Ok(_) => Ok((p.startDate, p.endDate))
  }

  /** The date-logic check after a successful parse can never fail. */
  lemma ParsedDatesInOrder(v: Value, today: ValidDate)
    requires RuntimeParser.Parse(v, today).Ok?
    ensures ModelBase.ValidateDateLogic(RuntimeParser.Parse(v, today).value.startDate, Some(RuntimeParser.Parse(v, today).value.endDate)).Ok?
  {
    if RuntimeParser.Parse(v, today).value.startDate.Some? {
      RuntimeParser.ParsedInOrder(v, today);
    }
  }

  /** `ValueError(f"Error parsing runtime '{runtime}': {e}")` */
  function Wrapped(prefix: string, e: PyError): (r: Result<(Option<ValidDate>, ValidDate), PyError>)
    ensures r.Err? && r.error.ValueError? && StartsWith(r.error.msg, prefix)
  {
    assert (prefix + Message(e))[..|prefix|] == prefix;
    Err(ValueError(prefix + Message(e)))
  }

  /** The first exception of lines 46-109, or `None`; the checks see the corrected keywords. */
  function RefactoredError(kwargs: Dict, today: ValidDate): Option<PyError> {
    var k := CampaignDataCleaner.Corrected(kwargs);
    if ValuesError(k).Some? then ValuesError(k) else TextsError(k, today)
  }

  /** Lines 53-71: the id, the budget, the CPM and the goal. */
  function ValuesError(k: Dict): Option<PyError> {
    if "id" in k && CampaignDataValidator.ValidateUuid(k["id"]).Err? then
      Some(CampaignDataValidator.ValidateUuid(k["id"]).error)
    else
      AmountsError(k)
  }

  /** Lines 58-71: the budget, the CPM and the impression goal. */
  function AmountsError(k: Dict): Option<PyError> {
    if "budget_eur" in k && CampaignDataValidator.ValidatePositiveNumber(k["budget_eur"], "Budget").Err? then
      Some(CampaignDataValidator.ValidatePositiveNumber(k["budget_eur"], "Budget").error)
    else if "cpm_eur" in k && CampaignDataValidator.ValidatePositiveNumber(k["cpm_eur"], "CPM").Err? then
      Some(CampaignDataValidator.ValidatePositiveNumber(k["cpm_eur"], "CPM").error)
    else if "impression_goal" in k && ModelBase.ValidateImpressionGoalRange(k["impression_goal"]).Err? then
      Some(ModelBase.ValidateImpressionGoalRange(k["impression_goal"]).error)
    else
      None
  }

  /** Lines 74-109: the name, the runtime and the buyer. */
  function TextsError(k: Dict, today: ValidDate): Option<PyError> {
    if "name" in k && CampaignDataValidator.ValidateNonEmptyString(k["name"], "Campaign name").Err? then
      Some(CampaignDataValidator.ValidateNonEmptyString(k["name"], "Campaign name").error)
    else
      DatesError(k, today)
  }

  /** Lines 88-109: the runtime and the buyer. */
  function DatesError(k: Dict, today: ValidDate): Option<PyError> {
    if "runtime" in k && RuntimeStep(k["runtime"], today).Err? then
      Some(RuntimeStep(k["runtime"], today).error)
    else if "buyer" in k && k["buyer"].VNone? then
      Some(ValueError("Buyer field is required"))
    else
      None
  }

  /** The printed id, when the id check passes. */
  function UuidOf(k: Dict): Option<string> {
    if "id" in k && CampaignDataValidator.ValidateUuid(k["id"]).Ok? then Some(CampaignDataValidator.ValidateUuid(k["id"]).value) else None
  }

  /** The runtime dates, when the runtime step passes. */
  function RuntimeOf(k: Dict, today: ValidDate): Option<(Option<ValidDate>, ValidDate)> {
    if "runtime" in k && RuntimeStep(k["runtime"], today).Ok? then Some(RuntimeStep(k["runtime"], today).value) else None
  }

  /** The keywords set on the instance: corrected, the id printed, the runtime dates added. */
  function CleanedValues(kwargs: Dict, today: ValidDate): Dict {
    var k := CampaignDataCleaner.Corrected(kwargs);
    CampaignModel.WithDates(CampaignModel.WithId(k, UuidOf(k)), RuntimeOf(k, today))
  }

  /** Lines 117-118: `is_running` from a truthy end date; one that is not a datetime raises instead. */
  function Finished(attrs: Dict, today: ValidDate): Dict {
    var end := CampaignModel.Arg(attrs, "runtime_end");
    if Truthy(end) && end.VDateTime? then attrs["is_running" := VBool(CampaignModel.IsRunning(end.day, today))] else attrs
  }

  function EndRaise(attrs: Dict): Option<PyError> {
    var end := CampaignModel.Arg(attrs, "runtime_end");
    if Truthy(end) && !end.VDateTime? then Some(NoAttribute(TpName(end), "date")) else None
  }

  /**
   * `refactored_init(campaign_instance, **kwargs)`: checks that fail leave
   * the instance untouched; otherwise every cleaned keyword is set on it
   * before `is_running` is computed.
   */
  method RefactoredInit(c: CampaignModel.Campaign, kwargs: Dict, today: ValidDate) returns (raised: Option<PyError>)
    modifies c
    ensures RefactoredError(kwargs, today).Some? ==> raised == RefactoredError(kwargs, today) && c.fields == old(c.fields)
    ensures RefactoredError(kwargs, today).None? ==>
      raised == EndRaise(old(c.fields) + CleanedValues(kwargs, today)) &&
      c.fields == Finished(old(c.fields) + CleanedValues(kwargs, today), today)
  {
    var cleaned := CheckAll(kwargs, today);
    if cleaned.Err? {
      return Some(cleaned.error);
    }
    var values := cleaned.value;
    SetAll(c, values);
    var end := CampaignModel.Arg(c.fields, "runtime_end");
    if Truthy(end) {
      if !end.VDateTime? {
        return Some(NoAttribute(TpName(end), "date"));
      }
      c.fields := c.fields["is_running" := VBool(CampaignModel.IsRunning(end.day, today))];
    }
    return None;
  }

  /** Lines 46-109: the corrections, then the checks. */
  method CheckAll(kwargs: Dict, today: ValidDate) returns (r: Result<Dict, PyError>)
    ensures r.Err? <==> RefactoredError(kwargs, today).Some?
    ensures r.Err? ==> RefactoredError(kwargs, today) == Some(r.error)
    ensures r.Ok? ==> r.value == CleanedValues(kwargs, today)
  {
    var k := CampaignDataCleaner.Corrected(kwargs);
    var values := CheckValues(k);
    if values.Err? {
      return Err(values.error);
    }
    TextsAfterId(k, today);
    r := CheckTexts(values.value, today);
  }

  /** Lines 53-71, rewriting the keywords one by one. */
  method CheckValues(kwargs: Dict) returns (r: Result<Dict, PyError>)
    ensures r.Err? <==> ValuesError(kwargs).Some?
    ensures r.Err? ==> ValuesError(kwargs) == Some(r.error)
    ensures r.Ok? ==> r.value == CampaignModel.WithId(kwargs, UuidOf(kwargs))
  {
    var k := kwargs;
    if "id" in k {
      var id := CampaignDataValidator.ValidateUuid(k["id"]);
      if id.Err? {
        return Err(id.error);
      }
      k := k["id" := VStr(id.value)];
    }
    AmountsAfterId(kwargs);
    r := CheckAmounts(k);
  }

  /** Lines 58-71: each amount is checked and written back unchanged. */
  method CheckAmounts(kwargs: Dict) returns (r: Result<Dict, PyError>)
    ensures r.Err? <==> AmountsError(kwargs).Some?
    ensures r.Err? ==> AmountsError(kwargs) == Some(r.error)
    ensures r.Ok? ==> r.value == kwargs
  {
    var k := kwargs;
    if "budget_eur" in k {
      var budget := CampaignDataValidator.ValidatePositiveNumber(k["budget_eur"], "Budget");
      if budget.Err? {
        return Err(budget.error);
      }
      assert budget.value == k["budget_eur"];
      k := k["budget_eur" := budget.value];
    }
    assert k == kwargs;
    if "cpm_eur" in k {
      var cpm := CampaignDataValidator.ValidatePositiveNumber(k["cpm_eur"], "CPM");
      if cpm.Err? {
        return Err(cpm.error);
      }
      assert cpm.value == k["cpm_eur"];
      k := k["cpm_eur" := cpm.value];
    }
    assert k == kwargs;
    if "impression_goal" in k {
      var goal := ModelBase.ValidateImpressionGoalRange(k["impression_goal"]);
      if goal.Err? {
        return Err(goal.error);
      }
      assert goal.value == k["impression_goal"];
      k := k["impression_goal" := goal.value];
    }
    assert k == kwargs;
    return Ok(k);
  }

  /** Printing the id changes none of the amounts. */
  lemma AmountsAfterId(k: Dict)
    ensures AmountsError(CampaignModel.WithId(k, UuidOf(k))) == AmountsError(k)
  {
    var k2 := CampaignModel.WithId(k, UuidOf(k));
    assert "budget_eur" in k2 <==> "budget_eur" in k;
    assert "cpm_eur" in k2 <==> "cpm_eur" in k;
    assert "impression_goal" in k2 <==> "impression_goal" in k;
  }

  /** Lines 74-109, adding the parsed dates to the keywords. */
  method CheckTexts(kwargs: Dict, today: ValidDate) returns (r: Result<Dict, PyError>)
    ensures r.Err? <==> TextsError(kwargs, today).Some?
    ensures r.Err? ==> TextsError(kwargs, today) == Some(r.error)
    ensures r.Ok? ==> r.value == CampaignModel.WithDates(kwargs, RuntimeOf(kwargs, today))
  {
    var k := kwargs;
    if "name" in k {
      var name := CampaignDataValidator.ValidateNonEmptyString(k["name"], "Campaign name");
      if name.Err? {
        return Err(name.error);
      }
      k := k["name" := name.value];
      assert k == kwargs;
    }
    r := CheckDates(k, today);
  }

  /** Lines 88-109: the runtime read into the two dates, then the buyer. */
  method CheckDates(kwargs: Dict, today: ValidDate) returns (r: Result<Dict, PyError>)
    ensures r.Err? <==> DatesError(kwargs, today).Some?
    ensures r.Err? ==> DatesError(kwargs, today) == Some(r.error)
    ensures r.Ok? ==> r.value == CampaignModel.WithDates(kwargs, RuntimeOf(kwargs, today))
  {
    var k := kwargs;
    if "runtime" in k {
      var dates := RuntimeStep(k["runtime"], today);
      if dates.Err? {
        return Err(dates.error);
      }
      k := k["runtime_start" := CampaignModel.StartValue(dates.value.0)]["runtime_end" := VDateTime(dates.value.1)];
    }
    assert "buyer" in k <==> "buyer" in kwargs;
    if "buyer" in k && k["buyer"].VNone? {
      return Err(ValueError("Buyer field is required"));
    }
    return Ok(k);
  }

  /** Printing the id changes nothing the later checks read. */
  lemma TextsAfterId(k: Dict, today: ValidDate)
    ensures var k2 := CampaignModel.WithId(k, UuidOf(k));
      TextsError(k2, today) == TextsError(k, today) && RuntimeOf(k2, today) == RuntimeOf(k, today)
  {
    var k2 := CampaignModel.WithId(k, UuidOf(k));
    assert "name" != "id" && "runtime" != "id" && "buyer" != "id";
    SameTexts(k2, k, today);
  }

  /** The text checks read only `name`, `runtime` and `buyer`. */
  lemma SameTexts(a: Dict, b: Dict, today: ValidDate)
    requires ("name" in a <==> "name" in b) && ("name" in a ==> a["name"] == b["name"])
    requires ("runtime" in a <==> "runtime" in b) && ("runtime" in a ==> a["runtime"] == b["runtime"])
    requires ("buyer" in a <==> "buyer" in b) && ("buyer" in a ==> a["buyer"] == b["buyer"])
    ensures TextsError(a, today) == TextsError(b, today) && RuntimeOf(a, today) == RuntimeOf(b, today)
  {
  }

  /** Lines 113-114: `setattr` for every key, in any order. */
  method SetAll(c: CampaignModel.Campaign, values: Dict)
    modifies c
    ensures c.fields == old(c.fields) + values
  {
    var todo := values.Keys;
    while todo != {}
      invariant todo <= values.Keys
      invariant c.fields.Keys == old(c.fields).Keys + (values.Keys - todo)
      invariant forall k :: k in c.fields ==> c.fields[k] == if k in values && k !in todo then values[k] else old(c.fields)[k]
      decreases |todo|
    {
      var key :| key in todo;
      c.fields := c.fields[key := values[key]];
      todo := todo - {key};
    }
    assert c.fields == old(c.fields) + values;
  }

  // ---------------------------------------------------------------------
  // Against Campaign.__init__

  /** A fresh instance: every column unset. */
  function Blank(): (f: Dict)
    ensures f.Keys == CampaignModel.Columns
  {
    map c | c in CampaignModel.Columns :: VNone
  }

  /**
   * On keywords both constructors accept, and a runtime both read as the same
   * dates, a fresh instance ends with exactly the attributes `Campaign.__init__`
   * gives it.
   */
  lemma AgreesWithInit(kwargs: Dict, today: ValidDate)
    requires kwargs.Keys <= CampaignModel.Columns + {"cmp_eur"}
    requires CampaignModel.Accepted(kwargs) && RefactoredError(kwargs, today).None?
    requires "runtime" in kwargs ==> CampaignModel.ParseRuntimeDates(kwargs["runtime"].s) == RuntimeStep(kwargs["runtime"], today)
    ensures Finished(Blank() + CleanedValues(kwargs, today), today) == CampaignModel.Fields(kwargs, today)
  {
    var k := CampaignDataCleaner.Corrected(kwargs);
    assert k == CampaignModel.MovedCmp(kwargs);
    IdsAgree(kwargs);
    DatesAgree(kwargs, today);
    IdCommutes(kwargs, UuidOf(k));
    CampaignModel.FieldsUnfold(kwargs, today);
    var mine := CleanedValues(kwargs, today);
    CleanedColumns(kwargs, today);
    FinishedDeclared(mine, today);
  }

  lemma IdsAgree(kwargs: Dict)
    requires "id" in kwargs ==> ModelBase.ValidateUuid(kwargs["id"]).Ok?
    ensures UuidOf(CampaignDataCleaner.Corrected(kwargs)) == CampaignModel.IdOf(kwargs)
  {
    if "id" in kwargs {
      var v := kwargs["id"];
      assert CampaignDataCleaner.Corrected(kwargs)["id"] == v;
      UuidNotBlank(v);
    }
  }

  /** An id the mixin accepts has a printed form, so it is not blank either. */
  lemma UuidNotBlank(v: Value)
    requires ModelBase.ValidateUuid(v).Ok?
    ensures CampaignDataValidator.ValidateUuid(v) == ModelBase.ValidateUuid(v)
  {
    if Strip(v.s) == [] {
      StripEmptyIff(v.s);
      PyUuid.BlankIsNotUuid(v.s);
    }
  }

  lemma DatesAgree(kwargs: Dict, today: ValidDate)
    requires "runtime" in kwargs ==> kwargs["runtime"].VStr? && CampaignModel.ParseRuntimeDates(kwargs["runtime"].s).Ok?
    requires "runtime" in kwargs ==> CampaignModel.ParseRuntimeDates(kwargs["runtime"].s) == RuntimeStep(kwargs["runtime"], today)
    ensures RuntimeOf(CampaignDataCleaner.Corrected(kwargs), today) == CampaignModel.DatesOf(kwargs)
  {
    if "runtime" in kwargs {
      assert CampaignDataCleaner.Corrected(kwargs)["runtime"] == kwargs["runtime"];
    }
  }

  lemma IdCommutes(kw: Dict, id: Option<string>)
    ensures CampaignModel.WithId(CampaignModel.MovedCmp(kw), id) == CampaignModel.MovedCmp(CampaignModel.WithId(kw, id))
  {
  }

  lemma CleanedColumns(kwargs: Dict, today: ValidDate)
    requires kwargs.Keys <= CampaignModel.Columns + {"cmp_eur"}
    ensures CleanedValues(kwargs, today).Keys <= CampaignModel.Columns
  {
  }

  /** A fresh instance given the keywords, then `is_running`, is what `Campaign.__init__` declares. */
  lemma FinishedDeclared(m: Dict, today: ValidDate)
    requires m.Keys <= CampaignModel.Columns
    ensures Finished(Blank() + m, today) == CampaignModel.Declared(m, today)
  {
    assert Blank() + m == map c | c in CampaignModel.Columns :: CampaignModel.Arg(m, c);
  }

  /** Both constructors read the strict range shape as the same dates, when the start is before the end. */
  lemma StrictRangeAgrees(a: ValidDate, b: ValidDate, today: ValidDate)
    requires Before(a, b)
    ensures var v := VStr(RuntimeParser.DateText(a) + "-" + RuntimeParser.DateText(b));
      RuntimeStep(v, today) == Ok((Some(a), b)) && CampaignModel.ParseRuntimeDates(v.s) == RuntimeStep(v, today)
  {
    var s := RuntimeParser.DateText(a) + "-" + RuntimeParser.DateText(b);
    RuntimeParser.StandardRoundTrip(a, b, s, today);
    CampaignModel.StrictRangeAccepted(a, b);
    assert s[0] == RuntimeParser.DateText(a)[0];
    RuntimeParser.DateTextRoundTrip(a);
    assert !AllSpace(s) by {
      assert IsDigit(s[0]);
    }
  }

  /** Both constructors read the strict ASAP shape as the same end date. */
  lemma StrictAsapAgrees(d: ValidDate, today: ValidDate)
    ensures var v := VStr("ASAP-" + RuntimeParser.DateText(d));
      RuntimeStep(v, today) == Ok((None, d)) && CampaignModel.ParseRuntimeDates(v.s) == RuntimeStep(v, today)
  {
    var s := "ASAP-" + RuntimeParser.DateText(d);
    RuntimeParser.AsapRoundTrip(d, s, today);
    CampaignModel.StrictAsapAccepted(d);
    assert s[0] == 'A' && !IsSpace(s[0]);
  }

  /** Equal start and end dates: `Campaign.__init__` accepts them, the refactored constructor raises. */
  lemma EqualDatesDiverge(d: ValidDate, today: ValidDate)
    ensures var v := VStr(RuntimeParser.DateText(d) + "-" + RuntimeParser.DateText(d));
      CampaignModel.ParseRuntimeDates(v.s) == Ok((Some(d), d)) && RuntimeStep(v, today).Err? &&
      StartsWith(RuntimeStep(v, today).error.msg, "Error parsing runtime '" + v.s + "': ")
  {
    var s := RuntimeParser.DateText(d) + "-" + RuntimeParser.DateText(d);
    CampaignModel.EqualDatesAccepted(d);
    RuntimeParser.EqualDatesRejected(d, today);
    RuntimeParser.DateTextRoundTrip(d);
    assert s[0] == RuntimeParser.DateText(d)[0];
    assert !AllSpace(s) by {
      assert IsDigit(s[0]);
    }
  }

  /** A `cmp_eur` value is checked as the CPM and stored under `cpm_eur`. */
  lemma CmpCheckedAndMoved(kwargs: Dict, today: ValidDate)
    requires "cmp_eur" in kwargs && RefactoredError(kwargs, today).None?
    ensures CampaignDataValidator.ValidatePositiveNumber(kwargs["cmp_eur"], "CPM").Ok?
    ensures "cmp_eur" !in CleanedValues(kwargs, today) && CleanedValues(kwargs, today)["cpm_eur"] == kwargs["cmp_eur"]
  {
    var k := CampaignDataCleaner.Corrected(kwargs);
    assert "cpm_eur" in k && k["cpm_eur"] == kwargs["cmp_eur"];
    assert ValuesError(k).None?;
    assert AmountsError(k).None?;
    var k2 := CampaignModel.WithId(k, UuidOf(k));
    assert "cmp_eur" !in k2 && k2["cpm_eur"] == k["cpm_eur"];
    assert CleanedValues(kwargs, today) == CampaignModel.WithDates(k2, RuntimeOf(k, today));
  }

  /** Unlike `Campaign.__init__`, a non-positive `cpm_eur` given directly is refused once the id and budget pass. */
  lemma DirectCpmChecked(kwargs: Dict, today: ValidDate)
    requires "cmp_eur" !in kwargs && "cpm_eur" in kwargs && IsNumber(kwargs["cpm_eur"]) && NumberOf(kwargs["cpm_eur"]) <= 0.0
    requires "id" in kwargs ==> CampaignDataValidator.ValidateUuid(kwargs["id"]).Ok?
    requires "budget_eur" in kwargs ==> CampaignDataValidator.ValidatePositiveNumber(kwargs["budget_eur"], "Budget").Ok?
    ensures RefactoredError(kwargs, today) == Some(ValueError("CPM must be positive, got: " + FormatText(kwargs["cpm_eur"])))
  {
    var k := CampaignDataCleaner.Corrected(kwargs);
    assert k == kwargs;
    assert "CPM" + " must be positive, got: " == "CPM must be positive, got: ";
    assert ValuesError(k) == Some(ValueError("CPM must be positive, got: " + FormatText(kwargs["cpm_eur"])));
  }
}

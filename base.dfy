/**
 * `app.models.base`: the UUID check of `UUIDValidationMixin`, the business
 * rules of `CampaignBusinessRuleMixin`, and `BaseModel.update_from_dict`.
 */
module ModelBase {
  import opened Wrappers
  import opened PyText
  import opened PyDate
  import opened PyValue
  import opened PyUuid
  import opened Exceptions

  const MinImpressionGoal: int := 1
  const MaxImpressionGoal: int := 2000000000

  /** `UUIDValidationMixin.validate_uuid(uuid_string)`: falsiness is checked before the type. */
  function ValidateUuid(v: Value): (r: Result<string, PyError>)
    ensures !Truthy(v) ==> r == Err(ValueError("UUID cannot be empty"))
    ensures Truthy(v) && !v.VStr? ==> r == Err(ValueError("UUID must be a string"))
    ensures Truthy(v) && v.VStr? && ParseUuid(v.s).None? ==> r == Err(ValueError("Invalid UUID format: " + TextOf(v)))
    ensures r.Ok? <==> v.VStr? && ParseUuid(v.s).Some?
    ensures r.Ok? ==> IsCanonical(r.value) && ParseUuid(TextOf(v)) == Some(r.value)
  {
    if !Truthy(v) then Err(ValueError("UUID cannot be empty"))
    else if !v.VStr? then Err(ValueError("UUID must be a string"))
    else
      var text := v.s;
      match ParseUuid(text)
      case None => Err(ValueError("Invalid UUID format: " + text))
      case Some(c) => Ok(c)
  }

  /** `None`, `""`, `0` and `[]` all count as an empty UUID. */
  lemma FalsyUuidIsEmpty()
    ensures ValidateUuid(VNone) == Err(ValueError("UUID cannot be empty"))
    ensures ValidateUuid(VStr("")) == Err(ValueError("UUID cannot be empty"))
    ensures ValidateUuid(VInt(0)) == Err(ValueError("UUID cannot be empty"))
    ensures ValidateUuid(VList([])) == Err(ValueError("UUID cannot be empty"))
  {
  }

  /** A canonical UUID comes back unchanged. */
  lemma UuidCanonicalUnchanged(c: string)
    requires IsCanonical(c)
    ensures ValidateUuid(VStr(c)) == Ok(c)
  {
    CanonicalIsFixed(c);
  }

  /** `CampaignBusinessRuleMixin.validate_positive_value(field_name, value)` */
  function ValidatePositiveValue(field: string, v: Value): (r: Result<Value, PyError>)
    ensures !IsNumber(v) ==> r == Err(TypeError("'<=' not supported between instances of '" + TpName(v) + "' and 'int'"))
    ensures IsNumber(v) && NumberOf(v) <= 0.0 ==> r == Err(ValueError(field + " must be positive, got: " + FormatText(v)))
    ensures r.Ok? <==> IsNumber(v) && NumberOf(v) > 0.0
    ensures r.Ok? ==> r.value == v
  {
    if !IsNumber(v) then Err(TypeError("'<=' not supported between instances of '" + TpName(v) + "' and 'int'"))
    else if NumberOf(v) <= 0.0 then Err(ValueError(field + " must be positive, got: " + FormatText(v)))
    else Ok(v)
  }

  /** A date is compared with `0` and refused with the interpreter's own message, naming `datetime.date`. */
  lemma DateNotPositive(field: string, d: ValidDate)
    ensures ValidatePositiveValue(field, VDate(d)) ==
      Err(TypeError("'<=' not supported between instances of 'datetime.date' and 'int'"))
  {
    assert TpName(VDate(d)) == "datetime.date";
    assert "'<=' not supported between instances of '" + "datetime.date" + "' and 'int'" ==
      "'<=' not supported between instances of 'datetime.date' and 'int'";
  }

  /** `CampaignBusinessRuleMixin.validate_impression_goal_range(impression_goal)`; a `bool` is an `int`. */
  function ValidateImpressionGoalRange(v: Value): (r: Result<Value, PyError>)
    ensures !IsInt(v) ==> r == Err(ValueError("Impression goal must be integer, got: " + ClassText(v)))
    ensures IsInt(v) && IntOf(v) < MinImpressionGoal ==>
            r == Err(ValueError("Impression goal must be at least 1, got: " + FormatText(v)))
    ensures IsInt(v) && IntOf(v) > MaxImpressionGoal ==>
            r == Err(ValueError("Impression goal cannot exceed 2000000000, got: " + FormatText(v)))
    ensures r.Ok? <==> IsInt(v) && MinImpressionGoal <= IntOf(v) <= MaxImpressionGoal
    ensures r.Ok? ==> r.value == v
  {
    if !IsInt(v) then Err(ValueError("Impression goal must be integer, got: " + ClassText(v)))
    else if IntOf(v) < MinImpressionGoal then Err(ValueError("Impression goal must be at least 1, got: " + FormatText(v)))
    else if IntOf(v) > MaxImpressionGoal then Err(ValueError("Impression goal cannot exceed 2000000000, got: " + FormatText(v)))
    else Ok(v)
  }

  /** The bounds themselves are accepted; a float is refused even when whole. */
  lemma GoalBounds(f: Dec)
    ensures ValidateImpressionGoalRange(VInt(1)).Ok?
    ensures ValidateImpressionGoalRange(VInt(2000000000)).Ok?
    ensures ValidateImpressionGoalRange(VInt(0)).Err?
    ensures ValidateImpressionGoalRange(VInt(2000000001)).Err?
    ensures ValidateImpressionGoalRange(VFloat(f)).Err?
  {
  }

  /**
   * `CampaignBusinessRuleMixin.validate_date_logic(start_date, end_date)`;
   * both arguments are midnight datetimes or `None`.
   */
  function ValidateDateLogic(start: Option<ValidDate>, end: Option<ValidDate>): (r: Result<(), PyError>)
    ensures end.None? ==> r == Err(ValueError("End date is required"))
    ensures r.Ok? <==> end.Some? && (start.None? || AtOrBefore(start.value, end.value))
    ensures end.Some? && start.Some? && r.Err? ==>
            r.error == ValueError("Start date (" + MidnightText(start.value) + ") cannot be after end date (" + MidnightText(end.value) + ")")
  {
    if end.None? then Err(ValueError("End date is required"))
    else if start.Some? && Before(end.value, start.value) then
      Err(ValueError("Start date (" + MidnightText(start.value) + ") cannot be after end date (" + MidnightText(end.value) + ")"))
    else
      BeforeTotal(start.GetOr(end.value), end.value);
      Ok(())
  }

  /** A campaign may start and end on the same day; an ASAP campaign has no start. */
  lemma DateLogicAllowsEqualAndAsap(d: ValidDate)
    ensures ValidateDateLogic(Some(d), Some(d)).Ok?
    ensures ValidateDateLogic(None, Some(d)).Ok?
  {
  }

  /** The attributes `update_from_dict` leaves: existing names take the new value, nothing is added. */
  function UpdatedFrom(attrs: Dict, data: Dict): (r: Dict)
    ensures r.Keys == attrs.Keys
  {
    map k | k in attrs :: if k in data then data[k] else attrs[k]
  }

  /** An instance of `BaseModel`: its attribute dictionary. */
  class Record {
    var attrs: Dict

    constructor (initial: Dict)
      ensures attrs == initial
    {
      attrs := initial;
    }

    /** `BaseModel.update_from_dict(data)`: unknown keys are skipped. */
    method UpdateFromDict(data: Dict)
      modifies this
      ensures attrs == UpdatedFrom(old(attrs), data)
    {
      var todo := data.Keys;
      while todo != {}
        invariant todo <= data.Keys
        invariant attrs.Keys == old(attrs).Keys
        invariant forall k :: k in attrs ==> attrs[k] == if k in data && k !in todo then data[k] else old(attrs)[k]
        decreases |todo|
      {
        var key :| key in todo;
        if key in attrs {
          attrs := attrs[key := data[key]];
        }
        todo := todo - {key};
      }
    }
  }

  /** Updating never adds an attribute, and a second update with the same data changes nothing. */
  lemma UpdateShape(attrs: Dict, data: Dict, k: string)
    ensures k in UpdatedFrom(attrs, data) <==> k in attrs
    ensures k in attrs && k !in data ==> UpdatedFrom(attrs, data)[k] == attrs[k]
    ensures UpdatedFrom(UpdatedFrom(attrs, data), data) == UpdatedFrom(attrs, data)
  {
  }
}

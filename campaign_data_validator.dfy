/**
 * `CampaignDataValidator` and `ValidationUtils`: each check either fails with
 * a `ValueError` naming the field, or hands its input back unchanged (the
 * UUID check hands back the printed form of the UUID).
 */
module CampaignDataValidator {
  import opened Wrappers
  import opened PyText
  import opened PyDate
  import opened PyValue
  import opened PyUuid
  import opened Exceptions

  /** `CampaignDataValidator.validate_uuid(uuid_string)` */
  function ValidateUuid(v: Value): (r: Result<string, PyError>)
    ensures v.VNone? ==> r == Err(ValueError("UUID cannot be None"))
    ensures !v.VNone? && !v.VStr? ==> r == Err(ValueError("UUID must be a string"))
    ensures v.VStr? && Strip(v.s) == [] ==> r == Err(ValueError("UUID cannot be empty"))
    ensures v.VStr? && Strip(v.s) != [] && ParseUuid(v.s).None? ==>
            r == Err(ValueError("Invalid UUID format: " + TextOf(v)))
    ensures r.Ok? <==> v.VStr? && Strip(v.s) != [] && ParseUuid(v.s).Some?
    ensures r.Ok? ==> ParseUuid(TextOf(v)) == Some(r.value) && IsCanonical(r.value)
  {
    if v.VNone? then Err(ValueError("UUID cannot be None"))
    else if !v.VStr? then Err(ValueError("UUID must be a string"))
    else
      var text := v.s;
      if Strip(text) == [] then Err(ValueError("UUID cannot be empty"))
      else
        match ParseUuid(text)
        case None => Err(ValueError("Invalid UUID format: " + text))
        case Some(c) => Ok(c)
  }

  /** A canonical lower-case UUID passes unchanged, so the check is idempotent. */
  lemma UuidCanonicalUnchanged(c: string)
    requires IsCanonical(c)
    ensures ValidateUuid(VStr(c)) == Ok(c)
  {
    CanonicalIsFixed(c);
    assert c[0] == c[0] && !IsHyphenAt(0);
    assert !IsSpace(c[0]) by {
      assert IsLowerHex(c[0]);
    }
    LStripNoop(c);
    StripEmptyIff(c);
  }

  lemma UuidIdempotent(v: Value)
    requires ValidateUuid(v).Ok?
    ensures ValidateUuid(VStr(ValidateUuid(v).value)) == ValidateUuid(v)
  {
    UuidCanonicalUnchanged(ValidateUuid(v).value);
  }

  /** `CampaignDataValidator.validate_positive_number(value, field_name)` */
  function ValidatePositiveNumber(v: Value, field: string): (r: Result<Value, PyError>)
    ensures v.VNone? ==> r == Err(ValueError(field + " cannot be None"))
    ensures !v.VNone? && !IsNumber(v) ==> r == Err(ValueError(field + " must be a number, got: " + TypeName(v)))
    ensures IsNumber(v) && NumberOf(v) <= 0.0 ==> r == Err(ValueError(field + " must be positive, got: " + FormatText(v)))
    ensures r.Ok? <==> IsNumber(v) && NumberOf(v) > 0.0
    ensures r.Ok? ==> r.value == v
  {
    if v.VNone? then Err(ValueError(field + " cannot be None"))
    else if !IsNumber(v) then Err(ValueError(field + " must be a number, got: " + TypeName(v)))
    else if NumberOf(v) <= 0.0 then Err(ValueError(field + " must be positive, got: " + FormatText(v)))
    else Ok(v)
  }

  /** `CampaignDataValidator.validate_non_empty_string(text, field_name)`: the input comes back untrimmed. */
  function ValidateNonEmptyString(v: Value, field: string): (r: Result<Value, PyError>)
    ensures v.VNone? ==> r == Err(ValueError(field + " cannot be None"))
    ensures !v.VNone? && !v.VStr? ==> r == Err(ValueError(field + " must be a string, got: " + TypeName(v)))
    ensures v.VStr? && AllSpace(v.s) ==> r == Err(ValueError(field + " cannot be empty"))
    ensures r.Ok? <==> v.VStr? && !AllSpace(v.s)
    ensures r.Ok? ==> r.value == v
  {
    if v.VNone? then Err(ValueError(field + " cannot be None"))
    else if !v.VStr? then Err(ValueError(field + " must be a string, got: " + TypeName(v)))
    else if Strip(v.s) == [] then (StripEmptyIff(v.s); Err(ValueError(field + " cannot be empty")))
    else (StripEmptyIff(v.s); Ok(v))
  }

  /** `CampaignDataValidator.validate_required_field(value, field_name)` */
  function ValidateRequiredField(v: Value, field: string): (r: Result<Value, PyError>)
    ensures v.VNone? ==> r == Err(ValueError(field + " field is required"))
    ensures r.Ok? <==> !v.VNone?
    ensures r.Ok? ==> r.value == v
  {
    if v.VNone? then Err(ValueError(field + " field is required")) else Ok(v)
  }

  /** A value that passed a check passes it again, unchanged. */
  lemma ChecksIdempotent(v: Value, field: string)
    ensures ValidatePositiveNumber(v, field).Ok? ==>
            ValidatePositiveNumber(ValidatePositiveNumber(v, field).value, field) == ValidatePositiveNumber(v, field)
    ensures ValidateNonEmptyString(v, field).Ok? ==>
            ValidateNonEmptyString(ValidateNonEmptyString(v, field).value, field) == ValidateNonEmptyString(v, field)
    ensures ValidateRequiredField(v, field).Ok? ==>
            ValidateRequiredField(ValidateRequiredField(v, field).value, field) == ValidateRequiredField(v, field)
  {
  }

  // ---------------------------------------------------------------------
  // ValidationUtils

  /** `ValidationUtils.validate_email_format(email, field_name)` */
  function ValidateEmailFormat(email: string, field: string): (r: Result<string, PyError>)
    ensures r.Ok? <==> '@' in email
    ensures r.Ok? ==> r.value == email
    ensures r.Err? ==> r.error == ValueError(field + " must be a valid email format")
  {
    if email == [] || '@' !in email then Err(ValueError(field + " must be a valid email format")) else Ok(email)
  }

  /** `ValidationUtils.validate_percentage_range(value, field_name)` */
  function ValidatePercentageRange(v: Value, field: string): (r: Result<Value, PyError>)
    ensures !IsNumber(v) ==> r == Err(ValueError(field + " must be a number"))
    ensures r.Ok? <==> IsNumber(v) && 0.0 <= NumberOf(v) <= 100.0
    ensures r.Ok? ==> r.value == v
    ensures IsNumber(v) && r.Err? ==> r.error == ValueError(field + " must be between 0 and 100, got: " + FormatText(v))
  {
    if !IsNumber(v) then Err(ValueError(field + " must be a number"))
    else if !(0.0 <= NumberOf(v) <= 100.0) then Err(ValueError(field + " must be between 0 and 100, got: " + FormatText(v)))
    else Ok(v)
  }

  /** `ValidationUtils.validate_date_range(start, end, field_prefix)` */
  function ValidateDateRange(start: Option<Date>, end: Option<Date>, prefix: string): (r: Result<(Option<Date>, Option<Date>), PyError>)
    ensures r.Err? <==> start.Some? && end.Some? && Before(end.value, start.value)
    ensures r.Ok? ==> r.value == (start, end)
    ensures r.Err? ==> r.error == ValueError(prefix + " start cannot be after " + Lower(prefix) + " end")
  {
    if start.Some? && end.Some? && Before(end.value, start.value) then
      Err(ValueError(prefix + " start cannot be after " + Lower(prefix) + " end"))
    else
      Ok((start, end))
  }

  /** Equal bounds are a valid range. */
  lemma EqualDatesAllowed(d: Date, prefix: string)
    ensures ValidateDateRange(Some(d), Some(d), prefix).Ok?
  {
  }
}

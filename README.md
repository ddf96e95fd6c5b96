# Campaign upload backend: a verified model

This project models the data-ingestion core of the PPV system-health backend.
Marketing campaigns and deals reach it as rows of an XLSX sheet. The backend
maps the header row to model fields and reads every data row. It converts
European-formatted amounts and integer impression goals, and it parses the
runtime text (`ASAP-DD.MM.YYYY` or `DD.MM.YYYY-DD.MM.YYYY`) into start and
end dates. Each row becomes either a campaign dictionary or a per-row error.
The campaigns are then persisted one by one, each with its own rollback. An
upload session records counts and errors and ends as "completed" or "failed".
The reply is a full success (201), a partial success (207) or a refusal (400).

One Dafny module per source file:

| module | models |
|---|---|
| `DataConversion` (data_conversion.dfy) | `DataConverter` and the budget/CPM wrappers |
| `RuntimeParser` (runtime_parser.dfy) | the strict regex runtime parser |
| `CampaignClassifier` (campaign_classifier.dfy) | campaign/deal classification |
| `BusinessConstants` (business.dfy) | the `"Not set"` marker and the constants guard |
| `Exceptions` (exceptions.dfy) | the structured exception classes, their error-code counters and the `create_*` helpers |
| `CampaignDataValidator` (campaign_data_validator.dfy) | reusable check-or-raise validators |
| `CampaignDataCleaner` (campaign_data_cleaner.dfy) | key corrections, renames, trims, and the data-quality analyzer |
| `ModelBase` (base.py's mixins, base.dfy) | UUID check, business-rule mixins, `update_from_dict` |
| `CampaignModel` (campaign.dfy) | `Campaign.__init__` with its lenient runtime parser, derived values, `UploadSession` |
| `RefactoredConstructor` (campaign_refactored_constructor.dfy) | the refactored constructor |
| `Upload` (upload.dfy) | `XLSXProcessor` and the `upload_campaigns` endpoint |

Support modules model the Python primitives the code relies on:

- `PyText`: `str.strip`, `isdigit`, `lower`/`isupper` (ASCII letters only), `split`, `count`, `int()`, and a `float()` for digit/dot strings.
- `PyDate`: the proleptic Gregorian `date`, with ordinals and ISO text.
- `PyUuid`: `uuid.UUID`: `urn:`, `uuid:`, braces and hyphens are dropped, and exactly 32 hex digits must remain.
- `PyValue`: dynamic Python values, with `str()`, `repr()`, truthiness, `type(v).__name__`, and the type names the interpreter prints in its own `TypeError`/`AttributeError` messages (`datetime.date`, `datetime.datetime`).
- `Wrappers`: `Option`/`Result`.

A raised exception becomes the `Err` side of a `Result` holding a `PyError`.
The state the code changes in place is modelled as classes:

- `ModelBase.Record`: a model instance's attributes;
- `BusinessConstants.Constants`: the class attributes the metaclass guards;
- `Exceptions.ErrorCodes`: the four class-level counters;
- `CampaignModel.Campaign` and `CampaignModel.UploadSession`: the row objects;
- `Upload.CampaignStore`: the campaign table, as its set of ids.

Where the design notes and the code differ, the model follows the code:

- `Campaign.__init__` reads `kwargs['cpm_eur']` when the misspelt key `cmp_eur`
  is present (backend/app/models/campaign.py:88-89). A lone `cmp_eur` is
  therefore a `KeyError`, the `cmp_eur` value itself is never checked, and a
  CPM given directly as `cpm_eur` is never checked either.
- The application exceptions raised by the converters and the parser are not
  `ValueError`s. So the `"Data conversion failed:"` wrapper of `_process_row`
  never applies, and a row error carries the converter's or parser's own
  message.
- The `total` stored on the upload session counts persistence failures twice.
  `TotalDoubleCounts` states this as written.

## Model

| member | source | states |
|---|---|---|
| DataConversion.ConvertEuropeanDecimal | backend/app/services/data_conversion.py:54-140 | every failure is a `TypeError` or a `DataValidationError` |
| DataConversion.DecimalRejectsBadInput | backend/app/services/data_conversion.py:81-93 | non-string input raises `TypeError("Input must be a string")`; blank text raises `DataValidationError` |
| DataConversion.CommaMeansEuropean | backend/app/services/data_conversion.py:103-108 | whenever the trimmed text contains a comma, the result is exactly the European conversion of the trimmed text |
| DataConversion.NoCommaMeansFloat | backend/app/services/data_conversion.py:109-137 | text without a comma is accepted iff `float()` reads it, with the dot as the decimal point and that value as the result |
| DataConversion.ConvertEuropeanFormat | backend/app/services/data_conversion.py:143-201 | the European rewrite fails only with `DataValidationError` |
| DataConversion.MultipleCommasRejected | backend/app/services/data_conversion.py:153-165 | two or more commas always give the "multiple commas" error |
| DataConversion.OneCommaShape | backend/app/services/data_conversion.py:153-190 | with one comma: a decimal part that is not all digits is refused; otherwise the result is `float()` of the integer part without dots, a point and the decimal part |
| DataConversion.EuropeanValue | backend/app/services/data_conversion.py:167-190 | `a,b` with digits and dots before the comma and digits after it is the exact decimal `digits(a without dots)·b` scaled by `10^-len(b)` |
| DataConversion.EuropeanDecimalValue | backend/app/services/data_conversion.py:54-140 | the same value through `convert_european_decimal` (e.g. "1.234.567,89" gives 1234567.89) |
| DataConversion.DirectFloat | backend/app/services/data_conversion.py:112-137 | a direct `float()` branch succeeds iff `float()` reads the text, and otherwise raises `DataValidationError` |
| DataConversion.ConvertImpressionGoal | backend/app/services/data_conversion.py:204-297 | accepted iff the input is a string whose trimmed text is all digits with a value in 1..2000000000; the result is that value; a range error occurs only for digit strings |
| DataConversion.GoalOfText | backend/app/services/data_conversion.py:243-297 | past the emptiness check: accepted iff digit string and in range; fails with a data or business-rule error |
| DataConversion.GoalInRange | backend/app/services/data_conversion.py:270-297 | the range check passes its value iff 1 <= value <= 2000000000, else `BusinessRuleError` |
| DataConversion.GoalFormatError | backend/app/services/data_conversion.py:246-255 | a non-blank text that is not all digits gets the "must be integer value" `DataValidationError` |
| DataConversion.GoalSignOrDotRejected | backend/app/services/data_conversion.py:246-255 | "-1000", "+5" and "1.000.000" are format errors, never range errors |
| DataConversion.GoalOfNumber | backend/app/services/data_conversion.py:257-297 | the decimal text of n is accepted iff n is in range, giving n back, and is otherwise a business-rule error |
| DataConversion.ValidateNumericRange | backend/app/services/data_conversion.py:300-347 | True iff min <= value <= max (an infinite max allowed); otherwise `BusinessRuleError`, with the "below minimum" message when below |
| DataConversion.ConvertNonNegative | backend/app/services/data_conversion.py:370-389 | budget/CPM: the conversion's value if it is >= 0; a conversion error passes through; a negative value is a business-rule error |
| DataConversion.EuropeanAmountAccepted | backend/app/services/data_conversion.py:370-389 | European amounts are accepted as budget and CPM with their exact value |
| DataConversion.NegativeRejected | backend/app/services/data_conversion.py:377 | a negative converted value never passes as budget or CPM |
| DataConversion.ConvertAllErrSticky | backend/app/services/data_conversion.py:363-366 | once a prefix of the batch fails, the whole batch fails with that error |
| DataConversion.ConvertAllOk | backend/app/services/data_conversion.py:363-366 | the batch succeeds iff every element converts; the result then has the same length and is element-wise the single conversion |
| DataConversion.ConvertAllFirstError | backend/app/services/data_conversion.py:363-366 | a failing batch raises the error of its first failing element |
| DataConversion.ConvertEach | backend/app/services/data_conversion.py:363-366 | the append loop computes the batch conversion |
| DataConversion.ConvertBatchEuropeanDecimal | backend/app/services/data_conversion.py:350-366 | `convert_batch_european_decimal` is the batch of `convert_european_decimal` |
| RuntimeParser.CreateDate | backend/app/services/runtime_parser.py:205-214 | succeeds iff day/month/year form a valid Gregorian date, returning it; else `ValueError` |
| RuntimeParser.CreateDateOf | backend/app/services/runtime_parser.py:138-150 | the groups of a date text give a date iff that date is valid |
| RuntimeParser.DateTextRoundTrip | backend/app/services/runtime_parser.py:60-61 | every valid date has a `DD.MM.YYYY` text that the pattern's groups read back as the same date |
| RuntimeParser.ParseAsapFormat | backend/app/services/runtime_parser.py:129-158 | accepted iff the date exists: no start, that end, running iff end >= current; otherwise `RuntimeParsingError` |
| RuntimeParser.ParseStandardFormat | backend/app/services/runtime_parser.py:161-202 | accepted iff both dates exist and start < end; a business-rule error exactly when both exist and end <= start |
| RuntimeParser.StandardDateError | backend/app/services/runtime_parser.py:170-183 | a nonexistent date of the range shape is a `RuntimeParsingError` |
| RuntimeParser.OrderError | backend/app/services/runtime_parser.py:186-197 | the end-after-start violation is a `BusinessRuleError` |
| RuntimeParser.Parse | backend/app/services/runtime_parser.py:64-126 | a non-string raises `TypeError`; the trimmed text goes to the ASAP or range parser when it matches; any other text is a `RuntimeParsingError` |
| RuntimeParser.ParseRejectsBadInput | backend/app/services/runtime_parser.py:86-100 | a non-string raises `TypeError`; blank text raises `RuntimeParsingError` |
| RuntimeParser.OtherShapesRejected | backend/app/services/runtime_parser.py:116-126 | text in neither shape is refused, with both accepted patterns in the details |
| RuntimeParser.CalendarErrorIsParsingError | backend/app/services/runtime_parser.py:138-150 | a calendar-invalid date in either shape is a parsing error, never a business-rule error |
| RuntimeParser.AsapRoundTrip | backend/app/services/runtime_parser.py:107-109 | `ASAP-` plus any valid date's text parses to no start, that end, and running iff end >= current |
| RuntimeParser.StandardRoundTrip | backend/app/services/runtime_parser.py:112-114 | two valid dates' texts joined by `-` are accepted iff start < end, giving exactly those dates |
| RuntimeParser.EqualDatesRejected | backend/app/services/runtime_parser.py:186 | equal start and end dates are a business-rule error |
| RuntimeParser.SpacedHyphenRejected | backend/app/services/runtime_parser.py:116-126 | `"DD.MM.YYYY - DD.MM.YYYY"` with spaces is a parsing error |
| RuntimeParser.ValidateRuntimeFormat | backend/app/services/runtime_parser.py:253-267 | true iff the input is a string whose trimmed text matches one of the two patterns |
| RuntimeParser.ParsedHasValidFormat | backend/app/services/runtime_parser.py:253-267 | whatever `parse` accepts passes the format check |
| RuntimeParser.FormatIgnoresCalendar | backend/app/services/runtime_parser.py:262-267 | a well-shaped impossible date passes the format check but fails `parse` |
| RuntimeParser.IsCampaignCompleted | backend/app/services/runtime_parser.py:217-235 | a parse error is re-raised, not turned into False |
| RuntimeParser.CompletedIffEnded | backend/app/services/runtime_parser.py:229-231 | a parsed runtime is completed iff its end date is before the reference date |
| RuntimeParser.ExtractDateRange | backend/app/services/runtime_parser.py:238-250 | succeeds iff `parse` does, returning its start and end |
| RuntimeParser.GetCampaignDurationDays | backend/app/services/runtime_parser.py:270-288 | a parse error is re-raised; a duration, when present, is at least 2 |
| RuntimeParser.DurationOf | backend/app/services/runtime_parser.py:281-286 | no duration exactly for ASAP runtimes; otherwise at least 2 days |
| RuntimeParser.ParsedInOrder | backend/app/services/runtime_parser.py:186-197 | a parsed start date always lies strictly before the end date |
| RuntimeParser.DurationOfParsed | backend/app/services/runtime_parser.py:281-286 | the duration is None for ASAP and otherwise (end - start) + 1 days |
| RuntimeParser.ToDict | backend/app/services/runtime_parser.py:39-45 | the three keys, start `None` for ASAP |
| RuntimeParser.ParseRuntime | backend/app/services/runtime_parser.py:292-299 | succeeds iff `parse` does, returning its dictionary |
| CampaignClassifier.Classify | backend/app/services/campaign_classifier.py:63-107 | `None` raises `ClassificationError` and a non-string raises `TypeError`; otherwise "campaign" iff the buyer is exactly "Not set", always with confidence 1.0 |
| CampaignClassifier.IsCampaign | backend/app/services/campaign_classifier.py:110-126 | never raises; true iff the buyer is the string "Not set" |
| CampaignClassifier.DealComplement | backend/app/services/campaign_classifier.py:129-141 | `is_deal` is the negation of `is_campaign`, so `None` is a deal |
| CampaignClassifier.VariantsAreDeals | backend/app/services/campaign_classifier.py:95-107 | any other string, case or whitespace variants included, is classified as a deal |
| CampaignClassifier.GetClassificationReasoning | backend/app/services/campaign_classifier.py:144-160 | the reasoning of `classify`, or "Classification error: " and the message |
| CampaignClassifier.ValidateBuyerFormat | backend/app/services/campaign_classifier.py:163-181 | true iff the buyer is a string |
| CampaignClassifier.FormatMeansClassifiable | backend/app/services/campaign_classifier.py:163-181 | the buyers with a valid format are exactly the ones `classify` accepts |
| CampaignClassifier.ClassifyBuyer | backend/app/services/campaign_classifier.py:233-240 | succeeds iff the buyer is a string; "campaign" iff `is_campaign` |
| CampaignClassifier.PercentagesAddUp | backend/app/services/campaign_classifier.py:220-229 | campaign and deal percentages add up to 100 for a non-empty list |
| CampaignClassifier.GetCampaignStatistics | backend/app/services/campaign_classifier.py:184-229 | total = list length; campaigns = the number of "Not set" entries; campaigns + deals = total; no invalid entries; percentages of the total, 0 for an empty list |
| BusinessConstants.IsCampaignBuyer | backend/app/constants/business.py:31-66 | false for `None`; otherwise true iff `str()` of the value is exactly "Not set" |
| BusinessConstants.ConstantIsCampaign | backend/app/constants/business.py:28 | `is_campaign_buyer(CAMPAIGN_BUYER_VALUE)` holds |
| BusinessConstants.StringBuyer | backend/app/constants/business.py:65-66 | for strings the test is plain equality: no case folding, no trimming |
| BusinessConstants.BuiltinNeverCampaign | backend/app/constants/business.py:57-61 | numbers, booleans, dates and lists are never campaign buyers |
| BusinessConstants.Constants.SetAttr | backend/app/constants/business.py:13-16 | assigning an existing upper-case name raises `AttributeError` and changes nothing; any other assignment is stored; the marker stays "Not set" |
| Exceptions.CodeFor | backend/app/exceptions.py:59-68 | a generated code starts with its class prefix and has at least three digits |
| Exceptions.CodeNumberOfCode | backend/app/exceptions.py:66-68 | the counter value can be read back from a generated code |
| Exceptions.PrefixTag | backend/app/exceptions.py:136-138 | the tag after `PPV_` identifies the class |
| Exceptions.CodeForInjective | backend/app/exceptions.py:128-197 | generated codes of different classes or different counter values never collide |
| Exceptions.ErrorCodes.NextCode | backend/app/exceptions.py:59-68 | bumps the class's own counter by one, leaves the others, and returns the code for the new value |
| Exceptions.ErrorCodes.Raise | backend/app/exceptions.py:44-57 | a supplied error code is kept, only a missing one is generated; details default to the empty map |
| Exceptions.ErrorCodes.Stamp | backend/app/exceptions.py:44-57 | raising a service's exception stamps it with the class's next code |
| Exceptions.GetService | backend/app/exceptions.py:70-77 | the value stored under `"service"` when the key is present, `None` when it is absent |
| Exceptions.GetContext | backend/app/exceptions.py:79-86 | a copy with the same keys and values as the details |
| Exceptions.ClassNameInjective | backend/app/exceptions.py:97-110 | distinct classes have distinct names |
| Exceptions.ToDictInjective | backend/app/exceptions.py:97-110 | `to_dict()` loses nothing: equal records mean equal exceptions |
| Exceptions.DataValidationDetails | backend/app/exceptions.py:227-253 | only the supplied keys are included; `input_value` is stringified |
| Exceptions.RuntimeParsingDetails | backend/app/exceptions.py:256-278 | each key is present iff its value is truthy |
| Exceptions.BusinessRuleDetails | backend/app/exceptions.py:281-309 | `business_rule` is always set (the rule or "unknown"); the other keys only when given |
| Exceptions.BusinessDetailsAreViolation | backend/app/exceptions.py:88-95 | the business-rule details make `is_business_rule_violation()` true for any class |
| Exceptions.CreateDataValidationError | backend/app/exceptions.py:227-253 | raises `DataValidationError` with those details; the data counter rises by exactly one and the code is its new value; no other counter moves, and none moves when building the details fails |
| Exceptions.CreateRuntimeParsingError | backend/app/exceptions.py:256-278 | raises `RuntimeParsingError` with those details; the runtime counter rises by exactly one and the code is its new value; no other counter moves |
| Exceptions.CreateBusinessRuleError | backend/app/exceptions.py:281-309 | raises `BusinessRuleError` with those details; the business counter rises by exactly one and the code is its new value; no other counter moves; it is always a business-rule violation |
| CampaignDataValidator.ValidateUuid | backend/app/validators/campaign_data_validator.py:26-58 | fails in order: None, non-string, blank, unparseable; otherwise returns the canonical form of the parsed UUID |
| CampaignDataValidator.UuidCanonicalUnchanged | backend/app/validators/campaign_data_validator.py:44-58 | a canonical lower-case UUID passes unchanged |
| CampaignDataValidator.UuidIdempotent | backend/app/validators/campaign_data_validator.py:44-58 | validating the result again gives the same result |
| CampaignDataValidator.ValidatePositiveNumber | backend/app/validators/campaign_data_validator.py:61-89 | fails on None, non-number or <= 0 with the field name in the message; otherwise the input unchanged |
| CampaignDataValidator.ValidateNonEmptyString | backend/app/validators/campaign_data_validator.py:92-120 | fails on None, non-string or whitespace-only; otherwise the input unchanged and untrimmed |
| CampaignDataValidator.ValidateRequiredField | backend/app/validators/campaign_data_validator.py:123-145 | fails only on None, with "<field> field is required"; otherwise the identity |
| CampaignDataValidator.ChecksIdempotent | backend/app/validators/campaign_data_validator.py:61-145 | a value that passed a check passes it again unchanged |
| CampaignDataValidator.ValidateEmailFormat | backend/app/validators/campaign_data_validator.py:160-169 | accepted unchanged iff it contains `@` |
| CampaignDataValidator.ValidatePercentageRange | backend/app/validators/campaign_data_validator.py:172-182 | accepted unchanged iff a number in [0, 100] |
| CampaignDataValidator.ValidateDateRange | backend/app/validators/campaign_data_validator.py:185-193 | fails iff both bounds are present and start > end |
| CampaignDataValidator.EqualDatesAllowed | backend/app/validators/campaign_data_validator.py:185-193 | equal bounds are a valid range |
| CampaignDataCleaner.Corrected | backend/app/validators/campaign_data_cleaner.py:26-64 | no `cmp_eur` remains; a `cmp_eur` value moves to `cpm_eur`, overwriting it; without `cmp_eur` the result equals the input; other keys are untouched |
| CampaignDataCleaner.CorrectedIdempotent | backend/app/validators/campaign_data_cleaner.py:52-54 | correcting twice changes nothing more |
| CampaignDataCleaner.RenameAllSpec | backend/app/validators/campaign_data_cleaner.py:90-112 | after the renames, each key holds the value its last present source gave it; source keys are gone; other keys keep their values |
| CampaignDataCleaner.FieldMappingsWellFormed | backend/app/validators/campaign_data_cleaner.py:90-102 | the mapping table's sources are distinct and never targets |
| CampaignDataCleaner.NormalizeFieldNames | backend/app/validators/campaign_data_cleaner.py:67-114 | the rename loop computes the renames of the mapping table in order |
| CampaignDataCleaner.NormalizedShape | backend/app/validators/campaign_data_cleaner.py:104-112 | no source name remains, and every other key holds its expected value |
| CampaignDataCleaner.Cleaned | backend/app/validators/campaign_data_cleaner.py:137-141 | same keys; only the four text fields holding strings are trimmed |
| CampaignDataCleaner.TrimFields | backend/app/validators/campaign_data_cleaner.py:137-141 | the trimming loop leaves every key trimmed iff it is one of the fields and holds a string |
| CampaignDataCleaner.CleanStringFields | backend/app/validators/campaign_data_cleaner.py:117-143 | `clean_string_fields` computes `Cleaned` |
| CampaignDataCleaner.CleanedChangesOnlyText | backend/app/validators/campaign_data_cleaner.py:137-141 | a changed value is one of the four fields, held a string, and is now trimmed |
| CampaignDataCleaner.CleanedIdempotent | backend/app/validators/campaign_data_cleaner.py:137-141 | trimming twice changes nothing more |
| CampaignDataCleaner.ApplyAllCleaning | backend/app/validators/campaign_data_cleaner.py:146-178 | corrections, then renames, then trims |
| CampaignDataCleaner.IdentifyEmptyFields | backend/app/validators/campaign_data_cleaner.py:228-253 | exactly the keys whose value is None or a whitespace-only string, each once |
| CampaignDataCleaner.VariationsExact | backend/app/validators/campaign_data_cleaner.py:215-223 | each name sits in the group of its lower-cased base name without `_` and spaces, and only there |
| CampaignDataCleaner.AnalyzeFieldVariations | backend/app/validators/campaign_data_cleaner.py:194-225 | the nested loops compute the grouping of every key of every record |
| CampaignDataCleaner.AddFieldNames | backend/app/validators/campaign_data_cleaner.py:215-223 | one record's keys join their groups |
| ModelBase.ValidateUuid | backend/app/models/base.py:81-105 | falsiness is checked before type, so None, "", 0 and [] give "UUID cannot be empty"; otherwise a string that parses gives its canonical form, else "Invalid UUID format" |
| ModelBase.FalsyUuidIsEmpty | backend/app/models/base.py:94-95 | None, "", 0 and [] all give "UUID cannot be empty" |
| ModelBase.UuidCanonicalUnchanged | backend/app/models/base.py:98-103 | a canonical UUID comes back unchanged |
| ModelBase.ValidatePositiveValue | backend/app/models/base.py:125-141 | returns v iff v > 0, else "<field> must be positive, got: v"; a non-number is the `TypeError` of the `<=` comparison, naming the interpreter's type name |
| ModelBase.DateNotPositive | backend/app/models/base.py:139 | a date given as a value is refused with "'<=' not supported between instances of 'datetime.date' and 'int'" |
| ModelBase.ValidateImpressionGoalRange | backend/app/models/base.py:143-168 | accepts an int (bools included) in [1, 2000000000] unchanged; the three error messages otherwise |
| ModelBase.GoalBounds | backend/app/models/base.py:159-168 | 1 and 2000000000 are accepted; 0, 2000000001 and every float refused |
| ModelBase.ValidateDateLogic | backend/app/models/base.py:170-185 | a missing end is an error; otherwise accepted iff no start or start <= end |
| ModelBase.DateLogicAllowsEqualAndAsap | backend/app/models/base.py:181-185 | start = end and a missing start are both accepted |
| ModelBase.Record.UpdateFromDict | backend/app/models/base.py:55-64 | existing attributes take the new value; unknown keys are skipped |
| ModelBase.UpdateShape | backend/app/models/base.py:62-64 | no attribute is added, untouched ones keep their value, and a second identical update changes nothing |
| CampaignModel.ParseGermanDate | backend/app/models/campaign.py:145-161 | every failure is the "Invalid German date format" error; a success split the trimmed text into three parts |
| CampaignModel.GermanFromParts | backend/app/models/campaign.py:157-159 | three integer parts give a date iff `date()` accepts them |
| CampaignModel.GermanDateText | backend/app/models/campaign.py:145-161 | a padded `DD.MM.YYYY` text reads back as its date |
| CampaignModel.GermanDateUnpadded | backend/app/models/campaign.py:157-158 | unpadded days and months are accepted too |
| CampaignModel.ParseRuntimeDates | backend/app/models/campaign.py:116-143 | accepted iff the dates read and pass `validate_date_logic`; every failure is "Error parsing runtime '<text>': ..." |
| CampaignModel.RangeRead | backend/app/models/campaign.py:131-135 | a range is split at its first hyphen, both halves read as dates |
| CampaignModel.SpacedRangeAccepted | backend/app/models/campaign.py:131-135 | spaces around the hyphen are accepted here |
| CampaignModel.EqualDatesAccepted | backend/app/models/campaign.py:139-140 | a start equal to the end is accepted |
| CampaignModel.StrictRangeAccepted | backend/app/models/campaign.py:131-140 | the strict range shape is read as the same dates whenever start <= end |
| CampaignModel.StrictAsapAccepted | backend/app/models/campaign.py:126-130 | the strict ASAP shape is read the same: no start and that end |
| CampaignModel.AsapAccepted | backend/app/models/campaign.py:126-130 | `ASAP-` and a date read as no start and that end |
| CampaignModel.OtherShapeRejected | backend/app/models/campaign.py:136-137 | any other shape names itself in the error |
| CampaignModel.InitErrorIffRejected | backend/app/models/campaign.py:76-114 | the order of the checks decides only which error is raised, not whether one is |
| CampaignModel.NumberErrorIff | backend/app/models/campaign.py:77-93 | the numeric checks fail iff some individual check fails |
| CampaignModel.TextErrorIff | backend/app/models/campaign.py:96-107 | the text checks fail iff some individual check fails |
| CampaignModel.Init | backend/app/models/campaign.py:66-114 | accepted iff every check passes; the error is the first failing check; on success the attributes are `Fields` |
| CampaignModel.InitStoresValues | backend/app/models/campaign.py:110 | every column other than the id, `cpm_eur` and the three runtime-derived ones is stored as given |
| CampaignModel.InitPrintsId | backend/app/models/campaign.py:77-78 | the id is stored in its canonical printed form |
| CampaignModel.InitMovesCmp | backend/app/models/campaign.py:92-93 | a `cmp_eur` value ends up under `cpm_eur` |
| CampaignModel.InitParsesRuntime | backend/app/models/campaign.py:99-114 | the runtime is parsed into the stored start and end, and `is_running` is end > today |
| CampaignModel.EndingTodayNotRunning | backend/app/models/campaign.py:163-178 | a campaign ending today is not running, although the strict parser calls it running |
| CampaignModel.InitChecksIdFirst | backend/app/models/campaign.py:77-78 | a bad id is reported before anything else |
| CampaignModel.CmpAloneIsKeyError | backend/app/models/campaign.py:88-89 | `cmp_eur` without `cpm_eur` raises `KeyError('cpm_eur')` once the earlier checks pass |
| CampaignModel.CmpValueUnchecked | backend/app/models/campaign.py:88-93 | a negative `cmp_eur` value is accepted and stored as the CPM |
| CampaignModel.DirectCpmUnchecked | backend/app/models/campaign.py:84-93 | a negative `cpm_eur` given directly is accepted and stored |
| CampaignModel.CheckNumbers | backend/app/models/campaign.py:77-93 | the in-place id, goal, budget and CPM steps fail exactly as `NumberError` says, and otherwise print the id and move `cmp_eur` |
| CampaignModel.CheckTexts | backend/app/models/campaign.py:96-107 | the name, runtime and buyer steps fail exactly as `TextError` says, and otherwise add the parsed dates |
| CampaignModel.NewCampaign | backend/app/models/campaign.py:66-114 | fails iff a check fails, with the first error; otherwise a fresh instance holding `Fields` |
| CampaignModel.Campaign.UpdateDeliveredImpressions | backend/app/models/campaign.py:233-243 | refuses a negative or non-numeric count and changes nothing then; otherwise changes only `delivered_impressions` |
| CampaignModel.DeliveredError | backend/app/models/campaign.py:240-241 | no error iff the count is a number >= 0 |
| CampaignModel.EntityType | backend/app/models/campaign.py:181-192 | always "campaign" or "deal" |
| CampaignModel.EntityTypeMatchesClassifier | backend/app/models/campaign.py:192 | "campaign" iff the classifier's `is_campaign`; a `None` buyer is a deal here although `classify` raises |
| CampaignModel.FulfillmentPercentage | backend/app/models/campaign.py:195-210 | None when delivered or goal are missing or the goal is 0; otherwise delivered / goal × 100 |
| CampaignModel.FulfillmentOfNumbers | backend/app/models/campaign.py:204-210 | with numbers and a non-zero goal, the percentage of the goal delivered |
| CampaignModel.IsOverDelivered | backend/app/models/campaign.py:213-221 | true iff the fulfillment exists and exceeds 100 |
| CampaignModel.OverDeliveredIffAboveGoal | backend/app/models/campaign.py:213-221 | with a positive goal: over-delivered iff delivered > goal |
| CampaignModel.FulfillmentAfterUpdate | backend/app/models/campaign.py:233-243 | after an update, the fulfillment is the new count's percentage of the goal, never negative for a positive goal |
| CampaignModel.UploadSession.MarkProcessingStarted | backend/app/models/campaign.py:304-307 | status "processing" with the start time; nothing else changes |
| CampaignModel.UploadSession.MarkCompleted | backend/app/models/campaign.py:309-315 | status "completed", the end time and the three counts |
| CampaignModel.UploadSession.MarkFailed | backend/app/models/campaign.py:317-321 | status "failed", the end time and the message; the counts are untouched |
| RefactoredConstructor.RuntimeStep | backend/app/models/campaign_refactored_constructor.py:79-105 | accepted iff the runtime is non-blank and `RuntimeParser.parse` accepts it, giving its dates; a later failure is wrapped with the runtime text |
| RefactoredConstructor.ParsedDatesInOrder | backend/app/models/campaign_refactored_constructor.py:97-101 | the date-logic check after a successful parse can never fail |
| RefactoredConstructor.CheckAll | backend/app/models/campaign_refactored_constructor.py:46-109 | fails iff `RefactoredError`, with that error; otherwise the corrected, validated keywords |
| RefactoredConstructor.CheckValues | backend/app/models/campaign_refactored_constructor.py:53-71 | the id and amount steps fail as `ValuesError` says, and otherwise print the id |
| RefactoredConstructor.CheckAmounts | backend/app/models/campaign_refactored_constructor.py:57-71 | the budget, CPM and goal steps fail as `AmountsError` says, and otherwise leave the keywords unchanged |
| RefactoredConstructor.CheckTexts | backend/app/models/campaign_refactored_constructor.py:74-109 | the name, runtime and buyer steps fail as `TextsError` says, and otherwise add the dates |
| RefactoredConstructor.CheckDates | backend/app/models/campaign_refactored_constructor.py:79-109 | the runtime and buyer steps fail as `DatesError` says, and otherwise add the dates |
| RefactoredConstructor.RefactoredInit | backend/app/models/campaign_refactored_constructor.py:26-118 | on an error the instance is untouched; otherwise every cleaned key is set and `is_running` comes from a truthy end |
| RefactoredConstructor.SetAll | backend/app/models/campaign_refactored_constructor.py:113-114 | every key of the dictionary becomes an attribute |
| RefactoredConstructor.AgreesWithInit | backend/app/models/campaign_refactored_constructor.py:26-118 | for inputs both constructors accept, where both runtime parsers agree, the attributes equal those of `Campaign.__init__` |
| RefactoredConstructor.StrictRangeAgrees | backend/app/models/campaign_refactored_constructor.py:86-95 | both constructors read the strict range shape as the same dates when start < end |
| RefactoredConstructor.StrictAsapAgrees | backend/app/models/campaign_refactored_constructor.py:86-95 | both read the strict ASAP shape as the same end date |
| RefactoredConstructor.EqualDatesDiverge | backend/app/models/campaign_refactored_constructor.py:84-105 | equal dates: `Campaign.__init__` accepts them, the refactored constructor raises |
| RefactoredConstructor.CmpCheckedAndMoved | backend/app/models/campaign_refactored_constructor.py:46-65 | a `cmp_eur` value is checked as the CPM and stored under `cpm_eur` |
| RefactoredConstructor.DirectCpmChecked | backend/app/models/campaign_refactored_constructor.py:62-65 | a non-positive `cpm_eur` given directly is refused with the validator's message |
| Upload.FieldOfHeader | backend/app/api/upload.py:150-167 | a cleaned header maps only to a required field |
| Upload.HeaderField | backend/app/api/upload.py:148-150 | empty headers are ignored |
| Upload.ExtractHeaders | backend/app/api/upload.py:135-169 | the header loop computes the mapping of the header row |
| Upload.LastColumnWins | backend/app/api/upload.py:147-167 | a field is mapped iff some column names it, and then to the last such column |
| Upload.HeadersLastWins | backend/app/api/upload.py:135-169 | `_extract_headers` maps only model fields, each to the last column whose header names it |
| Upload.HeaderNormalised | backend/app/api/upload.py:150 | headers are compared trimmed and lower-cased |
| Upload.BareNameIgnored | backend/app/api/upload.py:156-157 | a bare "name" header is ignored |
| Upload.IdRuleFirst | backend/app/api/upload.py:154-155 | the id rule comes first and matches "id" anywhere ("paid budget" is taken for the id) |
| Upload.BudgetHeader | backend/app/api/upload.py:162-163 | "budget" maps to `budget_eur` |
| Upload.CpmHeader | backend/app/api/upload.py:164-165 | "cpm" maps to `cpm_eur` |
| Upload.ReadRaw | backend/app/api/upload.py:188-191 | only mapped columns inside the row are read |
| Upload.MissingFrom | backend/app/api/upload.py:194-195 | exactly the required fields absent or `None`, in required-field order |
| Upload.NoneMissingIffComplete | backend/app/api/upload.py:195-198 | nothing missing iff every required field is present and not `None` |
| Upload.MissingNameMessage | backend/app/api/upload.py:198 | a row without its name reports "Missing required fields: ['name']" |
| Upload.ProcessRow | backend/app/api/upload.py:171-233 | `_process_row`, with the runtime call corrected |
| Upload.ConversionErrorsPassThrough | backend/app/api/upload.py:232-233 | no conversion step raises a `ValueError`, so errors pass the `except` unwrapped |
| Upload.GoalMeaning | backend/app/api/upload.py:212 | an accepted goal cell is all digits, in range, and gives its value |
| Upload.OutputShape | backend/app/api/upload.py:201-230 | the row dictionary has the nine keys and the trimmed id |
| Upload.OutputDates | backend/app/api/upload.py:224-225 | the stored dates are the parser's; the start is `None` for ASAP |
| Upload.RowShape | backend/app/api/upload.py:183-233 | a row is skipped iff all its cells are falsy; a missing field gives the missing-fields error; other failures are the converter's or parser's own error; a yielded row is a campaign dictionary |
| Upload.CompleteRowYields | backend/app/api/upload.py:201-230 | a complete row whose amounts convert and whose runtime parses yields the campaign built from them |
| Upload.RowAsWrittenNeverYields | backend/app/api/upload.py:221 | as written, only blank rows succeed; a complete, convertible row fails with `AttributeError` |
| Upload.ContextOf | backend/app/api/upload.py:108 | at most the first five non-`None` cells, in order |
| Upload.SheetWith | backend/app/api/upload.py:95-112 | campaigns plus errors never exceed the rows; error rows are numbered from 2, increasing, with at most five cells |
| Upload.ProcessSheet | backend/app/api/upload.py:88-112 | the row loop computes the sheet's campaigns and errors and ends with row number = rows + 1 |
| Upload.RowStepShape | backend/app/api/upload.py:183-233 | a step skips exactly the blank rows |
| Upload.SheetPartition | backend/app/api/upload.py:95-112 | every non-blank row becomes one campaign or one error; every campaign is a campaign dictionary |
| Upload.PartitionWith | backend/app/api/upload.py:95-112 | the same partition for any row step that skips exactly the blank rows and yields only campaign dictionaries |
| Upload.SheetConstructible | backend/app/api/upload.py:300-303 | every campaign yielded can be handed to `Campaign(**campaign_data)` |
| Upload.AsWrittenSheetFails | backend/app/api/upload.py:95-112 | as written, no campaign is yielded and each non-blank row is an error |
| Upload.PercentOf | backend/app/api/upload.py:119 | a share of a whole lies in [0, 100] and is 100 only for the whole |
| Upload.SummaryBounds | backend/app/api/upload.py:115-120 | total rows count every data row; successes + failures <= total; the rate is in [0, 100] and is 100 iff every row succeeded |
| Upload.ProcessXlsxFile | backend/app/api/upload.py:67-133 | an unreadable file is a 400 "XLSX file processing failed"; otherwise the sheet's campaigns, errors and summary |
| Upload.SaveOne | backend/app/api/upload.py:300-331 | commits iff the constructor accepts, the database commits and the id is new; the new id is the canonical form; every failure carries the campaign id |
| Upload.PersistOf | backend/app/api/upload.py:300-331 | ids plus errors = campaigns; the table holds exactly the old ids and the new ones; new ids are distinct and were not stored before |
| Upload.RecordedKeeps | backend/app/api/upload.py:310-330 | recording one outcome keeps the lists and the table consistent |
| Upload.PersistNext | backend/app/api/upload.py:300-331 | one more campaign records exactly its own outcome |
| Upload.SecondCopyIsDuplicate | backend/app/api/upload.py:313-320 | a second copy of a stored campaign is a duplicate error, and the table keeps the first |
| Upload.PersistAll | backend/app/api/upload.py:297-331 | the persistence loop leaves the table and lists `PersistOf` describes |
| Upload.ValidateFile | backend/app/api/upload.py:265-275 | accepted iff the name ends in `.xlsx` or `.XLSX` and a known size is <= 50 MB; a bad name is 400, an oversize file 413 |
| Upload.FileAccepted | backend/app/api/upload.py:265-271 | both spellings pass, and exactly 50 MB is allowed |
| Upload.FileTooLarge | backend/app/api/upload.py:271-275 | one byte over 50 MB is a 413 |
| Upload.MixedCaseRefused | backend/app/api/upload.py:265-269 | `.Xlsx` is refused with 400 |
| Upload.AllErrors | backend/app/api/upload.py:345 | row errors first, then persistence errors, nothing lost |
| Upload.Capped | backend/app/api/upload.py:365 | at most the first ten errors |
| Upload.Conclude | backend/app/api/upload.py:333-390 | the session's counts and error log, and the reply; a refusal ends the session "failed" with "HTTP validation error" |
| Upload.SaveAndConclude | backend/app/api/upload.py:296-390 | persistence followed by the session update and the reply |
| Upload.UploadCampaigns | backend/app/api/upload.py:236-390 | a bad file is refused with no session and no change; an unreadable workbook fails the session; otherwise the table, the session and the reply follow the run |
| Upload.ReplyFollowsCounts | backend/app/api/upload.py:351-384 | 201 iff successes and no failures, 207 iff both, 400 iff no successes; the body counts and caps the errors |
| Upload.TotalDoubleCounts | backend/app/api/upload.py:334-342 | successes + failures = non-blank rows, but the recorded total adds each persistence failure twice |
| Upload.AsWrittenUploadRefused | backend/app/api/upload.py:221 | as written, every readable workbook is refused with one error per non-blank row |

## Left out

- HTTP plumbing: FastAPI routing, `UploadFile.read`, `JSONResponse` and the CORS setup. A reply is a 201 body, a 207 body or an `HTTPException` (status, detail, header). `get_upload_status` is not modelled; it is a database lookup.
- The generic `except Exception` handler of `upload_campaigns` (500 "Campaign upload processing failed") is not modelled. Every failure the model can raise inside the `try` is an `HTTPException`.
- `upload_session.id` is not in the response. It is assigned by the database.
- The "details" text of a persistence error is not modelled: it is `str()` of a database exception.
- Workbook loading (`openpyxl`). The model is given the header row and the data rows, where an empty cell is `None`, or a reason the file could not be read.
- The database. Storage is the set of committed ids. A duplicate id is an `IntegrityError`. Any other failure of an insert comes from a `DbOutcome` oracle, since the driver is external.
- Commit and rollback of the session row itself are not modelled, since they are external.
- `json.dumps` is a parameter, `date.today()` and `datetime.utcnow()` are parameters, and logging is left out as a side effect.
- IEEE floats are modelled as exact decimals, so binary rounding and exponent notation are not modelled. `float()` is modelled only on ASCII digit and dot strings; `int()`, `isdigit` and the regular-expression class `\d` of the runtime patterns (backend/app/services/runtime_parser.py:60-61) only on ASCII digits.
- `uuid.UUID` after its length check calls `int(hex, 16)`, which also accepts a `0x` prefix, a sign, surrounding whitespace and `_` separators. The model demands 32 hex digits, so such texts (for example `"0x"` followed by 30 hex digits) are refused by the model and accepted by Python. `generate_uuid` is not modelled: it is randomness.
- BusinessConstants.Constants.SetAttr: `name.isupper()` is modelled on ASCII letters only. A re-assignment of an existing name whose cased letters are non-ASCII upper case (such as `"Ä"`) is refused by Python and stored by the model.
- CampaignDataCleaner.VariationsExact: the base name is lower-cased on ASCII letters only, so keys differing only in non-ASCII case (`"Ä"`/`"ä"`) fall into separate groups, where `str.lower` merges them.
- CampaignDataCleaner.AnalyzeFieldVariations: groups with ASCII-only lower-casing, as `VariationsExact` states (backend/app/validators/campaign_data_cleaner.py:218).
- CampaignDataCleaner.AddFieldNames: adds a record's keys to groups formed with ASCII-only lower-casing, as `VariationsExact` states.
- The `threading.Lock` of the error counters is left out: concurrency is out of scope.
- `OverflowError` from `date()` or `int()` on very large numbers is not modelled.
- `ClassificationResult.to_dict`, `BaseModel.to_dict`, `__repr__` and `get_fulfillment_status` are plain record conversions and are not modelled.
- `is_runtime_valid` is modelled as `RuntimeParser.IsRuntimeValid` without a contract of its own; it equals `validate_runtime_format`.
- The module-level examples at the ends of the validator and cleaner files, and `import_campaigns_from_xlsx`, are illustrative code and are not modelled.
- Python dicts are Dafny maps, so key order is lost. `IdentifyEmptyFields` returns its keys in an unspecified order.
- Upload.SaveOne: requires the campaign dictionary to have a string id and only model columns as keys (`Constructible`). `SheetConstructible` shows every dictionary the row loop yields meets this, so other dictionaries are not modelled.
- CampaignModel.Init: requires the keywords to be model columns (or `cmp_eur`). SQLAlchemy raises `TypeError` on unknown keywords, and that error is not modelled.
- Upload.ConversionErrorsPassThrough: the `"Data conversion failed:"` prefix is shown unreachable rather than modelled as a separate path, since no conversion step raises a `ValueError`.

## Findings

| source | as written | input that shows it | evidently intended | confidence | as-written member | corrected member |
|---|---|---|---|---|---|---|
| backend/app/api/upload.py:221 | `_process_row` calls `self.runtime_parser.parse_runtime`, but `RuntimeParser` has no such method; the function exists only at module level, so every complete row with convertible amounts fails with `AttributeError` | any non-blank row with all seven fields present and valid amounts; the whole upload is then refused with 400 | call the module-level `parse_runtime` (the `RuntimeParser.parse` result as a dictionary) | not executed | Upload.RowAsWrittenNeverYields, Upload.AsWrittenSheetFails, Upload.AsWrittenUploadRefused | Upload.CompleteRowYields, Upload.ProcessRow, Upload.RowShape |

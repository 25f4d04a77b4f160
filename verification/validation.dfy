/** The API-key form validator (dandi/utils/validation.ts). */
module Validation {
  import opened Wrappers
  import opened JsStrings
  import opened ApiKeyTypes

  /** The `ValidationError` the validator throws: a message safe to show to the user. */
  datatype ValidationError = ValidationError(message: string)

  const NameRequired: string := "Key name is required"
  const NameTooLong: string := "Key name must be less than 100 characters"
  const LimitOutOfRange: string := "Monthly usage limit must be between 1 and 1,000,000"

  const MaxNameLength: int := 100
  const MaxMonthlyUsageLimit: int := 1000000

  /**
   * The constraints a valid form meets, stated independently of the order of
   * the checks: a name that is not all whitespace and at most 100 code units
   * long, and, when the monthly limit is switched on, a limit in [1, 1000000].
   */
  predicate IsValidForm(formData: ApiKeyFormData) {
    && !AllWhitespace(formData.name)
    && |formData.name| <= MaxNameLength
    && (formData.limitMonthlyUsage ==> 1 <= formData.monthlyUsageLimit <= MaxMonthlyUsageLimit)
  }

  /**
   * `validateApiKeyForm`: three checks in order, the first failing one
   * throws. `!name` and `!monthlyUsageLimit` are JavaScript falsiness tests
   * (the empty string, the number 0).
   */
  function ValidateApiKeyForm(formData: ApiKeyFormData): (r: Outcome<ValidationError>)
    ensures r.Pass? <==> IsValidForm(formData)
    ensures r.Fail? ==> r.error.message in {NameRequired, NameTooLong, LimitOutOfRange}
  {
    if formData.name == "" || IsBlank(formData.name) then
      Fail(ValidationError(NameRequired))
    else if |formData.name| > MaxNameLength then
      Fail(ValidationError(NameTooLong))
    else if formData.limitMonthlyUsage
      && (formData.monthlyUsageLimit == 0
          || formData.monthlyUsageLimit < 1
          || formData.monthlyUsageLimit > MaxMonthlyUsageLimit) then
      Fail(ValidationError(LimitOutOfRange))
    else
      Pass
  }

  /** The "required" error is reported exactly for empty and whitespace-only names, whatever else is wrong. */
  lemma RequiredIffBlank(formData: ApiKeyFormData)
    ensures ValidateApiKeyForm(formData) == Fail(ValidationError(NameRequired))
        <==> AllWhitespace(formData.name)
  {
  }

  /** A non-blank name over 100 code units fails the length check, before the limit is looked at. */
  lemma LongNameFails(formData: ApiKeyFormData)
    requires !AllWhitespace(formData.name) && |formData.name| > MaxNameLength
    ensures ValidateApiKeyForm(formData) == Fail(ValidationError(NameTooLong))
  {
  }

  /** A non-blank name of exactly 100 code units passes the length check. */
  lemma HundredCharNamePassesLengthCheck(formData: ApiKeyFormData)
    requires !AllWhitespace(formData.name) && |formData.name| == MaxNameLength
    ensures ValidateApiKeyForm(formData) != Fail(ValidationError(NameTooLong))
    ensures formData.limitMonthlyUsage ==>
      (ValidateApiKeyForm(formData).Pass? <==> 1 <= formData.monthlyUsageLimit <= MaxMonthlyUsageLimit)
  {
  }

  /**
   * The length check counts the untrimmed name: a short name padded with
   * whitespace past 100 code units is rejected as too long.
   */
  lemma PaddingCountsTowardsLength(formData: ApiKeyFormData, core: string, padding: string)
    requires formData.name == core + padding
    requires !AllWhitespace(core) && AllWhitespace(padding)
    requires |core| <= MaxNameLength < |core| + |padding|
    ensures ValidateApiKeyForm(formData) == Fail(ValidationError(NameTooLong))
  {
    var i :| 0 <= i < |core| && !IsWhitespace(core[i]);
    assert formData.name[i] == core[i];
  }

  /** With the limit switched on and a good name, the limit fails exactly outside [1, 1000000]. */
  lemma LimitRange(formData: ApiKeyFormData)
    requires !AllWhitespace(formData.name) && |formData.name| <= MaxNameLength
    requires formData.limitMonthlyUsage
    ensures ValidateApiKeyForm(formData) == Fail(ValidationError(LimitOutOfRange))
        <==> formData.monthlyUsageLimit < 1 || formData.monthlyUsageLimit > MaxMonthlyUsageLimit
  {
  }

  /** With the limit switched off, the limit's value (0, negative, huge) never matters. */
  lemma LimitIgnoredWhenOff(formData: ApiKeyFormData, anyLimit: int)
    requires !formData.limitMonthlyUsage
    ensures ValidateApiKeyForm(formData.(monthlyUsageLimit := anyLimit)) == ValidateApiKeyForm(formData)
    ensures ValidateApiKeyForm(formData).Pass?
        <==> !AllWhitespace(formData.name) && |formData.name| <= MaxNameLength
  {
  }
}

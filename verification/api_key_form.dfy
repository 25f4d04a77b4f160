/**
 * The create/edit form state (hooks/use-api-key-form.ts): the form's fields,
 * the key being edited if any, a submitting flag and the last error
 * message. Submitting calls the service's `update` or `create` and then
 * either resets the form and notifies success, or keeps the input and
 * reports the error's message.
 */
module ApiKeyForm {
  import opened Wrappers
  import opened ApiKeyTypes
  import opened Validation
  import opened Generator
  import opened Transformer
  import opened Storage
  import opened Service

  /** The fields of an empty form: no name, a development key, no limit (1000 pre-filled), no PII restrictions. */
  /** The limit pre-filled in an empty form, and offered when the key being edited has none. */
  const DefaultMonthlyUsageLimit: int := 1000

  /** The fields of an empty form: no name, a development key, no limit (1000 pre-filled), no PII restrictions. */
  const DefaultFormData: ApiKeyFormData := ApiKeyFormData("", Dev, false, DefaultMonthlyUsageLimit, false)

  /** The message used when what was thrown is not an `Error`. */
  const SaveFailed: string := "Failed to save API key"

  /** The hook's whole state. */
  datatype FormState = FormState(
    formData: ApiKeyFormData,
    editingKey: Option<ApiKey>,
    isSubmitting: bool,
    error: Option<string>)

  /** The state after `resetForm`, with the submitting flag as it was. */
  function ResetState(s: FormState): (r: FormState)
    ensures r.formData == DefaultFormData && r.editingKey.None? && r.error.None?
    ensures r.isSubmitting == s.isSubmitting
  {
    FormState(DefaultFormData, None, s.isSubmitting, None)
  }

  /** One `updateFormField(field, value)` call: which field, and its new value. */
  datatype FieldUpdate =
    | SetName(name: string)
    | SetKeyType(keyType: ApiKeyType)
    | SetLimitMonthlyUsage(limit: bool)
    | SetMonthlyUsageLimit(amount: int)
    | SetPiiRestrictions(restricted: bool)

  /** The form with one field replaced and the other four as they were. */
  function WithField(f: ApiKeyFormData, u: FieldUpdate): (r: ApiKeyFormData)
    ensures r.name == (if u.SetName? then u.name else f.name)
    ensures r.keyType == (if u.SetKeyType? then u.keyType else f.keyType)
    ensures r.limitMonthlyUsage == (if u.SetLimitMonthlyUsage? then u.limit else f.limitMonthlyUsage)
    ensures r.monthlyUsageLimit == (if u.SetMonthlyUsageLimit? then u.amount else f.monthlyUsageLimit)
    ensures r.piiRestrictions == (if u.SetPiiRestrictions? then u.restricted else f.piiRestrictions)
  {
    match u
    case SetName(v) => f.(name := v)
    case SetKeyType(v) => f.(keyType := v)
    case SetLimitMonthlyUsage(v) => f.(limitMonthlyUsage := v)
    case SetMonthlyUsageLimit(v) => f.(monthlyUsageLimit := v)
    case SetPiiRestrictions(v) => f.(piiRestrictions := v)
  }

  /** Two edits of the same field: the last one wins. */
  lemma WithFieldLastWins(f: ApiKeyFormData, u1: FieldUpdate, u2: FieldUpdate)
    requires u1.SetName? == u2.SetName? && u1.SetKeyType? == u2.SetKeyType?
    requires u1.SetLimitMonthlyUsage? == u2.SetLimitMonthlyUsage? && u1.SetMonthlyUsageLimit? == u2.SetMonthlyUsageLimit?
    ensures WithField(WithField(f, u1), u2) == WithField(f, u2)
  {
  }

  /** The error after a field edit: a non-empty message is cleared, an empty one or none is left as it was. */
  function ErrorAfterEdit(error: Option<string>): (r: Option<string>)
    ensures r.None? || r == Some("")
    ensures error.Some? && error.value != "" ==> r.None?
    ensures error.None? || error == Some("") ==> r == error
  {
    if error.Some? && error.value != "" then None else error
  }

  /** The form that `initializeForm` fills from a key; a missing or zero limit shows as 1000. */
  function FormFromKey(key: ApiKey): (f: ApiKeyFormData)
    ensures f.name == key.name && f.keyType == key.keyType
    ensures f.limitMonthlyUsage == key.limitMonthlyUsage && f.piiRestrictions == key.piiRestrictions
    ensures f.monthlyUsageLimit != 0
    ensures key.monthlyUsageLimit.Some? && key.monthlyUsageLimit.value != 0 ==>
      f.monthlyUsageLimit == key.monthlyUsageLimit.value
    ensures key.monthlyUsageLimit.None? || key.monthlyUsageLimit == Some(0) ==>
      f.monthlyUsageLimit == DefaultMonthlyUsageLimit
  {
    var limit := if key.monthlyUsageLimit.Some? && key.monthlyUsageLimit.value != 0
      then key.monthlyUsageLimit.value else DefaultMonthlyUsageLimit;
    ApiKeyFormData(key.name, key.keyType, key.limitMonthlyUsage, limit, key.piiRestrictions)
  }

  /** A key's own valid fields make a valid form again once loaded for editing. */
  lemma EditingStoredKeyKeepsItValid(key: ApiKey)
    requires key.monthlyUsageLimit.Some?
    requires ValidateApiKeyForm(ApiKeyFormData(key.name, key.keyType, key.limitMonthlyUsage,
                                               key.monthlyUsageLimit.value, key.piiRestrictions)).Pass?
    ensures ValidateApiKeyForm(FormFromKey(key)).Pass?
  {
  }

  /** What reached the `catch` block. */
  datatype Caught = FromService(error: ServiceError) | OtherError(message: string) | NotAnError

  /** The message reported for what was thrown: an `Error`'s own message, else the generic one. */
  function SaveErrorMessage(t: Caught): (m: string)
    ensures t.FromService? ==> m == t.error.Message()
    ensures t.OtherError? ==> m == t.message
    ensures t.NotAnError? ==> m == SaveFailed
  {
    match t
    case FromService(Invalid(e)) => e.message
    case FromService(ApiKeyServiceError(message, _)) => message
    case OtherError(message) => message
    case NotAnError => SaveFailed
  }

  /** A notification the caller's options receive. */
  datatype Callback = OnSuccess | OnError(message: string)

  /** What `submitForm` ends with: the new state and the notifications, in order. */
  datatype Submitted = Submitted(state: FormState, calls: seq<Callback>)

  /** The service call `submitForm` makes: `update` of the edited key's id, or `create`. */
  function SaveOutcome(editingKey: Option<ApiKey>, formData: ApiKeyFormData, reply: WriteReply): (r: Outcome<ServiceError>)
    ensures r.Pass? <==>
      IsValidForm(formData) && reply == Written(None) && (editingKey.Some? ==> editingKey.value.id != "")
    ensures r.Fail? && r.error.Invalid? <==>
      !IsValidForm(formData) || (editingKey.Some? && editingKey.value.id == "")
  {
    if editingKey.Some? then UpdateOutcome(editingKey.value.id, formData, reply)
    else CreateOutcome(formData, reply)
  }

  /**
   * `submitForm` once the service has answered `outcome`. On success the
   * form is reset and `onSuccess` runs; `onSuccessThrows` is what that
   * callback throws, if anything, which lands in the same `catch`.
   */
  function SubmitEffect(s: FormState, outcome: Outcome<ServiceError>, onSuccessThrows: Option<Caught>): (r: Submitted)
    ensures !r.state.isSubmitting
    ensures outcome.Pass? ==>
      && r.state.formData == DefaultFormData && r.state.editingKey.None?
      && |r.calls| >= 1 && r.calls[0] == OnSuccess
      && (r.state.error.None? <==> onSuccessThrows.None?)
    ensures outcome.Fail? ==>
      && r.state.formData == s.formData && r.state.editingKey == s.editingKey
      && r.state.error == Some(outcome.error.Message())
      && r.calls == [OnError(outcome.error.Message())]
  {
    var started := s.(isSubmitting := true, error := None);
    var (state, calls, thrown) :=
      if outcome.Pass? then (ResetState(started), [OnSuccess], onSuccessThrows)
      else (started, [], Some(FromService(outcome.error)));
    if thrown.Some? then
      var m := SaveErrorMessage(thrown.value);
      Submitted(state.(isSubmitting := false, error := Some(m)), calls + [OnError(m)])
    else
      Submitted(state.(isSubmitting := false), calls)
  }

  /** Whatever happens, the form is no longer submitting afterwards. */
  lemma SubmitEndsIdle(s: FormState, outcome: Outcome<ServiceError>, onSuccessThrows: Option<Caught>)
    ensures !SubmitEffect(s, outcome, onSuccessThrows).state.isSubmitting
  {
  }

  /** A successful save clears the form, the edited key and the error, and notifies success once. */
  lemma SuccessResetsForm(s: FormState, onSuccessThrows: Option<Caught>)
    requires onSuccessThrows.None?
    ensures SubmitEffect(s, Pass, onSuccessThrows) == Submitted(FormState(DefaultFormData, None, false, None), [OnSuccess])
  {
  }

  /** A failed save keeps what the user typed and the key being edited, and reports the error's message once. */
  lemma FailureKeepsInput(s: FormState, e: ServiceError, onSuccessThrows: Option<Caught>)
    ensures var r := SubmitEffect(s, Fail(e), onSuccessThrows);
      && r.state == FormState(s.formData, s.editingKey, false, Some(e.Message()))
      && r.calls == [OnError(e.Message())]
  {
  }

  /** A throwing `onSuccess` leaves the form reset yet reports its message as an error after the success. */
  lemma ThrowingSuccessCallbackIsReported(s: FormState, t: Caught)
    ensures var r := SubmitEffect(s, Pass, Some(t));
      && r.state == FormState(DefaultFormData, None, false, Some(SaveErrorMessage(t)))
      && r.calls == [OnSuccess, OnError(SaveErrorMessage(t))]
  {
  }

  /** An invalid form is reported with the validator's message, whether creating or editing and whatever storage would have replied. */
  lemma InvalidFormReportsValidatorMessage(s: FormState, reply: WriteReply, onSuccessThrows: Option<Caught>)
    requires ValidateApiKeyForm(s.formData).Fail?
    ensures var r := SubmitEffect(s, SaveOutcome(s.editingKey, s.formData, reply), onSuccessThrows);
      && r.state.error == Some(ValidateApiKeyForm(s.formData).error.message)
      && r.state.formData == s.formData
      && r.calls == [OnError(ValidateApiKeyForm(s.formData).error.message)]
  {
  }

  /** The hook's state. */
  class FormHook {
    var formData: ApiKeyFormData
    var editingKey: Option<ApiKey>
    var isSubmitting: bool
    var error: Option<string>

    function State(): FormState
      reads this
    {
      FormState(formData, editingKey, isSubmitting, error)
    }

    /** An empty form, nothing edited, not submitting, no error. */
    constructor()
      ensures State() == FormState(DefaultFormData, None, false, None)
    {
      formData := DefaultFormData;
      editingKey := None;
      isSubmitting := false;
      error := None;
    }

    /** `resetForm`. */
    method ResetForm()
      modifies this
      ensures State() == ResetState(old(State()))
    {
      formData := DefaultFormData;
      editingKey := None;
      error := None;
    }

    /** `initializeForm`: start editing `key`, with its fields in the form and no error. */
    method InitializeForm(key: ApiKey)
      modifies this
      ensures State() == FormState(FormFromKey(key), Some(key), old(isSubmitting), None)
    {
      editingKey := Some(key);
      var limit := DefaultMonthlyUsageLimit;
      if key.monthlyUsageLimit.Some? && key.monthlyUsageLimit.value != 0 {
        limit := key.monthlyUsageLimit.value;
      }
      formData := ApiKeyFormData(key.name, key.keyType, key.limitMonthlyUsage, limit, key.piiRestrictions);
      error := None;
    }

    /** `updateFormField`: replace one field; clear the error if it holds a non-empty message. */
    method UpdateFormField(u: FieldUpdate)
      modifies this
      ensures State() == old(State()).(formData := WithField(old(formData), u), error := ErrorAfterEdit(old(error)))
    {
      formData := WithField(formData, u);
      if error.Some? && error.value != "" {
        error := None;
      }
    }

    /**
     * `submitForm` against `service`. `reply` is storage's answer to the
     * write; `picks`, `newId` and `createdAt` feed `create`; `onSuccessThrows`
     * is what the caller's `onSuccess` throws, if anything.
     */
    method SubmitForm(service: ApiKeyService, picks: seq<int>, reply: WriteReply, newId: string, createdAt: string,
                      onSuccessThrows: Option<Caught>)
      returns (calls: seq<Callback>)
      requires service.Valid() && ValidPicks(picks)
      requires editingKey.None? ==> newId !in service.table
      modifies this, service
      ensures service.Valid()
      ensures Submitted(State(), calls) ==
        SubmitEffect(old(State()), SaveOutcome(old(editingKey), old(formData), reply), onSuccessThrows)
      ensures service.requests == old(service.requests) +
      if old(editingKey).Some? then
        (if ValidateApiKeyForm(old(formData)).Fail? || old(editingKey).value.id == "" then []
         else [UpdateWhereId(old(editingKey).value.id, UpdatePayload(old(formData)))])
      else
        (if ValidateApiKeyForm(old(formData)).Fail? then []
         else [Insert(InsertPayload(old(formData), GeneratedKey(old(formData).keyType, picks)))])
    ensures var outcome := SaveOutcome(old(editingKey), old(formData), reply);
        service.table ==
          if outcome.Fail? then old(service.table)
          else if old(editingKey).Some? then
            UpdatedTable(old(service.table), old(editingKey).value.id, UpdatePayload(old(formData)))
          else
            old(service.table)[newId := StoredRow(InsertPayload(old(formData), GeneratedKey(old(formData).keyType, picks)), newId, createdAt)]
    {
      isSubmitting := true;
      error := None;
      var outcome;
      if editingKey.Some? {
        outcome := service.Update(editingKey.value.id, formData, reply);
      } else {
        outcome := service.Create(formData, picks, reply, newId, createdAt);
      }
      var thrown: Option<Caught>;
      if outcome.Pass? {
        ResetForm();
        calls := [OnSuccess];
        thrown := onSuccessThrows;
      } else {
        calls := [];
        thrown := Some(FromService(outcome.error));
      }
      if thrown.Some? {
        var m := SaveErrorMessage(thrown.value);
        error := Some(m);
        calls := calls + [OnError(m)];
      }
      isSubmitting := false;
    }
  }
}

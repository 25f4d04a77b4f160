/**
 * The API-key service (dandi/services/api-key-service.ts): validate, generate,
 * transform, write to the `api_keys` table, and turn every failure into one
 * of two error kinds.
 */
module Service {
  import opened Wrappers
  import opened ApiKeyTypes
  import opened Validation
  import opened Generator
  import opened Transformer
  import opened Storage

  /** What an `ApiKeyServiceError` carries as `originalError`. */
  datatype Cause = StorageFailure(error: StorageError) | Thrown(exception: Exception)

  /** The two error kinds the service throws. */
  datatype ServiceError =
    | Invalid(error: ValidationError)
    | ApiKeyServiceError(message: string, originalError: Cause)
  {
    function Message(): string {
      match this
      case Invalid(e) => e.message
      case ApiKeyServiceError(m, _) => m
    }
  }

  datatype Operation = FetchKeys | CreateKey | UpdateKey | DeleteKey

  /** What the operation does, as its messages name it. */
  function Subject(op: Operation): string {
    match op
    case FetchKeys => "fetch API keys"
    case CreateKey => "create API key"
    case UpdateKey => "update API key"
    case DeleteKey => "delete API key"
  }

  function Progressive(op: Operation): string {
    match op
    case FetchKeys => "fetching API keys"
    case CreateKey => "creating API key"
    case UpdateKey => "updating API key"
    case DeleteKey => "deleting API key"
  }

  /** A storage error reported in a reply: "Failed to <subject>: <message>", carrying the error. */
  function StorageFailureError(op: Operation, e: StorageError): ServiceError {
    ApiKeyServiceError("Failed to " + Subject(op) + ": " + e.message, StorageFailure(e))
  }

  /** Anything else thrown inside the operation, wrapped with a generic message. */
  function UnexpectedError(op: Operation, ex: Exception): ServiceError {
    ApiKeyServiceError("An unexpected error occurred while " + Progressive(op), Thrown(ex))
  }

  const IdRequired: string := "API key ID is required"

  /** What `toISOString` throws for a timestamp it cannot read. */
  const InvalidTimeValue: Exception := Exception("RangeError", "Invalid time value")

  /** The outcome of a write once its reply is in. */
  function WriteOutcome(op: Operation, reply: WriteReply): (r: Outcome<ServiceError>)
    ensures r.Pass? <==> reply == Written(None)
    ensures reply.Written? && reply.error.Some? ==> r == Fail(StorageFailureError(op, reply.error.value))
    ensures reply.WriteThrew? ==> r == Fail(UnexpectedError(op, reply.exception))
  {
    match reply
    case Written(None) => Pass
    case Written(Some(e)) => Fail(StorageFailureError(op, e))
    case WriteThrew(ex) => Fail(UnexpectedError(op, ex))
  }

  /** The columns `create` inserts: the form, the generated key and a zero usage; id and created_at are left to storage. */
  function InsertPayload(formData: ApiKeyFormData, key: string): (row: PartialRow)
    ensures Insertable(row)
    ensures row.id == None && row.created_at == None
    ensures row.key == Some(key) && row.usage == Some(0)
    ensures row.name == Some(formData.name) && row.keyType == Some(formData.keyType)
    ensures row.limit_monthly_usage == Some(formData.limitMonthlyUsage)
    ensures row.monthly_usage_limit == Some(formData.monthlyUsageLimit)
    ensures row.pii_restrictions == Some(formData.piiRestrictions)
  {
    ToDatabase(PartialApiKey(
      id := None,
      name := Some(formData.name),
      key := Some(key),
      keyType := Some(formData.keyType),
      usage := Some(0),
      monthlyUsageLimit := Some(formData.monthlyUsageLimit),
      limitMonthlyUsage := Some(formData.limitMonthlyUsage),
      piiRestrictions := Some(formData.piiRestrictions),
      createdAt := None))
  }

  /** The columns `update` writes: the five form fields, never key, usage, id or created_at. */
  function UpdatePayload(formData: ApiKeyFormData): (row: PartialRow)
    ensures row.id == None && row.created_at == None && row.key == None && row.usage == None
    ensures row.name == Some(formData.name) && row.keyType == Some(formData.keyType)
    ensures row.limit_monthly_usage == Some(formData.limitMonthlyUsage)
    ensures row.monthly_usage_limit == Some(formData.monthlyUsageLimit)
    ensures row.pii_restrictions == Some(formData.piiRestrictions)
  {
    ToDatabase(PartialApiKey(
      id := None,
      name := Some(formData.name),
      key := None,
      keyType := Some(formData.keyType),
      usage := None,
      monthlyUsageLimit := Some(formData.monthlyUsageLimit),
      limitMonthlyUsage := Some(formData.limitMonthlyUsage),
      piiRestrictions := Some(formData.piiRestrictions),
      createdAt := None))
  }

  /** `create`'s outcome: the form's validation error, or the insert's. */
  function CreateOutcome(formData: ApiKeyFormData, reply: WriteReply): (r: Outcome<ServiceError>)
    ensures r.Pass? <==> IsValidForm(formData) && reply == Written(None)
    ensures r.Fail? && r.error.Invalid? <==> !IsValidForm(formData)
  {
    match ValidateApiKeyForm(formData)
    case Fail(e) => Fail(Invalid(e))
    case Pass => WriteOutcome(CreateKey, reply)
  }

  /** `update`'s outcome: the form is validated before the id is checked. */
  function UpdateOutcome(id: string, formData: ApiKeyFormData, reply: WriteReply): (r: Outcome<ServiceError>)
    ensures r.Pass? <==> IsValidForm(formData) && id != "" && reply == Written(None)
    ensures r.Fail? && r.error.Invalid? <==> !IsValidForm(formData) || id == ""
  {
    match ValidateApiKeyForm(formData)
    case Fail(e) => Fail(Invalid(e))
    case Pass =>
      if id == "" then Fail(Invalid(ValidationError(IdRequired)))
      else WriteOutcome(UpdateKey, reply)
  }

  /** `delete`'s outcome. */
  function DeleteOutcome(id: string, reply: WriteReply): (r: Outcome<ServiceError>)
    ensures r.Pass? <==> id != "" && reply == Written(None)
    ensures r.Fail? && r.error.Invalid? <==> id == ""
  {
    if id == "" then Fail(Invalid(ValidationError(IdRequired)))
    else WriteOutcome(DeleteKey, reply)
  }

  /** The table after an update by id: the matching row, if any, takes the sent columns. */
  function UpdatedTable(table: map<string, DatabaseRow>, id: string, row: PartialRow): map<string, DatabaseRow> {
    if id in table then table[id := UpdatedRow(table[id], row)] else table
  }

  /** Every row is stored under its own id. */
  ghost predicate RowsUnderOwnId(table: map<string, DatabaseRow>) {
    forall id | id in table :: table[id].id == id
  }

  /**
   * `fetchAll`: a storage error or a thrown exception fails; otherwise the
   * rows (none when `data` is null) are transformed in the order storage
   * returned them. `isoDate` is the date portion of `toISOString`, `None`
   * where that throws; the first such row makes the whole fetch fail.
   */
  function FetchAllKeys(reply: SelectReply<seq<DatabaseRow>>, isoDate: string -> Option<string>)
    : (r: Result<seq<ApiKey>, ServiceError>)
    ensures reply.Selected? && reply.error.Some? ==> r == Failure(StorageFailureError(FetchKeys, reply.error.value))
    ensures reply.SelectThrew? ==> r == Failure(UnexpectedError(FetchKeys, reply.exception))
    ensures reply == Selected(None, None) ==> r == Success([])
    ensures reply.Selected? && reply.error.None? ==>
      var rows := reply.data.GetOr([]);
      && ((forall i | 0 <= i < |rows| :: isoDate(rows[i].created_at).Some?) ==> r.Success?)
      && ((exists i | 0 <= i < |rows| :: isoDate(rows[i].created_at).None?) ==>
            r == Failure(UnexpectedError(FetchKeys, InvalidTimeValue)))
    ensures r.Success? ==>
      && reply.Selected? && reply.error.None?
      && |r.value| == |reply.data.GetOr([])|
      && forall i | 0 <= i < |r.value| ::
           var row := reply.data.GetOr([])[i];
           isoDate(row.created_at).Some? && r.value[i] == FromDatabase(row, isoDate(row.created_at).value)
  {
    match reply
    case SelectThrew(ex) => Failure(UnexpectedError(FetchKeys, ex))
    case Selected(_, Some(e)) => Failure(StorageFailureError(FetchKeys, e))
    case Selected(data, None) =>
      var rows := data.GetOr([]);
      if forall i | 0 <= i < |rows| :: isoDate(rows[i].created_at).Some? then
        Success(seq(|rows|, i requires 0 <= i < |rows| => FromDatabase(rows[i], isoDate(rows[i].created_at).value)))
      else
        Failure(UnexpectedError(FetchKeys, InvalidTimeValue))
  }

  /** A failed validation is reported as it is, whatever storage would have answered. */
  lemma CreateValidatesFirst(formData: ApiKeyFormData, reply: WriteReply)
    requires ValidateApiKeyForm(formData).Fail?
    ensures CreateOutcome(formData, reply) == Fail(Invalid(ValidateApiKeyForm(formData).error))
  {
  }

  /** An invalid form is reported before a missing id; a valid form with an empty id fails with "API key ID is required". */
  lemma UpdateChecksFormBeforeId(formData: ApiKeyFormData, reply: WriteReply)
    ensures ValidateApiKeyForm(formData).Fail? ==>
      UpdateOutcome("", formData, reply) == Fail(Invalid(ValidateApiKeyForm(formData).error))
      && UpdateOutcome("", formData, reply).error.Message() != IdRequired
    ensures ValidateApiKeyForm(formData).Pass? ==>
      UpdateOutcome("", formData, reply) == Fail(Invalid(ValidationError(IdRequired)))
  {
  }

  /**
   * Every failure is one of the two kinds: a validation error with one of the
   * validator's messages or the missing-id message, or a service error whose
   * original error is exactly what storage answered.
   */
  lemma FailuresAreOfTwoKinds(id: string, formData: ApiKeyFormData, reply: WriteReply)
    ensures forall r | r in {CreateOutcome(formData, reply), UpdateOutcome(id, formData, reply), DeleteOutcome(id, reply)} && r.Fail? ::
      match r.error
      case Invalid(e) => e.message in {NameRequired, NameTooLong, LimitOutOfRange, IdRequired}
      case ApiKeyServiceError(_, cause) =>
        match reply
        case Written(error) => error.Some? && cause == StorageFailure(error.value)
        case WriteThrew(ex) => cause == Thrown(ex)
  {
  }

  /**
   * An update leaves the set of rows alone and never changes a row's id,
   * key, usage or creation time; the other five columns of the target row
   * take the form's values.
   */
  lemma UpdateKeepsKeyAndUsage(table: map<string, DatabaseRow>, id: string, formData: ApiKeyFormData)
    ensures var after := UpdatedTable(table, id, UpdatePayload(formData));
      && after.Keys == table.Keys
      && (forall x | x in table ::
            && after[x].id == table[x].id && after[x].key == table[x].key
            && after[x].usage == table[x].usage && after[x].created_at == table[x].created_at)
      && (forall x | x in table && x != id :: after[x] == table[x])
      && (id in table ==>
            && after[id].name == formData.name && after[id].keyType == formData.keyType
            && after[id].limit_monthly_usage == Some(formData.limitMonthlyUsage)
            && after[id].monthly_usage_limit == Some(formData.monthlyUsageLimit)
            && after[id].pii_restrictions == Some(formData.piiRestrictions))
  {
  }

  /** The key `create` stores reads back with the form's fields, a key of the form's type and zero usage. */
  lemma CreatedKeyReadsBack(formData: ApiKeyFormData, picks: seq<int>, id: string, createdAt: string, createdDate: string)
    requires ValidPicks(picks)
    ensures var key := GeneratedKey(formData.keyType, picks);
      var read := FromDatabase(StoredRow(InsertPayload(formData, key), id, createdAt), createdDate);
      && read == ApiKey(id, formData.name, key, formData.keyType, 0, Some(formData.monthlyUsageLimit),
                        formData.limitMonthlyUsage, formData.piiRestrictions, createdDate)
      && read.key[..|Prefix(formData.keyType)|] == Prefix(formData.keyType)
  {
    GeneratedKeyShape(formData.keyType, picks);
  }

  class ApiKeyService {
    /** The `api_keys` table, keyed by id. */
    var table: map<string, DatabaseRow>
    /** The writes this service has sent to storage, oldest first. */
    ghost var requests: seq<WriteRequest>

    ghost predicate Valid()
      reads this
    {
      RowsUnderOwnId(table)
    }

    constructor(rows: map<string, DatabaseRow>)
      requires RowsUnderOwnId(rows)
      ensures Valid() && table == rows && requests == []
    {
      table := rows;
      requests := [];
    }

    /**
     * `create`: validate, generate a key for the form's type, insert one
     * row. `picks` are the generator's draws; `newId` and `createdAt` are
     * what storage assigns to the new row.
     */
    method Create(formData: ApiKeyFormData, picks: seq<int>, reply: WriteReply, newId: string, createdAt: string)
      returns (r: Outcome<ServiceError>)
      requires Valid() && ValidPicks(picks) && newId !in table
      modifies this
      ensures Valid()
      ensures r == CreateOutcome(formData, reply)
      ensures var payload := InsertPayload(formData, GeneratedKey(formData.keyType, picks));
        && requests == (if ValidateApiKeyForm(formData).Fail? then old(requests) else old(requests) + [Insert(payload)])
        && table == (if r.Pass? then old(table)[newId := StoredRow(payload, newId, createdAt)] else old(table))
    {
      var validation := ValidateApiKeyForm(formData);
      if validation.Fail? {
        return Fail(Invalid(validation.error));
      }
      var newKeyValue := GenerateApiKey(formData.keyType, picks);
      var dbData := ToDatabase(PartialApiKey(
        id := None,
        name := Some(formData.name),
        key := Some(newKeyValue),
        keyType := Some(formData.keyType),
        usage := Some(0),
        monthlyUsageLimit := Some(formData.monthlyUsageLimit),
        limitMonthlyUsage := Some(formData.limitMonthlyUsage),
        piiRestrictions := Some(formData.piiRestrictions),
        createdAt := None));
      requests := requests + [Insert(dbData)];
      r := WriteOutcome(CreateKey, reply);
      if r.Pass? {
        table := table[newId := StoredRow(dbData, newId, createdAt)];
      }
    }

    /** `update`: validate, require an id, then write the five form columns to the row with that id. */
    method Update(id: string, formData: ApiKeyFormData, reply: WriteReply) returns (r: Outcome<ServiceError>)
      requires Valid()
      modifies this
      ensures Valid()
      ensures r == UpdateOutcome(id, formData, reply)
      ensures requests == if ValidateApiKeyForm(formData).Fail? || id == "" then old(requests)
                          else old(requests) + [UpdateWhereId(id, UpdatePayload(formData))]
      ensures table == if r.Pass? then UpdatedTable(old(table), id, UpdatePayload(formData)) else old(table)
    {
      var validation := ValidateApiKeyForm(formData);
      if validation.Fail? {
        return Fail(Invalid(validation.error));
      }
      if id == "" {
        return Fail(Invalid(ValidationError(IdRequired)));
      }
      var dbData := ToDatabase(PartialApiKey(
        id := None,
        name := Some(formData.name),
        key := None,
        keyType := Some(formData.keyType),
        usage := None,
        monthlyUsageLimit := Some(formData.monthlyUsageLimit),
        limitMonthlyUsage := Some(formData.limitMonthlyUsage),
        piiRestrictions := Some(formData.piiRestrictions),
        createdAt := None));
      requests := requests + [UpdateWhereId(id, dbData)];
      r := WriteOutcome(UpdateKey, reply);
      if r.Pass? && id in table {
        table := table[id := UpdatedRow(table[id], dbData)];
      }
    }

    /** `delete`: require an id, then remove the row with that id; since rows sit under their own id, no row with that id is left. */
    method Delete(id: string, reply: WriteReply) returns (r: Outcome<ServiceError>)
      requires Valid()
      modifies this
      ensures Valid()
      ensures r == DeleteOutcome(id, reply)
      ensures requests == if id == "" then old(requests) else old(requests) + [DeleteWhereId(id)]
      ensures table == if r.Pass? then old(table) - {id} else old(table)
      ensures r.Pass? ==> forall row | row in table.Values :: row.id != id
    {
      if id == "" {
        return Fail(Invalid(ValidationError(IdRequired)));
      }
      requests := requests + [DeleteWhereId(id)];
      r := WriteOutcome(DeleteKey, reply);
      if r.Pass? {
        table := table - {id};
        forall row | row in table.Values
          ensures row.id != id
        {
          var k :| k in table && table[k] == row;
        }
      }
    }
  }
}

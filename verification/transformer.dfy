/**
 * The row transformer (utils/api-key-transformer.ts): `api_keys` rows to
 * application keys and application fields to the columns a write sends.
 */
module Transformer {
  import opened Wrappers
  import opened ApiKeyTypes

  /** `value || 0` on a nullable number column: null and 0 give 0, anything else is kept. */
  function NumberOrZero(value: Option<int>): (r: int)
    ensures r == value.GetOr(0)
  {
    if value.Some? && value.value != 0 then value.value else 0
  }

  /** `value || false` on a nullable boolean column. */
  function BoolOrFalse(value: Option<bool>): (r: bool)
    ensures r <==> value == Some(true)
  {
    value.Some? && value.value
  }

  /**
   * `transformApiKeyFromDatabase`. `createdDate` is the date portion of
   * `new Date(row.created_at).toISOString()`, which the JavaScript Date
   * library computes; the library is not part of this model.
   */
  function FromDatabase(row: DatabaseRow, createdDate: string): (k: ApiKey)
    ensures k.id == row.id && k.name == row.name && k.key == row.key && k.keyType == row.keyType
    ensures k.usage == row.usage.GetOr(0)
    ensures k.monthlyUsageLimit == row.monthly_usage_limit
    ensures k.limitMonthlyUsage <==> row.limit_monthly_usage == Some(true)
    ensures k.piiRestrictions <==> row.pii_restrictions == Some(true)
    ensures k.createdAt == createdDate
  {
    ApiKey(
      id := row.id,
      name := row.name,
      key := row.key,
      keyType := row.keyType,
      usage := NumberOrZero(row.usage),
      monthlyUsageLimit := row.monthly_usage_limit,
      limitMonthlyUsage := BoolOrFalse(row.limit_monthly_usage),
      piiRestrictions := BoolOrFalse(row.pii_restrictions),
      createdAt := createdDate)
  }

  /**
   * `transformApiKeyToDatabase`: a column is sent exactly when its field is
   * defined, under its snake_case name; `id` and `created_at` are never sent.
   */
  function ToDatabase(apiKey: PartialApiKey): (row: PartialRow)
    ensures row.id == None && row.created_at == None
    ensures row.name == apiKey.name && row.keyType == apiKey.keyType && row.key == apiKey.key
    ensures row.usage == apiKey.usage
    ensures row.monthly_usage_limit == apiKey.monthlyUsageLimit
    ensures row.limit_monthly_usage == apiKey.limitMonthlyUsage
    ensures row.pii_restrictions == apiKey.piiRestrictions
  {
    PartialRow(
      id := None,
      name := apiKey.name,
      key := apiKey.key,
      keyType := apiKey.keyType,
      usage := apiKey.usage,
      monthly_usage_limit := apiKey.monthlyUsageLimit,
      limit_monthly_usage := apiKey.limitMonthlyUsage,
      pii_restrictions := apiKey.piiRestrictions,
      created_at := None)
  }

  /** A whole key seen as a `Partial<ApiKey>` with every field defined. */
  function AsPartial(k: ApiKey): PartialApiKey {
    PartialApiKey(Some(k.id), Some(k.name), Some(k.key), Some(k.keyType), Some(k.usage),
                  k.monthlyUsageLimit, Some(k.limitMonthlyUsage), Some(k.piiRestrictions), Some(k.createdAt))
  }

  /** A partial row carries the three columns that have no default. */
  predicate Insertable(row: PartialRow) {
    row.name.Some? && row.key.Some? && row.keyType.Some?
  }

  /** The row the table holds after inserting `row`: storage supplies `id` and `created_at`, unsent columns are null. */
  function StoredRow(row: PartialRow, id: string, createdAt: string): DatabaseRow
    requires Insertable(row)
  {
    DatabaseRow(id, row.name.value, row.key.value, row.keyType.value, row.usage,
                row.monthly_usage_limit, row.limit_monthly_usage, row.pii_restrictions, createdAt)
  }

  /** The row after an update that sends `row`: sent columns are overwritten, the rest kept. */
  function UpdatedRow(current: DatabaseRow, row: PartialRow): DatabaseRow {
    DatabaseRow(
      id := row.id.GetOr(current.id),
      name := row.name.GetOr(current.name),
      key := row.key.GetOr(current.key),
      keyType := row.keyType.GetOr(current.keyType),
      usage := if row.usage.Some? then row.usage else current.usage,
      monthly_usage_limit := if row.monthly_usage_limit.Some? then row.monthly_usage_limit else current.monthly_usage_limit,
      limit_monthly_usage := if row.limit_monthly_usage.Some? then row.limit_monthly_usage else current.limit_monthly_usage,
      pii_restrictions := if row.pii_restrictions.Some? then row.pii_restrictions else current.pii_restrictions,
      created_at := row.created_at.GetOr(current.created_at))
  }

  /**
   * Round trip from the application side: writing a whole key, storing it
   * under its id and reading it back gives the same key, apart from the
   * creation date, which comes from the stored timestamp.
   */
  lemma KeyRoundTrip(k: ApiKey, createdAt: string, createdDate: string)
    ensures Insertable(ToDatabase(AsPartial(k)))
    ensures FromDatabase(StoredRow(ToDatabase(AsPartial(k)), k.id, createdAt), createdDate)
         == k.(createdAt := createdDate)
  {
  }

  /**
   * Round trip from the storage side: reading a row in which no column is
   * null and writing the result back reproduces the row.
   */
  lemma RowRoundTrip(row: DatabaseRow, createdDate: string)
    requires row.usage.Some? && row.limit_monthly_usage.Some? && row.pii_restrictions.Some?
    ensures Insertable(ToDatabase(AsPartial(FromDatabase(row, createdDate))))
    ensures StoredRow(ToDatabase(AsPartial(FromDatabase(row, createdDate))), row.id, row.created_at) == row
  {
  }

  /** A write never moves a row to another id or changes its creation time. */
  lemma UpdateKeepsIdentity(current: DatabaseRow, apiKey: PartialApiKey)
    ensures UpdatedRow(current, ToDatabase(apiKey)).id == current.id
    ensures UpdatedRow(current, ToDatabase(apiKey)).created_at == current.created_at
  {
  }
}

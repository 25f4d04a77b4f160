/**
 * The API-key entities: the application-facing key, the editable form data,
 * the `api_keys` table row, and the partial shapes the transformer works on.
 * `type` is a reserved word in Dafny, so the key-type field is `keyType`.
 */
module ApiKeyTypes {
  import opened Wrappers

  datatype ApiKeyType = Dev | Prod

  /** An API key as the application sees it; `createdAt` holds a calendar date. */
  datatype ApiKey = ApiKey(
    id: string,
    name: string,
    key: string,
    keyType: ApiKeyType,
    usage: int,
    monthlyUsageLimit: Option<int>,
    limitMonthlyUsage: bool,
    piiRestrictions: bool,
    createdAt: string)

  /** The fields a user edits in the create/edit form. */
  datatype ApiKeyFormData = ApiKeyFormData(
    name: string,
    keyType: ApiKeyType,
    limitMonthlyUsage: bool,
    monthlyUsageLimit: int,
    piiRestrictions: bool)

  /**
   * A row of the `api_keys` table. Field names are the table's column names.
   * The columns the transformer gives a default for may hold null (`None`).
   */
  datatype DatabaseRow = DatabaseRow(
    id: string,
    name: string,
    key: string,
    keyType: ApiKeyType,
    usage: Option<int>,
    monthly_usage_limit: Option<int>,
    limit_monthly_usage: Option<bool>,
    pii_restrictions: Option<bool>,
    created_at: string)

  /** `Partial<ApiKey>`: every field may be undefined. */
  datatype PartialApiKey = PartialApiKey(
    id: Option<string>,
    name: Option<string>,
    key: Option<string>,
    keyType: Option<ApiKeyType>,
    usage: Option<int>,
    monthlyUsageLimit: Option<int>,
    limitMonthlyUsage: Option<bool>,
    piiRestrictions: Option<bool>,
    createdAt: Option<string>)

  /** `Partial<ApiKeyDatabaseRow>`: the columns a write sends; undefined ones are not sent. */
  datatype PartialRow = PartialRow(
    id: Option<string>,
    name: Option<string>,
    key: Option<string>,
    keyType: Option<ApiKeyType>,
    usage: Option<int>,
    monthly_usage_limit: Option<int>,
    limit_monthly_usage: Option<bool>,
    pii_restrictions: Option<bool>,
    created_at: Option<string>)
}

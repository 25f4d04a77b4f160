/**
 * The storage boundary: the answers the hosted database client gives.
 * The client itself is not part of this model; what it answers is an input.
 */
module Storage {
  import opened Wrappers
  import opened ApiKeyTypes

  /** The `error` object of a client reply: a PostgREST code and a message. */
  datatype StorageError = StorageError(code: string, message: string)

  /** Something thrown rather than returned (a failed network call, a `RangeError`, ...). */
  datatype Exception = Exception(name: string, message: string)

  /** The reply to an insert, update or delete. */
  datatype WriteReply = Written(error: Option<StorageError>) | WriteThrew(exception: Exception)

  /** The reply to a select: `{ data, error }`, or an exception. */
  datatype SelectReply<T> = Selected(data: Option<T>, error: Option<StorageError>) | SelectThrew(exception: Exception)

  /** A write sent to the `api_keys` table. */
  datatype WriteRequest =
    | Insert(row: PartialRow)
    | UpdateWhereId(id: string, row: PartialRow)
    | DeleteWhereId(id: string)
}

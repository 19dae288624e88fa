/**
 * The error values that flow through the core. Go's `error` interface is
 * closed over the kinds that occur here: sentinels made by `errors.New`
 * (compared by identity, so two sentinels with the same message are still
 * different values), `db.StorageError`, `services.ServiceError`,
 * `handlers.HTTPError`, and the opaque errors the Redis client returns.
 */
module Errors {
  import opened Wrappers

  /**
   * The package-level `errors.New` values. `ErrMarshalingRecord` carries the
   * same message as `ErrUnmarshalingRecord`, but as distinct values the two
   * are still told apart.
   */
  datatype Sentinel =
    | DbUserNotFound        // db.ErrUserNotFound
    | ConnectionFailed      // db.ErrConnectionFailed
    | ConsultingRecords     // db.ErrConsultingRecords
    | UnmarshalingRecord    // db.ErrUnmarshalingRecord
    | MarshalingRecord      // db.ErrMarshalingRecord
    | ServiceUserNotFound   // services.ErrUserNotFound

  /** Codes of `db.StorageError`. */
  const RedisConnectionFailed: string := "RedisConnectionFailed "
  const EntityNotFound: string := "EntityNotFound"
  const UnmarshalingEntity: string := "UnmarshalingEntityError"
  const MarshalingEntity: string := "MarshalingEntityError"
  const GettingRecords: string := "ErrGettingRecords"

  datatype StorageError = StorageError(code: string, description: string)
  {
    /** `StorageError.Is`: a type test, then equality of codes alone. */
    predicate Is(err: Error)
      ensures Is(err) ==> err.Storage?
      ensures err == Storage(this) ==> Is(err)
    {
      match err
      case Storage(other) => code == other.code
      case _ => false
    }
  }

  datatype ServiceError = ServiceError(code: string, description: Option<Error>)

  datatype HttpError = HttpError(status: int, code: string, description: string)

  datatype Error =
    | Plain(sentinel: Sentinel)
    | Storage(storage: StorageError)
    | Service(service: ServiceError)
    | Http(http: HttpError)
    | Client(message: string)

  /**
   * Go's `errors.Is(err, target)` on these values: equality first, then the
   * `Is` method, which only `StorageError` has. None of the types wraps
   * another error (none has `Unwrap`), so the chain has length one.
   */
  predicate ErrorsIs(err: Error, target: Error)
    ensures err.Storage? && target.Storage? ==> (ErrorsIs(err, target) <==> err.storage.code == target.storage.code)
    ensures !err.Storage? ==> (ErrorsIs(err, target) <==> err == target)
  {
    err == target || (err.Storage? && err.storage.Is(target))
  }

  lemma IsIffSameCode(s: StorageError, e: Error)
    ensures s.Is(e) <==> e.Storage? && e.storage.code == s.code
  {
  }

  lemma IsIgnoresDescription(s: StorageError, code: string, d1: string, d2: string)
    ensures s.Is(Storage(StorageError(code, d1))) == s.Is(Storage(StorageError(code, d2)))
  {
  }

  /** On storage errors `Is` is an equivalence: reflexive, symmetric, transitive. */
  lemma IsEquivalence(a: StorageError, b: StorageError, c: StorageError)
    ensures a.Is(Storage(a))
    ensures a.Is(Storage(b)) ==> b.Is(Storage(a))
    ensures a.Is(Storage(b)) && b.Is(Storage(c)) ==> a.Is(Storage(c))
  {
  }

  /** `errors.Is(StorageError{...}, StorageError{Code: c})` holds exactly when the codes agree. */
  lemma ErrorsIsStorageCode(s: StorageError, code: string)
    ensures ErrorsIs(Storage(s), Storage(StorageError(code, ""))) <==> s.code == code
  {
  }

  lemma CodesDistinct()
    ensures |{RedisConnectionFailed, EntityNotFound, UnmarshalingEntity, MarshalingEntity, GettingRecords}| == 5
  {
  }
}

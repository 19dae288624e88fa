# User CRUD service, modelled in Dafny

A model of the core of a small Go user service. It keeps users, each with an
id (a UUID), a name, last name, email, an active flag and an address. The
parts modelled are:

- **In-memory store** (`MemoryStorage`): a map from id to entity, generic over
  the entity. It has `Create`, `Get`, `GetAll`, `Update` and `Delete`.
  `Update` and `Delete` check first that the id is there.
- **Redis store** (`RedisStorage`): the same operations over a key space
  named `"user:" + id.String()`.
  - The Redis server is a `map<string, string>`.
  - A `Faults` record says which client command fails, and with which error.
  - `encoding/json` is a `Codec` of two functions. The round trip is a stated
    hypothesis, `Lossless`, never assumed.
- **Early service draft** (`MapUserService`): a service that owns its own map
  of users. It is seeded with five users and mints ids itself. It keeps the
  invariant that every user's id is its key.
- **Layered service** (`UserService`): it builds a `User` from a request with
  the id fixed, delegates to the storage, and passes results and errors
  through unchanged.
- **Errors** (`Errors`): the error kinds that occur, and `StorageError.Is`,
  which compares codes only. Go's `errors.Is` is modelled on these kinds.
- **Handlers** (`Handlers`):
  - the checks made before the service is called;
  - what each handler hands the service and writes on success;
  - `RootHandler.ServeHTTP`'s translation of a returned error into the
    `sendError` calls it makes;
  - the status the client finally sees.
- **Scenarios** (`Scenarios`): request sequences played through handlers,
  service and store, with the statuses that result.

Supporting modules:
- `Wrappers`: `Option` and `Result`.
- `Uuid`: 16-byte UUIDs and their canonical 8-4-4-4-12 lower-case hex text.
  The text form is proved injective, so distinct users never share a Redis
  key.
- `Entities`: `User`, `Address` and `UserRequest`.
- `Bags`: the multiset of a map's values, used to specify listings whose
  order is Go's unspecified map order.

Nondeterminism:
- Ids that `uuid.New()` would mint are parameters. Where the code relies on
  an id being fresh, the model says so in a `requires`.
- Go map iteration and the order in which `SCAN` visits keys are arbitrary
  choices (`:|`) inside the loops.

## Where the code departs from its intended behaviour

The model follows the code in each case below. The intended behaviour is
what the program's own tests and handler branches expect.

- **A missing user answers 500, not 404.** Both stores report a missing id
  with the plain sentinel `db.ErrUserNotFound`, not a `StorageError`
  (db/memory-storage-db.go:35, db/redis-storage-db.go:117). `ServeHTTP`
  sends that to its default branch, which answers 500
  (handlers/users-handlers.go:61-66).
  - See `Handlers.ResponseStatus` and `Scenarios.AnakinOnMemory`: create,
    read, delete, then read again gives 201, 200, 204, 500.
  - The 404 branch of `ServeHTTP` (handlers/users-handlers.go:28-33) only
    applies to a `StorageError` with code `EntityNotFound`. The service's
    tests expect a store to report a missing user that way
    (services/user-service_test.go:95-108), but neither store does.
- **Listing an empty Redis store fails.** `getAllValuesCache` sends `MGET`
  even when the scan found no key (db/redis-storage-db.go:142), and Redis
  rejects `MGET` with no keys. The client sees `ErrConsultingRecords` and
  500, not the empty list that the memory store, with the same interface,
  gives.
  - See `RedisStorage.Storage.Lists` and `Scenarios.EmptyListOnRedis`.
  - The memory store answers an empty list
    (`Scenarios.EmptyListOnMemory`).
- **Some errors are answered 200 with an empty body.** A `ServiceError`, or a
  `StorageError` whose code is none of the four that `ServeHTTP` tests, makes
  `ServeHTTP` send nothing (handlers/users-handlers.go:27-58). `net/http`
  then answers 200 with an empty body, although the default branch
  (handlers/users-handlers.go:61-66) shows that an error the handler does
  not recognise is meant to answer 500.
- **Update and delete send no body.** `UpdateUser` and `DeleteUser` write
  204 and only then encode the user or `{"id": …}`
  (handlers/users-handlers.go:192-194, 217-221). `net/http` allows no body
  under 204, so the client never receives that value, although the handlers
  evidently mean to send it.
  - See `Handlers.BodyAllowed` and `Handlers.SuccessStatus`. The value the
    two handlers return is the one handed to the encoder.

## Model

| member | source | states |
|---|---|---|
| `Uuid.ToString` | db/redis-storage-db.go:46 | `id.String()` is 36 characters, with dashes at positions 8, 13, 18 and 23 |
| `Uuid.ToStringInjective` | db/redis-storage-db.go:101-113 | Two UUIDs with the same text are the same UUID |
| `RedisStorage.KeyInjective` | db/redis-storage-db.go:101-113 | `"user:" + id.String()` determines the id: distinct ids never share a key |
| `RedisStorage.MarshalUser` | db/redis-storage-db.go:167-177 | Succeeds exactly when the library encodes the user, giving that text; otherwise fails with `ErrMarshalingRecord` |
| `RedisStorage.UnmarshalUser` | db/redis-storage-db.go:179-189 | Succeeds exactly when the library decodes the text, giving that user; otherwise gives a zero `User` and `ErrUnmarshalingRecord` |
| `RedisStorage.UnmarshalMarshal` | db/redis-storage-db.go:167-189 | With a lossless codec, unmarshalling what was marshalled gives back the user, without error |
| `RedisStorage.Fetch` | db/redis-storage-db.go:111-122 | A read gives no error, `ErrUserNotFound` or `ErrUnmarshalingRecord`, and on any error a zero `User` |
| `RedisStorage.FetchAfterWrite` | db/redis-storage-db.go:95-122 | With a lossless codec and a working GET, a user written under its key reads back as that user, without error |
| `RedisStorage.FetchOtherId` | db/redis-storage-db.go:95-165 | Writing or deleting one id's key leaves every other id's read unchanged |
| `RedisStorage.Key` | db/redis-storage-db.go:101 | Every key read, written or deleted is `"user:"` followed by the 36-character `id.String()` |
| `RedisStorage.Namespace` | db/redis-storage-db.go:127-128 | The keys `SCAN user:*` visits are keys of the server, and every stored user's key is among them |
| `RedisStorage.EnumeratesSize` | db/redis-storage-db.go:128-136 | A scan that lists each namespace key once yields as many keys as the namespace has |
| `RedisStorage.MGet` | db/redis-storage-db.go:142 | `MGET` gives one entry per key, and no nil entry when every key is stored, as the decode loop relies on |
| `RedisStorage.Sprint` | db/redis-storage-db.go:149 | `fmt.Sprint` of a stored value is that value, so the decode loop decodes exactly what was stored |
| `RedisStorage.Storage.constructor` | db/redis-storage-db.go:28-43 | A store over the given server contents, faults and codec, with the prefix `"user:"` |
| `RedisStorage.Storage.Get` | db/redis-storage-db.go:45-47 | Reads `Key(id)`. Any GET error, a missing key included, becomes `ErrUserNotFound`; otherwise the unmarshal result |
| `RedisStorage.Storage.GetAll` | db/redis-storage-db.go:49-51 | For some order of the namespace: the scan's error as is; `ErrConsultingRecords` on an `MGET` failure or an empty namespace; `ErrUnmarshalingRecord` with no partial result if any value fails to decode; otherwise one user per key, in key order |
| `RedisStorage.Storage.Create` | db/redis-storage-db.go:53-61 | Marshal failure: `uuid.Nil` with `ErrMarshalingRecord`. SET failure: `uuid.Nil` with the client's error. Either way the server is unchanged. Otherwise the user's id is returned and its key now holds the encoded user |
| `RedisStorage.Storage.Update` | db/redis-storage-db.go:63-77 | If the read of the id fails: a zero `User`, that same error, nothing written. Then the marshal and SET failures as in `Create`, nothing written. Otherwise the given user is returned and the key overwritten, every other key unchanged |
| `RedisStorage.Storage.Delete` | db/redis-storage-db.go:79-93 | If the read of the id fails: `uuid.Nil`, that same error, nothing deleted. DEL failure: `uuid.Nil` with the client's error. Otherwise the key is removed and the id returned |
| `RedisStorage.Storage.SetValueCache` | db/redis-storage-db.go:95-109 | Marshal failure gives `ErrMarshalingRecord`, and SET failure the client's error, with nothing written. Otherwise prefix + key holds the encoded user |
| `RedisStorage.Storage.GetValueCache` | db/redis-storage-db.go:111-122 | Equal to `Fetch` at prefix + key: errors normalised to `ErrUserNotFound`, then unmarshal |
| `RedisStorage.Storage.GetAllValuesCache` | db/redis-storage-db.go:124-159 | The scan loop collects each namespace key once. The decode loop gives the outcome `Lists` describes for that key order. `MGET` is sent for an empty key list too |
| `RedisStorage.Storage.DeleteValueCache` | db/redis-storage-db.go:161-165 | DEL failure: the client's error, nothing removed. Otherwise prefix + key is removed, whether or not it existed |
| `MemoryStorage.Storage.constructor` | db/memory-storage-db.go:18-22 | A new store is empty |
| `MemoryStorage.Storage.Create` | db/memory-storage-db.go:24-28 | Puts the entity under its own id, overwriting any entry there. Returns that id and never fails |
| `MemoryStorage.Storage.Get` | db/memory-storage-db.go:30-38 | A present key gives its entity and no error. An absent key gives the zero value and `ErrUserNotFound` |
| `MemoryStorage.Storage.GetAll` | db/memory-storage-db.go:40-46 | Never fails. The list is exactly the multiset of stored entities, one per key, so an empty store gives an empty list |
| `MemoryStorage.Storage.Update` | db/memory-storage-db.go:48-58 | Absent key: zero value, `ErrUserNotFound`, map unchanged. Present key: the key maps to the new entity as given (its id not rewritten), which is returned; other keys unchanged |
| `MemoryStorage.Storage.Delete` | db/memory-storage-db.go:59-68 | Absent key: `uuid.Nil`, `ErrUserNotFound`, map unchanged. Present key: removed and returned, so a later `Get` fails |
| `MapUserService.SeedUser` | services/user_service.go:75-78 | A seed user is stored with the id minted for it |
| `MapUserService.CreateInitialUsers` | services/user_service.go:15-82 | Exactly the five seed users, each under its own freshly minted id, every other attribute as listed. Every stored user's id is its key |
| `MapUserService.ListedAreStored` | services/user_service.go:111-117 | In a listing of a keyed map's users, every user is the one stored under its own id |
| `MapUserService.UserService.constructor` | services/user_service.go:90-93 | A new service holds exactly the five seed users under their minted ids, and keeps the id-is-key invariant |
| `MapUserService.UserService.Create` | services/user_service.go:95-100 | Stores the user with its id set to the fresh id and returns that id. The map grows by exactly that entry and keeps the invariant |
| `MapUserService.UserService.Get` | services/user_service.go:102-109 | A present key gives its user, whose id is the key. An absent key gives a zero `User` and the service's `ErrUserNotFound` |
| `MapUserService.UserService.GetAll` | services/user_service.go:111-117 | Every stored user once: the multiset of the map's values, as long as the map, each user under its own id |
| `MapUserService.UserService.Update` | services/user_service.go:119-130 | Absent key: `ErrUserNotFound`, no change. Present key: the user stored with its id forced to the key, and returned. The invariant is kept |
| `MapUserService.UserService.Delete` | services/user_service.go:131-140 | Absent key: `ErrUserNotFound`, no change. Present key: removed, so a later `Get` fails |
| `Entities.GetId` | db/memory-storage-db.go:25 | `GetId()` of a user is its `Id` |
| `UserService.NewUser` | services/user-service.go:41-48 | The built user has the given id and exactly the request's name, last name, email, active flag and address |
| `UserService.NewUserOfRequestOf` | services/user-service.go:41-48 | A user is its id plus its request attributes: rebuilding it from them gives the same user |
| `UserService.UserService.constructor` | services/user-service.go:16-20 | The service holds the storage it was given |
| `UserService.UserService.Get` | services/user-service.go:22-30 | On error, a zero `User` with the storage's error unchanged. On success, the stored user. Stated for each backend |
| `UserService.UserService.GetAll` | services/user-service.go:32-37 | Exactly the backend's `GetAll` outcome |
| `UserService.UserService.Create` | services/user-service.go:39-54 | Storage is handed `NewUser(newId, req)`. Storage's id and error are returned unchanged, for each backend and each of its error cases |
| `UserService.UserService.Update` | services/user-service.go:56-69 | Storage is handed `NewUser(id, req)`, the path id with the request's attributes, nothing merged with the stored user. Storage's result and error are returned unchanged |
| `UserService.UserService.Delete` | services/user-service.go:71-74 | The id and error storage returns, for each backend |
| `Errors.StorageError.Is` | db/errors-db.go:17-23 | `Is` holds only for a `StorageError`, and holds for the error itself |
| `Errors.ErrorsIs` | handlers/users-handlers.go:28-50 | Go's `errors.Is` between two storage errors is code equality. For any other error it is plain equality, since nothing else has an `Is` method |
| `Errors.IsIffSameCode` | db/errors-db.go:17-23 | `s.Is(e)` holds exactly when `e` is a `StorageError` with the same code, so it is false for any other kind of error |
| `Errors.IsIgnoresDescription` | db/errors-db.go:22 | `Is` does not depend on the description |
| `Errors.IsEquivalence` | db/errors-db.go:17-23 | On storage errors, `Is` is reflexive, symmetric and transitive |
| `Errors.ErrorsIsStorageCode` | db/errors-db.go:16-23 | `errors.Is(StorageError{...}, StorageError{Code: c})` holds exactly when the codes agree |
| `Errors.CodesDistinct` | db/errors-db.go:25-36 | The five storage error codes are pairwise distinct |
| `Handlers.StorageResponses` | handlers/users-handlers.go:27-56 | The four `errors.Is` tests of the `StorageError` case send at most one response, and none exactly when the code is none of the four |
| `Handlers.ServeHttp` | handlers/users-handlers.go:20-69 | At most one response is sent, and none for a nil error. The codes map as follows: `EntityNotFound` gives 404 `NotFound`; the two marshalling codes give 400 `BadRequest`; `ErrGettingRecords` gives 500; any other code gives nothing. A `ServiceError` gives nothing. An `HTTPError` is sent verbatim. Sentinels and client errors give 500 `InternalServerError` |
| `Handlers.BodyAllowed` | handlers/users-handlers.go:192-194 | `net/http` allows no body under 204, and does allow one under 200, 201 and the error statuses |
| `Handlers.SuccessStatus` | handlers/users-handlers.go:95-217 | Success is 201 for create only, 204 for update and delete, and the implicit 200 for the two reads. A body can follow success exactly on create and the two reads |
| `Handlers.ResponseStatus` | handlers/users-handlers.go:20-69 | The status the client sees: the success status; the `HTTPError`'s own status; 404, 400, 500 or 200 by storage code; 500 for sentinels such as `ErrUserNotFound`; 200 for a `ServiceError` |
| `Handlers.Rejection` | handlers/users-handlers.go:155-185 | Before the service is called: an unparseable id gives 400 "invalid uuid"; an undecodable body gives 400 "invalid user body"; a validation failure gives 400 with the validator's message. The request passes exactly when none applies |
| `Handlers.GetUserByIdHandler` | handlers/users-handlers.go:71-99 | An unparseable id gives "invalid uuid". Otherwise the service's error, or the stored user as the body, for each backend |
| `Handlers.GetAllUsersHandler` | handlers/users-handlers.go:101-116 | The backend's listing as the body, or its error with no body |
| `Handlers.CreateUserHandler` | handlers/users-handlers.go:118-153 | A rejected body changes nothing. Otherwise the store gains `NewUser(newId, req)` and the new id is the body. On Redis, it succeeds exactly when the codec encodes and SET works, and a failure changes nothing |
| `Handlers.UpdateUserHandler` | handlers/users-handlers.go:155-197 | A rejected id or body changes nothing. An absent id changes nothing and gives `ErrUserNotFound`. Otherwise the key holds `NewUser(id, req)`, which is handed to the encoder after the 204, which `net/http` does not send. On Redis, success occurs exactly when read, encode and SET all succeed |
| `Handlers.DeleteUserHandler` | handlers/users-handlers.go:199-224 | A rejected id changes nothing. An absent id changes nothing and gives `ErrUserNotFound`. Otherwise the key is removed and its id is handed to the encoder after the 204, which `net/http` does not send |
| `Scenarios.NewMemoryService` | main.go:35-44 | The service `main` builds over a new memory store starts empty |
| `Scenarios.AnakinOnMemory` | main.go:35-53 | Create, read, delete, read: 201; 200 with the request's attributes and the minted id; 204; then 500, because the second read returns the plain sentinel |
| `Scenarios.UpdateThenGetOnMemory` | main.go:35-53 | After create and update, a read returns exactly the second request's attributes under the original id: 201, 204, 200 |
| `Scenarios.CreateThenGetOnRedis` | main.go:37-53 | With a lossless codec and a working client, whatever else the server holds, a created user reads back unchanged: 201, 200 |
| `Scenarios.EmptyListOnMemory` | db/memory-storage-db.go:40-46 | Listing an empty memory store answers 200 with an empty list |
| `Scenarios.EmptyListOnRedis` | db/redis-storage-db.go:124-146 | Listing a Redis server without `user:` keys answers 500 with no users, since `MGET` is sent no keys |

## Left out

- `db.Storage` (db/storage-db.go) is not an open interface here. The
  service's storage is the closed choice between the two backends the
  program has (`UserService.Backend`). Every service contract is stated for
  each backend.
- Connecting to Redis is left out: reading `REDIS_HOST`, the `Ping`, and the
  panic when it fails (db/redis-storage-db.go:28-40). These are I/O. The
  store starts from given server contents.
- `context.Context` arguments and every `slog` call are left out. They only
  write logs, so they cannot change a return value.
- The `Error()` strings of `StorageError`, `ServiceError` and `HTTPError`
  are left out. Their `fmt.Sprintf` formatting is text for logs.
- `encoding/json` internals are abstracted as the `Codec`. So are the JSON
  bodies written to the `http.ResponseWriter`; the handlers return the value
  handed to the encoder.
- The `Content-Type` headers are left out. The two read handlers
  (handlers/users-handlers.go:95-96, 112-113) set `application/json` before
  their first `Write`, so it is sent. In the three mutating handlers
  (handlers/users-handlers.go:145-146, 192-193, 217-218) and in `sendError`
  (handlers/users-handlers.go:228-229), it is set after `WriteHeader` and has
  no effect.
- `Handlers.GetUserByIdHandler`: the `json.Marshal` failure branch
  (handlers/users-handlers.go:90-93) is not modelled. Encoding a `User`, a
  struct of strings, a bool and a byte array, cannot fail in Go.
- `Handlers.GetAllUsersHandler`: the `json.Marshal` failure branch
  (handlers/users-handlers.go:107-110) is not modelled, for the same reason.
- The validator library is left out. A validation failure is an input: the
  message the validator would give.
- `uuid.Parse` syntax is left out. Its outcome is an input.
- `uuid.New()` randomness is left out. Minted ids are inputs.
- `SCAN` glob semantics beyond "the key starts with `user:`" are left out.
- Redis's freedom to return a key more than once in a `SCAN` is not
  modelled. The model visits each key once.
- Concurrency is left out:
  - the unguarded memory map;
  - writes landing between `SCAN` and `MGET`, so a scanned key that has
    vanished (a nil `MGET` entry) never arises in the model.
- A scan failure in the code returns a nil slice. The model returns an
  empty sequence; the two differ only in their JSON, which is never written
  on that path.
- `main.go` wiring is left out: environment loading, storage selection, the
  router and `ListenAndServe`. The scenarios build the same
  storage → service → handler stack by hand.
- `entities.UserRequest` and `GetId` are not in the sources. They are
  defined as `User` without its id and as the `Id` field.

/**
 * Requests played against a freshly started service, through the handlers
 * and `RootHandler.ServeHTTP`, with the status the client sees after each.
 * Ids that `uuid.New()` would mint are inputs.
 */
module Scenarios {
  import opened Wrappers
  import opened Uuid
  import opened Entities
  import opened Errors
  import MemoryStorage
  import RedisStorage
  import UserService
  import opened Handlers

  const Anakin: UserRequest :=
    UserRequest("Anakin", "Skywalker", "anakin@starwars.com", false, Address("Tatooine", "", ""))

  /** A service over a new, empty memory backend, as `main.go` builds it. */
  method NewMemoryService() returns (svc: UserService.UserService)
    ensures fresh(svc) && svc.Valid() && svc.storage.Memory? && fresh(svc.storage.mem)
    ensures svc.storage.mem.entities == map[]
  {
    var mem := new MemoryStorage.Storage<User>(GetId, ZeroUser);
    svc := new UserService.UserService(UserService.Memory(mem));
  }

  /**
   * Create Anakin, read him back, delete him, read again: 201, 200 with the
   * request's attributes, 204, and then 500, not 404, because the memory
   * backend reports a missing id with the plain sentinel.
   */
  method AnakinOnMemory(newId: UUID) returns (statuses: seq<int>, fetched: Option<User>)
    ensures statuses == [StatusCreated, StatusOK, StatusNoContent, StatusInternalServerError]
    ensures fetched.Some? && fetched.value.id == newId && UserService.RequestOf(fetched.value) == Anakin
  {
    var svc := NewMemoryService();
    var err, created := CreateUserHandler(svc, Some(Anakin), None, newId);
    var createStatus := ResponseStatus(CreateUser, err);
    var getErr, body := GetUserByIdHandler(svc, created);
    var getStatus := ResponseStatus(GetUserById, getErr);
    var delErr, deleted := DeleteUserHandler(svc, created);
    var delStatus := ResponseStatus(DeleteUser, delErr);
    var againErr, again := GetUserByIdHandler(svc, created);
    var againStatus := ResponseStatus(GetUserById, againErr);
    statuses := [createStatus, getStatus, delStatus, againStatus];
    fetched := body;
  }

  /** An update replaces every attribute and keeps the id: a later read returns exactly the second request. */
  method UpdateThenGetOnMemory(newId: UUID, first: UserRequest, second: UserRequest)
    returns (statuses: seq<int>, fetched: Option<User>)
    ensures statuses == [StatusCreated, StatusNoContent, StatusOK]
    ensures fetched == Some(UserService.NewUser(newId, second))
    ensures fetched.value.id == newId && UserService.RequestOf(fetched.value) == second
  {
    var svc := NewMemoryService();
    var err, created := CreateUserHandler(svc, Some(first), None, newId);
    var createStatus := ResponseStatus(CreateUser, err);
    var updErr, updated := UpdateUserHandler(svc, created, Some(second), None);
    var updStatus := ResponseStatus(UpdateUser, updErr);
    var getErr, body := GetUserByIdHandler(svc, created);
    var getStatus := ResponseStatus(GetUserById, getErr);
    statuses := [createStatus, updStatus, getStatus];
    fetched := body;
  }

  /**
   * Over Redis with a lossless codec and a client that does not fail, a
   * created user reads back unchanged, whatever else the store holds.
   */
  method CreateThenGetOnRedis(contents: map<string, string>, codec: RedisStorage.Codec, newId: UUID, req: UserRequest)
    returns (statuses: seq<int>, fetched: Option<User>)
    requires RedisStorage.Lossless(codec) && codec.encode(UserService.NewUser(newId, req)).Some?
    ensures statuses == [StatusCreated, StatusOK]
    ensures fetched == Some(UserService.NewUser(newId, req))
  {
    var redis := new RedisStorage.Storage(contents, RedisStorage.NoFaults, codec);
    var svc := new UserService.UserService(UserService.Redis(redis));
    var err, created := CreateUserHandler(svc, Some(req), None, newId);
    var createStatus := ResponseStatus(CreateUser, err);
    RedisStorage.FetchAfterWrite(contents, RedisStorage.NoFaults, codec, UserService.NewUser(newId, req));
    var getErr, body := GetUserByIdHandler(svc, created);
    var getStatus := ResponseStatus(GetUserById, getErr);
    statuses := [createStatus, getStatus];
    fetched := body;
  }

  /** Listing an empty memory store answers 200 with an empty list. */
  method EmptyListOnMemory() returns (status: int, listed: seq<User>)
    ensures status == StatusOK && listed == []
  {
    var svc := NewMemoryService();
    var err;
    err, listed := GetAllUsersHandler(svc);
    status := ResponseStatus(GetAllUsers, err);
  }

  /**
   * Listing a Redis store with no `user:` keys sends `MGET` no keys, which
   * Redis rejects: the client sees 500, not an empty list.
   */
  method EmptyListOnRedis(contents: map<string, string>, codec: RedisStorage.Codec)
    returns (status: int, listed: seq<User>)
    requires forall k :: k in contents ==> !(RedisStorage.Prefix <= k)
    ensures status == StatusInternalServerError && listed == []
  {
    var redis := new RedisStorage.Storage(contents, RedisStorage.NoFaults, codec);
    var svc := new UserService.UserService(UserService.Redis(redis));
    var err;
    err, listed := GetAllUsersHandler(svc);
    ghost var keys :| redis.Lists(keys, listed, err);
    RedisStorage.EnumeratesSize(keys, RedisStorage.Namespace(contents, RedisStorage.Prefix));
    assert RedisStorage.Namespace(contents, RedisStorage.Prefix) == {};
    status := ResponseStatus(GetAllUsers, err);
  }
}

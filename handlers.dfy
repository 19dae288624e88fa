/**
 * The decisions of the HTTP handlers: which error a handler returns before
 * it reaches the service (unparseable id, undecodable body, failed
 * validation), what it hands the service, which status it writes on
 * success, and how `RootHandler.ServeHTTP` turns a returned error into the
 * `sendError` calls it makes. Writing to the `http.ResponseWriter` is
 * modelled by the status and by the value handed to the JSON encoder;
 * whether that value reaches the client depends on the status
 * (`BodyAllowed`): under the 204 of update and delete, `net/http` discards it.
 */
module Handlers {
  import opened Wrappers
  import opened Uuid
  import opened Entities
  import opened Errors
  import Bags
  import RedisStorage
  import UserService

  /** Codes of `HTTPError`. */
  const NotFound: string := "NotFound"
  const InternalServerError: string := "InternalServerError"
  const BadRequest: string := "BadRequest"

  /** The `net/http` status constants in use. */
  const StatusOK: int := 200
  const StatusCreated: int := 201
  const StatusNoContent: int := 204
  const StatusBadRequest: int := 400
  const StatusNotFound: int := 404
  const StatusInternalServerError: int := 500

  /** The responses `ServeHTTP` builds itself. */
  const NotFoundResponse: HttpError := HttpError(StatusNotFound, NotFound, "cannot find entity with this id")
  const InvalidBodyResponse: HttpError := HttpError(StatusBadRequest, BadRequest, "invalid body")
  const RecordsResponse: HttpError := HttpError(StatusInternalServerError, InternalServerError, "cannot get records from db")
  const InternalResponse: HttpError := HttpError(StatusInternalServerError, InternalServerError, "internal server error")

  /** The errors the handlers return before calling the service. */
  const InvalidUuid: Error := Http(HttpError(StatusBadRequest, BadRequest, "invalid uuid"))
  const InvalidUserBody: Error := Http(HttpError(StatusBadRequest, BadRequest, "invalid user body"))

  /** The target `StorageError{Code: code}` of the `errors.Is` tests. */
  function Target(code: string): Error
  {
    Storage(StorageError(code, ""))
  }

  /** The four independent `if errors.Is(...)` tests of the `StorageError` case, in order. */
  function StorageResponses(s: StorageError): (sent: seq<HttpError>)
    ensures |sent| <= 1
    ensures sent == [] <==>
      s.code != EntityNotFound && s.code != UnmarshalingEntity && s.code != MarshalingEntity && s.code != GettingRecords
  {
    var e := Storage(s);
    (if ErrorsIs(e, Target(EntityNotFound)) then [NotFoundResponse] else []) +
    (if ErrorsIs(e, Target(UnmarshalingEntity)) then [InvalidBodyResponse] else []) +
    (if ErrorsIs(e, Target(MarshalingEntity)) then [InvalidBodyResponse] else []) +
    (if ErrorsIs(e, Target(GettingRecords)) then [RecordsResponse] else [])
  }

  /**
   * `RootHandler.ServeHTTP`: the `sendError` calls made for the handler's
   * returned error, in order. Because the four codes differ, a storage error
   * triggers at most one of the tests, so at most one response is sent.
   */
  function ServeHttp(err: Option<Error>): (sent: seq<HttpError>)
    ensures |sent| <= 1
    ensures err.None? ==> sent == []
    ensures err.Some? && err.value.Storage? ==>
      var code := err.value.storage.code;
      sent == if code == EntityNotFound then [NotFoundResponse]
              else if code == UnmarshalingEntity || code == MarshalingEntity then [InvalidBodyResponse]
              else if code == GettingRecords then [RecordsResponse]
              else []
    ensures err.Some? && err.value.Service? ==> sent == []
    ensures err.Some? && err.value.Http? ==> sent == [err.value.http]
    ensures err.Some? && (err.value.Plain? || err.value.Client?) ==> sent == [InternalResponse]
  {
    match err
    case None => []
    case Some(e) =>
      match e
      case Storage(s) => StorageResponses(s)
      case Service(_) => []
      case Http(h) => [h]
      case _ => [InternalResponse]
  }

  /**
   * `net/http`'s rule for which statuses may carry a body: none for 1xx, 204
   * and 304, whose `Write` fails with `ErrBodyNotAllowed` and sends nothing.
   */
  function BodyAllowed(status: int): (allowed: bool)
    ensures status == StatusNoContent ==> !allowed
    ensures status == StatusOK || status == StatusCreated || status >= StatusBadRequest ==> allowed
  {
    !(100 <= status < 200) && status != 204 && status != 304
  }

  /** The five routes of the user resource. */
  datatype Route = GetUserById | GetAllUsers | CreateUser | UpdateUser | DeleteUser

  /**
   * The status a route's handler answers with when it returns nil: the two
   * reads write no header, which `net/http` answers with 200; the others
   * call `WriteHeader` explicitly.
   */
  function SuccessStatus(route: Route): (status: int)
    ensures status == StatusCreated <==> route == CreateUser
    ensures status == StatusNoContent <==> route == UpdateUser || route == DeleteUser
    ensures status == StatusOK <==> route == GetUserById || route == GetAllUsers
    ensures BodyAllowed(status) <==> !(route == UpdateUser || route == DeleteUser)
  {
    match route
    case CreateUser => StatusCreated
    case UpdateUser => StatusNoContent
    case DeleteUser => StatusNoContent
    case _ => StatusOK
  }

  /**
   * The status the client receives: the handler's own on success, the status
   * of the one response `ServeHTTP` sends, or the implicit 200 of
   * `net/http` when `ServeHTTP` sends nothing.
   */
  function ResponseStatus(route: Route, err: Option<Error>): (status: int)
    ensures err.None? ==> status == SuccessStatus(route)
    ensures err.Some? && err.value.Http? ==> status == err.value.http.status
    ensures err.Some? && (err.value.Plain? || err.value.Client?) ==> status == StatusInternalServerError
    ensures err.Some? && err.value.Service? ==> status == StatusOK
    ensures err.Some? && err.value.Storage? ==>
      var code := err.value.storage.code;
      status == if code == EntityNotFound then StatusNotFound
                else if code == UnmarshalingEntity || code == MarshalingEntity then StatusBadRequest
                else if code == GettingRecords then StatusInternalServerError
                else StatusOK
  {
    if err.None? then SuccessStatus(route)
    else
      var sent := ServeHttp(err);
      if sent == [] then StatusOK else sent[0].status
  }

  /**
   * The handlers' checks of the request before the service is called, in
   * their order: the path id (`uuid.Parse`, its outcome an input), the JSON
   * body (`Decode`, its outcome an input) and `validator` (its message, if
   * any, an input). `None` lets the request through to the service.
   */
  function Rejection(needsId: bool, id: Option<UUID>, needsBody: bool, req: Option<UserRequest>,
                     violation: Option<string>): (r: Option<Error>)
    ensures needsId && id.None? ==> r == Some(InvalidUuid)
    ensures r.None? <==> (needsId ==> id.Some?) && (needsBody ==> req.Some? && violation.None?)
    ensures r.Some? ==> r.value.Http? && r.value.http.status == StatusBadRequest && r.value.http.code == BadRequest
    ensures (needsId ==> id.Some?) && needsBody && req.None? ==> r == Some(InvalidUserBody)
    ensures (needsId ==> id.Some?) && needsBody && req.Some? && violation.Some? ==>
      r == Some(Http(HttpError(StatusBadRequest, BadRequest, violation.value)))
  {
    if needsId && id.None? then Some(InvalidUuid)
    else if needsBody && req.None? then Some(InvalidUserBody)
    else if needsBody && violation.Some? then Some(Http(HttpError(StatusBadRequest, BadRequest, violation.value)))
    else None
  }

  /** `GetUserById`: the error returned to `ServeHTTP`, and the user encoded into the body on success. */
  method GetUserByIdHandler(svc: UserService.UserService, id: Option<UUID>) returns (err: Option<Error>, body: Option<User>)
    requires svc.Valid()
    ensures id.None? ==> err == Some(InvalidUuid) && body == None
    ensures id.Some? && svc.storage.Memory? ==>
      if id.value in svc.storage.mem.entities then err == None && body == Some(svc.storage.mem.entities[id.value])
      else err == Some(Plain(DbUserNotFound)) && body == None
    ensures id.Some? && svc.storage.Redis? ==>
      var f := RedisStorage.Fetch(svc.storage.redis.client, svc.storage.redis.faults, svc.storage.redis.codec,
                                  RedisStorage.Key(id.value));
      err == f.1 && body == (if f.1.None? then Some(f.0) else None)
  {
    err := Rejection(true, id, false, None, None);
    if err.Some? {
      return err, None;
    }
    var user;
    user, err := svc.Get(id.value);
    if err.Some? {
      return err, None;
    }
    body := Some(user);
  }

  /** `GetAllUsers`: the error returned to `ServeHTTP`, and the list encoded into the body. */
  method GetAllUsersHandler(svc: UserService.UserService) returns (err: Option<Error>, body: seq<User>)
    requires svc.Valid()
    ensures svc.storage.Memory? ==>
      err == None && multiset(body) == Bags.Values(svc.storage.mem.entities) && |body| == |svc.storage.mem.entities|
    ensures svc.storage.Redis? ==> exists keys :: svc.storage.redis.Lists(keys, body, err)
    ensures err.Some? ==> body == []
  {
    body, err := svc.GetAll();
    if err.Some? {
      return err, [];
    }
  }

  /** `CreateUser`: the error returned to `ServeHTTP`, and the id encoded into the body on success. */
  method CreateUserHandler(svc: UserService.UserService, req: Option<UserRequest>, violation: Option<string>, newId: UUID)
    returns (err: Option<Error>, created: Option<UUID>)
    requires svc.Valid()
    modifies svc.storage.Repr()
    ensures Rejection(false, None, true, req, violation).Some? ==>
      err == Rejection(false, None, true, req, violation) && created == None &&
      (svc.storage.Memory? ==> svc.storage.mem.entities == old(svc.storage.mem.entities)) &&
      (svc.storage.Redis? ==> svc.storage.redis.client == old(svc.storage.redis.client))
    ensures Rejection(false, None, true, req, violation).None? && svc.storage.Memory? ==>
      err == None && created == Some(newId) &&
      svc.storage.mem.entities == old(svc.storage.mem.entities)[newId := UserService.NewUser(newId, req.value)]
    ensures Rejection(false, None, true, req, violation).None? && svc.storage.Redis? ==>
      (err.None? <==>
        svc.storage.redis.codec.encode(UserService.NewUser(newId, req.value)).Some? &&
        svc.storage.redis.faults.setFault.None?) &&
      (err.None? ==> (created == Some(newId) &&
        svc.storage.redis.codec.encode(UserService.NewUser(newId, req.value)).Some? &&
        svc.storage.redis.client ==
          old(svc.storage.redis.client)[RedisStorage.Key(newId) := svc.storage.redis.codec.encode(UserService.NewUser(newId, req.value)).value])) &&
      (err.Some? ==> created == None && svc.storage.redis.client == old(svc.storage.redis.client))
  {
    err := Rejection(false, None, true, req, violation);
    if err.Some? {
      return err, None;
    }
    var id;
    id, err := svc.Create(req.value, newId);
    if err.Some? {
      return err, None;
    }
    created := Some(id);
  }

  /**
   * `UpdateUser`: the error returned to `ServeHTTP`, and on success the user
   * handed to the encoder after the 204, which `net/http` does not send.
   */
  method UpdateUserHandler(svc: UserService.UserService, id: Option<UUID>, req: Option<UserRequest>, violation: Option<string>)
    returns (err: Option<Error>, encoded: Option<User>)
    requires svc.Valid()
    modifies svc.storage.Repr()
    ensures Rejection(true, id, true, req, violation).Some? ==>
      err == Rejection(true, id, true, req, violation) && encoded == None &&
      (svc.storage.Memory? ==> svc.storage.mem.entities == old(svc.storage.mem.entities)) &&
      (svc.storage.Redis? ==> svc.storage.redis.client == old(svc.storage.redis.client))
    ensures Rejection(true, id, true, req, violation).None? && svc.storage.Memory? ==>
      if id.value in old(svc.storage.mem.entities) then
        err == None && encoded == Some(UserService.NewUser(id.value, req.value)) &&
        svc.storage.mem.entities == old(svc.storage.mem.entities)[id.value := UserService.NewUser(id.value, req.value)]
      else
        err == Some(Plain(DbUserNotFound)) && encoded == None &&
        svc.storage.mem.entities == old(svc.storage.mem.entities)
    ensures Rejection(true, id, true, req, violation).None? && svc.storage.Redis? ==>
      (err.None? <==>
        RedisStorage.Fetch(old(svc.storage.redis.client), svc.storage.redis.faults, svc.storage.redis.codec,
                           RedisStorage.Key(id.value)).1.None? &&
        svc.storage.redis.codec.encode(UserService.NewUser(id.value, req.value)).Some? &&
        svc.storage.redis.faults.setFault.None?) &&
      (err.None? ==> (encoded == Some(UserService.NewUser(id.value, req.value)) &&
        svc.storage.redis.codec.encode(UserService.NewUser(id.value, req.value)).Some? &&
        svc.storage.redis.client ==
          old(svc.storage.redis.client)[RedisStorage.Key(id.value) := svc.storage.redis.codec.encode(UserService.NewUser(id.value, req.value)).value])) &&
      (err.Some? ==> encoded == None && svc.storage.redis.client == old(svc.storage.redis.client))
  {
    err := Rejection(true, id, true, req, violation);
    if err.Some? {
      return err, None;
    }
    assert id.Some? && req.Some?;
    var user;
    user, err := svc.Update(id.value, req.value);
    if err.Some? {
      return err, None;
    }
    encoded := Some(user);
  }

  /**
   * `DeleteUser`: the error returned to `ServeHTTP`, and on success the id
   * handed to the encoder after the 204, which `net/http` does not send.
   */
  method DeleteUserHandler(svc: UserService.UserService, id: Option<UUID>) returns (err: Option<Error>, encoded: Option<UUID>)
    requires svc.Valid()
    modifies svc.storage.Repr()
    ensures id.None? ==>
      err == Some(InvalidUuid) && encoded == None &&
      (svc.storage.Memory? ==> svc.storage.mem.entities == old(svc.storage.mem.entities)) &&
      (svc.storage.Redis? ==> svc.storage.redis.client == old(svc.storage.redis.client))
    ensures id.Some? && svc.storage.Memory? ==>
      if id.value in old(svc.storage.mem.entities) then
        err == None && encoded == Some(id.value) &&
        svc.storage.mem.entities == old(svc.storage.mem.entities) - {id.value}
      else
        err == Some(Plain(DbUserNotFound)) && encoded == None &&
        svc.storage.mem.entities == old(svc.storage.mem.entities)
    ensures id.Some? && svc.storage.Redis? ==>
      (err.None? <==>
        RedisStorage.Fetch(old(svc.storage.redis.client), svc.storage.redis.faults, svc.storage.redis.codec,
                           RedisStorage.Key(id.value)).1.None? &&
        svc.storage.redis.faults.delFault.None?) &&
      (err.None? ==> (encoded == Some(id.value) &&
        svc.storage.redis.client == old(svc.storage.redis.client) - {RedisStorage.Key(id.value)})) &&
      (err.Some? ==> encoded == None && svc.storage.redis.client == old(svc.storage.redis.client))
  {
    err := Rejection(true, id, false, None, None);
    if err.Some? {
      return err, None;
    }
    var gone;
    gone, err := svc.Delete(id.value);
    if err.Some? {
      return err, None;
    }
    encoded := Some(gone);
  }
}

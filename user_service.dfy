/**
 * The layered service `UserService`: it builds a `User` from a request,
 * fixing its id, delegates to the storage it was built with and hands back
 * the storage's results and errors. The storage is one of the two backends;
 * each method's contract is, for each backend, what that backend's method
 * promises for the user the service built. Logging is left out: it writes
 * nothing the methods return.
 */
module UserService {
  import opened Wrappers
  import opened Uuid
  import opened Entities
  import opened Errors
  import Bags
  import MemoryStorage
  import RedisStorage

  /** `db.Storage[entities.User]`: whichever backend the service was given. */
  datatype Backend = Memory(mem: MemoryStorage.Storage<User>) | Redis(redis: RedisStorage.Storage)
  {
    /** The one object the backend's methods may change. */
    function Repr(): set<object>
    {
      match this
      case Memory(m) => {m}
      case Redis(r) => {r}
    }
  }

  /** The `User` literal of `Create` and `Update`: the request's attributes under the given id. */
  function NewUser(id: UUID, req: UserRequest): (u: User)
    ensures GetId(u) == id && RequestOf(u) == req
  {
    User(id, req.name, req.lastName, req.email, req.active, req.address)
  }

  /** The attributes of a user, its identity dropped. */
  function RequestOf(u: User): UserRequest
  {
    UserRequest(u.name, u.lastName, u.email, u.active, u.address)
  }

  /** A user is exactly its id plus its attributes: nothing is merged or lost. */
  lemma NewUserOfRequestOf(u: User)
    ensures NewUser(u.id, RequestOf(u)) == u
  {
  }

  class UserService {
    const storage: Backend

    /** A memory backend must be a store of users: id from `Id`, zero value `User{}`. */
    ghost predicate Valid()
    {
      storage.Memory? ==> storage.mem.zero == ZeroUser && forall u :: storage.mem.getId(u) == u.id
    }

    /** `NewUserService`. */
    constructor (storage: Backend)
      requires storage.Memory? ==> storage.mem.zero == ZeroUser && forall u :: storage.mem.getId(u) == u.id
      ensures this.storage == storage && Valid()
    {
      this.storage := storage;
    }

    /** The stored user, or a zero `User` with the storage's error unchanged. */
    method Get(id: UUID) returns (user: User, err: Option<Error>)
      requires Valid()
      ensures err.Some? ==> user == ZeroUser
      ensures storage.Memory? ==>
        if id in storage.mem.entities then user == storage.mem.entities[id] && err == None
        else err == Some(Plain(DbUserNotFound))
      ensures storage.Redis? ==>
        (user, err) == RedisStorage.Fetch(storage.redis.client, storage.redis.faults, storage.redis.codec, RedisStorage.Key(id))
    {
      match storage
      case Memory(m) =>
        user, err := m.Get(id);
      case Redis(r) =>
        user, err := r.Get(id);
      if err.Some? {
        return ZeroUser, err;
      }
      return user, None;
    }

    /** A pass-through of the storage's `GetAll`. */
    method GetAll() returns (users: seq<User>, err: Option<Error>)
      requires Valid()
      ensures storage.Memory? ==>
        err == None && multiset(users) == Bags.Values(storage.mem.entities) && |users| == |storage.mem.entities|
      ensures storage.Redis? ==> exists keys :: storage.redis.Lists(keys, users, err)
    {
      match storage
      case Memory(m) =>
        users, err := m.GetAll();
      case Redis(r) =>
        users, err := r.GetAll();
    }

    /** Hands storage the request's user under the freshly minted `newId`, and returns storage's answer. */
    method Create(req: UserRequest, newId: UUID) returns (id: UUID, err: Option<Error>)
      requires Valid()
      modifies storage.Repr()
      ensures storage.Memory? ==>
        id == newId && err == None &&
        storage.mem.entities == old(storage.mem.entities)[newId := NewUser(newId, req)]
      ensures storage.Redis? && storage.redis.codec.encode(NewUser(newId, req)).None? ==>
        id == Nil && err == Some(Plain(MarshalingRecord)) && storage.redis.client == old(storage.redis.client)
      ensures storage.Redis? && storage.redis.codec.encode(NewUser(newId, req)).Some? && storage.redis.faults.setFault.Some? ==>
        id == Nil && err == Some(Client(storage.redis.faults.setFault.value)) &&
        storage.redis.client == old(storage.redis.client)
      ensures storage.Redis? && storage.redis.codec.encode(NewUser(newId, req)).Some? && storage.redis.faults.setFault.None? ==>
        id == newId && err == None &&
        storage.redis.client ==
          old(storage.redis.client)[RedisStorage.Key(newId) := storage.redis.codec.encode(NewUser(newId, req)).value]
    {
      var user := NewUser(newId, req);
      match storage
      case Memory(m) =>
        id, err := m.Create(user);
      case Redis(r) =>
        id, err := r.Create(user);
    }

    /** Hands storage a full replacement: the path id and the request's attributes, nothing merged. */
    method Update(id: UUID, req: UserRequest) returns (user: User, err: Option<Error>)
      requires Valid()
      modifies storage.Repr()
      ensures storage.Memory? && id !in old(storage.mem.entities) ==>
        user == ZeroUser && err == Some(Plain(DbUserNotFound)) &&
        storage.mem.entities == old(storage.mem.entities)
      ensures storage.Memory? && id in old(storage.mem.entities) ==>
        user == NewUser(id, req) && err == None &&
        storage.mem.entities == old(storage.mem.entities)[id := NewUser(id, req)]
      ensures (storage.Redis? &&
        RedisStorage.Fetch(old(storage.redis.client), storage.redis.faults, storage.redis.codec, RedisStorage.Key(id)).1.Some?) ==>
        user == ZeroUser && storage.redis.client == old(storage.redis.client) &&
        err == RedisStorage.Fetch(old(storage.redis.client), storage.redis.faults, storage.redis.codec, RedisStorage.Key(id)).1
      ensures (storage.Redis? &&
        RedisStorage.Fetch(old(storage.redis.client), storage.redis.faults, storage.redis.codec, RedisStorage.Key(id)).1.None?) ==>
        if storage.redis.codec.encode(NewUser(id, req)).None? then
          user == ZeroUser && err == Some(Plain(MarshalingRecord)) && storage.redis.client == old(storage.redis.client)
        else if storage.redis.faults.setFault.Some? then
          user == ZeroUser && err == Some(Client(storage.redis.faults.setFault.value)) &&
          storage.redis.client == old(storage.redis.client)
        else
          user == NewUser(id, req) && err == None &&
          storage.redis.client ==
            old(storage.redis.client)[RedisStorage.Key(id) := storage.redis.codec.encode(NewUser(id, req)).value]
    {
      var newUser := NewUser(id, req);
      match storage
      case Memory(m) =>
        user, err := m.Update(id, newUser);
      case Redis(r) =>
        user, err := r.Update(id, newUser);
    }

    /** A pass-through of the storage's `Delete`: the id storage returned, and its error. */
    method Delete(id: UUID) returns (deleted: UUID, err: Option<Error>)
      requires Valid()
      modifies storage.Repr()
      ensures storage.Memory? && id !in old(storage.mem.entities) ==>
        deleted == Nil && err == Some(Plain(DbUserNotFound)) && storage.mem.entities == old(storage.mem.entities)
      ensures storage.Memory? && id in old(storage.mem.entities) ==>
        deleted == id && err == None && storage.mem.entities == old(storage.mem.entities) - {id}
      ensures (storage.Redis? &&
        RedisStorage.Fetch(old(storage.redis.client), storage.redis.faults, storage.redis.codec, RedisStorage.Key(id)).1.Some?) ==>
        deleted == Nil && storage.redis.client == old(storage.redis.client) &&
        err == RedisStorage.Fetch(old(storage.redis.client), storage.redis.faults, storage.redis.codec, RedisStorage.Key(id)).1
      ensures (storage.Redis? &&
        RedisStorage.Fetch(old(storage.redis.client), storage.redis.faults, storage.redis.codec, RedisStorage.Key(id)).1.None?) ==>
        if storage.redis.faults.delFault.Some? then
          deleted == Nil && err == Some(Client(storage.redis.faults.delFault.value)) &&
          storage.redis.client == old(storage.redis.client)
        else
          deleted == id && err == None && storage.redis.client == old(storage.redis.client) - {RedisStorage.Key(id)}
    {
      match storage
      case Memory(m) =>
        deleted, err := m.Delete(id);
      case Redis(r) =>
        deleted, err := r.Delete(id);
    }
  }
}

/**
 * The in-memory backend `memoryStorage[T]`: one mutable map from id to
 * entity. It is generic over any entity that exposes its id; without
 * interfaces, the id accessor and Go's zero value of `T` are fixed when the
 * store is made.
 */
module MemoryStorage {
  import opened Wrappers
  import opened Uuid
  import opened Errors
  import Bags

  class Storage<T(==)> {
    var entities: map<UUID, T>
    /** `T.GetId()`. */
    const getId: T -> UUID
    /** `var zeroValue T`. */
    const zero: T

    /** `NewMemoryStorage`: a store with no entities. */
    constructor (getId: T -> UUID, zero: T)
      ensures entities == map[]
      ensures this.getId == getId && this.zero == zero
    {
      this.getId := getId;
      this.zero := zero;
      entities := map[];
    }

    /** Puts `thing` under its own id, replacing whatever was there; never fails. */
    method Create(thing: T) returns (id: UUID, err: Option<Error>)
      modifies this
      ensures id == getId(thing) && err == None
      ensures entities == old(entities)[getId(thing) := thing]
    {
      id := getId(thing);
      entities := entities[id := thing];
      err := None;
    }

    method Get(key: UUID) returns (value: T, err: Option<Error>)
      ensures key in entities ==> value == entities[key] && err == None
      ensures key !in entities ==> value == zero && err == Some(Plain(DbUserNotFound))
    {
      if key !in entities {
        return zero, Some(Plain(DbUserNotFound));
      }
      return entities[key], None;
    }

    /** One element per stored entity, in the map's (unspecified) iteration order. */
    method GetAll() returns (list: seq<T>, err: Option<Error>)
      ensures err == None
      ensures multiset(list) == Bags.Values(entities)
      ensures |list| == |entities|
    {
      list := [];
      var rest := entities.Keys;
      while rest != {}
        invariant rest <= entities.Keys
        invariant multiset(list) + Bags.ValuesOn(entities, rest) == Bags.Values(entities)
        invariant |list| + |rest| == |entities|
        decreases rest
      {
        var k :| k in rest;
        Bags.ValuesOnRemove(entities, rest, k);
        assert multiset(list + [entities[k]]) == multiset(list) + multiset{entities[k]};
        list := list + [entities[k]];
        rest := rest - {k};
      }
      err := None;
    }

    /** Replaces the entity under `key` as given; its own id is not rewritten. */
    method Update(key: UUID, newValue: T) returns (value: T, err: Option<Error>)
      modifies this
      ensures key !in old(entities) ==>
        value == zero && err == Some(Plain(DbUserNotFound)) && entities == old(entities)
      ensures key in old(entities) ==>
        value == newValue && err == None && entities == old(entities)[key := newValue]
    {
      var _, e := Get(key);
      if e.Some? {
        return zero, Some(Plain(DbUserNotFound));
      }
      entities := entities[key := newValue];
      return entities[key], None;
    }

    method Delete(key: UUID) returns (id: UUID, err: Option<Error>)
      modifies this
      ensures key !in old(entities) ==>
        id == Nil && err == Some(Plain(DbUserNotFound)) && entities == old(entities)
      ensures key in old(entities) ==>
        id == key && err == None && entities == old(entities) - {key}
    {
      var _, e := Get(key);
      if e.Some? {
        return Nil, e;
      }
      entities := entities - {key};
      return key, None;
    }
  }
}

/**
 * The early service draft `userService`: it owns a map of users itself,
 * seeds it with five users and mints ids itself. Minting (`uuid.New()`) is
 * a caller-supplied id that must be fresh.
 */
module MapUserService {
  import opened Wrappers
  import opened Uuid
  import opened Entities
  import opened Errors
  import Bags

  /** The five users `createInitialUsers` starts from; their ids are minted when they are stored. */
  const InitialUsers: seq<User> := [
    User(Nil, "Leo", "Messi", "leo.messi@gmail.com", true,
      Address("Miami", "USA", "Avenida 112f # 88 - 15")),
    User(Nil, "Cristiano", "Ronaldo", "cr7.@gmail.com", true,
      Address("Abu Dhabi", "Emiratos Arabes", "Cra 112f # 88 - 15")),
    User(Nil, "Kilian", "Mbappe", "mbappe.@gmail.com", true,
      Address("Paris", "Francia", "Rue 112f # 88 - 15")),
    User(Nil, "Joao", "Felix", "felix.@gmail.com", true,
      Address("Barcelona", "España", "Calle 112f # 88 - 15")),
    User(Nil, "Robert", "Lewandoski", "lewandoski.@gmail.com", true,
      Address("Barcelona", "España", "Calle 112f # 88 - 18"))
  ]

  /** Every stored user carries its own key as its id. */
  ghost predicate KeyedById(users: map<UUID, User>)
  {
    forall k :: k in users ==> users[k].id == k
  }

  /** The i-th seed user as it is stored, under the id minted for it. */
  function SeedUser(i: nat, id: UUID): (u: User)
    requires i < |InitialUsers|
    ensures u.id == id
  {
    InitialUsers[i].(id := id)
  }

  /** `createInitialUsers`, with `ids[i]` the id minted for the i-th seed user. */
  method CreateInitialUsers(ids: seq<UUID>) returns (users: map<UUID, User>)
    requires |ids| == |InitialUsers|
    requires forall i, j :: 0 <= i < j < |ids| ==> ids[i] != ids[j]
    ensures |users| == 5
    ensures forall k :: k in users <==> k in ids
    ensures forall i :: 0 <= i < |ids| ==> users[ids[i]] == InitialUsers[i].(id := ids[i])
    ensures KeyedById(users)
  {
    users := map[];
    for i := 0 to |InitialUsers|
      invariant forall k :: k in users <==> k in ids[..i]
      invariant forall j :: 0 <= j < i ==> users[ids[j]] == SeedUser(j, ids[j])
      invariant |users| == i
      invariant KeyedById(users)
    {
      var u := SeedUser(i, ids[i]);
      assert ids[i] !in users;
      users := users[ids[i] := u];
    }
  }

  /** Every user in a listing of a keyed map's values sits under its own id. */
  lemma ListedAreStored(users: map<UUID, User>, list: seq<User>)
    requires KeyedById(users) && multiset(list) == Bags.Values(users)
    ensures forall u :: u in list ==> u.id in users && users[u.id] == u
  {
    forall u | u in list
      ensures u.id in users && users[u.id] == u
    {
      assert u in multiset(list);
      Bags.ValuesOnMember(users, users.Keys, u);
    }
  }

  class UserService {
    var users: map<UUID, User>

    ghost predicate Valid()
      reads this
    {
      KeyedById(users)
    }

    /** `NewUserService`: exactly the five seed users, each under its own freshly minted id. */
    constructor (ids: seq<UUID>)
      requires |ids| == |InitialUsers|
      requires forall i, j :: 0 <= i < j < |ids| ==> ids[i] != ids[j]
      ensures Valid()
      ensures |users| == 5
      ensures forall k :: k in users <==> k in ids
      ensures forall i :: 0 <= i < |ids| ==> users[ids[i]] == InitialUsers[i].(id := ids[i])
    {
      var seeded := CreateInitialUsers(ids);
      users := seeded;
    }

    /** Stores `user` under the fresh id `id`, with its own id set to it. */
    method Create(user: User, id: UUID) returns (r: UUID)
      requires Valid()
      requires id !in users
      modifies this
      ensures Valid()
      ensures r == id
      ensures users == old(users)[id := user.(id := id)]
      ensures |users| == |old(users)| + 1
    {
      var u := user.(id := id);
      users := users[id := u];
      return id;
    }

    method Get(key: UUID) returns (user: User, err: Option<Error>)
      requires Valid()
      ensures key in users ==> user == users[key] && user.id == key && err == None
      ensures key !in users ==> user == ZeroUser && err == Some(Plain(ServiceUserNotFound))
    {
      if key !in users {
        return ZeroUser, Some(Plain(ServiceUserNotFound));
      }
      return users[key], None;
    }

    /** Every stored user once, in the map's (unspecified) iteration order. */
    method GetAll() returns (list: seq<User>)
      requires Valid()
      ensures multiset(list) == Bags.Values(users)
      ensures |list| == |users|
      ensures forall u :: u in list ==> u.id in users && users[u.id] == u
    {
      list := [];
      var stored := users;
      var rest := stored.Keys;
      while rest != {}
        invariant rest <= stored.Keys
        invariant multiset(list) + Bags.ValuesOn(stored, rest) == Bags.Values(stored)
        invariant |list| + |rest| == |stored|
        decreases rest
      {
        var k :| k in rest;
        Bags.ValuesOnRemove(stored, rest, k);
        assert multiset(list + [stored[k]]) == multiset(list) + multiset{stored[k]};
        list := list + [stored[k]];
        rest := rest - {k};
      }
      ListedAreStored(users, list);
    }

    /** Replaces the user under `key`, forcing its id to `key`. */
    method Update(key: UUID, newUser: User) returns (user: User, err: Option<Error>)
      requires Valid()
      modifies this
      ensures Valid()
      ensures key !in old(users) ==>
        user == ZeroUser && err == Some(Plain(ServiceUserNotFound)) && users == old(users)
      ensures key in old(users) ==>
        user == newUser.(id := key) && err == None && users == old(users)[key := newUser.(id := key)]
    {
      var _, e := Get(key);
      if e.Some? {
        return ZeroUser, e;
      }
      var u := newUser.(id := key);
      users := users[key := u];
      return users[key], None;
    }

    method Delete(key: UUID) returns (err: Option<Error>)
      requires Valid()
      modifies this
      ensures Valid()
      ensures key !in old(users) ==> err == Some(Plain(ServiceUserNotFound)) && users == old(users)
      ensures key in old(users) ==> err == None && users == old(users) - {key}
    {
      var _, e := Get(key);
      if e.Some? {
        return e;
      }
      users := users - {key};
      return None;
    }
  }
}

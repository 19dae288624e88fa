/**
 * The Redis backend `redisStorage`. The Redis server is the map `client`
 * from key to stored string; which client commands fail is fixed by
 * `faults`. Users are stored as the codec's text under "user:" + id.String().
 * `encoding/json` is the `Codec`: two total functions whose `None` is the
 * library's error; the round trip is not assumed but stated as `Lossless`
 * and required where it is used.
 */
module RedisStorage {
  import opened Wrappers
  import opened Uuid
  import opened Entities
  import opened Errors

  const Prefix: string := "user:"

  /** `prefix + id.String()`, the key of one user. */
  function Key(id: UUID): (k: string)
    ensures Prefix <= k && |k| == |Prefix| + 36
  {
    Prefix + ToString(id)
  }

  /** Distinct users never share a key. */
  lemma KeyInjective(a: UUID, b: UUID)
    requires Key(a) == Key(b)
    ensures a == b
  {
    assert Key(a)[|Prefix|..] == ToString(a);
    assert Key(b)[|Prefix|..] == ToString(b);
    ToStringInjective(a, b);
  }

  /** For each client command, the error it returns, if it fails. */
  datatype Faults = Faults(
    getFault: Option<string>,
    setFault: Option<string>,
    delFault: Option<string>,
    scanFault: Option<string>,
    mgetFault: Option<string>)

  const NoFaults: Faults := Faults(None, None, None, None, None)

  /** `json.Marshal` and `json.Unmarshal` on users; `None` is the library's error. */
  datatype Codec = Codec(encode: User -> Option<string>, decode: string -> Option<User>)

  /** Decoding what was encoded gives back the same user. */
  ghost predicate Lossless(c: Codec)
  {
    forall u :: c.encode(u).Some? ==> c.decode(c.encode(u).value) == Some(u)
  }

  /** `marshalUser`: a library failure becomes `ErrMarshalingRecord`. */
  function MarshalUser(c: Codec, u: User): (r: Result<string, Error>)
    ensures r.Success? <==> c.encode(u).Some?
    ensures r.Success? ==> c.encode(u) == Some(r.value)
    ensures r.Failure? ==> r.error == Plain(MarshalingRecord)
  {
    match c.encode(u)
    case Some(s) => Success(s)
    case None => Failure(Plain(MarshalingRecord))
  }

  /** `unmarshalUser`: a library failure becomes a zero user and `ErrUnmarshalingRecord`. */
  function UnmarshalUser(c: Codec, s: string): (r: (User, Option<Error>))
    ensures r.1.None? <==> c.decode(s).Some?
    ensures r.1.None? ==> c.decode(s) == Some(r.0)
    ensures r.1.Some? ==> r == (ZeroUser, Some(Plain(UnmarshalingRecord)))
  {
    match c.decode(s)
    case Some(u) => (u, None)
    case None => (ZeroUser, Some(Plain(UnmarshalingRecord)))
  }

  lemma UnmarshalMarshal(c: Codec, u: User)
    requires Lossless(c) && MarshalUser(c, u).Success?
    ensures UnmarshalUser(c, MarshalUser(c, u).value) == (u, None)
  {
  }

  /** `getValueCache` on server contents `client`: any client error, a missing key included, is normalised to `ErrUserNotFound`. */
  function Fetch(client: map<string, string>, faults: Faults, codec: Codec, key: string): (r: (User, Option<Error>))
    ensures r.1 == None || r.1 == Some(Plain(DbUserNotFound)) || r.1 == Some(Plain(UnmarshalingRecord))
    ensures r.1.Some? ==> r.0 == ZeroUser
  {
    if faults.getFault.Some? || key !in client then (ZeroUser, Some(Plain(DbUserNotFound)))
    else UnmarshalUser(codec, client[key])
  }

  /** With a lossless codec, what was written under a user's key reads back as that user. */
  lemma FetchAfterWrite(client: map<string, string>, faults: Faults, codec: Codec, u: User)
    requires Lossless(codec) && codec.encode(u).Some? && faults.getFault.None?
    ensures Fetch(client[Key(u.id) := codec.encode(u).value], faults, codec, Key(u.id)) == (u, None)
  {
  }

  /** Writing or deleting one user's key does not change what another id reads. */
  lemma FetchOtherId(client: map<string, string>, faults: Faults, codec: Codec, a: UUID, b: UUID, v: string)
    requires a != b
    ensures Fetch(client[Key(a) := v], faults, codec, Key(b)) == Fetch(client, faults, codec, Key(b))
    ensures Fetch(client - {Key(a)}, faults, codec, Key(b)) == Fetch(client, faults, codec, Key(b))
  {
    if Key(a) == Key(b) {
      KeyInjective(a, b);
    }
  }

  /** The keys `SCAN prefix*` visits: those of the server that start with the prefix. */
  function Namespace(client: map<string, string>, prefix: string): (keys: set<string>)
    ensures keys <= client.Keys
    ensures prefix == Prefix ==> forall id :: Key(id) in client ==> Key(id) in keys
  {
    set k | k in client && prefix <= k
  }

  /** `keys` lists the set `s`, each element once. */
  ghost predicate Enumerates(keys: seq<string>, s: set<string>)
  {
    && (forall i, j :: 0 <= i < j < |keys| ==> keys[i] != keys[j])
    && (forall k :: k in keys <==> k in s)
  }

  /** A listing of each element once has as many entries as the set has elements. */
  lemma {:induction false} EnumeratesSize(keys: seq<string>, s: set<string>)
    requires Enumerates(keys, s)
    ensures |keys| == |s|
  {
    if keys == [] {
      assert forall k :: k !in s;
      assert s == {};
    } else {
      var rest := s - {keys[0]};
      forall k
        ensures k in keys[1..] <==> k in rest
      {
        if k in keys[1..] {
          var i :| 0 <= i < |keys[1..]| && keys[1..][i] == k;
          assert keys[i + 1] == k;
        }
        if k in rest {
          var i :| 0 <= i < |keys| && keys[i] == k;
          assert i != 0;
          assert keys[1..][i - 1] == k;
        }
      }
      assert forall i, j :: 0 <= i < j < |keys[1..]| ==> keys[1..][i] == keys[i + 1] && keys[1..][j] == keys[j + 1];
      EnumeratesSize(keys[1..], rest);
    }
  }

  /** `MGET keys`: one entry per key, `nil` for a missing one. */
  function MGet(client: map<string, string>, keys: seq<string>): (values: seq<Option<string>>)
    ensures |values| == |keys|
    ensures (forall k :: k in keys ==> k in client) ==>
      forall i :: 0 <= i < |keys| ==> values[i] == Some(client[keys[i]])
  {
    seq(|keys|, i requires 0 <= i < |keys| => if keys[i] in client then Some(client[keys[i]]) else None)
  }

  /** `fmt.Sprint` of an `MGET` entry. */
  function Sprint(v: Option<string>): (s: string)
    ensures v.Some? ==> s == v.value
  {
    match v
    case Some(s) => s
    case None => "<nil>"
  }

  class Storage {
    var client: map<string, string>
    const faults: Faults
    const codec: Codec
    const prefix: string := Prefix

    /**
     * `NewRedisStorage` once the connection is up: the server already holds
     * `contents`. Connecting, the liveness check and the panic on failure
     * are not part of this model.
     */
    constructor (contents: map<string, string>, faults: Faults, codec: Codec)
      ensures client == contents && this.faults == faults && this.codec == codec
    {
      client := contents;
      this.faults := faults;
      this.codec := codec;
    }

    /**
     * What `GetAll` may return given the order `keys` in which the scan
     * visited the namespace: the scan's own error; `ErrConsultingRecords`
     * when `MGET` fails, which it does for an empty key list too since the
     * code has no guard; `ErrUnmarshalingRecord` with no partial result when
     * any value fails to decode; otherwise one user per key, in key order.
     */
    ghost predicate Lists(keys: seq<string>, users: seq<User>, err: Option<Error>)
      reads this
    {
      && Enumerates(keys, Namespace(client, prefix))
      && (faults.scanFault.Some? ==> users == [] && err == Some(Client(faults.scanFault.value)))
      && (faults.scanFault.None? && (keys == [] || faults.mgetFault.Some?) ==>
            users == [] && err == Some(Plain(ConsultingRecords)))
      && (faults.scanFault.None? && keys != [] && faults.mgetFault.None? ==>
            if forall i :: 0 <= i < |keys| ==> codec.decode(client[keys[i]]).Some? then
              && err == None
              && |users| == |keys|
              && forall i :: 0 <= i < |keys| ==> codec.decode(client[keys[i]]) == Some(users[i])
            else
              users == [] && err == Some(Plain(UnmarshalingRecord)))
    }

    method Get(id: UUID) returns (user: User, err: Option<Error>)
      ensures (user, err) == Fetch(client, faults, codec, Key(id))
    {
      user, err := GetValueCache(ToString(id));
    }

    method GetAll() returns (users: seq<User>, err: Option<Error>)
      ensures exists keys :: Lists(keys, users, err)
    {
      users, err := GetAllValuesCache();
    }

    /** Writes `user` under its own id; on a marshal or write failure returns `uuid.Nil` and the error. */
    method Create(user: User) returns (id: UUID, err: Option<Error>)
      modifies this
      ensures codec.encode(user).None? ==>
        id == Nil && err == Some(Plain(MarshalingRecord)) && client == old(client)
      ensures codec.encode(user).Some? && faults.setFault.Some? ==>
        id == Nil && err == Some(Client(faults.setFault.value)) && client == old(client)
      ensures codec.encode(user).Some? && faults.setFault.None? ==>
        id == user.id && err == None && client == old(client)[Key(user.id) := codec.encode(user).value]
    {
      id := user.id;
      err := SetValueCache(ToString(id), user);
      if err.Some? {
        return Nil, err;
      }
      return id, None;
    }

    /** Checks existence through `Get`, then overwrites the key and returns the given user. */
    method Update(id: UUID, user: User) returns (result: User, err: Option<Error>)
      modifies this
      ensures Fetch(old(client), faults, codec, Key(id)).1.Some? ==>
        result == ZeroUser && err == Fetch(old(client), faults, codec, Key(id)).1 && client == old(client)
      ensures Fetch(old(client), faults, codec, Key(id)).1.None? && codec.encode(user).None? ==>
        result == ZeroUser && err == Some(Plain(MarshalingRecord)) && client == old(client)
      ensures Fetch(old(client), faults, codec, Key(id)).1.None? && codec.encode(user).Some? && faults.setFault.Some? ==>
        result == ZeroUser && err == Some(Client(faults.setFault.value)) && client == old(client)
      ensures Fetch(old(client), faults, codec, Key(id)).1.None? && codec.encode(user).Some? && faults.setFault.None? ==>
        result == user && err == None && client == old(client)[Key(id) := codec.encode(user).value]
    {
      var _, e := Get(id);
      if e.Some? {
        return ZeroUser, e;
      }
      e := SetValueCache(ToString(id), user);
      if e.Some? {
        return ZeroUser, e;
      }
      return user, None;
    }

    /** Checks existence through `Get`, then deletes the key and returns the id. */
    method Delete(id: UUID) returns (result: UUID, err: Option<Error>)
      modifies this
      ensures Fetch(old(client), faults, codec, Key(id)).1.Some? ==>
        result == Nil && err == Fetch(old(client), faults, codec, Key(id)).1 && client == old(client)
      ensures Fetch(old(client), faults, codec, Key(id)).1.None? && faults.delFault.Some? ==>
        result == Nil && err == Some(Client(faults.delFault.value)) && client == old(client)
      ensures Fetch(old(client), faults, codec, Key(id)).1.None? && faults.delFault.None? ==>
        result == id && err == None && client == old(client) - {Key(id)}
    {
      var _, e := Get(id);
      if e.Some? {
        return Nil, e;
      }
      e := DeleteValueCache(ToString(id));
      if e.Some? {
        return Nil, e;
      }
      return id, None;
    }

    method SetValueCache(key: string, user: User) returns (err: Option<Error>)
      modifies this
      ensures codec.encode(user).None? ==> err == Some(Plain(MarshalingRecord)) && client == old(client)
      ensures codec.encode(user).Some? && faults.setFault.Some? ==>
        err == Some(Client(faults.setFault.value)) && client == old(client)
      ensures codec.encode(user).Some? && faults.setFault.None? ==>
        err == None && client == old(client)[prefix + key := codec.encode(user).value]
    {
      var serialized := MarshalUser(codec, user);
      if serialized.Failure? {
        return Some(serialized.error);
      }
      var k := prefix + key;
      if faults.setFault.Some? {
        return Some(Client(faults.setFault.value));
      }
      client := client[k := serialized.value];
      return None;
    }

    method GetValueCache(key: string) returns (user: User, err: Option<Error>)
      ensures (user, err) == Fetch(client, faults, codec, prefix + key)
    {
      var k := prefix + key;
      if faults.getFault.Some? || k !in client {
        return ZeroUser, Some(Plain(DbUserNotFound));
      }
      var decoded := UnmarshalUser(codec, client[k]);
      return decoded.0, decoded.1;
    }

    method GetAllValuesCache() returns (users: seq<User>, err: Option<Error>)
      ensures exists keys :: Lists(keys, users, err)
    {
      var ns := Namespace(client, prefix);
      // The scan iterator: each key of the namespace once, in an order the server picks.
      var remaining := ns;
      var ks: seq<string> := [];
      while remaining != {}
        invariant remaining <= ns
        invariant forall k :: k in ks <==> k in ns && k !in remaining
        invariant forall i, j :: 0 <= i < j < |ks| ==> ks[i] != ks[j]
        decreases remaining
      {
        var k :| k in remaining;
        ks := ks + [k];
        remaining := remaining - {k};
      }
      if faults.scanFault.Some? {
        assert Lists(ks, [], Some(Client(faults.scanFault.value)));
        return [], Some(Client(faults.scanFault.value));
      }
      // MGET is sent even for an empty key list, which Redis rejects.
      if ks == [] || faults.mgetFault.Some? {
        assert Lists(ks, [], Some(Plain(ConsultingRecords)));
        return [], Some(Plain(ConsultingRecords));
      }
      var values := MGet(client, ks);
      users := [];
      for i := 0 to |values|
        invariant |users| == i
        invariant forall j :: 0 <= j < i ==> codec.decode(client[ks[j]]) == Some(users[j])
      {
        var decoded := UnmarshalUser(codec, Sprint(values[i]));
        if decoded.1.Some? {
          assert Lists(ks, [], decoded.1);
          return [], decoded.1;
        }
        users := users + [decoded.0];
      }
      assert Lists(ks, users, None);
      return users, None;
    }

    method DeleteValueCache(key: string) returns (err: Option<Error>)
      modifies this
      ensures faults.delFault.Some? ==> err == Some(Client(faults.delFault.value)) && client == old(client)
      ensures faults.delFault.None? ==> err == None && client == old(client) - {prefix + key}
    {
      var k := prefix + key;
      if faults.delFault.Some? {
        return Some(Client(faults.delFault.value));
      }
      client := client - {k};
      return None;
    }
  }
}

/** The user entity, its address, and the request shape the transport decodes. */
module Entities {
  import opened Uuid

  datatype Address = Address(city: string, country: string, addressString: string)

  datatype User = User(
    id: UUID,
    name: string,
    lastName: string,
    email: string,
    active: bool,
    address: Address)

  /** A user without its identity: what a client sends to create or replace one. */
  datatype UserRequest = UserRequest(
    name: string,
    lastName: string,
    email: string,
    active: bool,
    address: Address)

  /** `StorageObject.GetId()` for a user. */
  function GetId(u: User): (id: UUID)
    ensures id == u.id
  {
    u.id
  }

  /** Go's zero value `entities.User{}`. */
  const ZeroUser: User := User(Nil, "", "", "", false, Address("", "", ""))
}

/**
 * The records the control plane keeps in the store, one constructor for each kind of record. A hash is
 * represented by what it hashes.
 */
module Docs {
  import opened Bytes

  /** Who asked for a ticket. */
  datatype Principal = Device(id: seq<char>) | Human(id: seq<char>)

  datatype Doc =
    | TicketDoc(hostId: seq<byte>, orgId: seq<byte>, principal: Principal, expiresAt: int)
    | RequestDoc(secret: nat, callback: bool, expiresAt: int, userCode: Option<seq<char>>)
    | GrantDoc(userId: nat, code: Option<nat>)
    | TokenDoc(userId: nat, expiresAt: int)
}

/**
 * The outer coordination messages (packages/relay-core/src/messages.ts), the codes a connection is
 * closed with, and the symbolic MACs they carry.
 */
module Messages {
  import opened Bytes
  import opened Symbols

  type HostId = seq<byte>
  type Ticket = seq<byte>

  /** A 32-byte MAC: an HMAC-SHA256 value as the free term it is, or any other bytes. */
  datatype Mac = Hmac(key: seq<Sym>, preimage: seq<byte>) | Forged(bytes: seq<byte>)

  datatype Side = Controller | Host

  datatype CloseCode =
    | UnknownHost | ProofFailed | BadTicket | TicketExpired | TicketReused | BridgeTimeout | DataAuthFailed | Drained
        | ProtocolError

  datatype OuterMessage =
    | HostHello(hostId: HostId)
    | HostChallenge(cellId: seq<byte>, nonce: seq<byte>, cellEphemeral: PublicKey)
    | HostProof(mac: Mac)
    | HostRegistered(hostId: HostId)
    | ConnOpen(ticket: Ticket, bridgeNonce: seq<byte>)
    | DataAuth(role: Side, ticket: Ticket, dialMac: Option<Mac>)
    | DataReady
    | Drain
    | Close(code: CloseCode)
}

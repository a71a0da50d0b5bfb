/** The host proof and the data-leg key. */
module HostProofs {
  // packages/relay-core/src/host-proof.ts. As in the handshake, a secret key is represented by its public
  // key.

  import opened Bytes
  import opened Symbols
  import opened Encodings
  import opened Messages
  import opened Handshakes

  type Nonce = n: seq<byte> | |n| == RELAY_FIELD_BYTES witness seq(RELAY_FIELD_BYTES, _ => 0)

  datatype Challenge = Challenge(cellId: seq<byte>, nonce: Nonce, ephemeral: PublicKey)

  function ComputeMac(dh: seq<Sym>, hostId: HostId, challenge: Challenge): Mac {
    Hmac(Hkdf(dh, Raws(challenge.nonce), Ascii("pherry/relay-core/v1/host-proof"), RELAY_FIELD_BYTES),
         ProofTranscript(hostId, challenge.cellId, challenge.nonce, challenge.ephemeral))
  }

  /** The host's answer; None where the source throws on an unusable ephemeral. */
  function ProveHost(lowOrder: PublicKey -> bool, challenge: Challenge, hostId: HostId,
                     hostStatic: PublicKey): Option<Mac> {
    match Dh(lowOrder, hostStatic, challenge.ephemeral)
    case None => None
    case Some(dh) => Some(ComputeMac(dh, hostId, challenge))
  }

  predicate VerifyProof(lowOrder: PublicKey -> bool, challenge: Challenge, hostId: HostId, hostStaticPub: seq<byte>,
                        mac: Mac) {
    match Dh(lowOrder, challenge.ephemeral, hostStaticPub)
    case None => false
    case Some(dh) => mac == ComputeMac(dh, hostId, challenge)
  }

  function DeriveDataAuthKey(dh: seq<Sym>, nonce: Nonce): seq<Sym> {
    Hkdf(dh, Raws(nonce), Ascii("pherry/relay-core/v1/host-data-auth"), RELAY_FIELD_BYTES)
  }

  function HostDataAuthKey(lowOrder: PublicKey -> bool, challenge: Challenge, hostStatic: PublicKey): Option<seq<Sym>> {
    match Dh(lowOrder, hostStatic, challenge.ephemeral)
    case None => None
    case Some(dh) => Some(DeriveDataAuthKey(dh, challenge.nonce))
  }

  function CellDataAuthKey(lowOrder: PublicKey -> bool, challenge: Challenge,
                           hostStaticPub: seq<byte>): Option<seq<Sym>> {
    match Dh(lowOrder, challenge.ephemeral, hostStaticPub)
    case None => None
    case Some(dh) => Some(DeriveDataAuthKey(dh, challenge.nonce))
  }

  function DataAuthMac(key: seq<Sym>, cellId: seq<byte>, ticket: Ticket, bridgeNonce: Nonce): Mac {
    Hmac(key, DataAuthPreimage(cellId, ticket, bridgeNonce))
  }

  predicate VerifyDataAuthMac(key: seq<Sym>, cellId: seq<byte>, ticket: Ticket, bridgeNonce: Nonce, mac: Mac) {
    mac == DataAuthMac(key, cellId, ticket, bridgeNonce)
  }

  /** What is derived with one label names the shared secret and the nonce. */
  lemma HkdfNames(dh: seq<Sym>, nonce: Nonce, dh': seq<Sym>, nonce': Nonce, info: seq<byte>)
    ensures Hkdf(dh, Raws(nonce), info, RELAY_FIELD_BYTES) == Hkdf(dh', Raws(nonce'), info, RELAY_FIELD_BYTES)
            <==> dh == dh' && nonce == nonce'
  {
    assert Hkdf(dh, Raws(nonce), info, RELAY_FIELD_BYTES)[0] == HkdfByte(dh, Raws(nonce), info, 0);
    assert Hkdf(dh', Raws(nonce'), info, RELAY_FIELD_BYTES)[0] == HkdfByte(dh', Raws(nonce'), info, 0);
    RawsInjective(nonce, nonce');
  }

  /**
   * A proof made for one challenge, host id and key verifies against another exactly when nonce, ephemeral
   * and static key are the same and the separated ids spell the same bytes.
   */
  lemma ProofBinds(lowOrder: PublicKey -> bool, c: Challenge, h: HostId, s: PublicKey, c': Challenge, h': HostId,
                   s': PublicKey)
    requires ProveHost(lowOrder, c', h', s').Some?
    ensures VerifyProof(lowOrder, c, h, s, ProveHost(lowOrder, c', h', s').value)
            <==> !lowOrder(s) && s == s' && c.nonce == c'.nonce && c.ephemeral == c'.ephemeral
                 && h + [0] + c.cellId == h' + [0] + c'.cellId
  {
    HkdfNames(SharedSecret(c.ephemeral, s), c.nonce, SharedSecret(s', c'.ephemeral), c'.nonce,
              Ascii("pherry/relay-core/v1/host-proof"));
    TranscriptsMeet(h, c.cellId, c.nonce, c.ephemeral, h', c'.cellId, c'.nonce, c'.ephemeral);
    SharedSecretsAgree(c.ephemeral, s, s', c'.ephemeral);
  }

  /** Both ends of a registration derive one data-leg key; another registration's key differs. */
  lemma DataKeysAgree(lowOrder: PublicKey -> bool, c: Challenge, s: PublicKey, c': Challenge, s': PublicKey)
    requires CellDataAuthKey(lowOrder, c, s).Some? && HostDataAuthKey(lowOrder, c', s').Some?
    ensures CellDataAuthKey(lowOrder, c, s) == HostDataAuthKey(lowOrder, c', s')
            <==> c.nonce == c'.nonce && ((c.ephemeral == c'.ephemeral && s == s')
                                         || (c.ephemeral == s' && s == c'.ephemeral))
  {
    HkdfNames(SharedSecret(c.ephemeral, s), c.nonce, SharedSecret(s', c'.ephemeral), c'.nonce,
              Ascii("pherry/relay-core/v1/host-data-auth"));
    SharedSecretsAgree(c.ephemeral, s, s', c'.ephemeral);
  }

  /** A dial's MAC is good for its own key, cell, ticket and bridge nonce and for no other. */
  lemma DialBinds(key: seq<Sym>, cell: seq<byte>, ticket: Ticket, nonce: Nonce,
                  key': seq<Sym>, cell': seq<byte>, ticket': Ticket, nonce': Nonce)
    requires |ticket| == |ticket'| == TICKET_BYTES
    ensures VerifyDataAuthMac(key, cell, ticket, nonce, DataAuthMac(key', cell', ticket', nonce'))
            <==> key == key' && cell == cell' && ticket == ticket' && nonce == nonce'
  {
    DataAuthInjective(cell, ticket, nonce, cell', ticket', nonce');
  }
}

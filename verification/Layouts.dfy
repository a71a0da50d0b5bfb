/**
 * Where each byte goes: the positions of the fields in what is sent, hashed, MACed and signed, as the other
 * implementations of the protocol read them.
 */
module Layouts {
  import opened Bytes
  import opened Symbols
  import opened Encodings
  import opened Frames
  import opened Handshakes
  import opened Messages
  import HostProofs
  import PtyFrames
  import PtyPayloads
  import Records

  /** The field at an offset. */
  predicate At<T(==)>(s: seq<T>, offset: nat, field: seq<T>) {
    offset + |field| <= |s| && s[offset..offset + |field|] == field
  }

  function Little4(s: seq<byte>, i: nat): nat
    requires i + 4 <= |s|
  {
    s[i] as int + 256 * s[i + 1] as int + 65_536 * s[i + 2] as int + 16_777_216 * s[i + 3] as int
  }

  function Big4(s: seq<byte>, i: nat): nat
    requires i + 4 <= |s|
  {
    16_777_216 * s[i] as int + 65_536 * s[i + 1] as int + 256 * s[i + 2] as int + s[i + 3] as int
  }

  lemma LittleIs(s: seq<byte>, i: nat)
    requires i + 4 <= |s|
    ensures Little4(s, i) == PtyFrames.LittleAt(s, i)
  {
  }

  // ---- Frames -----------------------------------------------------------------------------------

  /**
   * A PTY frame: kind 0x74, version 1, the opcode, a zero byte, the stream id, the low and then the high half of the
   * sequence number, each in four little-endian bytes, and the payload.
   */
  lemma PtyFrameLayout(f: PtyFrames.PtyFrame)
    ensures var s := PtyFrames.EncodePtyFrame(f);
            && |s| == 16 + |f.payload| && At(s, 0, [0x74, 1, f.opcode, 0]) && At(s, 16, f.payload)
            && Little4(s, 4) == f.streamId % 4_294_967_296
            && Little4(s, 8) + 4_294_967_296 * Little4(s, 12) == f.seqNo % 18_446_744_073_709_551_616
  {
    var s := PtyFrames.EncodePtyFrame(f);
    PtyFrames.DecodeEncoded(f);
    LittleIs(s, 4);
    LittleIs(s, 8);
    LittleIs(s, 12);
  }

  /** A size: columns and then rows, each in two little-endian bytes. */
  lemma SizeLayout(cols: nat, rows: nat)
    ensures var s := PtyPayloads.EncodeSize(cols, rows);
            && |s| == 4 && s[0] as int + 256 * s[1] as int == cols % 65_536
            && s[2] as int + 256 * s[3] as int == rows % 65_536
  {
  }

  /** An exit code: nothing for none, and else four little-endian bytes, a negative one 2^32 higher. */
  lemma ExitLayout(code: Option<int>)
    ensures var s := PtyPayloads.EncodeExit(code);
            if code.None? then s == []
            else |s| == 4 && (-2_147_483_648 <= code.value < 2_147_483_648 ==>
                                Little4(s, 0) == if code.value < 0 then code.value + 4_294_967_296 else code.value)
  {
    if code.Some? {
      var w, s := code.value % 0x1_0000_0000, PtyPayloads.EncodeExit(code);
      PtyFrames.LittleRoundTrip(w, [], []);
      assert [] + s + [] == s;
      LittleIs(s, 0);
    }
  }

  /** A channel frame: 1 for control, 2 for binary, and the payload. */
  lemma ChannelFrameLayout(frame: Frame)
    ensures var s := FrameBytes(frame);
            At(s, 0, [if frame.lane.Control? then 1 else 2]) && At(s, 1, frame.payload) && |s| == 1 + |frame.payload|
  {
  }

  /** A length prefix: the most significant byte first. */
  lemma PrefixLayout(w: Word)
    ensures Big4(U32(w), 0) == w
  {
    U32RoundTrip(w, []);
    assert U32(w) + [] == U32(w);
  }

  // ---- Nonces and keys --------------------------------------------------------------------------

  /** A record's nonce: the direction's 16 bytes, and the number of the record in eight, most significant first. */
  lemma NonceLayout(prefix: seq<Sym>, counter: nat)
    requires |prefix| == 16 && counter < 18_446_744_073_709_551_616
    ensures var s := Records.NonceOf(prefix, counter);
            && |s| == 24 && At(s, 0, prefix)
            && exists bytes: seq<byte> :: |bytes| == 8 && At(s, 16, Raws(bytes))
                                          && 4_294_967_296 * Big4(bytes, 0) + Big4(bytes, 4) == counter
  {
    var s, bytes := Records.NonceOf(prefix, counter), Records.CounterBytes(counter);
    var high, low := U32(Records.High(counter)), U32(Records.Low(counter));
    PrefixLayout(Records.High(counter));
    PrefixLayout(Records.Low(counter));
    assert forall i | 0 <= i < 4 :: bytes[i] == high[i] && bytes[4 + i] == low[i];
    assert At(s, 16, Raws(bytes));
  }

  /**
   * A direction's 16 bytes: the first of the hash of the session id and one more byte, 0 from the initiator and
   * 1 to it.
   */
  lemma DirectionLayout(session: seq<Sym>, hashed: seq<Sym>, way: byte)
    requires |hashed| == |session| + 1 && At(hashed, 0, session) && hashed[|session|] == Raw(way)
    ensures way == 0 ==> Records.NoncePrefix(session, Records.InitiatorToResponder) == Sha256(hashed)[..16]
    ensures way == 1 ==> Records.NoncePrefix(session, Records.ResponderToInitiator) == Sha256(hashed)[..16]
  {
    assert hashed == session + [Raw(way)];
  }

  /** The salt: a hash over its domain, the initiator's ephemeral, the responder's and the context. */
  lemma SaltLayout(initiator: PublicKey, responder: PublicKey, context: seq<Sym>, hashed: seq<Sym>)
    requires |hashed| == 86 + |context| && At(hashed, 0, Raws(Ascii("pherry/channel/v1/salt")))
    requires At(hashed, 22, Raws(initiator)) && At(hashed, 54, Raws(responder)) && At(hashed, 86, context)
    ensures Salt(initiator, responder, context) == Sha256(hashed)
  {
    var domain := Raws(Ascii("pherry/channel/v1/salt"));
    assert hashed == hashed[..22] + hashed[22..54] + hashed[54..86] + hashed[86..];
    assert hashed == domain + Raws(initiator) + Raws(responder) + context;
  }

  /** The 96 derived bytes: the initiator's sending key, the responder's, and the session id. */
  lemma KeysLayout(ee: seq<Sym>, es: seq<Sym>, ikm: seq<Sym>, initiator: PublicKey, responder: PublicKey,
                   context: seq<Sym>)
    requires |ee| == |es| == 32 && |ikm| == 64 && At(ikm, 0, ee) && At(ikm, 32, es)
    ensures var keys := DeriveSessionKeys(ee, es, initiator, responder, context);
            && |keys.keyI2R| == |keys.keyR2I| == |keys.sessionId| == 32
            && keys.keyI2R + keys.keyR2I + keys.sessionId
               == Hkdf(ikm, Salt(initiator, responder, context), Ascii("pherry/channel/v1"), 96)
  {
    assert ikm == ikm[..32] + ikm[32..] == ee + es;
    var okm := Hkdf(ikm, Salt(initiator, responder, context), Ascii("pherry/channel/v1"), 96);
    assert okm == okm[..32] + okm[32..64] + okm[64..96];
  }

  /**
   * Each end's secrets: the initiator's ephemeral against the responder's ephemeral and against its pinned key; the
   * responder's ephemeral and its own key against the initiator's ephemeral. Both salt with the initiator's first.
   */
  lemma EndsLayout(lowOrder: PublicKey -> bool, ephemeral: PublicKey, other: PublicKey, context: seq<Sym>,
                   message: PublicKey)
    ensures InitiatorKeys(lowOrder, ephemeral, other, context, message)
            == if lowOrder(message) || lowOrder(other) then None
               else Some(DeriveSessionKeys(SharedSecret(ephemeral, message), SharedSecret(ephemeral, other), ephemeral,
                                           message, context))
    ensures ResponderKeys(lowOrder, ephemeral, other, context, message)
            == if lowOrder(message) then None
               else Some(DeriveSessionKeys(SharedSecret(ephemeral, message), SharedSecret(other, message), message,
                                           ephemeral, context))
  {
  }

  // ---- What is hashed, MACed and signed ---------------------------------------------------------

  /** The channel context: a hash over its domain, the host id, a zero byte and the ticket. */
  lemma ContextLayout(hostId: seq<byte>, ticket: seq<byte>)
    ensures var s, n := ContextPreimage(hostId, ticket), |hostId|;
            && |s| == 29 + n + |ticket| && At(s, 0, Ascii("pherry/relay-core/v1/context"))
            && At(s, 28, hostId) && s[28 + n] == 0 && At(s, 29 + n, ticket)
            && RelayChannelContext(hostId, ticket) == Sha256(Raws(s))
  {
    var domain := Ascii("pherry/relay-core/v1/context");
    assert ContextPreimage(hostId, ticket) == domain + hostId + [0] + ticket;
  }

  /** The host proof's transcript: its domain, host id and cell id with a zero byte behind each, nonce and ephemeral. */
  lemma TranscriptLayout(hostId: seq<byte>, cellId: seq<byte>, nonce: seq<byte>, ephemeral: seq<byte>)
    requires |nonce| == |ephemeral| == 32
    ensures var s, n, m := ProofTranscript(hostId, cellId, nonce, ephemeral), |hostId|, |cellId|;
            && |s| == 86 + n + m && At(s, 0, Ascii("pherry/relay-core/v1"))
            && At(s, 20, hostId) && s[20 + n] == 0 && At(s, 21 + n, cellId) && s[21 + n + m] == 0
            && At(s, 22 + n + m, nonce) && At(s, 54 + n + m, ephemeral)
  {
    var domain := Ascii("pherry/relay-core/v1");
    assert ProofTranscript(hostId, cellId, nonce, ephemeral)
           == domain + hostId + [0] + cellId + [0] + nonce + ephemeral;
  }

  /** The data leg's preimage: its domain, cell id and ticket with a zero byte behind each, and the bridge nonce. */
  lemma DataAuthLayout(cellId: seq<byte>, ticket: seq<byte>, nonce: seq<byte>)
    ensures var s, n, m := DataAuthPreimage(cellId, ticket, nonce), |cellId|, |ticket|;
            && |s| == 37 + n + m + |nonce| && At(s, 0, Ascii("pherry/relay-core/v1/host-data-auth"))
            && At(s, 35, cellId) && s[35 + n] == 0 && At(s, 36 + n, ticket) && s[36 + n + m] == 0
            && At(s, 37 + n + m, nonce)
  {
    var domain := Ascii("pherry/relay-core/v1/host-data-auth");
    assert DataAuthPreimage(cellId, ticket, nonce) == domain + cellId + [0] + ticket + [0] + nonce;
  }

  /** The device's statement: its domain, session id and host id with a zero byte behind each, and the key id. */
  lemma StatementLayout(sessionId: seq<byte>, hostId: seq<byte>, deviceKeyId: seq<byte>)
    requires |sessionId| == 32
    ensures var s, n := DeviceStatement(sessionId, hostId, deviceKeyId), |hostId|;
            && |s| == 56 + n + |deviceKeyId| && At(s, 0, Ascii("pherry/device-auth/v1")) && s[21] == 0
            && At(s, 22, sessionId) && s[54] == 0 && At(s, 55, hostId) && s[55 + n] == 0
            && At(s, 56 + n, deviceKeyId)
  {
    var domain := Ascii("pherry/device-auth/v1");
    assert DeviceStatement(sessionId, hostId, deviceKeyId)
           == domain + [0] + sessionId + [0] + hostId + [0] + deviceKeyId;
  }

  /**
   * A host's proof: an HMAC over that transcript, under what the host's secret and the cell's ephemeral derive with
   * the challenge's nonce as salt. The data leg's key is derived from the same with another label.
   */
  lemma ProofLayout(lowOrder: PublicKey -> bool, challenge: HostProofs.Challenge, hostId: HostId, host: PublicKey)
    ensures HostProofs.ProveHost(lowOrder, challenge, hostId, host)
            == if lowOrder(challenge.ephemeral) then None
               else Some(Hmac(Hkdf(SharedSecret(host, challenge.ephemeral), Raws(challenge.nonce),
                                   Ascii("pherry/relay-core/v1/host-proof"), 32),
                              ProofTranscript(hostId, challenge.cellId, challenge.nonce, challenge.ephemeral)))
    ensures HostProofs.HostDataAuthKey(lowOrder, challenge, host)
            == if lowOrder(challenge.ephemeral) then None
               else Some(Hkdf(SharedSecret(host, challenge.ephemeral), Raws(challenge.nonce),
                              Ascii("pherry/relay-core/v1/host-data-auth"), 32))
  {
  }
}

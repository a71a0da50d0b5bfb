/** The byte layouts the relay hashes, MACs or signs. */
module Encodings {
  // packages/relay-core/src/context.ts, packages/relay-core/src/host-proof.ts and protocol/src/device-
  // auth.ts, and when they name their fields. Ids are the UTF-8 bytes of the strings the source encodes.

  import opened Bytes
  import opened Symbols

  const RELAY_FIELD_BYTES := 32
  const SESSION_ID_BYTES := 32
  /** `tkt_` and 32 hexadecimal digits. */
  const TICKET_BYTES := 36
  const DEVICE_KEY_ID_BYTES := 16

  function Ascii(s: string): (bytes: seq<byte>)
    ensures |bytes| == |s|
  {
    seq(|s|, i requires 0 <= i < |s| => s[i] as int % 256)
  }

  predicate NulFree(s: seq<byte>) {
    0 !in s
  }

  /** Before a separator nothing NUL-free can be mistaken for anything else NUL-free. */
  lemma {:induction false} SplitAtNul(a: seq<byte>, b: seq<byte>, c: seq<byte>, d: seq<byte>)
    requires NulFree(a) && NulFree(c)
    requires a + [0] + b == c + [0] + d
    ensures a == c && b == d
  {
    var x, y := a + [0] + b, c + [0] + d;
    assert x[|a|] == 0 && y[|c|] == 0;
    assert forall i | 0 <= i < |a| :: x[i] == a[i] && a[i] in a;
    assert forall i | 0 <= i < |c| :: y[i] == c[i] && c[i] in c;
    assert |a| == |c|;
    assert a == (a + [0] + b)[..|a|] && c == (c + [0] + d)[..|c|];
    assert b == (a + [0] + b)[|a| + 1..] && d == (c + [0] + d)[|c| + 1..];
  }

  /** Before a tail of known length anything goes. */
  lemma SplitBeforeTail(a: seq<byte>, b: seq<byte>, c: seq<byte>, d: seq<byte>)
    requires |b| == |d| && a + b == c + d
    ensures a == c && b == d
  {
    assert a == (a + b)[..|a|] && c == (c + d)[..|c|] && b == (a + b)[|a|..] && d == (c + d)[|c|..];
  }

  lemma SplitAfterHead(a: seq<byte>, b: seq<byte>, c: seq<byte>, d: seq<byte>)
    requires |a| == |c| && a + b == c + d
    ensures a == c && b == d
  {
    assert a == (a + b)[..|a|] && c == (c + d)[..|c|] && b == (a + b)[|a|..] && d == (c + d)[|c|..];
  }

  // ---- The channel context ----------------------------------------------------------------------

  function ContextPreimage(hostId: seq<byte>, ticket: seq<byte>): seq<byte> {
    Ascii("pherry/relay-core/v1/context") + (hostId + [0] + ticket)
  }

  function RelayChannelContext(hostId: seq<byte>, ticket: seq<byte>): (context: seq<Sym>)
    ensures |context| == 32
  {
    Sha256(Raws(ContextPreimage(hostId, ticket)))
  }

  /** Two contexts meet exactly when the separated pairs spell the same bytes. */
  lemma ContextsMeet(h: seq<byte>, t: seq<byte>, h': seq<byte>, t': seq<byte>)
    ensures RelayChannelContext(h, t) == RelayChannelContext(h', t') <==> h + [0] + t == h' + [0] + t'
  {
    var p, p' := Raws(ContextPreimage(h, t)), Raws(ContextPreimage(h', t'));
    Sha256Injective(p, p', 32);
    assert Sha256(p)[..32] == Sha256(p) && Sha256(p')[..32] == Sha256(p');
    RawsInjective(ContextPreimage(h, t), ContextPreimage(h', t'));
    if ContextPreimage(h, t) == ContextPreimage(h', t') {
      SplitAfterHead(Ascii("pherry/relay-core/v1/context"), h + [0] + t, Ascii("pherry/relay-core/v1/context"),
                     h' + [0] + t');
    }
  }

  /** For NUL-free host ids, or for well-formed tickets, the context names host and ticket. */
  lemma ContextInjective(h: seq<byte>, t: seq<byte>, h': seq<byte>, t': seq<byte>)
    requires (NulFree(h) && NulFree(h')) || |t| == |t'|
    ensures RelayChannelContext(h, t) == RelayChannelContext(h', t') <==> h == h' && t == t'
  {
    ContextsMeet(h, t, h', t');
    if h + [0] + t == h' + [0] + t' {
      if |t| == |t'| {
        assert h + [0] + t == h + ([0] + t) && h' + [0] + t' == h' + ([0] + t');
        SplitBeforeTail(h, [0] + t, h', [0] + t');
        SplitAfterHead([0], t, [0], t');
      } else {
        SplitAtNul(h, t, h', t');
      }
    }
  }

  /** Without either, the context does not: a NUL may sit in the host id or in the ticket. */
  lemma ContextCollides()
    ensures RelayChannelContext([65, 0, 66], [67]) == RelayChannelContext([65], [66, 0, 67])
  {
    ContextsMeet([65, 0, 66], [67], [65], [66, 0, 67]);
  }

  /**
   * But no issued ticket has such a length: between issued tickets the context names host and ticket whatever
   * the host ids, and any collision takes tickets of two lengths and a NUL in a host id.
   */
  lemma IssuedContextsApart(h: seq<byte>, t: seq<byte>, h': seq<byte>, t': seq<byte>)
    ensures |t| == |t'| == TICKET_BYTES ==>
              (RelayChannelContext(h, t) == RelayChannelContext(h', t') <==> h == h' && t == t')
    ensures RelayChannelContext(h, t) == RelayChannelContext(h', t') && (h != h' || t != t') ==>
              |t| != |t'| && !(NulFree(h) && NulFree(h'))
  {
    if (NulFree(h) && NulFree(h')) || |t| == |t'| {
      ContextInjective(h, t, h', t');
    }
  }

  // ---- The host proof transcript ----------------------------------------------------------------

  function ProofTranscript(hostId: seq<byte>, cellId: seq<byte>, nonce: seq<byte>, ephemeral: seq<byte>): seq<byte> {
    Ascii("pherry/relay-core/v1") + (hostId + [0] + cellId + [0] + nonce + ephemeral)
  }

  /** The transcript names the challenge whatever the ids, and the ids as far as their separated bytes do. */
  lemma TranscriptsMeet(h: seq<byte>, c: seq<byte>, n: seq<byte>, e: seq<byte>,
                        h': seq<byte>, c': seq<byte>, n': seq<byte>, e': seq<byte>)
    requires |n| == |n'| == |e| == |e'| == RELAY_FIELD_BYTES
    ensures ProofTranscript(h, c, n, e) == ProofTranscript(h', c', n', e')
            <==> h + [0] + c == h' + [0] + c' && n == n' && e == e'
  {
    if ProofTranscript(h, c, n, e) == ProofTranscript(h', c', n', e') {
      SplitAfterHead(Ascii("pherry/relay-core/v1"), h + [0] + c + [0] + n + e,
                     Ascii("pherry/relay-core/v1"), h' + [0] + c' + [0] + n' + e');
      SplitBeforeTail(h + [0] + c + [0] + n, e, h' + [0] + c' + [0] + n', e');
      SplitBeforeTail(h + [0] + c + [0], n, h' + [0] + c' + [0], n');
      SplitBeforeTail(h + [0] + c, [0], h' + [0] + c', [0]);
    }
  }

  lemma TranscriptInjective(h: seq<byte>, c: seq<byte>, n: seq<byte>, e: seq<byte>,
                            h': seq<byte>, c': seq<byte>, n': seq<byte>, e': seq<byte>)
    requires |n| == |n'| == |e| == |e'| == RELAY_FIELD_BYTES
    requires (NulFree(h) && NulFree(h')) || |c| == |c'|
    ensures ProofTranscript(h, c, n, e) == ProofTranscript(h', c', n', e') <==> h == h' && c == c' && n == n' && e == e'
  {
    TranscriptsMeet(h, c, n, e, h', c', n', e');
    if h + [0] + c == h' + [0] + c' {
      if |c| == |c'| {
        assert h + [0] + c == h + ([0] + c) && h' + [0] + c' == h' + ([0] + c');
        SplitBeforeTail(h, [0] + c, h', [0] + c');
        SplitAfterHead([0], c, [0], c');
      } else {
        SplitAtNul(h, c, h', c');
      }
    }
  }

  // ---- The data-leg preimage --------------------------------------------------------------------

  function DataAuthPreimage(cellId: seq<byte>, ticket: seq<byte>, bridgeNonce: seq<byte>): seq<byte> {
    Ascii("pherry/relay-core/v1/host-data-auth") + (cellId + [0] + ticket + [0] + bridgeNonce)
  }

  /** Ticket and nonce have fixed length, so the preimage names its fields for every cell id. */
  lemma DataAuthInjective(c: seq<byte>, t: seq<byte>, n: seq<byte>, c': seq<byte>, t': seq<byte>, n': seq<byte>)
    requires |t| == |t'| == TICKET_BYTES && |n| == |n'| == RELAY_FIELD_BYTES
    ensures DataAuthPreimage(c, t, n) == DataAuthPreimage(c', t', n') <==> c == c' && t == t' && n == n'
  {
    if DataAuthPreimage(c, t, n) == DataAuthPreimage(c', t', n') {
      var domain := Ascii("pherry/relay-core/v1/host-data-auth");
      SplitAfterHead(domain, c + [0] + t + [0] + n, domain, c' + [0] + t' + [0] + n');
      SplitBeforeTail(c + [0] + t + [0], n, c' + [0] + t' + [0], n');
      SplitBeforeTail(c + [0] + t, [0], c' + [0] + t', [0]);
      SplitBeforeTail(c + [0], t, c' + [0], t');
      SplitBeforeTail(c, [0], c', [0]);
    }
  }

  // ---- The device-auth statement ----------------------------------------------------------------

  function DeviceStatement(sessionId: seq<byte>, hostId: seq<byte>, deviceKeyId: seq<byte>): seq<byte> {
    Ascii("pherry/device-auth/v1") + [0] + sessionId + [0] + (hostId + [0] + deviceKeyId)
  }

  lemma StatementsMeet(s: seq<byte>, h: seq<byte>, d: seq<byte>, s': seq<byte>, h': seq<byte>, d': seq<byte>)
    requires |s| == |s'| == SESSION_ID_BYTES
    ensures DeviceStatement(s, h, d) == DeviceStatement(s', h', d') <==> s == s' && h + [0] + d == h' + [0] + d'
  {
    if DeviceStatement(s, h, d) == DeviceStatement(s', h', d') {
      var domain := Ascii("pherry/device-auth/v1") + [0];
      SplitAfterHead(domain + s + [0], h + [0] + d, domain + s' + [0], h' + [0] + d');
      SplitBeforeTail(domain + s, [0], domain + s', [0]);
      SplitAfterHead(domain, s, domain, s');
    }
  }

  /** For NUL-free host ids, or for device key ids of the fixed length, the statement names its fields. */
  lemma StatementInjective(s: seq<byte>, h: seq<byte>, d: seq<byte>, s': seq<byte>, h': seq<byte>, d': seq<byte>)
    requires |s| == |s'| == SESSION_ID_BYTES
    requires (NulFree(h) && NulFree(h')) || |d| == |d'| == DEVICE_KEY_ID_BYTES
    ensures DeviceStatement(s, h, d) == DeviceStatement(s', h', d') <==> s == s' && h == h' && d == d'
  {
    StatementsMeet(s, h, d, s', h', d');
    if h + [0] + d == h' + [0] + d' {
      if |d| == |d'| {
        assert h + [0] + d == h + ([0] + d) && h' + [0] + d' == h' + ([0] + d');
        SplitBeforeTail(h, [0] + d, h', [0] + d');
        SplitAfterHead([0], d, [0], d');
      } else {
        SplitAtNul(h, d, h', d');
      }
    }
  }

  /** Copy bytes to a buffer and move the offset past them. */
  method Put(message: array<byte>, offset: nat, bytes: seq<byte>) returns (next: nat)
    requires offset + |bytes| <= message.Length
    modifies message
    ensures next == offset + |bytes|
    ensures message[..next] == old(message[..offset]) + bytes
  {
    forall i | 0 <= i < |bytes| {
      message[offset + i] := bytes[i];
    }
    next := offset + |bytes|;
  }

  /** A field and the separator behind it. */
  method PutSeparated(message: array<byte>, offset: nat, bytes: seq<byte>) returns (next: nat)
    requires offset + |bytes| < message.Length
    modifies message
    ensures next == offset + |bytes| + 1
    ensures message[..next] == old(message[..offset]) + bytes + [0]
  {
    next := Put(message, offset, bytes);
    next := Put(message, next, [0]);
  }

  datatype Statement = Message(bytes: seq<byte>) | WrongSessionId

  /** The signed statement, written field by field; a session id of another length is refused. */
  method DeviceAuthMessage(sessionId: seq<byte>, hostId: seq<byte>, deviceKeyId: seq<byte>) returns (r: Statement)
    ensures r == if |sessionId| == SESSION_ID_BYTES
            then Message(DeviceStatement(sessionId, hostId, deviceKeyId)) else WrongSessionId
  {
    if |sessionId| != SESSION_ID_BYTES {
      return WrongSessionId;
    }
    var domain := Ascii("pherry/device-auth/v1");
    var message := new byte[|domain| + 1 + |sessionId| + 1 + |hostId| + 1 + |deviceKeyId|];
    var offset := PutSeparated(message, 0, domain);
    offset := PutSeparated(message, offset, sessionId);
    assert message[..offset] == domain + [0] + sessionId + [0];
    offset := PutSeparated(message, offset, hostId);
    offset := Put(message, offset, deviceKeyId);
    assert message[..offset] == domain + [0] + sessionId + [0] + (hostId + [0] + deviceKeyId);
    assert message[..] == message[..offset];
    r := Message(message[..]);
  }
}

/** What a channel makes of what it receives. */
module ChannelReceives {
  // Turn by turn, on the fields of the channel and the bytes at the front of its buffer: the handshake message, a
  // record that opens, and each way in which one does not.

  import opened Bytes
  import opened Symbols
  import opened Frames
  import opened Records
  import opened Handshakes
  import opened Channels
  import Framing

  /** Closed for good: no keys, and nothing more delivered, sealed or written. */
  predicate Dead(c: Chan, d: Chan) {
    && d.phase == Closed && d.keys == None && d.sealed == c.sealed && d.rx.delivered == c.rx.delivered
    && d.wire == c.wire
  }

  /** The number the first four bytes spell, the most significant first. */
  function LengthOf(buf: seq<byte>): nat
    requires |buf| >= 4
  {
    16_777_216 * buf[0] as int + 65_536 * buf[1] as int + 256 * buf[2] as int + buf[3] as int
  }

  /** The key, and the nonce, that the next record has to be sealed under: the peer's direction's. */
  function Expected(cfg: Config, c: Chan): (Key, Nonce)
    requires c.keys.Some?
  {
    if cfg.role == Initiator
    then (c.keys.value.keyR2I, NonceOf(NoncePrefix(c.keys.value.sessionId, ResponderToInitiator), c.rx.counter))
    else (c.keys.value.keyI2R, NonceOf(NoncePrefix(c.keys.value.sessionId, InitiatorToResponder), c.rx.counter))
  }

  /** The plaintext of a record that opens where the channel stands, and does not end as the last one did. */
  function PlainOf(cfg: Config, c: Chan, record: seq<byte>): Option<seq<byte>>
    requires c.keys.Some?
  {
    if |record| >= 16 && c.rx.lastTag == Some(record[|record| - 16..]) then None
    else cfg.aead.open(Expected(cfg, c).0, Expected(cfg, c).1, record)
  }

  /** A first byte of 1 is the control lane's, of 2 the binary lane's; no other opens a frame. */
  predicate IsFrame(plain: seq<byte>, frame: Frame) {
    && plain != [] && frame.payload == plain[1..]
    && plain[0] == (match frame.lane case Control => 1 case Binary => 2)
  }

  /** The channel behind one more record: its frame delivered, its tag kept, the next nonce due. */
  predicate Took(c: Chan, d: Chan, record: seq<byte>, frame: Frame) {
    && d == c.(buf := [], rx := d.rx)
    && d.rx.delivered == c.rx.delivered + [frame] && d.rx.counter == c.rx.counter + 1 && !d.rx.failed
    && (|record| >= 16 ==> d.rx.lastTag == Some(record[|record| - 16..]))
  }

  lemma LengthIs(buf: seq<byte>)
    requires |buf| >= 4
    ensures LengthOf(buf) == FrontU32(buf)
  {
  }

  lemma PlainIs(cfg: Config, c: Chan, record: seq<byte>)
    requires c.keys.Some?
    ensures var r := OpenAt(cfg.aead, RecvKey(cfg.role, c.keys.value), RecvPrefix(cfg.role, c.keys.value), c.rx.counter,
                            c.rx.lastTag, record);
            PlainOf(cfg, c, record) == if r.Plain? then Some(r.plain) else None
  {
  }

  /**
   * Short of a whole record, or of its length even, an open channel waits; an over-long one closes it unread; and a
   * closed channel hears nothing.
   */
  lemma WaitsLaw(cfg: Config, c: Chan, bytes: seq<byte>)
    requires Ok(c) && c.phase != Handshaking
    ensures var d, buf := Receive(cfg, c, bytes), c.buf + bytes;
            if c.phase == Closed then d == c
            else && (|buf| < 4 || (LengthOf(buf) <= 4_194_304 && |buf| < 4 + LengthOf(buf)) ==> d == c.(buf := buf))
                 && (|buf| >= 4 && LengthOf(buf) > 4_194_304 ==> Dead(c, d))
  {
    var buf := c.buf + bytes;
    if c.phase == Open {
      if |buf| >= 4 { LengthIs(buf); }
      Framing.DrainTurn(Reader(cfg.aead, RecvKey(cfg.role, c.keys.value), RecvPrefix(cfg.role, c.keys.value)), c.rx,
                        buf);
    }
  }

  /**
   * A whole record is delivered as the one frame it opens to, and what is behind it is read where it leaves the
   * channel; one that does not open, or not to a frame, or that repeats the last one's tag, closes the channel with
   * nothing delivered, and what is behind it is never read.
   */
  lemma RecordLaw(cfg: Config, c: Chan, bytes: seq<byte>)
    requires Ok(c) && c.phase == Open
    requires var buf := c.buf + bytes; |buf| >= 4 && LengthOf(buf) <= 4_194_304 && |buf| >= 4 + LengthOf(buf)
    ensures var d, buf := Receive(cfg, c, bytes), c.buf + bytes;
            var record, rest := buf[4..4 + LengthOf(buf)], buf[4 + LengthOf(buf)..];
            var plain := PlainOf(cfg, c, record);
            if plain.Some? && exists frame :: IsFrame(plain.value, frame)
            then exists m, frame :: IsFrame(plain.value, frame) && Took(c, m, record, frame) && Ok(m)
                                    && d == Receive(cfg, m, rest)
            else Dead(c, d)
  {
    var d, buf := Receive(cfg, c, bytes), c.buf + bytes;
    LengthIs(buf);
    var record, rest := buf[4..4 + LengthOf(buf)], buf[4 + LengthOf(buf)..];
    var reader := Reader(cfg.aead, RecvKey(cfg.role, c.keys.value), RecvPrefix(cfg.role, c.keys.value));
    Framing.DrainTurn(reader, c.rx, buf);
    PlainIs(cfg, c, record);
    var rx, plain := reader.step(c.rx, record), PlainOf(cfg, c, record);
    if plain.Some? { DecodesIf(plain.value); }
    if plain.Some? && DecodeFrame(plain.value).Some? {
      var m, frame := c.(buf := [], rx := rx), DecodeFrame(plain.value).value;
      assert IsFrame(plain.value, frame) && Took(c, m, record, frame);
      assert [] + rest == rest;
      assert d == Receive(cfg, m, rest);
    } else {
      assert rx.failed && Framing.Drain(reader, rx, rest) == Framing.Parse(rx, rest);
    }
  }

  lemma DecodesIf(plain: seq<byte>)
    ensures DecodeFrame(plain).Some? <==> exists frame :: IsFrame(plain, frame)
    ensures DecodeFrame(plain).Some? ==> IsFrame(plain, DecodeFrame(plain).value)
  {
    if DecodeFrame(plain).Some? {
      assert IsFrame(plain, DecodeFrame(plain).value);
    }
  }

  /**
   * The peer's handshake message is the first 32 bytes: a responder answers it, and what it refuses closes the
   * channel.
   */
  lemma HandshakeLaw(cfg: Config, c: Chan, bytes: seq<byte>)
    requires Ok(c) && c.phase == Handshaking
    ensures var d, buf := Receive(cfg, c, bytes), c.buf + bytes;
            if |buf| < 32 then d == c.(buf := buf)
            else if cfg.consume(buf[..32]).None? then Dead(c, d)
            else exists m :: Ok(m) && m == c.(phase := Open, buf := [], keys := cfg.consume(buf[..32]), wire := m.wire)
                             && m.wire == (if cfg.role == Responder then c.wire + [cfg.message] else c.wire)
                             && d == Receive(cfg, m, buf[32..])
  {
    var buf := c.buf + bytes;
    if |buf| >= 32 && cfg.consume(buf[..32]).Some? {
      var m := c.(phase := Open, buf := [], keys := cfg.consume(buf[..32]),
                  wire := if cfg.role == Responder then c.wire + [cfg.message] else c.wire);
      assert Ok(m) && [] + buf[32..] == buf[32..];
      assert Receive(cfg, c, bytes) == Receive(cfg, m, buf[32..]);
    }
  }
}

/** The secure channel, over values. */
module Channels {
  // packages/channel/src/channel.ts: a raw 32-byte handshake message, then `U32(len) || record`. Any
  // failure closes it for good.

  import opened Bytes
  import opened Symbols
  import opened Frames
  import opened Records
  import opened Handshakes
  import Framing

  const HANDSHAKE_MSG_BYTES := 32
  const MAX_RECORD_BYTES := 4 * 1024 * 1024
  const RECORD_OVERHEAD_BYTES := FRAME_TAG_BYTES + TAG_BYTES

  datatype Role = Initiator | Responder

  /** What a channel is built with: `message` is its own ephemeral, `consume` folds in the peer's. */
  datatype Config = Config(role: Role, aead: Aead, message: seq<byte>, consume: seq<byte> -> Option<SessionKeys>)

  function SendKey(role: Role, keys: SessionKeys): Key {
    if role == Initiator then keys.keyI2R else keys.keyR2I
  }

  function RecvKey(role: Role, keys: SessionKeys): Key {
    if role == Initiator then keys.keyR2I else keys.keyI2R
  }

  function SendPrefix(role: Role, keys: SessionKeys): seq<Sym> {
    NoncePrefix(keys.sessionId, if role == Initiator then InitiatorToResponder else ResponderToInitiator)
  }

  function RecvPrefix(role: Role, keys: SessionKeys): (prefix: seq<Sym>)
    ensures |prefix| == NONCE_PREFIX_BYTES
  {
    NoncePrefix(keys.sessionId, if role == Initiator then ResponderToInitiator else InitiatorToResponder)
  }

  // ---- Receiving --------------------------------------------------------------------------------

  /** The receive half of an open channel. */
  datatype Rx = Rx(counter: nat, lastTag: Option<seq<byte>>, delivered: seq<Frame>, failed: bool)

  const FRESH := Rx(0, None, [], false)

  function RecordStep(aead: Aead, key: Key, prefix: seq<Sym>, rx: Rx, record: seq<byte>): Rx
    requires |prefix| == NONCE_PREFIX_BYTES
  {
    match OpenAt(aead, key, prefix, rx.counter, rx.lastTag, record)
    case Plain(plain) =>
      var next := rx.(counter := rx.counter + 1, lastTag := Some(Tag(record)));
      (match DecodeFrame(plain)
       case None => next.(failed := true)
       case Some(frame) => next.(delivered := rx.delivered + [frame]))
    case _ => rx.(failed := true)
  }

  function Reader(aead: Aead, key: Key, prefix: seq<Sym>): (m: Framing.Machine<Rx>)
    requires |prefix| == NONCE_PREFIX_BYTES
    ensures Framing.Valid(m) && m.cap == MAX_RECORD_BYTES
  {
    Framing.Machine((rx: Rx, record: seq<byte>) => RecordStep(aead, key, prefix, rx, record),
                    (rx: Rx) => rx.(failed := true), (rx: Rx) => !rx.failed, MAX_RECORD_BYTES)
  }

  datatype Phase = Handshaking | Open | Closed

  /** A record the channel sealed, with everything that went into it. */
  datatype Rec = Rec(frame: Frame, key: Key, nonce: Nonce, record: seq<byte>)

  datatype Chan = Chan(phase: Phase, buf: seq<byte>, keys: Option<SessionKeys>, rx: Rx, sealed: seq<Rec>,
                       wire: seq<seq<byte>>)

  const NEW := Chan(Handshaking, [], None, FRESH, [], [])

  /** An open channel has keys and no failure behind it; only open channels have. */
  predicate Ok(c: Chan) {
    && (c.phase == Open <==> c.keys.Some?)
    && (c.phase != Closed ==> !c.rx.failed)
    && (c.phase == Handshaking ==> c.rx == FRESH && c.sealed == [] && |c.buf| < HANDSHAKE_MSG_BYTES)
    && |c.sealed| <= MAX_SAFE_INTEGER + 1
  }

  predicate Authenticated(c: Chan) {
    c.rx.delivered != []
  }

  function Shutdown(c: Chan): Chan {
    c.(phase := Closed, keys := None)
  }

  function DrainRecords(cfg: Config, c: Chan, buf: seq<byte>): Chan
    requires c.keys.Some?
  {
    var p := Framing.Drain(Reader(cfg.aead, RecvKey(cfg.role, c.keys.value), RecvPrefix(cfg.role, c.keys.value)),
                           c.rx, buf);
    var d := c.(rx := p.state, buf := p.buf);
    if p.state.failed then Shutdown(d) else d
  }

  function Receive(cfg: Config, c: Chan, bytes: seq<byte>): (d: Chan)
    requires Ok(c)
    ensures Ok(d) && d.sealed == c.sealed
  {
    match c.phase
    case Closed => c
    case Open => DrainRecords(cfg, c, c.buf + bytes)
    case Handshaking =>
      var buf := c.buf + bytes;
      if |buf| < HANDSHAKE_MSG_BYTES then c.(buf := buf)
      else
        match cfg.consume(buf[..HANDSHAKE_MSG_BYTES])
        case None => Shutdown(c.(buf := buf[HANDSHAKE_MSG_BYTES..]))
        case Some(keys) =>
          var answered := if cfg.role == Responder then c.wire + [cfg.message] else c.wire;
          DrainRecords(cfg, c.(phase := Open, keys := Some(keys), wire := answered), buf[HANDSHAKE_MSG_BYTES..])
  }

  /** The initiator's opening message, sent a microtask after construction unless closed by then. */
  function Start(cfg: Config, c: Chan): Chan {
    if cfg.role == Initiator && c.phase == Handshaking && c.wire == [] then c.(wire := c.wire + [cfg.message]) else c
  }

  // ---- Sending ----------------------------------------------------------------------------------

  datatype SendResult = Accepted | NotOpen | AwaitAuthenticated | TooLarge | Spent

  function SendOutcome(cfg: Config, c: Chan, frame: Frame): SendResult {
    if c.phase != Open then NotOpen
    else if cfg.role == Initiator && !Authenticated(c) && |c.sealed| >= 1 then AwaitAuthenticated
    else if RECORD_OVERHEAD_BYTES + |frame.payload| > MAX_RECORD_BYTES then TooLarge
    else if |c.sealed| > MAX_SAFE_INTEGER then Spent
    else Accepted
  }

  function SealRec(cfg: Config, c: Chan, frame: Frame): Rec
    requires c.keys.Some?
  {
    var key, nonce := SendKey(cfg.role, c.keys.value), NonceOf(SendPrefix(cfg.role, c.keys.value), |c.sealed|);
    Rec(frame, key, nonce, cfg.aead.seal(key, nonce, FrameBytes(frame)))
  }

  /** Every ciphertext is its plaintext's length and a tag. */
  ghost predicate Expands(aead: Aead) {
    forall key, nonce, plain :: |aead.seal(key, nonce, plain)| == |plain| + TAG_BYTES
  }

  function Send(cfg: Config, c: Chan, frame: Frame): (d: Chan)
    requires Ok(c)
    requires SendOutcome(cfg, c, frame) == Accepted ==> |SealRec(cfg, c, frame).record| < 0x1_0000_0000
    ensures Ok(d) && d.rx == c.rx
  {
    if SendOutcome(cfg, c, frame) == Accepted then
      var rec := SealRec(cfg, c, frame);
      c.(sealed := c.sealed + [rec], wire := c.wire + [Framing.Framed(rec.record)])
    else c
  }

  // ---- Parsing is independent of chunking -------------------------------------------------------

  function ReceiveAll(cfg: Config, c: Chan, chunks: seq<seq<byte>>): (d: Chan)
    requires Ok(c)
    ensures Ok(d)
    decreases |chunks|
  {
    if chunks == [] then c else ReceiveAll(cfg, Receive(cfg, c, chunks[0]), chunks[1..])
  }

  /** Equal, but for the bytes a closed channel no longer looks at. */
  predicate Alike(c: Chan, d: Chan) {
    c.(buf := []) == d.(buf := []) && (c.phase != Closed ==> c.buf == d.buf)
  }

  lemma DrainTwice(cfg: Config, c: Chan, a: seq<byte>, b: seq<byte>)
    requires Ok(c) && c.phase == Open
    ensures Alike(Receive(cfg, DrainRecords(cfg, c, a), b), DrainRecords(cfg, c, a + b))
  {
    var m := Reader(cfg.aead, RecvKey(cfg.role, c.keys.value), RecvPrefix(cfg.role, c.keys.value));
    Framing.DrainAppend(m, c.rx, a, b);
  }

  lemma ReceiveTwice(cfg: Config, c: Chan, a: seq<byte>, b: seq<byte>)
    requires Ok(c)
    ensures Alike(Receive(cfg, Receive(cfg, c, a), b), Receive(cfg, c, a + b))
  {
    assert c.buf + (a + b) == (c.buf + a) + b;
    var buf, n := c.buf + a, HANDSHAKE_MSG_BYTES;
    match c.phase
    case Closed =>
    case Open => DrainTwice(cfg, c, buf, b);
    case Handshaking =>
      if |buf| >= n {
        assert (buf + b)[..n] == buf[..n] && (buf + b)[n..] == buf[n..] + b;
        if cfg.consume(buf[..n]).Some? {
          var answered := if cfg.role == Responder then c.wire + [cfg.message] else c.wire;
          DrainTwice(cfg, c.(phase := Open, keys := cfg.consume(buf[..n]), wire := answered), buf[n..], b);
        }
      }
  }

  lemma ReceiveAlike(cfg: Config, c: Chan, d: Chan, bytes: seq<byte>)
    requires Ok(c) && Ok(d) && Alike(c, d)
    ensures Alike(Receive(cfg, c, bytes), Receive(cfg, d, bytes))
  {
    if c.phase != Closed {
      assert c == d;
    }
  }

  lemma {:induction false} ReceiveAllAlike(cfg: Config, c: Chan, d: Chan, chunks: seq<seq<byte>>)
    requires Ok(c) && Ok(d) && Alike(c, d)
    ensures Alike(ReceiveAll(cfg, c, chunks), ReceiveAll(cfg, d, chunks))
    decreases |chunks|
  {
    if chunks != [] {
      ReceiveAlike(cfg, c, d, chunks[0]);
      ReceiveAllAlike(cfg, Receive(cfg, c, chunks[0]), Receive(cfg, d, chunks[0]), chunks[1..]);
    }
  }

  lemma {:induction false} ReceiveAllIsReceive(cfg: Config, c: Chan, chunks: seq<seq<byte>>)
    requires Ok(c) && chunks != []
    ensures Alike(ReceiveAll(cfg, c, chunks), Receive(cfg, c, Flatten(chunks)))
    decreases |chunks|
  {
    var first, rest := chunks[0], chunks[1..];
    if rest == [] {
      assert Flatten(chunks) == first + Flatten(rest) == first;
    } else {
      ReceiveAllIsReceive(cfg, Receive(cfg, c, first), rest);
      ReceiveTwice(cfg, c, first, Flatten(rest));
    }
  }

  /** Two ways of cutting the same bytes deliver the same frames and leave the channel open or closed alike. */
  lemma ChunkingIrrelevant(cfg: Config, c: Chan, chunks: seq<seq<byte>>, chunks': seq<seq<byte>>)
    requires Ok(c) && Flatten(chunks) == Flatten(chunks') && chunks != [] && chunks' != []
    ensures var d, d' := ReceiveAll(cfg, c, chunks), ReceiveAll(cfg, c, chunks');
            && Alike(d, d')
            && d.rx.delivered == d'.rx.delivered
            && (d.phase == Closed <==> d'.phase == Closed)
  {
    ReceiveAllIsReceive(cfg, c, chunks);
    ReceiveAllIsReceive(cfg, c, chunks');
  }

  /** A channel that stays open buffers less than one capped record. */
  lemma BufferBound(cfg: Config, c: Chan, bytes: seq<byte>)
    requires Ok(c) && Receive(cfg, c, bytes).phase != Closed
    ensures |Receive(cfg, c, bytes).buf| < Framing.PREFIX_BYTES + MAX_RECORD_BYTES
  {
    var d := Receive(cfg, c, bytes);
    if d.phase == Open {
      var m := Reader(cfg.aead, RecvKey(cfg.role, d.keys.value), RecvPrefix(cfg.role, d.keys.value));
      if c.phase == Open {
        Framing.DrainBound(m, c.rx, c.buf + bytes);
      } else {
        Framing.DrainBound(m, c.rx, (c.buf + bytes)[HANDSHAKE_MSG_BYTES..]);
      }
    }
  }
}

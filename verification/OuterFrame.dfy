/** The outer connection. */
module OuterFraming {
  // packages/relay-core/src/outer-frame.ts as a state machine over values: framed coordination messages
  // first, and from `toRaw` on an opaque byte stream.

  import opened Bytes
  import Framing

  const MAX_OUTER_MESSAGE_BYTES := 16 * 1024
  const MAX_PREHANDLER_RAW_BYTES := 16 * 1024

  /** The JSON wire form of messages, abstract. */
  datatype Codec<!M> = Codec(encode: M -> seq<byte>, decode: seq<byte> -> Option<M>)

  /** `m` fits the cap, so that it can be sent, and its wire form decodes to it. */
  predicate Carries<M(==)>(codec: Codec<M>, m: M) {
    |codec.encode(m)| <= MAX_OUTER_MESSAGE_BYTES && codec.decode(codec.encode(m)) == Some(m)
  }

  /** `encodeOuterMessage`: None when the payload exceeds the cap. */
  function Encode<M>(codec: Codec<M>, m: M): Option<seq<byte>> {
    var payload := codec.encode(m);
    if |payload| > MAX_OUTER_MESSAGE_BYTES then None else Some(Framing.Framed(payload))
  }

  /** What the message handler does about the message it was just called with. */
  datatype Verdict = Stay | GoRaw | Shut

  /** Parser state: the messages delivered, and whether the handler went raw or closed, or a frame was bad. */
  datatype Reading<M> = Reading(messages: seq<M>, raw: bool, closed: bool, failed: bool)

  /** The handler's verdict may depend on everything it has seen, last message included. */
  type Handler<!M> = seq<M> -> Verdict

  function OnPayload<M>(codec: Codec<M>, handler: Handler<M>, r: Reading<M>, payload: seq<byte>): Reading<M> {
    match codec.decode(payload)
    case None => r.(failed := true)
    case Some(m) =>
      var seen := r.messages + [m];
      var verdict := handler(seen);
      Reading(seen, r.raw || verdict.GoRaw?, r.closed || verdict.Shut?, r.failed)
  }

  function Reader<M>(codec: Codec<M>, handler: Handler<M>): (m: Framing.Machine<Reading<M>>)
    ensures m.cap == MAX_OUTER_MESSAGE_BYTES
  {
    Framing.Machine((r: Reading<M>, payload: seq<byte>) => OnPayload(codec, handler, r, payload),
                    (r: Reading<M>) => r.(failed := true),
                    (r: Reading<M>) => !r.raw && !r.failed, MAX_OUTER_MESSAGE_BYTES)
  }

  /**
   * A connection: unparsed bytes, mode, whether a raw consumer is registered, the raw bytes waiting for
   * one, what went to the message handler and to the consumer, and how often the error handler was called.
   */
  datatype Conn<M> = Conn(buf: seq<byte>, raw: bool, closed: bool, consumer: bool, waiting: seq<byte>,
                          messages: seq<M>, out: seq<byte>, errors: nat)

  function Fresh<M>(): Conn<M> {
    Conn([], false, false, false, [], [], [], 0)
  }

  predicate Ok<M>(c: Conn<M>) {
    && (c.raw ==> c.buf == [])
    && (c.consumer ==> c.waiting == [])
    && |c.waiting| <= MAX_PREHANDLER_RAW_BYTES
    && (!c.raw ==> c.waiting == [] && c.out == [])
  }

  function DeliverRaw<M>(c: Conn<M>, bytes: seq<byte>): Conn<M> {
    if c.consumer then c.(out := c.out + bytes)
    else if |c.waiting| + |bytes| > MAX_PREHANDLER_RAW_BYTES
        then c.(waiting := [], errors := c.errors + 1, closed := true)
    else c.(waiting := c.waiting + bytes)
  }

  function ToRaw<M>(c: Conn<M>): (d: Conn<M>)
    requires Ok(c)
    ensures Ok(d)
  {
    if c.raw then c else DeliverRaw(c.(raw := true, buf := []), c.buf)
  }

  function OnRaw<M>(c: Conn<M>): (d: Conn<M>)
    requires Ok(c)
    ensures Ok(d)
  {
    c.(consumer := true, out := c.out + c.waiting, waiting := [])
  }

  function CloseConn<M>(c: Conn<M>): Conn<M> {
    c.(closed := true)
  }

  /**
   * A framed connection once its bytes have been parsed so far; a handler that went raw leaves the rest to the
   * raw phase.
   */
  function Emerge<M>(c: Conn<M>, p: Framing.Parse<Reading<M>>): (d: Conn<M>)
    requires Ok(c) && !c.raw
    ensures Ok(d)
  {
    var d := c.(buf := p.buf, messages := p.state.messages, closed := p.state.closed,
                errors := if p.state.failed then c.errors + 1 else c.errors);
    if p.state.raw then ToRaw(d) else d
  }

  /** The framed phase: parse what is whole. */
  function Parse<M>(codec: Codec<M>, handler: Handler<M>, c: Conn<M>, buf: seq<byte>): (d: Conn<M>)
    requires Ok(c) && !c.raw
    ensures Ok(d)
  {
    Emerge(c, Framing.Drain(Reader(codec, handler), Reading(c.messages, false, c.closed, false), buf))
  }

  function Receive<M>(codec: Codec<M>, handler: Handler<M>, c: Conn<M>, bytes: seq<byte>): (d: Conn<M>)
    requires Ok(c)
    ensures Ok(d)
  {
    if c.closed then c
    else if c.raw then DeliverRaw(c, bytes)
    else Parse(codec, handler, c, c.buf + bytes)
  }

  /** What `encodeOuterMessage` emits a framed peer reads back as that one message, never as an over-cap frame. */
  lemma EncodedArrives<M(!new)>(codec: Codec<M>, handler: Handler<M>, c: Conn<M>, m: M)
    requires Carries(codec, m) && Ok(c) && !c.raw && !c.closed && c.buf == []
    ensures Encode(codec, m).Some?
    ensures var d, verdict := Receive(codec, handler, c, Encode(codec, m).value), handler(c.messages + [m]);
            && d.messages == c.messages + [m] && d.buf == [] && d.errors == c.errors && d.out == c.out
            && (d.raw <==> verdict.GoRaw?) && (d.closed <==> verdict.Shut?)
  {
    var payload, start := codec.encode(m), Reading(c.messages, false, c.closed, false);
    var f := Encode(codec, m).value;
    Framing.DrainFramed(Reader(codec, handler), start, payload, []);
    assert f + [] == f && [] + f == f;
    assert codec.decode(payload) == Some(m);
    assert c.waiting + [] == c.waiting && c.out + [] == c.out;
  }

  // ---- Independence of chunking -----------------------------------------------------------------

  /** What a framed connection makes of its bytes when they arrive at once. */
  function Whole<M>(codec: Codec<M>, handler: Handler<M>, c: Conn<M>, bytes: seq<byte>): Framing.Parse<Reading<M>> {
    Framing.Drain(Reader(codec, handler), Reading(c.messages, false, c.closed, false), c.buf + bytes)
  }

  /**
   * Of the messages these bytes carry, only the last one makes the handler close, and no bad frame is
   * behind it. Bytes of the raw phase carry none.
   */
  ghost predicate ShutsLast<M>(codec: Codec<M>, handler: Handler<M>, c: Conn<M>, bytes: seq<byte>) {
    c.raw || ShutsOnlyLast(handler, |c.messages|, Whole(codec, handler, c, bytes).state)
  }

  ghost predicate ShutsOnlyLast<M>(handler: Handler<M>, from: nat, r: Reading<M>) {
    forall i | from < i <= |r.messages| :: handler(r.messages[..i]).Shut? ==> i == |r.messages| && !r.failed
  }

  /** No whole frame, and no over-cap prefix, is waiting: so it is between two chunks. */
  predicate Settled<M>(c: Conn<M>) {
    |c.buf| < Framing.PREFIX_BYTES
    || (FrontU32(c.buf) <= MAX_OUTER_MESSAGE_BYTES && |c.buf| < Framing.PREFIX_BYTES + FrontU32(c.buf))
  }

  lemma {:induction false} DrainSettles<M>(codec: Codec<M>, handler: Handler<M>, r: Reading<M>, buf: seq<byte>)
    ensures var p := Framing.Drain(Reader(codec, handler), r, buf);
            && (!p.state.raw && !p.state.failed ==> Settled(Fresh<M>().(buf := p.buf)))
            && (r.failed ==> p.state.failed)
    decreases |buf|
  {
    var n := Framing.PREFIX_BYTES;
    if !r.raw && !r.failed && |buf| >= n {
      var length := FrontU32(buf);
      if length <= MAX_OUTER_MESSAGE_BYTES && |buf| >= n + length {
        DrainSettles(codec, handler, OnPayload(codec, handler, r, buf[n..n + length]), buf[n + length..]);
      }
    }
  }

  /** An open, error-free connection is settled at first and after every chunk. */
  lemma ReceiveSettles<M>(codec: Codec<M>, handler: Handler<M>, c: Conn<M>, bytes: seq<byte>)
    requires Ok(c)
    ensures Settled(Fresh<M>())
    ensures var d := Receive(codec, handler, c, bytes); c.errors == 0 && Settled(c) && d.errors == 0 ==> Settled(d)
  {
    DrainSettles(codec, handler, Reading(c.messages, false, c.closed, false), c.buf + bytes);
  }

  /**
   * Parsing only adds messages; the close is the handler's word on one of them, the raw phase its word
   * on the last; and where nothing was added and nothing failed, nothing changed.
   */
  predicate Grows<M(==)>(handler: Handler<M>, r: Reading<M>, s: Reading<M>) {
    && Prefix(r.messages, s.messages) && !(s.raw && s.failed)
    && (s.closed ==> r.closed || exists i | |r.messages| < i <= |s.messages| :: handler(s.messages[..i]).Shut?)
    && (s.raw && !r.raw ==> |s.messages| > |r.messages| && handler(s.messages).GoRaw?)
    && (|s.messages| == |r.messages| && !s.failed ==> s == r)
  }

  lemma {:induction false} DrainGrows<M(!new)>(codec: Codec<M>, handler: Handler<M>, r: Reading<M>, buf: seq<byte>)
    requires !(r.raw && r.failed)
    ensures Grows(handler, r, Framing.Drain(Reader(codec, handler), r, buf).state)
    decreases |buf|
  {
    var n := Framing.PREFIX_BYTES;
    if !r.raw && !r.failed && |buf| >= n {
      var length := FrontU32(buf);
      if length <= MAX_OUTER_MESSAGE_BYTES && |buf| >= n + length {
        var next := OnPayload(codec, handler, r, buf[n..n + length]);
        var s := Framing.Drain(Reader(codec, handler), next, buf[n + length..]).state;
        DrainGrows(codec, handler, next, buf[n + length..]);
        OneGrows(codec, handler, r, buf[n..n + length], s);
      }
    }
  }

  /** One payload, and then more. */
  lemma OneGrows<M(!new)>(codec: Codec<M>, handler: Handler<M>, r: Reading<M>, payload: seq<byte>, s: Reading<M>)
    requires !r.raw && !r.failed && Grows(handler, OnPayload(codec, handler, r, payload), s)
    requires var next := OnPayload(codec, handler, r, payload); next.raw || next.failed ==> s == next
    ensures Grows(handler, r, s)
  {
    var next := OnPayload(codec, handler, r, payload);
    PrefixTransitive(r.messages, next.messages, s.messages);
    if !next.failed {
      assert s.messages[..|next.messages|] == next.messages;
      assert s.messages[..|s.messages|] == s.messages;
    }
  }

  /**
   * The same messages, raw bytes, mode and error count; the parser's leftover bytes too, unless it will
   * never be asked again because the connection failed or closed.
   */
  predicate Alike<M(==)>(c: Conn<M>, d: Conn<M>) {
    c.(buf := []) == d.(buf := []) && (c.errors == 0 && !c.closed ==> c.buf == d.buf)
  }

  /** Feed chunks until the first error. */
  function ReceiveUntilError<M>(codec: Codec<M>, handler: Handler<M>, c: Conn<M>, chunks: seq<seq<byte>>): (d: Conn<M>)
    requires Ok(c)
    ensures Ok(d)
    decreases |chunks|
  {
    if chunks == [] || c.errors > 0 then c
    else ReceiveUntilError(codec, handler, Receive(codec, handler, c, chunks[0]), chunks[1..])
  }

  /** Once closed, nothing. */
  lemma {:induction false} ClosedHears<M>(codec: Codec<M>, handler: Handler<M>, c: Conn<M>, chunks: seq<seq<byte>>)
    requires Ok(c) && c.closed
    ensures ReceiveUntilError(codec, handler, c, chunks) == c
    decreases |chunks|
  {
    if chunks != [] && c.errors == 0 {
      ClosedHears(codec, handler, c, chunks[1..]);
    }
  }

  /** A chunk and then another, or both at once: the same, or the first one ended it. */
  lemma ReceiveTwice<M(!new)>(codec: Codec<M>, handler: Handler<M>, c: Conn<M>, a: seq<byte>, b: seq<byte>)
    requires Ok(c) && c.errors == 0 && !c.closed && ShutsLast(codec, handler, c, a + b)
    ensures var d := Receive(codec, handler, c, a);
            && (d.errors > 0 || d.closed ==> Alike(d, Receive(codec, handler, c, a + b)))
            && (d.errors == 0 && !d.closed ==> Receive(codec, handler, d, b) == Receive(codec, handler, c, a + b))
            && (d.errors == 0 && !d.closed ==> ShutsLast(codec, handler, d, b))
  {
    if c.raw {
      assert c.out + (a + b) == (c.out + a) + b && c.waiting + (a + b) == (c.waiting + a) + b;
    } else {
      assert c.buf + (a + b) == (c.buf + a) + b;
      ParseTwice(codec, handler, c, c.buf + a, b);
    }
  }

  lemma ParseTwice<M(!new)>(codec: Codec<M>, handler: Handler<M>, c: Conn<M>, buf: seq<byte>, b: seq<byte>)
    requires Ok(c) && c.errors == 0 && !c.closed && !c.raw
    requires ShutsOnlyLast(handler, |c.messages|,
                           Framing.Drain(Reader(codec, handler), Reading(c.messages, false, false, false),
                                         buf + b).state)
    ensures var d := Parse(codec, handler, c, buf);
            && (d.errors > 0 || d.closed ==> Alike(d, Parse(codec, handler, c, buf + b)))
            && (d.errors == 0 && !d.closed ==> Receive(codec, handler, d, b) == Parse(codec, handler, c, buf + b))
            && (d.errors == 0 && !d.closed ==> ShutsLast(codec, handler, d, b))
  {
    var m, start := Reader(codec, handler), Reading(c.messages, false, false, false);
    var p := Framing.Drain(m, start, buf);
    var q := Framing.Drain(m, p.state, p.buf + b);
    Framing.DrainAppend(m, start, buf, b);
    DrainGrows(codec, handler, start, buf);
    DrainGrows(codec, handler, p.state, p.buf + b);
    if p.state.raw || p.state.failed {
      assert q == Framing.Parse(p.state, p.buf + b);
    }
    if p.state.closed {
      ClosedIsLast(codec, handler, start, p.state, q.state);
      EmergeClosed(c, p, q);
    } else if p.state.raw || p.state.failed {
      EmergeStopped(c, p, b);
    } else {
      assert Receive(codec, handler, Emerge(c, p), b) == Emerge(Emerge(c, p), q) == Emerge(c, q);
      FewerShut(handler, |c.messages|, |p.state.messages|, q.state);
    }
  }

  /** Closed with nothing behind it. */
  lemma EmergeClosed<M(!new)>(c: Conn<M>, p: Framing.Parse<Reading<M>>, q: Framing.Parse<Reading<M>>)
    requires Ok(c) && !c.raw && c.errors == 0 && p.state == q.state && p.state.closed && !p.state.raw
    ensures Emerge(c, p).closed && Alike(Emerge(c, p), Emerge(c, q))
  {
  }

  /** Raw or failed: further bytes are behind what was left. */
  lemma EmergeStopped<M(!new)>(c: Conn<M>, p: Framing.Parse<Reading<M>>, b: seq<byte>)
    requires Ok(c) && !c.raw && c.errors == 0 && !p.state.closed && (p.state.raw != p.state.failed)
    ensures var d, e := Emerge(c, p), Emerge(c, Framing.Parse(p.state, p.buf + b));
            && (p.state.failed ==> d.errors > 0 && Alike(d, e))
            && (p.state.raw ==> d.raw && if d.errors > 0 then Alike(d, e) else !d.closed && DeliverRaw(d, b) == e)
  {
    if p.state.raw {
      assert c.out + (p.buf + b) == (c.out + p.buf) + b && c.waiting + (p.buf + b) == (c.waiting + p.buf) + b;
    }
  }

  lemma FewerShut<M(!new)>(handler: Handler<M>, from: nat, later: nat, r: Reading<M>)
    requires ShutsOnlyLast(handler, from, r) && from <= later
    ensures ShutsOnlyLast(handler, later, r)
  {
  }

  /** Where only the last message closes, a parse that has closed is over. */
  lemma ClosedIsLast<M(!new)>(codec: Codec<M>, handler: Handler<M>, start: Reading<M>, r: Reading<M>, s: Reading<M>)
    requires Prefix(start.messages, r.messages) && Prefix(r.messages, s.messages)
    requires exists i | |start.messages| < i <= |r.messages| :: handler(r.messages[..i]).Shut?
    requires ShutsOnlyLast(handler, |start.messages|, s)
    ensures |s.messages| == |r.messages| && !s.failed && handler(s.messages).Shut?
  {
    var i :| |start.messages| < i <= |r.messages| && handler(r.messages[..i]).Shut?;
    assert s.messages[..i] == r.messages[..i];
    assert s.messages[..|s.messages|] == s.messages;
  }

  /**
   * However the inbound bytes are cut, the handler sees the same messages and the consumer the same raw
   * bytes, up to the first error, and whether there is one does not depend on the cut: provided the
   * handler closes, if at all, on the last message these bytes carry.
   */
  lemma {:induction false} ChunkingIrrelevant<M(!new)>(codec: Codec<M>, handler: Handler<M>, c: Conn<M>,
      chunks: seq<seq<byte>>)
    requires Ok(c) && c.errors == 0 && !c.closed && chunks != []
    requires ShutsLast(codec, handler, c, Flatten(chunks))
    ensures Alike(ReceiveUntilError(codec, handler, c, chunks), Receive(codec, handler, c, Flatten(chunks)))
    decreases |chunks|
  {
    var first, rest := chunks[0], chunks[1..];
    var d := Receive(codec, handler, c, first);
    if rest == [] {
      assert Flatten(chunks) == first + Flatten(rest) == first;
    } else {
      ReceiveTwice(codec, handler, c, first, Flatten(rest));
      if d.closed {
        ClosedHears(codec, handler, d, rest);
      } else if d.errors == 0 {
        ChunkingIrrelevant(codec, handler, d, rest);
      }
    }
  }

  /**
   * The first frame, when more messages are parsed than are there: where it ends, what it makes of the parse,
   * and what is left of it.
   */
  lemma FirstEnds<M(!new)>(codec: Codec<M>, handler: Handler<M>, r: Reading<M>, buf: seq<byte>)
    returns (n: nat, next: Reading<M>)
    requires !r.raw && !r.failed && |r.messages| < |Framing.Drain(Reader(codec, handler), r, buf).state.messages|
    ensures Framing.PREFIX_BYTES <= n <= |buf|
    ensures next == OnPayload(codec, handler, r, buf[Framing.PREFIX_BYTES..n])
    ensures Framing.Drain(Reader(codec, handler), r, buf) == Framing.Drain(Reader(codec, handler), next, buf[n..])
    ensures Framing.Drain(Reader(codec, handler), r, buf[..n]) == Framing.Parse(next, [])
    ensures Prefix(next.messages, Framing.Drain(Reader(codec, handler), r, buf).state.messages)
    ensures |next.messages| <= |r.messages| + 1
    ensures |next.messages| > |r.messages| && handler(next.messages).Shut? ==>
              next == Reading(next.messages, false, true, false)
    ensures |next.messages| < |Framing.Drain(Reader(codec, handler), r, buf).state.messages| ==>
              !next.raw && !next.failed
  {
    var m := Reader(codec, handler);
    n := Framing.PREFIX_BYTES + FrontU32(buf);
    next := OnPayload(codec, handler, r, buf[Framing.PREFIX_BYTES..n]);
    DrainGrows(codec, handler, next, buf[n..]);
    Framing.DrainOne(m, r, buf);
  }

  /** Where the `i`-th message ends. */
  lemma {:induction false} MessageEnds<M(!new)>(codec: Codec<M>, handler: Handler<M>, r: Reading<M>, buf: seq<byte>,
      messages: seq<M>, i: nat)
    returns (n: nat)
    requires !r.raw && !r.failed && Framing.Drain(Reader(codec, handler), r, buf).state.messages == messages
    requires |r.messages| < i <= |messages| && handler(messages[..i]).Shut?
    ensures n <= |buf|
    ensures Framing.Drain(Reader(codec, handler), r, buf[..n])
            == Framing.Parse(Reading(messages[..i], false, true, false), [])
    decreases |buf|, 1
  {
    var size, next := FirstEnds(codec, handler, r, buf);
    if |next.messages| == i {
      n := size;
      assert next == Reading(messages[..i], false, true, false) by { assert next.messages == messages[..i]; }
    } else {
      n := EndsBehind(codec, handler, r, buf, messages, i, size, next);
    }
  }

  lemma {:induction false} EndsBehind<M(!new)>(codec: Codec<M>, handler: Handler<M>, r: Reading<M>, buf: seq<byte>,
      messages: seq<M>, i: nat,
                                               size: nat, next: Reading<M>) returns (n: nat)
    requires 0 < size <= |buf| && Framing.Drain(Reader(codec, handler), r, buf[..size]) == Framing.Parse(next, [])
    requires !next.raw && !next.failed
             && Framing.Drain(Reader(codec, handler), next, buf[size..]).state.messages == messages
    requires |next.messages| < i <= |messages| && handler(messages[..i]).Shut?
    ensures n <= |buf|
    ensures Framing.Drain(Reader(codec, handler), r, buf[..n])
            == Framing.Parse(Reading(messages[..i], false, true, false), [])
    decreases |buf|, 0
  {
    var rest := buf[size..];
    var k := MessageEnds(codec, handler, next, rest, messages, i);
    n := size + k;
    FirstThen(codec, handler, r, buf, size, next, k);
    assert buf[size..][..k] == rest[..k];
  }

  /** A first frame, and some of what is behind it. */
  lemma FirstThen<M(!new)>(codec: Codec<M>, handler: Handler<M>, r: Reading<M>, buf: seq<byte>, n: nat,
                           next: Reading<M>, k: nat)
    requires n + k <= |buf| && Framing.Drain(Reader(codec, handler), r, buf[..n]) == Framing.Parse(next, [])
    ensures Framing.Drain(Reader(codec, handler), r, buf[..n + k])
            == Framing.Drain(Reader(codec, handler), next, buf[n..][..k])
  {
    assert buf[..n + k] == buf[..n] + buf[n..][..k];
    Framing.DrainAppend(Reader(codec, handler), r, buf[..n], buf[n..][..k]);
    assert [] + buf[n..][..k] == buf[n..][..k];
  }

  /**
   * And where it does not close on the last one only, some cut shows: the one right behind the message it
   * closes on.
   */
  lemma SomeCutShows<M(!new)>(codec: Codec<M>, handler: Handler<M>, c: Conn<M>, bytes: seq<byte>)
    returns (chunks: seq<seq<byte>>)
    requires Ok(c) && c.errors == 0 && !c.closed && Settled(c) && !ShutsLast(codec, handler, c, bytes)
    ensures chunks != [] && Flatten(chunks) == bytes
    ensures !Alike(ReceiveUntilError(codec, handler, c, chunks), Receive(codec, handler, c, bytes))
  {
    var m, start, all := Reader(codec, handler), Reading(c.messages, false, false, false), c.buf + bytes;
    var s := Framing.Drain(m, start, all).state;
    var i :| |c.messages| < i <= |s.messages| && handler(s.messages[..i]).Shut? && (i < |s.messages| || s.failed);
    var n := MessageEnds(codec, handler, start, all, s.messages, i);
    assert |s.messages[..i]| > |c.messages|;
    assert n > |c.buf|;
    var k := n - |c.buf|;
    var a, b := bytes[..k], bytes[k..];
    chunks := [a, b];
    assert all[..n] == c.buf + a;
    assert Flatten(chunks) == bytes by { FlattenSnoc([a], b); FlattenSnoc<byte>([], a); assert [a, b] == [a] + [b]; }
    var d := Receive(codec, handler, c, a);
    assert d.messages == s.messages[..i] && d.closed && d.errors == 0;
    assert chunks[1..] == [b];
    ClosedHears(codec, handler, d, [b]);
    DrainGrows(codec, handler, start, all);
  }

  /** Exactly then: of an open, error-free connection between two chunks. */
  lemma ChunkingExact<M(!new)>(codec: Codec<M>, handler: Handler<M>, c: Conn<M>, bytes: seq<byte>)
    requires Ok(c) && c.errors == 0 && !c.closed && Settled(c)
    ensures ShutsLast(codec, handler, c, bytes)
            <==> forall chunks: seq<seq<byte>> | chunks != [] && Flatten(chunks) == bytes ::
                   Alike(ReceiveUntilError(codec, handler, c, chunks), Receive(codec, handler, c, bytes))
  {
    if ShutsLast(codec, handler, c, bytes) {
      forall chunks: seq<seq<byte>> | chunks != [] && Flatten(chunks) == bytes
        ensures Alike(ReceiveUntilError(codec, handler, c, chunks), Receive(codec, handler, c, bytes))
      {
        ChunkingIrrelevant(codec, handler, c, chunks);
      }
    } else {
      var chunks := SomeCutShows(codec, handler, c, bytes);
    }
  }

  /** An open, framed, error-free connection buffers less than one capped frame. */
  lemma BufferBound<M(!new)>(codec: Codec<M>, handler: Handler<M>, c: Conn<M>, bytes: seq<byte>)
    requires Ok(c) && !c.closed && c.errors == 0
    requires var d := Receive(codec, handler, c, bytes); d.errors == 0 && !d.raw
    ensures |Receive(codec, handler, c, bytes).buf| < Framing.PREFIX_BYTES + MAX_OUTER_MESSAGE_BYTES
  {
    Framing.DrainBound(Reader(codec, handler), Reading(c.messages, false, c.closed, false), c.buf + bytes);
  }

  /** Messages that are their own wire form, and a handler that closes on everything. */
  function Verbatim(): Codec<seq<byte>> {
    Codec((m: seq<byte>) => m, (payload: seq<byte>) => Some(payload))
  }

  function Refuse(): Handler<seq<byte>> {
    (seen: seq<seq<byte>>) => Shut
  }

  /**
   * Such a cut: `closed` is looked at once a chunk, so a frame behind a refused one is dispatched when
   * they share a chunk and dropped when they do not.
   */
  lemma ClosingMakesChunkingMatter(chunk: seq<byte>)
    requires chunk == Framing.Framed([])
    ensures var codec, refuse := Verbatim(), Refuse();
            && Receive(codec, refuse, Fresh(), Flatten([chunk, chunk])).messages == [[], []]
            && ReceiveUntilError(codec, refuse, Fresh(), [chunk, chunk]).messages == [[]]
  {
    var codec, refuse := Verbatim(), Refuse();
    var m := Reader(codec, refuse);
    var start: Reading<seq<byte>> := Reading([], false, false, false);
    assert Flatten([chunk, chunk]) == chunk + chunk by {
      assert [chunk, chunk] == [chunk] + [chunk];
      FlattenSnoc([chunk], chunk);
      FlattenSnoc<byte>([], chunk);
    }
    var one: Reading<seq<byte>> := Reading([[]], false, true, false);
    var two: Reading<seq<byte>> := Reading([[], []], false, true, false);
    assert codec.decode([]) == Some([]);
    assert OnPayload(codec, refuse, start, []) == one;
    assert OnPayload(codec, refuse, one, []) == two;
    Framing.DrainFramed(m, start, [], chunk);
    Framing.DrainFramed(m, one, [], []);
    Framing.DrainFramed(m, start, [], []);
    assert chunk + [] == chunk;
    assert Framing.Drain(m, start, chunk + chunk) == Framing.Parse(two, []);
    assert Framing.Drain(m, start, chunk) == Framing.Parse(one, []);
    assert [] + chunk == chunk && [] + (chunk + chunk) == chunk + chunk;
    var d := Receive(codec, refuse, Fresh(), chunk);
    assert d.closed && d.messages == [[]];
    DeafOnceClosed(codec, refuse, d, chunk);
    assert [chunk, chunk][1..] == [chunk];
  }

  lemma DeafOnceClosed<M(!new)>(codec: Codec<M>, handler: Handler<M>, c: Conn<M>, chunk: seq<byte>)
    requires Ok(c) && c.closed
    ensures ReceiveUntilError(codec, handler, c, [chunk]) == c
  {
    assert Receive(codec, handler, c, chunk) == c && [chunk][1..] == [];
  }
}

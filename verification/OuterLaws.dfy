/** What an outer connection receives. */
module OuterLaws {
  // Turn by turn, on the fields of the connection and the bytes at the front of its buffer.

  import opened Bytes
  import opened OuterFraming
  import Framing

  /** The number the first four bytes spell, the most significant first. */
  function LengthOf(buf: seq<byte>): nat
    requires |buf| >= 4
  {
    16_777_216 * buf[0] as int + 65_536 * buf[1] as int + 256 * buf[2] as int + buf[3] as int
  }

  /** A message of at most 16 KiB goes out behind its length; a longer one does not go out. */
  lemma EncodeLaw<M>(codec: Codec<M>, m: M)
    ensures var payload, r := codec.encode(m), Encode(codec, m);
            && (r.Some? <==> |payload| <= 16_384)
            && (r.Some? ==> |r.value| == 4 + |payload| && LengthOf(r.value) == |payload| && r.value[4..] == payload)
  {
    if Encode(codec, m).Some? {
      U32RoundTrip(|codec.encode(m)|, codec.encode(m));
      assert LengthOf(Encode(codec, m).value) == FrontU32(Encode(codec, m).value);
    }
  }

  /** Raw bytes go to the consumer; before there is one, up to 16 KiB wait, and one more ends the connection. */
  lemma RawLaw<M>(codec: Codec<M>, handler: Handler<M>, c: Conn<M>, bytes: seq<byte>)
    requires Ok(c) && (c.raw || c.closed)
    ensures var d := Receive(codec, handler, c, bytes);
            if c.closed then d == c
            else if c.consumer then d == c.(out := c.out + bytes)
            else if |c.waiting| + |bytes| <= 16_384 then d == c.(waiting := c.waiting + bytes)
            else d == c.(waiting := [], closed := true, errors := c.errors + 1)
  {
  }

  /** Nothing that was read gets lost when the connection goes raw, and nothing that waited when its consumer comes. */
  lemma GoesRawLaw<M>(c: Conn<M>)
    requires Ok(c)
    ensures var d := ToRaw(c);
            if c.raw then d == c
            else d == c.(raw := true, buf := [], out := d.out, waiting := d.waiting, closed := d.closed,
                         errors := d.errors)
                 && if c.consumer then d.out == c.buf && d.waiting == [] && d.errors == c.errors && d.closed == c.closed
                    else if |c.buf| <= 16_384
                    then d.waiting == c.buf && d.out == [] && d.errors == c.errors && d.closed == c.closed
                    else d.waiting == [] && d.out == [] && d.errors == c.errors + 1 && d.closed
    ensures var d := OnRaw(c); d == c.(consumer := true, waiting := [], out := c.out + c.waiting)
  {
    assert [] + c.buf == c.buf;
  }

  /**
   * Short of a whole frame a framed connection waits; a length over 16 KiB is an error, reported once, and not
   * read.
   */
  lemma WaitsLaw<M>(codec: Codec<M>, handler: Handler<M>, c: Conn<M>, bytes: seq<byte>)
    requires Ok(c) && !c.raw && !c.closed
    ensures var d, buf := Receive(codec, handler, c, bytes), c.buf + bytes;
            && (|buf| < 4 || (LengthOf(buf) <= 16_384 && |buf| < 4 + LengthOf(buf)) ==> d == c.(buf := buf))
            && (|buf| >= 4 && LengthOf(buf) > 16_384 ==> d == c.(buf := buf, errors := c.errors + 1))
  {
    var buf := c.buf + bytes;
    if |buf| >= 4 { assert LengthOf(buf) == FrontU32(buf); }
    Framing.DrainTurn(Reader(codec, handler), Reading(c.messages, false, false, false), buf);
  }

  /** A reader that has closed reads on as one that has not. */
  lemma {:induction false} ReadsOn<M>(codec: Codec<M>, handler: Handler<M>, r: Reading<M>, buf: seq<byte>)
    ensures var p := Framing.Drain(Reader(codec, handler), r, buf);
            Framing.Drain(Reader(codec, handler), r.(closed := true), buf)
            == Framing.Parse(p.state.(closed := true), p.buf)
    decreases |buf|
  {
    if !r.raw && !r.failed && |buf| >= 4 && FrontU32(buf) <= 16_384 && |buf| >= 4 + FrontU32(buf) {
      var n := 4 + FrontU32(buf);
      var next := OnPayload(codec, handler, r, buf[4..n]);
      assert OnPayload(codec, handler, r.(closed := true), buf[4..n]) == next.(closed := true);
      ReadsOn(codec, handler, next, buf[n..]);
      Framing.DrainTurn(Reader(codec, handler), r, buf);
      Framing.DrainTurn(Reader(codec, handler), r.(closed := true), buf);
    }
  }

  /**
   * A whole frame that decodes is one message for the handler, and its word on it decides: stay, and what is behind
   * is read as the next frame; go raw, and what is behind is the first of the raw bytes; shut, and the connection is
   * closed, but what the same bytes still hold is read all the same. A frame that does not decode is an error, and
   * nothing behind it is read.
   */
  lemma FrameLaw<M(!new)>(codec: Codec<M>, handler: Handler<M>, c: Conn<M>, bytes: seq<byte>)
    requires Ok(c) && !c.raw && !c.closed
    requires var buf := c.buf + bytes; |buf| >= 4 && LengthOf(buf) <= 16_384 && |buf| >= 4 + LengthOf(buf)
    ensures var d, buf := Receive(codec, handler, c, bytes), c.buf + bytes;
            var payload, rest := buf[4..4 + LengthOf(buf)], buf[4 + LengthOf(buf)..];
            if codec.decode(payload).None? then d == c.(buf := rest, errors := c.errors + 1)
            else
              var next := c.(buf := [], messages := c.messages + [codec.decode(payload).value]);
              match handler(next.messages)
              case Stay => d == Receive(codec, handler, next, rest)
              case GoRaw => d == Receive(codec, handler, next.(raw := true), rest)
              case Shut => d == Receive(codec, handler, next, rest).(closed := true)
  {
    var buf := c.buf + bytes;
    assert LengthOf(buf) == FrontU32(buf);
    var payload, rest, m := buf[4..4 + LengthOf(buf)], buf[4 + LengthOf(buf)..], Reader(codec, handler);
    var start := Reading(c.messages, false, false, false);
    Framing.DrainTurn(m, start, buf);
    var r := OnPayload(codec, handler, start, payload);
    assert [] + rest == rest;
    if codec.decode(payload).Some? {
      match handler(r.messages)
      case Stay => OnStay(codec, handler, c, r.messages, rest);
      case GoRaw => OnGoRaw(codec, handler, c, r.messages, rest);
      case Shut => OnShut(codec, handler, c, r.messages, rest);
    } else {
      assert Framing.Drain(m, r, rest) == Framing.Parse(r, rest);
    }
  }

  lemma OnStay<M(!new)>(codec: Codec<M>, handler: Handler<M>, c: Conn<M>, messages: seq<M>, rest: seq<byte>)
    requires Ok(c) && !c.raw && !c.closed
    ensures var r := Reading(messages, false, false, false);
            Emerge(c, Framing.Drain(Reader(codec, handler), r, rest))
            == Receive(codec, handler, c.(buf := [], messages := messages), rest)
  {
    assert [] + rest == rest;
  }

  lemma OnGoRaw<M(!new)>(codec: Codec<M>, handler: Handler<M>, c: Conn<M>, messages: seq<M>, rest: seq<byte>)
    requires Ok(c) && !c.raw && !c.closed
    ensures var r := Reading(messages, true, false, false);
            Emerge(c, Framing.Drain(Reader(codec, handler), r, rest))
            == Receive(codec, handler, c.(buf := [], messages := messages, raw := true), rest)
  {
    var r := Reading(messages, true, false, false);
    assert Framing.Drain(Reader(codec, handler), r, rest) == Framing.Parse(r, rest);
  }

  lemma OnShut<M(!new)>(codec: Codec<M>, handler: Handler<M>, c: Conn<M>, messages: seq<M>, rest: seq<byte>)
    requires Ok(c) && !c.raw && !c.closed
    ensures var r := Reading(messages, false, true, false);
            Emerge(c, Framing.Drain(Reader(codec, handler), r, rest))
            == Receive(codec, handler, c.(buf := [], messages := messages), rest).(closed := true)
  {
    var r := Reading(messages, false, false, false);
    var p := Framing.Drain(Reader(codec, handler), r, rest);
    ReadsOn(codec, handler, r, rest);
    OnStay(codec, handler, c, messages, rest);
    EmergeShut(c, p);
  }

  lemma EmergeShut<M(!new)>(c: Conn<M>, p: Framing.Parse<Reading<M>>)
    requires Ok(c) && !c.raw
    ensures Emerge(c, Framing.Parse(p.state.(closed := true), p.buf)) == Emerge(c, p).(closed := true)
  {
  }
}

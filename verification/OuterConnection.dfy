/**
 * The reader and connection objects of packages/relay-core/src/outer-frame.ts: each method moves the
 * state as the state machine over values says, its chunks standing for one flat byte string.
 */
module OuterConnections {
  import opened Bytes
  import opened OuterFraming
  import Framing

  datatype NextFrame = Incomplete | Payload(bytes: seq<byte>) | OverCap

  /** The whole payload at the front of a byte string, or why there is none. */
  function FrontFrame(buf: seq<byte>): (r: NextFrame)
    ensures r.Payload? ==> Framing.PREFIX_BYTES + |r.bytes| <= |buf|
  {
    if |buf| < Framing.PREFIX_BYTES then Incomplete
    else
      var size := FrontU32(buf);
      if size > MAX_OUTER_MESSAGE_BYTES then OverCap
      else if |buf| < Framing.PREFIX_BYTES + size then Incomplete
      else Payload(buf[Framing.PREFIX_BYTES..Framing.PREFIX_BYTES + size])
  }

  class OuterFrameReader {
    var chunks: seq<seq<byte>>
    var length: nat

    ghost predicate Valid()
      reads this
    {
      length == |Flatten(chunks)| && forall i | 0 <= i < |chunks| :: chunks[i] != []
    }

    ghost function Contents(): seq<byte>
      reads this
    {
      Flatten(chunks)
    }

    constructor ()
      ensures Valid() && Contents() == []
    {
      chunks, length := [], 0;
    }

    method Push(chunk: seq<byte>)
      requires Valid()
      modifies this
      ensures Valid() && Contents() == old(Contents()) + chunk
    {
      if |chunk| == 0 {
        return;
      }
      FlattenSnoc(chunks, chunk);
      chunks := chunks + [chunk];
      length := length + |chunk|;
    }

    method PeekUint32BE() returns (value: Word)
      requires Valid() && length >= 4
      ensures value == FrontU32(Contents())
    {
      ghost var all := Contents();
      var acc: nat, read: nat, c := 0, 0, 0;
      assert chunks[..0] == [];
      while read < 4
        invariant 0 <= c <= |chunks| && (c == |chunks| ==> read == 4)
        invariant read == if |Flatten(chunks[..c])| < 4 then |Flatten(chunks[..c])| else 4
        invariant acc == Fold(all, read)
        decreases |chunks| - c
      {
        ChunkAt(chunks, c);
        acc, read := Accumulate(chunks[c], all, acc, read);
        c := c + 1;
      }
      FoldFour(all);
      value := acc;
    }

    /** Consume the first `n` bytes, chunk by chunk. */
    method Take(n: nat) returns (out: seq<byte>)
      requires Valid() && n <= length
      modifies this
      ensures Valid() && out == old(Contents())[..n] && Contents() == old(Contents())[n..]
      ensures length == old(length) - n
    {
      out := [];
      ghost var all := Contents();
      while |out| < n
        invariant |out| <= n && all == out + Flatten(chunks) && length == |all|
        invariant forall i | 0 <= i < |chunks| :: chunks[i] != []
        decreases n - |out|
      {
        var head := chunks[0];
        var want := n - |out|;
        if |head| <= want {
          out := out + head;
          chunks := chunks[1..];
        } else {
          out := out + head[..want];
          assert Flatten(chunks) == head[..want] + Flatten([head[want..]] + chunks[1..]) by {
            assert ([head[want..]] + chunks[1..])[1..] == chunks[1..];
          }
          chunks := [head[want..]] + chunks[1..];
        }
      }
      length := length - |out|;
    }

    /** One whole payload, or why there is none; an over-cap prefix is left where it is. */
    method Next() returns (r: NextFrame)
      requires Valid()
      modifies this
      ensures Valid()
      ensures r == FrontFrame(old(Contents()))
      ensures Contents() == if r.Payload? then old(Contents())[Framing.PREFIX_BYTES + |r.bytes|..] else old(Contents())
      ensures r.Payload? ==> length < old(length)
    {
      if length < Framing.PREFIX_BYTES {
        return Incomplete;
      }
      var size := PeekUint32BE();
      if size > MAX_OUTER_MESSAGE_BYTES {
        return OverCap;
      }
      if length < Framing.PREFIX_BYTES + size {
        return Incomplete;
      }
      var header := Take(Framing.PREFIX_BYTES);
      var bytes := Take(size);
      r := Payload(bytes);
    }

    method DrainRemaining() returns (out: seq<byte>)
      requires Valid()
      modifies this
      ensures Valid() && out == old(Contents()) && Contents() == [] && length == 0
    {
      out := Take(length);
    }
  }

  /** Fold a chunk, which starts at position `read0` of `all`, into a partial word, stopping at four bytes. */
  method Accumulate(chunk: seq<byte>, ghost all: seq<byte>, acc0: nat, read0: nat) returns (acc: nat, read: nat)
    requires read0 < 4 && read0 + |chunk| <= |all| && chunk == all[read0..read0 + |chunk|]
    requires acc0 == Fold(all, read0)
    ensures read == (if read0 + |chunk| < 4 then read0 + |chunk| else 4) && read <= |all|
    ensures acc == Fold(all, read)
  {
    acc, read := acc0, read0;
    var k := 0;
    while k < |chunk| && read < 4
      invariant 0 <= k <= |chunk| && read == read0 + k <= 4
      invariant acc == Fold(all, read)
    {
      assert chunk[k] == all[read];
      acc := acc * 256 + chunk[k] as int;
      read := read + 1;
      k := k + 1;
    }
  }

  class OuterConnection<!M> {
    const codec: Codec<M>
    /** What the registered message handler will do, given everything it has been called with. */
    const handler: Handler<M>
    const reader: OuterFrameReader
    var raw: bool
    var closed: bool
    var consumer: bool
    var rawBuffer: seq<seq<byte>>
    var rawBufferBytes: nat
    // Calls made: messages to the handler, raw bytes to the consumer, errors to the error handler.
    var messages: seq<M>
    var out: seq<byte>
    var errors: nat

    ghost predicate Valid()
      reads this, reader
    {
      reader.Valid() && rawBufferBytes == |Flatten(rawBuffer)| && Ok(State())
    }

    ghost function State(): Conn<M>
      reads this, reader
    {
      Conn(reader.Contents(), raw, closed, consumer, Flatten(rawBuffer), messages, out, errors)
    }

    constructor (codec: Codec<M>, handler: Handler<M>)
      ensures Valid() && State() == Fresh() && fresh(reader)
      ensures this.codec == codec && this.handler == handler
    {
      this.codec, this.handler := codec, handler;
      reader := new OuterFrameReader();
      raw, closed, consumer, rawBuffer, rawBufferBytes := false, false, false, [], 0;
      messages, out, errors := [], [], 0;
    }

    method Close()
      requires Valid()
      modifies this`closed
      ensures Valid() && State() == CloseConn(old(State()))
    {
      closed := true;
    }

    method DeliverRaw(bytes: seq<byte>)
      requires Valid() && raw
      modifies this
      ensures Valid() && State() == OuterFraming.DeliverRaw(old(State()), bytes)
    {
      if consumer {
        out := out + bytes;
        return;
      }
      rawBufferBytes := rawBufferBytes + |bytes|;
      if rawBufferBytes > MAX_PREHANDLER_RAW_BYTES {
        rawBuffer := [];
        rawBufferBytes := 0;
        errors := errors + 1;
        closed := true;
        return;
      }
      FlattenSnoc(rawBuffer, bytes);
      rawBuffer := rawBuffer + [bytes];
    }

    /** Stop parsing; what the reader holds is the start of the raw stream. Idempotent. */
    method ToRaw()
      requires Valid()
      modifies this, reader
      ensures Valid() && State() == OuterFraming.ToRaw(old(State()))
    {
      if raw {
        return;
      }
      raw := true;
      var leftover := reader.DrainRemaining();
      if |leftover| > 0 {
        DeliverRaw(leftover);
      }
    }

    /** Register the consumer and flush what waited for it, in order. */
    method OnRaw()
      requires Valid() && raw
      modifies this
      ensures Valid() && State() == OuterFraming.OnRaw(old(State()))
    {
      consumer := true;
      var buffered := rawBuffer;
      rawBuffer, rawBufferBytes := [], 0;
      var i := 0;
      ghost var before := out;
      while i < |buffered|
        invariant 0 <= i <= |buffered| && out == before + Flatten(buffered[..i])
        modifies this`out
      {
        assert buffered[..i + 1] == buffered[..i] + [buffered[i]];
        FlattenSnoc(buffered[..i], buffered[i]);
        out := out + buffered[i];
        i := i + 1;
      }
      assert buffered[..i] == buffered;
    }

    ghost function Parsing(): Reading<M>
      reads this
    {
      Reading(messages, raw, closed, false)
    }

    /** One turn of the framed loop: a payload is decoded and handed over, or the loop ends. */
    method ParseOne() returns (more: bool, failed: bool, wentRaw: bool)
      requires reader.Valid() && !raw
      modifies this`messages, this`closed, reader
      ensures reader.Valid()
      ensures more ==> !failed && !wentRaw && reader.length < old(reader.length)
      ensures Framing.Drain(Reader(codec, handler), old(Parsing()), old(reader.Contents()))
              == if more then Framing.Drain(Reader(codec, handler), Parsing(), reader.Contents())
                 else Framing.Parse(Reading(messages, wentRaw, closed, failed), reader.Contents())
    {
      more, failed, wentRaw := false, false, false;
      var r := reader.Next();
      match r
      case Incomplete =>
      case OverCap => failed := true;
      case Payload(bytes) =>
        var m := codec.decode(bytes);
        if m.None? {
          failed := true;
        } else {
          messages := messages + [m.value];
          var verdict := handler(messages);
          closed := closed || verdict.Shut?;
          wentRaw := verdict.GoRaw?;
          more := !wentRaw;
        }
    }

    /** The framed loop: parse until bytes run short, a frame is bad or the connection goes raw. */
    method ParseAll() returns (failed: bool, wentRaw: bool)
      requires reader.Valid() && !raw
      modifies this`messages, this`closed, reader
      ensures reader.Valid()
      ensures Framing.Drain(Reader(codec, handler), old(Parsing()), old(reader.Contents()))
              == Framing.Parse(Reading(messages, wentRaw, closed, failed), reader.Contents())
    {
      ghost var goal := Framing.Drain(Reader(codec, handler), Parsing(), reader.Contents());
      var more := true;
      failed, wentRaw := false, false;
      while more
        invariant reader.Valid() && !raw && (more ==> !failed && !wentRaw)
        invariant goal == if more then Framing.Drain(Reader(codec, handler), Parsing(), reader.Contents())
                          else Framing.Parse(Reading(messages, wentRaw, closed, failed), reader.Contents())
        decreases more, reader.length
      {
        more, failed, wentRaw := ParseOne();
      }
    }

    /** Inbound bytes: dropped once closed, passed on once raw, parsed before. */
    method Receive(bytes: seq<byte>)
      requires Valid()
      modifies this, reader
      ensures Valid() && State() == OuterFraming.Receive(codec, handler, old(State()), bytes)
    {
      if closed {
        return;
      }
      if raw {
        DeliverRaw(bytes);
        return;
      }
      reader.Push(bytes);
      var failed, wentRaw := ParseAll();
      if failed {
        errors := errors + 1;
      }
      if wentRaw {
        ToRaw();
      }
    }
  }
}

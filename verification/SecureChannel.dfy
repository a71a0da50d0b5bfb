/**
 * The channel object itself (packages/channel/src/channel.ts), over its byte queue and its two ciphers:
 * each method moves its state as the state machine over values says.
 */
module SecureChannels {
  import opened Bytes
  import opened ByteQueues
  import opened Frames
  import opened Records
  import opened Handshakes
  import opened Channels
  import Framing

  class SecureChannel {
    const cfg: Config
    const inbound: ByteQueue
    var keys: Option<SessionKeys>
    var sealer: Sealer?
    var opener: Opener?
    var open: bool
    var closed: bool
    var authenticated: bool
    /** What the frame handler was called with, and what went to the duplex. */
    var delivered: seq<Frame>
    var wire: seq<seq<byte>>

    ghost var rx: Rx
    ghost var sealed: seq<Rec>

    ghost function Footprint(): set<object>
      reads this, inbound
    {
      {this, inbound} + (if inbound.backing == null then {} else {inbound.backing})
      + (if sealer == null then {} else {sealer}) + (if opener == null then {} else {opener})
    }

    ghost predicate OpenerFits()
      reads this, opener
    {
      opener != null ==>
        && opener.Valid() && keys.Some?
        && opener.aead == cfg.aead && opener.key == RecvKey(cfg.role, keys.value)
           && opener.prefix == RecvPrefix(cfg.role, keys.value)
        && rx.counter == opener.counter && rx.lastTag == opener.lastTag && !rx.failed
    }

    ghost predicate SealerFits()
      reads this, sealer
    {
      sealer != null ==>
        && sealer.Valid() && keys.Some?
        && sealer.aead == cfg.aead && sealer.key == SendKey(cfg.role, keys.value)
           && sealer.prefix == SendPrefix(cfg.role, keys.value)
        && sealer.counter == |sealed|
    }

    /** The queue's buffers are none of the channel's own objects. */
    ghost predicate Apart()
      reads this, inbound
    {
      this !in inbound.Repr() && sealer !in inbound.Repr() && opener !in inbound.Repr()
    }

    /** `Valid` but for the bound on what an unfinished handshake has buffered. */
    ghost predicate Receiving()
      reads this, inbound, inbound.Repr(), sealer, opener
    {
      && inbound.Valid() && Apart()
      && OpenerFits() && SealerFits()
      && (opener != null <==> open) && (sealer != null <==> open) && (open ==> !closed)
      && delivered == rx.delivered && (authenticated <==> delivered != [])
      && Ok(State().(buf := []))
    }

    ghost predicate Valid()
      reads this, inbound, inbound.Repr(), sealer, opener
    {
      Receiving() && (!open && !closed ==> inbound.length < HANDSHAKE_MSG_BYTES)
    }

    /** The channel as a value. */
    ghost function State(): Chan
      reads this, inbound, inbound.Repr()
      requires AllInBounds(inbound.chunks)
    {
      Chan(if closed then Closed else if open then Open else Handshaking, inbound.Contents(), keys, rx, sealed, wire)
    }

    constructor (cfg: Config)
      ensures Valid() && State() == NEW && this.cfg == cfg && fresh(Footprint()) && fresh(inbound.Repr())
    {
      this.cfg := cfg;
      inbound := new ByteQueue();
      keys, sealer, opener := None, null, null;
      open, closed, authenticated := false, false, false;
      delivered, wire := [], [];
      rx, sealed := FRESH, [];
    }

    method Start()
      requires Valid() && wire == []
      modifies this`wire
      ensures Valid() && State() == Channels.Start(cfg, old(State()))
    {
      if cfg.role == Initiator && !closed && !open {
        wire := wire + [cfg.message];
      }
    }

    /** What `Shutdown` needs of a channel a failure may have left half way. */
    ghost predicate Halted()
      reads this, inbound, inbound.Repr()
    {
      inbound.Valid() && Apart() && delivered == rx.delivered && (authenticated <==> delivered != [])
      && |sealed| <= MAX_SAFE_INTEGER + 1
    }

    /** Tear down, dropping every key; idempotent. */
    method Shutdown()
      requires Halted() && (closed ==> Valid())
      modifies this
      ensures Valid() && State() == Channels.Shutdown(old(State()))
      ensures delivered == old(delivered)
    {
      if closed {
        return;
      }
      closed, open := true, false;
      keys, sealer, opener := None, null, null;
    }

    /** Seal and write one frame, or say why not. */
    method Send(frame: Frame) returns (r: SendResult)
      requires Valid()
      requires SendOutcome(cfg, State(), frame) == Accepted ==> |SealRec(cfg, State(), frame).record| < 0x1_0000_0000
      modifies this`wire, this`sealed, sealer
      ensures Valid()
      ensures r == Accepted <==>
                && old(open) && 1 + |frame.payload| + 16 <= 4_194_304 && old(|sealed|) <= 9_007_199_254_740_991
                && (cfg.role == Responder || old(authenticated) || old(sealed) == [])
      ensures if r == Accepted
              then |wire| == old(|wire|) + 1 && wire[..old(|wire|)] == old(wire) && |sealed| == old(|sealed|) + 1
              else wire == old(wire) && sealed == old(sealed)
      ensures r == SendOutcome(cfg, old(State()), frame)
      ensures State() == Channels.Send(cfg, old(State()), frame)
    {
      if closed || !open {
        return NotOpen;
      }
      if cfg.role == Initiator && !authenticated && sealer.counter >= 1 {
        return AwaitAuthenticated;
      }
      if RECORD_OVERHEAD_BYTES + |frame.payload| > MAX_RECORD_BYTES {
        return TooLarge;
      }
      r := Emit(frame);
    }

    /** Seal it and write the record, unless the sealer is spent. */
    method Emit(frame: Frame) returns (r: SendResult)
      requires Valid() && open
      requires |sealed| <= MAX_SAFE_INTEGER ==> |SealRec(cfg, State(), frame).record| < 0x1_0000_0000
      modifies this`wire, this`sealed, sealer
      ensures Valid() && inbound.Contents() == old(inbound.Contents())
      ensures if old(|sealed|) > MAX_SAFE_INTEGER then r == Spent && wire == old(wire) && sealed == old(sealed)
              else r == Accepted && sealed == old(sealed) + [SealRec(cfg, old(State()), frame)]
                   && wire == old(wire) + [Framing.Framed(SealRec(cfg, old(State()), frame).record)]
    {
      var plain := EncodeFrame(frame);
      ghost var rec := SealRec(cfg, State(), frame);
      var s := sealer.Seal(plain[..]);
      match s
      case Exhausted => r := Spent;
      case Record(record) =>
        assert record == rec.record;
        wire := wire + [Framing.Framed(record)];
        sealed := sealed + [rec];
        r := Accepted;
    }

    /** Open one whole record at the front of the queue and hand its frame over. */
    method OpenRecord(length: nat) returns (ok: bool)
      requires Valid() && open && Framing.PREFIX_BYTES + length <= |inbound.Contents()|
      modifies this`rx, this`delivered, this`authenticated, inbound, opener
      ensures Halted() && (ok ==> Valid()) && ok == !rx.failed
      ensures inbound.Contents() == old(inbound.Contents())[Framing.PREFIX_BYTES + length..]
      ensures inbound.length == old(inbound.length) - Framing.PREFIX_BYTES - length
      ensures rx == RecordStep(cfg.aead, RecvKey(cfg.role, keys.value), RecvPrefix(cfg.role, keys.value), old(rx),
                               old(inbound.Contents())[Framing.PREFIX_BYTES..Framing.PREFIX_BYTES + length])
    {
      ghost var all := inbound.Contents();
      var header := inbound.Take(Framing.PREFIX_BYTES);
      var body := inbound.Take(length);
      var record := body[..];
      assert record == all[Framing.PREFIX_BYTES..Framing.PREFIX_BYTES + length];
      assert inbound.Contents() == all[Framing.PREFIX_BYTES + length..];
      ok := OpenPayload(record);
    }

    method OpenPayload(record: seq<byte>) returns (ok: bool)
      requires Valid() && open
      modifies this`rx, this`delivered, this`authenticated, opener
      ensures Halted() && (ok ==> Valid()) && ok == !rx.failed
      ensures inbound.Contents() == old(inbound.Contents())
      ensures rx == RecordStep(cfg.aead, RecvKey(cfg.role, keys.value), RecvPrefix(cfg.role, keys.value), old(rx),
                               record)
    {
      ghost var next := RecordStep(cfg.aead, RecvKey(cfg.role, keys.value), RecvPrefix(cfg.role, keys.value), rx,
                                   record);
      var r := opener.Open(record);
      var frame := if r.Plain? then DecodeFrame(r.plain) else None;
      if frame.Some? {
        authenticated := true;
        delivered := delivered + [frame.value];
      }
      rx := next;
      ok := frame.Some?;
    }

    ghost function Records(): Framing.Machine<Rx>
      reads this
      requires keys.Some?
    {
      Reader(cfg.aead, RecvKey(cfg.role, keys.value), RecvPrefix(cfg.role, keys.value))
    }

    /** One turn of the parsing loop: stop short of bytes, fail, or consume one record. */
    method DrainOne() returns (more: bool, ok: bool)
      requires Valid() && open
      modifies this`rx, this`delivered, this`authenticated, inbound, opener
      ensures Halted() && (ok ==> Valid()) && ok == !rx.failed && (more ==> ok)
      ensures more ==> inbound.length < old(inbound.length)
                       && Framing.Drain(Records(), old(rx), old(inbound.Contents()))
                          == Framing.Drain(Records(), rx, inbound.Contents())
      ensures !more ==>
                Framing.Drain(Records(), old(rx), old(inbound.Contents())) == Framing.Parse(rx, inbound.Contents())
    {
      more, ok := false, true;
      Framing.DrainTurn(Records(), rx, inbound.Contents());
      if inbound.length < Framing.PREFIX_BYTES {
        return;
      }
      var length := inbound.PeekUint32BE();
      if length > MAX_RECORD_BYTES {
        rx := rx.(failed := true);
        ok := false;
      } else if inbound.length >= Framing.PREFIX_BYTES + length {
        ghost var next := RecordStep(cfg.aead, RecvKey(cfg.role, keys.value), RecvPrefix(cfg.role, keys.value), rx,
                                     inbound.Contents()[Framing.PREFIX_BYTES..Framing.PREFIX_BYTES + length]);
        ok := OpenRecord(length);
        assert rx == next;
        more := ok;
      }
    }

    /** Parse whole records until the bytes run short; `ok` is false when a failure must close the channel. */
    method DrainRecords() returns (ok: bool)
      requires Valid() && open
      modifies this`rx, this`delivered, this`authenticated, inbound, opener
      ensures Halted() && (ok ==> Valid()) && ok == !rx.failed
      ensures Framing.Drain(Records(), old(rx), old(inbound.Contents())) == Framing.Parse(rx, inbound.Contents())
    {
      ghost var goal := Framing.Drain(Records(), rx, inbound.Contents());
      var more := true;
      ok := true;
      while more
        invariant Halted() && (ok ==> Valid()) && ok == !rx.failed && (more ==> ok)
        invariant if more then Framing.Drain(Records(), rx, inbound.Contents()) == goal
                      else Framing.Parse(rx, inbound.Contents()) == goal
        decreases more, inbound.length
      {
        more, ok := DrainOne();
      }
    }

    /** The ciphers of the two directions. */
    method Ciphers(k: SessionKeys) returns (s: Sealer, o: Opener)
      ensures fresh(s) && s.Valid() && s.counter == 0
      ensures s.aead == cfg.aead && s.key == SendKey(cfg.role, k) && s.prefix == SendPrefix(cfg.role, k)
      ensures fresh(o) && o.Valid() && o.counter == 0 && o.lastTag == None
      ensures o.aead == cfg.aead && o.key == RecvKey(cfg.role, k) && o.prefix == RecvPrefix(cfg.role, k)
    {
      var send := if cfg.role == Initiator then InitiatorToResponder else ResponderToInitiator;
      var recv := if cfg.role == Initiator then ResponderToInitiator else InitiatorToResponder;
      s := new Sealer(cfg.aead, SendKey(cfg.role, k), k.sessionId, send);
      o := new Opener(cfg.aead, RecvKey(cfg.role, k), k.sessionId, recv);
    }

    /** Keys for both directions; the handshake is over. */
    method Install(k: SessionKeys)
      requires Receiving() && !open && !closed
      modifies this`wire, this`keys, this`sealer, this`opener, this`open
      ensures Valid() && open && fresh(opener) && fresh(sealer)
      ensures State() == old(State()).(phase := Open, keys := Some(k), wire := if cfg.role == Responder
                                       then old(wire) + [cfg.message] else old(wire))
    {
      var s, o := Ciphers(k);
      if cfg.role == Responder {
        wire := wire + [cfg.message];
      }
      Adopt(k, s, o);
    }

    method Adopt(k: SessionKeys, s: Sealer, o: Opener)
      requires Receiving() && !open && !closed && s !in inbound.Repr() && o !in inbound.Repr()
      requires s.Valid() && s.counter == 0 && s.aead == cfg.aead && s.key == SendKey(cfg.role, k)
               && s.prefix == SendPrefix(cfg.role, k)
      requires o.Valid() && o.counter == 0 && o.lastTag == None
      requires o.aead == cfg.aead && o.key == RecvKey(cfg.role, k) && o.prefix == RecvPrefix(cfg.role, k)
      modifies this`keys, this`sealer, this`opener, this`open
      ensures Valid() && open && opener == o && sealer == s && keys == Some(k)
              && inbound.Contents() == old(inbound.Contents())
    {
      keys, sealer, opener, open := Some(k), s, o, true;
    }

    /** Fold in the peer's handshake message; false when it yields no keys. */
    method CompleteHandshake() returns (ok: bool)
      requires Receiving() && !open && !closed && inbound.length >= HANDSHAKE_MSG_BYTES
      modifies this, inbound
      ensures Halted() && !closed && (ok ==> Valid() && open && fresh(opener) && fresh(sealer))
      ensures inbound.Contents() == old(inbound.Contents())[HANDSHAKE_MSG_BYTES..]
      ensures var consumed := cfg.consume(old(inbound.Contents())[..HANDSHAKE_MSG_BYTES]);
              && ok == consumed.Some?
              && State() == old(State()).(buf := inbound.Contents(), phase := if ok then Open else Handshaking,
                                          keys := consumed,
                                          wire := if ok && cfg.role == Responder
                                              then old(wire) + [cfg.message] else old(wire))
    {
      var message := inbound.Take(HANDSHAKE_MSG_BYTES);
      var consumed := cfg.consume(message[..]);
      ok := consumed.Some?;
      if ok {
        Install(consumed.value);
      }
    }

    /** Inbound bytes: queue them, parse what is whole, close on the first failure. */
    method Receive(chunk: View)
      requires Valid() && chunk.InBounds() && chunk.buffer != inbound.backing
      modifies this, inbound, inbound.backing, opener
      ensures Valid()
      ensures State() == Channels.Receive(cfg, old(State()), old(chunk.Bytes()))
    {
      if closed {
        return;
      }
      inbound.Push(chunk);
      if open {
        ReceiveRecords();
      } else if inbound.length >= HANDSHAKE_MSG_BYTES {
        var ok := CompleteHandshake();
        if ok {
          ReceiveRecords();
        } else {
          Shutdown();
        }
      }
    }

    /** Parse with the keys at hand; a failure is fatal. */
    method ReceiveRecords()
      requires Valid() && open
      modifies this, inbound, opener
      ensures Valid()
      ensures State() == Channels.DrainRecords(cfg, old(State()), old(inbound.Contents()))
    {
      var ok := DrainRecords();
      if !ok {
        Shutdown();
      }
    }
  }
}

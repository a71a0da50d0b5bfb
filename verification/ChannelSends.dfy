/** Which sends are accepted. */
module ChannelSends {
  // And what it writes, on the fields of the channel: the record's bytes, key and nonce, and the guard of each refusal.

  import opened Bytes
  import opened Symbols
  import opened Frames
  import opened Records
  import opened Handshakes
  import opened Channels
  import opened ChannelProgress
  import Framing

  // ---- One send ---------------------------------------------------------------------------------

  /**
   * The channel is open; tag byte, payload and authenticator fit into 4 MiB; at most 2^53 - 1 records are
   * sealed; and an initiator has opened a record of its peer's, or has sealed none.
   */
  predicate MaySend(role: Role, c: Chan, frame: Frame) {
    && c.phase == Open
    && 1 + |frame.payload| + 16 <= 4_194_304
    && |c.sealed| <= 9_007_199_254_740_991
    && (role == Responder || c.rx.delivered != [] || c.sealed == [])
  }

  /** The frame's lane as a byte and then its payload. */
  function Plaintext(frame: Frame): seq<byte> {
    [if frame.lane.Control? then 1 else 2] + frame.payload
  }

  /**
   * What a send seals: under the key of its direction, and a nonce of that direction's prefix and the number of
   * records before it.
   */
  function Sealed(cfg: Config, c: Chan, frame: Frame): seq<byte>
    requires c.keys.Some?
  {
    var key := if cfg.role == Initiator then c.keys.value.keyI2R else c.keys.value.keyR2I;
    var way := if cfg.role == Initiator then InitiatorToResponder else ResponderToInitiator;
    cfg.aead.seal(key, NonceOf(NoncePrefix(c.keys.value.sessionId, way), |c.sealed|), Plaintext(frame))
  }

  lemma PlaintextIs(frame: Frame)
    ensures Plaintext(frame) == FrameBytes(frame)
  {
  }

  /**
   * A send appends its record, behind its length, to what is written exactly when it may; otherwise it changes
   * nothing.
   */
  lemma SendLaw(cfg: Config, c: Chan, frame: Frame)
    requires Ok(c) && Expands(cfg.aead)
    ensures SendOutcome(cfg, c, frame) == Accepted ==> |SealRec(cfg, c, frame).record| < 0x1_0000_0000
    ensures var d := Send(cfg, c, frame);
            if MaySend(cfg.role, c, frame)
            then && |Sealed(cfg, c, frame)| < 0x1_0000_0000
                 && d.wire == c.wire + [U32(|Sealed(cfg, c, frame)|) + Sealed(cfg, c, frame)]
                 && |d.sealed| == |c.sealed| + 1 && d.sealed[..|c.sealed|] == c.sealed
                 && d.sealed[|c.sealed|].frame == frame && d.sealed[|c.sealed|].record == Sealed(cfg, c, frame)
                 && d == c.(wire := d.wire, sealed := d.sealed)
            else d == c
  {
    PlaintextIs(frame);
    if SendOutcome(cfg, c, frame) == Accepted {
      SealedLength(cfg, c, frame);
    }
  }

  /** Each refusal by its own guard, in this order. */
  lemma RefusalLaw(cfg: Config, c: Chan, frame: Frame)
    ensures var r := SendOutcome(cfg, c, frame);
            && (r == Accepted <==> MaySend(cfg.role, c, frame))
            && (r == NotOpen <==> c.phase != Open)
            && (r == AwaitAuthenticated <==>
                  c.phase == Open && cfg.role == Initiator && c.rx.delivered == [] && c.sealed != [])
            && (r == TooLarge <==>
                  && c.phase == Open && 1 + |frame.payload| + 16 > 4_194_304
                  && (cfg.role == Responder || c.rx.delivered != [] || c.sealed == []))
            && (r == Spent <==>
                  && c.phase == Open && 1 + |frame.payload| + 16 <= 4_194_304 && |c.sealed| > 9_007_199_254_740_991
                  && (cfg.role == Responder || c.rx.delivered != [] || c.sealed == []))
  {
  }

  // ---- Whole runs -------------------------------------------------------------------------------

  /** The frames of a run that were sent when they might be, in order. */
  ghost function Allowed(cfg: Config, c: Chan, events: seq<Event>): seq<Frame>
    requires Ok(c) && Expands(cfg.aead)
    decreases |events|
  {
    if events == [] then []
    else
      (if events[0].Say? && MaySend(cfg.role, c, events[0].frame) then [events[0].frame] else [])
      + Allowed(cfg, Run(cfg, c, events[..1]), events[1..])
  }

  lemma RunOne(cfg: Config, c: Chan, events: seq<Event>)
    requires Ok(c) && Expands(cfg.aead) && events != []
    ensures Run(cfg, c, events) == Run(cfg, Run(cfg, c, events[..1]), events[1..])
    ensures events[0].Say? ==>
              && (SendOutcome(cfg, c, events[0].frame) == Accepted ==>
                    |SealRec(cfg, c, events[0].frame).record| < 0x1_0000_0000)
              && Run(cfg, c, events[..1]) == Send(cfg, c, events[0].frame)
    ensures !events[0].Say? ==> Run(cfg, c, events[..1]).sealed == c.sealed
  {
    if events[0].Say? {
      SendLaw(cfg, c, events[0].frame);
    }
    assert events[..1][0] == events[0] && events[..1][1..] == [];
    var d := Next(cfg, c, events[0]);
    assert Run(cfg, c, events[..1]) == Run(cfg, d, []) == d;
  }

  function FramesIn(sealed: seq<Rec>): seq<Frame> {
    seq(|sealed|, k requires 0 <= k < |sealed| => sealed[k].frame)
  }

  /**
   * Over every run, the records sealed are those of the frames sent when they might be, all of them, in
   * order, with nothing between: no send is lost, none refused that is allowed, and none let through that is not.
   */
  lemma {:induction false} SendsExact(cfg: Config, c: Chan, events: seq<Event>)
    requires Ok(c) && Expands(cfg.aead)
    ensures FramesIn(Run(cfg, c, events).sealed) == FramesIn(c.sealed) + Allowed(cfg, c, events)
    decreases |events|
  {
    if events == [] {
      assert FramesIn(c.sealed) + [] == FramesIn(c.sealed);
    } else {
      var d := Run(cfg, c, events[..1]);
      RunOne(cfg, c, events);
      SendsExact(cfg, d, events[1..]);
      if events[0].Say? {
        SendLaw(cfg, c, events[0].frame);
        if MaySend(cfg.role, c, events[0].frame) {
          assert FramesIn(d.sealed) == FramesIn(c.sealed) + [events[0].frame];
        }
      }
    }
  }

  // ---- The handshake message ----------------------------------------------------------------------

  /**
   * An initiator's first write is its handshake message, once; a responder writes none before it has read its
   * peer's.
   */
  lemma StartLaw(cfg: Config, c: Chan)
    requires Ok(c)
    ensures var d := Start(cfg, c);
            if cfg.role == Initiator && c.phase == Handshaking && c.wire == [] then d == c.(wire := [cfg.message])
            else d == c
  {
    assert [] + [cfg.message] == [cfg.message];
  }
}

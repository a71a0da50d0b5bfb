/** Two ends, talking both ways. */
module ChannelExchange {
  // Two matched ends over two byte links that deliver in order, cut anywhere: each sends, hears and quits
  // as it likes, in any interleaving.

  import opened Bytes
  import opened Symbols
  import opened Frames
  import opened Records
  import opened Handshakes
  import opened Channels
  import Framing
  import P = ChannelProgress

  /** One end, how many bytes of its peer's output it was handed, and whether it closed of its own accord. */
  datatype Half = Half(chan: Chan, got: nat, quit: bool)

  datatype Pair = Pair(initiator: Half, responder: Half) {
    function Of(role: Role): Half {
      if role == Initiator then initiator else responder
    }

    function With(role: Role, h: Half): Pair {
      if role == Initiator then this.(initiator := h) else this.(responder := h)
    }
  }

  function Peer(role: Role): Role {
    if role == Initiator then Responder else Initiator
  }

  /** The two ends, and the keys that both derive from the other's message. */
  datatype Setup = Setup(initiator: Config, responder: Config, keys: SessionKeys) {
    function Of(role: Role): Config {
      if role == Initiator then initiator else responder
    }
  }

  ghost predicate Matched(x: Setup) {
    && x.initiator.role == Initiator && x.responder.role == Responder
    && x.initiator.aead == x.responder.aead && P.Correct(x.initiator.aead) && Expands(x.initiator.aead)
    && |x.initiator.message| == |x.responder.message| == HANDSHAKE_MSG_BYTES
    && x.initiator.consume(x.responder.message) == Some(x.keys)
       && x.responder.consume(x.initiator.message) == Some(x.keys)
  }

  datatype Event =
    | Starts                        // the initiator's microtask
    | Says(role: Role, frame: Frame)
    | Arrives(role: Role, n: nat)   // the next bytes of the peer's output
    | Quits(role: Role)

  function Output(s: Pair, role: Role): seq<byte> {
    Flatten(s.Of(role).chan.wire)
  }

  ghost function Next(x: Setup, s: Pair, e: Event): (t: Pair)
    requires Matched(x) && Ok(s.initiator.chan) && Ok(s.responder.chan)
    ensures Ok(t.initiator.chan) && Ok(t.responder.chan)
  {
    match e
    case Starts => s.(initiator := s.initiator.(chan := Start(x.initiator, s.initiator.chan)))
    case Says(role, frame) =>
      var h := s.Of(role);
      assert SendOutcome(x.Of(role), h.chan, frame) == Accepted ==>
               |SealRec(x.Of(role), h.chan, frame).record| < 0x1_0000_0000 by {
        if SendOutcome(x.Of(role), h.chan, frame) == Accepted { P.SealedLength(x.Of(role), h.chan, frame); }
      }
      s.With(role, h.(chan := Send(x.Of(role), h.chan, frame)))
    case Arrives(role, n) =>
      var h, all := s.Of(role), Output(s, Peer(role));
      if h.got + n <= |all|
      then s.With(role, h.(chan := Receive(x.Of(role), h.chan, all[h.got..h.got + n]), got := h.got + n))
      else s
    case Quits(role) =>
      var h := s.Of(role);
      s.With(role, h.(chan := Shutdown(h.chan), quit := h.quit || h.chan.phase != Closed))
  }

  ghost function Run(x: Setup, s: Pair, events: seq<Event>): (t: Pair)
    requires Matched(x) && Ok(s.initiator.chan) && Ok(s.responder.chan)
    ensures Ok(t.initiator.chan) && Ok(t.responder.chan)
    decreases |events|
  {
    if events == [] then s else Run(x, Next(x, s, events[0]), events[1..])
  }

  const QUIET := Pair(Half(NEW, 0, false), Half(NEW, 0, false))

  // ---- What an end has heard, whatever it said ---------------------------------------------------

  /** The same but for what was sent. */
  predicate SameIn(c: Chan, d: Chan) {
    Alike(c.(sealed := [], wire := []), d.(sealed := [], wire := []))
  }

  /** Receiving looks at nothing an end has sent. */
  lemma ReceiveSameIn(cfg: Config, c: Chan, d: Chan, bytes: seq<byte>)
    requires Ok(c) && Ok(d) && SameIn(c, d)
    ensures SameIn(Receive(cfg, c, bytes), Receive(cfg, d, bytes))
  {
  }

  lemma ReceiveGrows(cfg: Config, c: Chan, bytes: seq<byte>)
    requires Ok(c)
    ensures Prefix(c.rx.delivered, Receive(cfg, c, bytes).rx.delivered)
  {
    var buf := c.buf + bytes;
    if c.phase == Open {
      P.DeliveredGrows(cfg.aead, RecvKey(cfg.role, c.keys.value), RecvPrefix(cfg.role, c.keys.value), c.rx, buf);
    }
  }

  /** Two consecutive records end in the same tag. */
  ghost predicate Repeated(sealed: seq<Rec>) {
    exists k | 0 < k < |sealed| :: Tag(sealed[k - 1].record) == Tag(sealed[k].record)
  }

  /** Of some input, what a new end makes of its first bytes: no more frames, and closed no sooner. */
  lemma PartOf(cfg: Config, input: seq<byte>, all: seq<byte>)
    requires Prefix(input, all)
    ensures var d, e := Receive(cfg, NEW, input), Receive(cfg, NEW, all);
            Prefix(d.rx.delivered, e.rx.delivered) && (d.phase == Closed ==> e.phase == Closed)
  {
    var d, rest := Receive(cfg, NEW, input), all[|input|..];
    assert input + rest == all;
    ReceiveTwice(cfg, NEW, input, rest);
    ReceiveGrows(cfg, d, rest);
  }

  /** A new end is past its handshake with the 32nd byte, and any keys it has come from the first 32. */
  lemma HandshakeOf(cfg: Config, input: seq<byte>)
    ensures var d := Receive(cfg, NEW, input);
            && (d.phase == Handshaking <==> |input| < HANDSHAKE_MSG_BYTES)
            && (d.keys.Some? ==> |input| >= HANDSHAKE_MSG_BYTES && cfg.consume(input[..HANDSHAKE_MSG_BYTES]) == d.keys)
  {
    assert NEW.buf + input == input;
  }

  /** What the first bytes of a matched peer's output come to. */
  lemma {:induction false} PartArrives(cfg: Config, message: seq<byte>, keys: SessionKeys, sealed: seq<Rec>,
                                       input: seq<byte>)
    requires |message| == HANDSHAKE_MSG_BYTES && cfg.consume(message) == Some(keys)
    requires P.OpensAll(cfg.aead, RecvKey(cfg.role, keys), RecvPrefix(cfg.role, keys), sealed)
    requires Prefix(input, message + Flatten(P.FramedAll(sealed)))
    ensures var d := Receive(cfg, NEW, input);
            && Prefix(d.rx.delivered, P.FramesOf(sealed))
            && (d.keys.Some? ==> d.keys.value == keys)
            && (d.phase == Handshaking <==> |input| < HANDSHAKE_MSG_BYTES)
            && (d.phase == Closed ==> Repeated(sealed))
  {
    var all, n := message + Flatten(P.FramedAll(sealed)), P.Reach(sealed, 0);
    P.StreamArrives(cfg, message, keys, sealed);
    PartOf(cfg, input, all);
    HandshakeOf(cfg, input);
    if |input| >= HANDSHAKE_MSG_BYTES {
      assert input[..HANDSHAKE_MSG_BYTES] == message;
    }
    assert P.FramesOf(sealed[..n]) == P.FramesOf(sealed)[..n];
    PrefixTransitive(Receive(cfg, NEW, input).rx.delivered, P.FramesOf(sealed[..n]), P.FramesOf(sealed));
  }

  // ---- What every reachable pair keeps ----------------------------------------------------------

  /** All an end wrote: nothing, or its message and its records in order, sealed under the shared keys. */
  ghost predicate Wrote(cfg: Config, keys: SessionKeys, c: Chan) {
    && Ok(c) && (c.keys.Some? ==> c.keys.value == keys)
    && (forall k | 0 <= k < |c.sealed| ::
          && TAG_BYTES <= |c.sealed[k].record| <= MAX_RECORD_BYTES
          && c.sealed[k].record == cfg.aead.seal(SendKey(cfg.role, keys), NonceOf(SendPrefix(cfg.role, keys), k),
                                                 FrameBytes(c.sealed[k].frame)))
    && (if c.wire == [] then c.sealed == [] else c.wire == [cfg.message] + P.FramedAll(c.sealed))
    && (c.phase == Open ==> c.wire != []) && (c.phase == Handshaking && cfg.role == Responder ==> c.wire == [])
  }

  /** Where an end stands in its peer's output: where it would, had it only listened; or it quit before. */
  ghost predicate Follows(cfg: Config, h: Half, output: seq<byte>) {
    && h.got <= |output|
    && var d := Receive(cfg, NEW, output[..h.got]);
       if h.quit then h.chan.phase == Closed && Prefix(h.chan.rx.delivered, d.rx.delivered) else SameIn(h.chan, d)
  }

  ghost predicate Inv(x: Setup, s: Pair) {
    && Wrote(x.initiator, x.keys, s.initiator.chan) && Wrote(x.responder, x.keys, s.responder.chan)
    && Follows(x.initiator, s.initiator, Output(s, Responder))
       && Follows(x.responder, s.responder, Output(s, Initiator))
    && (s.responder.chan.wire != [] ==> s.initiator.chan.wire != [])
  }

  /** What an end wrote opens at the other. */
  lemma WroteOpens(x: Setup, role: Role, c: Chan)
    requires Matched(x) && Wrote(x.Of(role), x.keys, c)
    ensures P.OpensAll(x.Of(Peer(role)).aead, RecvKey(Peer(role), x.keys), RecvPrefix(Peer(role), x.keys), c.sealed)
    ensures c.wire != [] ==> Flatten(c.wire) == x.Of(role).message + Flatten(P.FramedAll(c.sealed))
  {
    if c.wire != [] {
      assert c.wire[1..] == P.FramedAll(c.sealed);
    }
  }

  lemma WireGrows(c: Chan, more: seq<byte>)
    ensures Flatten(c.wire + [more]) == Flatten(c.wire) + more
  {
    FlattenSnoc(c.wire, more);
  }

  /** More output does not change what was heard of it so far. */
  lemma StillFollows(cfg: Config, h: Half, output: seq<byte>, more: seq<byte>)
    requires Follows(cfg, h, output)
    ensures Follows(cfg, h, output + more)
  {
    assert (output + more)[..h.got] == output[..h.got];
  }

  /** One end moved on: its output grew, perhaps, and its peer was heard from before it answered. */
  lemma OneMoved(x: Setup, s: Pair, role: Role, h: Half, more: seq<byte>)
    requires Inv(x, s) && Wrote(x.Of(role), x.keys, h.chan) && Follows(x.Of(role), h, Output(s, Peer(role)))
    requires Flatten(h.chan.wire) == Output(s, role) + more && (s.Of(role).chan.wire != [] ==> h.chan.wire != [])
    requires role == Responder && h.chan.wire != [] ==> s.initiator.chan.wire != []
    ensures Inv(x, s.With(role, h))
  {
    StillFollows(x.Of(Peer(role)), s.Of(Peer(role)), Output(s, role), more);
  }

  /** An end that wrote nothing. */
  lemma SilentMoved(x: Setup, s: Pair, role: Role, h: Half)
    requires Inv(x, s) && Wrote(x.Of(role), x.keys, h.chan) && Follows(x.Of(role), h, Output(s, Peer(role)))
    requires h.chan.wire == s.Of(role).chan.wire
    ensures Inv(x, s.With(role, h))
  {
    assert Output(s, role) + [] == Output(s, role);
    OneMoved(x, s, role, h, []);
  }

  lemma HalfSays(cfg: Config, keys: SessionKeys, c: Chan, frame: Frame)
    requires Wrote(cfg, keys, c) && Expands(cfg.aead) && SendOutcome(cfg, c, frame) == Accepted
    ensures |SealRec(cfg, c, frame).record| < 0x1_0000_0000 && Wrote(cfg, keys, Send(cfg, c, frame))
    ensures Send(cfg, c, frame).wire == c.wire + [Framing.Framed(SealRec(cfg, c, frame).record)]
  {
    P.SealedLength(cfg, c, frame);
    var rec, d := SealRec(cfg, c, frame), Send(cfg, c, frame);
    assert P.FramedAll(d.sealed) == P.FramedAll(c.sealed) + [Framing.Framed(rec.record)];
    assert c.wire + [Framing.Framed(rec.record)] == [cfg.message] + P.FramedAll(d.sealed);
  }

  lemma SaysKeeps(x: Setup, s: Pair, role: Role, frame: Frame)
    requires Matched(x) && Inv(x, s)
    ensures Inv(x, Next(x, s, Says(role, frame)))
  {
    var cfg, h := x.Of(role), s.Of(role);
    if SendOutcome(cfg, h.chan, frame) == Accepted {
      HalfSays(cfg, x.keys, h.chan, frame);
      var more := Framing.Framed(SealRec(cfg, h.chan, frame).record);
      WireGrows(h.chan, more);
      OneMoved(x, s, role, h.(chan := Send(cfg, h.chan, frame)), more);
    }
  }

  lemma StartsKeeps(x: Setup, s: Pair)
    requires Matched(x) && Inv(x, s)
    ensures Inv(x, Next(x, s, Starts))
  {
    var h := s.initiator;
    if h.chan.phase == Handshaking && h.chan.wire == [] {
      WireGrows(h.chan, x.initiator.message);
      assert P.FramedAll([]) == [];
      OneMoved(x, s, Initiator, h.(chan := Start(x.initiator, h.chan)), x.initiator.message);
    }
  }

  lemma QuitsKeeps(x: Setup, s: Pair, role: Role)
    requires Matched(x) && Inv(x, s)
    ensures Inv(x, Next(x, s, Quits(role)))
  {
    var h := s.Of(role);
    var t := h.(chan := Shutdown(h.chan), quit := h.quit || h.chan.phase != Closed);
    QuitterFollows(x.Of(role), h, Output(s, Peer(role)));
    SilentMoved(x, s, role, t);
  }

  lemma QuitterFollows(cfg: Config, h: Half, output: seq<byte>)
    requires Ok(h.chan) && Follows(cfg, h, output)
    ensures Follows(cfg, h.(chan := Shutdown(h.chan), quit := h.quit || h.chan.phase != Closed), output)
  {
    var d := Receive(cfg, NEW, output[..h.got]);
    assert !h.quit ==> h.chan.rx == d.rx;
  }

  /** The next bytes of the peer's output, as they move an end along. */
  lemma HalfFollows(cfg: Config, h: Half, all: seq<byte>, n: nat)
    requires Ok(h.chan) && Follows(cfg, h, all) && h.got + n <= |all|
    ensures Follows(cfg, h.(chan := Receive(cfg, h.chan, all[h.got..h.got + n]), got := h.got + n), all)
  {
    var input, bytes := all[..h.got], all[h.got..h.got + n];
    assert input + bytes == all[..h.got + n];
    ReceiveTwice(cfg, NEW, input, bytes);
    if h.quit {
      QuitFollows(cfg, h.chan, input, bytes);
    } else {
      ReceiveSameIn(cfg, h.chan, Receive(cfg, NEW, input), bytes);
    }
  }

  /** An end that quit delivers no more, and a listener would have delivered no less. */
  lemma QuitFollows(cfg: Config, c: Chan, input: seq<byte>, bytes: seq<byte>)
    requires Ok(c) && c.phase == Closed && Prefix(c.rx.delivered, Receive(cfg, NEW, input).rx.delivered)
    ensures Receive(cfg, c, bytes) == c && Prefix(c.rx.delivered, Receive(cfg, NEW, input + bytes).rx.delivered)
  {
    var before := Receive(cfg, NEW, input);
    ReceiveTwice(cfg, NEW, input, bytes);
    ReceiveGrows(cfg, before, bytes);
    PrefixTransitive(c.rx.delivered, before.rx.delivered, Receive(cfg, before, bytes).rx.delivered);
  }

  /** Receiving writes at most a responder's answer. */
  lemma ReceiveWrites(cfg: Config, keys: SessionKeys, c: Chan, bytes: seq<byte>)
    requires Wrote(cfg, keys, c)
    requires Receive(cfg, c, bytes).keys.Some? ==> Receive(cfg, c, bytes).keys.value == keys
    requires cfg.role == Initiator && Receive(cfg, c, bytes).phase == Open ==> c.wire != []
    ensures Wrote(cfg, keys, Receive(cfg, c, bytes))
    ensures Receive(cfg, c, bytes).wire == c.wire
            || (cfg.role == Responder && c.phase == Handshaking
                && Receive(cfg, c, bytes).wire == c.wire + [cfg.message] && Receive(cfg, c, bytes).phase != Handshaking)
  {
    assert P.FramedAll([]) == [];
    assert [] + [cfg.message] == [cfg.message] + [];
  }

  /** The end once the next bytes have reached it. */
  function Reached(x: Setup, s: Pair, role: Role, n: nat): Half
    requires Ok(s.Of(role).chan) && s.Of(role).got + n <= |Output(s, Peer(role))|
  {
    var h := s.Of(role);
    h.(chan := Receive(x.Of(role), h.chan, Output(s, Peer(role))[h.got..h.got + n]), got := h.got + n)
  }

  lemma ReachedFollows(x: Setup, s: Pair, role: Role, n: nat)
    requires Ok(s.Of(role).chan) && Follows(x.Of(role), s.Of(role), Output(s, Peer(role)))
             && s.Of(role).got + n <= |Output(s, Peer(role))|
    ensures Follows(x.Of(role), Reached(x, s, role, n), Output(s, Peer(role)))
    ensures Reached(x, s, role, n).quit ==> s.Of(role).chan.phase == Closed
  {
    HalfFollows(x.Of(role), s.Of(role), Output(s, Peer(role)), n);
  }

  lemma ReachedMoved(x: Setup, s: Pair, role: Role, n: nat)
    requires Matched(x) && Inv(x, s) && s.Of(role).got + n <= |Output(s, Peer(role))|
    ensures Inv(x, s.With(role, Reached(x, s, role, n)))
  {
    var h := s.Of(role);
    ReachedFollows(x, s, role, n);
    HeardKeys(x, s, role, Reached(x, s, role, n));
    HearerMoved(x, s, role, Output(s, Peer(role))[h.got..h.got + n], Reached(x, s, role, n));
  }

  /** What an end that heard all this knows, and that its peer spoke. */
  lemma HeardKeys(x: Setup, s: Pair, role: Role, t: Half)
    requires Matched(x) && Inv(x, s) && Ok(t.chan) && Follows(x.Of(role), t, Output(s, Peer(role)))
    ensures t.chan.keys.Some? ==> t.chan.keys.value == x.keys
    ensures !t.quit && t.chan.phase != Handshaking ==> s.Of(Peer(role)).chan.wire != []
  {
    Heard(x, s, role, t);
  }

  lemma ArrivesKeeps(x: Setup, s: Pair, role: Role, n: nat)
    requires Matched(x) && Inv(x, s) && s.Of(role).got + n <= |Output(s, Peer(role))|
    ensures Inv(x, Next(x, s, Arrives(role, n)))
  {
    ReachedMoved(x, s, role, n);
    ArrivesIs(x, s, role, n);
  }

  lemma ArrivesIs(x: Setup, s: Pair, role: Role, n: nat)
    requires Matched(x) && Ok(s.initiator.chan) && Ok(s.responder.chan) && s.Of(role).got + n <= |Output(s, Peer(role))|
    ensures Next(x, s, Arrives(role, n)) == s.With(role, Reached(x, s, role, n))
  {
  }

  lemma HearerMoved(x: Setup, s: Pair, role: Role, bytes: seq<byte>, t: Half)
    requires Inv(x, s) && t.chan == Receive(x.Of(role), s.Of(role).chan, bytes)
             && Follows(x.Of(role), t, Output(s, Peer(role)))
    requires x.initiator.role == Initiator && x.responder.role == Responder
             && (t.quit ==> s.Of(role).chan.phase == Closed)
    requires t.chan.keys.Some? ==> t.chan.keys.value == x.keys
    requires !t.quit && t.chan.phase != Handshaking ==> s.Of(Peer(role)).chan.wire != []
    ensures Inv(x, s.With(role, t))
  {
    var cfg, h := x.Of(role), s.Of(role);
    assert role == Initiator && t.chan.phase == Open ==> h.chan.wire != [];
    ReceiveWrites(cfg, x.keys, h.chan, bytes);
    if t.chan.wire == h.chan.wire {
      SilentMoved(x, s, role, t);
    } else {
      WireGrows(h.chan, cfg.message);
      OneMoved(x, s, role, t, cfg.message);
    }
  }

  /**
   * An end past its handshake heard its peer's message: it has the shared keys, and the peer wrote first or
   * answered.
   */
  lemma Heard(x: Setup, s: Pair, role: Role, t: Half)
    requires Matched(x) && Inv(x, s) && Ok(t.chan) && Follows(x.Of(role), t, Output(s, Peer(role)))
    ensures t.chan.keys.Some? ==> t.chan.keys.value == x.keys
    ensures !t.quit && t.chan.phase != Handshaking ==> s.Of(Peer(role)).chan.wire != []
    ensures !t.quit && t.chan.phase == Closed ==> Repeated(s.Of(Peer(role)).chan.sealed)
    ensures Prefix(t.chan.rx.delivered, P.FramesOf(s.Of(Peer(role)).chan.sealed))
  {
    var peer, all := s.Of(Peer(role)).chan, Output(s, Peer(role));
    if peer.wire == [] {
      assert all[..t.got] == [] && Receive(x.Of(role), NEW, []) == NEW;
    } else {
      WroteOpens(x, Peer(role), peer);
      PartArrives(x.Of(role), x.Of(Peer(role)).message, x.keys, peer.sealed, all[..t.got]);
      if t.quit {
        PrefixTransitive(t.chan.rx.delivered, Receive(x.Of(role), NEW, all[..t.got]).rx.delivered,
                         P.FramesOf(peer.sealed));
      }
    }
  }

  // ---- Whole runs -------------------------------------------------------------------------------

  lemma StepKeeps(x: Setup, s: Pair, e: Event)
    requires Matched(x) && Inv(x, s)
    ensures Inv(x, Next(x, s, e))
  {
    match e
    case Starts => StartsKeeps(x, s);
    case Says(role, frame) => SaysKeeps(x, s, role, frame);
    case Arrives(role, n) => if s.Of(role).got + n <= |Output(s, Peer(role))| { ArrivesKeeps(x, s, role, n); }
    case Quits(role) => QuitsKeeps(x, s, role);
  }

  lemma {:induction false} RunKeeps(x: Setup, s: Pair, events: seq<Event>)
    requires Matched(x) && Inv(x, s)
    ensures Inv(x, Run(x, s, events))
    decreases |events|
  {
    if events != [] {
      StepKeeps(x, s, events[0]);
      RunKeeps(x, Next(x, s, events[0]), events[1..]);
    }
  }

  lemma QuietInv(x: Setup)
    ensures Inv(x, QUIET)
  {
    var nothing: seq<byte> := [];
    assert Receive(x.initiator, NEW, nothing) == NEW == Receive(x.responder, NEW, nothing);
    assert Output(QUIET, Initiator) == nothing == Output(QUIET, Responder) && nothing[..0] == nothing;
  }

  /**
   * Two matched ends in any interleaving of their sends, deliveries and closes: what an end delivered is a
   * prefix of what its peer's send accepted; an end that did not close of its own accord is closed only if
   * two consecutive records of its peer end in the same tag; and one that was handed all its peer wrote,
   * its message at least, delivered every frame, or those before the first repetition if there is one.
   */
  lemma ExchangeDelivers(x: Setup, events: seq<Event>, role: Role)
    requires Matched(x)
    ensures var s := Run(x, QUIET, events);
            var h, peer := s.Of(role), s.Of(Peer(role)).chan;
            && Prefix(h.chan.rx.delivered, P.FramesOf(peer.sealed))
            && (!h.quit && h.chan.phase == Closed ==> Repeated(peer.sealed))
            && (!h.quit && peer.wire != [] && h.got == |Output(s, Peer(role))| ==>
                  && h.chan.rx.delivered == P.FramesOf(peer.sealed[..P.Reach(peer.sealed, 0)])
                  && (h.chan.phase == Open <==> P.Reach(peer.sealed, 0) == |peer.sealed|))
  {
    QuietInv(x);
    RunKeeps(x, QUIET, events);
    var s := Run(x, QUIET, events);
    Heard(x, s, role, s.Of(role));
    if !s.Of(role).quit && s.Of(Peer(role)).chan.wire != [] && s.Of(role).got == |Output(s, Peer(role))| {
      AllArrived(x, s, role);
    }
  }

  /** With the link drained. */
  lemma AllArrived(x: Setup, s: Pair, role: Role)
    requires Matched(x) && Inv(x, s) && !s.Of(role).quit && s.Of(Peer(role)).chan.wire != []
             && s.Of(role).got == |Output(s, Peer(role))|
    ensures var h, peer := s.Of(role), s.Of(Peer(role)).chan;
            && h.chan.rx.delivered == P.FramesOf(peer.sealed[..P.Reach(peer.sealed, 0)])
            && (h.chan.phase == Open <==> P.Reach(peer.sealed, 0) == |peer.sealed|)
  {
    var peer, all := s.Of(Peer(role)).chan, Output(s, Peer(role));
    assert all[..s.Of(role).got] == all;
    WroteOpens(x, Peer(role), peer);
    P.StreamArrives(x.Of(role), x.Of(Peer(role)).message, x.keys, peer.sealed);
  }
}

/** One channel end over its whole life: what it writes, and what an undisturbed peer makes of it. */
module ChannelProgress {
  import opened Bytes
  import opened Symbols
  import opened Frames
  import opened Records
  import opened Handshakes
  import opened Channels
  import Framing

  datatype Event = Begin | Say(frame: Frame) | Hear(bytes: seq<byte>) | Quit

  function Next(cfg: Config, c: Chan, event: Event): (d: Chan)
    requires Ok(c)
    requires event.Say? && SendOutcome(cfg, c, event.frame) == Accepted ==>
               |SealRec(cfg, c, event.frame).record| < 0x1_0000_0000
    ensures Ok(d)
  {
    match event
    case Begin => Start(cfg, c)
    case Say(frame) => Send(cfg, c, frame)
    case Hear(bytes) => Receive(cfg, c, bytes)
    case Quit => Shutdown(c)
  }

  lemma SealedLength(cfg: Config, c: Chan, frame: Frame)
    requires Ok(c) && Expands(cfg.aead) && SendOutcome(cfg, c, frame) == Accepted
    ensures TAG_BYTES <= |SealRec(cfg, c, frame).record| <= MAX_RECORD_BYTES
  {
    assert |cfg.aead.seal(SealRec(cfg, c, frame).key, SealRec(cfg, c, frame).nonce, FrameBytes(frame))|
           == |FrameBytes(frame)| + TAG_BYTES;
  }

  ghost function Run(cfg: Config, c: Chan, events: seq<Event>): (d: Chan)
    requires Ok(c) && Expands(cfg.aead)
    ensures Ok(d)
    decreases |events|
  {
    if events == [] then c else
      assert events[0].Say? && SendOutcome(cfg, c, events[0].frame) == Accepted ==>
               |SealRec(cfg, c, events[0].frame).record| < 0x1_0000_0000 by {
        if events[0].Say? && SendOutcome(cfg, c, events[0].frame) == Accepted { SealedLength(cfg, c, events[0].frame); }
      }
      Run(cfg, Next(cfg, c, events[0]), events[1..])
  }

  function FramedAll(sealed: seq<Rec>): seq<seq<byte>>
    requires forall k | 0 <= k < |sealed| :: |sealed[k].record| < 0x1_0000_0000
  {
    seq(|sealed|, k requires 0 <= k < |sealed| => Framing.Framed(sealed[k].record))
  }

  /**
   * An end's whole output is its one handshake message and then its records, framed, in order; each was
   * sealed under its own send key and the nonce of its position, and fits the peer's cap.
   */
  ghost predicate Orderly(cfg: Config, c: Chan) {
    && Ok(c)
    && (forall k | 0 <= k < |c.sealed| :: TAG_BYTES <= |c.sealed[k].record| <= MAX_RECORD_BYTES)
    && (c.phase == Handshaking ==> c.wire == [] || (cfg.role == Initiator && c.wire == [cfg.message]))
    && (c.wire == FramedAll(c.sealed) || c.wire == [cfg.message] + FramedAll(c.sealed))
    && (c.phase == Open && cfg.role == Responder ==> c.wire == [cfg.message] + FramedAll(c.sealed))
    && (c.phase == Open ==> forall k | 0 <= k < |c.sealed| ::
          c.sealed[k] == Rec(c.sealed[k].frame, SendKey(cfg.role, c.keys.value),
                             NonceOf(SendPrefix(cfg.role, c.keys.value), k),
                             cfg.aead.seal(SendKey(cfg.role, c.keys.value),
                                           NonceOf(SendPrefix(cfg.role, c.keys.value), k),
                                               FrameBytes(c.sealed[k].frame))))
    // an initiator that opened nothing has written at most one record
    && (cfg.role == Initiator && !Authenticated(c) ==> |c.sealed| <= 1)
  }

  lemma {:induction false} DeliveredGrows(aead: Aead, key: Key, prefix: seq<Sym>, rx: Rx, buf: seq<byte>)
    requires |prefix| == NONCE_PREFIX_BYTES
    ensures Prefix(rx.delivered, Framing.Drain(Reader(aead, key, prefix), rx, buf).state.delivered)
    decreases |buf|
  {
    var n := Framing.PREFIX_BYTES;
    if !rx.failed && |buf| >= n {
      var length := FrontU32(buf);
      if length <= MAX_RECORD_BYTES && |buf| >= n + length {
        var next := RecordStep(aead, key, prefix, rx, buf[n..n + length]);
        DeliveredGrows(aead, key, prefix, next, buf[n + length..]);
        assert Prefix(rx.delivered, next.delivered);
        PrefixTransitive(rx.delivered, next.delivered,
                         Framing.Drain(Reader(aead, key, prefix), next, buf[n + length..]).state.delivered);
      }
    }
  }

  lemma HearOrderly(cfg: Config, c: Chan, bytes: seq<byte>)
    requires Orderly(cfg, c)
    ensures Orderly(cfg, Receive(cfg, c, bytes))
  {
    var buf := c.buf + bytes;
    if c.phase == Open {
      DeliveredGrows(cfg.aead, RecvKey(cfg.role, c.keys.value), RecvPrefix(cfg.role, c.keys.value), c.rx, buf);
    }
    assert FramedAll([]) == [];
  }

  lemma SayOrderly(cfg: Config, c: Chan, frame: Frame)
    requires Orderly(cfg, c) && Expands(cfg.aead)
    requires SendOutcome(cfg, c, frame) == Accepted && |SealRec(cfg, c, frame).record| < 0x1_0000_0000
    ensures Orderly(cfg, Send(cfg, c, frame))
  {
    SealedLength(cfg, c, frame);
    var d := Send(cfg, c, frame);
    assert FramedAll(d.sealed) == FramedAll(c.sealed) + [Framing.Framed(SealRec(cfg, c, frame).record)];
  }

  /** Every run of an end is orderly; in particular no initiator writes a second record before it has opened one. */
  lemma {:induction false} RunOrderly(cfg: Config, c: Chan, events: seq<Event>)
    requires Orderly(cfg, c) && Expands(cfg.aead)
    ensures Orderly(cfg, Run(cfg, c, events))
    decreases |events|
  {
    if events != [] {
      match events[0] {
        case Say(frame) =>
          if SendOutcome(cfg, c, frame) == Accepted {
            SealedLength(cfg, c, frame);
            SayOrderly(cfg, c, frame);
          }
        case Hear(bytes) => HearOrderly(cfg, c, bytes);
        case _ =>
      }
      RunOrderly(cfg, Next(cfg, c, events[0]), events[1..]);
    }
  }

  lemma OneRecordBeforeAuthentication(cfg: Config, events: seq<Event>)
    requires Expands(cfg.aead) && cfg.role == Initiator && !Authenticated(Run(cfg, NEW, events))
    ensures |Run(cfg, NEW, events).sealed| <= 1
  {
    RunOrderly(cfg, NEW, events);
  }

  // ---- An undisturbed stream --------------------------------------------------------------------

  /** The AEAD decrypts what it sealed. */
  ghost predicate Correct(aead: Aead) {
    forall key, nonce, plain :: aead.open(key, nonce, aead.seal(key, nonce, plain)) == Some(plain)
  }

  ghost predicate OpensAll(aead: Aead, key: Key, prefix: seq<Sym>, sealed: seq<Rec>)
    requires |prefix| == NONCE_PREFIX_BYTES
  {
    forall k | 0 <= k < |sealed| ::
      && TAG_BYTES <= |sealed[k].record| <= MAX_RECORD_BYTES
      && aead.open(key, NonceOf(prefix, k), sealed[k].record) == Some(FrameBytes(sealed[k].frame))
  }

  /** Record `k` ends in the tag of the one before it. */
  predicate Repeats(sealed: seq<Rec>, k: nat)
    requires k < |sealed|
  {
    k > 0 && Tag(sealed[k - 1].record) == Tag(sealed[k].record)
  }

  /** How far a receiver gets: up to the first record whose tag repeats its predecessor's. */
  function Reach(sealed: seq<Rec>, k: nat): (n: nat)
    requires k <= |sealed|
    ensures k <= n <= |sealed|
    decreases |sealed| - k
  {
    if k == |sealed| || Repeats(sealed, k) then k else Reach(sealed, k + 1)
  }

  /** No repetition before it, and one right there unless it is the end. */
  lemma {:induction false} ReachIsFirstRepeat(sealed: seq<Rec>, k: nat)
    requires k <= |sealed|
    ensures var n := Reach(sealed, k);
            (forall i | k <= i < n :: !Repeats(sealed, i)) && (n < |sealed| ==> Repeats(sealed, n))
    decreases |sealed| - k
  {
    if k < |sealed| && !Repeats(sealed, k) {
      ReachIsFirstRepeat(sealed, k + 1);
    }
  }

  lemma RepeatOrNot(sealed: seq<Rec>)
    ensures Reach(sealed, 0) < |sealed|
            <==> exists k | 0 < k < |sealed| :: Tag(sealed[k - 1].record) == Tag(sealed[k].record)
  {
    ReachIsFirstRepeat(sealed, 0);
    if k: nat :| 0 < k < |sealed| && Tag(sealed[k - 1].record) == Tag(sealed[k].record) {
      assert Repeats(sealed, k);
    }
  }

  function FramesOf(sealed: seq<Rec>): seq<Frame> {
    seq(|sealed|, i requires 0 <= i < |sealed| => sealed[i].frame)
  }

  function After(sealed: seq<Rec>, k: nat): Rx
    requires k <= |sealed|
  {
    Rx(k, if k == 0 then None else Some(Tag(sealed[k - 1].record)), FramesOf(sealed[..k]), false)
  }

  /** What is left to parse once `k` records have opened. */
  function Rest(sealed: seq<Rec>, k: nat): seq<byte>
    requires k <= |sealed| && forall i | 0 <= i < |sealed| :: |sealed[i].record| < 0x1_0000_0000
  {
    Flatten(FramedAll(sealed[k..]))
  }

  /** How parsing stands once `k` records have opened. */
  function Parsed(aead: Aead, key: Key, prefix: seq<Sym>, sealed: seq<Rec>, k: nat): Framing.Parse<Rx>
    requires |prefix| == NONCE_PREFIX_BYTES && k <= |sealed| && forall i | 0 <= i < |sealed| ::
               |sealed[i].record| < 0x1_0000_0000
  {
    Framing.Drain(Reader(aead, key, prefix), After(sealed, k), Rest(sealed, k))
  }

  /** The frames of the first `n` records, and a failure unless those are all. */
  predicate Ends(sealed: seq<Rec>, n: nat, p: Framing.Parse<Rx>)
    requires n <= |sealed|
  {
    p.state.delivered == FramesOf(sealed[..n]) && p.state.failed == (n < |sealed|) && (n == |sealed| ==> p.buf == [])
  }

  /** Parse state `j` leads to the next one, or is the failure that ends the stream. */
  predicate Leads(sealed: seq<Rec>, ps: seq<Framing.Parse<Rx>>, j: nat)
    requires j < |sealed| && |ps| == |sealed| + 1
  {
    if Repeats(sealed, j) then ps[j].state == After(sealed, j).(failed := true) else ps[j] == ps[j + 1]
  }

  lemma {:induction false} ChainEnds(sealed: seq<Rec>, ps: seq<Framing.Parse<Rx>>, k: nat)
    requires k <= |sealed| && |ps| == |sealed| + 1 && forall j | 0 <= j < |sealed| :: Leads(sealed, ps, j)
    requires ps[|sealed|] == Framing.Parse(After(sealed, |sealed|), [])
    ensures Ends(sealed, Reach(sealed, k), ps[k])
    decreases |sealed| - k
  {
    if k == |sealed| {
      assert sealed[..k] == sealed;
    } else {
      assert Leads(sealed, ps, k);
      if !Repeats(sealed, k) {
        ChainEnds(sealed, ps, k + 1);
      }
    }
  }

  lemma DrainStream(aead: Aead, key: Key, prefix: seq<Sym>, sealed: seq<Rec>)
    requires |prefix| == NONCE_PREFIX_BYTES && OpensAll(aead, key, prefix, sealed)
    ensures Ends(sealed, Reach(sealed, 0), Parsed(aead, key, prefix, sealed, 0))
  {
    var ps := seq(|sealed| + 1, k requires 0 <= k <= |sealed| => Parsed(aead, key, prefix, sealed, k));
    DrainNothing(aead, key, prefix, sealed);
    forall j | 0 <= j < |sealed| ensures Leads(sealed, ps, j) {
      DrainNext(aead, key, prefix, sealed, j);
    }
    ChainEnds(sealed, ps, 0);
  }

  lemma DrainNothing(aead: Aead, key: Key, prefix: seq<Sym>, sealed: seq<Rec>)
    requires |prefix| == NONCE_PREFIX_BYTES && forall i | 0 <= i < |sealed| :: |sealed[i].record| < 0x1_0000_0000
    ensures Parsed(aead, key, prefix, sealed, |sealed|) == Framing.Parse(After(sealed, |sealed|), [])
  {
    assert FramedAll(sealed[|sealed|..]) == [];
  }

  /** One more record off the stream, or the failure that ends it. */
  lemma DrainNext(aead: Aead, key: Key, prefix: seq<Sym>, sealed: seq<Rec>, k: nat)
    requires |prefix| == NONCE_PREFIX_BYTES && OpensAll(aead, key, prefix, sealed) && k < |sealed|
    ensures Parsed(aead, key, prefix, sealed, k)
            == if Repeats(sealed, k) then Framing.Parse(After(sealed, k).(failed := true), Rest(sealed, k + 1))
               else Parsed(aead, key, prefix, sealed, k + 1)
  {
    StreamHead(sealed, k);
    Framing.DrainFramed(Reader(aead, key, prefix), After(sealed, k), sealed[k].record, Rest(sealed, k + 1));
    OneRecord(aead, key, prefix, sealed, k);
  }

  lemma StreamHead(sealed: seq<Rec>, k: nat)
    requires k < |sealed| && forall i | 0 <= i < |sealed| :: |sealed[i].record| < 0x1_0000_0000
    ensures Rest(sealed, k) == Framing.Framed(sealed[k].record) + Rest(sealed, k + 1)
  {
    assert FramedAll(sealed[k..])[1..] == FramedAll(sealed[k + 1..]);
  }

  /** The next record in turn opens, unless its tag repeats the last one's: then it is taken for a replay. */
  lemma OneRecord(aead: Aead, key: Key, prefix: seq<Sym>, sealed: seq<Rec>, k: nat)
    requires |prefix| == NONCE_PREFIX_BYTES && OpensAll(aead, key, prefix, sealed) && k < |sealed|
    ensures RecordStep(aead, key, prefix, After(sealed, k), sealed[k].record)
            == if Repeats(sealed, k) then After(sealed, k).(failed := true) else After(sealed, k + 1)
  {
    FrameRoundTrip(sealed[k].frame, FrameBytes(sealed[k].frame));
    assert FramesOf(sealed[..k + 1]) == FramesOf(sealed[..k]) + [sealed[k].frame];
  }

  /** The peer's receive half uses the key and nonces of this end's send half. */
  lemma OpensPeers(cfg: Config, c: Chan, role: Role)
    requires Orderly(cfg, c) && c.phase == Open && Correct(cfg.aead) && role != cfg.role
    ensures OpensAll(cfg.aead, RecvKey(role, c.keys.value), RecvPrefix(role, c.keys.value), c.sealed)
  {
    assert RecvKey(role, c.keys.value) == SendKey(cfg.role, c.keys.value);
    assert RecvPrefix(role, c.keys.value) == SendPrefix(cfg.role, c.keys.value);
  }

  /** A new end fed a handshake message and the records that open for it: the frames up to the first repeated tag. */
  lemma {:induction false} StreamArrives(peer: Config, message: seq<byte>, keys: SessionKeys, sealed: seq<Rec>)
    requires |message| == HANDSHAKE_MSG_BYTES && peer.consume(message) == Some(keys)
    requires OpensAll(peer.aead, RecvKey(peer.role, keys), RecvPrefix(peer.role, keys), sealed)
    ensures var d, n := Receive(peer, NEW, message + Flatten(FramedAll(sealed))), Reach(sealed, 0);
            && d.rx.delivered == FramesOf(sealed[..n])
            && (d.phase == Open <==> n == |sealed|) && (n == |sealed| ==> d.buf == [])
            && (d.phase == Closed
                <==> exists k | 0 < k < |sealed| :: Tag(sealed[k - 1].record) == Tag(sealed[k].record))
  {
    var body := Flatten(FramedAll(sealed));
    var buf := NEW.buf + (message + body);
    assert buf[..HANDSHAKE_MSG_BYTES] == message && buf[HANDSHAKE_MSG_BYTES..] == body;
    RepeatOrNot(sealed);
    assert sealed[0..] == sealed && sealed[..0] == [] && FramesOf(sealed[..0]) == [];
    DrainStream(peer.aead, RecvKey(peer.role, keys), RecvPrefix(peer.role, keys), sealed);
  }

  /**
   * Hand a peer everything an open end wrote, cut anywhere: it delivers every frame and stays open
   * exactly when no two consecutive records end in the same tag; otherwise it delivers the frames
   * before the first repetition and closes.
   */
  lemma EverythingArrives(cfg: Config, c: Chan, peer: Config, keys: SessionKeys, chunks: seq<seq<byte>>)
    requires Orderly(cfg, c) && c.phase == Open && c.wire == [cfg.message] + FramedAll(c.sealed)
    requires Correct(cfg.aead) && peer.aead == cfg.aead
    requires |cfg.message| == HANDSHAKE_MSG_BYTES && peer.role != cfg.role
    requires peer.consume(cfg.message) == Some(keys) && keys == c.keys.value
    requires Flatten(chunks) == Flatten(c.wire) && chunks != []
    ensures var d := ReceiveAll(peer, NEW, chunks);
            var n := Reach(c.sealed, 0);
            && d.rx.delivered == FramesOf(c.sealed[..n])
            && (d.phase == Open <==> n == |c.sealed|) && (n == |c.sealed| ==> d.buf == [])
            && (d.phase == Closed
                <==> exists k | 0 < k < |c.sealed| :: Tag(c.sealed[k - 1].record) == Tag(c.sealed[k].record))
  {
    var body := Flatten(FramedAll(c.sealed));
    assert c.wire[1..] == FramedAll(c.sealed);
    assert Flatten(c.wire) == cfg.message + body;
    ReceiveAllIsReceive(peer, NEW, chunks);
    OpensPeers(cfg, c, peer.role);
    StreamArrives(peer, cfg.message, keys, c.sealed);
  }
}

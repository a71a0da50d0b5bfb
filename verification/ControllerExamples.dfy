/**
 * A run of a controller, event by event, in which a host acks two subscriptions under one stream id,
 * the controller is closed, and the first stream, handed out, is forgotten.
 */
module ControllerExamples {
  import opened Bytes
  import opened Symbols
  import opened Frames
  import opened Records
  import opened Handshakes
  import opened Channels
  import opened Controllers
  import opened ControllerStreams
  import Framing
  import PtyEvents
  import E = ChannelExamples

  // ---- The host's frames ------------------------------------------------------------------------

  /** An open channel between two chunks, whose peer uses the example cipher. */
  ghost predicate Level(cfg: Config, c: Chan) {
    && Ok(c) && c.phase == Open && c.buf == [] && c.rx.counter <= 3 && cfg.aead == E.ByNonce()
    && (if c.rx.counter == 0 then c.rx.lastTag.None? else c.rx.lastTag == Some(TagOfRecord(cfg, c, c.rx.counter - 1)))
  }

  function TagOfRecord(cfg: Config, c: Chan, i: nat): seq<byte>
    requires c.keys.Some?
  {
    E.NonceTag(NonceOf(RecvPrefix(cfg.role, c.keys.value), i))
  }

  /** The peer's next record. */
  function RecordOf(cfg: Config, c: Chan, frame: Frame): seq<byte>
    requires c.keys.Some?
  {
    E.ByNonce().seal(RecvKey(cfg.role, c.keys.value), NonceOf(RecvPrefix(cfg.role, c.keys.value), c.rx.counter),
                     FrameBytes(frame))
  }

  function After(cfg: Config, c: Chan, frame: Frame): Chan
    requires c.keys.Some?
  {
    c.(rx := Rx(c.rx.counter + 1, Some(TagOfRecord(cfg, c, c.rx.counter)), c.rx.delivered + [frame], false))
  }

  lemma RecordOpens(cfg: Config, c: Chan, frame: Frame)
    requires Level(cfg, c)
    ensures var key, prefix := RecvKey(cfg.role, c.keys.value), RecvPrefix(cfg.role, c.keys.value);
            RecordStep(cfg.aead, key, prefix, c.rx, RecordOf(cfg, c, frame)) == After(cfg, c, frame).rx
  {
    var key, prefix, i := RecvKey(cfg.role, c.keys.value), RecvPrefix(cfg.role, c.keys.value), c.rx.counter;
    E.ByNonceSeals(key, NonceOf(prefix, i), FrameBytes(frame));
    FrameRoundTrip(frame, FrameBytes(frame));
    if i > 0 && TagOfRecord(cfg, c, i - 1) == TagOfRecord(cfg, c, i) {
      E.TagsDiffer(prefix, i - 1, i);
    }
  }

  lemma Delivers(cfg: Config, c: Chan, frame: Frame)
    requires Level(cfg, c) && |frame.payload| <= 1
    ensures |RecordOf(cfg, c, frame)| < 0x1_0000_0000
    ensures Receive(cfg, c, Framing.Framed(RecordOf(cfg, c, frame))) == After(cfg, c, frame)
  {
    var key, prefix := RecvKey(cfg.role, c.keys.value), RecvPrefix(cfg.role, c.keys.value);
    var m, record := Reader(cfg.aead, key, prefix), RecordOf(cfg, c, frame);
    E.ByNonceSeals(key, NonceOf(prefix, c.rx.counter), FrameBytes(frame));
    RecordOpens(cfg, c, frame);
    Framing.DrainFramed(m, c.rx, record, []);
    assert Framing.Framed(record) + [] == Framing.Framed(record)
           && c.buf + Framing.Framed(record) == Framing.Framed(record);
  }

  /** A chunk that is the peer's next record. */
  function Hearing(cfg: Config, c: Chan, frame: Frame): Event
    requires c.keys.Some?
  {
    var record := RecordOf(cfg, c, frame);
    Hears(if |record| < 0x1_0000_0000 then Framing.Framed(record) else [])
  }

  lemma HearsOne(w: Wire, cfg: Config, s: Ctl, frame: Frame)
    requires Level(cfg, s.chan) && Sealable(cfg) && |frame.payload| <= 1
    ensures Next(w, cfg, s, Hearing(cfg, s.chan, frame)) == OnFrame(w, s.(chan := After(cfg, s.chan, frame)), frame)
  {
    Delivers(cfg, s.chan, frame);
    var m := s.(chan := After(cfg, s.chan, frame));
    assert m.chan.rx.delivered[|s.chan.rx.delivered|..] == [frame];
    assert [frame][1..] == [] && OnFrames(w, OnFrame(w, m, frame), []) == OnFrame(w, m, frame);
  }

  // ---- The run ----------------------------------------------------------------------------------

  /** Every ack is compatible; a response is its request's id, and grants stream 7. */
  function Host(): Wire {
    Wire((payload: seq<byte>) => Some(Ack(true, {})),
         (payload: seq<byte>) => if payload == [] then None else Some(Response(payload[0] as nat, Success(7))),
         (verb: Verb) => None)
  }

  const HELLO := Frame(Control, [])
  const FIRST := Frame(Control, [0])
  const SECOND := Frame(Control, [1])

  ghost predicate Able(cfg: Config, message: seq<byte>) {
    cfg.role == Initiator && cfg.aead == E.ByNonce() && |message| == HANDSHAKE_MSG_BYTES && cfg.consume(message).Some?
  }

  /** A controller to which `more` has happened; `reached` by a run from a new one. */
  ghost predicate Reached(cfg: Config, s: Ctl, events: seq<Event>) {
    Sealable(cfg) && Inv(NewController()) && Run(Host(), cfg, NewController(), events) == s && Inv(s)
  }

  lemma Onward(cfg: Config, s: Ctl, events: seq<Event>, e: Event)
    requires Reached(cfg, s, events)
    ensures Reached(cfg, Next(Host(), cfg, s, e), events + [e])
  {
    NextKeeps(Host(), cfg, s, e);
    RunConcat(Host(), cfg, NewController(), events, [e]);
    Run1(Host(), cfg, s, e);
  }

  /** The channel opens, and the hello goes out. */
  lemma Greeted(cfg: Config, message: seq<byte>) returns (s: Ctl, events: seq<Event>)
    requires Able(cfg, message)
    ensures Reached(cfg, s, events) && Level(cfg, s.chan) && s.chan.rx == FRESH && |s.chan.sealed| == 1
    ensures s == NewController().(chan := s.chan, stage := AwaitAck, awaitingAck := true, timer := true,
                                  said := [Hello])
  {
    E.ByNonceSound();
    var s0, s1 := NewController(), NewController().(chan := NEW.(phase := Open, keys := cfg.consume(message)));
    Opens(cfg, message);
    events := [Hears(message)];
    Run1(Host(), cfg, s0, events[0]);
    SayFits(cfg, s1, HELLO);
    Onward(cfg, s1, events, Greets(HELLO));
    s := Next(Host(), cfg, s1, Greets(HELLO));
    events := events + [Greets(HELLO)];
  }

  lemma Opens(cfg: Config, message: seq<byte>)
    requires Able(cfg, message) && Sealable(cfg)
    ensures Next(Host(), cfg, NewController(), Hears(message))
            == NewController().(chan := NEW.(phase := Open, keys := cfg.consume(message)))
  {
    assert NEW.buf + message == message && message[..HANDSHAKE_MSG_BYTES] == message
           && message[HANDSHAKE_MSG_BYTES..] == [];
    var d := Receive(cfg, NEW, message);
    assert d.rx.delivered[0..] == [];
  }

  lemma AckIs(s: Ctl)
    requires s.awaitingAck
    ensures OnFrame(Host(), s, HELLO) == s.(awaitingAck := false, timer := false, stage := HasAck(Ack(true, {})))
  {
  }

  /** The host acks the hello. */
  lemma Agreeing(cfg: Config, message: seq<byte>) returns (s: Ctl, events: seq<Event>)
    requires Able(cfg, message)
    ensures Reached(cfg, s, events) && Level(cfg, s.chan) && s.chan.rx.counter == 1 && Authenticated(s.chan)
            && |s.chan.sealed| == 1
    ensures s == NewController().(chan := s.chan, stage := Agreed({}), said := [Hello])
  {
    var s1, before := Greeted(cfg, message);
    var e := Hearing(cfg, s1.chan, HELLO);
    AckHeard(cfg, s1);
    Onward(cfg, s1, before, e);
    var s2 := Next(Host(), cfg, s1, e);
    Onward(cfg, s2, before + [e], Agrees);
    s, events := Next(Host(), cfg, s2, Agrees), before + [e] + [Agrees];
  }

  lemma AckHeard(cfg: Config, s: Ctl)
    requires Level(cfg, s.chan) && Sealable(cfg) && s.chan.rx.counter == 0 && Inv(s) && s.awaitingAck
    ensures var t := Next(Host(), cfg, s, Hearing(cfg, s.chan, HELLO));
            && Level(cfg, t.chan) && t.chan == After(cfg, s.chan, HELLO)
            && t == s.(chan := t.chan, awaitingAck := false, timer := false, stage := HasAck(Ack(true, {})))
  {
    HearsOne(Host(), cfg, s, HELLO);
    AckIs(s.(chan := After(cfg, s.chan, HELLO)));
    NextKeeps(Host(), cfg, s, Hearing(cfg, s.chan, HELLO));
  }

  /** A gated call goes out. */
  lemma ResumeIs(cfg: Config, s: Ctl, k: CallId)
    requires Ok(s.chan) && Sealable(cfg) && s.chan.phase == Open && Authenticated(s.chan) && |s.chan.sealed| < 3
    requires k < |s.calls| && s.calls[k].progress.Gated? && s.stage == Agreed({}) && !s.closed
    ensures var t := Resume(Host(), cfg, s, k, HELLO);
            && Ok(t.chan) && t.chan.phase == Open && t.chan.keys == s.chan.keys && t.chan.rx == s.chan.rx
               && t.chan.buf == s.chan.buf
            && |t.chan.sealed| == |s.chan.sealed| + 1
            && t == s.(chan := t.chan, said := t.said, nextId := s.nextId + 1, pending := s.pending[s.nextId := k],
                       calls := s.calls[k := s.calls[k].(progress := InFlight(s.nextId))])
  {
    SayFits(cfg, s, HELLO);
  }

  /** A subscription goes out: what is then as it was, and what is new. */
  predicate Out(s: Ctl, t: Ctl, ref: SessionRef) {
    && t.chan.rx == s.chan.rx && |t.chan.sealed| == |s.chan.sealed| + 1 && t.chan.phase == Open
       && t.chan.keys == s.chan.keys && t.chan.buf == s.chan.buf
    && t == s.(chan := t.chan, said := t.said, streams := s.streams + [PtyEvents.NewStream()], nextId := s.nextId + 1,
               calls := s.calls + [Call(Subscribe(ref), Some(|s.streams|), InFlight(s.nextId))],
               pending := s.pending[s.nextId := |s.calls|])
  }

  lemma SubscribeIs(cfg: Config, s: Ctl, ref: SessionRef)
    requires Ok(s.chan) && Sealable(cfg) && s.chan.phase == Open && Authenticated(s.chan) && |s.chan.sealed| < 3
    requires s.stage == Agreed({}) && !s.closed
    ensures Out(s, Resume(Host(), cfg, Begin(s, Subscribe(ref)), |s.calls|, HELLO), ref)
  {
    var s1 := Begin(s, Subscribe(ref));
    assert s1.calls == s.calls + [Call(Subscribe(ref), Some(|s.streams|), Gated)];
    ResumeIs(cfg, s1, |s.calls|);
  }

  lemma StaysLevel(cfg: Config, s: Ctl, t: Ctl, ref: SessionRef)
    requires Level(cfg, s.chan) && Out(s, t, ref) && Ok(t.chan)
    ensures Level(cfg, t.chan)
  {
  }

  lemma Subscribing(cfg: Config, s: Ctl, before: seq<Event>, ref: SessionRef) returns (t: Ctl, events: seq<Event>)
    requires Reached(cfg, s, before) && Level(cfg, s.chan) && Authenticated(s.chan) && s.stage == Agreed({})
             && |s.chan.sealed| < 3
    ensures Reached(cfg, t, events) && Level(cfg, t.chan) && Out(s, t, ref)
  {
    var k, b := |s.calls|, Begins(Subscribe(ref));
    Onward(cfg, s, before, b);
    var s1 := Next(Host(), cfg, s, b);
    Onward(cfg, s1, before + [b], Resumes(k, HELLO));
    t, events := Next(Host(), cfg, s1, Resumes(k, HELLO)), before + [b] + [Resumes(k, HELLO)];
    SubscribeIs(cfg, s, ref);
    StaysLevel(cfg, s, t, ref);
  }

  /** Two subscriptions go out. */
  lemma Subscribed(cfg: Config, message: seq<byte>) returns (s: Ctl, events: seq<Event>)
    requires Able(cfg, message)
    ensures Reached(cfg, s, events) && Level(cfg, s.chan) && s.chan.rx.counter == 1 && !s.closed && !s.awaitingAck
    ensures s.calls == [Call(Subscribe(1), Some(0), InFlight(0)), Call(Subscribe(2), Some(1), InFlight(1))]
    ensures s.pending == map[0 := 0, 1 := 1] && s.streamsById == map[]
            && s.streams == [PtyEvents.NewStream(), PtyEvents.NewStream()]
  {
    var s1, e1 := Agreeing(cfg, message);
    var s2, e2 := Subscribing(cfg, s1, e1, 1);
    s, events := Subscribing(cfg, s2, e2, 2);
  }

  predicate Acked(s: Ctl) {
    && !s.closed && !s.awaitingAck && s.pending == map[1 := 1] && s.streamsById == map[7 := 0]
    && s.calls == [Call(Subscribe(1), Some(0), Resolved(7)), Call(Subscribe(2), Some(1), InFlight(1))]
    && s.streams == [PtyEvents.NewStream(), PtyEvents.NewStream()]
  }

  lemma FirstAck(s: Ctl)
    requires !s.closed && !s.awaitingAck && s.pending == map[0 := 0, 1 := 1] && s.streamsById == map[]
    requires s.calls == [Call(Subscribe(1), Some(0), InFlight(0)), Call(Subscribe(2), Some(1), InFlight(1))]
    requires s.streams == [PtyEvents.NewStream(), PtyEvents.NewStream()]
    ensures Acked(OnFrame(Host(), s, FIRST))
  {
    assert Host().response([0]) == Some(Response(0, Success(7)));
    assert map[0 := 0, 1 := 1] - {0} == map[1 := 1];
  }

  /** The host acks the first. */
  lemma OneAcked(cfg: Config, message: seq<byte>) returns (s: Ctl, events: seq<Event>)
    requires Able(cfg, message)
    ensures Reached(cfg, s, events) && Level(cfg, s.chan) && Acked(s)
  {
    var s1, before := Subscribed(cfg, message);
    var e := Hearing(cfg, s1.chan, FIRST);
    Onward(cfg, s1, before, e);
    s, events := Next(Host(), cfg, s1, e), before + [e];
    FirstHeard(cfg, s1);
  }

  lemma FirstHeard(cfg: Config, s: Ctl)
    requires Level(cfg, s.chan) && Sealable(cfg) && s.chan.rx.counter == 1 && Inv(s)
    requires !s.closed && !s.awaitingAck && s.pending == map[0 := 0, 1 := 1] && s.streamsById == map[]
    requires s.calls == [Call(Subscribe(1), Some(0), InFlight(0)), Call(Subscribe(2), Some(1), InFlight(1))]
    requires s.streams == [PtyEvents.NewStream(), PtyEvents.NewStream()]
    ensures var t := Next(Host(), cfg, s, Hearing(cfg, s.chan, FIRST)); Acked(t) && Level(cfg, t.chan)
  {
    var m := s.(chan := After(cfg, s.chan, FIRST));
    HearsOne(Host(), cfg, s, FIRST);
    FirstAck(m);
    NextKeeps(Host(), cfg, s, Hearing(cfg, s.chan, FIRST));
    assert OnFrame(Host(), m, FIRST).chan == m.chan;
  }

  /** The host acks the second under the first's id; then the controller is closed. */
  lemma SecondAck(s: Ctl, c: Chan)
    requires Acked(s) && Core(s) && Traced(s)
    ensures var u := OnClose(OnFrame(Host(), s, SECOND).(chan := c));
            u.closed && HandedOut(u, 0) && Forgotten(u, 0)
  {
    assert Host().response([1]) == Some(Response(1, Success(7)));
    ReuseForgets(Host(), s, SECOND, 7);
    var t := OnFrame(Host(), s, SECOND);
    var u := OnClose(t.(chan := c));
    assert u == OnClose(t).(chan := c);
    assert Subscribes(u.calls[0], 0) && u.calls[0].progress == Resolved(7);
  }

  lemma BothAcked(cfg: Config, message: seq<byte>) returns (m: Ctl, t: Ctl, events: seq<Event>)
    requires Able(cfg, message)
    ensures Acked(m) && Core(m) && Traced(m) && t == OnFrame(Host(), m, SECOND) && Reached(cfg, t, events)
            && t.chan.phase == Open
  {
    var s, before := OneAcked(cfg, message);
    var e := Hearing(cfg, s.chan, SECOND);
    m := s.(chan := After(cfg, s.chan, SECOND));
    HearsOne(Host(), cfg, s, SECOND);
    Onward(cfg, s, before, e);
    t, events := Next(Host(), cfg, s, e), before + [e];
    RunTraced(Host(), cfg, NewController(), before);
    OnFrameKeeps(Host(), m, SECOND);
  }

  /**
   * The promise fails: from a new controller, a host that acks a second subscription under the id of the first;
   * the first's stream, handed out, never ends.
   */
  lemma SomeStreamIsForgotten(cfg: Config, message: seq<byte>)
    requires Able(cfg, message)
    ensures Sealable(cfg) && Inv(NewController())
    ensures exists events :: var s := Run(Host(), cfg, NewController(), events);
                s.closed && HandedOut(s, 0) && Forgotten(s, 0)
  {
    var m, t, before := BothAcked(cfg, message);
    Onward(cfg, t, before, Closes);
    SecondAck(m, Shutdown(t.chan));
    assert Run(Host(), cfg, NewController(), before + [Closes]) == Next(Host(), cfg, t, Closes);
  }
}

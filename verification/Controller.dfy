/** The controller (packages/sdk/src/controller.ts) over a channel of its own, as a state machine over values. */
module Controllers {
  // One step per inbound chunk, resumed continuation, timer or call.

  import opened Bytes
  import opened Frames
  import opened Channels
  import opened PtyFrames
  import PtyEvents
  import ChannelProgress

  type SessionRef = nat
  type RequestId = nat
  type CallId = nat
  type StreamId = nat

  datatype Verb = Subscribe(ref: SessionRef) | Unsubscribe(ref: SessionRef) | Plain(name: nat)

  /** What a response carries once validated: a stream id, where the method has one. */
  datatype Reply = Success(streamId: StreamId) | Invalid | Failure

  datatype Response = Response(id: RequestId, reply: Reply)

  /** The host's hello-ack, as far as negotiation looks at it. */
  datatype Ack = Ack(compatible: bool, capabilities: set<nat>)

  /** The JSON codecs and capability table; abstract. */
  datatype Wire = Wire(ack: seq<byte> -> Option<Ack>, response: seq<byte> -> Option<Response>,
                       needs: Verb -> Option<nat>)

  /** The capability handshake: each constructor what it waits for next. */
  datatype Stage = AwaitReady | AwaitAck | HasAck(ack: Ack) | Agreed(capabilities: set<nat>) | Broken

  datatype Progress = Gated | InFlight(id: RequestId) | Resolved(streamId: StreamId) | Rejected

  /** A call and, for one about a subscription, the stream it is about. */
  datatype Call = Call(verb: Verb, feed: Option<nat>, progress: Progress)

  datatype Said = Hello | Request(id: RequestId, call: CallId)

  /** `streams` are all the streams ever made; `said` logs what was sent. */
  datatype Ctl = Ctl(chan: Chan, stage: Stage, awaitingAck: bool, timer: bool, closed: bool,
                     calls: seq<Call>, pending: map<RequestId, CallId>, nextId: RequestId,
                     streams: seq<PtyEvents.Stream>, streamsById: map<StreamId, nat>, subsByRef: map<SessionRef,
                         (StreamId, nat)>,
                     said: seq<Said>)

  function NewController(): Ctl {
    Ctl(NEW, AwaitReady, false, false, false, [], map[], 0, [], map[], map[], [])
  }

  function SetProgress(s: Ctl, k: CallId, progress: Progress): Ctl {
    if k < |s.calls| then s.(calls := s.calls[k := s.calls[k].(progress := progress)]) else s
  }

  function SetStream(s: Ctl, o: nat, stream: PtyEvents.Stream): Ctl {
    if o < |s.streams| then s.(streams := s.streams[o := stream]) else s
  }

  // ---- Closing ----------------------------------------------------------------------------------

  /** Reject every call that is in flight. */
  function RejectAll(calls: seq<Call>): seq<Call> {
    seq(|calls|, k requires 0 <= k < |calls| => if calls[k].progress.InFlight?
        then calls[k].(progress := Rejected) else calls[k])
  }

  /** End every registered stream. */
  function EndAll(streams: seq<PtyEvents.Stream>, feeds: set<nat>): seq<PtyEvents.Stream> {
    seq(|streams|, o requires 0 <= o < |streams| => if o in feeds then PtyEvents.End(streams[o]) else streams[o])
  }

  function OnClose(s: Ctl): Ctl {
    if s.closed then s
    else s.(closed := true, timer := false, awaitingAck := false, stage := if s.awaitingAck then Broken else s.stage,
            calls := RejectAll(s.calls), pending := map[],
            streams := EndAll(s.streams, s.streamsById.Values), streamsById := map[], subsByRef := map[])
  }

  /** The owner, or the handshake timeout, closes the channel. */
  function CloseChannel(s: Ctl): Ctl {
    if s.chan.phase == Closed then s else OnClose(s.(chan := Shutdown(s.chan)))
  }

  // ---- Inbound frames ---------------------------------------------------------------------------

  function HandleAck(w: Wire, s: Ctl, payload: seq<byte>): Ctl {
    var t := s.(awaitingAck := false, timer := false);
    match w.ack(payload)
    case None => t.(stage := Broken)
    case Some(ack) => t.(stage := HasAck(ack))
  }

  /** A subscription is registered before its call resolves. */
  function Succeed(s: Ctl, k: CallId, streamId: StreamId): Ctl
    requires k < |s.calls|
  {
    var call := s.calls[k];
    var t := if call.verb.Subscribe? && call.feed.Some?
             then s.(streamsById := s.streamsById[streamId := call.feed.value],
                     subsByRef := s.subsByRef[call.verb.ref := (streamId, call.feed.value)])
             else s;
    SetProgress(t, k, Resolved(streamId))
  }

  function OnControl(w: Wire, s: Ctl, payload: seq<byte>): Ctl {
    if s.awaitingAck then HandleAck(w, s, payload)
    else
      match w.response(payload)
      case None => s
      case Some(Response(id, reply)) =>
        if id !in s.pending then s
        else
          var k, t := s.pending[id], s.(pending := s.pending - {id});
          if reply.Success? && k < |s.calls| then Succeed(t, k, reply.streamId) else SetProgress(t, k, Rejected)
  }

  function OnBinary(s: Ctl, payload: seq<byte>): Ctl {
    match DecodePtyFrame(payload)
    case None => s
    case Some(f) =>
      if f.streamId in s.streamsById && s.streamsById[f.streamId] < |s.streams|
      then var o := s.streamsById[f.streamId]; SetStream(s, o, PtyEvents.Ingest(s.streams[o], f)) else s
  }

  function OnFrame(w: Wire, s: Ctl, frame: Frame): Ctl {
    if frame.lane == Control then OnControl(w, s, frame.payload) else OnBinary(s, frame.payload)
  }

  function OnFrames(w: Wire, s: Ctl, frames: seq<Frame>): Ctl
    decreases |frames|
  {
    if frames == [] then s else OnFrames(w, OnFrame(w, s, frames[0]), frames[1..])
  }

  /** Bytes reach the channel: it delivers the frames it opens, and may close on what follows. */
  function Hear(w: Wire, cfg: Config, s: Ctl, bytes: seq<byte>): Ctl
    requires Ok(s.chan)
  {
    var d := Receive(cfg, s.chan, bytes);
    var n := |s.chan.rx.delivered|;
    var t := OnFrames(w, s.(chan := d), if n <= |d.rx.delivered| then d.rx.delivered[n..] else []);
    if d.phase == Closed && s.chan.phase != Closed then OnClose(t) else t
  }

  // ---- Outbound ---------------------------------------------------------------------------------

  /** A send the channel accepts. */
  function Say(cfg: Config, s: Ctl, frame: Frame, said: Said): Ctl
    requires Ok(s.chan) && SendOutcome(cfg, s.chan, frame) == Accepted
             && |SealRec(cfg, s.chan, frame).record| < 0x1_0000_0000
  {
    s.(chan := Send(cfg, s.chan, frame), said := s.said + [said])
  }

  ghost predicate Sealable(cfg: Config) {
    Expands(cfg.aead)
  }

  lemma SayFits(cfg: Config, s: Ctl, frame: Frame)
    requires Ok(s.chan) && Sealable(cfg) && SendOutcome(cfg, s.chan, frame) == Accepted
    ensures |SealRec(cfg, s.chan, frame).record| < 0x1_0000_0000
  {
    ChannelProgress.SealedLength(cfg, s.chan, frame);
  }

  /** `#negotiate` once the channel is ready and the hello signed. */
  ghost function SayHello(cfg: Config, s: Ctl, frame: Frame): Ctl
    requires Ok(s.chan) && Sealable(cfg)
  {
    if s.stage != AwaitReady || s.chan.phase == Handshaking then s
    else if SendOutcome(cfg, s.chan, frame) == Accepted then
      SayFits(cfg, s, frame);
      Say(cfg, s, frame, Hello).(stage := AwaitAck, awaitingAck := true, timer := true)
    else s.(stage := Broken)
  }

  /** The channel closed before it was ready, or the signer failed. */
  function FailHello(s: Ctl): Ctl {
    if s.stage == AwaitReady then s.(stage := Broken) else s
  }

  /** `#negotiate` after the ack. */
  function Agree(s: Ctl): Ctl {
    match s.stage
    case HasAck(ack) => s.(stage := if ack.compatible then Agreed(ack.capabilities) else Broken)
    case _ => s
  }

  function TimeOut(s: Ctl): Ctl {
    if !s.timer then s
    else CloseChannel(s.(timer := false, awaitingAck := false, stage := if s.stage == AwaitAck
                         then Broken else s.stage))
  }

  /** A new call: refused when closed, and otherwise gated on the handshake. */
  function Begin(s: Ctl, verb: Verb): Ctl {
    var progress := if s.closed then Rejected else Gated;
    match verb
    case Subscribe(ref) =>
      s.(streams := s.streams + [PtyEvents.NewStream()], calls := s.calls + [Call(verb, Some(|s.streams|), progress)])
    case Unsubscribe(ref) =>
      if ref !in s.subsByRef then s
      else s.(subsByRef := s.subsByRef - {ref}, streamsById := s.streamsById - {s.subsByRef[ref].0},
              calls := s.calls + [Call(verb, Some(s.subsByRef[ref].1), progress)])
    case Plain(_) => s.(calls := s.calls + [Call(verb, None, progress)])
  }

  predicate Forbidden(w: Wire, s: Ctl, verb: Verb) {
    s.stage.Agreed? && w.needs(verb).Some? && w.needs(verb).value !in s.stage.capabilities
  }

  /** A gated call after the handshake: it goes out as a request with a fresh id, or is rejected. */
  ghost function Resume(w: Wire, cfg: Config, s: Ctl, k: CallId, frame: Frame): Ctl
    requires Ok(s.chan) && Sealable(cfg)
  {
    if k >= |s.calls| || !s.calls[k].progress.Gated? || !(s.stage.Agreed? || s.stage.Broken?) then s
    else if s.stage.Broken? || Forbidden(w, s, s.calls[k].verb) || s.closed then SetProgress(s, k, Rejected)
    else if SendOutcome(cfg, s.chan, frame) == Accepted then
      SayFits(cfg, s, frame);
      SetProgress(Say(cfg, s.(pending := s.pending[s.nextId := k], nextId := s.nextId + 1), frame,
                      Request(s.nextId, k)), k, InFlight(s.nextId))
    else SetProgress(s.(nextId := s.nextId + 1), k, Rejected)
  }

  /** An unsubscribe ends its stream once it has settled, whichever way. */
  function Wind(s: Ctl, k: CallId): Ctl {
    if k < |s.calls| && s.calls[k].verb.Unsubscribe? && s.calls[k].feed.Some?
       && (s.calls[k].progress.Resolved? || s.calls[k].progress.Rejected?) && s.calls[k].feed.value < |s.streams|
    then SetStream(s, s.calls[k].feed.value, PtyEvents.End(s.streams[s.calls[k].feed.value])) else s
  }

  // ---- Runs -------------------------------------------------------------------------------------

  datatype Event =
    | Opens                                // the channel's own first message
    | Hears(bytes: seq<byte>)
    | Closes
    | Greets(hello: Frame)
    | GreetFails
    | Agrees
    | TimesOut
    | Begins(verb: Verb)
    | Resumes(k: CallId, request: Frame)
    | Winds(k: CallId)

  ghost function Next(w: Wire, cfg: Config, s: Ctl, e: Event): Ctl
    requires Ok(s.chan) && Sealable(cfg)
  {
    match e
    case Opens => s.(chan := Start(cfg, s.chan))
    case Hears(bytes) => Hear(w, cfg, s, bytes)
    case Closes => CloseChannel(s)
    case Greets(hello) => SayHello(cfg, s, hello)
    case GreetFails => FailHello(s)
    case Agrees => Agree(s)
    case TimesOut => TimeOut(s)
    case Begins(verb) => Begin(s, verb)
    case Resumes(k, request) => Resume(w, cfg, s, k, request)
    case Winds(k) => Wind(s, k)
  }

  // ---- What every reachable state keeps ---------------------------------------------------------

  /** Hello comes first and requests after, and none before an inbound frame has authenticated the channel. */
  predicate Polite(s: Ctl) {
    && |s.said| == |s.chan.sealed|
    && (s.stage == AwaitReady ==> s.said == [])
    && (s.stage.AwaitAck? || s.stage.HasAck? || s.stage.Agreed? ==> s.said != [])
    && (s.said != [] ==> s.said[0] == Hello)
    && (forall i | 1 <= i < |s.said| :: s.said[i].Request?)
    && (s.awaitingAck || s.timer ==> s.stage == AwaitAck)
    && (s.stage.HasAck? || s.stage.Agreed? || |s.said| > 1 ==> Authenticated(s.chan))
  }

  /**
   * Requests awaiting a response and calls in flight are in one-to-one correspondence; a closed controller has
   * neither, nor streams.
   */
  ghost predicate Correlated(s: Ctl) {
    && (forall id | id in s.pending ::
          id < s.nextId && s.pending[id] < |s.calls| && s.calls[s.pending[id]].progress == InFlight(id))
    && (forall k | 0 <= k < |s.calls| && s.calls[k].progress.InFlight? ::
          s.calls[k].progress.id in s.pending && s.pending[s.calls[k].progress.id] == k)
    && (s.closed ==> s.pending == map[] && s.streamsById == map[] && s.subsByRef == map[])
  }

  predicate Feeds(s: Ctl) {
    && (forall i | i in s.streamsById :: s.streamsById[i] < |s.streams|)
    && (forall r | r in s.subsByRef :: s.subsByRef[r].1 < |s.streams|)
    && (forall k | 0 <= k < |s.calls| && s.calls[k].feed.Some? :: s.calls[k].feed.value < |s.streams|)
  }

  ghost predicate Core(s: Ctl) {
    Ok(s.chan) && Polite(s) && Correlated(s) && Feeds(s)
  }

  ghost predicate Inv(s: Ctl) {
    Core(s) && (s.closed <==> s.chan.phase == Closed)
  }

  lemma SettleKeeps(s: Ctl, id: RequestId, progress: Progress)
    requires Core(s) && id in s.pending && !progress.InFlight?
    ensures Core(SetProgress(s.(pending := s.pending - {id}), s.pending[id], progress))
  {
  }

  lemma SucceedKeeps(s: Ctl, id: RequestId, streamId: StreamId)
    requires Core(s) && id in s.pending && !s.closed
    ensures Core(Succeed(s.(pending := s.pending - {id}), s.pending[id], streamId))
  {
    SettleKeeps(s, id, Resolved(streamId));
    var t := SetProgress(s.(pending := s.pending - {id}), s.pending[id], Resolved(streamId));
    var call := s.calls[s.pending[id]];
    if call.verb.Subscribe? && call.feed.Some? {
      assert Feeds(t.(streamsById := t.streamsById[streamId := call.feed.value],
                      subsByRef := t.subsByRef[call.verb.ref := (streamId, call.feed.value)]));
    }
  }

  lemma OnControlKeeps(w: Wire, s: Ctl, payload: seq<byte>)
    requires Core(s) && !s.closed && Authenticated(s.chan)
    ensures var t := OnControl(w, s, payload); Core(t) && !t.closed && t.chan == s.chan
  {
    if s.awaitingAck {
      AckKeeps(w, s, payload);
    } else if w.response(payload).Some? && w.response(payload).value.id in s.pending {
      var r := w.response(payload).value;
      if r.reply.Success? { SucceedKeeps(s, r.id, r.reply.streamId); } else { SettleKeeps(s, r.id, Rejected); }
    }
  }

  lemma AckKeeps(w: Wire, s: Ctl, payload: seq<byte>)
    requires Core(s) && !s.closed && Authenticated(s.chan) && s.awaitingAck
    ensures var t := HandleAck(w, s, payload); Core(t) && !t.closed && t.chan == s.chan
  {
  }

  lemma OnBinaryKeeps(s: Ctl, payload: seq<byte>)
    requires Core(s)
    ensures var t := OnBinary(s, payload); Core(t) && t.closed == s.closed && t.chan == s.chan
  {
  }

  lemma OnFrameKeeps(w: Wire, s: Ctl, frame: Frame)
    requires Core(s) && !s.closed && Authenticated(s.chan)
    ensures var t := OnFrame(w, s, frame); Core(t) && !t.closed && t.chan == s.chan
  {
    if frame.lane == Control { OnControlKeeps(w, s, frame.payload); } else { OnBinaryKeeps(s, frame.payload); }
  }

  lemma {:induction false} OnFramesKeeps(w: Wire, s: Ctl, frames: seq<Frame>)
    requires Core(s) && !s.closed && (frames == [] || Authenticated(s.chan))
    ensures var t := OnFrames(w, s, frames); Core(t) && !t.closed && t.chan == s.chan
    decreases |frames|
  {
    if frames != [] {
      OnFrameKeeps(w, s, frames[0]);
      OnFramesKeeps(w, OnFrame(w, s, frames[0]), frames[1..]);
    }
  }

  lemma OnCloseKeeps(s: Ctl)
    requires Core(s) && s.chan.phase == Closed
    ensures Inv(OnClose(s))
  {
  }

  lemma DeliveredStays(cfg: Config, c: Chan, bytes: seq<byte>)
    requires Ok(c)
    ensures Prefix(c.rx.delivered, Receive(cfg, c, bytes).rx.delivered)
    ensures c.phase == Closed ==> Receive(cfg, c, bytes) == c
  {
    if c.phase == Open {
      ChannelProgress.DeliveredGrows(cfg.aead, RecvKey(cfg.role, c.keys.value), RecvPrefix(cfg.role, c.keys.value),
                                     c.rx, c.buf + bytes);
    }
  }

  lemma HearKeeps(w: Wire, cfg: Config, s: Ctl, bytes: seq<byte>)
    requires Inv(s)
    ensures Inv(Hear(w, cfg, s, bytes))
  {
    var d := Receive(cfg, s.chan, bytes);
    DeliveredStays(cfg, s.chan, bytes);
    var frames := d.rx.delivered[|s.chan.rx.delivered|..];
    var m := s.(chan := d);
    assert Core(m);
    if !s.closed {
      OnFramesKeeps(w, m, frames);
      if d.phase == Closed { OnCloseKeeps(OnFrames(w, m, frames)); }
    }
  }

  lemma CloseKeeps(s: Ctl)
    requires Inv(s)
    ensures Inv(CloseChannel(s))
  {
    if s.chan.phase != Closed {
      OnCloseKeeps(s.(chan := Shutdown(s.chan)));
    }
  }

  lemma SayHelloKeeps(cfg: Config, s: Ctl, frame: Frame)
    requires Inv(s) && Sealable(cfg)
    ensures Inv(SayHello(cfg, s, frame))
  {
  }

  lemma BeginKeeps(s: Ctl, verb: Verb)
    requires Inv(s)
    ensures Inv(Begin(s, verb))
  {
  }

  lemma ResumeKeeps(w: Wire, cfg: Config, s: Ctl, k: CallId, frame: Frame)
    requires Inv(s) && Sealable(cfg)
    ensures Inv(Resume(w, cfg, s, k, frame))
  {
    if k < |s.calls| && s.calls[k].progress.Gated? && (s.stage.Agreed? || s.stage.Broken?) {
      if s.stage.Broken? || Forbidden(w, s, s.calls[k].verb) || s.closed {
        SetKeeps(s, k, Rejected);
      } else if SendOutcome(cfg, s.chan, frame) == Accepted {
        SayFits(cfg, s, frame);
        SendKeeps(cfg, s, k, frame);
      } else {
        SetKeeps(s.(nextId := s.nextId + 1), k, Rejected);
      }
    }
  }

  /** A gated call goes out. */
  lemma SendKeeps(cfg: Config, s: Ctl, k: CallId, frame: Frame)
    requires Inv(s) && Sealable(cfg) && k < |s.calls| && s.calls[k].progress.Gated? && s.stage.Agreed? && !s.closed
    requires SendOutcome(cfg, s.chan, frame) == Accepted && |SealRec(cfg, s.chan, frame).record| < 0x1_0000_0000
    ensures Inv(SetProgress(Say(cfg, s.(pending := s.pending[s.nextId := k], nextId := s.nextId + 1), frame,
                                Request(s.nextId, k)), k, InFlight(s.nextId)))
  {
    SayKeeps(cfg, s, frame, Request(s.nextId, k));
    GoesOut(Say(cfg, s, frame, Request(s.nextId, k)), k);
  }

  lemma SetKeeps(s: Ctl, k: CallId, progress: Progress)
    requires Inv(s) && k < |s.calls| && s.calls[k].progress.Gated? && !progress.InFlight?
    ensures Inv(SetProgress(s, k, progress))
  {
  }

  /** A gated call put in flight under a fresh id. */
  lemma GoesOut(s: Ctl, k: CallId)
    requires Inv(s) && k < |s.calls| && s.calls[k].progress.Gated?
    ensures !s.closed ==>
              Inv(SetProgress(s.(pending := s.pending[s.nextId := k], nextId := s.nextId + 1), k, InFlight(s.nextId)))
  {
  }

  lemma SayKeeps(cfg: Config, s: Ctl, frame: Frame, said: Said)
    requires Inv(s) && SendOutcome(cfg, s.chan, frame) == Accepted
             && |SealRec(cfg, s.chan, frame).record| < 0x1_0000_0000
    requires said.Request? && s.stage.Agreed?
    ensures Inv(Say(cfg, s, frame, said))
  {
  }

  lemma NextKeeps(w: Wire, cfg: Config, s: Ctl, e: Event)
    requires Inv(s) && Sealable(cfg)
    ensures Inv(Next(w, cfg, s, e))
  {
    match e
    case Opens =>
    case Hears(bytes) => HearKeeps(w, cfg, s, bytes);
    case Closes => CloseKeeps(s);
    case Greets(hello) => SayHelloKeeps(cfg, s, hello);
    case GreetFails =>
    case Agrees =>
    case TimesOut =>
      if s.timer {
        CloseKeeps(s.(timer := false, awaitingAck := false, stage := if s.stage == AwaitAck then Broken else s.stage));
      }
    case Begins(verb) => BeginKeeps(s, verb);
    case Resumes(k, request) => ResumeKeeps(w, cfg, s, k, request);
    case Winds(k) =>
  }

  ghost function Run(w: Wire, cfg: Config, s: Ctl, events: seq<Event>): Ctl
    requires Inv(s) && Sealable(cfg)
    decreases |events|
  {
    if events == [] then s
    else
      NextKeeps(w, cfg, s, events[0]);
      Run(w, cfg, Next(w, cfg, s, events[0]), events[1..])
  }

  lemma {:induction false} RunKeeps(w: Wire, cfg: Config, s: Ctl, events: seq<Event>)
    requires Inv(s) && Sealable(cfg)
    ensures Inv(Run(w, cfg, s, events))
    decreases |events|
  {
    if events != [] {
      NextKeeps(w, cfg, s, events[0]);
      RunKeeps(w, cfg, Next(w, cfg, s, events[0]), events[1..]);
    }
  }

  lemma {:induction false} RunConcat(w: Wire, cfg: Config, s: Ctl, a: seq<Event>, b: seq<Event>)
    requires Inv(s) && Sealable(cfg)
    ensures Inv(Run(w, cfg, s, a)) && Run(w, cfg, s, a + b) == Run(w, cfg, Run(w, cfg, s, a), b)
    decreases |a|
  {
    if a == [] {
      assert a + b == b;
    } else {
      NextKeeps(w, cfg, s, a[0]);
      assert (a + b)[0] == a[0] && (a + b)[1..] == a[1..] + b;
      RunConcat(w, cfg, Next(w, cfg, s, a[0]), a[1..], b);
    }
  }

  // ---- Promises ---------------------------------------------------------------------------------

  /** The frame a step hands to the channel, if it gets as far. */
  ghost function Attempt(w: Wire, s: Ctl, e: Event): Option<Frame> {
    match e
    case Greets(hello) => if s.stage == AwaitReady && s.chan.phase != Handshaking then Some(hello) else None
    case Resumes(k, request) =>
      if k < |s.calls| && s.calls[k].progress.Gated? && s.stage.Agreed? && !Forbidden(w, s, s.calls[k].verb)
          && !s.closed then Some(request) else None
    case _ => None
  }

  /**
   * A controller that owns its channel never runs into the initiator's one-record limit: over every run
   * its first frame is the hello, all others are requests, and none of those is so much as attempted
   * before an inbound frame has authenticated the channel.
   */
  lemma GuardNeverTrips(w: Wire, cfg: Config, events: seq<Event>, e: Event)
    requires Sealable(cfg)
    ensures Inv(NewController())
    ensures var s := Run(w, cfg, NewController(), events);
            && (Attempt(w, s, e).Some? ==> SendOutcome(cfg, s.chan, Attempt(w, s, e).value) != AwaitAuthenticated)
            && (e.Resumes? && Attempt(w, s, e).Some? ==> Authenticated(s.chan))
            && |s.said| == |s.chan.sealed| && (s.said != [] ==> s.said[0] == Hello)
            && (forall i | 1 <= i < |s.said| :: s.said[i].Request?)
  {
    RunKeeps(w, cfg, NewController(), events);
  }

  /** Every request sent was allowed by the capabilities agreed with the host. */
  predicate Permitted(w: Wire, s: Ctl) {
    forall i | 0 <= i < |s.said| && s.said[i].Request? ::
      s.said[i].call < |s.calls| && s.stage.Agreed? && !Forbidden(w, s, s.calls[s.said[i].call].verb)
  }

  /** Agreement is final, and calls keep their verbs. */
  predicate Onward(s: Ctl, t: Ctl) {
    && (s.stage.Agreed? ==> t.stage == s.stage) && t.said == s.said
    && |s.calls| <= |t.calls| && forall k | 0 <= k < |s.calls| :: t.calls[k].verb == s.calls[k].verb
  }

  lemma {:induction false} OnFramesOnward(w: Wire, s: Ctl, frames: seq<Frame>)
    requires s.awaitingAck ==> !s.stage.Agreed?
    ensures Onward(s, OnFrames(w, s, frames))
    decreases |frames|
  {
    if frames != [] {
      OnFrameOnward(w, s, frames[0]);
      OnFramesOnward(w, OnFrame(w, s, frames[0]), frames[1..]);
    }
  }

  lemma OnFrameOnward(w: Wire, s: Ctl, frame: Frame)
    requires s.awaitingAck ==> !s.stage.Agreed?
    ensures var t := OnFrame(w, s, frame); Onward(s, t) && (t.awaitingAck ==> !t.stage.Agreed?)
  {
  }

  lemma HearOnward(w: Wire, cfg: Config, s: Ctl, bytes: seq<byte>)
    requires Inv(s)
    ensures Onward(s, Hear(w, cfg, s, bytes))
  {
    var d := Receive(cfg, s.chan, bytes);
    DeliveredStays(cfg, s.chan, bytes);
    OnFramesOnward(w, s.(chan := d), d.rx.delivered[|s.chan.rx.delivered|..]);
    if !s.closed { OnFramesKeeps(w, s.(chan := d), d.rx.delivered[|s.chan.rx.delivered|..]); }
  }

  lemma OnwardPermits(w: Wire, s: Ctl, t: Ctl)
    requires Permitted(w, s) && Onward(s, t)
    ensures Permitted(w, t)
  {
  }

  lemma NextPermits(w: Wire, cfg: Config, s: Ctl, e: Event)
    requires Inv(s) && Sealable(cfg) && Permitted(w, s)
    ensures Permitted(w, Next(w, cfg, s, e))
  {
    var t := Next(w, cfg, s, e);
    match e
    case Hears(bytes) =>
      HearOnward(w, cfg, s, bytes);
      OnwardPermits(w, s, t);
    case Greets(hello) => GreetPermits(w, cfg, s, hello);
    case Resumes(k, request) => ResumePermits(w, cfg, s, k, request);
    case _ =>
      StillOnward(w, cfg, s, e);
      OnwardPermits(w, s, t);
  }

  /** The steps that send nothing. */
  lemma StillOnward(w: Wire, cfg: Config, s: Ctl, e: Event)
    requires Inv(s) && Sealable(cfg) && !e.Hears? && !e.Greets? && !e.Resumes?
    ensures Onward(s, Next(w, cfg, s, e))
  {
    match e
    case Closes => CloseOnward(s);
    case TimesOut => CloseOnward(s);
    case _ =>
  }

  lemma CloseOnward(s: Ctl)
    requires Inv(s)
    ensures Onward(s, CloseChannel(s)) && Onward(s, TimeOut(s))
  {
  }

  lemma GreetPermits(w: Wire, cfg: Config, s: Ctl, hello: Frame)
    requires Inv(s) && Sealable(cfg) && Permitted(w, s)
    ensures Permitted(w, SayHello(cfg, s, hello))
  {
    var t := SayHello(cfg, s, hello);
    assert t.said == s.said || t.said == [Hello];
  }

  lemma ResumePermits(w: Wire, cfg: Config, s: Ctl, k: CallId, request: Frame)
    requires Inv(s) && Sealable(cfg) && Permitted(w, s)
    ensures Permitted(w, Resume(w, cfg, s, k, request))
  {
    var t := Resume(w, cfg, s, k, request);
    if t.said == s.said {
      OnwardPermits(w, s, t);
    } else {
      assert t.said == s.said + [Request(s.nextId, k)] && t.stage == s.stage;
    }
  }

  /**
   * Over every run, no request goes out that the negotiated capabilities do not allow, and none before there
   * are any.
   */
  lemma {:induction false} RequestsArePermitted(w: Wire, cfg: Config, s: Ctl, events: seq<Event>)
    requires Inv(s) && Sealable(cfg) && Permitted(w, s)
    ensures Permitted(w, Run(w, cfg, s, events))
    decreases |events|
  {
    if events != [] {
      NextKeeps(w, cfg, s, events[0]);
      NextPermits(w, cfg, s, events[0]);
      RequestsArePermitted(w, cfg, Next(w, cfg, s, events[0]), events[1..]);
    }
  }

  predicate Settled(p: Progress) {
    p.Resolved? || p.Rejected?
  }

  /** Calls are only added, and a settled call stays as it settled. */
  predicate Settles(s: Ctl, t: Ctl) {
    && |s.calls| <= |t.calls|
    && forall k | 0 <= k < |s.calls| && Settled(s.calls[k].progress) :: t.calls[k].progress == s.calls[k].progress
  }

  lemma OnFrameSettles(w: Wire, s: Ctl, frame: Frame)
    requires Core(s)
    ensures Settles(s, OnFrame(w, s, frame))
  {
  }

  lemma {:induction false} OnFramesSettle(w: Wire, s: Ctl, frames: seq<Frame>)
    requires Core(s) && !s.closed && (frames == [] || Authenticated(s.chan))
    ensures Settles(s, OnFrames(w, s, frames))
    decreases |frames|
  {
    if frames != [] {
      OnFrameKeeps(w, s, frames[0]);
      OnFrameSettles(w, s, frames[0]);
      OnFramesSettle(w, OnFrame(w, s, frames[0]), frames[1..]);
    }
  }

  lemma HearSettles(w: Wire, cfg: Config, s: Ctl, bytes: seq<byte>)
    requires Inv(s)
    ensures Settles(s, Hear(w, cfg, s, bytes))
  {
    var d := Receive(cfg, s.chan, bytes);
    DeliveredStays(cfg, s.chan, bytes);
    if !s.closed {
      assert Core(s.(chan := d));
      OnFramesSettle(w, s.(chan := d), d.rx.delivered[|s.chan.rx.delivered|..]);
    }
  }

  lemma StepSettles(w: Wire, cfg: Config, s: Ctl, e: Event)
    requires Inv(s) && Sealable(cfg)
    ensures Settles(s, Next(w, cfg, s, e))
  {
    if e.Hears? {
      HearSettles(w, cfg, s, e.bytes);
    } else if e.Resumes? {
      ResumeSettles(w, cfg, s, e.k, e.request);
    }
  }

  lemma ResumeSettles(w: Wire, cfg: Config, s: Ctl, k: CallId, request: Frame)
    requires Inv(s) && Sealable(cfg)
    ensures Settles(s, Resume(w, cfg, s, k, request))
  {
  }

  lemma {:induction false} RunSettles(w: Wire, cfg: Config, s: Ctl, events: seq<Event>)
    requires Inv(s) && Sealable(cfg)
    ensures Settles(s, Run(w, cfg, s, events))
    decreases |events|
  {
    if events != [] {
      StepSettles(w, cfg, s, events[0]);
      NextKeeps(w, cfg, s, events[0]);
      RunSettles(w, cfg, Next(w, cfg, s, events[0]), events[1..]);
    }
  }

  /** Each call settles at most once, for good; once closed, nothing is in flight and no call can go out again. */
  lemma CallsSettleOnce(w: Wire, cfg: Config, before: seq<Event>, after: seq<Event>, k: CallId)
    requires Sealable(cfg)
    ensures Inv(NewController())
    ensures var s, t := Run(w, cfg, NewController(), before), Run(w, cfg, NewController(), before + after);
            && (k < |s.calls| && Settled(s.calls[k].progress) ==>
                  k < |t.calls| && t.calls[k].progress == s.calls[k].progress)
            && (t.closed && k < |t.calls| ==> !t.calls[k].progress.InFlight?)
            && (t.closed ==> t.pending == map[] && forall e: Event :: e.Resumes? ==> Attempt(w, t, e).None?)
  {
    RunConcat(w, cfg, NewController(), before, after);
    RunSettles(w, cfg, Run(w, cfg, NewController(), before), after);
    RunKeeps(w, cfg, Run(w, cfg, NewController(), before), after);
  }

  // ---- Subscriptions ----------------------------------------------------------------------------

  /** Feed frames to a stream. */
  function IngestAll(stream: PtyEvents.Stream, frames: seq<PtyFrame>): PtyEvents.Stream
    decreases |frames|
  {
    if frames == [] then stream else IngestAll(PtyEvents.Ingest(stream, frames[0]), frames[1..])
  }

  /** Binary frames that carry these PTY frames. */
  predicate Carry(frames: seq<Frame>, ptys: seq<PtyFrame>, streamId: StreamId) {
    |frames| == |ptys| && forall i | 0 <= i < |frames| ::
      frames[i].lane == Binary && DecodePtyFrame(frames[i].payload) == Some(ptys[i]) && ptys[i].streamId == streamId
  }

  lemma {:induction false} FramesReachStream(w: Wire, s: Ctl, frames: seq<Frame>, ptys: seq<PtyFrame>,
                                             streamId: StreamId, o: nat)
    requires Carry(frames, ptys, streamId) && streamId in s.streamsById && s.streamsById[streamId] == o
             && o < |s.streams|
    ensures var t := OnFrames(w, s, frames); t == SetStream(s, o, IngestAll(s.streams[o], ptys))
    decreases |frames|
  {
    if frames == [] {
      assert s.streams[o := s.streams[o]] == s.streams;
    } else {
      var t := OnFrame(w, s, frames[0]);
      FramesReachStream(w, t, frames[1..], ptys[1..], streamId, o);
      assert s.streams[o := t.streams[o]][o := IngestAll(t.streams[o], ptys[1..])]
             == s.streams[o := IngestAll(t.streams[o], ptys[1..])];
    }
  }

  /**
   * A subscription is registered by the time its call resolves: every PTY frame right behind the ack, in
   * the same chunk even, reaches the subscription's own stream.
   */
  lemma NoFrameMisrouted(w: Wire, s: Ctl, ack: Frame, k: CallId, streamId: StreamId, frames: seq<Frame>,
                         ptys: seq<PtyFrame>)
    requires Core(s) && !s.closed && !s.awaitingAck
    requires k < |s.calls| && s.calls[k].progress.InFlight? && s.calls[k].verb.Subscribe? && s.calls[k].feed.Some?
    requires ack.lane == Control && w.response(ack.payload) == Some(Response(s.calls[k].progress.id, Success(streamId)))
    requires Carry(frames, ptys, streamId)
    ensures var t, o := OnFrames(w, s, [ack] + frames), s.calls[k].feed.value;
            && k < |t.calls| && t.calls[k].progress == Resolved(streamId)
            && o < |s.streams| == |t.streams| && t.streams[o] == IngestAll(s.streams[o], ptys)
            && streamId in t.streamsById && t.streamsById[streamId] == o
            && s.calls[k].verb.ref in t.subsByRef && t.subsByRef[s.calls[k].verb.ref] == (streamId, o)
            && (forall i | 0 <= i < |s.streams| && i != o :: t.streams[i] == s.streams[i])
  {
    var m, o := OnFrame(w, s, ack), s.calls[k].feed.value;
    assert ([ack] + frames)[1..] == frames;
    FramesReachStream(w, m, frames, ptys, streamId, o);
  }
}

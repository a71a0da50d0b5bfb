/** A controller, chunk by chunk. */
module ControllerChunks {
  // Which stream hears what of a chunk, which calls its responses settle, and what is agreed: over chunks and runs.

  import opened Bytes
  import opened Frames
  import opened Channels
  import opened PtyFrames
  import opened Controllers
  import opened ControllerLaws
  import PtyEvents

  // ---- Streams ----------------------------------------------------------------------------------

  /** The PTY frames for a stream id, in order. */
  function For(frames: seq<Frame>, id: StreamId): seq<PtyFrame>
    decreases |frames|
  {
    if frames == [] then []
    else
      var f := DecodePtyFrame(frames[0].payload);
      (if frames[0].lane == Binary && f.Some? && f.value.streamId == id then [f.value] else []) + For(frames[1..], id)
  }

  /** No response among them gives out this stream id. */
  predicate GivesNot(w: Wire, frames: seq<Frame>, id: StreamId) {
    forall i | 0 <= i < |frames| && frames[i].lane == Control && w.response(frames[i].payload).Some? ::
      w.response(frames[i].payload).value.reply != Success(id)
  }

  /** No two subscriptions have one stream, and a registered one is of a call that resolved with its id. */
  predicate Fed(s: Ctl) {
    && (forall k, l | 0 <= k < |s.calls| && 0 <= l < |s.calls| && s.calls[k].verb.Subscribe?
                      && s.calls[l].verb.Subscribe? && s.calls[k].feed == s.calls[l].feed :: k == l)
    && (forall k | 0 <= k < |s.calls| && s.calls[k].verb.Subscribe? :: s.calls[k].feed.Some?)
    && (forall i | i in s.streamsById :: Feeder(s.calls, s.streamsById[i], i))
  }

  /** The call that subscribed to this stream resolved with this id. */
  predicate Feeder(calls: seq<Call>, o: nat, id: StreamId) {
    exists k :: 0 <= k < |calls| && calls[k].verb.Subscribe? && calls[k].feed == Some(o)
                && calls[k].progress == Resolved(id)
  }

  /** Every stream is registered under one id at most: no frame is fed to it twice. */
  lemma OneId(s: Ctl, i: StreamId, j: StreamId)
    requires Fed(s) && i in s.streamsById && j in s.streamsById && s.streamsById[i] == s.streamsById[j]
    ensures i == j
  {
  }

  /** Calls keep what they are about, and what they resolved with. */
  predicate Holds(calls: seq<Call>, after: seq<Call>) {
    && |calls| == |after|
    && forall k | 0 <= k < |calls| ::
         && after[k].verb == calls[k].verb && after[k].feed == calls[k].feed
         && (calls[k].progress.Resolved? ==> after[k].progress == calls[k].progress)
  }

  lemma HoldsFeeder(calls: seq<Call>, after: seq<Call>, o: nat, id: StreamId)
    requires Feeder(calls, o, id) && Holds(calls, after)
    ensures Feeder(after, o, id)
  {
    var k :| 0 <= k < |calls| && calls[k].verb.Subscribe? && calls[k].feed == Some(o)
             && calls[k].progress == Resolved(id);
    assert after[k].verb.Subscribe? && after[k].feed == Some(o) && after[k].progress == Resolved(id);
  }

  /** As long as calls hold, and no stream is registered anew, streams stay fed once. */
  lemma HoldsFed(s: Ctl, t: Ctl)
    requires Fed(s) && Holds(s.calls, t.calls)
    requires forall i | i in t.streamsById :: i in s.streamsById && t.streamsById[i] == s.streamsById[i]
    ensures Fed(t)
  {
    forall i | i in t.streamsById ensures Feeder(t.calls, t.streamsById[i], i) {
      HoldsFeeder(s.calls, t.calls, s.streamsById[i], i);
    }
  }

  /** The one call that a response settles, and the one stream it may register. */
  lemma SettlingFed(s: Ctl, t: Ctl, k: CallId, progress: Progress)
    requires Fed(s) && k < |s.calls| && s.calls[k].progress.InFlight? && Moved(s.calls, t.calls, k, progress)
    requires forall i | i in t.streamsById ::
               || (i in s.streamsById && t.streamsById[i] == s.streamsById[i])
               || (progress == Resolved(i) && s.calls[k].verb.Subscribe? && s.calls[k].feed == Some(t.streamsById[i]))
    ensures Fed(t) && Holds(s.calls, t.calls)
  {
    forall i | i in t.streamsById ensures Feeder(t.calls, t.streamsById[i], i) {
      if i in s.streamsById && t.streamsById[i] == s.streamsById[i] {
        HoldsFeeder(s.calls, t.calls, s.streamsById[i], i);
      }
    }
  }

  lemma ControlFed(w: Wire, s: Ctl, payload: seq<byte>)
    requires Core(s) && Fed(s)
    ensures Fed(OnControl(w, s, payload)) && Holds(s.calls, OnControl(w, s, payload).calls)
  {
    var t := OnControl(w, s, payload);
    if s.awaitingAck {
      AckLaw(w, s, payload);
      HoldsFed(s, t);
    } else if w.response(payload).Some? && w.response(payload).value.id in s.pending {
      var r := w.response(payload).value;
      ResponseLaw(w, s, payload);
      SettlingFed(s, t, s.pending[r.id], t.calls[s.pending[r.id]].progress);
    }
  }

  lemma FrameFed(w: Wire, s: Ctl, frame: Frame)
    requires Core(s) && Fed(s)
    ensures Fed(OnFrame(w, s, frame)) && Holds(s.calls, OnFrame(w, s, frame).calls)
  {
    if frame.lane == Control { ControlFed(w, s, frame.payload); } else { HoldsFed(s, OnFrame(w, s, frame)); }
  }

  lemma {:induction false} FramesFed(w: Wire, s: Ctl, frames: seq<Frame>)
    requires Core(s) && Fed(s) && !s.closed && (frames == [] || Authenticated(s.chan))
    ensures Fed(OnFrames(w, s, frames))
    decreases |frames|
  {
    if frames != [] {
      OnFrameKeeps(w, s, frames[0]);
      FrameFed(w, s, frames[0]);
      FramesFed(w, OnFrame(w, s, frames[0]), frames[1..]);
    }
  }

  lemma CloseFed(s: Ctl)
    requires Fed(s)
    ensures Fed(OnClose(s))
  {
    if !s.closed { HoldsFed(s, OnClose(s)); }
  }

  /** What a chunk makes the channel deliver. */
  function Fresh(cfg: Config, s: Ctl, bytes: seq<byte>): seq<Frame>
    requires Ok(s.chan)
  {
    var n, after := |s.chan.rx.delivered|, Receive(cfg, s.chan, bytes).rx.delivered;
    if n <= |after| then after[n..] else []
  }

  /** The controller hears what the channel delivers, frame by frame, and its close behind it. */
  lemma HearsFresh(w: Wire, cfg: Config, s: Ctl, bytes: seq<byte>)
    requires Inv(s) && !s.closed
    ensures var d, frames := Receive(cfg, s.chan, bytes), Fresh(cfg, s, bytes);
            var m := s.(chan := d);
            && d.rx.delivered == s.chan.rx.delivered + frames
            && Core(m) && (frames == [] || Authenticated(m.chan))
            && Core(OnFrames(w, m, frames)) && !OnFrames(w, m, frames).closed
            && Hear(w, cfg, s, bytes)
               == if d.phase == Closed then OnClose(OnFrames(w, m, frames)) else OnFrames(w, m, frames)
  {
    DeliveredStays(cfg, s.chan, bytes);
    OnFramesKeeps(w, s.(chan := Receive(cfg, s.chan, bytes)), Fresh(cfg, s, bytes));
  }

  lemma HearFed(w: Wire, cfg: Config, s: Ctl, bytes: seq<byte>)
    requires Inv(s) && Fed(s)
    ensures Fed(Hear(w, cfg, s, bytes))
  {
    if s.closed {
      DeliveredStays(cfg, s.chan, bytes);
    } else {
      var m, frames := s.(chan := Receive(cfg, s.chan, bytes)), Fresh(cfg, s, bytes);
      HearsFresh(w, cfg, s, bytes);
      HoldsFed(s, m);
      FramesFed(w, m, frames);
      CloseFed(OnFrames(w, m, frames));
    }
  }

  lemma ShutFed(s: Ctl)
    requires Inv(s) && Fed(s)
    ensures Fed(CloseChannel(s)) && Fed(TimeOut(s))
  {
    CloseLaw(s);
    HoldsFed(s, CloseChannel(s));
    HoldsFed(s, TimeOut(s));
  }

  lemma StillFed(w: Wire, cfg: Config, s: Ctl, e: Event)
    requires Inv(s) && Sealable(cfg) && Fed(s) && !e.Hears? && !e.Begins? && !e.Resumes? && !e.Greets?
    ensures Fed(Next(w, cfg, s, e))
  {
    if e.Opens? {
      HoldsFed(s, s.(chan := Start(cfg, s.chan)));
    } else if e.Closes? || e.TimesOut? {
      ShutFed(s);
    } else if e.GreetFails? {
      HoldsFed(s, FailHello(s));
    } else if e.Agrees? {
      HoldsFed(s, Agree(s));
    } else if e.Winds? {
      HoldsFed(s, Wind(s, e.k));
    }
  }

  lemma NextFed(w: Wire, cfg: Config, s: Ctl, e: Event)
    requires Inv(s) && Sealable(cfg) && Fed(s)
    ensures Fed(Next(w, cfg, s, e))
  {
    match e
    case Hears(bytes) => HearFed(w, cfg, s, bytes);
    case Begins(verb) => BeginFed(s, verb);
    case Resumes(k, request) =>
      ResumeLaw(w, cfg, s, k, request);
      HoldsFed(s, Resume(w, cfg, s, k, request));
    case Greets(hello) =>
      HelloLaw(cfg, s, hello);
      HoldsFed(s, SayHello(cfg, s, hello));
    case _ => StillFed(w, cfg, s, e);
  }

  lemma BeginFed(s: Ctl, verb: Verb)
    requires Feeds(s) && Fed(s)
    ensures Fed(Begin(s, verb))
  {
    var t := Begin(s, verb);
    forall i | i in t.streamsById ensures Feeder(t.calls, t.streamsById[i], i) {
      var k :| 0 <= k < |s.calls| && s.calls[k].verb.Subscribe? && s.calls[k].feed == Some(s.streamsById[i])
               && s.calls[k].progress == Resolved(i);
      assert t.calls[k] == s.calls[k];
    }
  }

  /** Every run keeps each stream under one id. */
  lemma {:induction false} RunFed(w: Wire, cfg: Config, s: Ctl, events: seq<Event>)
    requires Inv(s) && Sealable(cfg) && Fed(s)
    ensures Inv(Run(w, cfg, s, events)) && Fed(Run(w, cfg, s, events))
    decreases |events|
  {
    if events != [] {
      NextKeeps(w, cfg, s, events[0]);
      NextFed(w, cfg, s, events[0]);
      RunFed(w, cfg, Next(w, cfg, s, events[0]), events[1..]);
    }
  }

  lemma ForOne(frame: Frame, id: StreamId)
    ensures var f := DecodePtyFrame(frame.payload);
            For([frame], id)
            == if frame.lane == Binary && f.Some? && f.value.streamId == id then [f.value] else []
  {
    assert [frame][0] == frame && [frame][1..] == [] && For([], id) == [];
  }

  lemma IngestOne(stream: PtyEvents.Stream, f: PtyFrame)
    ensures IngestAll(stream, [f]) == PtyEvents.Ingest(stream, f) && IngestAll(stream, []) == stream
  {
    assert [f][0] == f && [f][1..] == [];
  }

  /** A frame feeds this id's stream when it is for it, and else leaves it alone. */
  lemma OneFrame(w: Wire, s: Ctl, frame: Frame, id: StreamId)
    requires Core(s) && Fed(s) && id in s.streamsById && GivesNot(w, [frame], id)
    ensures var t, o := OnFrame(w, s, frame), s.streamsById[id];
            && id in t.streamsById && t.streamsById[id] == o && |t.streams| == |s.streams|
            && t.streams[o] == IngestAll(s.streams[o], For([frame], id))
  {
    ForOne(frame, id);
    if frame.lane == Control {
      ControlSpares(w, s, frame, id);
    } else {
      BinaryLaw(s, frame.payload);
      var f := DecodePtyFrame(frame.payload);
      if f.Some? {
        IngestOne(s.streams[s.streamsById[id]], f.value);
        if f.value.streamId in s.streamsById && s.streamsById[f.value.streamId] == s.streamsById[id] {
          OneId(s, f.value.streamId, id);
        }
      }
    }
  }

  lemma ControlSpares(w: Wire, s: Ctl, frame: Frame, id: StreamId)
    requires Core(s) && id in s.streamsById && GivesNot(w, [frame], id) && frame.lane == Control
    ensures var t := OnFrame(w, s, frame);
            id in t.streamsById && t.streamsById[id] == s.streamsById[id] && t.streams == s.streams
  {
    assert [frame][0] == frame;
    if s.awaitingAck { AckLaw(w, s, frame.payload); } else { ResponseLaw(w, s, frame.payload); }
  }

  lemma {:induction false} IngestConcat(stream: PtyEvents.Stream, a: seq<PtyFrame>, b: seq<PtyFrame>)
    ensures IngestAll(stream, a + b) == IngestAll(IngestAll(stream, a), b)
    decreases |a|
  {
    if a == [] {
      assert a + b == b;
    } else {
      assert (a + b)[0] == a[0] && (a + b)[1..] == a[1..] + b;
      IngestConcat(PtyEvents.Ingest(stream, a[0]), a[1..], b);
    }
  }

  lemma ForFirst(frames: seq<Frame>, id: StreamId)
    requires frames != []
    ensures For(frames, id) == For([frames[0]], id) + For(frames[1..], id)
  {
    assert [frames[0]][0] == frames[0] && [frames[0]][1..] == [] && For([], id) == [];
  }

  lemma {:induction false} FramesFeed(w: Wire, s: Ctl, frames: seq<Frame>, id: StreamId)
    requires Core(s) && Fed(s) && !s.closed && (frames == [] || Authenticated(s.chan))
    requires id in s.streamsById && GivesNot(w, frames, id)
    ensures var t, o := OnFrames(w, s, frames), s.streamsById[id];
            && id in t.streamsById && t.streamsById[id] == o && |t.streams| == |s.streams|
            && t.streams[o] == IngestAll(s.streams[o], For(frames, id))
    decreases |frames|
  {
    if frames != [] {
      var first, t := frames[0], OnFrame(w, s, frames[0]);
      assert GivesNot(w, [first], id) by { assert [first][0] == frames[0]; }
      assert GivesNot(w, frames[1..], id) by {
        assert forall i | 0 <= i < |frames[1..]| :: frames[1..][i] == frames[i + 1];
      }
      OnFrameKeeps(w, s, first);
      FrameFed(w, s, first);
      OneFrame(w, s, first, id);
      FramesFeed(w, t, frames[1..], id);
      ForFirst(frames, id);
      IngestConcat(s.streams[s.streamsById[id]], For([first], id), For(frames[1..], id));
    }
  }

  /**
   * Whatever a chunk brings, in whatever order and mixed with whatever else: the stream registered under an id hears
   * exactly the PTY frames for that id, all of them, once each and in order, as long as no response in the chunk
   * gives the id out anew; and if the channel closes behind them, it ends with them heard. Every run is `Fed`.
   */
  lemma StreamHears(w: Wire, cfg: Config, s: Ctl, bytes: seq<byte>, id: StreamId)
    requires Inv(s) && Fed(s) && id in s.streamsById && GivesNot(w, Fresh(cfg, s, bytes), id)
    ensures var t, o := Hear(w, cfg, s, bytes), s.streamsById[id];
            var heard := IngestAll(s.streams[o], For(Fresh(cfg, s, bytes), id));
            && o < |s.streams| == |t.streams|
            && (if t.closed then Finished(heard, t.streams[o])
                else t.streams[o] == heard && id in t.streamsById && t.streamsById[id] == o)
  {
    var m, frames := s.(chan := Receive(cfg, s.chan, bytes)), Fresh(cfg, s, bytes);
    HearsFresh(w, cfg, s, bytes);
    HoldsFed(s, m);
    FramesFeed(w, m, frames, id);
    ShutsLaw(OnFrames(w, m, frames));
  }

  // ---- Responses --------------------------------------------------------------------------------

  /** None of them is a response under this id. */
  predicate Silent(w: Wire, frames: seq<Frame>, id: RequestId) {
    forall i | 0 <= i < |frames| && frames[i].lane == Control && w.response(frames[i].payload).Some? ::
      w.response(frames[i].payload).value.id != id
  }

  lemma SilentFrame(w: Wire, s: Ctl, frame: Frame, id: RequestId)
    requires Core(s) && !s.awaitingAck && id in s.pending && Silent(w, [frame], id)
    ensures var t := OnFrame(w, s, frame); !t.awaitingAck && id in t.pending && t.pending[id] == s.pending[id]
  {
    assert [frame][0] == frame;
    if frame.lane == Control { ResponseLaw(w, s, frame.payload); }
  }

  lemma {:induction false} FramesSettle(w: Wire, s: Ctl, frames: seq<Frame>, i: nat, r: Response)
    requires Core(s) && !s.closed && Authenticated(s.chan) && !s.awaitingAck && r.id in s.pending
    requires i < |frames| && Silent(w, frames[..i], r.id)
    requires frames[i].lane == Control && w.response(frames[i].payload) == Some(r)
    ensures var k, t := s.pending[r.id], OnFrames(w, s, frames);
            k < |t.calls| && Answers(r.reply, t.calls[k].progress)
    decreases |frames|
  {
    var first, t := frames[0], OnFrame(w, s, frames[0]);
    OnFrameKeeps(w, s, first);
    if i == 0 {
      ResponseLaw(w, s, first.payload);
      OnFramesSettle(w, t, frames[1..]);
    } else {
      assert Silent(w, [first], r.id) by { assert [first][0] == frames[..i][0]; }
      assert Silent(w, frames[1..][..i - 1], r.id) by {
        var rest := frames[1..][..i - 1];
        assert forall j | 0 <= j < |rest| :: rest[j] == frames[..i][j + 1];
      }
      SilentFrame(w, s, first, r.id);
      FramesSettle(w, t, frames[1..], i - 1, r);
    }
  }

  /**
   * The first response of a chunk to a call in flight settles it, as its result or its error says, whatever comes
   * before and behind it, the channel's close included.
   */
  lemma ResponseSettles(w: Wire, cfg: Config, s: Ctl, bytes: seq<byte>, i: nat, r: Response)
    requires Inv(s) && !s.closed && !s.awaitingAck && r.id in s.pending
    requires i < |Fresh(cfg, s, bytes)| && Silent(w, Fresh(cfg, s, bytes)[..i], r.id)
    requires Fresh(cfg, s, bytes)[i].lane == Control && w.response(Fresh(cfg, s, bytes)[i].payload) == Some(r)
    ensures var k, t := s.pending[r.id], Hear(w, cfg, s, bytes);
            k < |t.calls| && Answers(r.reply, t.calls[k].progress)
  {
    HearsFresh(w, cfg, s, bytes);
    var m := s.(chan := Receive(cfg, s.chan, bytes));
    FramesSettle(w, m, Fresh(cfg, s, bytes), i, r);
    ShutsLaw(OnFrames(w, m, Fresh(cfg, s, bytes)));
  }

  // ---- What was agreed --------------------------------------------------------------------------

  /** Some control frame heard decodes to this ack. */
  predicate Heard(w: Wire, s: Ctl, ack: Ack) {
    exists i :: 0 <= i < |s.chan.rx.delivered| && s.chan.rx.delivered[i].lane == Control
                && w.ack(s.chan.rx.delivered[i].payload) == Some(ack)
  }

  /** Whatever was agreed, a compatible host sent. */
  predicate Traced(w: Wire, s: Ctl) {
    && (s.stage.HasAck? ==> Heard(w, s, s.stage.ack))
    && (s.stage.Agreed? ==> Heard(w, s, Ack(true, s.stage.capabilities)))
  }

  lemma HeardStays(w: Wire, s: Ctl, t: Ctl, ack: Ack)
    requires Heard(w, s, ack) && Prefix(s.chan.rx.delivered, t.chan.rx.delivered)
    ensures Heard(w, t, ack)
  {
    var i :| 0 <= i < |s.chan.rx.delivered| && s.chan.rx.delivered[i].lane == Control
             && w.ack(s.chan.rx.delivered[i].payload) == Some(ack);
    assert t.chan.rx.delivered[i] == s.chan.rx.delivered[i];
  }

  lemma FrameTraced(w: Wire, s: Ctl, frame: Frame)
    requires Traced(w, s) && frame in s.chan.rx.delivered
    ensures Traced(w, OnFrame(w, s, frame)) && OnFrame(w, s, frame).chan == s.chan
  {
    var t := OnFrame(w, s, frame);
    if frame.lane == Control && s.awaitingAck {
      AckLaw(w, s, frame.payload);
      var i :| 0 <= i < |s.chan.rx.delivered| && s.chan.rx.delivered[i] == frame;
      if w.ack(frame.payload).Some? {
        assert t.chan.rx.delivered[i].lane == Control && w.ack(t.chan.rx.delivered[i].payload) == Some(t.stage.ack);
      }
    } else {
      assert t.stage == s.stage && t.chan == s.chan;
      SameTraced(w, s, t);
    }
  }

  lemma SameTraced(w: Wire, s: Ctl, t: Ctl)
    requires Traced(w, s) && (t.stage == s.stage || t.stage == Broken || t.stage == AwaitAck)
    requires Prefix(s.chan.rx.delivered, t.chan.rx.delivered)
    ensures Traced(w, t)
  {
    if t.stage.HasAck? {
      HeardStays(w, s, t, s.stage.ack);
    } else if t.stage.Agreed? {
      HeardStays(w, s, t, Ack(true, s.stage.capabilities));
    }
  }

  lemma {:induction false} FramesTraced(w: Wire, s: Ctl, frames: seq<Frame>)
    requires Traced(w, s) && forall f | f in frames :: f in s.chan.rx.delivered
    ensures Traced(w, OnFrames(w, s, frames)) && OnFrames(w, s, frames).chan == s.chan
    decreases |frames|
  {
    if frames != [] {
      FrameTraced(w, s, frames[0]);
      FramesTraced(w, OnFrame(w, s, frames[0]), frames[1..]);
    }
  }

  lemma HearTraced(w: Wire, cfg: Config, s: Ctl, bytes: seq<byte>)
    requires Inv(s) && !s.closed && Traced(w, s)
    ensures Traced(w, Hear(w, cfg, s, bytes))
  {
    var m, frames := s.(chan := Receive(cfg, s.chan, bytes)), Fresh(cfg, s, bytes);
    HearsFresh(w, cfg, s, bytes);
    SameTraced(w, s, m);
    FramesTraced(w, m, frames);
    SameTraced(w, OnFrames(w, m, frames), Hear(w, cfg, s, bytes));
  }

  lemma AgreeTraced(w: Wire, s: Ctl)
    requires Traced(w, s)
    ensures Traced(w, Agree(s))
  {
    var t := Agree(s);
    AgreeLaw(s);
    if t.stage.Agreed? && s.stage.HasAck? {
      assert s.stage.ack == Ack(true, t.stage.capabilities);
      HeardStays(w, s, t, s.stage.ack);
    } else {
      SameTraced(w, s, t);
    }
  }

  lemma ShutTraced(w: Wire, s: Ctl)
    requires Inv(s) && Traced(w, s)
    ensures Traced(w, CloseChannel(s)) && Traced(w, TimeOut(s))
  {
    CloseLaw(s);
    SameTraced(w, s, CloseChannel(s));
    SameTraced(w, s, TimeOut(s));
  }

  lemma StillTraced(w: Wire, cfg: Config, s: Ctl, e: Event)
    requires Inv(s) && Sealable(cfg) && Traced(w, s) && !e.Hears? && !e.Agrees? && !e.Resumes? && !e.Greets?
    ensures Traced(w, Next(w, cfg, s, e))
  {
    if e.Opens? {
      SameTraced(w, s, s.(chan := Start(cfg, s.chan)));
    } else if e.Closes? || e.TimesOut? {
      ShutTraced(w, s);
    } else if e.GreetFails? {
      SameTraced(w, s, FailHello(s));
    } else if e.Begins? {
      SameTraced(w, s, Begin(s, e.verb));
    } else if e.Winds? {
      SameTraced(w, s, Wind(s, e.k));
    }
  }

  lemma NextTraced(w: Wire, cfg: Config, s: Ctl, e: Event)
    requires Inv(s) && Sealable(cfg) && Traced(w, s)
    ensures Traced(w, Next(w, cfg, s, e))
  {
    match e
    case Hears(bytes) =>
      if s.closed { DeliveredStays(cfg, s.chan, bytes); } else { HearTraced(w, cfg, s, bytes); }
    case Agrees => AgreeTraced(w, s);
    case Resumes(k, request) =>
      ResumeLaw(w, cfg, s, k, request);
      SameTraced(w, s, Resume(w, cfg, s, k, request));
    case Greets(hello) =>
      HelloLaw(cfg, s, hello);
      SameTraced(w, s, SayHello(cfg, s, hello));
    case _ => StillTraced(w, cfg, s, e);
  }

  lemma {:induction false} RunTraced(w: Wire, cfg: Config, s: Ctl, events: seq<Event>)
    requires Inv(s) && Sealable(cfg) && Traced(w, s)
    ensures Traced(w, Run(w, cfg, s, events))
    decreases |events|
  {
    if events != [] {
      NextKeeps(w, cfg, s, events[0]);
      NextTraced(w, cfg, s, events[0]);
      RunTraced(w, cfg, Next(w, cfg, s, events[0]), events[1..]);
    }
  }

  /** Over every run: capabilities are agreed only as a compatible host's ack, heard on the control lane, has them. */
  lemma AgreedIsHeard(w: Wire, cfg: Config, events: seq<Event>)
    requires Sealable(cfg)
    ensures Inv(NewController())
    ensures var s := Run(w, cfg, NewController(), events);
            s.stage.Agreed? ==> Heard(w, s, Ack(true, s.stage.capabilities))
  {
    RunTraced(w, cfg, NewController(), events);
  }
}

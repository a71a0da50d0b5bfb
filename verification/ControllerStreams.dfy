/** Which streams end, and which are forgotten. */
module ControllerStreams {
  // Of those a controller handed out (packages/sdk/src/controller.ts).

  import opened Bytes
  import opened Frames
  import opened Channels
  import opened PtyFrames
  import opened Controllers
  import PtyEvents

  // ---- Where a stream stands --------------------------------------------------------------------

  predicate Subscribes(call: Call, o: nat) {
    call.verb.Subscribe? && call.feed == Some(o)
  }

  predicate Unsubscribes(call: Call, o: nat) {
    call.verb.Unsubscribe? && call.feed == Some(o)
  }

  /** The call that subscribes has resolved with this stream. */
  predicate HandedOut(s: Ctl, o: nat) {
    exists k :: 0 <= k < |s.calls| && Subscribes(s.calls[k], o) && s.calls[k].progress.Resolved?
  }

  predicate Ended(s: Ctl, o: nat) {
    o < |s.streams| && s.streams[o].ended
  }

  predicate Registered(s: Ctl, o: nat) {
    o in s.streamsById.Values
  }

  /** A session's latest subscription, which unsubscribing would find. */
  predicate Held(s: Ctl, o: nat) {
    exists ref :: ref in s.subsByRef && s.subsByRef[ref].1 == o
  }

  /** An unsubscribe is about it, which ends it once it has settled. */
  predicate Leaving(s: Ctl, o: nat) {
    exists k :: 0 <= k < |s.calls| && Unsubscribes(s.calls[k], o)
  }

  /** A live stream that nothing in the controller refers to. */
  predicate Forgotten(s: Ctl, o: nat) {
    && o < |s.streams| && !s.streams[o].ended && !Registered(s, o) && !Held(s, o) && !Leaving(s, o)
    && forall k | 0 <= k < |s.calls| && Subscribes(s.calls[k], o) :: Settled(s.calls[k].progress)
  }

  // ---- Forgotten for good -----------------------------------------------------------------------

  /** The stream is as it was, and still forgotten. */
  predicate Same(s: Ctl, t: Ctl, o: nat) {
    Forgotten(t, o) && o < |s.streams| && t.streams[o] == s.streams[o]
  }

  /** Settling a call that is not this stream's own. */
  lemma SettleForgets(s: Ctl, k: CallId, progress: Progress, o: nat)
    requires Forgotten(s, o) && (k < |s.calls| && Subscribes(s.calls[k], o) ==> Settled(progress))
    ensures Same(s, SetProgress(s, k, progress), o)
  {
    var t := SetProgress(s, k, progress);
    assert forall i | 0 <= i < |t.calls| :: t.calls[i].verb == s.calls[i].verb && t.calls[i].feed == s.calls[i].feed;
  }

  lemma RegisterForgets(s: Ctl, ref: SessionRef, streamId: StreamId, other: nat, o: nat)
    requires Forgotten(s, o) && other != o
    ensures Same(s, s.(streamsById := s.streamsById[streamId := other],
                       subsByRef := s.subsByRef[ref := (streamId, other)]), o)
  {
  }

  lemma OnControlForgets(w: Wire, s: Ctl, payload: seq<byte>, o: nat)
    requires Core(s) && Forgotten(s, o)
    ensures Same(s, OnControl(w, s, payload), o)
  {
    if !s.awaitingAck && w.response(payload).Some? && w.response(payload).value.id in s.pending {
      var id, reply := w.response(payload).value.id, w.response(payload).value.reply;
      var k, t := s.pending[id], s.(pending := s.pending - {id});
      assert Same(s, t, o) && s.calls[k].progress.InFlight?;
      if reply.Success? {
        var call := s.calls[k];
        if call.verb.Subscribe? && call.feed.Some? {
          assert !Subscribes(call, o);
          RegisterForgets(t, call.verb.ref, reply.streamId, call.feed.value, o);
          SettleForgets(t.(streamsById := t.streamsById[reply.streamId := call.feed.value],
                           subsByRef := t.subsByRef[call.verb.ref := (reply.streamId, call.feed.value)]), k,
                               Resolved(reply.streamId), o);
        } else {
          SettleForgets(t, k, Resolved(reply.streamId), o);
        }
      } else {
        SettleForgets(t, k, Rejected, o);
      }
    }
  }

  lemma OnBinaryForgets(s: Ctl, payload: seq<byte>, o: nat)
    requires Forgotten(s, o)
    ensures Same(s, OnBinary(s, payload), o)
  {
  }

  lemma OnFrameForgets(w: Wire, s: Ctl, frame: Frame, o: nat)
    requires Core(s) && Forgotten(s, o)
    ensures Same(s, OnFrame(w, s, frame), o)
  {
    OnControlForgets(w, s, frame.payload, o);
    OnBinaryForgets(s, frame.payload, o);
  }

  lemma {:induction false} OnFramesForget(w: Wire, s: Ctl, frames: seq<Frame>, o: nat)
    requires Core(s) && !s.closed && (frames == [] || Authenticated(s.chan)) && Forgotten(s, o)
    ensures Same(s, OnFrames(w, s, frames), o) && Core(OnFrames(w, s, frames))
    decreases |frames|
  {
    if frames != [] {
      OnFrameKeeps(w, s, frames[0]);
      OnFrameForgets(w, s, frames[0], o);
      OnFramesForget(w, OnFrame(w, s, frames[0]), frames[1..], o);
    }
  }

  lemma OnCloseForgets(s: Ctl, o: nat)
    requires Core(s) && Forgotten(s, o)
    ensures Same(s, OnClose(s), o)
  {
  }

  lemma HearForgets(w: Wire, cfg: Config, s: Ctl, bytes: seq<byte>, o: nat)
    requires Inv(s) && Forgotten(s, o)
    ensures Same(s, Hear(w, cfg, s, bytes), o)
  {
    var d := Receive(cfg, s.chan, bytes);
    DeliveredStays(cfg, s.chan, bytes);
    var m, frames := s.(chan := d), d.rx.delivered[|s.chan.rx.delivered|..];
    if !s.closed {
      assert Core(m) && Forgotten(m, o);
      OnFramesForget(w, m, frames, o);
      OnCloseForgets(OnFrames(w, m, frames), o);
    }
  }

  lemma BeginForgets(s: Ctl, verb: Verb, o: nat)
    requires Forgotten(s, o)
    ensures Same(s, Begin(s, verb), o)
  {
    var t := Begin(s, verb);
    assert |s.calls| <= |t.calls| && forall k | 0 <= k < |s.calls| :: t.calls[k] == s.calls[k];
    assert forall k | |s.calls| <= k < |t.calls| :: t.calls[k].feed != Some(o);
  }

  lemma WindForgets(s: Ctl, k: CallId, o: nat)
    requires Forgotten(s, o)
    ensures Same(s, Wind(s, k), o)
  {
  }

  /** A call that is settled, or goes out, and nothing about the streams. */
  lemma ResumeShape(w: Wire, cfg: Config, s: Ctl, k: CallId, request: Frame)
    requires Ok(s.chan) && Sealable(cfg)
    ensures var t := Resume(w, cfg, s, k, request);
            && t.streams == s.streams && t.streamsById == s.streamsById && t.subsByRef == s.subsByRef
               && t.stage == s.stage
            && (t.calls == s.calls || exists progress ::
                  Answers(s, k, progress) && t.calls == SetProgress(s, k, progress).calls)
  {
    if k < |s.calls| && s.calls[k].progress.Gated? && (s.stage.Agreed? || s.stage.Broken?) {
      if s.stage.Broken? || Forbidden(w, s, s.calls[k].verb) || s.closed {
        assert Answers(s, k, Rejected);
      } else if SendOutcome(cfg, s.chan, request) == Accepted {
        assert Answers(s, k, InFlight(s.nextId));
      } else {
        assert Answers(s, k, Rejected);
      }
    }
  }

  /** A gated call is rejected, or goes out once capabilities are agreed. */
  predicate Answers(s: Ctl, k: CallId, progress: Progress) {
    k < |s.calls| && s.calls[k].progress.Gated? && (progress.Rejected? || (progress.InFlight? && s.stage.Agreed?))
  }

  lemma ResumeForgets(w: Wire, cfg: Config, s: Ctl, k: CallId, request: Frame, o: nat)
    requires Inv(s) && Sealable(cfg) && Forgotten(s, o)
    ensures Same(s, Resume(w, cfg, s, k, request), o)
  {
    ResumeShape(w, cfg, s, k, request);
  }

  lemma CloseForgets(s: Ctl, o: nat)
    requires Inv(s) && Forgotten(s, o)
    ensures Same(s, CloseChannel(s), o) && Same(s, TimeOut(s), o)
  {
    if s.chan.phase != Closed {
      var m := s.(chan := Shutdown(s.chan));
      OnCloseForgets(m, o);
      OnCloseForgets(m.(timer := false, awaitingAck := false, stage := if s.stage == AwaitAck
                        then Broken else s.stage), o);
    }
  }

  lemma NextForgets(w: Wire, cfg: Config, s: Ctl, e: Event, o: nat)
    requires Inv(s) && Sealable(cfg) && Forgotten(s, o)
    ensures Same(s, Next(w, cfg, s, e), o)
  {
    match e
    case Hears(bytes) => HearForgets(w, cfg, s, bytes, o);
    case Closes => CloseForgets(s, o);
    case TimesOut => CloseForgets(s, o);
    case Begins(verb) => BeginForgets(s, verb, o);
    case Resumes(k, request) => ResumeForgets(w, cfg, s, k, request, o);
    case Winds(k) => WindForgets(s, k, o);
    case _ => StageForgets(w, cfg, s, e, o);
  }

  lemma StageForgets(w: Wire, cfg: Config, s: Ctl, e: Event, o: nat)
    requires Inv(s) && Sealable(cfg) && Forgotten(s, o) && (e.Opens? || e.Greets? || e.GreetFails? || e.Agrees?)
    ensures Same(s, Next(w, cfg, s, e), o)
  {
    var t := Next(w, cfg, s, e);
    assert t.calls == s.calls && t.streamsById == s.streamsById && t.subsByRef == s.subsByRef && t.streams == s.streams;
  }

  /** A forgotten stream neither ends nor hears anything again, whatever happens. */
  lemma {:induction false} ForgottenForGood(w: Wire, cfg: Config, s: Ctl, events: seq<Event>, o: nat)
    requires Inv(s) && Sealable(cfg) && Forgotten(s, o)
    ensures Same(s, Run(w, cfg, s, events), o)
    decreases |events|
  {
    if events != [] {
      NextKeeps(w, cfg, s, events[0]);
      NextForgets(w, cfg, s, events[0], o);
      ForgottenForGood(w, cfg, Next(w, cfg, s, events[0]), events[1..], o);
    }
  }

  // ---- What is not forgotten can end ------------------------------------------------------------

  /** The call whose ack registered the stream under this id. */
  predicate Placed(s: Ctl, i: StreamId) {
    i in s.streamsById && exists k ::
          0 <= k < |s.calls| && Subscribes(s.calls[k], s.streamsById[i]) && s.calls[k].progress == Resolved(i)
  }

  /** A stream is of one subscription, registered under its id, and calls go out only once capabilities are agreed. */
  predicate Traced(s: Ctl) {
    && (forall i | i in s.streamsById :: Placed(s, i))
    && (forall i, j | 0 <= i < j < |s.calls| && s.calls[i].verb.Subscribe? && s.calls[j].verb.Subscribe? ::
          s.calls[i].feed != s.calls[j].feed)
    && (forall k | 0 <= k < |s.calls| && (s.calls[k].progress.InFlight? || s.calls[k].progress.Resolved?) ::
          s.stage.Agreed?)
  }

  /** Calls keep what they are about, and one resolves only from flight. */
  predicate Carries(s: Ctl, t: Ctl) {
    && |t.calls| == |s.calls| && (s.stage.Agreed? ==> t.stage.Agreed?)
    && (forall k | 0 <= k < |s.calls| :: t.calls[k].verb == s.calls[k].verb && t.calls[k].feed == s.calls[k].feed)
    && (forall k | 0 <= k < |s.calls| && (t.calls[k].progress.InFlight? || t.calls[k].progress.Resolved?) ::
          s.calls[k].progress.InFlight? || s.calls[k].progress.Resolved? || t.stage.Agreed?)
    && (forall k | 0 <= k < |s.calls| && s.calls[k].progress.Resolved? :: t.calls[k].progress == s.calls[k].progress)
    && (forall i | i in t.streamsById :: (i in s.streamsById && t.streamsById[i] == s.streamsById[i]) || Placed(t, i))
  }

  lemma CarriesTraced(s: Ctl, t: Ctl)
    requires Traced(s) && Carries(s, t)
    ensures Traced(t)
  {
    forall i | i in t.streamsById ensures Placed(t, i) {
      if i in s.streamsById && t.streamsById[i] == s.streamsById[i] {
        assert Placed(s, i);
        var k :| 0 <= k < |s.calls| && Subscribes(s.calls[k], s.streamsById[i]) && s.calls[k].progress == Resolved(i);
        assert Subscribes(t.calls[k], t.streamsById[i]);
      }
    }
  }

  lemma OnFrameCarries(w: Wire, s: Ctl, frame: Frame)
    requires Core(s)
    ensures Carries(s, OnFrame(w, s, frame))
  {
    if frame.lane == Control { OnControlCarries(w, s, frame.payload); }
  }

  lemma OnControlCarries(w: Wire, s: Ctl, payload: seq<byte>)
    requires Core(s)
    ensures Carries(s, OnControl(w, s, payload))
  {
    if !s.awaitingAck && w.response(payload).Some? && w.response(payload).value.id in s.pending {
      var id, reply := w.response(payload).value.id, w.response(payload).value.reply;
      var k, t := s.pending[id], OnControl(w, s, payload);
      if reply.Success? && s.calls[k].verb.Subscribe? && s.calls[k].feed.Some? {
        assert Subscribes(t.calls[k], s.calls[k].feed.value) && t.calls[k].progress == Resolved(reply.streamId);
        assert Placed(t, reply.streamId);
      }
    }
  }

  lemma {:induction false} OnFramesCarry(w: Wire, s: Ctl, frames: seq<Frame>)
    requires Core(s) && !s.closed && (frames == [] || Authenticated(s.chan)) && Traced(s)
    ensures Traced(OnFrames(w, s, frames))
    decreases |frames|
  {
    if frames != [] {
      OnFrameKeeps(w, s, frames[0]);
      OnFrameCarries(w, s, frames[0]);
      CarriesTraced(s, OnFrame(w, s, frames[0]));
      OnFramesCarry(w, OnFrame(w, s, frames[0]), frames[1..]);
    }
  }

  lemma OnCloseTraced(s: Ctl)
    requires Core(s) && Traced(s)
    ensures Traced(OnClose(s))
  {
    CarriesTraced(s, OnClose(s));
  }

  lemma HearTraced(w: Wire, cfg: Config, s: Ctl, bytes: seq<byte>)
    requires Inv(s) && Traced(s)
    ensures Traced(Hear(w, cfg, s, bytes))
  {
    var d := Receive(cfg, s.chan, bytes);
    DeliveredStays(cfg, s.chan, bytes);
    var m, frames := s.(chan := d), d.rx.delivered[|s.chan.rx.delivered|..];
    if !s.closed {
      assert Core(m) && Traced(m);
      OnFramesKeeps(w, m, frames);
      OnFramesCarry(w, m, frames);
      OnCloseTraced(OnFrames(w, m, frames));
    }
  }

  lemma BeginTraced(s: Ctl, verb: Verb)
    requires Inv(s) && Traced(s)
    ensures Traced(Begin(s, verb))
  {
    var t := Begin(s, verb);
    assert |s.calls| <= |t.calls| && forall k | 0 <= k < |s.calls| :: t.calls[k] == s.calls[k];
    forall i | i in t.streamsById ensures Placed(t, i) {
      assert Placed(s, i);
    }
  }

  lemma NextTraced(w: Wire, cfg: Config, s: Ctl, e: Event)
    requires Inv(s) && Sealable(cfg) && Traced(s)
    ensures Traced(Next(w, cfg, s, e))
  {
    match e
    case Hears(bytes) => HearTraced(w, cfg, s, bytes);
    case Begins(verb) => BeginTraced(s, verb);
    case Resumes(k, request) => ResumeTraced(w, cfg, s, k, request);
    case Closes => CloseTraced(s);
    case TimesOut => CloseTraced(s);
    case Winds(k) => CarriesTraced(s, Wind(s, k));
    case _ => StageTraced(w, cfg, s, e);
  }

  lemma ResumeTraced(w: Wire, cfg: Config, s: Ctl, k: CallId, request: Frame)
    requires Inv(s) && Sealable(cfg) && Traced(s)
    ensures Traced(Resume(w, cfg, s, k, request))
  {
    ResumeShape(w, cfg, s, k, request);
    CarriesTraced(s, Resume(w, cfg, s, k, request));
  }

  lemma CloseTraced(s: Ctl)
    requires Inv(s) && Traced(s)
    ensures Traced(CloseChannel(s)) && Traced(TimeOut(s))
  {
    if s.chan.phase != Closed {
      OnCloseTraced(s.(chan := Shutdown(s.chan)));
      OnCloseTraced(s.(timer := false, awaitingAck := false, stage := if s.stage == AwaitAck then Broken else s.stage,
                       chan := Shutdown(s.chan)));
    }
  }

  lemma StageTraced(w: Wire, cfg: Config, s: Ctl, e: Event)
    requires Inv(s) && Sealable(cfg) && Traced(s) && (e.Opens? || e.Greets? || e.GreetFails? || e.Agrees?)
    ensures Traced(Next(w, cfg, s, e))
  {
    var t := Next(w, cfg, s, e);
    assert t.calls == s.calls && t.streamsById == s.streamsById && (s.stage.Agreed? ==> t.stage == s.stage);
  }

  lemma {:induction false} RunTraced(w: Wire, cfg: Config, s: Ctl, events: seq<Event>)
    requires Inv(s) && Sealable(cfg) && Traced(s)
    ensures Inv(Run(w, cfg, s, events)) && Traced(Run(w, cfg, s, events))
    decreases |events|
  {
    if events != [] {
      NextKeeps(w, cfg, s, events[0]);
      NextTraced(w, cfg, s, events[0]);
      RunTraced(w, cfg, Next(w, cfg, s, events[0]), events[1..]);
    }
  }

  lemma Run1(w: Wire, cfg: Config, s: Ctl, e: Event)
    requires Inv(s) && Sealable(cfg)
    ensures Inv(Next(w, cfg, s, e)) && Run(w, cfg, s, [e]) == Next(w, cfg, s, e)
  {
    NextKeeps(w, cfg, s, e);
    var t := Next(w, cfg, s, e);
    assert [e][1..] == [] && Run(w, cfg, t, []) == t;
  }

  /** Closing leaves an unsubscribe rejected, or gated still; resumed, it is rejected; wound, it ends its stream. */
  lemma LeavingCloses(s: Ctl, k: CallId, o: nat)
    requires Inv(s) && k < |s.calls| && Unsubscribes(s.calls[k], o)
    ensures var t := CloseChannel(s);
            t.closed && t.stage.Agreed? == s.stage.Agreed? && k < |t.calls| && Unsubscribes(t.calls[k], o)
            && !t.calls[k].progress.InFlight?
  {
  }

  lemma LeavingSettles(w: Wire, cfg: Config, s: Ctl, k: CallId, o: nat, request: Frame)
    requires Inv(s) && Sealable(cfg) && s.closed && s.stage.Agreed? && k < |s.calls| && Unsubscribes(s.calls[k], o)
    requires !s.calls[k].progress.InFlight?
    ensures var t := Resume(w, cfg, s, k, request);
            k < |t.calls| && Unsubscribes(t.calls[k], o) && Settled(t.calls[k].progress)
  {
  }

  lemma LeavingWinds(s: Ctl, k: CallId, o: nat)
    requires Inv(s) && k < |s.calls| && Unsubscribes(s.calls[k], o) && Settled(s.calls[k].progress)
    ensures Ended(Wind(s, k), o)
  {
  }

  lemma LeavingEnds(w: Wire, cfg: Config, s: Ctl, k: CallId, o: nat) returns (events: seq<Event>)
    requires Inv(s) && Sealable(cfg) && s.stage.Agreed? && k < |s.calls| && Unsubscribes(s.calls[k], o)
    ensures Ended(Run(w, cfg, s, events), o)
  {
    Run1(w, cfg, s, Closes);
    LeavingCloses(s, k, o);
    var rest := ClosedEnds(w, cfg, CloseChannel(s), k, o);
    RunConcat(w, cfg, s, [Closes], rest);
    events := [Closes] + rest;
  }

  lemma ClosedEnds(w: Wire, cfg: Config, s: Ctl, k: CallId, o: nat) returns (events: seq<Event>)
    requires Inv(s) && Sealable(cfg) && s.closed && s.stage.Agreed? && k < |s.calls| && Unsubscribes(s.calls[k], o)
    requires !s.calls[k].progress.InFlight?
    ensures Ended(Run(w, cfg, s, events), o)
  {
    var e := Resumes(k, Frame(Control, []));
    Run1(w, cfg, s, e);
    LeavingSettles(w, cfg, s, k, o, e.request);
    var t := Next(w, cfg, s, e);
    Run1(w, cfg, t, Winds(k));
    LeavingWinds(t, k, o);
    RunConcat(w, cfg, s, [e], [Winds(k)]);
    events := [e] + [Winds(k)];
  }

  lemma RegisteredEnds(w: Wire, cfg: Config, s: Ctl, o: nat)
    requires Inv(s) && Sealable(cfg) && Registered(s, o)
    ensures Ended(Run(w, cfg, s, [Closes]), o)
  {
    Run1(w, cfg, s, Closes);
  }

  lemma HeldEnds(w: Wire, cfg: Config, s: Ctl, o: nat) returns (events: seq<Event>)
    requires Inv(s) && Sealable(cfg) && s.stage.Agreed? && Held(s, o)
    ensures Ended(Run(w, cfg, s, events), o)
  {
    var ref :| ref in s.subsByRef && s.subsByRef[ref].1 == o;
    var e := Begins(Unsubscribe(ref));
    Run1(w, cfg, s, e);
    var t := Next(w, cfg, s, e);
    var rest := LeavingEnds(w, cfg, t, |s.calls|, o);
    RunConcat(w, cfg, s, [e], rest);
    events := [e] + rest;
  }

  /** Not forgotten: ended, registered, held or leaving. */
  lemma Remembered(s: Ctl, o: nat)
    requires Inv(s) && Traced(s) && HandedOut(s, o) && !Forgotten(s, o)
    ensures Ended(s, o) || Registered(s, o) || Held(s, o) || Leaving(s, o)
  {
    var k :| 0 <= k < |s.calls| && Subscribes(s.calls[k], o) && s.calls[k].progress.Resolved?;
    forall j | 0 <= j < |s.calls| && Subscribes(s.calls[j], o) ensures Settled(s.calls[j].progress) {
      assert j == k;
    }
  }

  /** Some continuation ends it. */
  ghost predicate MayEnd(w: Wire, cfg: Config, s: Ctl, o: nat)
    requires Inv(s) && Sealable(cfg)
  {
    exists events :: Ended(Run(w, cfg, s, events), o)
  }

  lemma CanEnd(w: Wire, cfg: Config, s: Ctl, o: nat)
    requires Inv(s) && Sealable(cfg) && Traced(s) && HandedOut(s, o) && !Forgotten(s, o)
    ensures MayEnd(w, cfg, s, o)
  {
    Remembered(s, o);
    var events := [];
    if Ended(s, o) {
    } else if Registered(s, o) {
      RegisteredEnds(w, cfg, s, o);
      events := [Closes];
    } else if Held(s, o) {
      events := HeldEnds(w, cfg, s, o);
    } else {
      var k :| 0 <= k < |s.calls| && Unsubscribes(s.calls[k], o);
      events := LeavingEnds(w, cfg, s, k, o);
    }
    assert Ended(Run(w, cfg, s, events), o);
  }

  lemma CannotEnd(w: Wire, cfg: Config, s: Ctl, o: nat)
    requires Inv(s) && Sealable(cfg) && Forgotten(s, o)
    ensures !MayEnd(w, cfg, s, o)
  {
    forall events ensures !Ended(Run(w, cfg, s, events), o) {
      ForgottenForGood(w, cfg, s, events, o);
    }
  }

  /**
   * In every state a run leads to: a stream that was handed out can still end, or has, exactly when it is not
   * forgotten.
   */
  lemma EndsExactly(w: Wire, cfg: Config, before: seq<Event>, o: nat)
    requires Sealable(cfg)
    ensures Inv(NewController()) && Inv(Run(w, cfg, NewController(), before))
    ensures var s := Run(w, cfg, NewController(), before);
            HandedOut(s, o) ==> (MayEnd(w, cfg, s, o) <==> !Forgotten(s, o))
  {
    RunTraced(w, cfg, NewController(), before);
    var s := Run(w, cfg, NewController(), before);
    if Forgotten(s, o) {
      CannotEnd(w, cfg, s, o);
    } else if HandedOut(s, o) {
      CanEnd(w, cfg, s, o);
    }
  }

  // ---- How a stream is forgotten ----------------------------------------------------------------

  /** An ack of a subscription, under a stream id that a registered stream has. */
  predicate Reuses(w: Wire, s: Ctl, frame: Frame) {
    && frame.lane == Control && !s.awaitingAck && w.response(frame.payload).Some?
    && var r := w.response(frame.payload).value;
       && r.id in s.pending && r.reply.Success? && r.reply.streamId in s.streamsById
       && s.pending[r.id] < |s.calls| && s.calls[s.pending[r.id]].verb.Subscribe? && s.calls[s.pending[r.id]].feed.Some?
  }

  predicate AllNew(w: Wire, s: Ctl, frames: seq<Frame>)
    decreases |frames|
  {
    frames != [] ==> !Reuses(w, s, frames[0]) && AllNew(w, OnFrame(w, s, frames[0]), frames[1..])
  }

  /** No subscription acked in this chunk is under the stream id of one that is registered. */
  predicate NewAt(w: Wire, cfg: Config, s: Ctl, bytes: seq<byte>)
    requires Ok(s.chan)
  {
    var d := Receive(cfg, s.chan, bytes);
    s.closed || (|s.chan.rx.delivered| <= |d.rx.delivered|
                 && AllNew(w, s.(chan := d), d.rx.delivered[|s.chan.rx.delivered|..]))
  }

  /** Nor in any chunk of the run. */
  ghost predicate NewIds(w: Wire, cfg: Config, s: Ctl, events: seq<Event>)
    requires Inv(s) && Sealable(cfg)
    decreases |events|
  {
    events != [] ==>
      && (events[0].Hears? ==> NewAt(w, cfg, s, events[0].bytes))
      && Inv(Next(w, cfg, s, events[0])) && NewIds(w, cfg, Next(w, cfg, s, events[0]), events[1..])
  }

  predicate Cared(s: Ctl, o: nat) {
    Ended(s, o) || Registered(s, o) || Leaving(s, o)
  }

  predicate AllCared(s: Ctl) {
    forall k | 0 <= k < |s.calls| && s.calls[k].verb.Subscribe? && s.calls[k].feed.Some?
        && s.calls[k].progress.Resolved? ::
      Cared(s, s.calls[k].feed.value)
  }

  predicate OwnIds(s: Ctl) {
    && (forall ref | ref in s.subsByRef ::
          s.subsByRef[ref].0 in s.streamsById && s.streamsById[s.subsByRef[ref].0] == s.subsByRef[ref].1)
    && (forall a, b | a in s.subsByRef && b in s.subsByRef && a != b :: s.subsByRef[a].0 != s.subsByRef[b].0)
  }

  /**
   * Every stream handed out is registered, leaving or ended; a session's subscription is registered under an id
   * of its own.
   */
  predicate Attached(s: Ctl) {
    AllCared(s) && OwnIds(s)
  }

  lemma LeavingStays(s: Ctl, t: Ctl)
    requires |s.calls| <= |t.calls|
    requires forall k | 0 <= k < |s.calls| :: t.calls[k].verb == s.calls[k].verb && t.calls[k].feed == s.calls[k].feed
    ensures forall o | Leaving(s, o) :: Leaving(t, o)
  {
    forall o | Leaving(s, o) ensures Leaving(t, o) {
      var i :| 0 <= i < |s.calls| && Unsubscribes(s.calls[i], o);
      assert Unsubscribes(t.calls[i], o);
    }
  }

  lemma SettleAttached(s: Ctl, k: CallId, progress: Progress)
    requires Attached(s) && !progress.Resolved?
    ensures Attached(SetProgress(s, k, progress))
  {
    var t := SetProgress(s, k, progress);
    LeavingStays(s, t);
    forall o | Cared(s, o) ensures Cared(t, o) {
    }
    forall i | 0 <= i < |t.calls| && t.calls[i].progress.Resolved? ensures t.calls[i] == s.calls[i] {
    }
  }

  lemma SucceedCares(s: Ctl, k: CallId, streamId: StreamId)
    requires k < |s.calls| && (s.calls[k].verb.Subscribe? && s.calls[k].feed.Some? ==> streamId !in s.streamsById)
    ensures forall o | Cared(s, o) :: Cared(Succeed(s, k, streamId), o)
  {
    var t := Succeed(s, k, streamId);
    LeavingStays(s, t);
    forall o | Registered(s, o) ensures Registered(t, o) {
      var i :| i in s.streamsById && s.streamsById[i] == o;
      assert i in t.streamsById && t.streamsById[i] == o;
    }
  }

  lemma SucceedAttached(s: Ctl, k: CallId, streamId: StreamId)
    requires Attached(s) && k < |s.calls|
    requires s.calls[k].verb.Subscribe? && s.calls[k].feed.Some? ==> streamId !in s.streamsById
    ensures Attached(Succeed(s, k, streamId))
  {
    var call, t := s.calls[k], Succeed(s, k, streamId);
    SucceedCares(s, k, streamId);
    SucceedIds(s, k, streamId);
    assert forall i | 0 <= i < |s.calls| && i != k :: t.calls[i] == s.calls[i];
    if call.verb.Subscribe? && call.feed.Some? {
      assert t.streamsById[streamId] == call.feed.value;
      assert Registered(t, call.feed.value);
    }
  }

  lemma SucceedIds(s: Ctl, k: CallId, streamId: StreamId)
    requires OwnIds(s) && k < |s.calls|
    requires s.calls[k].verb.Subscribe? && s.calls[k].feed.Some? ==> streamId !in s.streamsById
    ensures OwnIds(Succeed(s, k, streamId))
  {
  }

  lemma OnControlAttached(w: Wire, s: Ctl, payload: seq<byte>)
    requires Core(s) && Attached(s) && !Reuses(w, s, Frame(Control, payload))
    ensures Attached(OnControl(w, s, payload))
  {
    if !s.awaitingAck && w.response(payload).Some? && w.response(payload).value.id in s.pending {
      var id, reply := w.response(payload).value.id, w.response(payload).value.reply;
      var t := s.(pending := s.pending - {id});
      assert Attached(t);
      if reply.Success? {
        SucceedAttached(t, s.pending[id], reply.streamId);
      } else {
        SettleAttached(t, s.pending[id], Rejected);
      }
    }
  }

  lemma StreamAttached(s: Ctl, o: nat, stream: PtyEvents.Stream)
    requires Attached(s) && (Ended(s, o) ==> stream.ended)
    ensures Attached(SetStream(s, o, stream))
  {
    var t := SetStream(s, o, stream);
    assert forall i | Cared(s, i) :: Cared(t, i);
  }

  lemma OnFrameAttached(w: Wire, s: Ctl, frame: Frame)
    requires Core(s) && Attached(s) && !Reuses(w, s, frame)
    ensures Attached(OnFrame(w, s, frame))
  {
    if frame.lane == Control {
      assert frame == Frame(Control, frame.payload);
      OnControlAttached(w, s, frame.payload);
    } else if DecodePtyFrame(frame.payload).Some? {
      var f := DecodePtyFrame(frame.payload).value;
      if f.streamId in s.streamsById && s.streamsById[f.streamId] < |s.streams| {
        var o := s.streamsById[f.streamId];
        PtyEvents.IngestPushes(s.streams[o], f);
        StreamAttached(s, o, PtyEvents.Ingest(s.streams[o], f));
      }
    }
  }

  lemma {:induction false} OnFramesAttached(w: Wire, s: Ctl, frames: seq<Frame>)
    requires Core(s) && !s.closed && (frames == [] || Authenticated(s.chan)) && Attached(s) && AllNew(w, s, frames)
    ensures Attached(OnFrames(w, s, frames))
    decreases |frames|
  {
    if frames != [] {
      OnFrameKeeps(w, s, frames[0]);
      OnFrameAttached(w, s, frames[0]);
      OnFramesAttached(w, OnFrame(w, s, frames[0]), frames[1..]);
    }
  }

  lemma OnCloseAttached(s: Ctl)
    requires Core(s) && Attached(s)
    ensures Attached(OnClose(s))
  {
    var t := OnClose(s);
    LeavingStays(s, t);
    assert forall o | Ended(s, o) || Registered(s, o) :: Ended(t, o) || s.closed;
  }

  lemma HearAttached(w: Wire, cfg: Config, s: Ctl, bytes: seq<byte>)
    requires Inv(s) && Attached(s) && NewAt(w, cfg, s, bytes)
    ensures Attached(Hear(w, cfg, s, bytes))
  {
    var d := Receive(cfg, s.chan, bytes);
    DeliveredStays(cfg, s.chan, bytes);
    if s.closed {
      assert s.(chan := d) == s;
    } else {
      ChunkAttached(w, s.(chan := d), d.rx.delivered[|s.chan.rx.delivered|..]);
    }
  }

  lemma ChunkAttached(w: Wire, s: Ctl, frames: seq<Frame>)
    requires Core(s) && !s.closed && (frames == [] || Authenticated(s.chan)) && Attached(s) && AllNew(w, s, frames)
    ensures Attached(OnFrames(w, s, frames)) && Attached(OnClose(OnFrames(w, s, frames)))
  {
    OnFramesKeeps(w, s, frames);
    OnFramesAttached(w, s, frames);
    OnCloseAttached(OnFrames(w, s, frames));
  }

  lemma BeginAttached(s: Ctl, verb: Verb)
    requires Inv(s) && Attached(s)
    ensures Attached(Begin(s, verb))
  {
    var t := Begin(s, verb);
    assert |s.calls| <= |t.calls| && forall k | 0 <= k < |s.calls| :: t.calls[k] == s.calls[k];
    forall o | Cared(s, o) ensures Cared(t, o) {
      if Leaving(s, o) {
        var i :| 0 <= i < |s.calls| && Unsubscribes(s.calls[i], o);
        assert Unsubscribes(t.calls[i], o);
      } else if Registered(s, o) {
        var i :| i in s.streamsById && s.streamsById[i] == o;
        if i in t.streamsById {
          assert t.streamsById[i] == o;
        } else {
          assert Unsubscribes(t.calls[|s.calls|], o);
        }
      }
    }
  }

  lemma WindAttached(s: Ctl, k: CallId)
    requires Attached(s)
    ensures Attached(Wind(s, k))
  {
    if k < |s.calls| && s.calls[k].feed.Some? && s.calls[k].feed.value < |s.streams| {
      StreamAttached(s, s.calls[k].feed.value, PtyEvents.End(s.streams[s.calls[k].feed.value]));
    }
  }

  lemma ResumeAttached(w: Wire, cfg: Config, s: Ctl, k: CallId, request: Frame)
    requires Inv(s) && Sealable(cfg) && Attached(s)
    ensures Attached(Resume(w, cfg, s, k, request))
  {
    ResumeShape(w, cfg, s, k, request);
    var t := Resume(w, cfg, s, k, request);
    LeavingStays(s, t);
  }

  lemma CloseAttached(s: Ctl)
    requires Inv(s) && Attached(s)
    ensures Attached(CloseChannel(s))
  {
    if s.chan.phase != Closed {
      var m := s.(chan := Shutdown(s.chan));
      OnCloseAttached(m);
    }
  }

  lemma TimeOutAttached(s: Ctl)
    requires Inv(s) && Attached(s)
    ensures Attached(TimeOut(s))
  {
    if s.timer && s.chan.phase != Closed {
      OnCloseAttached(s.(timer := false, awaitingAck := false, stage := if s.stage == AwaitAck
                         then Broken else s.stage, chan := Shutdown(s.chan)));
    }
  }

  lemma NextAttached(w: Wire, cfg: Config, s: Ctl, e: Event)
    requires Inv(s) && Sealable(cfg) && Attached(s) && (e.Hears? ==> NewAt(w, cfg, s, e.bytes))
    ensures Attached(Next(w, cfg, s, e))
  {
    match e
    case Hears(bytes) => HearAttached(w, cfg, s, bytes);
    case Closes => CloseAttached(s);
    case TimesOut => TimeOutAttached(s);
    case Begins(verb) => BeginAttached(s, verb);
    case Resumes(k, request) => ResumeAttached(w, cfg, s, k, request);
    case Winds(k) => WindAttached(s, k);
    case _ => StageAttached(w, cfg, s, e);
  }

  lemma StageAttached(w: Wire, cfg: Config, s: Ctl, e: Event)
    requires Inv(s) && Sealable(cfg) && Attached(s) && (e.Opens? || e.Greets? || e.GreetFails? || e.Agrees?)
    ensures Attached(Next(w, cfg, s, e))
  {
    var t := Next(w, cfg, s, e);
    assert t.calls == s.calls && t.streamsById == s.streamsById && t.subsByRef == s.subsByRef && t.streams == s.streams;
    assert forall o | Cared(s, o) :: Cared(t, o);
  }

  lemma {:induction false} RunAttached(w: Wire, cfg: Config, s: Ctl, events: seq<Event>)
    requires Inv(s) && Sealable(cfg) && Attached(s) && NewIds(w, cfg, s, events)
    ensures Attached(Run(w, cfg, s, events)) && Inv(Run(w, cfg, s, events))
    decreases |events|
  {
    if events != [] {
      NextAttached(w, cfg, s, events[0]);
      RunAttached(w, cfg, Next(w, cfg, s, events[0]), events[1..]);
    }
  }

  /**
   * As long as the host acks no subscription under the stream id of another one that is registered, no
   * stream handed out is ever forgotten: once closed each has ended, or ends with the unsubscribe about it.
   */
  lemma ClosingEndsAll(w: Wire, cfg: Config, events: seq<Event>, o: nat)
    requires Sealable(cfg)
    ensures Inv(NewController())
    ensures var s := Run(w, cfg, NewController(), events);
            NewIds(w, cfg, NewController(), events) && HandedOut(s, o) ==>
              !Forgotten(s, o) && (s.closed ==> Ended(s, o) || Leaving(s, o))
  {
    if NewIds(w, cfg, NewController(), events) {
      RunAttached(w, cfg, NewController(), events);
    }
  }

  /** A stream is registered under one id. */
  lemma OneId(s: Ctl, i: StreamId, j: StreamId)
    requires Traced(s) && i in s.streamsById && j in s.streamsById && s.streamsById[i] == s.streamsById[j]
    ensures i == j && HandedOut(s, s.streamsById[i])
  {
    assert Placed(s, i) && Placed(s, j);
    var h :| 0 <= h < |s.calls| && Subscribes(s.calls[h], s.streamsById[i]) && s.calls[h].progress == Resolved(i);
    var k :| 0 <= k < |s.calls| && Subscribes(s.calls[k], s.streamsById[j]) && s.calls[k].progress == Resolved(j);
    assert h == k;
  }

  lemma CloseForgetsIt(t: Ctl, o: nat)
    requires o < |t.streams| && !t.closed && !t.streams[o].ended && !Registered(t, o) && !Leaving(t, o)
    requires forall k | 0 <= k < |t.calls| && Subscribes(t.calls[k], o) :: Settled(t.calls[k].progress)
    ensures Forgotten(OnClose(t), o)
  {
    var u := OnClose(t);
    LeavingStays(u, t);
  }

  /** Its subscription's call has resolved, and the call acked is another. */
  lemma OwnCall(s: Ctl, o: nat, k: CallId)
    requires Traced(s) && HandedOut(s, o) && k < |s.calls| && s.calls[k].progress.InFlight?
    ensures !Subscribes(s.calls[k], o)
    ensures forall j | 0 <= j < |s.calls| && Subscribes(s.calls[j], o) :: s.calls[j].progress.Resolved?
  {
    var h :| 0 <= h < |s.calls| && Subscribes(s.calls[h], o) && s.calls[h].progress.Resolved?;
    forall j | 0 <= j < |s.calls| && Subscribes(s.calls[j], o) ensures s.calls[j].progress.Resolved? {
      assert j == h;
    }
  }

  /**
   * An ack under the id of a registered stream, which lives and is not leaving: when the controller closes
   * next, that stream is forgotten.
   */
  lemma ReuseForgets(w: Wire, s: Ctl, ack: Frame, streamId: StreamId)
    requires Core(s) && Traced(s) && !s.closed && Reuses(w, s, ack)
             && w.response(ack.payload).value.reply.streamId == streamId
    requires !Ended(s, s.streamsById[streamId]) && !Leaving(s, s.streamsById[streamId])
    ensures HandedOut(s, s.streamsById[streamId]) && Forgotten(OnClose(OnFrame(w, s, ack)), s.streamsById[streamId])
  {
    var k, o, t := s.pending[w.response(ack.payload).value.id], s.streamsById[streamId], OnFrame(w, s, ack);
    OneId(s, streamId, streamId);
    OwnCall(s, o, k);
    OnFrameKept(w, s, ack);
    forall i | i in t.streamsById ensures t.streamsById[i] != o {
      if i != streamId && s.streamsById[i] == o {
        OneId(s, i, streamId);
      }
    }
    LeavingStays(t, s);
    CloseForgetsIt(t, o);
  }

  lemma OnFrameKept(w: Wire, s: Ctl, ack: Frame)
    requires Core(s) && Reuses(w, s, ack)
    ensures var t, k := OnFrame(w, s, ack), s.pending[w.response(ack.payload).value.id];
            && t.streams == s.streams && Carries(s, t) && t.closed == s.closed && Settled(t.calls[k].progress)
            && t.streamsById == s.streamsById[w.response(ack.payload).value.reply.streamId := s.calls[k].feed.value]
            && (forall i | 0 <= i < |s.calls| && i != k :: t.calls[i] == s.calls[i])
  {
    OnFrameCarries(w, s, ack);
  }
}

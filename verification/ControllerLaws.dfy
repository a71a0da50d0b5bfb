/** A controller, event by event. */
module ControllerLaws {
  // Event by event: what is sent and when, which call settles and how, and what stays as it was, all on the fields of
  // the state.

  import opened Bytes
  import opened Frames
  import opened Channels
  import opened PtyFrames
  import opened Controllers
  import ChannelSends
  import PtyEvents

  // ---- Calls ------------------------------------------------------------------------------------

  /** One call's progress; its verb and stream, and every other call, as they were. */
  predicate Moved(calls: seq<Call>, after: seq<Call>, k: CallId, progress: Progress) {
    && |after| == |calls| && k < |calls|
    && after[k].progress == progress && after[k].verb == calls[k].verb && after[k].feed == calls[k].feed
    && forall i | 0 <= i < |calls| && i != k :: after[i] == calls[i]
  }

  /** What the call needs is among the capabilities agreed. */
  predicate MayAsk(w: Wire, s: Ctl, verb: Verb) {
    s.stage.Agreed? && (w.needs(verb).None? || w.needs(verb).value in s.stage.capabilities)
  }

  /** A request under the next id, behind all that was said. */
  predicate Asks(s: Ctl, t: Ctl, k: CallId) {
    && t.said == s.said + [Request(s.nextId, k)]
    && t.pending == s.pending[s.nextId := k] && t.nextId == s.nextId + 1
    && |t.chan.sealed| == |s.chan.sealed| + 1
  }

  /**
   * A gated call waits for the handshake, and then goes out as a request exactly when the host agreed to what it
   * needs, the controller is not closed and the channel takes the frame; else it is rejected and nothing is written.
   */
  lemma ResumeLaw(w: Wire, cfg: Config, s: Ctl, k: CallId, frame: Frame)
    requires Inv(s) && Sealable(cfg)
    ensures var t := Resume(w, cfg, s, k, frame);
            if k >= |s.calls| || !s.calls[k].progress.Gated? || !(s.stage.Agreed? || s.stage.Broken?) then t == s
            else if MayAsk(w, s, s.calls[k].verb) && !s.closed && ChannelSends.MaySend(cfg.role, s.chan, frame)
            then && Asks(s, t, k) && Moved(s.calls, t.calls, k, InFlight(s.nextId))
                 && t.chan == Send(cfg, s.chan, frame) && t.chan.sealed[|s.chan.sealed|].frame == frame
                 && t == s.(said := t.said, pending := t.pending, nextId := t.nextId, chan := t.chan, calls := t.calls)
            else Moved(s.calls, t.calls, k, Rejected) && t == s.(calls := t.calls, nextId := t.nextId)
  {
    ChannelSends.RefusalLaw(cfg, s.chan, frame);
    if k < |s.calls| && s.calls[k].progress.Gated? && MayAsk(w, s, s.calls[k].verb) && !s.closed
       && ChannelSends.MaySend(cfg.role, s.chan, frame) {
      SayFits(cfg, s, frame);
      ChannelSends.SendLaw(cfg, s.chan, frame);
    }
  }

  /**
   * A new call waits for the handshake, or is rejected at once when the controller is closed. To subscribe makes a
   * stream; to unsubscribe forgets the session's subscription, and is no call at all without one.
   */
  lemma BeginLaw(s: Ctl, verb: Verb)
    ensures var t := Begin(s, verb);
            if verb.Unsubscribe? && verb.ref !in s.subsByRef then t == s
            else && |t.calls| == |s.calls| + 1 && t.calls[..|s.calls|] == s.calls
                 && var call := t.calls[|s.calls|];
                    && call.verb == verb && (if s.closed then call.progress == Rejected else call.progress == Gated)
                    && (call.feed.None? <==> verb.Plain?)
                    && (verb.Subscribe? ==> call.feed == Some(|s.streams|)
                                            && t == s.(calls := t.calls, streams := s.streams
                                                         + [PtyEvents.NewStream()]))
                    && (verb.Plain? ==> t == s.(calls := t.calls))
                    && (verb.Unsubscribe? ==>
                          && call.feed == Some(s.subsByRef[verb.ref].1)
                          && verb.ref !in t.subsByRef && s.subsByRef[verb.ref].0 !in t.streamsById
                          && t == s.(calls := t.calls, subsByRef := s.subsByRef - {verb.ref},
                                     streamsById := s.streamsById - {s.subsByRef[verb.ref].0}))
  {
  }

  /** What a reply comes to for its call. */
  predicate Answers(reply: Reply, progress: Progress) {
    if reply.Success? then progress == Resolved(reply.streamId) else progress == Rejected
  }

  /**
   * A response settles the call it is for, and no other, as resolved when it carries a valid result and else as
   * rejected; a subscription is then registered under its stream and its session. A response to no call in flight,
   * or what is none, changes nothing.
   */
  lemma ResponseLaw(w: Wire, s: Ctl, payload: seq<byte>)
    requires Core(s) && !s.awaitingAck
    ensures var t, r := OnControl(w, s, payload), w.response(payload);
            if r.None? || r.value.id !in s.pending then t == s
            else && (exists progress :: Answers(r.value.reply, progress)
                                        && Moved(s.calls, t.calls, s.pending[r.value.id], progress))
                 && t.pending == s.pending - {r.value.id}
                 && t == s.(calls := t.calls, pending := t.pending, streamsById := t.streamsById,
                            subsByRef := t.subsByRef)
                 && var call, reply := s.calls[s.pending[r.value.id]], r.value.reply;
                    if call.verb.Subscribe? && call.feed.Some? && reply.Success?
                    then t.streamsById == s.streamsById[reply.streamId := call.feed.value]
                         && t.subsByRef == s.subsByRef[call.verb.ref := (reply.streamId, call.feed.value)]
                    else t.streamsById == s.streamsById && t.subsByRef == s.subsByRef
  {
    var r := w.response(payload);
    if r.Some? && r.value.id in s.pending {
      var progress := if r.value.reply.Success? then Resolved(r.value.reply.streamId) else Rejected;
      assert Answers(r.value.reply, progress);
      assert Moved(s.calls, OnControl(w, s, payload).calls, s.pending[r.value.id], progress);
    }
  }

  // ---- The handshake ----------------------------------------------------------------------------

  /** The hello goes out once the channel is ready, if the channel takes it; else the handshake is broken. */
  lemma HelloLaw(cfg: Config, s: Ctl, frame: Frame)
    requires Inv(s) && Sealable(cfg)
    ensures var t := SayHello(cfg, s, frame);
            if s.stage != AwaitReady || s.chan.phase == Handshaking then t == s
            else if ChannelSends.MaySend(cfg.role, s.chan, frame)
            then && t.said == [Hello] && t.stage == AwaitAck && t.awaitingAck && t.timer
                 && t.chan == Send(cfg, s.chan, frame) && |t.chan.sealed| == 1 && t.chan.sealed[0].frame == frame
                 && t == s.(said := t.said, stage := AwaitAck, awaitingAck := true, timer := true, chan := t.chan)
            else t == s.(stage := Broken)
    ensures FailHello(s) == if s.stage == AwaitReady then s.(stage := Broken) else s
  {
    ChannelSends.RefusalLaw(cfg, s.chan, frame);
    if ChannelSends.MaySend(cfg.role, s.chan, frame) {
      SayFits(cfg, s, frame);
      ChannelSends.SendLaw(cfg, s.chan, frame);
    }
  }

  /** The first control frame behind the hello is its ack, or breaks the handshake; either way it stops the timer. */
  lemma AckLaw(w: Wire, s: Ctl, payload: seq<byte>)
    requires s.awaitingAck
    ensures var t := OnControl(w, s, payload);
            && t == s.(awaitingAck := false, timer := false, stage := t.stage)
            && (t.stage == Broken <==> w.ack(payload).None?)
            && (w.ack(payload).Some? ==> t.stage.HasAck? && t.stage.ack == w.ack(payload).value)
  {
  }

  /** Agreement is on what a compatible host's ack has, and on nothing with another's. */
  lemma AgreeLaw(s: Ctl)
    ensures var t := Agree(s);
            && t == s.(stage := t.stage)
            && (!s.stage.HasAck? ==> t == s)
            && (s.stage.HasAck? ==>
                  (t.stage.Agreed? <==> s.stage.ack.compatible) && (t.stage.Agreed? || t.stage.Broken?)
                                    && (t.stage.Agreed? ==> t.stage.capabilities == s.stage.ack.capabilities))
  {
  }

  // ---- Closing ----------------------------------------------------------------------------------

  /** Every call in flight is rejected, every registered stream ended; the rest is as it was. */
  predicate Shuts(s: Ctl, t: Ctl) {
    && t.closed && !t.timer && !t.awaitingAck && t.pending == map[] && t.streamsById == map[] && t.subsByRef == map[]
    && |t.calls| == |s.calls| && |t.streams| == |s.streams| && t.said == s.said && t.nextId == s.nextId
    && (forall k | 0 <= k < |s.calls| ::
          if s.calls[k].progress.InFlight? then Moved([s.calls[k]], [t.calls[k]], 0, Rejected)
          else t.calls[k] == s.calls[k])
    && (forall o | 0 <= o < |s.streams| ::
          if exists i :: i in s.streamsById && s.streamsById[i] == o then Finished(s.streams[o], t.streams[o])
          else t.streams[o] == s.streams[o])
  }

  /** An ended stream: its waiting calls done, what is queued still to be read. */
  predicate Finished(before: PtyEvents.Stream, after: PtyEvents.Stream) {
    && after.ended && (before.ended ==> after == before)
    && (!before.ended ==> after == before.(ended := true, pullers := [], settled := after.settled))
    && (!before.ended ==>
          && after.settled.Keys == before.settled.Keys + set i | i in before.pullers
          && forall i | i in after.settled ::
               if i in before.pullers then after.settled[i] == PtyEvents.Done
               else i in before.settled && after.settled[i] == before.settled[i])
  }

  /** The owner's close and the timer's both close the channel and the controller; the timer breaks the handshake. */
  lemma CloseLaw(s: Ctl)
    requires Inv(s)
    ensures var t := CloseChannel(s);
            if s.closed then t == s
            else && Shuts(s, t) && t.chan == s.chan.(phase := Closed, keys := None)
                 && t.stage == if s.awaitingAck then Broken else s.stage
    ensures var t := TimeOut(s);
            if !s.timer then t == s
            else if s.closed then t == s.(timer := false, awaitingAck := false, stage := Broken)
            else Shuts(s, t) && t.chan == s.chan.(phase := Closed, keys := None) && t.stage == Broken
  {
    if !s.closed {
      ShutsLaw(s.(chan := Shutdown(s.chan)));
      if s.timer {
        ShutsLaw(s.(timer := false, awaitingAck := false, stage := Broken, chan := Shutdown(s.chan)));
      }
    }
  }

  lemma ShutsLaw(s: Ctl)
    requires !s.closed
    ensures Shuts(s, OnClose(s))
  {
    var t := OnClose(s);
    forall o | 0 <= o < |s.streams|
      ensures if exists i :: i in s.streamsById && s.streamsById[i] == o then Finished(s.streams[o], t.streams[o])
              else t.streams[o] == s.streams[o]
    {
    }
  }

  /** An unsubscribe that has settled ends its stream, whichever way it settled; nothing else does. */
  lemma WindLaw(s: Ctl, k: CallId)
    requires Feeds(s)
    ensures var t := Wind(s, k);
            if k < |s.calls| && s.calls[k].verb.Unsubscribe? && s.calls[k].feed.Some?
               && Settled(s.calls[k].progress)
            then var o := s.calls[k].feed.value;
                 && |t.streams| == |s.streams| && Finished(s.streams[o], t.streams[o])
                 && t == s.(streams := s.streams[o := t.streams[o]])
            else t == s
  {
  }

  // ---- Frames -----------------------------------------------------------------------------------

  /** A binary frame for a registered id is that stream's, and no other stream's; any other is nobody's. */
  lemma BinaryLaw(s: Ctl, payload: seq<byte>)
    requires Feeds(s)
    ensures var t, f := OnBinary(s, payload), DecodePtyFrame(payload);
            if f.Some? && f.value.streamId in s.streamsById
            then var o := s.streamsById[f.value.streamId];
                 t == s.(streams := s.streams[o := PtyEvents.Ingest(s.streams[o], f.value)])
            else t == s
  {
  }
}

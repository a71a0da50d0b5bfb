/**
 * The controller as the class it is (packages/sdk/src/controller.ts). Promises and stream objects are
 * numbered; its channel is a value it holds, and each method is shown to move the state as the state
 * machine says.
 */
module ControllerImpls {
  import opened Bytes
  import opened Frames
  import opened Channels
  import opened PtyFrames
  import opened Controllers
  import PtyEvents
  import ChannelProgress

  class Controller {
    const wire: Wire
    const cfg: Config
    var chan: Chan
    var stage: Stage
    var awaitingHelloAck: bool
    var timer: bool
    var closed: bool
    var calls: seq<Call>
    var pending: map<RequestId, CallId>
    var nextId: RequestId
    var streams: seq<PtyEvents.Stream>
    var streamsById: map<StreamId, nat>
    var subsByRef: map<SessionRef, (StreamId, nat)>
    ghost var said: seq<Said>

    ghost function State(): Ctl
      reads this
    {
      Ctl(chan, stage, awaitingHelloAck, timer, closed, calls, pending, nextId, streams, streamsById, subsByRef, said)
    }

    constructor (wire: Wire, cfg: Config)
      ensures this.wire == wire && this.cfg == cfg && State() == NewController()
    {
      this.wire, this.cfg := wire, cfg;
      chan, stage, awaitingHelloAck, timer, closed := NEW, AwaitReady, false, false, false;
      calls, pending, nextId := [], map[], 0;
      streams, streamsById, subsByRef, said := [], map[], map[], [];
    }

    method Settle(k: CallId, progress: Progress)
      modifies this`calls
      ensures State() == SetProgress(old(State()), k, progress)
    {
      if k < |calls| {
        calls := calls[k := calls[k].(progress := progress)];
      }
    }

    /** Reject whatever is in flight, end every stream, and forget them. */
    method HandleClose()
      requires Core(State())
      modifies this
      ensures State() == OnClose(old(State()))
    {
      if closed {
        return;
      }
      closed := true;
      timer := false;
      if awaitingHelloAck {
        awaitingHelloAck := false;
        stage := Broken;
      }
      Forget();
    }

    /** Whoever waits is told, every stream ends, and nothing refers to either. */
    method Forget()
      requires Correlated(State().(closed := false)) && Feeds(State())
      modifies this`calls, this`pending, this`streams, this`streamsById, this`subsByRef
      ensures pending == map[] && calls == RejectAll(old(calls))
      ensures streams == EndAll(old(streams), old(streamsById).Values) && streamsById == map[] && subsByRef == map[]
    {
      RejectPending();
      EndStreams();
      streamsById := map[];
      subsByRef := map[];
    }

    /** Every pending call is one in flight, and the other way round. */
    method RejectPending()
      requires forall id | id in pending :: pending[id] < |calls| && calls[pending[id]].progress == InFlight(id)
      requires forall k | 0 <= k < |calls| && calls[k].progress.InFlight? ::
                 calls[k].progress.id in pending && pending[calls[k].progress.id] == k
      modifies this`calls, this`pending
      ensures pending == map[] && calls == RejectAll(old(calls))
    {
      var rest := pending.Keys;
      while rest != {}
        invariant rest <= pending.Keys && pending == old(pending) && |calls| == |old(calls)|
        invariant forall k | 0 <= k < |calls| ::
                    calls[k] == if old(calls)[k].progress.InFlight? && old(calls)[k].progress.id !in rest
                                then old(calls)[k].(progress := Rejected) else old(calls)[k]
        decreases |rest|
      {
        var id :| id in rest;
        rest := rest - {id};
        calls := calls[pending[id] := calls[pending[id]].(progress := Rejected)];
      }
      pending := map[];
    }

    method EndStreams()
      modifies this`streams
      ensures streams == EndAll(old(streams), streamsById.Values)
    {
      var rest := streamsById.Keys;
      ghost var done: set<nat> := {};
      while rest != {}
        invariant rest <= streamsById.Keys && |streams| == |old(streams)|
        invariant forall o :: o in done <==> exists i :: i in streamsById && i !in rest && streamsById[i] == o
        invariant forall o | 0 <= o < |streams| ::
                    streams[o] == if o in done then PtyEvents.End(old(streams)[o]) else old(streams)[o]
        decreases |rest|
      {
        var i :| i in rest;
        var o := streamsById[i];
        if o < |streams| {
          streams := streams[o := PtyEvents.End(streams[o])];
        }
        ghost var was := rest;
        rest := rest - {i};
        done := done + {o};
        forall x ensures x in done <==> exists j :: j in streamsById && j !in rest && streamsById[j] == x {
          if x in done {
            if x == o { assert i in streamsById && i !in rest && streamsById[i] == x; }
            else { var j :| j in streamsById && j !in was && streamsById[j] == x; assert j !in rest; }
          }
        }
      }
      forall o ensures o in done <==> o in streamsById.Values {
        if o in streamsById.Values { var i :| i in streamsById && streamsById[i] == o; assert i !in rest; }
      }
    }

    /** The hello-ack is the first control frame; anything else in its place breaks the handshake. */
    method HandleHelloAck(payload: seq<byte>)
      modifies this
      ensures State() == HandleAck(wire, old(State()), payload)
    {
      awaitingHelloAck := false;
      timer := false;
      var ack := wire.ack(payload);
      if ack.None? {
        stage := Broken;
      } else {
        stage := HasAck(ack.value);
      }
    }

    method HandleControl(payload: seq<byte>)
      modifies this
      ensures State() == OnControl(wire, old(State()), payload)
    {
      if awaitingHelloAck {
        HandleHelloAck(payload);
        return;
      }
      var response := wire.response(payload);
      if response.None? || response.value.id !in pending {
        return;
      }
      var k := pending[response.value.id];
      pending := pending - {response.value.id};
      if !response.value.reply.Success? || k >= |calls| {
        Settle(k, Rejected);
        return;
      }
      var call, streamId := calls[k], response.value.reply.streamId;
      if call.verb.Subscribe? && call.feed.Some? {
        streamsById := streamsById[streamId := call.feed.value];
        subsByRef := subsByRef[call.verb.ref := (streamId, call.feed.value)];
      }
      Settle(k, Resolved(streamId));
    }

    method HandleBinary(payload: seq<byte>)
      modifies this`streams
      ensures State() == OnBinary(old(State()), payload)
    {
      var f := DecodePtyFrame(payload);
      if f.Some? && f.value.streamId in streamsById {
        var o := streamsById[f.value.streamId];
        if o < |streams| {
          streams := streams[o := PtyEvents.Ingest(streams[o], f.value)];
        }
      }
    }

    method HandleFrame(frame: Frame)
      modifies this
      ensures State() == OnFrame(wire, old(State()), frame)
    {
      if frame.lane == Control {
        HandleControl(frame.payload);
      } else {
        HandleBinary(frame.payload);
      }
    }

    /** Inbound bytes: the channel opens what it can, and the controller handles each frame. */
    method Receive(bytes: seq<byte>)
      requires Inv(State())
      modifies this
      ensures State() == Hear(wire, cfg, old(State()), bytes)
    {
      var n, was := |chan.rx.delivered|, chan.phase;
      DeliveredStays(cfg, chan, bytes);
      chan := Channels.Receive(cfg, chan, bytes);
      var frames := chan.rx.delivered[n..];
      ghost var heard := State();
      HandleFrames(frames);
      assert State() == OnFrames(wire, heard, frames);
      if chan.phase == Closed && was != Closed {
        HandleClose();
      }
    }

    /** Each frame of a chunk in turn. */
    method HandleFrames(frames: seq<Frame>)
      requires Core(State()) && (frames == [] || (!closed && Authenticated(chan)))
      modifies this
      ensures State() == OnFrames(wire, old(State()), frames) && Core(State()) && closed == old(closed)
              && chan == old(chan)
    {
      ghost var start := State();
      var i := 0;
      while i < |frames|
        invariant i <= |frames| && chan == start.chan && closed == start.closed
        invariant OnFrames(wire, State(), frames[i..]) == OnFrames(wire, start, frames)
        invariant Core(State())
      {
        OnFrameKeeps(wire, State(), frames[i]);
        HandleFrame(frames[i]);
        i := i + 1;
      }
    }

    method Close()
      requires Inv(State())
      modifies this
      ensures State() == CloseChannel(old(State()))
    {
      if chan.phase != Closed {
        chan := Shutdown(chan);
        assert Core(State());
        HandleClose();
      }
    }

    /** `#negotiate`, once the channel is ready and the hello signed. */
    method Greet(hello: Frame)
      requires Inv(State()) && Sealable(cfg)
      modifies this
      ensures State() == SayHello(cfg, old(State()), hello)
    {
      if stage != AwaitReady || chan.phase == Handshaking {
        return;
      }
      timer := true;
      awaitingHelloAck := true;
      if SendOutcome(cfg, chan, hello) == Accepted {
        ChannelProgress.SealedLength(cfg, chan, hello);
        chan := Channels.Send(cfg, chan, hello);
        said := said + [Hello];
        stage := AwaitAck;
      } else {
        awaitingHelloAck := false;
        timer := false;
        stage := Broken;
      }
    }

    method OnTimeout()
      requires Inv(State())
      modifies this
      ensures State() == TimeOut(old(State()))
    {
      if !timer {
        return;
      }
      timer := false;
      awaitingHelloAck := false;
      if stage == AwaitAck {
        stage := Broken;
      }
      Close();
    }

    method OnAck()
      modifies this`stage
      ensures State() == Agree(old(State()))
    {
      if stage.HasAck? {
        stage := if stage.ack.compatible then Agreed(stage.ack.capabilities) else Broken;
      }
    }

    method Call(verb: Verb)
      modifies this
      ensures State() == Begin(old(State()), verb)
    {
      var progress := if closed then Rejected else Gated;
      match verb
      case Subscribe(_) =>
        var stream := |streams|;
        streams := streams + [PtyEvents.NewStream()];
        calls := calls + [Controllers.Call(verb, Some(stream), progress)];
      case Unsubscribe(ref) =>
        if ref in subsByRef {
          var sub := subsByRef[ref];
          subsByRef := subsByRef - {ref};
          streamsById := streamsById - {sub.0};
          calls := calls + [Controllers.Call(verb, Some(sub.1), progress)];
        }
      case Plain(_) => calls := calls + [Controllers.Call(verb, None, progress)];
    }

    /** The `finally` of an unsubscribe: once its call has settled, whichever way, its stream ends. */
    method EndUnsubscribed(k: CallId)
      modifies this`streams
      ensures State() == Wind(old(State()), k)
    {
      if k >= |calls| || !calls[k].verb.Unsubscribe? || calls[k].feed.None? {
        return;
      }
      if calls[k].progress.Gated? || calls[k].progress.InFlight? {
        return;
      }
      var stream := calls[k].feed.value;
      if stream < |streams| {
        streams := streams[stream := PtyEvents.End(streams[stream])];
      }
    }

    /** `#send` after the handshake. */
    method SendRequest(k: CallId, request: Frame)
      requires Inv(State()) && Sealable(cfg)
      modifies this
      ensures State() == Resume(wire, cfg, old(State()), k, request)
    {
      if k >= |calls| || !calls[k].progress.Gated? || !(stage.Agreed? || stage.Broken?) {
        return;
      }
      if stage.Broken? {
        Settle(k, Rejected);
        return;
      }
      var cap := wire.needs(calls[k].verb);
      if (cap.Some? && cap.value !in stage.capabilities) || closed {
        Settle(k, Rejected);
        return;
      }
      Put(k, request);
    }

    /** Under a fresh id the call waits for its response and the request goes out, or it is taken back. */
    method Put(k: CallId, request: Frame)
      requires Ok(chan) && Sealable(cfg) && k < |calls|
      modifies this`chan, this`pending, this`nextId, this`said, this`calls
      ensures nextId == old(nextId) + 1
      ensures if SendOutcome(cfg, old(chan), request) == Accepted
              then Ok(old(chan)) && |SealRec(cfg, old(chan), request).record| < 0x1_0000_0000
                   && chan == Channels.Send(cfg, old(chan), request) && pending == old(pending)[old(nextId) := k]
                   && said == old(said) + [Request(old(nextId), k)]
                   && calls == old(calls)[k := old(calls)[k].(progress := InFlight(old(nextId)))]
              else chan == old(chan) && pending == old(pending) && said == old(said)
                   && calls == old(calls)[k := old(calls)[k].(progress := Rejected)]
    {
      var id := nextId;
      nextId := nextId + 1;
      if SendOutcome(cfg, chan, request) == Accepted {
        pending := pending[id := k];
        ChannelProgress.SealedLength(cfg, chan, request);
        chan := Channels.Send(cfg, chan, request);
        said := said + [Request(id, k)];
        Settle(k, InFlight(id));
      } else {
        Settle(k, Rejected);
      }
    }
  }
}

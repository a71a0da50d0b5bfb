/** A controller's event stream (packages/sdk/src/events.ts): PTY frames in, decoded events out. */
module PtyEvents {
  import opened Bytes
  import opened PtyFrames
  import opened PtyPayloads

  const OUTPUT := 1
  const SNAPSHOT_START := 2
  const SNAPSHOT_CHUNK := 3
  const SNAPSHOT_END := 4
  const RESIZED := 5
  const ENDED := 6
  const GAP := 7

  const MAX_SNAPSHOT_BYTES := 8 * 1024 * 1024
  const MAX_SNAPSHOT_CHUNKS := 4096

  datatype PtyEvent =
    | Snapshot(seqNo: nat, cols: nat, rows: nat, data: seq<byte>)
    | Output(seqNo: nat, data: seq<byte>)
    | Resize(seqNo: nat, cols: nat, rows: nat)
    | Ended(seqNo: nat, code: Option<int>)
    | Gap(seqNo: nat)

  datatype PendingSnapshot = PendingSnapshot(seqNo: nat, cols: nat, rows: nat, chunks: seq<seq<byte>>, bytes: nat)

  /** What a `next()` promise settles with. */
  datatype Settlement = Value(event: PtyEvent) | Done | Rejected

  /**
   * The stream. `next()` calls are numbered; `pullers` are those that wait and `settled` what the others
   * came to. `pushed` logs the events; `heard` is what each listener was called with, `since` how many
   * events it came too late for.
   */
  datatype Stream = Stream(queue: seq<PtyEvent>, pullers: seq<nat>, snapshot: Option<PendingSnapshot>, ended: bool,
                           error: bool,
                           calls: nat, settled: map<nat, Settlement>, pushed: seq<PtyEvent>,
                           heard: map<nat, seq<PtyEvent>>, since: map<nat, nat>)

  function NewStream(): Stream {
    Stream([], [], None, false, false, 0, map[], [], map[], map[])
  }

  function Tell(heard: map<nat, seq<PtyEvent>>, event: PtyEvent): map<nat, seq<PtyEvent>> {
    map l | l in heard :: heard[l] + [event]
  }

  function Push(s: Stream, event: PtyEvent): Stream {
    if s.ended then s
    else
      var t := s.(pushed := s.pushed + [event], heard := Tell(s.heard, event));
      if s.pullers != [] then t.(pullers := s.pullers[1..], settled := s.settled[s.pullers[0] := Value(event)])
      else t.(queue := s.queue + [event])
  }

  function SettleAll(settled: map<nat, Settlement>, pullers: seq<nat>, r: Settlement): map<nat, Settlement> {
    settled + map i | i in pullers :: r
  }

  function End(s: Stream): Stream {
    if s.ended then s else s.(ended := true, settled := SettleAll(s.settled, s.pullers, Done), pullers := [])
  }

  function Fail(s: Stream): Stream {
    if s.ended then s
    else s.(ended := true, error := true, snapshot := None, settled := SettleAll(s.settled, s.pullers, Rejected),
            pullers := [])
  }

  function Pull(s: Stream): Stream {
    var i, t := s.calls, s.(calls := s.calls + 1);
    if s.queue != [] then t.(queue := s.queue[1..], settled := s.settled[i := Value(s.queue[0])])
    else if s.error then t.(settled := s.settled[i := Rejected])
    else if s.ended then t.(settled := s.settled[i := Done])
    else t.(pullers := s.pullers + [i])
  }

  function Listen(s: Stream, l: nat): Stream {
    if l in s.heard then s else s.(heard := s.heard[l := []], since := s.since[l := |s.pushed|])
  }

  predicate OverLimit(p: PendingSnapshot) {
    p.bytes > MAX_SNAPSHOT_BYTES || |p.chunks| > MAX_SNAPSHOT_CHUNKS
  }

  function AddChunk(s: Stream, payload: seq<byte>): Stream {
    match s.snapshot
    case None => s
    case Some(p) =>
      var q := p.(chunks := p.chunks + [payload], bytes := p.bytes + |payload|);
      if OverLimit(q) then Fail(s.(snapshot := Some(q))) else s.(snapshot := Some(q))
  }

  function EndSnapshot(s: Stream): Stream {
    match s.snapshot
    case None => s
    case Some(p) => Push(s.(snapshot := None), Snapshot(p.seqNo, p.cols, p.rows, Flatten(p.chunks)))
  }

  /** A malformed size or exit code throws before anything has changed. */
  predicate Throws(f: PtyFrame) {
    ((f.opcode == SNAPSHOT_START || f.opcode == RESIZED) && DecodeSize(f.payload).None?)
    || (f.opcode == ENDED && DecodeExit(f.payload).None?)
  }

  function Ingest(s: Stream, f: PtyFrame): Stream {
    if Throws(f) then s
    else if f.opcode == SNAPSHOT_START then
      var size := DecodeSize(f.payload).value;
      s.(snapshot := Some(PendingSnapshot(f.seqNo, size.0, size.1, [], 0)))
    else if f.opcode == SNAPSHOT_CHUNK then AddChunk(s, f.payload)
    else if f.opcode == SNAPSHOT_END then EndSnapshot(s)
    else if f.opcode == OUTPUT then Push(s, Output(f.seqNo, f.payload))
    else if f.opcode == RESIZED then Push(s,
                                          Resize(f.seqNo, DecodeSize(f.payload).value.0, DecodeSize(f.payload).value.1))
    else if f.opcode == ENDED then End(Push(s, Ended(f.seqNo, DecodeExit(f.payload).value)))
    else if f.opcode == GAP then Push(s, Gap(f.seqNo))
    else s
  }

  datatype Event = Ingests(frame: PtyFrame) | Pulls | Listens(l: nat) | Ends

  function Step(s: Stream, e: Event): Stream {
    match e
    case Ingests(f) => Ingest(s, f)
    case Pulls => Pull(s)
    case Listens(l) => Listen(s, l)
    case Ends => End(s)
  }

  function Run(s: Stream, events: seq<Event>): Stream
    decreases |events|
  {
    if events == [] then s else Run(Step(s, events[0]), events[1..])
  }

  // ---- One log, two cursors ---------------------------------------------------------------------

  /**
   * The i-th `next()` has settled with the i-th event, or past the end of an ended log with its end; the rest
   * is exactly what queue and pullers hold.
   */
  ghost predicate Handed(s: Stream) {
    && s.queue == (if s.calls < |s.pushed| then s.pushed[s.calls..] else [])
    && (forall i: nat :: i in s.settled <==> i < s.calls && (i < |s.pushed| || s.ended))
    && (forall i | i in s.settled ::
          s.settled[i] == if i < |s.pushed| then Value(s.pushed[i]) else if s.error then Rejected else Done)
    && |s.pullers| == (if s.ended || s.calls < |s.pushed| then 0 else s.calls - |s.pushed|)
    && (forall i | 0 <= i < |s.pullers| :: s.pullers[i] == |s.pushed| + i)
    && (s.error ==> s.ended)
  }

  /** Each listener heard every event from its registration on. */
  predicate Told(s: Stream) {
    && s.heard.Keys == s.since.Keys
    && forall l | l in s.heard :: s.since[l] <= |s.pushed| && s.heard[l] == s.pushed[s.since[l]..]
  }

  /** `ended` is the last event, and ends the stream. */
  predicate EndedLast(s: Stream) {
    forall i | 0 <= i < |s.pushed| && s.pushed[i].Ended? :: i == |s.pushed| - 1 && s.ended
  }

  /** A live stream's snapshot is under its limits, and its byte count true. */
  predicate Bounded(s: Stream) {
    !s.ended && s.snapshot.Some? ==>
          !OverLimit(s.snapshot.value) && s.snapshot.value.bytes == |Flatten(s.snapshot.value.chunks)|
  }

  ghost predicate Inv(s: Stream) {
    Handed(s) && Told(s) && EndedLast(s) && Bounded(s)
  }

  lemma PushHands(s: Stream, event: PtyEvent)
    requires Handed(s)
    ensures Handed(Push(s, event))
  {
    if !s.ended && s.pullers == [] && s.calls < |s.pushed| {
      assert (s.pushed + [event])[s.calls..] == s.pushed[s.calls..] + [event];
    }
  }

  lemma PushTells(s: Stream, event: PtyEvent)
    requires Told(s)
    ensures Told(Push(s, event))
  {
    if !s.ended {
      forall l | l in s.heard ensures Tell(s.heard, event)[l] == (s.pushed + [event])[s.since[l]..] {
      }
    }
  }

  lemma EndHands(s: Stream)
    requires Handed(s)
    ensures Handed(End(s))
  {
    if !s.ended {
      EveryWaiting(s);
    }
  }

  /** The waiting calls are exactly the unsettled ones. */
  lemma EveryWaiting(s: Stream)
    requires Handed(s) && !s.ended
    ensures forall i: nat :: i in s.pullers <==> |s.pushed| <= i < s.calls
  {
    forall i: nat | |s.pushed| <= i < s.calls ensures i in s.pullers {
      assert s.pullers[i - |s.pushed|] == i;
    }
  }

  lemma FailHands(s: Stream)
    requires Handed(s)
    ensures Handed(Fail(s))
  {
    if !s.ended {
      EveryWaiting(s);
    }
  }

  lemma ChunkHands(s: Stream, payload: seq<byte>)
    requires Handed(s) && Told(s)
    ensures Handed(AddChunk(s, payload)) && Told(AddChunk(s, payload))
  {
    if s.snapshot.Some? {
      var p := s.snapshot.value;
      var t := s.(snapshot := Some(p.(chunks := p.chunks + [payload], bytes := p.bytes + |payload|)));
      assert Handed(t) && Told(t);
      FailHands(t);
      assert AddChunk(s, payload) == t || AddChunk(s, payload) == Fail(t);
    }
  }

  lemma EndSnapshotHands(s: Stream)
    requires Handed(s) && Told(s)
    ensures Handed(EndSnapshot(s)) && Told(EndSnapshot(s))
  {
    if s.snapshot.Some? {
      var p := s.snapshot.value;
      PushBoth(s.(snapshot := None), Snapshot(p.seqNo, p.cols, p.rows, Flatten(p.chunks)));
    }
  }

  lemma EndedHands(s: Stream, event: PtyEvent)
    requires Handed(s) && Told(s)
    ensures Handed(End(Push(s, event))) && Told(End(Push(s, event)))
  {
    PushBoth(s, event);
    EndHands(Push(s, event));
  }

  lemma IngestHands(s: Stream, f: PtyFrame)
    requires Handed(s) && Told(s)
    ensures Handed(Ingest(s, f)) && Told(Ingest(s, f))
  {
    var t := Ingest(s, f);
    if Throws(f) {
    } else if f.opcode == SNAPSHOT_START {
      assert t == s.(snapshot := t.snapshot);
    } else if f.opcode == SNAPSHOT_CHUNK {
      ChunkHands(s, f.payload);
    } else if f.opcode == SNAPSHOT_END {
      EndSnapshotHands(s);
    } else if f.opcode == OUTPUT {
      PushBoth(s, Output(f.seqNo, f.payload));
    } else if f.opcode == RESIZED {
      PushBoth(s, Resize(f.seqNo, DecodeSize(f.payload).value.0, DecodeSize(f.payload).value.1));
    } else if f.opcode == ENDED {
      EndedHands(s, Ended(f.seqNo, DecodeExit(f.payload).value));
    } else if f.opcode == GAP {
      PushBoth(s, Gap(f.seqNo));
    }
  }

  lemma PushBoth(s: Stream, event: PtyEvent)
    requires Handed(s) && Told(s)
    ensures Handed(Push(s, event)) && Told(Push(s, event))
  {
    PushHands(s, event);
    PushTells(s, event);
  }

  lemma PullHands(s: Stream)
    requires Handed(s)
    ensures Handed(Pull(s))
  {
    var t := Pull(s);
    if s.queue != [] {
      assert t.queue == if t.calls < |s.pushed| then s.pushed[t.calls..] else [];
      assert s.queue[0] == s.pushed[s.calls];
    }
    forall i: nat ensures i in t.settled <==> i < t.calls && (i < |t.pushed| || t.ended) {
    }
  }

  /** A push of anything but `ended` keeps both; of `ended`, with the end right behind it. */
  lemma PushKeeps(s: Stream, event: PtyEvent)
    requires EndedLast(s) && Bounded(s)
    ensures !event.Ended? ==> EndedLast(Push(s, event)) && Bounded(Push(s, event))
    ensures EndedLast(End(Push(s, event))) && Bounded(End(Push(s, event)))
  {
  }

  lemma ChunkKeeps(s: Stream, payload: seq<byte>)
    requires EndedLast(s) && Bounded(s)
    ensures EndedLast(AddChunk(s, payload)) && Bounded(AddChunk(s, payload))
  {
    if s.snapshot.Some? {
      FlattenSnoc(s.snapshot.value.chunks, payload);
    }
  }

  lemma IngestKeeps(s: Stream, f: PtyFrame)
    requires EndedLast(s) && Bounded(s)
    ensures EndedLast(Ingest(s, f)) && Bounded(Ingest(s, f))
  {
    if Throws(f) {
    } else if f.opcode == SNAPSHOT_CHUNK {
      ChunkKeeps(s, f.payload);
    } else if f.opcode == SNAPSHOT_END {
      if s.snapshot.Some? {
        var p := s.snapshot.value;
        PushKeeps(s.(snapshot := None), Snapshot(p.seqNo, p.cols, p.rows, Flatten(p.chunks)));
      }
    } else if f.opcode == OUTPUT {
      PushKeeps(s, Output(f.seqNo, f.payload));
    } else if f.opcode == RESIZED {
      PushKeeps(s, Resize(f.seqNo, DecodeSize(f.payload).value.0, DecodeSize(f.payload).value.1));
    } else if f.opcode == ENDED {
      PushKeeps(s, Ended(f.seqNo, DecodeExit(f.payload).value));
    } else if f.opcode == GAP {
      PushKeeps(s, Gap(f.seqNo));
    }
  }

  lemma StepKeeps(s: Stream, e: Event)
    requires Inv(s)
    ensures Inv(Step(s, e))
  {
    match e
    case Ingests(f) =>
      IngestHands(s, f);
      IngestKeeps(s, f);
    case Pulls => PullKeeps(s);
    case Listens(l) =>
    case Ends => EndKeeps(s);
  }

  lemma PullKeeps(s: Stream)
    requires Inv(s)
    ensures Inv(Step(s, Pulls))
  {
    PullHands(s);
  }

  lemma EndKeeps(s: Stream)
    requires Inv(s)
    ensures Inv(Step(s, Ends))
  {
    EndHands(s);
  }

  lemma {:induction false} RunKeeps(s: Stream, events: seq<Event>)
    requires Inv(s)
    ensures Inv(Run(s, events))
    decreases |events|
  {
    if events != [] {
      StepKeeps(s, events[0]);
      RunKeeps(Step(s, events[0]), events[1..]);
    }
  }

  /**
   * After every run: the i-th `next()` has settled with the i-th event, or, when there is none and the
   * stream has ended, as done or rejected, and waits otherwise; never do events queue while calls wait;
   * and every listener heard all events since it registered.
   */
  lemma NextSettles(events: seq<Event>, i: nat)
    requires i < Run(NewStream(), events).calls
    ensures var s := Run(NewStream(), events);
            && (s.queue == [] || s.pullers == [])
            && (i < |s.pushed| ==> i in s.settled && s.settled[i] == Value(s.pushed[i]))
            && (i >= |s.pushed| && s.ended ==> i in s.settled && s.settled[i] == if s.error then Rejected else Done)
            && (i >= |s.pushed| && !s.ended ==> i !in s.settled && i in s.pullers)
            && Told(s) && EndedLast(s) && Bounded(s)
  {
    RunKeeps(NewStream(), events);
    var s := Run(NewStream(), events);
    if !s.ended {
      EveryWaiting(s);
    }
  }

  /** The log only grows, and not once the stream has ended: no settlement is ever revised. */
  lemma {:induction false} LogGrows(s: Stream, events: seq<Event>)
    ensures Prefix(s.pushed, Run(s, events).pushed)
    ensures s.ended ==> Run(s, events).ended && Run(s, events).pushed == s.pushed
    decreases |events|
  {
    if events != [] {
      StepGrows(s, events[0]);
      LogGrows(Step(s, events[0]), events[1..]);
      PrefixTransitive(s.pushed, Step(s, events[0]).pushed, Run(s, events).pushed);
    }
  }

  lemma StepGrows(s: Stream, e: Event)
    ensures Prefix(s.pushed, Step(s, e).pushed)
    ensures s.ended ==> Step(s, e).ended && Step(s, e).pushed == s.pushed
  {
    if e.Ingests? {
      IngestPushes(s, e.frame);
    }
  }

  /** At most one event a frame, and none once ended. */
  lemma IngestPushes(s: Stream, f: PtyFrame)
    ensures var t := Ingest(s, f);
            && (t.pushed == s.pushed || exists event :: t.pushed == s.pushed + [event])
            && (s.ended ==> t.ended && t.pushed == s.pushed)
  {
    if f.opcode == SNAPSHOT_END && s.snapshot.Some? {
      var p := s.snapshot.value;
      PushPushes(s.(snapshot := None), Snapshot(p.seqNo, p.cols, p.rows, Flatten(p.chunks)));
    } else if f.opcode == OUTPUT {
      PushPushes(s, Output(f.seqNo, f.payload));
    } else if !Throws(f) && f.opcode == RESIZED {
      PushPushes(s, Resize(f.seqNo, DecodeSize(f.payload).value.0, DecodeSize(f.payload).value.1));
    } else if !Throws(f) && f.opcode == ENDED {
      PushPushes(s, Ended(f.seqNo, DecodeExit(f.payload).value));
    } else if f.opcode == GAP {
      PushPushes(s, Gap(f.seqNo));
    }
  }

  lemma PushPushes(s: Stream, event: PtyEvent)
    ensures Push(s, event).pushed == if s.ended then s.pushed else s.pushed + [event]
    ensures Push(s, event).ended == s.ended
  {
  }

  // ---- Snapshots --------------------------------------------------------------------------------

  predicate Opening(f: PtyFrame) {
    f.opcode == SNAPSHOT_START && !Throws(f)
  }

  /** The chunks of a frame sequence. */
  function Chunks(frames: seq<PtyFrame>): seq<seq<byte>> {
    if frames == [] then []
    else
      var before, last := Chunks(frames[..|frames| - 1]), frames[|frames| - 1];
      if last.opcode == SNAPSHOT_CHUNK then before + [last.payload] else before
  }

  lemma ChunksSnoc(frames: seq<PtyFrame>, f: PtyFrame)
    ensures Chunks(frames + [f]) == if f.opcode == SNAPSHOT_CHUNK then Chunks(frames) + [f.payload] else Chunks(frames)
  {
    assert (frames + [f])[..|frames|] == frames;
  }

  /** `frames[i]` opened a snapshot that nothing since has ended or restarted. */
  predicate OpenedAt(frames: seq<PtyFrame>, i: nat) {
    && i < |frames| && Opening(frames[i])
    && forall j | i < j < |frames| :: !Opening(frames[j]) && frames[j].opcode != SNAPSHOT_END
  }

  /** What a snapshot opened there would carry. */
  function Collected(frames: seq<PtyFrame>, i: nat): PendingSnapshot
    requires i < |frames| && Opening(frames[i])
  {
    var size, chunks := DecodeSize(frames[i].payload).value, Chunks(frames[i + 1..]);
    PendingSnapshot(frames[i].seqNo, size.0, size.1, chunks, |Flatten(chunks)|)
  }

  /** While the stream is live, a snapshot in progress is the chunks since the frame that opened it. */
  ghost predicate Collecting(s: Stream, frames: seq<PtyFrame>) {
    !s.ended ==>
      && (s.snapshot.Some? <==> exists i: nat :: OpenedAt(frames, i))
      && (forall i: nat | OpenedAt(frames, i) :: s.snapshot == Some(Collected(frames, i)))
  }

  lemma StillOpen(frames: seq<PtyFrame>, f: PtyFrame, i: nat)
    requires i < |frames|
    ensures OpenedAt(frames + [f], i) <==> OpenedAt(frames, i) && !Opening(f) && f.opcode != SNAPSHOT_END
  {
    var after := frames + [f];
    assert forall j | 0 <= j < |frames| :: after[j] == frames[j];
    assert after[|frames|] == f;
  }

  lemma IngestCollects(s: Stream, frames: seq<PtyFrame>, f: PtyFrame)
    requires Collecting(s, frames)
    ensures Collecting(Ingest(s, f), frames + [f])
  {
    var t, after := Ingest(s, f), frames + [f];
    if !s.ended && !t.ended {
      forall i: nat | i < |frames| ensures OpenedAt(after, i)
          <==> OpenedAt(frames, i) && !Opening(f) && f.opcode != SNAPSHOT_END {
        StillOpen(frames, f, i);
      }
      if Opening(f) {
        OpensAnew(s, frames, f);
      } else {
        assert !OpenedAt(after, |frames|) by { assert after[|frames|] == f; }
        if f.opcode != SNAPSHOT_END { StaysAsOpened(s, frames, f); }
      }
    }
  }

  lemma OpensAnew(s: Stream, frames: seq<PtyFrame>, f: PtyFrame)
    requires Opening(f)
    ensures OpenedAt(frames + [f], |frames|) && Ingest(s, f).snapshot == Some(Collected(frames + [f], |frames|))
  {
    assert (frames + [f])[|frames|] == f && (frames + [f])[|frames| + 1..] == [];
  }

  lemma StaysAsOpened(s: Stream, frames: seq<PtyFrame>, f: PtyFrame)
    requires Collecting(s, frames) && !s.ended && !Ingest(s, f).ended && !Opening(f) && f.opcode != SNAPSHOT_END
    requires forall i: nat | i < |frames| :: OpenedAt(frames + [f], i) <==> OpenedAt(frames, i)
    requires !OpenedAt(frames + [f], |frames|)
    ensures Collecting(Ingest(s, f), frames + [f])
  {
    var t, after := Ingest(s, f), frames + [f];
    forall i: nat | OpenedAt(after, i) ensures t.snapshot == Some(Collected(after, i)) {
      ChunkCollects(s, frames, f, i);
    }
    if t.snapshot.Some? {
      assert s.snapshot.Some?;
      var i: nat :| OpenedAt(frames, i);
      assert OpenedAt(after, i);
    }
  }

  function Grown(p: PendingSnapshot, f: PtyFrame): PendingSnapshot {
    if f.opcode == SNAPSHOT_CHUNK then p.(chunks := p.chunks + [f.payload], bytes := p.bytes + |f.payload|) else p
  }

  lemma IngestGrows(s: Stream, f: PtyFrame, p: PendingSnapshot)
    requires !s.ended && !Ingest(s, f).ended && s.snapshot == Some(p) && !Opening(f) && f.opcode != SNAPSHOT_END
    ensures Ingest(s, f).snapshot == Some(Grown(p, f))
  {
  }

  lemma CollectedGrows(frames: seq<PtyFrame>, f: PtyFrame, i: nat)
    requires i < |frames| && Opening(frames[i])
    ensures (frames + [f])[i] == frames[i] && Collected(frames + [f], i) == Grown(Collected(frames, i), f)
  {
    assert (frames + [f])[i + 1..] == frames[i + 1..] + [f];
    ChunksSnoc(frames[i + 1..], f);
    FlattenSnoc(Chunks(frames[i + 1..]), f.payload);
  }

  lemma ChunkCollects(s: Stream, frames: seq<PtyFrame>, f: PtyFrame, i: nat)
    requires !s.ended && !Ingest(s, f).ended && i < |frames| && OpenedAt(frames, i)
             && s.snapshot == Some(Collected(frames, i))
    requires !Opening(f) && f.opcode != SNAPSHOT_END
    ensures i < |frames + [f]| && Opening((frames + [f])[i])
            && Ingest(s, f).snapshot == Some(Collected(frames + [f], i))
  {
    IngestGrows(s, f, Collected(frames, i));
    CollectedGrows(frames, f, i);
  }

  lemma StepCollects(s: Stream, frames: seq<PtyFrame>, e: Event)
    requires Collecting(s, frames)
    ensures Collecting(Step(s, e), frames + if e.Ingests? then [e.frame] else [])
  {
    if e.Ingests? {
      IngestCollects(s, frames, e.frame);
    } else {
      assert frames + [] == frames;
    }
  }

  /** The frames among a run's events. */
  function Frames(events: seq<Event>): seq<PtyFrame>
    decreases |events|
  {
    if events == [] then [] else (if events[0].Ingests? then [events[0].frame] else []) + Frames(events[1..])
  }

  lemma {:induction false} RunCollects(s: Stream, frames: seq<PtyFrame>, events: seq<Event>)
    requires Collecting(s, frames)
    ensures Collecting(Run(s, events), frames + Frames(events))
    decreases |events|
  {
    if events == [] {
      assert frames + [] == frames;
    } else {
      var e := events[0];
      var now := frames + if e.Ingests? then [e.frame] else [];
      StepCollects(s, frames, e);
      RunCollects(Step(s, e), now, events[1..]);
      assert now + Frames(events[1..]) == frames + Frames(events);
    }
  }

  /**
   * A snapshot event's data is exactly the chunks since the frame that opened it, in order, whatever other
   * frames came between.
   */
  lemma SnapshotIsItsChunks(events: seq<Event>, f: PtyFrame, i: nat)
    requires f.opcode == SNAPSHOT_END && !Run(NewStream(), events).ended && OpenedAt(Frames(events), i)
    ensures var s, frames := Run(NewStream(), events), Frames(events);
            var size := DecodeSize(frames[i].payload).value;
            Ingest(s, f).pushed == s.pushed
                  + [Snapshot(frames[i].seqNo, size.0, size.1, Flatten(Chunks(frames[i + 1..])))]
  {
    var s, frames := Run(NewStream(), events), Frames(events);
    RunCollects(NewStream(), [], events);
    assert [] + frames == frames;
    var p := Collected(frames, i);
    assert s.snapshot == Some(p);
    EndIsPush(s, f, p);
  }

  lemma EndIsPush(s: Stream, f: PtyFrame, p: PendingSnapshot)
    requires f.opcode == SNAPSHOT_END && !s.ended && s.snapshot == Some(p)
    ensures Ingest(s, f).pushed == s.pushed + [Snapshot(p.seqNo, p.cols, p.rows, Flatten(p.chunks))]
  {
  }

  /** And without an open snapshot its end is no event. */
  lemma NoSnapshotNoEvent(events: seq<Event>, f: PtyFrame)
    requires f.opcode == SNAPSHOT_END && forall i: nat :: !OpenedAt(Frames(events), i)
    ensures Ingest(Run(NewStream(), events), f).pushed == Run(NewStream(), events).pushed
  {
    RunCollects(NewStream(), [], events);
    assert [] + Frames(events) == Frames(events);
  }

  // ---- The limits and the end -------------------------------------------------------------------

  predicate Within(s: Stream) {
    s.snapshot.Some? ==> !OverLimit(s.snapshot.value)
  }

  /** No frame is ingested once the stream has ended. */
  predicate SilentOnceEnded(s: Stream, events: seq<Event>)
    decreases |events|
  {
    events != [] ==> (s.ended && events[0].Ingests? ==> false) && SilentOnceEnded(Step(s, events[0]), events[1..])
  }

  /** As long as no frame comes after the end, no snapshot is ever over its limits, ended or not. */
  lemma {:induction false} LimitsHold(s: Stream, events: seq<Event>)
    requires Inv(s) && Within(s) && SilentOnceEnded(s, events)
    ensures Within(Run(s, events))
    decreases |events|
  {
    if events != [] {
      StepWithin(s, events[0]);
      LimitsHold(Step(s, events[0]), events[1..]);
    }
  }

  lemma StepWithin(s: Stream, e: Event)
    requires Inv(s) && Within(s) && !(s.ended && e.Ingests?)
    ensures Inv(Step(s, e)) && Within(Step(s, e))
  {
    StepKeeps(s, e);
  }

  /** What a frame makes of a snapshot where no limit counts. */
  function Gather(q: Option<PendingSnapshot>, f: PtyFrame): Option<PendingSnapshot> {
    if Opening(f) then
      var size := DecodeSize(f.payload).value;
      Some(PendingSnapshot(f.seqNo, size.0, size.1, [], 0))
    else if f.opcode == SNAPSHOT_END then None
    else if q.Some? then Some(Grown(q.value, f))
    else None
  }

  function GatherAll(q: Option<PendingSnapshot>, frames: seq<PtyFrame>): Option<PendingSnapshot>
    decreases |frames|
  {
    if frames == [] then q else GatherAll(Gather(q, frames[0]), frames[1..])
  }

  /** An ended stream goes on collecting, and no limit stops it: it holds what its frames come to. */
  lemma {:induction false} EndedGathers(s: Stream, events: seq<Event>)
    requires s.ended
    ensures Run(s, events).ended && Run(s, events).snapshot == GatherAll(s.snapshot, Frames(events))
    decreases |events|
  {
    if events != [] {
      var e, t := events[0], Step(s, events[0]);
      EndedGathersOne(s, e);
      EndedGathers(t, events[1..]);
      if e.Ingests? {
        assert Frames(events)[0] == e.frame && Frames(events)[1..] == Frames(events[1..]);
      } else {
        assert Frames(events) == Frames(events[1..]);
      }
    }
  }

  lemma EndedGathersOne(s: Stream, e: Event)
    requires s.ended
    ensures Step(s, e).ended && Step(s, e).snapshot == if e.Ingests? then Gather(s.snapshot, e.frame) else s.snapshot
  {
  }

  function ChunkFrames(f: PtyFrame, n: nat): seq<Event> {
    seq(n, _ => Ingests(f))
  }

  lemma {:induction false} ChunksPile(s: Stream, f: PtyFrame, n: nat)
    requires s.ended && s.snapshot.Some? && f.opcode == SNAPSHOT_CHUNK
    ensures var t := Run(s, ChunkFrames(f, n));
            && t.ended && t.snapshot.Some? && |t.snapshot.value.chunks| == |s.snapshot.value.chunks| + n
            && t.snapshot.value.bytes == s.snapshot.value.bytes + n * |f.payload|
    decreases n
  {
    if n > 0 {
      var events := ChunkFrames(f, n);
      assert events[0] == Ingests(f) && events[1..] == ChunkFrames(f, n - 1);
      EndedGathersOne(s, Ingests(f));
      ChunksPile(Step(s, Ingests(f)), f, n - 1);
      assert n * |f.payload| == |f.payload| + (n - 1) * |f.payload|;
    }
  }

  /**
   * So from any ended stream, and any number of chunks of any size, there is a run that leaves the stream
   * holding them: both limits fail.
   */
  lemma EndedIsUnbounded(s: Stream, start: PtyFrame, chunk: PtyFrame, n: nat)
    requires s.ended && Opening(start) && chunk.opcode == SNAPSHOT_CHUNK
    ensures var t := Run(s, [Ingests(start)] + ChunkFrames(chunk, n));
            && t.snapshot.Some? && |t.snapshot.value.chunks| == n && t.snapshot.value.bytes == n * |chunk.payload|
            && (n > MAX_SNAPSHOT_CHUNKS ==> !Within(t))
  {
    var events := [Ingests(start)] + ChunkFrames(chunk, n);
    assert events[0] == Ingests(start) && events[1..] == ChunkFrames(chunk, n);
    EndedGathersOne(s, Ingests(start));
    ChunksPile(Step(s, Ingests(start)), chunk, n);
  }

  /** And there are ended streams: a new one, ended. */
  lemma SomeStreamIsUnbounded(seqNo: nat, n: nat)
    ensures var start, chunk := PtyFrame(SNAPSHOT_START, 0, seqNo, EncodeSize(80, 24)),
            PtyFrame(SNAPSHOT_CHUNK, 0, seqNo, [0]);
            var t := Run(NewStream(), [Ends] + ([Ingests(start)] + ChunkFrames(chunk, n)));
            t.ended && t.snapshot.Some? && |t.snapshot.value.chunks| == n
  {
    var start, chunk := PtyFrame(SNAPSHOT_START, 0, seqNo, EncodeSize(80, 24)), PtyFrame(SNAPSHOT_CHUNK, 0, seqNo, [0]);
    var rest := [Ingests(start)] + ChunkFrames(chunk, n);
    assert ([Ends] + rest)[0] == Ends && ([Ends] + rest)[1..] == rest;
    EndedIsUnbounded(Step(NewStream(), Ends), start, chunk, n);
    EndedGathers(Step(NewStream(), Ends), rest);
  }
}

/** The event log, frame by frame. */
module PtyLog {
  // What each frame adds to the log, on its bytes, and what the log of every run comes to.

  import opened Bytes
  import opened PtyFrames
  import opened PtyPayloads
  import opened PtyEvents

  // ---- One frame --------------------------------------------------------------------------------

  /** Two 16-bit little-endian numbers: columns, then rows. */
  predicate Sizes(payload: seq<byte>, cols: nat, rows: nat) {
    && |payload| >= 4
    && cols == payload[0] as int + 256 * payload[1] as int
    && rows == payload[2] as int + 256 * payload[3] as int
  }

  /** No bytes: no code. Four or more: the first four as a signed little-endian number. */
  predicate Exits(payload: seq<byte>, code: Option<int>) {
    match code
    case None => payload == []
    case Some(n) =>
      && |payload| >= 4
      && var low := payload[0] as int + 256 * payload[1] as int + 65_536 * payload[2] as int;
      n == low + 16_777_216 * (if payload[3] < 128 then payload[3] as int else payload[3] as int - 256)
  }

  /** The events a frame outside a snapshot brings: one or none. */
  function Says(f: PtyFrame): (events: seq<PtyEvent>) {
    if f.opcode == 1 then [Output(f.seqNo, f.payload)]
    else if f.opcode == 5 && |f.payload| >= 4 then
      [Resize(f.seqNo, f.payload[0] as int + 256 * f.payload[1] as int,
              f.payload[2] as int + 256 * f.payload[3] as int)]
    else if f.opcode == 6 && f.payload == [] then [PtyEvent.Ended(f.seqNo, None)]
    else if f.opcode == 6 && |f.payload| >= 4 then [PtyEvent.Ended(f.seqNo, Some(CodeOf(f.payload)))]
    else if f.opcode == 7 then [Gap(f.seqNo)]
    else []
  }

  function CodeOf(payload: seq<byte>): (n: int)
    requires |payload| >= 4
    ensures Exits(payload, Some(n)) && -2_147_483_648 <= n <= 2_147_483_647
  {
    payload[0] as int + 256 * payload[1] as int + 65_536 * payload[2] as int
    + 16_777_216 * (if payload[3] < 128 then payload[3] as int else payload[3] as int - 256)
  }

  lemma PayloadsMean(payload: seq<byte>)
    ensures DecodeSize(payload).None? <==> |payload| < 4
    ensures DecodeSize(payload).Some? ==> Sizes(payload, DecodeSize(payload).value.0, DecodeSize(payload).value.1)
    ensures DecodeExit(payload).None? <==> 0 < |payload| < 4
    ensures DecodeExit(payload).Some? ==> Exits(payload, DecodeExit(payload).value)
  {
  }

  lemma ExitSays(f: PtyFrame)
    requires f.opcode == 6 && (f.payload == [] || |f.payload| >= 4)
    ensures !Throws(f) && Says(f) == [PtyEvent.Ended(f.seqNo, DecodeExit(f.payload).value)]
  {
    PayloadsMean(f.payload);
  }

  lemma SizeSays(f: PtyFrame)
    requires f.opcode == 5 && |f.payload| >= 4
    ensures !Throws(f) && Says(f) == [Resize(f.seqNo, DecodeSize(f.payload).value.0, DecodeSize(f.payload).value.1)]
  {
  }

  /** On a live stream: the log gains what a frame of no snapshot opcode says, and only an exit ends it. */
  lemma LiveFrame(s: Stream, f: PtyFrame)
    requires f.opcode !in {2, 3, 4} && !s.ended
    ensures var t := Ingest(s, f);
            && t.pushed == s.pushed + Says(f)
            && (t.ended <==> f.opcode == 6 && (f.payload == [] || |f.payload| >= 4))
  {
    if f.opcode == 6 && (f.payload == [] || |f.payload| >= 4) {
      ExitSays(f);
    } else if f.opcode == 5 && |f.payload| >= 4 {
      SizeSays(f);
    }
  }

  /**
   * A frame of no snapshot opcode adds what it says to a live stream's log, and nothing to an ended one's; one that
   * throws, or whose opcode is unknown, changes nothing at all.
   */
  lemma FrameLaw(s: Stream, f: PtyFrame)
    requires f.opcode !in {2, 3, 4}
    ensures var t := Ingest(s, f);
            && t.pushed == (if s.ended then s.pushed else s.pushed + Says(f))
            && t.snapshot == s.snapshot && t.error == s.error && t.calls == s.calls
            && (t.ended <==> s.ended || (f.opcode == 6 && (f.payload == [] || |f.payload| >= 4)))
            && (Throws(f) <==> (f.opcode == 5 && |f.payload| < 4) || (f.opcode == 6 && 0 < |f.payload| < 4))
            && (Throws(f) || f.opcode == 0 || f.opcode > 7 || s.ended ==> t == s)
  {
    if !s.ended { LiveFrame(s, f); }
  }

  /** A snapshot's start opens it, with no bytes yet, in place of any other; a short one throws. */
  lemma SnapshotStarts(s: Stream, f: PtyFrame)
    requires f.opcode == 2
    ensures var t := Ingest(s, f);
            if |f.payload| < 4 then Throws(f) && t == s
            else && !Throws(f) && t == s.(snapshot := t.snapshot) && t.snapshot.Some?
                 && var p := t.snapshot.value;
                    p.seqNo == f.seqNo && Sizes(f.payload, p.cols, p.rows) && p.chunks == [] && p.bytes == 0
  {
    PayloadsMean(f.payload);
  }

  /** The calls that waited are rejected, the others settled as before. */
  predicate Refused(s: Stream, t: Stream) {
    && t.settled.Keys == s.settled.Keys + set i | i in s.pullers
    && forall i | i in t.settled ::
         if i in s.pullers then t.settled[i] == Rejected else i in s.settled && t.settled[i] == s.settled[i]
  }

  /**
   * A chunk joins the open snapshot of a live stream exactly while that comes to at most 8 MiB and at most 4096
   * chunks; one more ends the stream in error, and its waiting calls are rejected. Without a snapshot it is nothing.
   */
  lemma ChunkLaw(s: Stream, f: PtyFrame)
    requires f.opcode == 3 && !s.ended
    ensures var t := Ingest(s, f);
            && t.pushed == s.pushed && t.queue == s.queue && t.heard == s.heard
            && (s.snapshot.None? ==> t == s)
            && (s.snapshot.Some? ==>
                  var p := s.snapshot.value;
                  if p.bytes + |f.payload| <= 8_388_608 && |p.chunks| + 1 <= 4096
                  then t == s.(snapshot := Some(p.(chunks := p.chunks + [f.payload], bytes := p.bytes + |f.payload|)))
                  else t.ended && t.error && t.snapshot.None? && t.pullers == [] && Refused(s, t))
  {
  }

  /** A snapshot's end closes it; on a live stream that adds the snapshot, its chunks in order. */
  lemma SnapshotEnds(s: Stream, f: PtyFrame)
    requires f.opcode == 4
    ensures var t := Ingest(s, f);
            && t.snapshot.None? && t.ended == s.ended && t.error == s.error
            && (s.snapshot.None? ==> t == s)
            && (s.snapshot.Some? ==>
                  var p := s.snapshot.value;
                  t.pushed == s.pushed
                    + if s.ended then [] else [Snapshot(p.seqNo, p.cols, p.rows, Flatten(p.chunks))])
  {
  }

  /** What ends a live stream: `end()`, a well-formed exit frame, or a chunk too much. Nothing else does. */
  lemma EndLaw(s: Stream, e: Event)
    requires !s.ended
    ensures Step(s, e).ended <==>
            || e.Ends?
            || (e.Ingests? && e.frame.opcode == 6 && (e.frame.payload == [] || |e.frame.payload| >= 4))
            || (e.Ingests? && e.frame.opcode == 3 && s.snapshot.Some?
                && (s.snapshot.value.bytes + |e.frame.payload| > 8_388_608 || |s.snapshot.value.chunks| + 1 > 4096))
  {
    if e.Ingests? {
      if e.frame.opcode == 2 {
        SnapshotStarts(s, e.frame);
      } else if e.frame.opcode == 3 {
        ChunkLaw(s, e.frame);
      } else if e.frame.opcode == 4 {
        SnapshotEnds(s, e.frame);
      } else {
        FrameLaw(s, e.frame);
      }
    }
  }

  // ---- Every run --------------------------------------------------------------------------------

  /** What the frames say, one after the other. */
  function Said(frames: seq<PtyFrame>): seq<PtyEvent>
    decreases |frames|
  {
    if frames == [] then [] else Says(frames[0]) + Said(frames[1..])
  }

  /** A log without its snapshots. */
  function Spoken(log: seq<PtyEvent>): seq<PtyEvent> {
    if log == [] then []
    else Spoken(log[..|log| - 1]) + if log[|log| - 1].Snapshot? then [] else [log[|log| - 1]]
  }

  lemma SpokenSnoc(log: seq<PtyEvent>, event: PtyEvent)
    ensures Spoken(log + [event]) == Spoken(log) + if event.Snapshot? then [] else [event]
  {
    assert (log + [event])[..|log|] == log;
  }

  /** One event of a live stream: its log gains what the frame says, and at most a snapshot. */
  lemma StepSpeaks(s: Stream, e: Event)
    requires !s.ended
    ensures Spoken(Step(s, e).pushed) == Spoken(s.pushed) + if e.Ingests? then Says(e.frame) else []
  {
    if e.Ingests? {
      var f := e.frame;
      if f.opcode == 2 {
        SnapshotStarts(s, f);
      } else if f.opcode == 3 {
        ChunkLaw(s, f);
      } else if f.opcode == 4 {
        SnapshotEnds(s, f);
        if s.snapshot.Some? {
          var p := s.snapshot.value;
          SpokenSnoc(s.pushed, Snapshot(p.seqNo, p.cols, p.rows, Flatten(p.chunks)));
        }
      } else {
        FrameLaw(s, f);
        if Says(f) != [] { SpokenSnoc(s.pushed, Says(f)[0]); }
      }
    }
  }

  /** The stream is live through the first `k` events but maybe the last; then it has ended, or the run has. */
  ghost predicate LiveFor(s: Stream, events: seq<Event>, k: nat) {
    && k <= |events|
    && (forall j: nat | j < k :: !Run(s, events[..j]).ended)
    && (k < |events| ==> Run(s, events[..k]).ended)
  }

  lemma LiveRest(s: Stream, events: seq<Event>, k: nat)
    requires LiveFor(s, events, k) && k > 0
    ensures !s.ended && LiveFor(Step(s, events[0]), events[1..], k - 1)
  {
    assert events[..0] == [];
    assert !Run(s, events[..0]).ended;
    forall j: nat | j < |events|
      ensures Run(Step(s, events[0]), events[1..][..j]) == Run(s, events[..j + 1])
    {
      assert events[..j + 1][1..] == events[1..][..j];
    }
  }

  lemma SaidFirst(events: seq<Event>)
    requires events != []
    ensures Said(Frames(events)) == (if events[0].Ingests? then Says(events[0].frame) else [])
                                    + Said(Frames(events[1..]))
  {
    if events[0].Ingests? {
      assert Frames(events)[0] == events[0].frame && Frames(events)[1..] == Frames(events[1..]);
    } else {
      assert Frames(events) == Frames(events[1..]);
    }
  }

  lemma RunFirst(s: Stream, events: seq<Event>)
    requires events != []
    ensures Run(s, events) == Run(Step(s, events[0]), events[1..])
  {
  }

  lemma Joins<T>(a: seq<T>, b: seq<T>, c: seq<T>, ab: seq<T>, bc: seq<T>)
    requires ab == a + b && bc == b + c
    ensures ab + c == a + bc
  {
  }

  lemma {:induction false} LogFrom(s: Stream, events: seq<Event>, k: nat)
    requires LiveFor(s, events, k)
    ensures Spoken(Run(s, events).pushed) == Spoken(s.pushed) + Said(Frames(events[..k]))
    decreases k
  {
    if k == 0 {
      assert events[..0] == [];
      LogGrows(s, events);
    } else {
      LiveRest(s, events, k);
      LogFrom(Step(s, events[0]), events[1..], k - 1);
      RunFirst(s, events);
      StepSpeaks(s, events[0]);
      assert events[..k][1..] == events[1..][..k - 1];
      SaidFirst(events[..k]);
      Joins(Spoken(s.pushed), if events[0].Ingests? then Says(events[0].frame) else [],
            Said(Frames(events[1..][..k - 1])), Spoken(Step(s, events[0]).pushed), Said(Frames(events[..k])));
    }
  }

  /** No stream comes back to life. */
  lemma {:induction false} EndedStays(s: Stream, events: seq<Event>, k: nat)
    requires k <= |events| && Run(s, events[..k]).ended
    ensures Run(s, events).ended
    decreases k
  {
    if k == 0 {
      assert events[..0] == [];
      LogGrows(s, events);
    } else {
      assert events[..k][1..] == events[1..][..k - 1];
      EndedStays(Step(s, events[0]), events[1..], k - 1);
    }
  }

  /**
   * Over every run the log, but for snapshots, is exactly what the frames ingested up to the stream's end say, in
   * order.
   */
  lemma LogExact(events: seq<Event>, k: nat)
    requires LiveFor(NewStream(), events, k)
    ensures Spoken(Run(NewStream(), events).pushed) == Said(Frames(events[..k]))
  {
    LogFrom(NewStream(), events, k);
  }

  /** There is such a `k` for every run. */
  lemma {:induction false} SomeEnd(s: Stream, events: seq<Event>) returns (k: nat)
    ensures LiveFor(s, events, k)
    ensures !Run(s, events).ended ==> k == |events|
    decreases |events|
  {
    if events == [] || s.ended {
      k := 0;
      assert events[..0] == [];
      LogGrows(s, events);
    } else {
      var l := SomeEnd(Step(s, events[0]), events[1..]);
      k := l + 1;
      forall j: nat | 0 < j <= |events|
        ensures Run(s, events[..j]) == Run(Step(s, events[0]), events[1..][..j - 1])
      {
        assert events[..j][1..] == events[1..][..j - 1];
      }
      assert events[..0] == [];
    }
  }

  // ---- Terminal bytes ---------------------------------------------------------------------------

  /** The bytes of the output events. */
  function Shown(log: seq<PtyEvent>): seq<byte>
    decreases |log|
  {
    if log == [] then [] else (if log[0].Output? then log[0].data else []) + Shown(log[1..])
  }

  /** The payloads of the output frames. */
  function Sent(frames: seq<PtyFrame>): seq<byte>
    decreases |frames|
  {
    if frames == [] then [] else (if frames[0].opcode == 1 then frames[0].payload else []) + Sent(frames[1..])
  }

  lemma {:induction false} ShownJoins(a: seq<PtyEvent>, b: seq<PtyEvent>)
    ensures Shown(a + b) == Shown(a) + Shown(b)
    decreases |a|
  {
    if a == [] {
      assert [] + b == b;
    } else {
      assert (a + b)[1..] == a[1..] + b;
      ShownJoins(a[1..], b);
    }
  }

  lemma {:induction false} ShownSpoken(log: seq<PtyEvent>)
    ensures Shown(Spoken(log)) == Shown(log)
    decreases |log|
  {
    if log != [] {
      var before, last := log[..|log| - 1], log[|log| - 1];
      ShownSpoken(before);
      assert log == before + [last];
      ShownJoins(before, [last]);
      ShownJoins(Spoken(before), if last.Snapshot? then [] else [last]);
      assert [last][1..] == [];
    }
  }

  lemma {:induction false} ShownSaid(frames: seq<PtyFrame>)
    ensures Shown(Said(frames)) == Sent(frames)
    decreases |frames|
  {
    if frames != [] {
      ShownSaid(frames[1..]);
      ShownJoins(Says(frames[0]), Said(frames[1..]));
      if Says(frames[0]) != [] { assert Says(frames[0])[1..] == []; }
    }
  }

  /**
   * Over every run no terminal byte is lost, doubled or moved: the output events' data, joined, are the payloads of
   * the output frames ingested before the end, joined; of all of them while the stream is live.
   */
  lemma OutputExact(events: seq<Event>, k: nat)
    requires LiveFor(NewStream(), events, k)
    ensures Shown(Run(NewStream(), events).pushed) == Sent(Frames(events[..k]))
    ensures !Run(NewStream(), events).ended ==> Shown(Run(NewStream(), events).pushed) == Sent(Frames(events))
  {
    LogExact(events, k);
    ShownSpoken(Run(NewStream(), events).pushed);
    ShownSaid(Frames(events[..k]));
    if !Run(NewStream(), events).ended {
      if k < |events| { EndedStays(NewStream(), events, k); }
      assert events[..k] == events;
    }
  }
}

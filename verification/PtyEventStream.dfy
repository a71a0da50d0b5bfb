/**
 * The event stream as the class it is (packages/sdk/src/events.ts). Promises are numbered, and a
 * listener is known by its number; each method is shown to move the state as the state machine says.
 */
module PtyEventStreams {
  import opened Bytes
  import opened PtyFrames
  import opened PtyPayloads
  import opened PtyEvents

  /** Concatenate byte chunks into one buffer. */
  method Concat(chunks: seq<seq<byte>>) returns (out: array<byte>)
    ensures fresh(out) && out[..] == Flatten(chunks)
  {
    var total := 0;
    for i := 0 to |chunks|
      invariant total == |Flatten(chunks[..i])|
    {
      assert chunks[..i + 1] == chunks[..i] + [chunks[i]];
      FlattenSnoc(chunks[..i], chunks[i]);
      total := total + |chunks[i]|;
    }
    assert chunks[..|chunks|] == chunks;
    out := new byte[total];
    var offset := 0;
    for i := 0 to |chunks|
      invariant offset == |Flatten(chunks[..i])| <= out.Length == |Flatten(chunks)|
      invariant out[..offset] == Flatten(chunks[..i])
    {
      ghost var before := out[..offset];
      assert chunks == chunks[..i] + chunks[i..];
      FlattenConcat(chunks[..i], chunks[i..]);
      assert |Flatten(chunks[i..])| >= |chunks[i]|;
      assert chunks[..i + 1] == chunks[..i] + [chunks[i]];
      FlattenSnoc(chunks[..i], chunks[i]);
      forall j | 0 <= j < |chunks[i]| {
        out[offset + j] := chunks[i][j];
      }
      offset := offset + |chunks[i]|;
      assert out[..offset] == before + chunks[i];
    }
  }

  lemma SettleOneMore(settled: map<nat, Settlement>, pullers: seq<nat>, i: nat, r: Settlement)
    requires i < |pullers|
    ensures SettleAll(settled, pullers[..i + 1], r) == SettleAll(settled, pullers[..i], r)[pullers[i] := r]
  {
    assert pullers[..i + 1] == pullers[..i] + [pullers[i]];
  }

  class PtyEventStream {
    var queue: seq<PtyEvent>
    var pullers: seq<nat>
    var snapshot: Option<PendingSnapshot>
    var ended: bool
    var error: bool
    var calls: nat
    var settled: map<nat, Settlement>
    var heard: map<nat, seq<PtyEvent>>
    ghost var pushed: seq<PtyEvent>
    ghost var since: map<nat, nat>

    ghost function State(): Stream
      reads this
    {
      Stream(queue, pullers, snapshot, ended, error, calls, settled, pushed, heard, since)
    }

    constructor ()
      ensures State() == NewStream()
    {
      queue, pullers, snapshot, ended, error := [], [], None, false, false;
      calls, settled, heard, pushed, since := 0, map[], map[], [], map[];
    }

    method OnEvent(listener: nat)
      modifies this
      ensures State() == Listen(old(State()), listener)
    {
      if listener !in heard {
        heard := heard[listener := []];
        since := since[listener := |pushed|];
      }
    }

    /** Call every listener. */
    method Notify(event: PtyEvent)
      modifies this`heard
      ensures heard == Tell(old(heard), event)
    {
      var rest := heard.Keys;
      while rest != {}
        invariant rest <= heard.Keys == old(heard.Keys)
        invariant forall l | l in heard :: heard[l] == if l in rest then old(heard)[l] else old(heard)[l] + [event]
        decreases |rest|
      {
        var l :| l in rest;
        heard := heard[l := heard[l] + [event]];
        rest := rest - {l};
      }
    }

    method PushEvent(event: PtyEvent)
      modifies this
      ensures State() == Push(old(State()), event)
    {
      if ended {
        return;
      }
      Notify(event);
      pushed := pushed + [event];
      if pullers != [] {
        settled := settled[pullers[0] := Value(event)];
        pullers := pullers[1..];
      } else {
        queue := queue + [event];
      }
    }

    /** Settle every waiting call alike. */
    method SettlePullers(r: Settlement)
      modifies this`settled, this`pullers
      ensures pullers == [] && settled == SettleAll(old(settled), old(pullers), r)
    {
      var i := 0;
      while i < |pullers|
        invariant i <= |pullers| && pullers == old(pullers)
        invariant settled == SettleAll(old(settled), pullers[..i], r)
      {
        SettleOneMore(old(settled), pullers, i, r);
        settled := settled[pullers[i] := r];
        i := i + 1;
      }
      assert pullers[..i] == pullers;
      pullers := [];
    }

    method Finish()
      modifies this
      ensures State() == End(old(State()))
    {
      if ended {
        return;
      }
      ended := true;
      SettlePullers(Done);
    }

    method FailStream()
      modifies this
      ensures State() == Fail(old(State()))
    {
      if ended {
        return;
      }
      ended := true;
      error := true;
      snapshot := None;
      SettlePullers(Rejected);
    }

    /** The iterator's `next()`; the call is numbered `calls`. */
    method Next()
      modifies this
      ensures State() == Pull(old(State()))
    {
      var call := calls;
      calls := calls + 1;
      if queue != [] {
        var event := queue[0];
        queue := queue[1..];
        settled := settled[call := Value(event)];
      } else if error {
        settled := settled[call := Rejected];
      } else if ended {
        settled := settled[call := Done];
      } else {
        pullers := pullers + [call];
      }
    }

    method AppendChunk(payload: seq<byte>)
      modifies this
      ensures State() == AddChunk(old(State()), payload)
    {
      if snapshot.None? {
        return;
      }
      var p := snapshot.value;
      p := p.(chunks := p.chunks + [payload]);
      p := p.(bytes := p.bytes + |payload|);
      snapshot := Some(p);
      if p.bytes > MAX_SNAPSHOT_BYTES || |p.chunks| > MAX_SNAPSHOT_CHUNKS {
        FailStream();
      }
    }

    /** Feed one decoded frame; false where the source throws. */
    method IngestFrame(f: PtyFrame) returns (ok: bool)
      modifies this
      ensures State() == Ingest(old(State()), f) && ok == !Throws(f)
    {
      ok := true;
      if f.opcode == SNAPSHOT_START {
        var size := DecodeSize(f.payload);
        if size.None? {
          return false;
        }
        snapshot := Some(PendingSnapshot(f.seqNo, size.value.0, size.value.1, [], 0));
      } else if f.opcode == SNAPSHOT_CHUNK {
        AppendChunk(f.payload);
      } else if f.opcode == SNAPSHOT_END {
        var p := snapshot;
        snapshot := None;
        if p.Some? {
          var data := Concat(p.value.chunks);
          PushEvent(Snapshot(p.value.seqNo, p.value.cols, p.value.rows, data[..]));
        }
      } else if f.opcode == OUTPUT {
        PushEvent(Output(f.seqNo, f.payload));
      } else if f.opcode == RESIZED {
        var size := DecodeSize(f.payload);
        if size.None? {
          return false;
        }
        PushEvent(Resize(f.seqNo, size.value.0, size.value.1));
      } else if f.opcode == ENDED {
        var code := DecodeExit(f.payload);
        if code.None? {
          return false;
        }
        PushEvent(Ended(f.seqNo, code.value));
        Finish();
      } else if f.opcode == GAP {
        PushEvent(Gap(f.seqNo));
      }
    }
  }
}

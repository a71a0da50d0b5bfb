/** The plaintext unit of a record (packages/channel/src/frame.ts): `tag(1) || payload`. */
module Frames {
  import opened Bytes

  datatype Lane = Control | Binary

  datatype Frame = Frame(lane: Lane, payload: seq<byte>)

  const FRAME_TAG_BYTES := 1

  function TagOf(lane: Lane): byte {
    match lane
    case Control => 0x01
    case Binary => 0x02
  }

  function FrameBytes(frame: Frame): (bytes: seq<byte>)
    ensures |bytes| == FRAME_TAG_BYTES + |frame.payload|
  {
    [TagOf(frame.lane)] + frame.payload
  }

  method EncodeFrame(frame: Frame) returns (out: array<byte>)
    ensures fresh(out) && out[..] == FrameBytes(frame)
  {
    out := new byte[FRAME_TAG_BYTES + |frame.payload|];
    out[0] := TagOf(frame.lane);
    forall i | 0 <= i < |frame.payload| {
      out[FRAME_TAG_BYTES + i] := frame.payload[i];
    }
  }

  /** None for an empty buffer or an unknown tag. */
  function DecodeFrame(bytes: seq<byte>): Option<Frame> {
    if |bytes| < 1 then None
    else if bytes[0] == 0x01 then Some(Frame(Control, bytes[1..]))
    else if bytes[0] == 0x02 then Some(Frame(Binary, bytes[1..]))
    else None
  }

  /** Decoding undoes encoding, and whatever decodes re-encodes to the same bytes. */
  lemma FrameRoundTrip(frame: Frame, bytes: seq<byte>)
    ensures DecodeFrame(FrameBytes(frame)) == Some(frame)
    ensures DecodeFrame(bytes) == Some(frame) <==> bytes == FrameBytes(frame)
  {
    assert FrameBytes(frame)[1..] == frame.payload;
    if DecodeFrame(bytes) == Some(frame) {
      assert bytes == [bytes[0]] + bytes[1..];
    }
  }
}

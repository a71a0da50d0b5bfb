/** The binary PTY frame (protocol/src/pty-frame.ts): a 16-byte little-endian header and a payload. */
module PtyFrames {
  import opened Bytes

  const PTY_FRAME_KIND := 0x74
  const PTY_FRAME_VERSION := 1
  const HEADER_BYTES := 16

  /** Integers a double holds exactly. */
  const SAFE := 0x20_0000_0000_0000

  datatype PtyFrame = PtyFrame(opcode: byte, streamId: nat, seqNo: nat, payload: seq<byte>)

  /** `>>> 0` and `setUint32`: the low 32 bits. */
  function Low(n: nat): Word {
    n % 0x1_0000_0000
  }

  /** `setUint32(_, w, true)`. */
  function LittleU32(w: Word): (s: seq<byte>)
    ensures |s| == 4
  {
    [w % 0x100, w / 0x100 % 0x100, w / 0x1_0000 % 0x100, w / 0x100_0000]
  }

  function LittleAt(s: seq<byte>, i: nat): Word
    requires i + 4 <= |s|
  {
    s[i] as int + s[i + 1] as int * 0x100 + s[i + 2] as int * 0x1_0000 + s[i + 3] as int * 0x100_0000
  }

  function EncodePtyFrame(f: PtyFrame): (s: seq<byte>)
    ensures |s| == HEADER_BYTES + |f.payload|
  {
    [PTY_FRAME_KIND, PTY_FRAME_VERSION, f.opcode, 0] + LittleU32(Low(f.streamId)) + LittleU32(Low(f.seqNo))
    + LittleU32(Low(f.seqNo / 0x1_0000_0000)) + f.payload
  }

  function DecodePtyFrame(s: seq<byte>): Option<PtyFrame> {
    if |s| < HEADER_BYTES || s[0] != PTY_FRAME_KIND || s[1] != PTY_FRAME_VERSION then None
    else Some(PtyFrame(s[2], LittleAt(s, 4), LittleAt(s, 12) * 0x1_0000_0000 + LittleAt(s, 8), s[HEADER_BYTES..]))
  }

  lemma LittleRoundTrip(w: Word, before: seq<byte>, after: seq<byte>)
    ensures LittleAt(before + LittleU32(w) + after, |before|) == w
  {
    var s := before + LittleU32(w) + after;
    Digits(w);
    assert s[|before|] == w % 0x100 && s[|before| + 1] == w / 0x100 % 0x100;
    assert s[|before| + 2] == w / 0x1_0000 % 0x100 && s[|before| + 3] == w / 0x100_0000;
  }

  lemma LittleOfBytes(s: seq<byte>, i: nat)
    requires i + 4 <= |s|
    ensures LittleU32(LittleAt(s, i)) == s[i..i + 4]
  {
    var a, b, c, d := s[i] as int, s[i + 1] as int, s[i + 2] as int, s[i + 3] as int;
    LowDigit(a, b + c * 0x100 + d * 0x1_0000, LittleAt(s, i));
    LowDigit(b, c + d * 0x100, b + c * 0x100 + d * 0x1_0000);
    LowDigit(c, d, c + d * 0x100);
    Digits(LittleAt(s, i));
    assert s[i..i + 4] == [s[i], s[i + 1], s[i + 2], s[i + 3]];
  }

  /** The lowest digit to base 256, and the rest. */
  lemma LowDigit(digit: int, rest: int, n: int)
    requires 0 <= digit < 0x100 && n == digit + rest * 0x100
    ensures n % 0x100 == digit && n / 0x100 == rest
  {
  }

  /** What a frame decodes to: itself but for what 32 bits of stream id and 64 of sequence number drop. */
  lemma DecodeEncoded(f: PtyFrame)
    ensures DecodePtyFrame(EncodePtyFrame(f))
            == Some(f.(streamId := Low(f.streamId), seqNo := f.seqNo % 0x1_0000_0000_0000_0000))
  {
    var s := EncodePtyFrame(f);
    var a, b, c, d := [PTY_FRAME_KIND, PTY_FRAME_VERSION, f.opcode, 0], LittleU32(Low(f.streamId)),
        LittleU32(Low(f.seqNo)), LittleU32(Low(f.seqNo / 0x1_0000_0000));
    assert s == a + b + (c + d + f.payload) == (a + b) + c + (d + f.payload) == (a + b + c) + d + f.payload;
    LittleRoundTrip(Low(f.streamId), a, c + d + f.payload);
    LittleRoundTrip(Low(f.seqNo), a + b, d + f.payload);
    LittleRoundTrip(Low(f.seqNo / 0x1_0000_0000), a + b + c, f.payload);
    assert s[HEADER_BYTES..] == f.payload;
    assert s[0] == PTY_FRAME_KIND && s[1] == PTY_FRAME_VERSION && s[2] == f.opcode;
  }

  /** Decoding undoes encoding exactly for stream ids of 32 bits, whatever safe integer the sequence number is. */
  lemma PtyRoundTrip(f: PtyFrame)
    requires f.seqNo < SAFE
    ensures DecodePtyFrame(EncodePtyFrame(f)) == Some(f) <==> f.streamId < 0x1_0000_0000
  {
    DecodeEncoded(f);
    SafeFits(f.seqNo);
  }

  lemma Halves(lo: Word, hi: Word)
    ensures var n := hi * 0x1_0000_0000 + lo; Low(n) == lo && Low(n / 0x1_0000_0000) == hi
  {
  }

  lemma SafeFits(n: nat)
    requires n < SAFE
    ensures n % 0x1_0000_0000_0000_0000 == n
  {
  }

  /**
   * Encoding undoes decoding but for the reserved byte, which is not kept: exactly when that is 0. Beyond
   * `SAFE` the source's arithmetic rounds.
   */
  lemma EncodeDecoded(s: seq<byte>)
    requires DecodePtyFrame(s).Some? && DecodePtyFrame(s).value.seqNo < SAFE
    ensures EncodePtyFrame(DecodePtyFrame(s).value) == s[3 := 0]
    ensures EncodePtyFrame(DecodePtyFrame(s).value) == s <==> s[3] == 0
  {
    var f := DecodePtyFrame(s).value;
    LittleOfBytes(s, 4);
    LittleOfBytes(s, 8);
    LittleOfBytes(s, 12);
    Halves(LittleAt(s, 8), LittleAt(s, 12));
    assert EncodePtyFrame(f) == [s[0], s[1], s[2], 0] + s[4..8] + s[8..12] + s[12..16] + s[16..];
    assert s[3 := 0] == [s[0], s[1], s[2], 0] + s[4..8] + s[8..12] + s[12..16] + s[16..];
    assert s[3 := 0][3] == 0;
  }

  method SetUint32(view: array<byte>, at: nat, w: Word)
    requires at + 4 <= view.Length
    modifies view
    ensures view[at..at + 4] == LittleU32(w)
    ensures view[..at] == old(view[..at]) && view[at + 4..] == old(view[at + 4..])
  {
    view[at], view[at + 1], view[at + 2], view[at + 3] := w % 0x100, w / 0x100 % 0x100, w / 0x1_0000 % 0x100,
        w / 0x100_0000;
  }

  /** The header written field by field, then the payload. */
  method WritePtyFrame(f: PtyFrame) returns (out: array<byte>)
    ensures fresh(out) && out[..] == EncodePtyFrame(f)
  {
    out := new byte[HEADER_BYTES + |f.payload|];
    out[0], out[1], out[2], out[3] := PTY_FRAME_KIND, PTY_FRAME_VERSION, f.opcode, 0;
    var head := [PTY_FRAME_KIND, PTY_FRAME_VERSION, f.opcode, 0];
    assert out[..4] == head;
    SetUint32(out, 4, f.streamId % 0x1_0000_0000);
    assert out[..8] == out[..4] + out[4..8] == head + LittleU32(Low(f.streamId));
    SetUint32(out, 8, f.seqNo % 0x1_0000_0000);
    assert out[..12] == out[..8] + out[8..12];
    SetUint32(out, 12, f.seqNo / 0x1_0000_0000 % 0x1_0000_0000);
    assert out[..16] == out[..12] + out[12..16];
    forall i | 0 <= i < |f.payload| {
      out[HEADER_BYTES + i] := f.payload[i];
    }
    assert out[..] == out[..16] + out[16..];
    assert out[16..] == f.payload;
  }
}

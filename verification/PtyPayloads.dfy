/** The fixed-shape payloads of PTY frames (protocol/src/pty-payloads.ts). */
module PtyPayloads {
  import opened Bytes
  import opened PtyFrames

  function LittleU16(n: int): (s: seq<byte>)
    ensures |s| == 2
  {
    [n % 0x1_0000 % 0x100, n % 0x1_0000 / 0x100]
  }

  function EncodeSize(cols: nat, rows: nat): seq<byte> {
    LittleU16(cols) + LittleU16(rows)
  }

  /** None where reading past the end throws; bytes beyond the fourth are not looked at. */
  function DecodeSize(payload: seq<byte>): Option<(nat, nat)> {
    if |payload| < 4 then None
    else Some((payload[0] as int + payload[1] as int * 0x100, payload[2] as int + payload[3] as int * 0x100))
  }

  /** `setInt32` / `getInt32`: two's complement. */
  function EncodeExit(code: Option<int>): seq<byte> {
    match code
    case None => []
    case Some(n) => LittleU32(n % 0x1_0000_0000)
  }

  function Signed(w: Word): int {
    if w < 0x8000_0000 then w else w - 0x1_0000_0000
  }

  /** None where reading throws: one to three bytes are neither an exit code nor its absence. */
  function DecodeExit(payload: seq<byte>): Option<Option<int>> {
    if payload == [] then Some(None)
    else if |payload| < 4 then None
    else Some(Some(Signed(LittleAt(payload, 0))))
  }

  lemma SizeRoundTrip(cols: nat, rows: nat)
    ensures DecodeSize(EncodeSize(cols, rows)) == Some((cols % 0x1_0000, rows % 0x1_0000))
  {
  }

  /** Exactly the 32-bit exit codes survive. */
  lemma ExitRoundTrip(code: Option<int>)
    ensures DecodeExit(EncodeExit(code)) == Some(code) <==> (code.Some? ==> -0x8000_0000 <= code.value < 0x8000_0000)
  {
    if code.Some? {
      var w := code.value % 0x1_0000_0000;
      LittleRoundTrip(w, [], []);
      assert [] + LittleU32(w) + [] == LittleU32(w);
      assert Signed(w) == code.value <==> -0x8000_0000 <= code.value < 0x8000_0000;
    }
  }
}

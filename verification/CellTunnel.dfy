/** The cell's half of the tunnel is the cell. */
module CellTunnel {
  // Its splice, its raw steps and its closes, seen from one bridge.

  import opened Bytes
  import opened Symbols
  import opened Messages
  import opened HostProofs
  import opened Cells
  import opened CellSafety
  import opened CellEffects
  import opened CellTheorems
  import OuterFraming
  import Framing
  import T = Tunnels

  // ---- What the cell wrote to one connection -----------------------------------------------------

  function ToEnd(out: seq<Out>, c: ConnId): seq<Out> {
    if out == [] then []
    else
      var before, last := ToEnd(out[..|out| - 1], c), out[|out| - 1];
      if last.to == c then before + [last] else before
  }

  lemma ToEndSnoc(out: seq<Out>, o: Out, c: ConnId)
    ensures ToEnd(out + [o], c) == if o.to == c then ToEnd(out, c) + [o] else ToEnd(out, c)
  {
    assert (out + [o])[..|out|] == out;
  }

  /** As bytes on the wire. */
  function WireOf(codec: T.Wire, o: Out): seq<byte> {
    match o
    case Sent(_, m) => if |codec.encode(m)| < 0x1_0000_0000 then T.Frame(codec, m) else []
    case Piped(_, _, bytes) => bytes
  }

  function Written(codec: T.Wire, out: seq<Out>): seq<byte> {
    if out == [] then [] else Written(codec, out[..|out| - 1]) + WireOf(codec, out[|out| - 1])
  }

  function Relayed(out: seq<Out>): seq<byte> {
    if out == [] then []
    else Relayed(out[..|out| - 1]) + if out[|out| - 1].Piped? then out[|out| - 1].bytes else []
  }

  lemma WrittenSnoc(codec: T.Wire, out: seq<Out>, o: Out)
    ensures Written(codec, out + [o]) == Written(codec, out) + WireOf(codec, o)
    ensures Relayed(out + [o]) == Relayed(out) + if o.Piped? then o.bytes else []
  {
    assert (out + [o])[..|out|] == out;
  }

  // ---- A tunnel in step with a bridge ------------------------------------------------------------

  /** The tunnel's end and the cell's connection: both raw and piped, open or closed alike, and written the same. */
  predicate MirrorsEnd(codec: T.Wire, s: Cell, c: ConnId, e: T.End) {
    && Get(s, c).raw && e.cell.raw && e.cell.consumer && OuterFraming.Ok(e.cell)
    && e.cell.closed == Get(s, c).closed
    && e.written == Written(codec, ToEnd(s.out, c)) && e.relayed == Relayed(ToEnd(s.out, c))
  }

  predicate Mirrors(codec: T.Wire, s: Cell, a: ConnId, b: ConnId, t: T.Tunnel) {
    && a != b && t.spliced && Get(s, a).pipe == Some(b) && Get(s, b).pipe == Some(a)
    && MirrorsEnd(codec, s, a, t.a) && MirrorsEnd(codec, s, b, t.b)
  }

  /** What is piped to an open end it is written and relayed; to a closed one, nothing is. */
  lemma PourMirrors(codec: T.Wire, s: Cell, from: ConnId, to: ConnId, bytes: seq<byte>, e: T.End)
    requires MirrorsEnd(codec, s, to, e)
    ensures MirrorsEnd(codec, Pour(s, from, to, bytes), to, T.Relay(e, bytes))
    ensures MirrorsEnd(codec, PourHeld(s, from, to, bytes), to, T.Relay(e, bytes))
  {
    ToEndSnoc(s.out, Piped(from, to, bytes), to);
    WrittenSnoc(codec, ToEnd(s.out, to), Piped(from, to, bytes));
    assert e.written + [] == e.written && e.relayed + [] == e.relayed && e.down + [] == e.down;
  }

  lemma PourSpares(codec: T.Wire, s: Cell, from: ConnId, to: ConnId, bytes: seq<byte>, c: ConnId, e: T.End)
    requires MirrorsEnd(codec, s, c, e) && c != to
    ensures MirrorsEnd(codec, Pour(s, from, to, bytes), c, e) && MirrorsEnd(codec, PourHeld(s, from, to, bytes), c, e)
  {
    ToEndSnoc(s.out, Piped(from, to, bytes), c);
  }

  /** Bytes that reach a raw end of the tunnel. */
  lemma ArriveRaw(codec: T.Wire, t: T.Tunnel, side: Side, bytes: seq<byte>)
    requires T.Signals(codec) && OuterFraming.Ok(t.a.cell) && OuterFraming.Ok(t.b.cell)
    requires t.End(side).cell.raw && t.End(side).cell.consumer
    ensures var e, o := t.End(side), t.End(T.Other(side));
            var arrived := if e.cell.closed then [] else bytes;
            T.Arrive(codec, t, side, bytes)
                == t.With(side, e.(cell := e.cell.(out := e.cell.out + arrived))).With(T.Other(side),
                    T.Relay(o, arrived))
  {
    var e := t.End(side);
    var arrived := if e.cell.closed then [] else bytes;
    assert e.cell.out + [] == e.cell.out && (e.cell.out + arrived)[|e.cell.out|..] == arrived;
    assert OuterFraming.Receive(codec, T.Waiting(), e.cell, bytes) == e.cell.(out := e.cell.out + arrived);
  }

  lemma RelayNothing(e: T.End)
    ensures T.Relay(e, []) == e
  {
    assert e.down + [] == e.down && e.written + [] == e.written && e.relayed + [] == e.relayed;
  }

  /** Raw bytes from a piped connection, seen from both ends. */
  lemma RawMirrors(codec: T.Wire, s: Cell, from: ConnId, to: ConnId, bytes: seq<byte>, e: T.End, o: T.End)
    requires from != to && Get(s, from).pipe == Some(to) && MirrorsEnd(codec, s, from, e) && MirrorsEnd(codec, s, to, o)
    ensures var arrived, u := if e.cell.closed then [] else bytes, RawBytes(s, from, bytes);
            && u == s.(out := u.out)
            && MirrorsEnd(codec, u, from, e.(cell := e.cell.(out := e.cell.out + arrived)))
               && MirrorsEnd(codec, u, to, T.Relay(o, arrived))
  {
    if e.cell.closed {
      RelayNothing(o);
    } else {
      PourMirrors(codec, s, from, to, bytes, o);
      PourSpares(codec, s, from, to, bytes, from, e);
    }
  }

  /** Raw bytes at the cell are the tunnel's raw step. */
  lemma RawIsArrive(codec: T.Wire, p: Params, s: Cell, a: ConnId, b: ConnId, t: T.Tunnel, side: Side, bytes: seq<byte>)
    requires T.Signals(codec) && Mirrors(codec, s, a, b, t)
    ensures Mirrors(codec, Next(p, s, Pipes(if side == Controller then a else b, bytes)), a, b,
                    T.Arrive(codec, t, side, bytes))
  {
    ArriveRaw(codec, t, side, bytes);
    if side == Controller {
      RawMirrors(codec, s, a, b, bytes, t.a, t.b);
    } else {
      RawMirrors(codec, s, b, a, bytes, t.b, t.a);
    }
  }

  // ---- The splice -------------------------------------------------------------------------------

  /**
   * Before the splice: the controller's `data-auth` was read and its reader holds the same; the host's
   * connection is new.
   */
  predicate Awaits(codec: T.Wire, s: Cell, a: ConnId, b: ConnId, t: T.Tunnel) {
    && a != b && !t.spliced && OuterFraming.Ok(t.a.cell) && OuterFraming.Ok(t.b.cell)
    && |t.a.cell.messages| == 1 && !t.a.cell.closed && !t.a.cell.raw && t.a.cell.buf == Get(s, a).held
    && t.b.cell.messages == [] && !t.b.cell.closed && !t.b.cell.raw && t.b.cell.errors == 0
    && t.a.written == Written(codec, ToEnd(s.out, a)) && t.a.relayed == Relayed(ToEnd(s.out, a))
    && t.b.written == Written(codec, ToEnd(s.out, b)) && t.b.relayed == Relayed(ToEnd(s.out, b))
  }

  /** The tunnel's splice, as what each end is then written. */
  lemma SpliceWrites(codec: T.Wire, t: T.Tunnel, auth: OuterMessage, bytes: seq<byte>, rest: seq<byte>)
    requires T.Signals(codec) && OuterFraming.Carries(codec, auth) && auth.DataAuth?
    requires OuterFraming.Ok(t.a.cell) && OuterFraming.Ok(t.b.cell) && !t.spliced
    requires |t.a.cell.messages| == 1 && !t.a.cell.closed && !t.a.cell.raw
    requires t.b.cell.messages == [] && !t.b.cell.closed && !t.b.cell.raw && t.b.cell.errors == 0
    requires t.b.cell.buf + bytes == T.Frame(codec, auth) + rest
    ensures var u, ready := T.Arrive(codec, t, Host, bytes), T.Frame(codec, DataReady);
            && u.spliced && u.a.cell.raw && u.a.cell.consumer && !u.a.cell.closed && OuterFraming.Ok(u.a.cell)
            && u.b.cell.raw && u.b.cell.consumer && !u.b.cell.closed && OuterFraming.Ok(u.b.cell)
            && u.a.written == t.a.written + ready + rest && u.a.relayed == t.a.relayed + rest
            && u.b.written == t.b.written + ready + t.a.cell.buf && u.b.relayed == t.b.relayed + t.a.cell.buf
  {
    var c := OuterFraming.OnRaw(t.b.cell);
    assert T.Dialing()([auth]) == OuterFraming.GoRaw;
    assert (T.Frame(codec, auth) + rest)[|T.Frame(codec, auth)|..] == rest;
    T.FirstFrame(codec, T.Dialing(), c, auth, bytes, rest);
    var d := OuterFraming.Receive(codec, T.Dialing(), c, bytes);
    assert [] + rest == rest && [] + t.a.cell.buf == t.a.cell.buf && c.out + [] == c.out;
    assert d.raw && d.out == rest && !d.closed && d.consumer;
  }

  /** In the cell: what a proven dial at a new connection writes to either end. */
  lemma DialWrites(codec: T.Wire, p: Params, s: Cell, a: ConnId, b: ConnId, auth: OuterMessage, rest: seq<byte>)
    requires T.Signals(codec) && Tables(s) && !Get(s, b).closed && Splices(p, s, b, auth)
             && s.pending[auth.ticket].controller == a
    ensures var u, ready, held := Next(p, s, Receives(b, [auth], rest, false)), T.Frame(codec, DataReady),
            Get(s, a).held;
            && a != b && Get(u, a).raw && Get(u, b).raw && Get(u, a).pipe == Some(b) && Get(u, b).pipe == Some(a)
            && !Get(u, a).closed && !Get(u, b).closed
            && Written(codec, ToEnd(u.out, a)) == Written(codec, ToEnd(s.out, a)) + ready + rest
            && Relayed(ToEnd(u.out, a)) == Relayed(ToEnd(s.out, a)) + rest
            && Written(codec, ToEnd(u.out, b)) == Written(codec, ToEnd(s.out, b)) + ready + held
            && Relayed(ToEnd(u.out, b)) == Relayed(ToEnd(s.out, b)) + held
  {
    var u, held := Next(p, s, Receives(b, [auth], rest, false)), Get(s, a).held;
    ProvenSplices(p, s, b, auth, rest);
    NextKeeps(p, s, Receives(b, [auth], rest, false));
    assert Shape(u.conns[a]) && Shape(u.conns[b]) && PipeOk(u.conns, b, u.conns[b]);
    var o1 := s.out + [Sent(a, DataReady)];
    var o2 := o1 + [Sent(b, DataReady)];
    var o3 := o2 + Poured(a, b, held);
    assert u.out == o3 + Poured(b, a, rest);
    Readies(codec, s.out, a, b);
    Pours(codec, o2, a, b, held);
    Pours(codec, o3, b, a, rest);
  }

  lemma Readies(codec: T.Wire, out: seq<Out>, a: ConnId, b: ConnId)
    requires T.Signals(codec) && a != b
    ensures var o, ready := out + [Sent(a, DataReady)] + [Sent(b, DataReady)], T.Frame(codec, DataReady);
            && Written(codec, ToEnd(o, a)) == Written(codec, ToEnd(out, a)) + ready
               && Relayed(ToEnd(o, a)) == Relayed(ToEnd(out, a))
            && Written(codec, ToEnd(o, b)) == Written(codec, ToEnd(out, b)) + ready
               && Relayed(ToEnd(o, b)) == Relayed(ToEnd(out, b))
  {
    var o1 := out + [Sent(a, DataReady)];
    ToEndSnoc(out, Sent(a, DataReady), a);
    ToEndSnoc(out, Sent(a, DataReady), b);
    ToEndSnoc(o1, Sent(b, DataReady), a);
    ToEndSnoc(o1, Sent(b, DataReady), b);
    WrittenSnoc(codec, ToEnd(out, a), Sent(a, DataReady));
    WrittenSnoc(codec, ToEnd(out, b), Sent(b, DataReady));
    assert Relayed(ToEnd(out, a)) + [] == Relayed(ToEnd(out, a))
           && Relayed(ToEnd(out, b)) + [] == Relayed(ToEnd(out, b));
  }

  lemma Pours(codec: T.Wire, out: seq<Out>, from: ConnId, to: ConnId, bytes: seq<byte>)
    requires from != to
    ensures var o := out + Poured(from, to, bytes);
            && Written(codec, ToEnd(o, to)) == Written(codec, ToEnd(out, to)) + bytes
               && Relayed(ToEnd(o, to)) == Relayed(ToEnd(out, to)) + bytes
            && ToEnd(o, from) == ToEnd(out, from)
  {
    if bytes == [] {
      assert out + [] == out && Written(codec, ToEnd(out, to)) + [] == Written(codec, ToEnd(out, to));
      assert Relayed(ToEnd(out, to)) + [] == Relayed(ToEnd(out, to));
    } else {
      ToEndSnoc(out, Piped(from, to, bytes), to);
      ToEndSnoc(out, Piped(from, to, bytes), from);
      WrittenSnoc(codec, ToEnd(out, to), Piped(from, to, bytes));
    }
  }

  /** A proven dial at the cell, with what follows it in its chunk, is the tunnel's splice. */
  lemma DialIsSplice(codec: T.Wire, p: Params, s: Cell, a: ConnId, b: ConnId, t: T.Tunnel, auth: OuterMessage,
                     bytes: seq<byte>, rest: seq<byte>)
    requires T.Signals(codec) && OuterFraming.Carries(codec, auth) && Tables(s) && Awaits(codec, s, a, b, t)
    requires !Get(s, b).closed && Splices(p, s, b, auth) && s.pending[auth.ticket].controller == a
    requires t.b.cell.buf + bytes == T.Frame(codec, auth) + rest
    ensures Mirrors(codec, Next(p, s, Receives(b, [auth], rest, false)), a, b, T.Arrive(codec, t, Host, bytes))
  {
    SpliceWrites(codec, t, auth, bytes, rest);
    DialWrites(codec, p, s, a, b, auth, rest);
  }
}

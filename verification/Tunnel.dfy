/** One bridged tunnel. */
module Tunnels {
  // The two adapters' connections (packages/relay-core/src/data-connection.ts), the cell's two ends of
  // them, and four byte links that deliver in order but cut anywhere.

  import opened Bytes
  import opened Messages
  import opened OuterFraming
  import Framing

  type Wire = Codec<OuterMessage>
  type Link = Conn<OuterMessage>

  /** What `awaitDataReady` makes of the messages it sees: the first one settles it. */
  function Awaiting(): Handler<OuterMessage> {
    (seen: seq<OuterMessage>) =>
      if |seen| != 1 then Stay else if seen[0].DataReady? then GoRaw else Shut
  }

  /** The adapter's receive: a framing error before it has settled closes the connection. */
  function ClientReceive(codec: Wire, c: Link, bytes: seq<byte>): (d: Link)
    requires Ok(c)
    ensures Ok(d)
  {
    var d := Receive(codec, Awaiting(), c, bytes);
    if d.errors > c.errors then CloseConn(d) else d
  }

  /**
   * One end of the tunnel. `up` and `down` are in flight from and to the adapter; `sent` is what the
   * adapter's user sent once connected, `written` all the cell wrote to this end, `relayed` the bridged
   * bytes among it.
   */
  datatype End = End(client: Link, cell: Link, up: seq<byte>, down: seq<byte>,
                     sent: seq<byte>, written: seq<byte>, relayed: seq<byte>)

  datatype Tunnel = Tunnel(a: End, b: End, spliced: bool) {
    function End(side: Side): End {
      if side == Controller then a else b
    }

    function With(side: Side, e: End): Tunnel {
      if side == Controller then this.(a := e) else this.(b := e)
    }
  }

  function Other(side: Side): Side {
    if side == Controller then Host else Controller
  }

  datatype Step =
    | Send(side: Side, bytes: seq<byte>)     // the adapter's user writes to its raw duplex
    | Consume(side: Side)                    // ... or registers for inbound bytes
    | Up(side: Side, n: nat)                 // some bytes reach the cell
    | Down(side: Side, n: nat)               // some bytes reach the adapter
    | Refuse(side: Side, code: CloseCode)    // the cell refuses an unbridged end
    | CloseCell(side: Side)
    | CloseClient(side: Side)

  function Frame(codec: Wire, m: OuterMessage): seq<byte>
    requires |codec.encode(m)| < 0x1_0000_0000
  {
    Framing.Framed(codec.encode(m))
  }

  /** The wire form of what the cell tells an end. */
  ghost predicate Signals(codec: Wire) {
    Carries(codec, DataReady) && forall code :: Carries(codec, Close(code))
  }

  /** The wire form of all that one bridge's handshake says: the two dials, and what the cell answers. */
  ghost predicate Usable(codec: Wire, ticket: Ticket, mac: Option<Mac>) {
    Signals(codec) && Carries(codec, DataAuth(Controller, ticket, None)) && Carries(codec, DataAuth(Host, ticket, mac))
  }

  /** `sendRaw` / `send` at the cell: nothing once closed. */
  function Write(e: End, bytes: seq<byte>): End {
    if e.cell.closed then e else e.(down := e.down + bytes, written := e.written + bytes)
  }

  function Relay(e: End, bytes: seq<byte>): End {
    if e.cell.closed then e else Write(e, bytes).(relayed := e.relayed + bytes)
  }

  /** A data connection must be silent after its `data-auth`. */
  function Waiting(): Handler<OuterMessage> {
    (seen: seq<OuterMessage>) => if |seen| == 1 && seen[0].DataAuth? then Stay else Shut
  }

  /** The host's `data-auth` completes the bridge when its controller waits; the splice goes raw at once. */
  function Dialing(): Handler<OuterMessage> {
    (seen: seq<OuterMessage>) => if |seen| == 1 && seen[0].DataAuth? then GoRaw else Shut
  }

  /** Signal both ends, then open the pipe: what either reader still held goes first. */
  function Splice(codec: Wire, a: End, b: End, leftover: seq<byte>): Tunnel
    requires Ok(a.cell) && |codec.encode(DataReady)| < 0x1_0000_0000
  {
    var ready := Frame(codec, DataReady);
    var a1, b1 := Write(a, ready), Write(b, ready);
    var raw := ToRaw(OnRaw(a.cell));
    Tunnel(Relay(a1.(cell := raw), leftover), Relay(b1, raw.out), true)
  }

  /** Bytes arriving at the cell from `side`. */
  function Arrive(codec: Wire, t: Tunnel, side: Side, bytes: seq<byte>): Tunnel
    requires Ok(t.a.cell) && Ok(t.b.cell) && |codec.encode(DataReady)| < 0x1_0000_0000
  {
    var e, o := t.End(side), t.End(Other(side));
    if e.cell.raw then
      var c := Receive(codec, Waiting(), e.cell, bytes);
      var arrived := if |e.cell.out| <= |c.out| then c.out[|e.cell.out|..] else [];
      t.With(side, e.(cell := c)).With(Other(side), Relay(o, arrived))
    else if side == Host && !t.spliced && |o.cell.messages| == 1 && !o.cell.closed then
      var c := Receive(codec, Dialing(), OnRaw(e.cell), bytes);
      if c.raw then Splice(codec, o, e.(cell := c), c.out) else t.With(side, e.(cell := c.(consumer := false)))
    else t.With(side, e.(cell := Receive(codec, if side == Host then Refusing() else Waiting(), e.cell, bytes)))
  }

  /** No controller waits: the dial is refused. */
  function Refusing(): Handler<OuterMessage> {
    (seen: seq<OuterMessage>) => Shut
  }

  function Next(codec: Wire, t: Tunnel, step: Step): Tunnel
    requires Ok(t.a.cell) && Ok(t.b.cell) && Ok(t.a.client) && Ok(t.b.client) && Signals(codec)
  {
    var e := t.End(step.side);
    match step
    case Send(side, bytes) =>
      if e.client.raw && !e.client.closed then t.With(side, e.(up := e.up + bytes, sent := e.sent + bytes)) else t
    case Consume(side) =>
      if e.client.raw then t.With(side, e.(client := OnRaw(e.client))) else t
    case Up(side, n) =>
      if n <= |e.up| then Arrive(codec, t.With(side, e.(up := e.up[n..])), side, e.up[..n]) else t
    case Down(side, n) =>
      if n <= |e.down| then t.With(side, Heard(codec, e, n)) else t
    case Refuse(side, code) =>
      if t.spliced then t
      else
        var w := Write(e, Frame(codec, Close(code)));
        t.With(side, w.(cell := CloseConn(w.cell)))
    case CloseCell(side) => t.With(side, e.(cell := CloseConn(e.cell)))
    case CloseClient(side) => t.With(side, e.(client := CloseConn(e.client)))
  }

  /** Both adapters have dialed: each has sent its `data-auth` and nothing else. */
  function Dialed(codec: Wire, ticket: Ticket, mac: Option<Mac>): Tunnel
    requires Usable(codec, ticket, mac)
  {
    Tunnel(End(Fresh(), Fresh(), Frame(codec, DataAuth(Controller, ticket, None)), [], [], [], []),
           End(Fresh(), Fresh(), Frame(codec, DataAuth(Host, ticket, mac)), [], [], [], []), false)
  }

  // ---- What every reachable tunnel keeps --------------------------------------------------------

  ghost predicate Closing(codec: Wire, written: seq<byte>)
    requires Signals(codec)
  {
    exists code :: written == Frame(codec, Close(code))
  }

  /** All the cell wrote to an end: nothing, one refusal, or `data-ready` and then the bridged bytes. */
  ghost predicate WrittenInOrder(codec: Wire, e: End)
    requires Signals(codec)
  {
    || (e.written == [] && e.relayed == [])
    || (Closing(codec, e.written) && e.relayed == [])
    || e.written == Frame(codec, DataReady) + e.relayed
  }

  /** The adapter's side: what its consumer got is a prefix of what was relayed, and loses nothing while open. */
  ghost predicate ClientInv(codec: Wire, e: End)
    requires Signals(codec)
  {
    && Ok(e.client) && WrittenInOrder(codec, e)
    && (!e.client.raw && !e.client.closed ==>
          e.client.errors == 0 && e.client.messages == [] && e.client.buf + e.down == e.written)
    && (e.client.raw ==>
          && e.written == Frame(codec, DataReady) + e.relayed
          && Prefix(e.client.out + e.client.waiting, e.relayed)
          && (!e.client.closed ==> e.client.out + e.client.waiting + e.down == e.relayed))
  }

  /** The cell's side before the splice: still in the middle of the one `data-auth`. */
  ghost predicate DialInv(codec: Wire, e: End, auth: OuterMessage)
    requires Signals(codec) && Carries(codec, auth)
  {
    && !e.cell.raw && e.relayed == [] && e.sent == [] && !e.client.raw && !e.cell.consumer
    && (e.written == [] || Closing(codec, e.written))
    && (!e.cell.closed ==> e.written == [] && e.cell.errors == 0)
    && (!e.cell.closed ==>
          || (e.cell.messages == [] && e.cell.buf + e.up == Frame(codec, auth))
          || (e.cell.messages == [auth] && e.cell.buf == [] && e.up == []))
  }

  /** From one end to the other nothing is lost, invented or reordered while the cell's ends are open. */
  ghost predicate Flow(codec: Wire, x: End, y: End)
    requires Signals(codec)
  {
    && x.cell.raw && x.cell.consumer
    && y.written == Frame(codec, DataReady) + y.relayed
    && Prefix(y.relayed, x.sent)
    && (!x.cell.closed && !y.cell.closed ==> y.relayed + x.up == x.sent)
  }

  ghost predicate Inv(codec: Wire, t: Tunnel, ticket: Ticket, mac: Option<Mac>)
    requires Usable(codec, ticket, mac)
  {
    && Ok(t.a.cell) && Ok(t.b.cell)
    && ClientInv(codec, t.a) && ClientInv(codec, t.b)
    && if t.spliced then Flow(codec, t.a, t.b) && Flow(codec, t.b, t.a)
       else DialInv(codec, t.a, DataAuth(Controller, ticket, None)) && DialInv(codec, t.b, DataAuth(Host, ticket, mac))
  }

  // ---- One connection at a time -----------------------------------------------------------------

  /** A framed connection fed part of a frame keeps waiting; fed all of it, it acts on the message. */
  lemma FirstFrame(codec: Wire, handler: Handler<OuterMessage>, c: Link, m: OuterMessage, bytes: seq<byte>,
                   tail: seq<byte>)
    requires Carries(codec, m) && Ok(c) && !c.raw && !c.closed && c.errors == 0 && c.messages == []
    requires Prefix(c.buf + bytes, Frame(codec, m) + tail)
    requires tail == [] || handler([m]).GoRaw?
    ensures var d, all, n := Receive(codec, handler, c, bytes), c.buf + bytes, |Frame(codec, m)|;
            if |all| < n then d == c.(buf := all)
            else match handler([m])
              case GoRaw => d == DeliverRaw(c.(buf := [], raw := true, messages := [m]), all[n..])
              case Stay => d == c.(buf := [], messages := [m])
              case Shut => d == c.(buf := [], messages := [m], closed := true)
  {
    var reader, start := Reader(codec, handler), Reading(c.messages, false, false, false);
    var payload, all, n := codec.encode(m), c.buf + bytes, |Frame(codec, m)|;
    if |all| < n {
      assert Prefix(all, Frame(codec, m));
      Framing.DrainPartial(reader, start, payload, all);
    } else {
      assert all == Frame(codec, m) + all[n..];
      Framing.DrainFramed(reader, start, payload, all[n..]);
      assert codec.decode(payload) == Some(m);
      assert [] + [m] == [m];
    }
  }

  lemma AwaitingVerdicts(m: OuterMessage)
    ensures Awaiting()([m]) == if m.DataReady? then GoRaw else Shut
  {
  }

  /**
   * `awaitDataReady` on a `data-ready` and whatever follows, cut anywhere: the tail is the raw stream,
   * whole and in order, waiting for its consumer; or it is more than may wait, and the connection closes.
   */
  lemma ReadyThenRaw(codec: Wire, tail: seq<byte>, chunks: seq<seq<byte>>)
    requires Carries(codec, DataReady) && chunks != [] && Flatten(chunks) == Frame(codec, DataReady) + tail
    ensures var ready := Fresh<OuterMessage>().(raw := true, messages := [DataReady]);
            ReceiveUntilError(codec, Awaiting(), Fresh(), chunks)
            == if |tail| <= MAX_PREHANDLER_RAW_BYTES
                then ready.(waiting := tail) else ready.(errors := 1, closed := true)
  {
    var f, all := Frame(codec, DataReady), Flatten(chunks);
    var c: Link := Fresh();
    AwaitingVerdicts(DataReady);
    assert c.buf + all == all && all[|f|..] == tail && [] + tail == tail;
    FirstFrame(codec, Awaiting(), c, DataReady, all, tail);
    var start: Reading<OuterMessage> := Reading([], false, false, false);
    var one: Reading<OuterMessage> := Reading([DataReady], true, false, false);
    Framing.DrainFramed(Reader(codec, Awaiting()), start, codec.encode(DataReady), tail);
    assert OnPayload(codec, Awaiting(), start, codec.encode(DataReady))
           == one by { assert [] + [DataReady] == [DataReady]; }
    assert Whole(codec, Awaiting(), c, all).state == one;
    assert one.messages[..1] == one.messages;
    ChunkingIrrelevant(codec, Awaiting(), c, chunks);
  }

  function Heard(codec: Wire, e: End, n: nat): End
    requires Ok(e.client) && n <= |e.down|
  {
    e.(down := e.down[n..], client := ClientReceive(codec, e.client, e.down[..n]))
  }

  /** Raw bytes, or bytes at a closed adapter. */
  lemma HearsRaw(codec: Wire, e: End, n: nat)
    requires Signals(codec) && ClientInv(codec, e) && n <= |e.down| && (e.client.raw || e.client.closed)
    ensures ClientInv(codec, Heard(codec, e, n))
  {
    var c, bytes := e.client, e.down[..n];
    assert e.down == bytes + e.down[n..];
    if !c.closed {
      assert (c.out + bytes) + c.waiting == c.out + c.waiting + bytes || !c.consumer;
      assert c.out + (c.waiting + bytes) == c.out + c.waiting + bytes;
      assert c.out + c.waiting + bytes + e.down[n..] == e.relayed;
      assert Prefix(c.out + c.waiting + bytes, e.relayed);
      assert Prefix(c.out, e.relayed);
    }
  }

  /** Bytes of a handshake still pending. */
  lemma HearsFrame(codec: Wire, e: End, n: nat, m: OuterMessage, tail: seq<byte>)
    requires Signals(codec) && Carries(codec, m) && ClientInv(codec, e) && n <= |e.down| && !e.client.raw
             && !e.client.closed
    requires Prefix(e.written, Frame(codec, m) + tail) && (tail != [] ==> m == DataReady)
    requires |e.written| >= |Frame(codec, m)| ==> e.written == Frame(codec, m) + tail
    requires m == DataReady ==> tail == e.relayed
    ensures ClientInv(codec, Heard(codec, e, n))
  {
    var c, bytes := e.client, e.down[..n];
    var all := c.buf + bytes;
    assert all + e.down[n..] == e.written;
    PrefixTransitive(all, e.written, Frame(codec, m) + tail);
    AwaitingVerdicts(m);
    FirstFrame(codec, Awaiting(), c, m, bytes, tail);
    if |all| >= |Frame(codec, m)| {
      assert all[|Frame(codec, m)|..] + e.down[n..] == tail;
    }
  }

  lemma ClientHears(codec: Wire, e: End, n: nat)
    requires Signals(codec) && ClientInv(codec, e) && n <= |e.down|
    ensures ClientInv(codec, Heard(codec, e, n))
  {
    if e.client.raw || e.client.closed {
      HearsRaw(codec, e, n);
    } else if e.written == Frame(codec, DataReady) + e.relayed {
      HearsFrame(codec, e, n, DataReady, e.relayed);
    } else if e.written == [] {
      HearsFrame(codec, e, n, DataReady, e.relayed);
    } else {
      var code :| e.written == Frame(codec, Close(code));
      assert Frame(codec, Close(code)) + [] == Frame(codec, Close(code));
      HearsFrame(codec, e, n, Close(code), []);
    }
  }

  /** The cell still collecting an end's `data-auth`, under a handler that does not go raw. */
  lemma CellCollects(codec: Wire, e: End, auth: OuterMessage, n: nat, handler: Handler<OuterMessage>)
    requires Signals(codec) && Carries(codec, auth) && Ok(e.cell) && DialInv(codec, e, auth) && n <= |e.up|
    requires !handler([auth]).GoRaw?
    ensures var c := Receive(codec, handler, e.cell, e.up[..n]);
            DialInv(codec, e.(up := e.up[n..], cell := c), auth)
  {
    assert e.up == e.up[..n] + e.up[n..];
    if !e.cell.closed && e.cell.messages == [] {
      assert e.cell.buf + e.up[..n] + e.up[n..] == Frame(codec, auth);
      assert Frame(codec, auth) + [] == Frame(codec, auth);
      FirstFrame(codec, handler, e.cell, auth, e.up[..n], []);
    } else if !e.cell.closed {
      assert e.up[..n] == [] && e.cell.buf + [] == [];
    }
  }

  lemma BeforeSplice(codec: Wire, t: Tunnel, ticket: Ticket, mac: Option<Mac>, side: Side, n: nat)
    requires Usable(codec, ticket, mac) && Inv(codec, t, ticket, mac) && !t.spliced && n <= |t.End(side).up|
    ensures Inv(codec, Next(codec, t, Up(side, n)), ticket, mac)
  {
    var e, o := t.End(side), t.End(Other(side));
    var auth := if side == Controller then DataAuth(Controller, ticket, None) else DataAuth(Host, ticket, mac);
    if side == Host && |o.cell.messages| == 1 && !o.cell.closed {
      Dials(codec, t, ticket, mac, n);
    } else {
      CellCollects(codec, e, auth, n, if side == Host then Refusing() else Waiting());
    }
  }

  /** A dial is still being collected, or it is complete with nothing behind it. */
  lemma DialCollects(codec: Wire, e: End, auth: OuterMessage, n: nat)
    requires Signals(codec) && Carries(codec, auth) && Ok(e.cell) && DialInv(codec, e, auth) && n <= |e.up|
             && auth.DataAuth?
    ensures var c := Receive(codec, Dialing(), OnRaw(e.cell), e.up[..n]);
            if c.raw then !e.cell.closed && e.up[n..] == [] && c.out == [] && c.consumer && !c.closed
            else DialInv(codec, e.(up := e.up[n..], cell := c.(consumer := false)), auth)
  {
    var bytes := e.up[..n];
    assert e.up == bytes + e.up[n..];
    if !e.cell.closed && e.cell.messages == [] {
      assert e.cell.buf + bytes + e.up[n..] == Frame(codec, auth);
      assert Frame(codec, auth) + [] == Frame(codec, auth);
      assert Dialing()([auth]) == GoRaw;
      FirstFrame(codec, Dialing(), OnRaw(e.cell), auth, bytes, []);
    } else if !e.cell.closed {
      assert bytes == [] && e.cell.buf + [] == [];
    }
  }

  /** The host's bytes while its controller waits: more of the frame, or the splice. */
  lemma Dials(codec: Wire, t: Tunnel, ticket: Ticket, mac: Option<Mac>, n: nat)
    requires Usable(codec, ticket, mac) && Inv(codec, t, ticket, mac) && !t.spliced && n <= |t.b.up|
    requires |t.a.cell.messages| == 1 && !t.a.cell.closed
    ensures Inv(codec, Next(codec, t, Up(Host, n)), ticket, mac)
  {
    DialCollects(codec, t.b, DataAuth(Host, ticket, mac), n);
    var c := Receive(codec, Dialing(), OnRaw(t.b.cell), t.b.up[..n]);
    if c.raw {
      Splices(codec, t, ticket, mac, t.b.(up := t.b.up[n..], cell := c));
    }
  }

  /** Nothing was held back at the splice, so both pipes start empty behind their `data-ready`. */
  lemma Splices(codec: Wire, t: Tunnel, ticket: Ticket, mac: Option<Mac>, b: End)
    requires Usable(codec, ticket, mac) && Inv(codec, t, ticket, mac) && !t.spliced
    requires |t.a.cell.messages| == 1 && !t.a.cell.closed
    requires b == t.b.(up := [], cell := b.cell) && Ok(b.cell) && b.cell.raw && b.cell.consumer && b.cell.out == []
             && !b.cell.closed
    requires !t.b.cell.closed
    ensures Inv(codec, Splice(codec, t.a, b, []), ticket, mac)
  {
    var s := Splice(codec, t.a, b, []);
    var ready := Frame(codec, DataReady);
    assert ready + [] == ready && [] + ready == ready;
    assert s.a.cell.out == [] && s.a.written == ready + s.a.relayed && s.b.written == ready + s.b.relayed;
  }

  /** Relayed to an end, bytes are written behind its `data-ready`. */
  lemma RelayWrites(codec: Wire, o: End, bytes: seq<byte>)
    requires Signals(codec) && o.written == Frame(codec, DataReady) + o.relayed
    ensures var r := Relay(o, bytes);
            && r.written == Frame(codec, DataReady) + r.relayed
               && r.relayed == o.relayed + (if o.cell.closed then [] else bytes)
            && r == o.(down := r.down, written := r.written, relayed := r.relayed)
  {
    var ready := Frame(codec, DataReady);
    assert ready + (o.relayed + bytes) == ready + o.relayed + bytes && o.relayed + [] == o.relayed;
  }

  /** What the cell reads off an open end in raw mode it writes to the other end, and no more. */
  lemma PipesFlow(codec: Wire, e: End, o: End, n: nat)
    requires Signals(codec) && Flow(codec, e, o) && Flow(codec, o, e) && Ok(e.cell) && n <= |e.up|
    ensures var bytes := if e.cell.closed then [] else e.up[..n];
            var e', o' := e.(up := e.up[n..], cell := e.cell.(out := e.cell.out + bytes)), Relay(o, bytes);
            Flow(codec, e', o') && Flow(codec, o', e')
  {
    var bytes := if e.cell.closed then [] else e.up[..n];
    RelayWrites(codec, o, bytes);
    if e.cell.closed {
      assert o.relayed + [] == o.relayed;
    } else if !o.cell.closed {
      FlowOn(o.relayed, e.up, e.sent, n);
    }
  }

  lemma FlowOn(relayed: seq<byte>, up: seq<byte>, sent: seq<byte>, n: nat)
    requires n <= |up| && relayed + up == sent
    ensures relayed + up[..n] + up[n..] == sent && Prefix(relayed + up[..n], sent)
  {
    assert up == up[..n] + up[n..];
    assert relayed + up[..n] + up[n..] == relayed + (up[..n] + up[n..]);
  }

  /** Bytes through the open pipe, or into one whose end has closed. */
  lemma Pipes(codec: Wire, t: Tunnel, ticket: Ticket, mac: Option<Mac>, side: Side, n: nat)
    requires Usable(codec, ticket, mac) && Inv(codec, t, ticket, mac) && t.spliced && n <= |t.End(side).up|
    ensures Inv(codec, Next(codec, t, Up(side, n)), ticket, mac)
  {
    var e, o := t.End(side), t.End(Other(side));
    var bytes := if e.cell.closed then [] else e.up[..n];
    var c := Receive(codec, Waiting(), e.cell, e.up[..n]);
    assert c == e.cell.(out := e.cell.out + bytes);
    assert c.out[|e.cell.out|..] == bytes;
    PipesFlow(codec, e, o, n);
    RelayKeeps(codec, o, bytes);
    assert Next(codec, t, Up(side, n))
           == t.With(side, e.(up := e.up[n..], cell := c)).With(Other(side), Relay(o, bytes));
  }

  lemma RelayKeeps(codec: Wire, o: End, bytes: seq<byte>)
    requires Signals(codec) && ClientInv(codec, o)
             && (o.cell.closed || bytes == [] || o.written == Frame(codec, DataReady) + o.relayed)
    ensures ClientInv(codec, Relay(o, bytes))
  {
    if !o.cell.closed {
      var r := Relay(o, bytes);
      if bytes == [] {
        assert r == o;
      } else {
        assert Frame(codec, DataReady) + o.relayed + bytes == Frame(codec, DataReady) + (o.relayed + bytes);
        assert o.client.buf + (o.down + bytes) == o.client.buf + o.down + bytes;
        assert o.client.out + o.client.waiting + (o.down + bytes) == o.client.out + o.client.waiting + o.down + bytes;
        PrefixTransitive(o.client.out + o.client.waiting, o.relayed, o.relayed + bytes);
      }
    }
  }

  lemma Sends(codec: Wire, t: Tunnel, ticket: Ticket, mac: Option<Mac>, side: Side, bytes: seq<byte>)
    requires Usable(codec, ticket, mac) && Inv(codec, t, ticket, mac) && t.End(side).client.raw
    ensures Inv(codec, t.With(side, t.End(side).(up := t.End(side).up + bytes, sent := t.End(side).sent + bytes)),
                ticket, mac)
  {
    var e, o := t.End(side), t.End(Other(side));
    assert o.relayed + (e.up + bytes) == o.relayed + e.up + bytes;
    PrefixTransitive(o.relayed, e.sent, e.sent + bytes);
  }

  lemma Registers(codec: Wire, t: Tunnel, ticket: Ticket, mac: Option<Mac>, side: Side)
    requires Usable(codec, ticket, mac) && Inv(codec, t, ticket, mac) && t.End(side).client.raw
    ensures Inv(codec, t.With(side, t.End(side).(client := OnRaw(t.End(side).client))), ticket, mac)
  {
  }

  /** A refusal, or nothing, is not a `data-ready`. */
  lemma NotReady(codec: Wire, written: seq<byte>)
    requires Signals(codec) && (written == [] || Closing(codec, written))
    ensures written != Frame(codec, DataReady) + []
  {
    if Closing(codec, written) {
      var code :| written == Frame(codec, Close(code));
      var x, y := codec.encode(Close(code)), codec.encode(DataReady);
      assert codec.decode(x) == Some(Close(code)) && codec.decode(y) == Some(DataReady);
      assert written[4..] == x && (Frame(codec, DataReady) + [])[4..] == y;
    }
  }

  lemma Hears(codec: Wire, t: Tunnel, ticket: Ticket, mac: Option<Mac>, side: Side, n: nat)
    requires Usable(codec, ticket, mac) && Inv(codec, t, ticket, mac) && n <= |t.End(side).down|
    ensures Inv(codec, t.With(side, Heard(codec, t.End(side), n)), ticket, mac)
  {
    var e := t.End(side);
    ClientHears(codec, e, n);
    if !t.spliced {
      NotReady(codec, e.written);
    }
  }

  lemma Refuses(codec: Wire, t: Tunnel, ticket: Ticket, mac: Option<Mac>, side: Side, code: CloseCode)
    requires Usable(codec, ticket, mac) && Inv(codec, t, ticket, mac) && !t.spliced
    ensures Inv(codec, Next(codec, t, Step.Refuse(side, code)), ticket, mac)
  {
    var e, f := t.End(side), Frame(codec, Close(code));
    assert [] + f == f;
    assert e.client.buf + (e.down + f) == e.client.buf + e.down + f;
  }

  lemma Closes(codec: Wire, t: Tunnel, ticket: Ticket, mac: Option<Mac>, side: Side)
    requires Usable(codec, ticket, mac) && Inv(codec, t, ticket, mac)
    ensures Inv(codec, Next(codec, t, CloseCell(side)), ticket, mac)
    ensures Inv(codec, Next(codec, t, CloseClient(side)), ticket, mac)
  {
  }

  /** Every step keeps the invariant. */
  lemma StepKeeps(codec: Wire, t: Tunnel, ticket: Ticket, mac: Option<Mac>, step: Step)
    requires Usable(codec, ticket, mac) && Inv(codec, t, ticket, mac)
    ensures Inv(codec, Next(codec, t, step), ticket, mac)
  {
    var e := t.End(step.side);
    match step
    case Send(side, bytes) =>
      if e.client.raw { Sends(codec, t, ticket, mac, side, bytes); }
    case Consume(side) =>
      if e.client.raw { Registers(codec, t, ticket, mac, side); }
    case Up(side, n) =>
      if n <= |e.up| { if t.spliced { Pipes(codec, t, ticket, mac, side, n);
                                     } else { BeforeSplice(codec, t, ticket, mac, side, n); } }
    case Down(side, n) =>
      if n <= |e.down| { Hears(codec, t, ticket, mac, side, n); }
    case Refuse(side, code) =>
      if !t.spliced { Refuses(codec, t, ticket, mac, side, code); }
    case CloseCell(side) => Closes(codec, t, ticket, mac, side);
    case CloseClient(side) => Closes(codec, t, ticket, mac, side);
  }

  // ---- Whole runs -------------------------------------------------------------------------------

  ghost function Run(codec: Wire, t: Tunnel, ticket: Ticket, mac: Option<Mac>, steps: seq<Step>): Tunnel
    requires Usable(codec, ticket, mac) && Inv(codec, t, ticket, mac)
    decreases |steps|
  {
    if steps == [] then t
    else
      StepKeeps(codec, t, ticket, mac, steps[0]);
      Run(codec, Next(codec, t, steps[0]), ticket, mac, steps[1..])
  }

  lemma {:induction false} RunKeeps(codec: Wire, t: Tunnel, ticket: Ticket, mac: Option<Mac>, steps: seq<Step>)
    requires Usable(codec, ticket, mac) && Inv(codec, t, ticket, mac)
    ensures Inv(codec, Run(codec, t, ticket, mac, steps), ticket, mac)
    decreases |steps|
  {
    if steps != [] {
      StepKeeps(codec, t, ticket, mac, steps[0]);
      RunKeeps(codec, Next(codec, t, steps[0]), ticket, mac, steps[1..]);
    }
  }

  lemma DialedOk(codec: Wire, ticket: Ticket, mac: Option<Mac>)
    requires Usable(codec, ticket, mac)
    ensures Inv(codec, Dialed(codec, ticket, mac), ticket, mac)
  {
    var t := Dialed(codec, ticket, mac);
    assert t.a.cell.buf + t.a.up == t.a.up && t.b.cell.buf + t.b.up == t.b.up;
  }

  /** What one side's user sent, and what became of it at the other end. */
  ghost predicate Exact(codec: Wire, from: End, to: End)
    requires Signals(codec)
  {
    && Prefix(to.client.out, from.sent)
    && (to.written == [] || Closing(codec, to.written) || to.written == Frame(codec, DataReady) + to.relayed)
    && (to.relayed != [] ==> Prefix(Frame(codec, DataReady), to.written))
    && (to.client.raw && !to.client.closed && !from.cell.closed && !to.cell.closed ==>
          from.sent == to.client.out + to.client.waiting + to.down + from.up)
  }

  lemma InvIsExact(codec: Wire, t: Tunnel, ticket: Ticket, mac: Option<Mac>, side: Side)
    requires Usable(codec, ticket, mac) && Inv(codec, t, ticket, mac)
    ensures Exact(codec, t.End(side), t.End(Other(side)))
  {
    var from, to := t.End(side), t.End(Other(side));
    if t.spliced && to.client.raw {
      assert Prefix(to.client.out, to.client.out + to.client.waiting);
      PrefixTransitive(to.client.out, to.client.out + to.client.waiting, to.relayed);
      PrefixTransitive(to.client.out, to.relayed, from.sent);
    }
  }

  /**
   * From the two dials on, whatever the links and the closes do: each consumer has received a prefix of
   * what the other side's user sent after its own data-ready; nothing bridged was written to an end
   * before its data-ready; and while all four ends are open nothing is missing, only under way.
   */
  lemma TunnelExact(codec: Wire, ticket: Ticket, mac: Option<Mac>, steps: seq<Step>, side: Side)
    requires Usable(codec, ticket, mac)
    ensures Inv(codec, Dialed(codec, ticket, mac), ticket, mac)
    ensures var t := Run(codec, Dialed(codec, ticket, mac), ticket, mac, steps);
            Exact(codec, t.End(side), t.End(Other(side)))
  {
    DialedOk(codec, ticket, mac);
    RunKeeps(codec, Dialed(codec, ticket, mac), ticket, mac, steps);
    InvIsExact(codec, Run(codec, Dialed(codec, ticket, mac), ticket, mac, steps), ticket, mac, side);
  }

  // ---- Such a wire form exists -------------------------------------------------------------------

  function CodeByte(code: CloseCode): byte {
    match code
    case UnknownHost => 0
    case ProofFailed => 1
    case BadTicket => 2
    case TicketExpired => 3
    case TicketReused => 4
    case BridgeTimeout => 5
    case DataAuthFailed => 6
    case Drained => 7
    case ProtocolError => 8
  }

  function CodeAt(b: byte): CloseCode {
    match b
    case 0 => UnknownHost
    case 1 => ProofFailed
    case 2 => BadTicket
    case 3 => TicketExpired
    case 4 => TicketReused
    case 5 => BridgeTimeout
    case 6 => DataAuthFailed
    case 7 => Drained
    case _ => ProtocolError
  }

  /** A wire form for one bridge: a byte says which message it is, and the close code follows. */
  function Terse(ticket: Ticket, mac: Option<Mac>): Wire {
    Codec((m: OuterMessage) =>
            match m
            case DataReady => [0]
            case DataAuth(role, _, _) => if role.Controller? then [1] else [2]
            case Close(code) => [3, CodeByte(code)]
            case _ => [4],
          (payload: seq<byte>) =>
            if payload == [0] then Some(DataReady)
            else if payload == [1] then Some(DataAuth(Controller, ticket, None))
            else if payload == [2] then Some(DataAuth(Host, ticket, mac))
            else if |payload| == 2 && payload[0] == 3 then Some(Close(CodeAt(payload[1])))
            else None)
  }

  lemma SomeCodecIsUsable(ticket: Ticket, mac: Option<Mac>)
    ensures Usable(Terse(ticket, mac), ticket, mac)
  {
    var codec := Terse(ticket, mac);
    forall code ensures Carries(codec, Close(code)) {
      assert CodeAt(CodeByte(code)) == code;
      assert codec.encode(Close(code)) == [3, CodeByte(code)];
    }
  }

  // ---- The tunnel does come up ------------------------------------------------------------------

  predicate Connected(t: Tunnel) {
    && t.spliced && t.a.client.raw && t.b.client.raw
    && !t.a.client.closed && !t.b.client.closed && !t.a.cell.closed && !t.b.cell.closed
  }

  lemma ControllerDials(codec: Wire, ticket: Ticket, mac: Option<Mac>)
    requires Usable(codec, ticket, mac)
    ensures var t := Dialed(codec, ticket, mac);
            var u := Next(codec, t, Up(Controller, |t.a.up|));
            u == t.(a := t.a.(up := [], cell :=
                                Fresh<OuterMessage>().(messages := [DataAuth(Controller, ticket, None)])))
  {
    var t, auth := Dialed(codec, ticket, mac), DataAuth(Controller, ticket, None);
    var f := Frame(codec, auth);
    assert [] + f == f && f + [] == f && f[..|f|] == f && f[|f|..] == [];
    FirstFrame(codec, Waiting(), Fresh(), auth, f, []);
    assert Waiting()([auth]) == Stay;
  }

  /** A host's whole dial, read at once. */
  lemma DialRead(codec: Wire, auth: OuterMessage)
    requires Carries(codec, auth) && auth.DataAuth?
    ensures Receive(codec, Dialing(), OnRaw(Fresh()), Frame(codec, auth))
            == Fresh().(raw := true, consumer := true, messages := [auth])
  {
    var f := Frame(codec, auth);
    var c: Link := OnRaw(Fresh());
    assert c.buf + f == f && f + [] == f && f[|f|..] == [];
    assert Dialing()([auth]) == GoRaw;
    FirstFrame(codec, Dialing(), c, auth, f, []);
    assert c.out + [] == c.out;
  }

  lemma HostDials(codec: Wire, t: Tunnel, ticket: Ticket, mac: Option<Mac>)
    requires Usable(codec, ticket, mac) && t.b == Dialed(codec, ticket, mac).b && !t.spliced
    requires Ok(t.a.cell) && |t.a.cell.messages| == 1 && !t.a.cell.closed && !t.a.cell.raw && t.a.cell.buf == []
             && t.a.cell.out == []
    requires t.a.written == [] && t.a.relayed == [] && t.a.down == []
    ensures var u, ready := Arrive(codec, t.(b := t.b.(up := [])), Host, t.b.up), Frame(codec, DataReady);
            && u.spliced && !u.a.cell.closed && !u.b.cell.closed
            && u.a.down == ready && u.b.down == ready && u.a.client == t.a.client && u.b.client == t.b.client
            && Ok(u.a.cell) && Ok(u.b.cell)
  {
    var ready := Frame(codec, DataReady);
    DialRead(codec, DataAuth(Host, ticket, mac));
    assert [] + ready == ready && ready + [] == ready;
    var c := Receive(codec, Dialing(), OnRaw(t.b.cell), t.b.up);
    assert Arrive(codec, t.(b := t.b.(up := [])), Host, t.b.up) == Splice(codec, t.a, t.b.(up := [], cell := c), []);
  }

  /** An adapter that hears its `data-ready` is connected. */
  lemma HearsReady(codec: Wire, e: End)
    requires Signals(codec) && e.client == Fresh() && e.down == Frame(codec, DataReady)
    ensures var d := Heard(codec, e, |e.down|);
            d == e.(down := [], client := d.client) && d.client.raw && !d.client.closed
  {
    var f := e.down;
    assert [] + f == f && f + [] == f && f[..|f|] == f && f[|f|..] == [];
    AwaitingVerdicts(DataReady);
    FirstFrame(codec, Awaiting(), e.client, DataReady, f, []);
  }

  /** Both adapters hear their `data-ready`. */
  lemma BothHear(codec: Wire, t: Tunnel)
    requires Signals(codec) && Ok(t.a.cell) && Ok(t.b.cell) && t.spliced && !t.a.cell.closed && !t.b.cell.closed
    requires t.a.client == Fresh() && t.b.client == Fresh() && t.a.down == Frame(codec, DataReady) == t.b.down
    ensures var u := Next(codec, t, Down(Controller, |t.a.down|));
            Ok(u.a.client) && Ok(u.b.client) && Ok(u.a.cell) && Ok(u.b.cell)
            && Connected(Next(codec, u, Down(Host, |u.b.down|)))
  {
    HearsReady(codec, t.a);
    HearsReady(codec, t.b);
    var u := Next(codec, t, Down(Controller, |t.a.down|));
    assert u == t.(a := Heard(codec, t.a, |t.a.down|));
    assert Next(codec, u, Down(Host, |u.b.down|)) == u.(b := Heard(codec, t.b, |t.b.down|));
  }

  /**
   * With the links delivering and nobody closing, both adapters end up connected; from there nothing is lost
   * (`TunnelExact`).
   */
  lemma Connects(codec: Wire, ticket: Ticket, mac: Option<Mac>)
    requires Usable(codec, ticket, mac)
    ensures var t0 := Dialed(codec, ticket, mac);
            var t1 := Next(codec, t0, Up(Controller, |t0.a.up|));
            var t2 := Next(codec, t1, Up(Host, |t1.b.up|));
            && Ok(t2.a.client) && Ok(t2.b.client) && Ok(t2.a.cell) && Ok(t2.b.cell)
            && var t3 := Next(codec, t2, Down(Controller, |t2.a.down|));
               Ok(t3.a.client) && Ok(t3.b.client) && Ok(t3.a.cell) && Ok(t3.b.cell)
               && Connected(Next(codec, t3, Down(Host, |t3.b.down|)))
  {
    var t0 := Dialed(codec, ticket, mac);
    ControllerDials(codec, ticket, mac);
    var t1 := Next(codec, t0, Up(Controller, |t0.a.up|));
    assert t1.b.up[..|t1.b.up|] == t1.b.up && t1.b.up[|t1.b.up|..] == [];
    HostDials(codec, t1, ticket, mac);
    var t2 := Next(codec, t1, Up(Host, |t1.b.up|));
    assert t2 == Arrive(codec, t1.(b := t1.b.(up := [])), Host, t1.b.up);
    BothHear(codec, t2);
  }
}

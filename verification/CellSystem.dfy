/** Adapters, links and a whole cell together. */
module CellSystems {
  // Two adapters and their four links, from the splice of their bridge on.

  import opened Bytes
  import opened Symbols
  import opened Messages
  import opened HostProofs
  import opened Cells
  import opened CellSafety
  import opened CellEffects
  import opened CellTheorems
  import opened CellTunnel
  import opened CellBridge
  import opened CellExamples
  import opened CellRuns
  import OuterFraming
  import T = Tunnels

  /** An adapter and its two links: `up` and `down` are in flight from and to it, `sent` is what its user sent. */
  datatype Adapter = Adapter(client: T.Link, up: seq<byte>, down: seq<byte>, sent: seq<byte>)

  datatype System = System(cell: Cell, controller: Adapter, host: Adapter) {
    function End(side: Side): Adapter {
      if side == Controller then controller else host
    }

    function With(side: Side, d: Adapter): System {
      if side == Controller then this.(controller := d) else this.(host := d)
    }
  }

  /** The two connections of the bridge. */
  datatype Ends = Ends(controller: ConnId, host: ConnId) {
    function At(side: Side): ConnId {
      if side == Controller then controller else host
    }
  }

  datatype Step =
    | Sends(side: Side, bytes: seq<byte>)    // the adapter's user writes
    | Consumes(side: Side)                   // ... or registers for inbound bytes
    | Reaches(side: Side, n: nat)            // some bytes reach the cell
    | Hears(side: Side, n: nat)              // some bytes reach the adapter
    | Leaves(side: Side)                     // the adapter closes
    | Cells(e: Event)                        // anything else at the cell, for whomever

  /** The cell takes a step; what it writes to either connection goes down its link. */
  function CellStep(codec: T.Wire, p: Params, x: Ends, y: System, e: Event): System {
    var u := Next(p, y.cell, e);
    System(u, y.controller.(down := y.controller.down + Fresh(codec, y.cell, u, x.controller)),
           y.host.(down := y.host.down + Fresh(codec, y.cell, u, x.host)))
  }

  function Fresh(codec: T.Wire, s: Cell, u: Cell, c: ConnId): seq<byte> {
    var before, after := Written(codec, ToEnd(s.out, c)), Written(codec, ToEnd(u.out, c));
    if |before| <= |after| then after[|before|..] else []
  }

  predicate Fit(y: System) {
    OuterFraming.Ok(y.controller.client) && OuterFraming.Ok(y.host.client)
  }

  function Take(codec: T.Wire, p: Params, x: Ends, y: System, step: Step): (z: System)
    requires Fit(y)
    ensures Fit(z)
  {
    match step
    case Sends(side, bytes) =>
      var d := y.End(side);
      if d.client.raw && !d.client.closed then y.With(side, d.(up := d.up + bytes, sent := d.sent + bytes)) else y
    case Consumes(side) =>
      var d := y.End(side);
      if d.client.raw then y.With(side, d.(client := OuterFraming.OnRaw(d.client))) else y
    case Reaches(side, n) =>
      var d := y.End(side);
      if n <= |d.up| then CellStep(codec, p, x, y.With(side, d.(up := d.up[n..])), Pipes(x.At(side), d.up[..n])) else y
    case Hears(side, n) =>
      var d := y.End(side);
      if n <= |d.down| then y.With(side,
                                   d.(down := d.down[n..], client := T.ClientReceive(codec, d.client, d.down[..n])))
                                       else y
    case Leaves(side) =>
      var d := y.End(side);
      y.With(side, d.(client := OuterFraming.CloseConn(d.client)))
    case Cells(e) =>
      if e.Pipes? && (e.c == x.controller || e.c == x.host) then y else CellStep(codec, p, x, y, e)
  }

  // ---- In step with a tunnel ---------------------------------------------------------------------

  predicate SyncEnd(d: Adapter, e: T.End) {
    d == Adapter(e.client, e.up, e.down, e.sent)
  }

  ghost predicate Sync(codec: T.Wire, x: Ends, y: System, t: T.Tunnel) {
    && Joint(y.cell, x.controller, x.host) && Mirrors(codec, y.cell, x.controller, x.host, t)
    && SyncEnd(y.controller, t.a) && SyncEnd(y.host, t.b)
  }

  /** What the cell writes to an end is what the tunnel does. */
  predicate Extends(e: T.End, f: T.End) {
    && f.client == e.client && f.up == e.up && f.sent == e.sent
    && |e.written| <= |f.written| && f.written[..|e.written|] == e.written
       && f.down == e.down + f.written[|e.written|..]
  }

  lemma RelayExtends(e: T.End, bytes: seq<byte>)
    ensures Extends(e, T.Relay(e, bytes))
  {
    assert e.down + [] == e.down;
    assert (e.written + bytes)[|e.written|..] == bytes;
  }

  /** The tunnel's steps while the cell takes one. */
  lemma ShadowExtends(codec: T.Wire, p: Params, x: Ends, s: Cell, t: T.Tunnel, e: Event)
    requires T.Signals(codec) && Joint(s, x.controller, x.host) && Mirrors(codec, s, x.controller, x.host, t)
    ensures var u := Shadow(codec, t, x.controller, x.host, e); Extends(t.a, u.a) && Extends(t.b, u.b)
  {
    RelayExtends(t.a, []);
    RelayExtends(t.b, []);
    RelayNothing(t.a);
    RelayNothing(t.b);
    if e.Pipes? && (e.c == x.controller || e.c == x.host) {
      var side := if e.c == x.controller then Controller else Host;
      ArriveRaw(codec, t, side, e.bytes);
      var arrived := if t.End(side).cell.closed then [] else e.bytes;
      RelayExtends(t.End(T.Other(side)), arrived);
    }
  }

  lemma CellStepSync(codec: T.Wire, p: Params, x: Ends, y: System, t: T.Tunnel, e: Event)
    requires T.Signals(codec) && Sync(codec, x, y, t)
    ensures Sync(codec, x, CellStep(codec, p, x, y, e), Shadow(codec, t, x.controller, x.host, e))
  {
    ShadowMirrors(codec, p, y.cell, x.controller, x.host, t, e);
    ShadowExtends(codec, p, x, y.cell, t, e);
  }

  /** What the tunnel does while the system takes a step. */
  function Steps(x: Ends, step: Step): seq<T.Step> {
    match step
    case Sends(side, bytes) => [T.Send(side, bytes)]
    case Consumes(side) => [T.Consume(side)]
    case Reaches(side, n) => [T.Up(side, n)]
    case Hears(side, n) => [T.Down(side, n)]
    case Leaves(side) => [T.CloseClient(side)]
    case Cells(e) => if e.Pipes? || Elsewhere(e, x.controller, x.host)
        then [] else [T.CloseCell(Controller), T.CloseCell(Host)]
  }

  lemma RunOne(codec: T.Wire, t: T.Tunnel, ticket: Ticket, mac: Option<Mac>, step: T.Step)
    requires T.Usable(codec, ticket, mac) && T.Inv(codec, t, ticket, mac)
    ensures T.Run(codec, t, ticket, mac, [step]) == T.Next(codec, t, step)
            && T.Inv(codec, T.Next(codec, t, step), ticket, mac)
  {
    T.StepKeeps(codec, t, ticket, mac, step);
    var u := T.Next(codec, t, step);
    assert [step][1..] == [] && T.Run(codec, u, ticket, mac, []) == u;
  }

  lemma RunTwo(codec: T.Wire, t: T.Tunnel, ticket: Ticket, mac: Option<Mac>, a: T.Step, b: T.Step)
    requires T.Usable(codec, ticket, mac) && T.Inv(codec, t, ticket, mac)
    ensures T.Inv(codec, T.Next(codec, t, a), ticket, mac)
    ensures T.Run(codec, t, ticket, mac, [a, b]) == T.Next(codec, T.Next(codec, t, a), b)
  {
    T.StepKeeps(codec, t, ticket, mac, a);
    RunOne(codec, T.Next(codec, t, a), ticket, mac, b);
    assert [a, b][1..] == [b];
  }

  /** Bytes that reach the cell. */
  lemma ReachSync(codec: T.Wire, p: Params, x: Ends, y: System, t: T.Tunnel, side: Side, n: nat)
    requires T.Signals(codec) && Fit(y) && Sync(codec, x, y, t) && OuterFraming.Ok(t.a.client)
             && OuterFraming.Ok(t.b.client)
    ensures Sync(codec, x, Take(codec, p, x, y, Reaches(side, n)), T.Next(codec, t, T.Up(side, n)))
  {
    var d, e := y.End(side), t.End(side);
    if n <= |d.up| {
      CellStepSync(codec, p, x, y.With(side, d.(up := d.up[n..])), t.With(side, e.(up := e.up[n..])),
                   Pipes(x.At(side), d.up[..n]));
    }
  }

  /** The cell's view of a tunnel's end stays when the adapter's side changes. */
  predicate Beside(e: T.End, f: T.End) {
    f.cell == e.cell && f.written == e.written && f.relayed == e.relayed
  }

  lemma BesideMirrors(codec: T.Wire, s: Cell, x: Ends, t: T.Tunnel, u: T.Tunnel)
    requires Mirrors(codec, s, x.controller, x.host, t) && Beside(t.a, u.a) && Beside(t.b, u.b) && u.spliced
    ensures Mirrors(codec, s, x.controller, x.host, u)
  {
  }

  lemma AdapterBeside(codec: T.Wire, x: Ends, t: T.Tunnel, step: Step)
    requires T.Signals(codec) && OuterFraming.Ok(t.a.cell) && OuterFraming.Ok(t.b.cell) && OuterFraming.Ok(t.a.client)
             && OuterFraming.Ok(t.b.client)
    requires !step.Reaches? && !step.Cells?
    ensures var u := T.Next(codec, t, Steps(x, step)[0]); Beside(t.a, u.a) && Beside(t.b, u.b) && u.spliced == t.spliced
  {
  }

  lemma AdapterEnds(codec: T.Wire, p: Params, x: Ends, y: System, t: T.Tunnel, step: Step)
    requires T.Signals(codec) && OuterFraming.Ok(t.a.cell) && OuterFraming.Ok(t.b.cell) && Fit(y)
    requires SyncEnd(y.controller, t.a) && SyncEnd(y.host, t.b) && !step.Reaches? && !step.Cells?
    ensures var z, u := Take(codec, p, x, y, step), T.Next(codec, t, Steps(x, step)[0]);
            z.cell == y.cell && SyncEnd(z.controller, u.a) && SyncEnd(z.host, u.b)
  {
  }

  /** The adapter's own steps. */
  lemma AdapterSync(codec: T.Wire, p: Params, x: Ends, y: System, t: T.Tunnel, step: Step)
    requires T.Signals(codec) && OuterFraming.Ok(t.a.cell) && OuterFraming.Ok(t.b.cell) && Fit(y)
             && Sync(codec, x, y, t)
    requires !step.Reaches? && !step.Cells?
    ensures Sync(codec, x, Take(codec, p, x, y, step), T.Next(codec, t, Steps(x, step)[0]))
  {
    AdapterBeside(codec, x, t, step);
    AdapterEnds(codec, p, x, y, t, step);
    BesideMirrors(codec, y.cell, x, t, T.Next(codec, t, Steps(x, step)[0]));
  }

  lemma TearSync(codec: T.Wire, p: Params, x: Ends, y: System, t: T.Tunnel, ticket: Ticket, mac: Option<Mac>, e: Event)
    requires T.Usable(codec, ticket, mac) && T.Inv(codec, t, ticket, mac) && Sync(codec, x, y, t)
    requires !e.Pipes? && !Elsewhere(e, x.controller, x.host)
    ensures Sync(codec, x, CellStep(codec, p, x, y, e),
                 T.Run(codec, t, ticket, mac, [T.CloseCell(Controller), T.CloseCell(Host)]))
  {
    CellStepSync(codec, p, x, y, t, e);
    RunTwo(codec, t, ticket, mac, T.CloseCell(Controller), T.CloseCell(Host));
    SeveredIs(codec, t);
  }

  lemma SeveredIs(codec: T.Wire, t: T.Tunnel)
    requires T.Signals(codec) && OuterFraming.Ok(t.a.cell) && OuterFraming.Ok(t.b.cell) && OuterFraming.Ok(t.a.client)
             && OuterFraming.Ok(t.b.client)
    ensures T.Next(codec, T.Next(codec, t, T.CloseCell(Controller)), T.CloseCell(Host)) == Severed(t)
  {
  }

  lemma TakeSync(codec: T.Wire, p: Params, x: Ends, y: System, t: T.Tunnel, ticket: Ticket, mac: Option<Mac>,
                 step: Step)
    requires T.Usable(codec, ticket, mac) && T.Inv(codec, t, ticket, mac) && Fit(y) && Sync(codec, x, y, t)
    ensures Sync(codec, x, Take(codec, p, x, y, step), T.Run(codec, t, ticket, mac, Steps(x, step)))
  {
    if step.Reaches? {
      RunOne(codec, t, ticket, mac, T.Up(step.side, step.n));
      ReachSync(codec, p, x, y, t, step.side, step.n);
    } else if !step.Cells? {
      RunOne(codec, t, ticket, mac, Steps(x, step)[0]);
      AdapterSync(codec, p, x, y, t, step);
    } else if step.e.Pipes? || Elsewhere(step.e, x.controller, x.host) {
      CellStepSync(codec, p, x, y, t, step.e);
    } else {
      TearSync(codec, p, x, y, t, ticket, mac, step.e);
    }
  }

  // ---- Whole runs -------------------------------------------------------------------------------

  function Go(codec: T.Wire, p: Params, x: Ends, y: System, steps: seq<Step>): (z: System)
    requires Fit(y)
    ensures Fit(z)
    decreases |steps|
  {
    if steps == [] then y else Go(codec, p, x, Take(codec, p, x, y, steps[0]), steps[1..])
  }

  /** The system stays in step with a tunnel. */
  lemma {:induction false} GoSync(codec: T.Wire, p: Params, x: Ends, y: System, t: T.Tunnel, ticket: Ticket,
                                  mac: Option<Mac>, steps: seq<Step>)
    returns (u: T.Tunnel)
    requires T.Usable(codec, ticket, mac) && T.Inv(codec, t, ticket, mac) && Fit(y) && Sync(codec, x, y, t)
    ensures T.Inv(codec, u, ticket, mac) && Sync(codec, x, Go(codec, p, x, y, steps), u)
    decreases |steps|
  {
    if steps == [] {
      u := t;
    } else {
      var v := T.Run(codec, t, ticket, mac, Steps(x, steps[0]));
      TakeSync(codec, p, x, y, t, ticket, mac, steps[0]);
      T.RunKeeps(codec, t, ticket, mac, Steps(x, steps[0]));
      u := GoSync(codec, p, x, Take(codec, p, x, y, steps[0]), v, ticket, mac, steps[1..]);
    }
  }

  function AdapterOf(e: T.End): Adapter {
    Adapter(e.client, e.up, e.down, e.sent)
  }

  /** The host's dial has reached the cell whole: the two take the same step. */
  function Joined(codec: T.Wire, p: Params, s: Cell, x: Ends, t: T.Tunnel, auth: OuterMessage): System
    requires T.Signals(codec) && OuterFraming.Ok(t.a.cell) && OuterFraming.Ok(t.b.cell)
  {
    var u := T.Arrive(codec, t.With(Host, t.b.(up := [])), Host, t.b.up);
    System(Next(p, s, Receives(x.host, [auth], [], false)), AdapterOf(u.a), AdapterOf(u.b))
  }

  /** A tunnel still dialing, and a cell in which its controller waits and its host's dial proves itself. */
  ghost predicate DialComing(codec: T.Wire, p: Params, s: Cell, x: Ends, t: T.Tunnel, ticket: Ticket, mac: Option<Mac>)
    requires T.Usable(codec, ticket, mac)
  {
    && T.Inv(codec, t, ticket, mac) && Tables(s) && Awaits(codec, s, x.controller, x.host, t)
    && !Get(s, x.host).closed && Splices(p, s, x.host, DataAuth(Host, ticket, mac))
       && s.pending[ticket].controller == x.controller
  }

  /** A tunnel's bytes all delivered, as the bytes of one chunk. */
  lemma WholeDial(codec: T.Wire, t: T.Tunnel, ticket: Ticket, mac: Option<Mac>)
    requires T.Usable(codec, ticket, mac) && T.Inv(codec, t, ticket, mac)
    ensures var u := T.Next(codec, t, T.Up(Host, |t.b.up|));
            T.Inv(codec, u, ticket, mac) && u == T.Arrive(codec, t.With(Host, t.b.(up := [])), Host, t.b.up)
  {
    T.StepKeeps(codec, t, ticket, mac, T.Up(Host, |t.b.up|));
    assert t.b.up[..|t.b.up|] == t.b.up && t.b.up[|t.b.up|..] == [];
  }

  lemma JoinedMirrors(codec: T.Wire, p: Params, s: Cell, x: Ends, t: T.Tunnel, ticket: Ticket, mac: Option<Mac>)
    requires T.Usable(codec, ticket, mac) && DialComing(codec, p, s, x, t, ticket, mac)
    ensures var v, auth := t.With(Host, t.b.(up := [])), DataAuth(Host, ticket, mac);
            Mirrors(codec, Next(p, s, Receives(x.host, [auth], [], false)), x.controller, x.host,
                    T.Arrive(codec, v, Host, t.b.up))
  {
    var auth, v := DataAuth(Host, ticket, mac), t.With(Host, t.b.(up := []));
    assert T.DialInv(codec, t.b, auth);
    assert T.Frame(codec, auth) + [] == T.Frame(codec, auth);
    DialIsSplice(codec, p, s, x.controller, x.host, v, auth, t.b.up, []);
  }

  lemma JoinedSync(codec: T.Wire, p: Params, s: Cell, x: Ends, t: T.Tunnel, ticket: Ticket, mac: Option<Mac>)
    requires T.Usable(codec, ticket, mac) && DialComing(codec, p, s, x, t, ticket, mac)
    ensures var u := T.Next(codec, t, T.Up(Host, |t.b.up|));
            && T.Inv(codec, u, ticket, mac) && Fit(Joined(codec, p, s, x, t, DataAuth(Host, ticket, mac)))
            && Sync(codec, x, Joined(codec, p, s, x, t, DataAuth(Host, ticket, mac)), u)
  {
    WholeDial(codec, t, ticket, mac);
    JoinedMirrors(codec, p, s, x, t, ticket, mac);
    DialJoins(codec, p, s, x.controller, x.host, DataAuth(Host, ticket, mac), []);
  }

  /**
   * The bridge of a cell carries bytes exactly. From the splice on, the cell serving whomever else, the
   * links cutting as they like and anybody closing: each adapter's consumer has received a prefix of what
   * the other's user sent; the cell wrote it data-ready and then what it piped, nothing else; and while
   * adapter and cell's ends are open nothing is missing, only under way.
   */
  lemma BridgeExact(codec: T.Wire, p: Params, s: Cell, x: Ends, t: T.Tunnel, ticket: Ticket, mac: Option<Mac>,
                    steps: seq<Step>, side: Side)
    requires T.Usable(codec, ticket, mac) && DialComing(codec, p, s, x, t, ticket, mac)
    ensures Fit(Joined(codec, p, s, x, t, DataAuth(Host, ticket, mac)))
    ensures var z := Go(codec, p, x, Joined(codec, p, s, x, t, DataAuth(Host, ticket, mac)), steps);
            var from, to := z.End(side), z.End(T.Other(side));
            var got := ToEnd(z.cell.out, x.At(T.Other(side)));
            && Prefix(to.client.out, from.sent)
            && Written(codec, got) == T.Frame(codec, DataReady) + Relayed(got)
            && (to.client.raw && !to.client.closed && !Get(z.cell, x.controller).closed
                && !Get(z.cell, x.host).closed ==>
                  from.sent == to.client.out + to.client.waiting + to.down + from.up)
  {
    JoinedSync(codec, p, s, x, t, ticket, mac);
    var u := GoSync(codec, p, x, Joined(codec, p, s, x, t, DataAuth(Host, ticket, mac)),
                    T.Next(codec, t, T.Up(Host, |t.b.up|)), ticket, mac, steps);
    T.InvIsExact(codec, u, ticket, mac, side);
  }

  // ---- Such a system is reached ------------------------------------------------------------------

  function TheMac(p: Params, x: Story): Mac {
    DataAuthMac(TheDataKey(x), p.cellId, x.ticket, x.bridgeNonce)
  }

  /** In the cell: connection 1 waits, and connection 2 is new. */
  lemma CellIsReady(p: Params, x: Story)
    requires !p.lowOrder(x.key) && x.now < x.expiresAt
    ensures var s := Run(p, NewCell(), Wait(p, x) + [Accepts(2)]);
            && Tables(s) && Get(s, 2) == NewConn() && Get(s, 1) == WaitingConn(x) && ToEnd(s.out, 1) == []
               && ToEnd(s.out, 2) == []
            && Splices(p, s, 2, DataAuth(Host, x.ticket, Some(TheMac(p, x)))) && s.pending[x.ticket].controller == 1
  {
    AwaitedRun(p, x);
    RunSnoc(p, NewCell(), Wait(p, x), Accepts(2));
    CellInvariant(p, Wait(p, x) + [Accepts(2)]);
    Unwritten(p, x);
    var s := Run(p, NewCell(), Wait(p, x) + [Accepts(2)]);
    assert Get(s, 0) == ControlConn(x);
  }

  /** The tunnel once the controller's dial is read. */
  lemma TunnelIsReady(codec: T.Wire, ticket: Ticket, mac: Option<Mac>)
    requires T.Usable(codec, ticket, mac)
    ensures var t := T.Dialed(codec, ticket, mac);
            var u := T.Next(codec, t, T.Up(Controller, |t.a.up|));
            && T.Inv(codec, u, ticket, mac) && !u.spliced
               && u.a.cell == OuterFraming.Fresh<OuterMessage>().(messages := [DataAuth(Controller, ticket, None)])
            && u.b.cell == OuterFraming.Fresh() && u.a.written == [] == u.a.relayed && u.b.written == [] == u.b.relayed
  {
    T.DialedOk(codec, ticket, mac);
    var t := T.Dialed(codec, ticket, mac);
    T.StepKeeps(codec, t, ticket, mac, T.Up(Controller, |t.a.up|));
    T.ControllerDials(codec, ticket, mac);
  }

  /**
   * From a new cell, with the controller's dial read: host on connection 0, controller on 1, and the host's
   * dial coming in on 2.
   */
  lemma SomeSystemIsReady(p: Params, x: Story)
    requires !p.lowOrder(x.key) && x.now < x.expiresAt
    ensures var mac := Some(TheMac(p, x));
            var codec := T.Terse(x.ticket, mac);
            && T.Usable(codec, x.ticket, mac)
            && var t := T.Dialed(codec, x.ticket, mac);
               DialComing(codec, p, Run(p, NewCell(), Wait(p, x) + [Accepts(2)]), Ends(1, 2),
                          T.Next(codec, t, T.Up(Controller, |t.a.up|)), x.ticket, mac)
  {
    var mac := Some(TheMac(p, x));
    T.SomeCodecIsUsable(x.ticket, mac);
    TunnelIsReady(T.Terse(x.ticket, mac), x.ticket, mac);
    CellIsReady(p, x);
  }

  /** Nothing was written to connection 1 or 2. */
  lemma Unwritten(p: Params, x: Story)
    ensures var out := [Asking(p, x), Sent(0, HostRegistered(x.host)), Sent(0, ConnOpen(x.ticket, x.bridgeNonce))];
            ToEnd(out, 1) == [] && ToEnd(out, 2) == []
  {
    var a, b, c := Asking(p, x), Sent(0, HostRegistered(x.host)), Sent(0, ConnOpen(x.ticket, x.bridgeNonce));
    assert [a, b, c] == [] + [a] + [b] + [c];
    forall d: ConnId | d == 1 || d == 2 ensures ToEnd([a, b, c], d) == [] {
      ToEndSnoc([], a, d);
      ToEndSnoc([] + [a], b, d);
      ToEndSnoc([] + [a] + [b], c, d);
    }
  }
}

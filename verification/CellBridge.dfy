/**
 * Every run of a cell, seen from one of its bridges, is a run of the tunnel's cell half: what other
 * connections do leaves the two ends of a bridge as they are.
 */
module CellBridge {
  import opened Bytes
  import opened Symbols
  import opened Messages
  import opened HostProofs
  import opened Cells
  import opened CellSafety
  import opened CellEffects
  import opened CellTheorems
  import opened CellTunnel
  import OuterFraming
  import T = Tunnels

  // ---- What a connection does leaves another alone ------------------------------------------------

  /** No table and no link through which a step of `c` could reach `d`. */
  predicate Aside(s: Cell, c: ConnId, d: ConnId) {
    && c != d && (forall h | h in s.hosts :: s.hosts[h] != d)
       && (forall t | t in s.pending :: s.pending[t].controller != d)
    && (Get(s, c).bridge.Some? && Get(s, c).bridge.value in s.bridges ==> Peer(Get(s, c).bridge.value, c) != d)
    && Get(s, c).pipe != Some(d)
  }

  /** `d` is as it was, nothing was written to it, and no new bridge names it. */
  predicate Spares(s: Cell, t: Cell, d: ConnId) {
    && Get(t, d) == Get(s, d) && ToEnd(t.out, d) == ToEnd(s.out, d) && t.closed == s.closed
    && (forall b | b in t.bridges && b !in s.bridges :: b.controller != d && b.host != d)
  }

  lemma SendSpares(s: Cell, to: ConnId, message: OuterMessage, c: ConnId, d: ConnId)
    requires to != d && Aside(s, c, d)
    ensures Spares(s, SendTo(s, to, message), d) && Aside(SendTo(s, to, message), c, d)
  {
    ToEndSnoc(s.out, Sent(to, message), d);
  }

  lemma PourSparesOther(s: Cell, from: ConnId, to: ConnId, bytes: seq<byte>, c: ConnId, d: ConnId)
    requires to != d && Aside(s, c, d)
    ensures Spares(s, Pour(s, from, to, bytes), d) && Aside(Pour(s, from, to, bytes), c, d)
    ensures Spares(s, PourHeld(s, from, to, bytes), d) && Aside(PourHeld(s, from, to, bytes), c, d)
  {
    ToEndSnoc(s.out, Piped(from, to, bytes), d);
  }

  /** The connection changed in itself. */
  lemma PutSpares(s: Cell, c: ConnId, d: ConnId, k: Conn)
    requires Aside(s, c, d) && k.pipe == Get(s, c).pipe && (k.bridge == Get(s, c).bridge || k.bridge.None?)
    ensures Spares(s, Put(s, c, k), d) && Aside(Put(s, c, k), c, d)
  {
  }

  lemma DropHostSpares(s: Cell, c: ConnId, d: ConnId)
    requires Aside(s, c, d)
    ensures Spares(s, DropHost(s, c), d) && Aside(DropHost(s, c), c, d)
  {
  }

  lemma DropPendingSpares(s: Cell, c: ConnId, d: ConnId)
    requires Aside(s, c, d)
    ensures Spares(s, DropPending(s, c), d) && Aside(DropPending(s, c), c, d)
  {
  }

  lemma DropBridgeSpares(s: Cell, c: ConnId, d: ConnId)
    requires Aside(s, c, d)
    ensures Spares(s, DropBridge(s, c), d) && Aside(DropBridge(s, c), c, d)
  {
  }

  lemma DetachSpares(s: Cell, c: ConnId, d: ConnId)
    requires Aside(s, c, d)
    ensures Spares(s, Detach(s, c), d) && Aside(Detach(s, c), c, d)
  {
    DetachIsPut(s, c);
    DropHostSpares(s, c, d);
    DropPendingSpares(DropHost(s, c), c, d);
    DropBridgeSpares(DropPending(DropHost(s, c), c), c, d);
    var t := DropBridge(DropPending(DropHost(s, c), c), c);
    PutSpares(t, c, d, Down(Get(t, c)));
  }

  lemma RefuseSpares(s: Cell, c: ConnId, d: ConnId, code: CloseCode)
    requires Aside(s, c, d)
    ensures Spares(s, Refuse(s, c, code), d) && Aside(Refuse(s, c, code), c, d)
  {
    SendSpares(s, c, Close(code), c, d);
    DetachSpares(SendTo(s, c, Close(code)), c, d);
  }

  lemma PutRefuseSpares(s: Cell, c: ConnId, d: ConnId, k: Conn, code: CloseCode)
    requires Aside(s, c, d) && k.pipe == Get(s, c).pipe && k.bridge == Get(s, c).bridge
    ensures Spares(s, Refuse(Put(s, c, k), c, code), d) && Aside(Refuse(Put(s, c, k), c, code), c, d)
  {
    PutSpares(s, c, d, k);
    RefuseSpares(Put(s, c, k), c, d, code);
  }

  /** Another connection, not `d`, is closed; the table gains `c`. */
  lemma CloseOtherSpares(s: Cell, o: ConnId, c: ConnId, d: ConnId)
    requires Aside(s, c, d) && o != d
    ensures Spares(s, CloseOuter(s, o), d) && Aside(CloseOuter(s, o), c, d)
  {
  }

  lemma EnlistSpares(s: Cell, c: ConnId, d: ConnId, h: HostId)
    requires Aside(s, c, d)
    ensures Spares(s, s.(hosts := s.hosts[h := c]), d) && Aside(s.(hosts := s.hosts[h := c]), c, d)
  {
  }

  lemma RegisterSpares(s: Cell, c: ConnId, d: ConnId, h: HostId, dataKey: Option<seq<Sym>>)
    requires Aside(s, c, d)
    ensures Spares(s, Register(s, c, h, dataKey), d) && Aside(Register(s, c, h, dataKey), c, d)
  {
    var t := if h in s.hosts && s.hosts[h] != c then CloseOuter(s, s.hosts[h]) else s;
    if h in s.hosts && s.hosts[h] != c {
      CloseOtherSpares(s, s.hosts[h], c, d);
    }
    PutSpares(t, c, d, Get(t, c).(dataKey := dataKey, role := Control));
    var u := Put(t, c, Get(t, c).(dataKey := dataKey, role := Control));
    EnlistSpares(u, c, d, h);
    SendSpares(u.(hosts := u.hosts[h := c]), c, HostRegistered(h), c, d);
  }

  lemma ProofSpares(p: Params, s: Cell, c: ConnId, d: ConnId, message: OuterMessage)
    requires Aside(s, c, d)
    ensures Spares(s, OnProof(p, s, c, message), d) && Aside(OnProof(p, s, c, message), c, d)
  {
    var k := Get(s, c);
    var t := Put(s, c, k.(challenge := None));
    PutSpares(s, c, d, k.(challenge := None));
    if !message.HostProof? {
      RefuseSpares(t, c, d, ProtocolError);
    } else if k.challenge.None? || k.hostId.None? || k.hostStaticPub.None? {
      RefuseSpares(s, c, d, ProtocolError);
    } else if !VerifyProof(p.lowOrder, k.challenge.value, k.hostId.value, k.hostStaticPub.value, message.mac) {
      RefuseSpares(t, c, d, ProofFailed);
    } else {
      RegisterSpares(t, c, d, k.hostId.value, CellDataAuthKey(p.lowOrder, k.challenge.value, k.hostStaticPub.value));
    }
  }

  lemma SpliceSpares(s: Cell, controller: ConnId, c: ConnId, ticket: Ticket, d: ConnId)
    requires Aside(s, c, d) && controller != d
    ensures Spares(s, Splice(s, controller, c, ticket), d) && Aside(Splice(s, controller, c, ticket), c, d)
  {
    var b := Bridge(ticket, controller, c);
    var t := Put(s.(bridges := s.bridges + {b}), controller,
                 Get(s, controller).(bridge := Some(b), pipe := Some(c), raw := true, held := []));
    var u := Put(t, c, Get(t, c).(bridge := Some(b), pipe := Some(controller), raw := true));
    assert Spares(s, u, d) && Aside(u, c, d);
    SendSpares(u, controller, DataReady, c, d);
    SendSpares(SendTo(u, controller, DataReady), c, DataReady, c, d);
    PourSparesOther(SendTo(SendTo(u, controller, DataReady), c, DataReady), controller, c, Get(s, controller).held, c,
                    d);
  }

  lemma DialSpares(p: Params, s: Cell, c: ConnId, d: ConnId, ticket: Ticket, mac: Option<Mac>)
    requires Aside(s, c, d)
    ensures Spares(s, CompleteHostDial(p, s, c, ticket, mac), d) && Aside(CompleteHostDial(p, s, c, ticket, mac), c, d)
  {
    RefuseSpares(s, c, d, BadTicket);
    RefuseSpares(s, c, d, DataAuthFailed);
    if Authentic(p, s, ticket, mac) {
      DialIs(p, s, c, ticket, mac);
      ReadySpares(s, c, d, ticket);
      SpliceSpares(Ready(s, c, ticket), s.pending[ticket].controller, c, ticket, d);
    }
  }

  lemma ReadySpares(s: Cell, c: ConnId, d: ConnId, ticket: Ticket)
    requires Aside(s, c, d) && ticket in s.pending
    ensures Spares(s, Ready(s, c, ticket), d) && Aside(Ready(s, c, ticket), c, d)
  {
  }

  lemma DispatchSpares(p: Params, s: Cell, c: ConnId, d: ConnId, message: OuterMessage)
    requires Aside(s, c, d)
    ensures Spares(s, Dispatch(p, s, c, message), d) && Aside(Dispatch(p, s, c, message), c, d)
  {
    RefuseSpares(s, c, d, ProtocolError);
    match Get(s, c).role
    case Unclassified => ClassifySpares(p, s, c, d, message);
    case ControlPending => ProofSpares(p, s, c, d, message);
    case _ => DetachSpares(s, c, d);
  }

  lemma ClassifySpares(p: Params, s: Cell, c: ConnId, d: ConnId, message: OuterMessage)
    requires Aside(s, c, d)
    ensures Spares(s, Classify(p, s, c, message), d) && Aside(Classify(p, s, c, message), c, d)
  {
    if message.HostHello? {
      PutSpares(s, c, d, Get(s, c).(role := ControlPending, awaiting := Some(ForHostKey(message.hostId))));
    } else if !message.DataAuth? {
      RefuseSpares(s, c, d, ProtocolError);
    } else if message.role.Controller? {
      ControllerSpares(p, s, c, d, message.ticket, message.dialMac);
    } else {
      PutSpares(s, c, d, Get(s, c).(role := HostData));
      DialSpares(p, Put(s, c, Get(s, c).(role := HostData)), c, d, message.ticket, message.dialMac);
    }
  }

  lemma ControllerSpares(p: Params, s: Cell, c: ConnId, d: ConnId, ticket: Ticket, mac: Option<Mac>)
    requires Aside(s, c, d)
    ensures var t := Classify(p, s, c, DataAuth(Controller, ticket, mac)); Spares(s, t, d) && Aside(t, c, d)
  {
    PutRefuseSpares(s, c, d, Get(s, c).(role := ControllerData), Drained);
    PutSpares(s, c, d, Get(s, c).(role := ControllerData, awaiting := Some(ForTicket(ticket))));
  }

  lemma {:induction false} DispatchAllSpares(p: Params, s: Cell, c: ConnId, d: ConnId, messages: seq<OuterMessage>,
                                             bad: bool)
    requires Aside(s, c, d)
    ensures Spares(s, DispatchAll(p, s, c, messages, bad), d) && Aside(DispatchAll(p, s, c, messages, bad), c, d)
    decreases |messages|
  {
    if !Get(s, c).raw {
      if messages == [] {
        RefuseSpares(s, c, d, ProtocolError);
      } else {
        DispatchSpares(p, s, c, d, messages[0]);
        DispatchAllSpares(p, Dispatch(p, s, c, messages[0]), c, d, messages[1..], bad);
      }
    }
  }

  lemma ChunkSpares(p: Params, s: Cell, c: ConnId, d: ConnId, messages: seq<OuterMessage>, rest: seq<byte>, bad: bool)
    requires Aside(s, c, d)
    ensures Spares(s, Chunk(p, s, c, messages, rest, bad), d)
  {
    var t := DispatchAll(p, s, c, messages, bad);
    DispatchAllSpares(p, s, c, d, messages, bad);
    match Get(t, c).pipe
    case Some(to) => PourSparesOther(t, c, to, rest, c, d);
    case None => PutSpares(t, c, d, Get(t, c).(held := rest));
  }

  lemma LookupFailsSpares(s: Cell, c: ConnId, d: ConnId)
    requires Aside(s, c, d)
    ensures Spares(s, LookupFailed(s, c), d)
  {
    if Get(s, c).awaiting.Some? {
      PutRefuseSpares(s, c, d, Get(s, c).(awaiting := None), ProtocolError);
    }
  }

  lemma FindsKeySpares(p: Params, s: Cell, e: Event, d: ConnId)
    requires e.FindsKey? && Aside(s, e.c, d)
    ensures Spares(s, Next(p, s, e), d)
  {
    var k := Get(s, e.c).(awaiting := None);
    if Challenging(s, e) {
      ChallengingIs(p, s, e);
      ToEndSnoc(s.out, Sent(e.c, HostChallenge(p.cellId, e.nonce, e.ephemeral)), d);
    } else if Get(s, e.c).awaiting.Some? && Get(s, e.c).awaiting.value.ForHostKey? {
      if s.closed || Get(s, e.c).closed {
        PutSpares(s, e.c, d, k);
      } else {
        PutRefuseSpares(s, e.c, d, k, UnknownHost);
      }
    }
  }

  lemma ResolvesSpares(p: Params, s: Cell, e: Event, d: ConnId)
    requires Tables(s) && e.Resolves? && Aside(s, e.c, d)
    ensures Spares(s, Next(p, s, e), d)
  {
    if Accepting(s, e) {
      AcceptingSpares(p, s, e, d);
    } else if Get(s, e.c).awaiting.Some? && Get(s, e.c).awaiting.value.ForTicket? {
      NoBridgeSpares(p, s, e, d);
    }
  }

  lemma AcceptingSpares(p: Params, s: Cell, e: Event, d: ConnId)
    requires Tables(s) && Accepting(s, e) && Aside(s, e.c, d)
    ensures Spares(s, Next(p, s, e), d)
  {
    AcceptingIs(p, s, e);
    ToEndSnoc(s.out, Sent(s.hosts[e.record.value.hostId], ConnOpen(AcceptedTicket(s, e), e.bridgeNonce)), d);
  }

  lemma NoBridgeSpares(p: Params, s: Cell, e: Event, d: ConnId)
    requires e.Resolves? && !Accepting(s, e) && Get(s, e.c).awaiting.Some? && Get(s, e.c).awaiting.value.ForTicket?
             && Aside(s, e.c, d)
    ensures Spares(s, Next(p, s, e), d)
  {
    var c, k := e.c, Get(s, e.c).(awaiting := None);
    PutSpares(s, c, d, k);
    if !s.closed && !Get(s, c).closed {
      RefuseSpares(Put(s, c, k), c, d, Refusal(s, e.record, e.now, Get(s, c).awaiting.value.ticket));
    }
  }

  /** A step about `c`, whatever it is. */
  lemma ConnSpares(p: Params, s: Cell, e: Event, d: ConnId)
    requires Tables(s) && !e.Fires? && !e.Drains? && !e.Closes? && Aside(s, e.c, d)
    ensures Spares(s, Next(p, s, e), d)
  {
    match e
    case Accepts(c) => if !s.closed && c !in s.conns { PutSpares(s, c, d, NewConn()); }
    case Receives(c, messages, rest, bad) => ChunkSpares(p, s, c, d, messages, rest, bad);
    case Pipes(c, bytes) => if Get(s, c).pipe.Some? { PourSparesOther(s, c, Get(s, c).pipe.value, bytes, c, d); }
    case PeerCloses(c) => DetachSpares(s, c, d);
    case Resolves(_, _, _, _) => ResolvesSpares(p, s, e, d);
    case LookupFails(c) => LookupFailsSpares(s, c, d);
    case FindsKey(_, _, _, _) => FindsKeySpares(p, s, e, d);
  }

  // ---- A bridge among everything else -------------------------------------------------------------

  /** `a` and `b` are the two ends of a live bridge, or of none and closed. */
  ghost predicate Joint(s: Cell, a: ConnId, b: ConnId) {
    && Tables(s) && a in s.conns && b in s.conns && a != b && Get(s, a).pipe == Some(b) && Get(s, b).pipe == Some(a)
    && ((exists ticket: Ticket :: Bridge(ticket, a, b) in s.bridges)
        || (Get(s, a).closed && Get(s, b).closed && Unbridged(s, a) && Unbridged(s, b)))
  }

  predicate Unbridged(s: Cell, c: ConnId) {
    forall b | b in s.bridges :: b.controller != c && b.host != c
  }

  /** A third connection cannot reach either end. */
  lemma JointAside(s: Cell, a: ConnId, b: ConnId, c: ConnId, d: ConnId)
    requires Joint(s, a, b) && (d == a || d == b) && c != a && c != b
    ensures Aside(s, c, d)
  {
    JointAlone(s, a, b, d);
    if c in s.conns {
      assert PipeOk(s.conns, c, s.conns[c]);
      if Get(s, c).bridge.Some? && Get(s, c).bridge.value in s.bridges {
        var x := Get(s, c).bridge.value;
        assert BridgeOk(Get(s, x.controller), Get(s, x.host), x) && LinkOk(s.bridges, c, s.conns[c]);
        if ticket: Ticket :| Bridge(ticket, a, b) in s.bridges {
          assert BridgeOk(Get(s, a), Get(s, b), Bridge(ticket, a, b));
        }
      }
    }
  }

  /** An end of a bridge, or a closed one, is no host's control connection and waits for no dial. */
  lemma JointAlone(s: Cell, a: ConnId, b: ConnId, d: ConnId)
    requires Joint(s, a, b) && (d == a || d == b)
    ensures (forall h | h in s.hosts :: s.hosts[h] != d) && forall t | t in s.pending :: s.pending[t].controller != d
  {
    if ticket: Ticket :| Bridge(ticket, a, b) in s.bridges {
      assert BridgeOk(Get(s, a), Get(s, b), Bridge(ticket, a, b));
    }
    forall h | h in s.hosts ensures s.hosts[h] != d { assert HostOk(Get(s, s.hosts[h]), h); }
    forall t | t in s.pending ensures s.pending[t].controller != d {
      assert PendingOk(Get(s, s.pending[t].controller), s.timers, t, s.pending[t]);
    }
  }

  lemma {:induction false} DrainsSpare(s: Cell, order: seq<HostId>, d: ConnId)
    requires (forall h | h in order :: h in s.hosts) && forall h | h in s.hosts :: s.hosts[h] != d
    ensures Spares(s, SendDrains(s, order), d)
    decreases |order|
  {
    if order != [] {
      var t := SendTo(s, s.hosts[order[0]], Drain);
      ToEndSnoc(s.out, Sent(s.hosts[order[0]], Drain), d);
      DrainsSpare(t, order[1..], d);
    }
  }

  lemma FiresSpare(s: Cell, a: ConnId, b: ConnId, timer: nat, d: ConnId)
    requires Joint(s, a, b) && (d == a || d == b)
    ensures Spares(s, TimerFired(s, timer), d)
  {
    JointAlone(s, a, b, d);
    if timer in s.timers && s.timers[timer] in s.pending {
      var ticket := s.timers[timer];
      var q := s.pending[ticket];
      var t := s.(timers := s.timers - {timer}, pending := s.pending - {ticket});
      assert PendingOk(Get(s, q.controller), s.timers, ticket, q);
      assert Shape(s.conns[q.controller]);
      RefuseSpares(t, q.controller, d, BridgeTimeout);
    }
  }

  /** A step that is not about the bridge: of a third connection, of a timer, or a drain; or one its raw ends ignore. */
  predicate Elsewhere(e: Event, a: ConnId, b: ConnId) {
    match e
    case Closes => false
    case Fires(_) => true
    case Drains(_) => true
    case Pipes(c, _) => c != a && c != b
    case PeerCloses(c) => c != a && c != b
    case _ => true
  }

  lemma RawIgnores(p: Params, s: Cell, a: ConnId, b: ConnId, e: Event)
    requires Joint(s, a, b) && (e.Accepts? || e.Receives? || e.FindsKey? || e.Resolves? || e.LookupFails?)
             && (e.c == a || e.c == b)
    ensures Next(p, s, e) == s
  {
    assert Shape(s.conns[e.c]);
  }

  lemma ElsewhereSpares(p: Params, s: Cell, a: ConnId, b: ConnId, e: Event, d: ConnId)
    requires Joint(s, a, b) && (d == a || d == b) && Elsewhere(e, a, b)
    ensures Spares(s, Next(p, s, e), d)
  {
    if e.Fires? {
      FiresSpare(s, a, b, e.timer, d);
    } else if e.Drains? {
      JointAlone(s, a, b, d);
      if Enumerates(e.order, s.hosts.Keys) && !s.closed && !s.draining {
        DrainsSpare(s.(draining := true), e.order, d);
      }
    } else if e.c == a || e.c == b {
      RawIgnores(p, s, a, b, e);
    } else {
      JointAside(s, a, b, e.c, d);
      ConnSpares(p, s, e, d);
    }
  }

  /** And the bridge stays what it was. */
  lemma ElsewhereJoint(p: Params, s: Cell, a: ConnId, b: ConnId, e: Event)
    requires Joint(s, a, b) && Elsewhere(e, a, b)
    ensures Joint(Next(p, s, e), a, b)
  {
    var t := Next(p, s, e);
    NextKeeps(p, s, e);
    ElsewhereSpares(p, s, a, b, e, a);
    ElsewhereSpares(p, s, a, b, e, b);
    assert a in t.conns && b in t.conns;
    if ticket: Ticket :| Bridge(ticket, a, b) in s.bridges {
      assert BridgeOk(Get(s, a), Get(s, b), Bridge(ticket, a, b));
      assert LinkOk(t.bridges, a, t.conns[a]);
    }
  }

  // ---- The tunnel's run ---------------------------------------------------------------------------

  /** What the tunnel does while the cell takes this step. */
  function Shadow(codec: T.Wire, t: T.Tunnel, a: ConnId, b: ConnId, e: Event): T.Tunnel
    requires OuterFraming.Ok(t.a.cell) && OuterFraming.Ok(t.b.cell) && |codec.encode(DataReady)| < 0x1_0000_0000
  {
    if e.Pipes? && e.c == a then T.Arrive(codec, t, Controller, e.bytes)
    else if e.Pipes? && e.c == b then T.Arrive(codec, t, Host, e.bytes)
    else if !Elsewhere(e, a, b) then Severed(t)
    else t
  }

  /** Both ends closed, as by `CloseCell` of either side. */
  function Severed(t: T.Tunnel): T.Tunnel {
    t.(a := t.a.(cell := OuterFraming.CloseConn(t.a.cell)), b := t.b.(cell := OuterFraming.CloseConn(t.b.cell)))
  }

  /** A bridge torn down: both ends closed, nothing more written, and neither in a bridge again. */
  lemma TearsDown(p: Params, s: Cell, a: ConnId, b: ConnId, e: Event)
    requires Joint(s, a, b) && !Elsewhere(e, a, b) && !e.Pipes?
    ensures var t := Next(p, s, e);
            && Joint(t, a, b) && t.out == s.out && Get(t, a).closed && Get(t, b).closed
            && Get(t, a).raw == Get(s, a).raw && Get(t, b).raw == Get(s, b).raw
  {
    NextKeeps(p, s, e);
    if e.Closes? {
      ClosesBoth(s, a, b);
    } else {
      DetachesBoth(s, a, b, e.c);
    }
  }

  lemma ClosesBoth(s: Cell, a: ConnId, b: ConnId)
    requires Joint(s, a, b)
    ensures var t := CloseCell(s);
            && t.out == s.out && Get(t, a) == Get(s, a).(closed := true) && Get(t, b) == Get(s, b).(closed := true)
               && t.bridges == {}
            && a in t.conns && b in t.conns
  {
    if ticket: Ticket :| Bridge(ticket, a, b) in s.bridges {
      assert Bridge(ticket, a, b) in s.bridges;
      assert a in Bridged(s) && b in Bridged(s);
    }
  }

  lemma DetachesBoth(s: Cell, a: ConnId, b: ConnId, c: ConnId)
    requires Joint(s, a, b) && (c == a || c == b)
    ensures var t, o := Detach(s, c), if c == a then b else a;
            && t.out == s.out && a in t.conns && b in t.conns && Unbridged(t, a) && Unbridged(t, b)
            && Get(t, c).closed && Get(t, c).raw == Get(s, c).raw && Get(t, c).pipe == Get(s, c).pipe
            && Get(t, o).closed && Get(t, o).raw == Get(s, o).raw && Get(t, o).pipe == Get(s, o).pipe
  {
    if ticket: Ticket :| Bridge(ticket, a, b) in s.bridges {
      LiveDetach(s, a, b, c, Bridge(ticket, a, b));
    } else {
      DeadDetach(s, c);
    }
  }

  lemma LiveDetach(s: Cell, a: ConnId, b: ConnId, c: ConnId, x: Bridge)
    requires Tables(s) && x in s.bridges && x == Bridge(x.ticket, a, b) && (c == a || c == b)
    ensures var t, o := Detach(s, c), if c == a then b else a;
            && t.out == s.out && t.bridges == s.bridges - {x} && Unbridged(t, a) && Unbridged(t, b)
            && t.conns == s.conns[o := Get(s, o).(bridge := None, closed := true)][c := Down(Get(s, c))]
  {
    DetachIsPut(s, c);
    DropsLeave(s, c);
    assert BridgeOk(Get(s, a), Get(s, b), x);
    UnlinkIs(DropPending(DropHost(s, c), c), c, x);
    OnlyBridge(s, x);
  }

  lemma DropsLeave(s: Cell, c: ConnId)
    ensures var t := DropPending(DropHost(s, c), c); t == s.(hosts := t.hosts, pending := t.pending, timers := t.timers)
  {
  }

  lemma UnlinkIs(s: Cell, c: ConnId, x: Bridge)
    requires x in s.bridges && Get(s, c).bridge == Some(x)
    ensures DropBridge(s, c)
            == s.(bridges := s.bridges - {x},
                  conns := s.conns[Peer(x, c) := Get(s, Peer(x, c)).(bridge := None, closed := true)])
  {
  }

  /** Two bridges share no end. */
  lemma OnlyBridge(s: Cell, x: Bridge)
    requires BridgesOk(s) && x in s.bridges
    ensures forall y | y in s.bridges && y != x ::
              y.controller != x.controller && y.controller != x.host && y.host != x.controller && y.host != x.host
  {
    assert BridgeOk(Get(s, x.controller), Get(s, x.host), x);
    forall y | y in s.bridges && y != x
      ensures y.controller != x.controller && y.controller != x.host && y.host != x.controller && y.host != x.host
    {
      assert BridgeOk(Get(s, y.controller), Get(s, y.host), y);
    }
  }

  lemma DeadDetach(s: Cell, c: ConnId)
    requires Tables(s) && Unbridged(s, c)
    ensures var t := Detach(s, c);
            t.out == s.out && t.bridges == s.bridges && t.conns == s.conns[c := Down(Get(s, c))]
  {
    DetachIsPut(s, c);
    DropsLeave(s, c);
    if c in s.conns && !s.closed {
      assert LinkOk(s.bridges, c, s.conns[c]);
    }
    assert DropBridge(DropPending(DropHost(s, c), c), c) == DropPending(DropHost(s, c), c);
  }

  lemma TornMirrors(codec: T.Wire, s: Cell, t: Cell, c: ConnId, e: T.End)
    requires MirrorsEnd(codec, s, c, e) && t.out == s.out && Get(t, c).closed && Get(t, c).raw == Get(s, c).raw
    ensures MirrorsEnd(codec, t, c, e.(cell := OuterFraming.CloseConn(e.cell)))
  {
  }

  lemma SparedMirrors(codec: T.Wire, s: Cell, t: Cell, c: ConnId, e: T.End)
    requires MirrorsEnd(codec, s, c, e) && Spares(s, t, c)
    ensures MirrorsEnd(codec, t, c, e)
  {
  }

  lemma PipesJoint(p: Params, s: Cell, a: ConnId, b: ConnId, c: ConnId, bytes: seq<byte>)
    requires Joint(s, a, b)
    ensures Joint(Next(p, s, Pipes(c, bytes)), a, b)
  {
    NextKeeps(p, s, Pipes(c, bytes));
    var t := Next(p, s, Pipes(c, bytes));
    assert t == s.(out := t.out);
  }

  lemma ShadowMirrors(codec: T.Wire, p: Params, s: Cell, a: ConnId, b: ConnId, t: T.Tunnel, e: Event)
    requires T.Signals(codec) && Joint(s, a, b) && Mirrors(codec, s, a, b, t)
    ensures Joint(Next(p, s, e), a, b) && Mirrors(codec, Next(p, s, e), a, b, Shadow(codec, t, a, b, e))
  {
    var u := Next(p, s, e);
    if Elsewhere(e, a, b) {
      ElsewhereJoint(p, s, a, b, e);
      ElsewhereSpares(p, s, a, b, e, a);
      ElsewhereSpares(p, s, a, b, e, b);
      SparedMirrors(codec, s, u, a, t.a);
      SparedMirrors(codec, s, u, b, t.b);
    } else if e.Pipes? {
      PipesJoint(p, s, a, b, e.c, e.bytes);
      RawIsArrive(codec, p, s, a, b, t, if e.c == a then Controller else Host, e.bytes);
    } else {
      TearsDown(p, s, a, b, e);
      TornMirrors(codec, s, u, a, t.a);
      TornMirrors(codec, s, u, b, t.b);
    }
  }

  ghost function ShadowRun(codec: T.Wire, p: Params, s: Cell, a: ConnId, b: ConnId, t: T.Tunnel,
                           events: seq<Event>): T.Tunnel
    requires T.Signals(codec) && Joint(s, a, b) && Mirrors(codec, s, a, b, t)
    decreases |events|
  {
    if events == [] then t
    else
      ShadowMirrors(codec, p, s, a, b, t, events[0]);
      ShadowRun(codec, p, Next(p, s, events[0]), a, b, Shadow(codec, t, a, b, events[0]), events[1..])
  }

  /**
   * From the splice on, whatever else the cell does for whomever: its two connections stand exactly as the
   * tunnel's ends after the raw bytes and closes of this bridge alone, and were written exactly the same.
   */
  lemma {:induction false} BridgeIsTunnel(codec: T.Wire, p: Params, s: Cell, a: ConnId, b: ConnId, t: T.Tunnel,
                                          events: seq<Event>)
    requires T.Signals(codec) && Joint(s, a, b) && Mirrors(codec, s, a, b, t)
    ensures Mirrors(codec, Run(p, s, events), a, b, ShadowRun(codec, p, s, a, b, t, events))
    decreases |events|
  {
    if events != [] {
      ShadowMirrors(codec, p, s, a, b, t, events[0]);
      BridgeIsTunnel(codec, p, Next(p, s, events[0]), a, b, Shadow(codec, t, a, b, events[0]), events[1..]);
    }
  }

  /** And the splice itself joins them, so that this covers a bridge from its dial to its end. */
  lemma DialJoins(codec: T.Wire, p: Params, s: Cell, a: ConnId, b: ConnId, auth: OuterMessage, rest: seq<byte>)
    requires T.Signals(codec) && Tables(s) && !Get(s, b).closed && Splices(p, s, b, auth)
             && s.pending[auth.ticket].controller == a
    ensures Joint(Next(p, s, Receives(b, [auth], rest, false)), a, b)
  {
    NextKeeps(p, s, Receives(b, [auth], rest, false));
    DialWrites(codec, p, s, a, b, auth, rest);
    ProvenSplices(p, s, b, auth, rest);
  }
}

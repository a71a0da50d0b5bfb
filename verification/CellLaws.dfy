/** A cell, event by event. */
module CellLaws {
  // Event by event: which connection is refused, with which code, or dropped; what is written, to whom and in which
  // order; and what of the tables and of the other connections changes. All of it on the fields of the state.

  import opened Bytes
  import opened Symbols
  import opened Messages
  import opened HostProofs
  import opened Cells
  import opened CellSafety
  import opened CellEffects
  import opened CellTheorems
  import opened CellLeaving

  // ---- One message ------------------------------------------------------------------------------

  datatype Fate = Stays | Leaves | Refuses(code: CloseCode)

  /** The MAC a dial has to carry: under the registered host's data key, over the cell, the ticket and the nonce. */
  predicate Proves(p: Params, s: Cell, ticket: Ticket, mac: Option<Mac>) {
    && ticket in s.pending && s.pending[ticket].hostId in s.hosts
    && var key := Get(s, s.hosts[s.pending[ticket].hostId]).dataKey;
       key.Some? && mac == Some(DataAuthMac(key.value, p.cellId, ticket, s.pending[ticket].nonce))
  }

  /** What becomes of an open, framed connection that says this. */
  function FateOf(p: Params, s: Cell, c: ConnId, message: OuterMessage): Fate {
    var k := Get(s, c);
    match k.role
    case Unclassified =>
      (match message
       case HostHello(_) => Stays
       case DataAuth(Controller, _, _) => if s.draining then Refuses(Drained) else Stays
       case DataAuth(Host, ticket, mac) =>
         if ticket !in s.pending then Refuses(BadTicket)
         else if Proves(p, s, ticket, mac) then Stays
         else Refuses(DataAuthFailed)
       case _ => Refuses(ProtocolError))
    case ControlPending =>
      if !message.HostProof? || k.challenge.None? || k.hostId.None? || k.hostStaticPub.None?
      then Refuses(ProtocolError)
      else if VerifyProof(p.lowOrder, k.challenge.value, k.hostId.value, k.hostStaticPub.value, message.mac)
      then Stays else Refuses(ProofFailed)
    case Control => if message.Close? then Leaves else Refuses(ProtocolError)
    case _ => Refuses(ProtocolError)
  }

  /** A first message that is refused. */
  lemma FirstRefused(p: Params, s: Cell, c: ConnId, message: OuterMessage)
    requires Tables(s) && c in s.conns && Get(s, c).role.Unclassified? && FateOf(p, s, c, message).Refuses?
    ensures Refused(s, Dispatch(p, s, c, message), c, FateOf(p, s, c, message).code)
    ensures Get(Dispatch(p, s, c, message), c).pipe.None?
  {
    var code := FateOf(p, s, c, message).code;
    assert Shape(s.conns[c]);
    if !message.DataAuth? {
      RefuseLaw(s, c, code);
      RefuseSelf(s, c, code);
    } else if message.role.Controller? {
      RoleRefused(s, c, ControllerData, code);
    } else {
      RoleRefused(s, c, HostData, code);
      DialRefused(p, s, c, message, Get(s, c).(role := HostData));
    }
  }

  /** Classified, and refused at once. */
  lemma RoleRefused(s: Cell, c: ConnId, role: Role, code: CloseCode)
    requires Tables(s) && c in s.conns && Get(s, c).role.Unclassified? && (role.ControllerData? || role.HostData?)
    ensures var t := Refuse(Put(s, c, Get(s, c).(role := role)), c, code);
            Refused(s, t, c, code) && Get(t, c).pipe.None?
  {
    var m := Get(s, c).(role := role);
    assert Shape(s.conns[c]);
    EarlyPut(s, c, m);
    PutRefuseLaw(s, c, m, code);
    RefuseSelf(Put(s, c, m), c, code);
  }

  /** A dial that does not prove the key is refused where it stands. */
  lemma DialRefused(p: Params, s: Cell, c: ConnId, message: OuterMessage, m: Conn)
    requires message.DataAuth? && message.role.Host? && Get(s, c).role.Unclassified?
             && m == Get(s, c).(role := HostData)
    requires !Proves(p, s, message.ticket, message.dialMac)
    ensures Classify(p, s, c, message)
            == Refuse(Put(s, c, m), c, if message.ticket in s.pending then DataAuthFailed else BadTicket)
  {
    AuthenticStays(p, s, Put(s, c, m), message.ticket, message.dialMac);
  }

  lemma LaterRefused(p: Params, s: Cell, c: ConnId, message: OuterMessage)
    requires Tables(s) && c in s.conns && !Get(s, c).raw && !Get(s, c).role.Unclassified?
    requires FateOf(p, s, c, message).Refuses?
    ensures Refused(s, Dispatch(p, s, c, message), c, FateOf(p, s, c, message).code)
    ensures Get(Dispatch(p, s, c, message), c).pipe.None?
  {
    assert Shape(s.conns[c]);
    if Get(s, c).role.ControlPending? {
      ProofRefused(p, s, c, message);
    } else {
      RefuseLaw(s, c, ProtocolError);
      RefuseSelf(s, c, ProtocolError);
    }
  }

  lemma ProofRefused(p: Params, s: Cell, c: ConnId, message: OuterMessage)
    requires Tables(s) && c in s.conns && Get(s, c).role.ControlPending? && FateOf(p, s, c, message).Refuses?
    ensures Refused(s, OnProof(p, s, c, message), c, FateOf(p, s, c, message).code)
    ensures Get(OnProof(p, s, c, message), c).pipe.None?
  {
    var k, code := Get(s, c).(challenge := None), FateOf(p, s, c, message).code;
    assert Shape(s.conns[c]);
    RefuseLaw(s, c, code);
    RefuseSelf(s, c, code);
    EarlyPut(s, c, k);
    PutRefuseLaw(s, c, k, code);
    RefuseSelf(Put(s, c, k), c, code);
  }

  /**
   * Which message is refused, and with which code: told it and gone from every table; or, a registered host
   * that says close, gone without a word; and in every other case the connection stays open.
   */
  lemma MessageLaw(p: Params, s: Cell, c: ConnId, message: OuterMessage, rest: seq<byte>)
    requires Tables(s) && c in s.conns && !Get(s, c).closed && !Get(s, c).raw
    ensures var t := Next(p, s, Receives(c, [message], rest, false));
            match FateOf(p, s, c, message)
            case Refuses(code) => Refused(s, t, c, code)
            case Leaves => Gone(s, t, c) && t.out == s.out
            case Stays => !Get(t, c).closed
  {
    OneMessage(p, s, c, message, rest);
    match FateOf(p, s, c, message)
    case Refuses(code) =>
      if Get(s, c).role.Unclassified? { FirstRefused(p, s, c, message); } else { LaterRefused(p, s, c, message); }
      LeaveGone(s, Dispatch(p, s, c, message), c, rest);
    case Leaves => LeavesLaw(p, s, c, message, rest);
    case Stays => StaysOpen(p, s, c, message, rest);
  }

  lemma LeavesLaw(p: Params, s: Cell, c: ConnId, message: OuterMessage, rest: seq<byte>)
    requires Tables(s) && c in s.conns && Get(s, c).role.Control? && message.Close?
    ensures var t := Leave(Dispatch(p, s, c, message), c, rest); Gone(s, t, c) && t.out == s.out
  {
    assert Shape(s.conns[c]);
    DetachLaw(s, c);
    DetachSelf(s, c);
    LeaveGone(s, Detach(s, c), c, rest);
  }

  lemma StaysOpen(p: Params, s: Cell, c: ConnId, message: OuterMessage, rest: seq<byte>)
    requires Tables(s) && c in s.conns && !Get(s, c).closed && !Get(s, c).raw && FateOf(p, s, c, message).Stays?
    ensures !Get(Next(p, s, Receives(c, [message], rest, false)), c).closed
  {
    if Splices(p, s, c, message) {
      ProvenSplices(p, s, c, message, rest);
    } else {
      OneMessage(p, s, c, message, rest);
      SaysStayOpen(p, s, c, message);
      LeaveCloses(Dispatch(p, s, c, message), c, rest);
    }
  }

  lemma LeaveCloses(s: Cell, c: ConnId, rest: seq<byte>)
    ensures Get(Leave(s, c, rest), c).closed == Get(s, c).closed
  {
  }

  lemma SaysStayOpen(p: Params, s: Cell, c: ConnId, message: OuterMessage)
    requires FateOf(p, s, c, message).Stays? && !Splices(p, s, c, message) && !Get(s, c).closed
    ensures !Get(Dispatch(p, s, c, message), c).closed
  {
    if Get(s, c).role.ControlPending? {
      RegisterTables(Put(s, c, Get(s, c).(challenge := None)), c, Get(s, c).hostId.value,
                     CellDataAuthKey(p.lowOrder, Get(s, c).challenge.value, Get(s, c).hostStaticPub.value));
    }
  }

  /**
   * A hello waits for its host's key, and a controller of a cell that takes some for its ticket; nothing else
   * changes.
   */
  lemma AskingLaw(p: Params, s: Cell, c: ConnId, message: OuterMessage, rest: seq<byte>)
    requires Tables(s) && c in s.conns && !Get(s, c).closed && Get(s, c).role.Unclassified?
    requires message.HostHello? || (message.DataAuth? && message.role.Controller? && !s.draining)
    ensures var k, t := Get(s, c), Next(p, s, Receives(c, [message], rest, false));
            && t == s.(conns := t.conns) && (forall d: ConnId | d != c :: Get(t, d) == Get(s, d))
            && Get(t, c) == if message.HostHello?
                            then k.(role := ControlPending, awaiting := Some(ForHostKey(message.hostId)), held := rest)
                            else k.(role := ControllerData, awaiting := Some(ForTicket(message.ticket)), held := rest)
  {
    assert Shape(s.conns[c]);
    OneMessage(p, s, c, message, rest);
  }

  /**
   * A proof that verifies: the connection is its host's control connection, with the key both sides derive,
   * and is told so; the host's previous control connection, if another, is closed without a word.
   */
  lemma ProofLaw(p: Params, s: Cell, c: ConnId, message: OuterMessage, rest: seq<byte>)
    requires Tables(s) && !Get(s, c).closed && Registers(p, s, c, message)
    ensures var k, t := Get(s, c), Next(p, s, Receives(c, [message], rest, false));
            var h := k.hostId.value;
            && t == s.(hosts := s.hosts[h := c], conns := t.conns, out := s.out + [Sent(c, HostRegistered(h))])
            && Get(t, c).role == Control && Get(t, c).hostId == Some(h) && Get(t, c).challenge.None?
            && Get(t, c).dataKey == CellDataAuthKey(p.lowOrder, k.challenge.value, k.hostStaticPub.value)
            && forall d: ConnId | d != c ::
                 Get(t, d) == if h in s.hosts && s.hosts[h] == d then Get(s, d).(closed := true) else Get(s, d)
  {
    var k := Get(s, c);
    assert Shape(s.conns[c]);
    OneMessage(p, s, c, message, rest);
    var m := Put(s, c, k.(challenge := None));
    var key := CellDataAuthKey(p.lowOrder, k.challenge.value, k.hostStaticPub.value);
    assert Dispatch(p, s, c, message) == Register(m, c, k.hostId.value, key);
    CellEffects.RegisterIs(m, c, k.hostId.value, key);
    SendLaw(m.(conns := Superseding(m, c, k.hostId.value, key), hosts := m.hosts[k.hostId.value := c]), c,
            HostRegistered(k.hostId.value));
  }

  /**
   * A dial that proves itself: the bridge takes the place of the pending one and its timer; besides its two
   * ends nobody is touched. What the two are told is in `ProvenSplices`.
   */
  lemma DialLaw(p: Params, s: Cell, c: ConnId, ticket: Ticket, mac: Option<Mac>, rest: seq<byte>)
    requires Tables(s) && c in s.conns && !Get(s, c).closed && Get(s, c).role.Unclassified? && Proves(p, s, ticket, mac)
    ensures Splices(p, s, c, DataAuth(Host, ticket, mac))
    ensures var t, q := Next(p, s, Receives(c, [DataAuth(Host, ticket, mac)], rest, false)), s.pending[ticket];
            && t == s.(conns := t.conns, pending := s.pending - {ticket}, timers := s.timers - {q.timer},
                       bridges := s.bridges + {Bridge(ticket, q.controller, c)}, out := t.out)
            && forall d: ConnId | d != c && d != q.controller :: Get(t, d) == Get(s, d)
  {
    var message := DataAuth(Host, ticket, mac);
    assert Shape(s.conns[c]);
    OneMessage(p, s, c, message, rest);
    DialTouches(p, s, c, message);
    LeaveTouches(Dispatch(p, s, c, message), c, rest);
  }

  lemma DialTouches(p: Params, s: Cell, c: ConnId, message: OuterMessage)
    requires Splices(p, s, c, message)
    ensures var t, q := Dispatch(p, s, c, message), s.pending[message.ticket];
            && t == s.(conns := t.conns, pending := s.pending - {message.ticket}, timers := s.timers - {q.timer},
                       bridges := s.bridges + {Bridge(message.ticket, q.controller, c)}, out := t.out)
            && forall d: ConnId | d != c && d != q.controller :: Get(t, d) == Get(s, d)
  {
    DialingIs(p, s, c, message);
    var a := s.pending[message.ticket].controller;
    var r := Ready(Put(s, c, Get(s, c).(role := HostData)), c, message.ticket);
    ReadyTouches(s, c, message.ticket);
    CellEffects.SpliceTables(r, a, c, message.ticket);
    SpliceTouches(r, a, c, message.ticket);
  }

  lemma ReadyTouches(s: Cell, c: ConnId, ticket: Ticket)
    requires ticket in s.pending
    ensures var r := Ready(Put(s, c, Get(s, c).(role := HostData)), c, ticket);
            && r == s.(conns := r.conns, pending := s.pending - {ticket},
                       timers := s.timers - {s.pending[ticket].timer})
            && forall d: ConnId | d != c :: Get(r, d) == Get(s, d)
  {
  }

  lemma SpliceTouches(s: Cell, a: ConnId, b: ConnId, ticket: Ticket)
    ensures forall d: ConnId | d != a && d != b :: Get(Splice(s, a, b, ticket), d) == Get(s, d)
  {
  }

  lemma LeaveTouches(s: Cell, c: ConnId, rest: seq<byte>)
    ensures var t := Leave(s, c, rest); t == s.(conns := t.conns, out := t.out)
    ensures forall d: ConnId | d != c :: Get(Leave(s, c, rest), d) == Get(s, d)
  {
  }

  /** A bad frame, or one over the cap, is a protocol error. */
  lemma BadFrameLaw(p: Params, s: Cell, c: ConnId, rest: seq<byte>)
    requires Tables(s) && c in s.conns && !Get(s, c).closed && !Get(s, c).raw
    ensures Refused(s, Next(p, s, Receives(c, [], rest, true)), c, ProtocolError)
  {
    assert Shape(s.conns[c]);
    RefuseLaw(s, c, ProtocolError);
    RefuseSelf(s, c, ProtocolError);
    LeaveGone(s, Refuse(s, c, ProtocolError), c, rest);
  }

  /** The messages of a chunk are handled one after another, in order, all of them unless the connection goes raw. */
  lemma {:induction false} ChunkLaw(p: Params, s: Cell, c: ConnId, a: seq<OuterMessage>, b: seq<OuterMessage>,
                                    bad: bool)
    ensures DispatchAll(p, s, c, a + b, bad) == DispatchAll(p, DispatchAll(p, s, c, a, false), c, b, bad)
    decreases |a|
  {
    if a == [] {
      assert a + b == b;
    } else if !Get(s, c).raw {
      assert (a + b)[0] == a[0] && (a + b)[1..] == a[1..] + b;
      ChunkLaw(p, Dispatch(p, s, c, a[0]), c, a[1..], b, bad);
    }
  }

  // ---- Lookups ----------------------------------------------------------------------------------

  /** A lookup's answer that finds its connection still waiting, in a cell still open. */
  predicate Awaited(s: Cell, c: ConnId) {
    !s.closed && c in s.conns && !Get(s, c).closed && Get(s, c).awaiting.Some?
  }

  /**
   * An unknown host is refused; a known one challenged, with the nonce and ephemeral drawn, and no one else
   * hears of it.
   */
  lemma FindsKeyLaw(p: Params, s: Cell, e: Event)
    requires Tables(s) && e.FindsKey? && Awaited(s, e.c) && Get(s, e.c).awaiting.value.ForHostKey?
    ensures var t, k := Next(p, s, e), Get(s, e.c);
            if e.key.None? then Refused(s, t, e.c, UnknownHost)
            else && t == s.(conns := t.conns, out := s.out + [Sent(e.c, HostChallenge(p.cellId, e.nonce, e.ephemeral))])
                 && (forall d: ConnId | d != e.c :: Get(t, d) == Get(s, d))
                 && Get(t, e.c) == k.(awaiting := None, hostId := Some(k.awaiting.value.hostId), hostStaticPub := e.key,
                                      challenge := Some(Challenge(p.cellId, e.nonce, e.ephemeral)))
  {
    var k := Get(s, e.c).(awaiting := None);
    assert Shape(s.conns[e.c]);
    if e.key.None? {
      EarlyPut(s, e.c, k);
      PutRefuseLaw(s, e.c, k, UnknownHost);
    } else {
      ChallengingIs(p, s, e);
    }
  }

  /**
   * The controller's ticket: none, expired, used, or for a host that is not here, each refused with its code
   * in this order; otherwise the host is asked to dial, and the bridge waits under a new timer.
   */
  lemma ResolvesLaw(p: Params, s: Cell, e: Event)
    requires Tables(s) && e.Resolves? && Awaited(s, e.c) && Get(s, e.c).awaiting.value.ForTicket?
    ensures var t, ticket := Next(p, s, e), Get(s, e.c).awaiting.value.ticket;
            if e.record.None? then Refused(s, t, e.c, BadTicket)
            else if e.now >= e.record.value.expiresAt then Refused(s, t, e.c, TicketExpired)
            else if ticket in s.used then Refused(s, t, e.c, TicketReused)
            else if e.record.value.hostId !in s.hosts then Refused(s, t, e.c, UnknownHost)
            else
              var log := s.used + [ticket];
              && t.out == s.out + [Sent(s.hosts[e.record.value.hostId], ConnOpen(ticket, e.bridgeNonce))]
              && t.pending
                 == s.pending[ticket := Pending(ticket, e.record.value.hostId, e.c, s.nextTimer, e.bridgeNonce)]
              && t.timers == s.timers[s.nextTimer := ticket] && t.nextTimer == s.nextTimer + 1
              && t.used == (if |log| > 1024 then log[|log| - 1024..] else log)
              && t.hosts == s.hosts && t.bridges == s.bridges
              && !Get(t, e.c).closed && forall d: ConnId | d != e.c :: Get(t, d) == Get(s, d)
  {
    if Accepting(s, e) {
      AcceptingIs(p, s, e);
      AcceptingOpen(p, s, e);
    } else {
      TicketRefused(p, s, e);
    }
  }

  lemma AcceptingOpen(p: Params, s: Cell, e: Event)
    requires Accepting(s, e)
    ensures !Get(Next(p, s, e), e.c).closed
  {
  }

  lemma TicketRefused(p: Params, s: Cell, e: Event)
    requires Tables(s) && e.Resolves? && Awaited(s, e.c) && Get(s, e.c).awaiting.value.ForTicket? && !Accepting(s, e)
    ensures Refused(s, Next(p, s, e), e.c, Refusal(s, e.record, e.now, Get(s, e.c).awaiting.value.ticket))
  {
    var k := Get(s, e.c).(awaiting := None);
    assert Shape(s.conns[e.c]);
    EarlyPut(s, e.c, k);
    PutRefuseLaw(s, e.c, k, Refusal(s, e.record, e.now, Get(s, e.c).awaiting.value.ticket));
  }

  /**
   * An answer that comes too late, for a connection or a cell that has closed, changes nothing but that it is
   * no longer awaited.
   */
  lemma LateLaw(p: Params, s: Cell, e: Event)
    requires (e.FindsKey? && Get(s, e.c).awaiting.Some? && Get(s, e.c).awaiting.value.ForHostKey?)
             || (e.Resolves? && Get(s, e.c).awaiting.Some? && Get(s, e.c).awaiting.value.ForTicket?)
    requires s.closed || Get(s, e.c).closed
    ensures Next(p, s, e) == s.(conns := s.conns[e.c := Get(s, e.c).(awaiting := None)])
  {
  }

  /** A lookup that throws. */
  lemma LookupFailsLaw(p: Params, s: Cell, c: ConnId)
    requires Tables(s) && c in s.conns && Get(s, c).awaiting.Some?
    ensures Refused(s, Next(p, s, LookupFails(c)), c, ProtocolError)
  {
    assert Shape(s.conns[c]);
    EarlyPut(s, c, Get(s, c).(awaiting := None));
    PutRefuseLaw(s, c, Get(s, c).(awaiting := None), ProtocolError);
  }

  // ---- Timers, closes and the cell itself ---------------------------------------------------------

  /**
   * A bridge timeout: the controller still waiting for the ticket is told so, closed, and waits no more; the
   * entry and the timer are gone, and nothing else changes. A timer whose ticket waits for nobody does nothing.
   */
  lemma FiresLaw(p: Params, s: Cell, timer: nat)
    requires Tables(s) && timer in s.timers
    ensures var t, ticket := Next(p, s, Fires(timer)), s.timers[timer];
            && t.timers == s.timers - {timer} && t.pending == s.pending - {ticket}
            && t == s.(timers := t.timers, pending := t.pending, conns := t.conns, out := t.out)
            && if ticket !in s.pending then t.conns == s.conns && t.out == s.out
               else var c := s.pending[ticket].controller;
                    && !Get(s, c).closed && Get(t, c).closed && t.out == s.out + [Sent(c, Close(BridgeTimeout))]
                    && forall d: ConnId | d != c :: Get(t, d) == Get(s, d)
  {
    var ticket := s.timers[timer];
    if ticket in s.pending {
      var q := s.pending[ticket];
      assert PendingOk(Get(s, q.controller), s.timers, ticket, q);
      TimeoutRefuses(s, timer, ticket);
    } else {
      assert s.pending - {ticket} == s.pending;
    }
  }

  lemma TimeoutRefuses(s: Cell, timer: nat, ticket: Ticket)
    requires Tables(s) && timer in s.timers && s.timers[timer] == ticket && ticket in s.pending
    requires !Get(s, s.pending[ticket].controller).closed
    ensures var t, c := TimerFired(s, timer), s.pending[ticket].controller;
            && t == s.(timers := s.timers - {timer}, pending := s.pending - {ticket}, conns := t.conns,
                       out := s.out + [Sent(c, Close(BridgeTimeout))])
            && Get(t, c).closed && forall d: ConnId | d != c :: Get(t, d) == Get(s, d)
  {
    var m := s.(timers := s.timers - {timer}, pending := s.pending - {ticket});
    WaitsOnce(s, ticket);
    LooseRefuse(m, s.pending[ticket].controller, BridgeTimeout);
  }

  lemma LooseRefuse(s: Cell, c: ConnId, code: CloseCode)
    requires Loose(s, c) && Get(s, c).bridge.None? && !Get(s, c).closed
    ensures Refuse(s, c, code) == s.(conns := s.conns[c := Down(Get(s, c))], out := s.out + [Sent(c, Close(code))])
  {
    LooseDetach(SendTo(s, c, Close(code)), c);
  }

  /** A waiting controller waits for one ticket, and is in no other table. */
  lemma WaitsOnce(s: Cell, ticket: Ticket)
    requires HostsOk(s) && PendingsOk(s) && BridgesOk(s) && ticket in s.pending
    ensures var c := s.pending[ticket].controller;
            Loose(s.(pending := s.pending - {ticket}), c) && Get(s, c).bridge.None?
  {
    var c, u := s.pending[ticket].controller, s.(pending := s.pending - {ticket});
    assert PendingOk(Get(s, c), s.timers, ticket, s.pending[ticket]);
    forall h | h in s.hosts ensures s.hosts[h] != c { assert HostOk(Get(s, s.hosts[h]), h); }
    forall i | i in u.pending ensures u.pending[i].controller != c {
      assert PendingOk(Get(s, s.pending[i].controller), s.timers, i, s.pending[i]);
    }
    forall b | b in s.bridges ensures b.controller != c && b.host != c {
      assert BridgeOk(Get(s, b.controller), Get(s, b.host), b);
    }
  }

  /** In no table, a connection takes nothing with it. */
  lemma LooseDetach(s: Cell, c: ConnId)
    requires Loose(s, c) && Get(s, c).bridge.None?
    ensures Detach(s, c) == s.(conns := s.conns[c := Down(Get(s, c))])
  {
    DetachIsPut(s, c);
  }

  /** A peer that closes: gone, without a word to anybody. */
  lemma PeerClosesLaw(p: Params, s: Cell, c: ConnId)
    requires Tables(s) && c in s.conns
    ensures var t := Next(p, s, PeerCloses(c)); Gone(s, t, c) && t.out == s.out
  {
    DetachLaw(s, c);
  }

  /** A new connection is open and unclassified, unless the cell has closed. */
  lemma AcceptsLaw(p: Params, s: Cell, c: ConnId)
    requires c !in s.conns
    ensures var t := Next(p, s, Accepts(c));
            && t == s.(conns := t.conns) && (forall d: ConnId | d != c :: Get(t, d) == Get(s, d))
            && (if s.closed then Get(t, c).closed
                else !Get(t, c).closed && Get(t, c).role.Unclassified? && !Get(t, c).raw && Get(t, c).held == [])
  {
  }

  function Drains(s: Cell, order: seq<HostId>): seq<Out>
    requires forall h | h in order :: h in s.hosts
  {
    seq(|order|, i requires 0 <= i < |order| => Sent(s.hosts[order[i]], Drain))
  }

  /**
   * A drain tells every registered host once, in order, and nobody else anything; the cell takes no more
   * controllers.
   */
  lemma DrainsLaw(p: Params, s: Cell, order: seq<HostId>)
    requires Tables(s) && Enumerates(order, s.hosts.Keys) && !s.closed && !s.draining
    ensures forall h | h in order :: h in s.hosts
    ensures Next(p, s, Event.Drains(order)) == s.(draining := true, out := s.out + Drains(s, order))
  {
    assert forall h | h in order :: h in (set g | g in order);
    TellsEach(s.(draining := true), order);
  }

  lemma {:induction false} TellsEach(s: Cell, order: seq<HostId>)
    requires HostsOk(s) && forall h | h in order :: h in s.hosts
    ensures SendDrains(s, order) == s.(out := s.out + Drains(s, order))
    decreases |order|
  {
    if order == [] {
      assert s.out + Drains(s, order) == s.out;
    } else {
      assert HostOk(Get(s, s.hosts[order[0]]), order[0]);
      SendLaw(s, s.hosts[order[0]], Drain);
      var m := SendTo(s, s.hosts[order[0]], Drain);
      TellsEach(m, order[1..]);
      assert Drains(s, order) == [Sent(s.hosts[order[0]], Drain)] + Drains(m, order[1..]);
      assert s.out + Drains(s, order) == m.out + Drains(m, order[1..]);
    }
  }

  /** Who is closed when the cell closes: registered hosts, waiting controllers and the ends of bridges. */
  predicate Serves(s: Cell, c: ConnId) {
    || (exists h :: h in s.hosts && s.hosts[h] == c)
    || (exists i :: i in s.pending && s.pending[i].controller == c)
    || (exists b :: b in s.bridges && (b.controller == c || b.host == c))
  }

  /** Closing the cell empties its tables and closes whom it serves, without a word; every other connection stays. */
  lemma ClosesLaw(p: Params, s: Cell)
    requires !s.closed
    ensures var t := Next(p, s, Closes);
            && t.closed && t.hosts == map[] && t.pending == map[] && t.bridges == {} && t.out == s.out
            && t.used == s.used && t.draining == s.draining
            && (forall i :: i in t.timers <==> i in s.timers && forall k | k in s.pending :: s.pending[k].timer != i)
            && (forall c: ConnId :: Get(t, c) == if Serves(s, c) then Get(s, c).(closed := true) else Get(s, c))
  {
    var ids := Waiting(s) + Bridged(s) + (set h | h in s.hosts :: s.hosts[h]);
    forall c: ConnId ensures c in ids <==> Serves(s, c) {
    }
  }
}

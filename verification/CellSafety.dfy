/**
 * What every reachable state of a cell keeps: what a connection holds in each role, that the tables of
 * hosts, pending bridges, bridges and timers agree with it and with one another, and that pipes come in
 * pairs. Each step is shown to keep it, part by part.
 */
module CellSafety {
  import opened Bytes
  import opened Symbols
  import opened Messages
  import opened HostProofs
  import opened Cells

  /** What a connection may hold in each role. */
  predicate Shape(k: Conn) {
    && (k.raw <==> k.pipe.Some?)
    && (k.bridge.Some? ==> k.raw && k.ticket == Some(k.bridge.value.ticket))
    && match k.role
       case Unclassified =>
         k.hostId.None? && k.hostStaticPub.None? && k.challenge.None? && k.dataKey.None? && k.ticket.None? && !k.raw
         && k.awaiting.None?
       case ControlPending =>
         && k.dataKey.None? && k.ticket.None? && !k.raw
         && (k.awaiting.Some? ==> k.awaiting.value.ForHostKey? && k.hostId.None? && k.challenge.None?)
         && (k.challenge.Some? ==> k.hostId.Some? && k.hostStaticPub.Some?)
       case Control => k.hostId.Some? && k.challenge.None? && k.ticket.None? && !k.raw && k.awaiting.None?
       case ControllerData =>
         && k.challenge.None? && k.dataKey.None?
         && (k.awaiting.Some? ==> k.awaiting.value.ForTicket? && k.ticket.None? && !k.raw)
       case HostData => k.challenge.None? && k.dataKey.None? && k.awaiting.None?
  }

  /** A registered host is an open control connection under its own id, with a data key. */
  predicate HostOk(k: Conn, h: HostId) {
    k.role == Control && !k.closed && k.hostId == Some(h) && k.dataKey.Some?
  }

  /** A pending bridge sits under its own ticket, with an open unbridged controller of that ticket and a live timer. */
  predicate PendingOk(k: Conn, timers: map<nat, Ticket>, t: Ticket, q: Pending) {
    && k.role == ControllerData && !k.closed && !k.raw && k.bridge.None? && k.awaiting.None?
    && k.ticket == Some(t) && k.hostId == Some(q.hostId)
    && q.ticket == t && q.timer in timers && timers[q.timer] == t
  }

  /** A bridge is linked from both its ends, which are two; its controller is open. */
  predicate BridgeOk(controller: Conn, host: Conn, b: Bridge) {
    && b.controller != b.host && !controller.closed
    && controller.role == ControllerData && controller.bridge == Some(b)
    && host.role == HostData && host.bridge == Some(b)
  }

  predicate LinkOk(bridges: set<Bridge>, c: ConnId, k: Conn) {
    k.bridge.Some? ==> k.bridge.value in bridges && (k.bridge.value.controller == c || k.bridge.value.host == c)
  }

  /** Pipes come in pairs. */
  predicate PipeOk(conns: map<ConnId, Conn>, c: ConnId, k: Conn) {
    k.pipe.Some? ==> k.pipe.value != c && At(conns, k.pipe.value).pipe == Some(c)
  }

  predicate Shapes(s: Cell) {
    forall c | c in s.conns :: Shape(s.conns[c])
  }

  predicate HostsOk(s: Cell) {
    forall h | h in s.hosts :: HostOk(Get(s, s.hosts[h]), h)
  }

  predicate PendingsOk(s: Cell) {
    forall t | t in s.pending :: PendingOk(Get(s, s.pending[t].controller), s.timers, t, s.pending[t])
  }

  predicate BridgesOk(s: Cell) {
    forall b | b in s.bridges :: BridgeOk(Get(s, b.controller), Get(s, b.host), b)
  }

  predicate PipesOk(conns: map<ConnId, Conn>) {
    forall c | c in conns :: PipeOk(conns, c, conns[c])
  }

  predicate Base(s: Cell) {
    && Shapes(s) && HostsOk(s) && PendingsOk(s) && BridgesOk(s) && PipesOk(s.conns)
    && (s.closed ==> s.pending == map[] && s.bridges == {})
    && (forall i | i in s.timers :: i < s.nextTimer)
  }

  predicate Links(s: Cell, but: set<ConnId>) {
    !s.closed ==> forall c | c in s.conns && c !in but :: LinkOk(s.bridges, c, s.conns[c])
  }

  predicate Tables(s: Cell) {
    Base(s) && Links(s, {})
  }

  /** No table mentions `c`. */
  predicate Loose(s: Cell, c: ConnId) {
    && (forall h | h in s.hosts :: s.hosts[h] != c)
    && (forall t | t in s.pending :: s.pending[t].controller != c)
    && (forall b | b in s.bridges :: b.controller != c && b.host != c)
  }

  lemma LoosePut(s: Cell, c: ConnId, k: Conn)
    requires Base(s) && Links(s, {c}) && Loose(s, c) && Shape(k) && k.bridge.None? && k.pipe == Get(s, c).pipe
    ensures Tables(Put(s, c, k))
    ensures Loose(Put(s, c, k), c)
  {
    PipesStay(s.conns, c, k);
  }

  lemma DropHostKeeps(s: Cell, c: ConnId)
    requires Tables(s)
    ensures var t := DropHost(s, c);
            Tables(t) && t == s.(hosts := t.hosts) && forall h | h in t.hosts :: t.hosts[h] != c
  {
  }

  lemma DropPendingKeeps(s: Cell, c: ConnId)
    requires Tables(s)
    ensures var t := DropPending(s, c);
            Tables(t) && t == s.(timers := t.timers, pending := t.pending) && forall i | i in t.pending ::
                  t.pending[i].controller != c
  {
  }

  /** Nothing but raw forwarding looks at pipes. */
  lemma PipesStay(conns: map<ConnId, Conn>, c: ConnId, k: Conn)
    requires PipesOk(conns) && k.pipe == At(conns, c).pipe
    ensures PipesOk(conns[c := k])
  {
    var after := conns[c := k];
    forall d | d in after ensures PipeOk(after, d, after[d]) {
      assert d in conns ==> PipeOk(conns, d, conns[d]);
    }
  }

  /** The other bridges keep their ends. */
  lemma OtherBridgesStay(s: Cell, b: Bridge, c: ConnId, k: Conn)
    requires BridgesOk(s) && b in s.bridges && (c == b.controller || c == b.host)
    ensures BridgesOk(Put(s.(bridges := s.bridges - {b}), c, k))
  {
    var t := Put(s.(bridges := s.bridges - {b}), c, k);
    assert BridgeOk(Get(s, b.controller), Get(s, b.host), b);
    forall a | a in t.bridges ensures BridgeOk(Get(t, a.controller), Get(t, a.host), a) {
      assert BridgeOk(Get(s, a.controller), Get(s, a.host), a);
    }
  }

  lemma OtherLinksStay(s: Cell, b: Bridge, c: ConnId, k: Conn, d: ConnId)
    requires Links(s, {}) && {b.controller, b.host} == {c, d} && k.bridge.None?
    ensures Links(Put(s.(bridges := s.bridges - {b}), c, k), {d})
  {
    var t := Put(s.(bridges := s.bridges - {b}), c, k);
    if !s.closed {
      forall e | e in t.conns && e != d ensures LinkOk(t.bridges, e, t.conns[e]) {
        assert e != c ==> LinkOk(s.bridges, e, s.conns[e]);
        assert e in {c, d} <==> e in {b.controller, b.host};
      }
    }
  }

  lemma ShapeStays(s: Cell, c: ConnId, k: Conn)
    requires Shapes(s) && Shape(k)
    ensures Shapes(Put(s, c, k))
  {
  }

  /** A live bridge goes with both its links; its other end is closed. */
  lemma DropBridgeKeeps(s: Cell, c: ConnId, b: Bridge)
    requires Tables(s) && Get(s, c).bridge == Some(b) && b in s.bridges
    ensures var t := DropBridge(s, c); Base(t) && Links(t, {c})
  {
    var peer := Peer(b, c);
    assert BridgeOk(Get(s, b.controller), Get(s, b.host), b);
    var k := Get(s, peer).(bridge := None, closed := true);
    assert Shape(k) by { assert Shape(s.conns[peer]); }
    ShapeStays(s, peer, k);
    PipesStay(s.conns, peer, k);
    OthersStay(s, peer, k);
    OtherBridgesStay(s, b, peer, k);
    if !s.closed {
      assert LinkOk(s.bridges, c, s.conns[c]);
      OtherLinksStay(s, b, peer, k, c);
    }
  }

  /** A bridged connection is neither registered nor pending. */
  lemma OthersStay(s: Cell, c: ConnId, k: Conn)
    requires HostsOk(s) && PendingsOk(s) && Get(s, c).bridge.Some? && !Get(s, c).role.Control?
    ensures HostsOk(Put(s, c, k)) && PendingsOk(Put(s, c, k))
  {
    forall h | h in s.hosts ensures s.hosts[h] != c {
      assert HostOk(Get(s, s.hosts[h]), h);
    }
    forall t | t in s.pending ensures s.pending[t].controller != c {
      assert PendingOk(Get(s, s.pending[t].controller), s.timers, t, s.pending[t]);
    }
  }

  lemma DropBridgeLoosens(s: Cell, c: ConnId)
    requires Tables(s)
    requires (forall h | h in s.hosts :: s.hosts[h] != c) && (forall t | t in s.pending :: s.pending[t].controller != c)
    ensures var t := DropBridge(s, c); Base(t) && Links(t, {c}) && Loose(t, c)
  {
    var t := DropBridge(s, c);
    forall b | b in t.bridges ensures b.controller != c && b.host != c {
      assert BridgeOk(Get(s, b.controller), Get(s, b.host), b);
    }
    if Get(s, c).bridge.Some? && Get(s, c).bridge.value in s.bridges {
      DropBridgeKeeps(s, c, Get(s, c).bridge.value);
    }
  }

  lemma DetachKeeps(s: Cell, c: ConnId)
    requires Tables(s)
    ensures Tables(Detach(s, c)) && Loose(Detach(s, c), c)
  {
    DropHostKeeps(s, c);
    var s1 := DropHost(s, c);
    DropPendingKeeps(s1, c);
    var s2 := DropPending(s1, c);
    DropBridgeLoosens(s2, c);
    var s3 := DropBridge(s2, c);
    var k := Get(s3, c).(bridge := None, dataKey := None, closed := true);
    DownShape(s3, c);
    LoosePut(s3, c, k);
    assert Detach(s, c) == Put(s3, c, k) by { DetachIsPut(s, c); }
  }

  lemma DownShape(s: Cell, c: ConnId)
    requires forall d | d in s.conns :: Shape(s.conns[d])
    ensures Shape(Get(s, c).(bridge := None, dataKey := None, closed := true))
  {
  }

  lemma DetachIsPut(s: Cell, c: ConnId)
    ensures var t := DropBridge(DropPending(DropHost(s, c), c), c);
            Detach(s, c) == Put(t, c, Get(t, c).(bridge := None, dataKey := None, closed := true))
  {
    var t := DropBridge(DropPending(DropHost(s, c), c), c);
    var k := Get(t, c).(bridge := None, dataKey := None);
    assert t.conns[c := k][c := k.(closed := true)] == t.conns[c := k.(closed := true)];
  }

  /** What is written does not matter to the tables. */
  lemma SendKeeps(s: Cell, c: ConnId, message: OuterMessage)
    requires Tables(s)
    ensures Tables(SendTo(s, c, message))
  {
  }

  lemma RefuseKeeps(s: Cell, c: ConnId, code: CloseCode)
    requires Tables(s)
    ensures Tables(Refuse(s, c, code))
  {
    SendKeeps(s, c, Close(code));
    DetachKeeps(SendTo(s, c, Close(code)), c);
  }

  /** Before it is accepted, registered or spliced a connection is in no table. */
  predicate Early(k: Conn) {
    match k.role
    case Unclassified => true
    case ControlPending => true
    case Control => false
    case ControllerData => k.awaiting.Some?
    case HostData => k.bridge.None?
  }

  lemma EarlyIsLoose(s: Cell, c: ConnId)
    requires Tables(s) && Early(Get(s, c))
    ensures Loose(s, c) && Get(s, c).bridge.None? && Shape(Get(s, c))
  {
    forall h | h in s.hosts ensures s.hosts[h] != c {
      assert HostOk(Get(s, s.hosts[h]), h);
    }
    forall t | t in s.pending ensures s.pending[t].controller != c {
      assert PendingOk(Get(s, s.pending[t].controller), s.timers, t, s.pending[t]);
    }
    forall b | b in s.bridges ensures b.controller != c && b.host != c {
      assert BridgeOk(Get(s, b.controller), Get(s, b.host), b);
    }
  }

  lemma EarlyPut(s: Cell, c: ConnId, k: Conn)
    requires Tables(s) && Early(Get(s, c)) && Shape(k) && k.bridge.None? && k.pipe == Get(s, c).pipe
    ensures Tables(Put(s, c, k)) && Loose(Put(s, c, k), c)
  {
    EarlyIsLoose(s, c);
    LoosePut(s, c, k);
  }

  lemma HostKeyFoundKeeps(p: Params, s: Cell, c: ConnId, key: Option<seq<byte>>, nonce: Nonce, ephemeral: PublicKey)
    requires Tables(s)
    ensures Tables(HostKeyFound(p, s, c, key, nonce, ephemeral))
  {
    var conn := Get(s, c);
    if conn.awaiting.Some? && conn.awaiting.value.ForHostKey? {
      assert Shape(conn);
      var t := Put(s, c, conn.(awaiting := None));
      EarlyPut(s, c, conn.(awaiting := None));
      if s.closed || conn.closed {
      } else if key.None? {
        RefuseKeeps(t, c, UnknownHost);
      } else {
        var k := Get(t, c).(hostId := Some(conn.awaiting.value.hostId), hostStaticPub := key,
                            challenge := Some(Challenge(p.cellId, nonce, ephemeral)));
        EarlyPut(t, c, k);
        SendKeeps(Put(t, c, k), c, HostChallenge(p.cellId, nonce, ephemeral));
      }
    }
  }

  /** A connection refused in the middle of a chunk has no challenge left to answer. */
  predicate Mid(s: Cell, c: ConnId) {
    Get(s, c).closed && Get(s, c).role.ControlPending? ==> Get(s, c).challenge.None?
  }

  lemma OnProofKeeps(p: Params, s: Cell, c: ConnId, message: OuterMessage)
    requires Tables(s) && Get(s, c).role.ControlPending? && Mid(s, c)
    ensures Tables(OnProof(p, s, c, message))
  {
    var conn := Get(s, c);
    EarlyIsLoose(s, c);
    var t := Put(s, c, conn.(challenge := None));
    EarlyPut(s, c, conn.(challenge := None));
    if !message.HostProof? {
      RefuseKeeps(t, c, ProtocolError);
    } else if conn.challenge.None? {
      RefuseKeeps(s, c, ProtocolError);
    } else if !VerifyProof(p.lowOrder, conn.challenge.value, conn.hostId.value, conn.hostStaticPub.value, message.mac) {
      RefuseKeeps(t, c, ProofFailed);
    } else {
      RegisterKeeps(t, c, conn.hostId.value,
                    CellDataAuthKey(p.lowOrder, conn.challenge.value, conn.hostStaticPub.value));
    }
  }

  lemma RegisterKeeps(s: Cell, c: ConnId, h: HostId, dataKey: Option<seq<Sym>>)
    requires Tables(s) && Loose(s, c) && Get(s, c).role.ControlPending? && !Get(s, c).closed && dataKey.Some?
    requires Get(s, c).hostId == Some(h) && Get(s, c).challenge.None? && Get(s, c).awaiting.None?
    ensures Tables(Register(s, c, h, dataKey))
  {
    var t := Supersede(s, h);
    if h in s.hosts {
      SupersededGone(s, c, h);
    }
    var k := Get(t, c).(dataKey := dataKey, role := Control);
    assert Shape(s.conns[c]);
    LoosePut(t, c, k);
    var u := Put(t, c, k);
    EnlistKeeps(u, c, h);
    var v := u.(hosts := u.hosts[h := c]);
    RegisterIs(s, c, h, dataKey);
    SendKeeps(v, c, HostRegistered(h));
  }

  lemma EnlistKeeps(s: Cell, c: ConnId, h: HostId)
    requires Tables(s) && HostOk(Get(s, c), h)
    ensures Tables(s.(hosts := s.hosts[h := c]))
  {
  }

  /** Closing the previous control connection, once it is off the host table. */
  function Supersede(s: Cell, h: HostId): Cell {
    if h in s.hosts then CloseOuter(s, s.hosts[h]).(hosts := s.hosts - {h}) else s
  }

  lemma RegisterIs(s: Cell, c: ConnId, h: HostId, dataKey: Option<seq<Sym>>)
    requires h in s.hosts ==> s.hosts[h] != c
    ensures var t := Supersede(s, h);
            var u := Put(t, c, Get(t, c).(dataKey := dataKey, role := Control));
            Register(s, c, h, dataKey) == SendTo(u.(hosts := u.hosts[h := c]), c, HostRegistered(h))
  {
    assert s.hosts[h := c] == Supersede(s, h).hosts[h := c];
  }

  /** A registered connection is in no other table, and under no other id. */
  lemma OnlyHost(s: Cell, h: HostId)
    requires HostsOk(s) && PendingsOk(s) && BridgesOk(s) && h in s.hosts
    ensures Loose(s.(hosts := s.hosts - {h}), s.hosts[h])
  {
    var d, u := s.hosts[h], s.(hosts := s.hosts - {h});
    assert HostOk(Get(s, d), h);
    forall g | g in u.hosts ensures u.hosts[g] != d { assert HostOk(Get(s, s.hosts[g]), g); }
    forall t | t in u.pending ensures u.pending[t].controller != d {
      assert PendingOk(Get(s, s.pending[t].controller), s.timers, t, s.pending[t]);
    }
    forall b | b in u.bridges ensures b.controller != d
        && b.host != d { assert BridgeOk(Get(s, b.controller), Get(s, b.host), b); }
  }

  lemma SupersededGone(s: Cell, c: ConnId, h: HostId)
    requires Tables(s) && Loose(s, c) && h in s.hosts
    ensures var t := Supersede(s, h); Tables(t) && Loose(t, c) && Get(t, c) == Get(s, c)
  {
    var d := s.hosts[h];
    var u := s.(hosts := s.hosts - {h});
    OnlyHost(s, h);
    assert HostOk(Get(s, d), h) && Shape(s.conns[d]);
    LoosePut(u, d, Get(u, d).(closed := true));
  }

  lemma TicketResolvedKeeps(s: Cell, c: ConnId, record: Option<TicketRecord>, now: int, nonce: Nonce)
    requires Tables(s)
    ensures Tables(TicketResolved(s, c, record, now, nonce))
  {
    var conn := Get(s, c);
    if conn.awaiting.Some? && conn.awaiting.value.ForTicket? {
      assert Shape(conn);
      var t := Put(s, c, conn.(awaiting := None));
      EarlyPut(s, c, conn.(awaiting := None));
      if s.closed || conn.closed {
      } else if record.None? {
        RefuseKeeps(t, c, BadTicket);
      } else if now >= record.value.expiresAt {
        RefuseKeeps(t, c, TicketExpired);
      } else if conn.awaiting.value.ticket in s.used {
        RefuseKeeps(t, c, TicketReused);
      } else if record.value.hostId !in s.hosts {
        RefuseKeeps(t, c, UnknownHost);
      } else {
        OpenKeeps(t, c, conn.awaiting.value.ticket, record.value.hostId, nonce);
      }
    }
  }

  lemma OpenKeeps(s: Cell, c: ConnId, ticket: Ticket, hostId: HostId, nonce: Nonce)
    requires Tables(s) && Loose(s, c) && hostId in s.hosts && !s.closed
    requires Get(s, c).role.ControllerData? && !Get(s, c).closed && !Get(s, c).raw && Get(s, c).bridge.None?
             && Get(s, c).awaiting.None?
    ensures Tables(Open(s, c, ticket, hostId, nonce))
  {
    var k := Get(s, c).(ticket := Some(ticket), hostId := Some(hostId));
    assert Shape(s.conns[c]);
    LoosePut(s, c, k);
    var t := Put(s, c, k);
    PendKeeps(t, c, ticket, hostId, nonce);
    var u := t.(used := Newest(t.used + [ticket]), timers := t.timers[t.nextTimer := ticket],
                nextTimer := t.nextTimer + 1,
                pending := t.pending[ticket := Pending(ticket, hostId, c, t.nextTimer, nonce)]);
    SendKeeps(u, s.hosts[hostId], ConnOpen(ticket, nonce));
  }

  lemma PendKeeps(s: Cell, c: ConnId, ticket: Ticket, hostId: HostId, nonce: Nonce)
    requires Tables(s) && !s.closed && Get(s, c).role.ControllerData? && !Get(s, c).closed && !Get(s, c).raw
    requires Get(s, c).bridge.None? && Get(s, c).awaiting.None? && Get(s, c).ticket == Some(ticket)
             && Get(s, c).hostId == Some(hostId)
    ensures Tables(s.(used := Newest(s.used + [ticket]), timers := s.timers[s.nextTimer := ticket],
                      nextTimer := s.nextTimer + 1,
                      pending := s.pending[ticket := Pending(ticket, hostId, c, s.nextTimer, nonce)]))
  {
  }

  lemma TimerFiredKeeps(s: Cell, timer: nat)
    requires Tables(s)
    ensures Tables(TimerFired(s, timer))
  {
    if timer in s.timers {
      var ticket := s.timers[timer];
      var t := s.(timers := s.timers - {timer}, pending := s.pending - {ticket});
      assert Tables(t) by {
        forall i | i in t.pending ensures PendingOk(Get(t, t.pending[i].controller), t.timers, i, t.pending[i]) {
          assert PendingOk(Get(s, s.pending[i].controller), s.timers, i, s.pending[i]);
        }
      }
      if ticket in s.pending {
        RefuseKeeps(t, s.pending[ticket].controller, BridgeTimeout);
      } else {
        assert t.pending == s.pending;
      }
    }
  }

  /** A pending bridge leaves its table: its controller is in no other. */
  lemma TakePending(s: Cell, ticket: Ticket)
    requires Tables(s) && ticket in s.pending
    ensures var t := s.(timers := s.timers - {s.pending[ticket].timer}, pending := s.pending - {ticket});
            Tables(t) && Loose(t, s.pending[ticket].controller)
  {
    var q := s.pending[ticket];
    var t := s.(timers := s.timers - {q.timer}, pending := s.pending - {ticket});
    assert PendingOk(Get(s, q.controller), s.timers, ticket, q);
    forall i | i in t.pending ensures PendingOk(Get(t, t.pending[i].controller), t.timers, i, t.pending[i])
        && t.pending[i].controller != q.controller {
      assert PendingOk(Get(s, s.pending[i].controller), s.timers, i, s.pending[i]);
    }
    forall b | b in t.bridges ensures b.controller != q.controller && b.host != q.controller {
      assert BridgeOk(Get(s, b.controller), Get(s, b.host), b);
    }
    forall h | h in t.hosts ensures t.hosts[h] != q.controller {
      assert HostOk(Get(s, s.hosts[h]), h);
    }
  }

  /** A connection that has just dialed as a host. */
  predicate Dialed(k: Conn) {
    k.role.HostData? && k.bridge.None? && !k.raw && k.challenge.None? && k.dataKey.None? && k.awaiting.None?
  }

  /** The state in which a proven dial is spliced. */
  function Ready(s: Cell, c: ConnId, ticket: Ticket): Cell
    requires ticket in s.pending
  {
    var q := s.pending[ticket];
    Put(s.(timers := s.timers - {q.timer}, pending := s.pending - {ticket}), c,
        Get(s, c).(ticket := Some(ticket), hostId := Some(q.hostId)))
  }

  lemma DialIs(p: Params, s: Cell, c: ConnId, ticket: Ticket, mac: Option<Mac>)
    requires Authentic(p, s, ticket, mac)
    ensures CompleteHostDial(p, s, c, ticket, mac)
            == Splice(Ready(s, c, ticket), s.pending[ticket].controller, c, ticket)
  {
  }

  lemma CompleteHostDialKeeps(p: Params, s: Cell, c: ConnId, ticket: Ticket, mac: Option<Mac>)
    requires Tables(s) && Loose(s, c) && Dialed(Get(s, c))
    ensures Tables(CompleteHostDial(p, s, c, ticket, mac))
  {
    if ticket !in s.pending {
      RefuseKeeps(s, c, BadTicket);
    } else if !Authentic(p, s, ticket, mac) {
      RefuseKeeps(s, c, DataAuthFailed);
    } else {
      DialIs(p, s, c, ticket, mac);
      ReadyKeeps(s, c, ticket);
      SpliceKeeps(Ready(s, c, ticket), s.pending[ticket].controller, c, ticket);
    }
  }

  /** The controller leaves its table, and the dialing connection is in none. */
  lemma ReadyKeeps(s: Cell, c: ConnId, ticket: Ticket)
    requires Tables(s) && Loose(s, c) && Dialed(Get(s, c)) && ticket in s.pending
    ensures var r, a := Ready(s, c, ticket), s.pending[ticket].controller;
            Tables(r) && !r.closed && Loose(r, a) && Loose(r, c) && a != c && Awaiting(Get(r, a), ticket)
            && Dialed(Get(r, c)) && Get(r, c).ticket == Some(ticket)
  {
    var q := s.pending[ticket];
    var t, k := s.(timers := s.timers - {q.timer}, pending := s.pending - {ticket}),
        Get(s, c).(ticket := Some(ticket), hostId := Some(q.hostId));
    assert PendingOk(Get(s, q.controller), s.timers, ticket, q);
    TakePending(s, ticket);
    DialedShape(s, c, k);
    LoosePut(t, c, k);
  }

  lemma DialedShape(s: Cell, c: ConnId, k: Conn)
    requires Shapes(s) && Dialed(Get(s, c)) && k == Get(s, c).(ticket := k.ticket, hostId := k.hostId)
    ensures Shape(k)
  {
    if c in s.conns { assert Shape(s.conns[c]); }
  }

  /** An open controller connection whose bridge is to come up. */
  predicate Awaiting(k: Conn, ticket: Ticket) {
    k.role.ControllerData? && !k.closed && !k.raw && k.ticket == Some(ticket) && k.awaiting.None?
  }

  /** Both ends linked and piped to each other. */
  function Joined(s: Cell, a: ConnId, b: ConnId, ticket: Ticket): Cell {
    var bridge := Bridge(ticket, a, b);
    var ka := Get(s, a).(bridge := Some(bridge), pipe := Some(b), raw := true, held := []);
    var kb := Get(s, b).(bridge := Some(bridge), pipe := Some(a), raw := true);
    s.(bridges := s.bridges + {bridge}, conns := s.conns[a := ka][b := kb])
  }

  lemma SpliceKeeps(s: Cell, a: ConnId, b: ConnId, ticket: Ticket)
    requires Tables(s) && !s.closed && Loose(s, a) && Loose(s, b) && a != b
    requires Awaiting(Get(s, a), ticket) && Dialed(Get(s, b)) && Get(s, b).ticket == Some(ticket)
    ensures Tables(Splice(s, a, b, ticket))
  {
    var u := Joined(s, a, b, ticket);
    JoinedKeeps(s, a, b, ticket);
    SendKeeps(u, a, DataReady);
    SendKeeps(SendTo(u, a, DataReady), b, DataReady);
    PourKeeps(SendTo(SendTo(u, a, DataReady), b, DataReady), a, b, Get(s, a).held);
  }

  lemma PourKeeps(s: Cell, from: ConnId, to: ConnId, bytes: seq<byte>)
    requires Tables(s)
    ensures Tables(Pour(s, from, to, bytes)) && Tables(PourHeld(s, from, to, bytes))
  {
  }

  /** What a reader holds does not matter to the tables. */
  lemma LeaveKeeps(s: Cell, c: ConnId, rest: seq<byte>)
    requires Tables(s)
    ensures Tables(Leave(s, c, rest))
  {
    var k := Get(s, c);
    if k.pipe.Some? {
      PourKeeps(s, c, k.pipe.value, rest);
    } else {
      PipesStay(s.conns, c, k.(held := rest));
      HoldKeeps(s, c, rest);
    }
  }

  lemma HoldKeeps(s: Cell, c: ConnId, rest: seq<byte>)
    requires Tables(s) && PipesOk(s.conns[c := Get(s, c).(held := rest)])
    ensures Tables(Put(s, c, Get(s, c).(held := rest)))
  {
    var t := Put(s, c, Get(s, c).(held := rest));
    assert Shape(Get(s, c)) by { if c in s.conns { assert Shape(s.conns[c]); } }
    forall b | b in t.bridges ensures BridgeOk(Get(t, b.controller), Get(t, b.host), b) {
      assert BridgeOk(Get(s, b.controller), Get(s, b.host), b);
    }
    forall d | d in t.conns && !s.closed ensures LinkOk(t.bridges, d, t.conns[d]) {
      assert d in s.conns ==> LinkOk(s.bridges, d, s.conns[d]);
    }
  }

  lemma JoinedKeeps(s: Cell, a: ConnId, b: ConnId, ticket: Ticket)
    requires Tables(s) && !s.closed && Loose(s, a) && Loose(s, b) && a != b
    requires Awaiting(Get(s, a), ticket) && Dialed(Get(s, b)) && Get(s, b).ticket == Some(ticket)
    ensures Tables(Joined(s, a, b, ticket))
  {
    var u := Joined(s, a, b, ticket);
    assert Shape(s.conns[a]) && Shape(s.conns[b]);
    JoinedPipes(s, a, b, ticket);
    JoinedTables(s, a, b, ticket);
    forall c | c in u.conns ensures LinkOk(u.bridges, c, u.conns[c]) {
      assert c in s.conns ==> LinkOk(s.bridges, c, s.conns[c]);
    }
  }

  /** No host or pending bridge is about either, and no other bridge. */
  lemma JoinedTables(s: Cell, a: ConnId, b: ConnId, ticket: Ticket)
    requires HostsOk(s) && PendingsOk(s) && BridgesOk(s) && Loose(s, a) && Loose(s, b) && a != b
    requires Awaiting(Get(s, a), ticket) && Dialed(Get(s, b))
    ensures var u := Joined(s, a, b, ticket); HostsOk(u) && PendingsOk(u) && BridgesOk(u)
  {
    var u := Joined(s, a, b, ticket);
    forall x | x in u.bridges ensures BridgeOk(Get(u, x.controller), Get(u, x.host), x) {
      assert x in s.bridges ==> BridgeOk(Get(s, x.controller), Get(s, x.host), x);
    }
  }

  lemma JoinedPipes(s: Cell, a: ConnId, b: ConnId, ticket: Ticket)
    requires PipesOk(s.conns) && a != b && Get(s, a).pipe.None? && Get(s, b).pipe.None?
    ensures PipesOk(Joined(s, a, b, ticket).conns)
  {
    var after := Joined(s, a, b, ticket).conns;
    forall d | d in after ensures PipeOk(after, d, after[d]) {
      assert d in s.conns ==> PipeOk(s.conns, d, s.conns[d]);
    }
  }

  // ---- Whole steps ------------------------------------------------------------------------------

  lemma ClassifyKeeps(p: Params, s: Cell, c: ConnId, message: OuterMessage)
    requires Tables(s) && Get(s, c).role.Unclassified?
    ensures Tables(Classify(p, s, c, message))
  {
    var conn := Get(s, c);
    EarlyIsLoose(s, c);
    if message.HostHello? {
      EarlyPut(s, c, conn.(role := ControlPending, awaiting := Some(ForHostKey(message.hostId))));
    } else if !message.DataAuth? {
      RefuseKeeps(s, c, ProtocolError);
    } else if message.role.Controller? {
      ControllerKeeps(p, s, c, message);
    } else {
      EarlyPut(s, c, conn.(role := HostData));
      CompleteHostDialKeeps(p, Put(s, c, conn.(role := HostData)), c, message.ticket, message.dialMac);
    }
  }

  lemma ControllerKeeps(p: Params, s: Cell, c: ConnId, message: OuterMessage)
    requires Tables(s) && Get(s, c).role.Unclassified? && message.DataAuth? && message.role.Controller?
    ensures Tables(Classify(p, s, c, message))
  {
    var conn := Get(s, c);
    EarlyIsLoose(s, c);
    EarlyPut(s, c, conn.(role := ControllerData));
    EarlyPut(s, c, conn.(role := ControllerData, awaiting := Some(ForTicket(message.ticket))));
    RefuseKeeps(Put(s, c, conn.(role := ControllerData)), c, Drained);
  }

  /** What teardown does to the connection itself. */
  function Down(k: Conn): Conn {
    k.(bridge := None, dataKey := None, closed := true)
  }

  lemma DetachSelf(s: Cell, c: ConnId)
    ensures Get(Detach(s, c), c) == Down(Get(s, c))
  {
    DetachIsPut(s, c);
    var s2 := DropPending(DropHost(s, c), c);
    assert s2.conns == s.conns;
    assert Down(Get(DropBridge(s2, c), c)) == Down(Get(s2, c));
  }

  lemma RefuseSelf(s: Cell, c: ConnId, code: CloseCode)
    ensures Get(Refuse(s, c, code), c) == Down(Get(s, c))
  {
    DetachSelf(SendTo(s, c, Close(code)), c);
  }

  lemma ClassifyMid(p: Params, s: Cell, c: ConnId, message: OuterMessage)
    requires Get(s, c).role.Unclassified? && Shape(Get(s, c))
    ensures Mid(Classify(p, s, c, message), c)
  {
    if message.DataAuth? {
      DataAuthMid(p, s, c, message);
    } else {
      RefuseSelf(s, c, ProtocolError);
    }
  }

  lemma DataAuthMid(p: Params, s: Cell, c: ConnId, message: OuterMessage)
    requires message.DataAuth?
    ensures !Get(Classify(p, s, c, message), c).role.ControlPending?
  {
    if message.role.Controller? {
      ControllerRole(p, s, c, message.ticket, message.dialMac);
    } else {
      DialRole(p, Put(s, c, Get(s, c).(role := HostData)), c, message.ticket, message.dialMac);
    }
  }

  lemma ControllerRole(p: Params, s: Cell, c: ConnId, ticket: Ticket, mac: Option<Mac>)
    ensures Get(Classify(p, s, c, DataAuth(Controller, ticket, mac)), c).role.ControllerData?
  {
    var t := Put(s, c, Get(s, c).(role := ControllerData));
    RefuseSelf(t, c, Drained);
    assert Get(Refuse(t, c, Drained), c).role == Get(t, c).role;
  }

  lemma DialRole(p: Params, s: Cell, c: ConnId, ticket: Ticket, mac: Option<Mac>)
    requires Get(s, c).role.HostData?
    ensures Get(CompleteHostDial(p, s, c, ticket, mac), c).role.HostData?
  {
    if ticket !in s.pending {
      RefuseSelf(s, c, BadTicket);
    } else if !Authentic(p, s, ticket, mac) {
      RefuseSelf(s, c, DataAuthFailed);
    } else {
      DialIs(p, s, c, ticket, mac);
      SpliceSelf(Ready(s, c, ticket), s.pending[ticket].controller, c, ticket);
    }
  }

  lemma SpliceSelf(s: Cell, a: ConnId, b: ConnId, ticket: Ticket)
    ensures Get(Splice(s, a, b, ticket), b).role == Get(s, b).role
  {
  }

  lemma OnProofMid(p: Params, s: Cell, c: ConnId, message: OuterMessage)
    requires Get(s, c).role.ControlPending? && Shape(Get(s, c))
    ensures Mid(OnProof(p, s, c, message), c)
  {
    var t := Put(s, c, Get(s, c).(challenge := None));
    RefuseSelf(t, c, ProtocolError);
    RefuseSelf(t, c, ProofFailed);
    RefuseSelf(s, c, ProtocolError);
  }

  lemma DispatchKeeps(p: Params, s: Cell, c: ConnId, message: OuterMessage)
    requires Tables(s) && Mid(s, c)
    ensures Tables(Dispatch(p, s, c, message)) && Mid(Dispatch(p, s, c, message), c)
  {
    match Get(s, c).role
    case Unclassified =>
      ClassifyKeeps(p, s, c, message);
      EarlyIsLoose(s, c);
      ClassifyMid(p, s, c, message);
    case ControlPending =>
      OnProofKeeps(p, s, c, message);
      EarlyIsLoose(s, c);
      OnProofMid(p, s, c, message);
    case _ =>
      DetachKeeps(s, c);
      DetachSelf(s, c);
      RefuseKeeps(s, c, ProtocolError);
      RefuseSelf(s, c, ProtocolError);
  }

  lemma {:induction false} DispatchAllKeeps(p: Params, s: Cell, c: ConnId, messages: seq<OuterMessage>, bad: bool)
    requires Tables(s) && Mid(s, c)
    ensures Tables(DispatchAll(p, s, c, messages, bad))
    decreases |messages|
  {
    if !Get(s, c).raw {
      if messages == [] {
        RefuseKeeps(s, c, ProtocolError);
      } else {
        DispatchKeeps(p, s, c, messages[0]);
        DispatchAllKeeps(p, Dispatch(p, s, c, messages[0]), c, messages[1..], bad);
      }
    }
  }

  lemma LookupFailedKeeps(s: Cell, c: ConnId)
    requires Tables(s)
    ensures Tables(LookupFailed(s, c))
  {
    if Get(s, c).awaiting.Some? {
      assert Shape(s.conns[c]);
      EarlyPut(s, c, Get(s, c).(awaiting := None));
      RefuseKeeps(Put(s, c, Get(s, c).(awaiting := None)), c, ProtocolError);
    }
  }

  lemma CloseCellKeeps(s: Cell)
    requires Tables(s)
    ensures Tables(CloseCell(s))
  {
    if !s.closed {
      var t := CloseCell(s);
      forall c | c in t.conns ensures PipeOk(t.conns, c, t.conns[c]) && Shape(t.conns[c]) {
        assert c in s.conns ==> PipeOk(s.conns, c, s.conns[c]) && Shape(s.conns[c]);
      }
    }
  }

  lemma {:induction false} SendDrainsKeeps(s: Cell, order: seq<HostId>)
    requires Tables(s) && forall h | h in order :: h in s.hosts
    ensures SendDrains(s, order) == s.(out := SendDrains(s, order).out)
    ensures Tables(SendDrains(s, order))
    decreases |order|
  {
    if order != [] {
      var t := SendTo(s, s.hosts[order[0]], Drain);
      SendKeeps(s, s.hosts[order[0]], Drain);
      SendDrainsKeeps(t, order[1..]);
    }
  }

  lemma AcceptKeeps(s: Cell, c: ConnId)
    requires Tables(s)
    ensures Tables(Accept(s, c))
  {
    if !s.closed && c !in s.conns {
      EarlyIsLoose(s, c);
      LoosePut(s, c, NewConn());
    }
  }

  lemma RawBytesKeeps(s: Cell, c: ConnId, bytes: seq<byte>)
    requires Tables(s)
    ensures Tables(RawBytes(s, c, bytes))
  {
  }

  /** Every step keeps the tables consistent. */
  lemma NextKeeps(p: Params, s: Cell, e: Event)
    requires Tables(s)
    ensures Tables(Next(p, s, e))
  {
    match e
    case Accepts(c) => AcceptKeeps(s, c);
    case Receives(c, messages, rest, bad) =>
      if !Get(s, c).closed {
        DispatchAllKeeps(p, s, c, messages, bad);
        LeaveKeeps(DispatchAll(p, s, c, messages, bad), c, rest);
      }
    case Pipes(c, bytes) => RawBytesKeeps(s, c, bytes);
    case FindsKey(c, key, nonce, ephemeral) => HostKeyFoundKeeps(p, s, c, key, nonce, ephemeral);
    case Resolves(c, record, now, nonce) => TicketResolvedKeeps(s, c, record, now, nonce);
    case LookupFails(c) => LookupFailedKeeps(s, c);
    case Fires(timer) => TimerFiredKeeps(s, timer);
    case PeerCloses(c) => DetachKeeps(s, c);
    case Drains(order) =>
      if Enumerates(order, s.hosts.Keys) && !s.closed && !s.draining { SendDrainsKeeps(s.(draining := true), order); }
    case Closes => CloseCellKeeps(s);
  }
}

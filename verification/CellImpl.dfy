/**
 * The cell as the class it is (packages/relay-core/src/cell.ts): its tables are fields that its
 * handlers update step by step, and each method is shown to move the state as the state machine says,
 * however the tables are walked.
 */
module CellImpls {
  import opened Bytes
  import opened Symbols
  import opened Messages
  import opened HostProofs
  import opened Cells

  class CellImpl {
    const params: Params
    var conns: map<ConnId, Conn>
    var hosts: map<HostId, ConnId>
    var pending: map<Ticket, Pending>
    var bridges: set<Bridge>
    var usedTickets: seq<Ticket>
    var timers: map<nat, Ticket>
    var nextTimer: nat
    var draining: bool
    var closed: bool
    var out: seq<Out>

    ghost function State(): Cell
      reads this
    {
      Cell(conns, hosts, pending, bridges, usedTickets, timers, nextTimer, draining, closed, out)
    }

    constructor (params: Params)
      ensures this.params == params && State() == NewCell()
    {
      this.params := params;
      conns, hosts, pending, bridges := map[], map[], map[], {};
      usedTickets, timers, nextTimer := [], map[], 0;
      draining, closed, out := false, false, [];
    }

    function Conn(c: ConnId): (k: Cells.Conn)
      reads this
      ensures k == Get(State(), c)
    {
      At(conns, c)
    }

    method Send(c: ConnId, message: OuterMessage)
      modifies this`out
      ensures State() == SendTo(old(State()), c, message)
    {
      if !Conn(c).closed {
        out := out + [Sent(c, message)];
      }
    }

    method CloseConnection(c: ConnId)
      modifies this`conns
      ensures State() == CloseOuter(old(State()), c)
    {
      conns := conns[c := Conn(c).(closed := true)];
    }

    /** `setTimeout` for a bridge timeout. */
    method SetTimeout(ticket: Ticket) returns (timer: nat)
      modifies this`timers, this`nextTimer
      ensures timer == old(nextTimer) && nextTimer == timer + 1 && timers == old(timers)[timer := ticket]
    {
      timer := nextTimer;
      timers := timers[timer := ticket];
      nextTimer := nextTimer + 1;
    }

    method ClearTimeout(timer: nat)
      modifies this`timers
      ensures timers == old(timers) - {timer}
    {
      timers := timers - {timer};
    }

    method CleanUp(c: ConnId)
      modifies this
      ensures State() == Cleanup(old(State()), c)
    {
      var conn := Conn(c);
      if conn.hostId.Some? && conn.hostId.value in hosts && hosts[conn.hostId.value] == c {
        hosts := hosts - {conn.hostId.value};
      }
      assert State() == DropHost(old(State()), c);
      if conn.ticket.Some? && conn.ticket.value in pending {
        var entry := pending[conn.ticket.value];
        if entry.controller == c {
          ClearTimeout(entry.timer);
          pending := pending - {conn.ticket.value};
        }
      }
      ghost var s2 := State();
      assert s2 == DropPending(DropHost(old(State()), c), c);
      if conn.bridge.Some? && conn.bridge.value in bridges {
        var bridge := conn.bridge.value;
        bridges := bridges - {bridge};
        var peer := if bridge.controller == c then bridge.host else bridge.controller;
        conns := conns[peer := Conn(peer).(bridge := None, closed := true)];
      }
      assert State() == DropBridge(s2, c);
      conns := conns[c := Conn(c).(bridge := None, dataKey := None)];
    }

    method DetachConn(c: ConnId)
      modifies this
      ensures State() == Detach(old(State()), c)
    {
      CleanUp(c);
      CloseConnection(c);
    }

    method RefuseConn(c: ConnId, code: CloseCode)
      modifies this
      ensures State() == Refuse(old(State()), c, code)
    {
      Send(c, Close(code));
      CleanUp(c);
      CloseConnection(c);
    }

    method Fail(c: ConnId)
      modifies this
      ensures State() == Refuse(old(State()), c, ProtocolError)
    {
      RefuseConn(c, ProtocolError);
    }

    /** `beginRegistration` after its lookup. */
    method OnHostKey(c: ConnId, key: Option<seq<byte>>, nonce: Nonce, ephemeral: PublicKey)
      modifies this
      ensures State() == HostKeyFound(params, old(State()), c, key, nonce, ephemeral)
    {
      var conn := Conn(c);
      if conn.awaiting.None? || !conn.awaiting.value.ForHostKey? {
        return;
      }
      conns := conns[c := conn.(awaiting := None)];
      if closed || conn.closed {
        return;
      }
      if key.None? {
        RefuseConn(c, UnknownHost);
        return;
      }
      var challenge := Challenge(params.cellId, nonce, ephemeral);
      conns := conns[c := Conn(c).(hostId := Some(conn.awaiting.value.hostId), hostStaticPub := key,
                                   challenge := Some(challenge))];
      Send(c, HostChallenge(params.cellId, nonce, ephemeral));
    }

    method DropChallenge(c: ConnId)
      modifies this`conns
      ensures State() == Put(old(State()), c, Get(old(State()), c).(challenge := None))
    {
      conns := conns[c := Conn(c).(challenge := None)];
    }

    method HandleProof(c: ConnId, message: OuterMessage)
      modifies this
      ensures State() == OnProof(params, old(State()), c, message)
    {
      if !message.HostProof? {
        DropChallenge(c);
        RefuseConn(c, ProtocolError);
        return;
      }
      var conn := Conn(c);
      if conn.challenge.None? || conn.hostId.None? || conn.hostStaticPub.None? {
        RefuseConn(c, ProtocolError);
        return;
      }
      var challenge, hostId := conn.challenge.value, conn.hostId.value;
      var verified := VerifyProof(params.lowOrder, challenge, hostId, conn.hostStaticPub.value, message.mac);
      var dataKey := if verified then CellDataAuthKey(params.lowOrder, challenge, conn.hostStaticPub.value) else None;
      DropChallenge(c);
      if !verified || dataKey.None? {
        RefuseConn(c, ProofFailed);
        return;
      }
      RegisterHost(c, hostId, dataKey);
    }

    method RegisterHost(c: ConnId, hostId: HostId, dataKey: Option<seq<Sym>>)
      modifies this
      ensures State() == Register(old(State()), c, hostId, dataKey)
    {
      if hostId in hosts && hosts[hostId] != c {
        CloseConnection(hosts[hostId]);
      }
      Enlist(c, hostId, dataKey);
      Send(c, HostRegistered(hostId));
    }

    method Enlist(c: ConnId, hostId: HostId, dataKey: Option<seq<Sym>>)
      modifies this`conns, this`hosts
      ensures conns == old(conns)[c := At(old(conns), c).(dataKey := dataKey, role := Control)]
              && hosts == old(hosts)[hostId := c]
    {
      conns := conns[c := Conn(c).(dataKey := dataKey)];
      hosts := hosts[hostId := c];
      conns := conns[c := Conn(c).(role := Control)];
    }

    /** `beginControllerBridge` after its lookup. */
    method OnTicket(c: ConnId, record: Option<TicketRecord>, now: int, nonce: Nonce)
      modifies this
      ensures State() == TicketResolved(old(State()), c, record, now, nonce)
    {
      var conn := Conn(c);
      if conn.awaiting.None? || !conn.awaiting.value.ForTicket? {
        return;
      }
      var ticket := conn.awaiting.value.ticket;
      conns := conns[c := conn.(awaiting := None)];
      if closed || conn.closed {
        return;
      }
      if record.None? {
        RefuseConn(c, BadTicket);
      } else if now >= record.value.expiresAt {
        RefuseConn(c, TicketExpired);
      } else if ticket in usedTickets {
        RefuseConn(c, TicketReused);
      } else if record.value.hostId !in hosts {
        RefuseConn(c, UnknownHost);
      } else {
        OpenBridge(c, ticket, record.value.hostId, nonce);
      }
    }

    method OpenBridge(c: ConnId, ticket: Ticket, hostId: HostId, nonce: Nonce)
      requires hostId in hosts && ticket !in usedTickets
      modifies this
      ensures State() == Open(old(State()), c, ticket, hostId, nonce)
    {
      var control := hosts[hostId];
      MarkTicketUsed(ticket);
      conns := conns[c := Conn(c).(ticket := Some(ticket), hostId := Some(hostId))];
      var timer := SetTimeout(ticket);
      pending := pending[ticket := Pending(ticket, hostId, c, timer, nonce)];
      Send(control, ConnOpen(ticket, nonce));
    }

    /** Add to the used tickets, and evict the oldest while there are too many. */
    method MarkTicketUsed(ticket: Ticket)
      modifies this`usedTickets
      ensures usedTickets == Newest(if ticket in old(usedTickets)
                                    then old(usedTickets) else old(usedTickets) + [ticket])
    {
      if ticket !in usedTickets {
        usedTickets := usedTickets + [ticket];
      }
      ghost var all := usedTickets;
      while |usedTickets| > MAX_USED_TICKETS
        invariant |usedTickets| <= |all| && usedTickets == all[|all| - |usedTickets|..]
        invariant |usedTickets| >= MAX_USED_TICKETS || usedTickets == all
      {
        usedTickets := usedTickets[1..];
      }
    }

    /** A timer's callback. */
    method OnBridgeTimeout(timer: nat)
      modifies this
      ensures State() == TimerFired(old(State()), timer)
    {
      if timer !in timers {
        return;
      }
      var ticket := timers[timer];
      timers := timers - {timer};
      if ticket !in pending {
        return;
      }
      var controller := pending[ticket].controller;
      pending := pending - {ticket};
      RefuseConn(controller, BridgeTimeout);
    }

    method ProvesDataKey(entry: Pending, ticket: Ticket, mac: Option<Mac>) returns (ok: bool)
      requires ticket in pending && entry == pending[ticket]
      ensures ok == Authentic(params, State(), ticket, mac)
    {
      if entry.hostId !in hosts {
        return false;
      }
      var control := Conn(hosts[entry.hostId]);
      return control.dataKey.Some? && mac.Some?
          && VerifyDataAuthMac(control.dataKey.value, params.cellId, ticket, entry.nonce, mac.value);
    }

    method HostDial(c: ConnId, ticket: Ticket, mac: Option<Mac>)
      modifies this
      ensures State() == CompleteHostDial(params, old(State()), c, ticket, mac)
    {
      if ticket !in pending {
        RefuseConn(c, BadTicket);
        return;
      }
      var entry := pending[ticket];
      var ok := ProvesDataKey(entry, ticket, mac);
      if !ok {
        RefuseConn(c, DataAuthFailed);
        return;
      }
      TakeBridge(c, entry, ticket);
      SpliceConns(entry.controller, c, ticket);
    }

    /** The pending bridge is settled, and the dialing connection takes it over. */
    method TakeBridge(c: ConnId, entry: Pending, ticket: Ticket)
      modifies this`timers, this`pending, this`conns
      ensures timers == old(timers) - {entry.timer} && pending == old(pending) - {ticket}
      ensures conns == old(conns)[c := At(old(conns), c).(ticket := Some(ticket), hostId := Some(entry.hostId))]
    {
      ClearTimeout(entry.timer);
      pending := pending - {ticket};
      conns := conns[c := Conn(c).(ticket := Some(ticket), hostId := Some(entry.hostId))];
    }

    method SpliceConns(controller: ConnId, host: ConnId, ticket: Ticket)
      modifies this
      ensures State() == Splice(old(State()), controller, host, ticket)
    {
      var bridge, held := Bridge(ticket, controller, host), Conn(controller).held;
      bridges := bridges + {bridge};
      conns := conns[controller := Conn(controller).(bridge := Some(bridge), pipe := Some(host), raw := true,
                                                     held := [])];
      conns := conns[host := Conn(host).(bridge := Some(bridge), pipe := Some(controller), raw := true)];
      Send(controller, DataReady);
      Send(host, DataReady);
      if |held| > 0 {
        SendRaw(controller, host, held);
      }
    }

    /** `sendRaw` on the other end of a pipe. */
    method SendRaw(from: ConnId, to: ConnId, bytes: seq<byte>)
      modifies this`out
      ensures State() == Pour(old(State()), from, to, bytes)
    {
      if !Conn(to).closed {
        out := out + [Piped(from, to, bytes)];
      }
    }

    method ClassifyConn(c: ConnId, message: OuterMessage)
      modifies this
      ensures State() == Classify(params, old(State()), c, message)
    {
      match message
      case HostHello(hostId) =>
        conns := conns[c := Conn(c).(role := ControlPending, awaiting := Some(ForHostKey(hostId)))];
      case DataAuth(Controller, ticket, _) =>
        if draining {
          conns := conns[c := Conn(c).(role := ControllerData)];
          RefuseConn(c, Drained);
        } else {
          conns := conns[c := Conn(c).(role := ControllerData, awaiting := Some(ForTicket(ticket)))];
        }
      case DataAuth(Host, ticket, mac) =>
        conns := conns[c := Conn(c).(role := HostData)];
        HostDial(c, ticket, mac);
      case _ => RefuseConn(c, ProtocolError);
    }

    method DispatchOne(c: ConnId, message: OuterMessage)
      modifies this
      ensures State() == Dispatch(params, old(State()), c, message)
    {
      match Conn(c).role
      case Unclassified => ClassifyConn(c, message);
      case ControlPending => HandleProof(c, message);
      case Control =>
        if message.Close? {
          DetachConn(c);
        } else {
          RefuseConn(c, ProtocolError);
        }
      case _ => RefuseConn(c, ProtocolError);
    }

    /**
     * The messages of one inbound chunk, in order, while the connection is framed; the rest stays in the reader
     * or is raw.
     */
    method Receive(c: ConnId, messages: seq<OuterMessage>, rest: seq<byte>, bad: bool)
      modifies this
      ensures State() == Chunk(params, old(State()), c, messages, rest, bad)
    {
      if Conn(c).closed || Conn(c).raw {
        return;
      }
      var i := 0;
      while i < |messages| && !Conn(c).raw
        invariant i <= |messages|
        invariant DispatchAll(params, State(), c, messages[i..], bad)
                  == DispatchAll(params, old(State()), c, messages, bad)
      {
        DispatchOne(c, messages[i]);
        i := i + 1;
      }
      if !Conn(c).raw && bad {
        Fail(c);
      }
      if Conn(c).pipe.None? {
        conns := conns[c := Conn(c).(held := rest)];
      } else if |rest| > 0 {
        SendRaw(c, Conn(c).pipe.value, rest);
      }
    }

    method ReceiveRaw(c: ConnId, bytes: seq<byte>)
      modifies this`out
      ensures State() == RawBytes(old(State()), c, bytes)
    {
      var conn := Conn(c);
      if conn.pipe.Some? && !conn.closed && conn.raw {
        SendRaw(c, conn.pipe.value, bytes);
      }
    }

    method HandleConnection(c: ConnId)
      modifies this`conns
      ensures State() == Accept(old(State()), c)
    {
      if !closed && c !in conns {
        conns := conns[c := NewConn()];
      }
    }

    method OnLookupFailed(c: ConnId)
      modifies this
      ensures State() == LookupFailed(old(State()), c)
    {
      if Conn(c).awaiting.Some? {
        conns := conns[c := Conn(c).(awaiting := None)];
        Fail(c);
      }
    }

    /** Stop taking controllers, and tell every registered host, in the order the table is walked. */
    method DrainAll() returns (ghost order: seq<HostId>)
      modifies this
      ensures if old(closed || draining) then State() == old(State())
              else Enumerates(order, old(hosts).Keys) && State() == DrainCell(old(State()), order)
    {
      order := [];
      if closed || draining {
        return;
      }
      draining := true;
      ghost var before := State();
      var rest := hosts.Keys;
      while rest != {}
        invariant rest <= hosts.Keys && hosts == before.hosts
        invariant forall h :: h in order <==> h in hosts && h !in rest
        invariant forall i, j | 0 <= i < j < |order| :: order[i] != order[j]
        invariant State() == SendDrains(before, order)
        decreases |rest|
      {
        var h :| h in rest;
        rest := rest - {h};
        Send(hosts[h], Drain);
        SendDrainsSnoc(before, order, h);
        order := order + [h];
      }
    }

    method CloseAll()
      modifies this
      ensures State() == CloseCell(old(State()))
    {
      if closed {
        return;
      }
      closed := true;
      ClosePending();
      CloseBridges();
      CloseHosts();
      CloseEachTwice(old(conns), Waiting(old(State())), Bridged(old(State())));
      CloseEachTwice(old(conns), Waiting(old(State())) + Bridged(old(State())), set h | h in old(hosts) ::
                       old(hosts)[h]);
    }

    method ClosePending()
      modifies this`conns, this`timers, this`pending
      ensures pending == map[] && conns == CloseEach(old(conns), ControllersOf(old(pending), old(pending).Keys))
      ensures timers == old(timers) - TimersOf(old(pending), old(pending).Keys)
    {
      var rest := pending.Keys;
      ghost var done: set<Ticket> := {};
      while rest != {}
        invariant done + rest == pending.Keys && pending == old(pending)
        invariant conns == CloseEach(old(conns), ControllersOf(pending, done))
        invariant timers == old(timers) - TimersOf(pending, done)
        decreases |rest|
      {
        var t :| t in rest;
        OneMore(pending, done, t);
        CloseOneMore(old(conns), ControllersOf(pending, done), pending[t].controller);
        StopOneMore(old(timers), TimersOf(pending, done), pending[t].timer);
        ClearTimeout(pending[t].timer);
        CloseConnection(pending[t].controller);
        rest, done := rest - {t}, done + {t};
      }
      assert done == pending.Keys;
      pending := map[];
    }

    method CloseBridges()
      modifies this`conns, this`bridges
      ensures bridges == {} && conns == CloseEach(old(conns), Bridged(old(State())))
    {
      var rest := bridges;
      while rest != {}
        invariant rest <= bridges && bridges == old(bridges)
        invariant conns == CloseEach(old(conns), EndsOf(bridges - rest))
        decreases |rest|
      {
        var b :| b in rest;
        CloseOneMore(old(conns), EndsOf(bridges - rest), b.controller);
        CloseOneMore(old(conns), EndsOf(bridges - rest) + {b.controller}, b.host);
        OneMoreBridge(bridges - rest, b);
        assert bridges - (rest - {b}) == bridges - rest + {b};
        rest := rest - {b};
        CloseConnection(b.controller);
        CloseConnection(b.host);
      }
      assert bridges - rest == bridges;
      bridges := {};
    }

    method CloseHosts()
      modifies this`conns, this`hosts
      ensures hosts == map[] && conns == CloseEach(old(conns), set h | h in old(hosts) :: old(hosts)[h])
    {
      var rest := hosts.Keys;
      while rest != {}
        invariant rest <= hosts.Keys && hosts == old(hosts)
        invariant conns == CloseEach(old(conns), ConnsOf(hosts, hosts.Keys - rest))
        decreases |rest|
      {
        var h :| h in rest;
        CloseOneMore(old(conns), ConnsOf(hosts, hosts.Keys - rest), hosts[h]);
        OneMoreHost(hosts, hosts.Keys - rest, h);
        assert hosts.Keys - (rest - {h}) == hosts.Keys - rest + {h};
        rest := rest - {h};
        CloseConnection(hosts[h]);
      }
      assert hosts.Keys - rest == hosts.Keys;
      hosts := map[];
    }
  }

  function ControllersOf(pending: map<Ticket, Pending>, ts: set<Ticket>): set<ConnId>
    requires ts <= pending.Keys
  {
    set t | t in ts :: pending[t].controller
  }

  function TimersOf(pending: map<Ticket, Pending>, ts: set<Ticket>): set<nat>
    requires ts <= pending.Keys
  {
    set t | t in ts :: pending[t].timer
  }

  function EndsOf(bridges: set<Bridge>): set<ConnId> {
    (set b | b in bridges :: b.controller) + (set b | b in bridges :: b.host)
  }

  function ConnsOf(hosts: map<HostId, ConnId>, hs: set<HostId>): set<ConnId>
    requires hs <= hosts.Keys
  {
    set h | h in hs :: hosts[h]
  }

  lemma OneMore(pending: map<Ticket, Pending>, ts: set<Ticket>, t: Ticket)
    requires ts <= pending.Keys && t in pending
    ensures ControllersOf(pending, ts + {t}) == ControllersOf(pending, ts) + {pending[t].controller}
    ensures TimersOf(pending, ts + {t}) == TimersOf(pending, ts) + {pending[t].timer}
  {
  }

  lemma OneMoreBridge(bridges: set<Bridge>, b: Bridge)
    ensures EndsOf(bridges + {b}) == EndsOf(bridges) + {b.controller} + {b.host}
  {
  }

  lemma OneMoreHost(hosts: map<HostId, ConnId>, hs: set<HostId>, h: HostId)
    requires hs <= hosts.Keys && h in hosts
    ensures ConnsOf(hosts, hs + {h}) == ConnsOf(hosts, hs) + {hosts[h]}
  {
  }

  lemma StopOneMore(timers: map<nat, Ticket>, ids: set<nat>, timer: nat)
    ensures timers - ids - {timer} == timers - (ids + {timer})
  {
  }

  lemma CloseOneMore(conns: map<ConnId, Conn>, ids: set<ConnId>, c: ConnId)
    ensures CloseEach(conns, ids)[c := At(CloseEach(conns, ids), c).(closed := true)] == CloseEach(conns, ids + {c})
  {
  }

  lemma CloseEachTwice(conns: map<ConnId, Conn>, a: set<ConnId>, b: set<ConnId>)
    ensures CloseEach(CloseEach(conns, a), b) == CloseEach(conns, a + b)
  {
  }

  lemma {:induction false} SendDrainsSnoc(s: Cell, order: seq<HostId>, h: HostId)
    requires h in s.hosts && forall g | g in order :: g in s.hosts
    ensures SendDrains(s, order + [h]) == SendTo(SendDrains(s, order), s.hosts[h], Drain)
    decreases |order|
  {
    if order == [] {
      assert SendDrains(s, [h]) == SendDrains(SendTo(s, s.hosts[h], Drain), [h][1..]);
    } else {
      assert (order + [h])[1..] == order[1..] + [h];
      SendDrainsSnoc(SendTo(s, s.hosts[order[0]], Drain), order[1..], h);
    }
  }
}

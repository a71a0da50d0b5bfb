/** The cell, over values. */
module Cells {
  // packages/relay-core/src/cell.ts: one step per inbound chunk, resumed lookup, timer, peer close, drain
  // or close. Connections are identified by number.

  import opened Bytes
  import opened Symbols
  import opened Messages
  import opened HostProofs

  const MAX_USED_TICKETS := 1024

  type ConnId = nat

  datatype Role = Unclassified | ControlPending | Control | ControllerData | HostData

  /** The lookup a connection has in flight. */
  datatype Await = ForHostKey(hostId: HostId) | ForTicket(ticket: Ticket)

  datatype Bridge = Bridge(ticket: Ticket, controller: ConnId, host: ConnId)

  datatype Pending = Pending(ticket: Ticket, hostId: HostId, controller: ConnId, timer: nat, nonce: Nonce)

  datatype TicketRecord = TicketRecord(hostId: HostId, expiresAt: int)

  /** `raw`, `closed` and `held`, the reader's bytes, are the outer connection's; `pipe` is where its raw bytes go. */
  datatype Conn = Conn(closed: bool, raw: bool, held: seq<byte>, role: Role, hostId: Option<HostId>,
                       hostStaticPub: Option<seq<byte>>,
                       challenge: Option<Challenge>, dataKey: Option<seq<Sym>>, ticket: Option<Ticket>,
                       bridge: Option<Bridge>, pipe: Option<ConnId>, awaiting: Option<Await>)

  datatype Out = Sent(to: ConnId, message: OuterMessage) | Piped(from: ConnId, to: ConnId, bytes: seq<byte>)

  /** `used` is in insertion order; `timers` are the live ones; `out` is all that was written, in order. */
  datatype Cell = Cell(conns: map<ConnId, Conn>, hosts: map<HostId, ConnId>, pending: map<Ticket, Pending>,
                       bridges: set<Bridge>, used: seq<Ticket>, timers: map<nat, Ticket>, nextTimer: nat,
                       draining: bool, closed: bool, out: seq<Out>)

  datatype Params = Params(cellId: seq<byte>, lowOrder: PublicKey -> bool)

  function NewConn(): Conn {
    Conn(false, false, [], Unclassified, None, None, None, None, None, None, None, None)
  }

  /** Empty tables. */
  function NewCell(): Cell {
    Cell(map[], map[], map[], {}, [], map[], 0, false, false, [])
  }

  function At(conns: map<ConnId, Conn>, c: ConnId): Conn {
    if c in conns then conns[c] else NewConn().(closed := true)
  }

  function Get(s: Cell, c: ConnId): Conn {
    At(s.conns, c)
  }

  function Put(s: Cell, c: ConnId, conn: Conn): Cell {
    s.(conns := s.conns[c := conn])
  }

  /** `outer.send`: nothing once closed. */
  function SendTo(s: Cell, c: ConnId, message: OuterMessage): Cell {
    if Get(s, c).closed then s else s.(out := s.out + [Sent(c, message)])
  }

  function CloseOuter(s: Cell, c: ConnId): Cell {
    Put(s, c, Get(s, c).(closed := true))
  }

  // ---- Teardown ---------------------------------------------------------------------------------

  function DropHost(s: Cell, c: ConnId): Cell {
    match Get(s, c).hostId
    case Some(h) => if h in s.hosts && s.hosts[h] == c then s.(hosts := s.hosts - {h}) else s
    case None => s
  }

  function DropPending(s: Cell, c: ConnId): Cell {
    match Get(s, c).ticket
    case Some(t) =>
      if t in s.pending && s.pending[t].controller == c
      then s.(timers := s.timers - {s.pending[t].timer}, pending := s.pending - {t}) else s
    case None => s
  }

  function Peer(b: Bridge, c: ConnId): ConnId {
    if b.controller == c then b.host else b.controller
  }

  function DropBridge(s: Cell, c: ConnId): Cell {
    match Get(s, c).bridge
    case Some(b) =>
      if b in s.bridges then
        var peer := Peer(b, c);
        Put(s.(bridges := s.bridges - {b}), peer, Get(s, peer).(bridge := None, closed := true))
      else s
    case None => s
  }

  function Cleanup(s: Cell, c: ConnId): Cell {
    var t := DropBridge(DropPending(DropHost(s, c), c), c);
    Put(t, c, Get(t, c).(bridge := None, dataKey := None))
  }

  function Detach(s: Cell, c: ConnId): Cell {
    CloseOuter(Cleanup(s, c), c)
  }

  function Refuse(s: Cell, c: ConnId, code: CloseCode): Cell {
    Detach(SendTo(s, c, Close(code)), c)
  }

  // ---- Registration -----------------------------------------------------------------------------

  /** The host's key is known (or the host is not). */
  function HostKeyFound(p: Params, s: Cell, c: ConnId, key: Option<seq<byte>>, nonce: Nonce,
                        ephemeral: PublicKey): Cell {
    var conn := Get(s, c);
    match conn.awaiting
    case Some(ForHostKey(hostId)) =>
      var t := Put(s, c, conn.(awaiting := None));
      if s.closed || conn.closed then t
      else (match key
            case None => Refuse(t, c, UnknownHost)
            case Some(k) =>
              var challenge := Challenge(p.cellId, nonce, ephemeral);
              SendTo(Put(t, c, Get(t, c).(hostId := Some(hostId), hostStaticPub := Some(k),
                                          challenge := Some(challenge))), c,
                     HostChallenge(p.cellId, nonce, ephemeral)))
    case _ => s
  }

  function OnProof(p: Params, s: Cell, c: ConnId, message: OuterMessage): Cell {
    var conn := Get(s, c);
    var t := Put(s, c, conn.(challenge := None));
    if !message.HostProof? then Refuse(t, c, ProtocolError)
    else
      match (conn.challenge, conn.hostId, conn.hostStaticPub)
      case (Some(challenge), Some(h), Some(key)) =>
        if !VerifyProof(p.lowOrder, challenge, h, key, message.mac) then Refuse(t, c, ProofFailed)
        else Register(t, c, h, CellDataAuthKey(p.lowOrder, challenge, key))
      case _ => Refuse(s, c, ProtocolError)
  }

  /** The host's newest control connection replaces the previous one, which is only closed. */
  function Register(s: Cell, c: ConnId, h: HostId, dataKey: Option<seq<Sym>>): Cell {
    var t := if h in s.hosts && s.hosts[h] != c then CloseOuter(s, s.hosts[h]) else s;
    var u := Put(t, c, Get(t, c).(dataKey := dataKey, role := Control));
    SendTo(u.(hosts := u.hosts[h := c]), c, HostRegistered(h))
  }

  // ---- Bridges ----------------------------------------------------------------------------------

  /** The newest `MAX_USED_TICKETS` of a log. */
  function Newest(log: seq<Ticket>): (s: seq<Ticket>)
    ensures |s| <= MAX_USED_TICKETS
  {
    if |log| > MAX_USED_TICKETS then log[|log| - MAX_USED_TICKETS..] else log
  }

  /** The controller's ticket resolved (or did not). */
  function TicketResolved(s: Cell, c: ConnId, record: Option<TicketRecord>, now: int, nonce: Nonce): Cell {
    var conn := Get(s, c);
    match conn.awaiting
    case Some(ForTicket(ticket)) =>
      var t := Put(s, c, conn.(awaiting := None));
      if s.closed || conn.closed then t
      else if record.None? then Refuse(t, c, BadTicket)
      else if now >= record.value.expiresAt then Refuse(t, c, TicketExpired)
      else if ticket in s.used then Refuse(t, c, TicketReused)
      else if record.value.hostId !in s.hosts then Refuse(t, c, UnknownHost)
      else Open(t, c, ticket, record.value.hostId, nonce)
    case _ => s
  }

  /** A fresh ticket for a registered host: wait for the host's dial, and ask for it. */
  function Open(s: Cell, c: ConnId, ticket: Ticket, hostId: HostId, nonce: Nonce): Cell
    requires hostId in s.hosts
  {
    var t := Put(s, c, Get(s, c).(ticket := Some(ticket), hostId := Some(hostId)));
    SendTo(t.(used := Newest(t.used + [ticket]),
              timers := t.timers[t.nextTimer := ticket], nextTimer := t.nextTimer + 1,
              pending := t.pending[ticket := Pending(ticket, hostId, c, t.nextTimer, nonce)]),
           s.hosts[hostId], ConnOpen(ticket, nonce))
  }

  function TimerFired(s: Cell, timer: nat): Cell {
    if timer !in s.timers then s
    else
      var ticket := s.timers[timer];
      var t := s.(timers := s.timers - {timer});
      if ticket !in t.pending then t
      else Refuse(t.(pending := t.pending - {ticket}), t.pending[ticket].controller, BridgeTimeout)
  }

  /** Does this dial prove the data key of the host its pending bridge waits for? */
  predicate Authentic(p: Params, s: Cell, ticket: Ticket, mac: Option<Mac>) {
    && ticket in s.pending
    && var pending := s.pending[ticket];
       && pending.hostId in s.hosts
       && var key := Get(s, s.hosts[pending.hostId]).dataKey;
          key.Some? && mac.Some? && VerifyDataAuthMac(key.value, p.cellId, ticket, pending.nonce, mac.value)
  }

  function CompleteHostDial(p: Params, s: Cell, c: ConnId, ticket: Ticket, mac: Option<Mac>): Cell {
    if ticket !in s.pending then Refuse(s, c, BadTicket)
    else if !Authentic(p, s, ticket, mac) then Refuse(s, c, DataAuthFailed)
    else
      var pending := s.pending[ticket];
      var t := s.(timers := s.timers - {pending.timer}, pending := s.pending - {ticket});
      Splice(Put(t, c, Get(t, c).(ticket := Some(ticket), hostId := Some(pending.hostId))), pending.controller, c,
             ticket)
  }

  /** `sendRaw` at the other end of a pipe: nothing once that is closed. */
  function Pour(s: Cell, from: ConnId, to: ConnId, bytes: seq<byte>): Cell {
    if Get(s, to).closed then s else s.(out := s.out + [Piped(from, to, bytes)])
  }

  /** `toRaw`: what the reader still held goes down the pipe, if it is anything. */
  function PourHeld(s: Cell, from: ConnId, to: ConnId, held: seq<byte>): Cell {
    if held == [] then s else Pour(s, from, to, held)
  }

  /** Link and pipe both ends, signal both, and open the pipe: first what the controller's reader held. */
  function Splice(s: Cell, controller: ConnId, host: ConnId, ticket: Ticket): Cell {
    var b := Bridge(ticket, controller, host);
    var t := Put(s.(bridges := s.bridges + {b}), controller,
                 Get(s, controller).(bridge := Some(b), pipe := Some(host), raw := true, held := []));
    var u := Put(t, host, Get(t, host).(bridge := Some(b), pipe := Some(controller), raw := true));
    PourHeld(SendTo(SendTo(u, controller, DataReady), host, DataReady), controller, host, Get(s, controller).held)
  }

  // ---- Dispatch ---------------------------------------------------------------------------------

  function Classify(p: Params, s: Cell, c: ConnId, message: OuterMessage): Cell {
    var conn := Get(s, c);
    match message
    case HostHello(hostId) => Put(s, c, conn.(role := ControlPending, awaiting := Some(ForHostKey(hostId))))
    case DataAuth(Controller, ticket, _) =>
      var t := Put(s, c, conn.(role := ControllerData));
      if s.draining then Refuse(t, c, Drained)
      else Put(s, c, conn.(role := ControllerData, awaiting := Some(ForTicket(ticket))))
    case DataAuth(Host, ticket, mac) => CompleteHostDial(p, Put(s, c, conn.(role := HostData)), c, ticket, mac)
    case _ => Refuse(s, c, ProtocolError)
  }

  function Dispatch(p: Params, s: Cell, c: ConnId, message: OuterMessage): Cell {
    match Get(s, c).role
    case Unclassified => Classify(p, s, c, message)
    case ControlPending => OnProof(p, s, c, message)
    case Control => if message.Close? then Detach(s, c) else Refuse(s, c, ProtocolError)
    case _ => Refuse(s, c, ProtocolError)
  }

  /** The messages of one chunk, and then perhaps a bad frame; going raw ends the framed phase. */
  function DispatchAll(p: Params, s: Cell, c: ConnId, messages: seq<OuterMessage>, bad: bool): Cell
    decreases |messages|
  {
    if Get(s, c).raw then s
    else if messages == [] then if bad then Refuse(s, c, ProtocolError) else s
    else DispatchAll(p, Dispatch(p, s, c, messages[0]), c, messages[1..], bad)
  }

  /** What is behind the messages waits in the reader, or goes down the pipe once the connection is raw. */
  function Leave(s: Cell, c: ConnId, rest: seq<byte>): Cell {
    var conn := Get(s, c);
    match conn.pipe
    case Some(to) => PourHeld(s, c, to, rest)
    case None => Put(s, c, conn.(held := rest))
  }

  /**
   * A chunk that completes `messages`, as far as the parser gets, and leaves `rest` in the reader, which
   * starts with a bad frame when `bad`. Once closed nothing is received; `closed` is looked at once a chunk.
   */
  function Chunk(p: Params, s: Cell, c: ConnId, messages: seq<OuterMessage>, rest: seq<byte>, bad: bool): Cell {
    if Get(s, c).closed || Get(s, c).raw then s else Leave(DispatchAll(p, s, c, messages, bad), c, rest)
  }

  function RawBytes(s: Cell, c: ConnId, bytes: seq<byte>): Cell {
    var conn := Get(s, c);
    match conn.pipe
    case Some(to) => if conn.closed || !conn.raw then s else Pour(s, c, to, bytes)
    case None => s
  }

  // ---- The cell as a whole ----------------------------------------------------------------------

  function Accept(s: Cell, c: ConnId): Cell {
    if s.closed || c in s.conns then s else Put(s, c, NewConn())
  }

  /** The lookup threw. */
  function LookupFailed(s: Cell, c: ConnId): Cell {
    if Get(s, c).awaiting.None? then s
    else Refuse(Put(s, c, Get(s, c).(awaiting := None)), c, ProtocolError)
  }

  function CloseEach(conns: map<ConnId, Conn>, ids: set<ConnId>): map<ConnId, Conn> {
    map c | c in conns.Keys + ids :: if c in ids then At(conns, c).(closed := true) else conns[c]
  }

  function Waiting(s: Cell): set<ConnId> {
    set t | t in s.pending :: s.pending[t].controller
  }

  function Bridged(s: Cell): set<ConnId> {
    (set b | b in s.bridges :: b.controller) + (set b | b in s.bridges :: b.host)
  }

  function CloseCell(s: Cell): Cell {
    if s.closed then s
    else s.(closed := true, timers := s.timers - (set t | t in s.pending :: s.pending[t].timer), pending := map[],
            bridges := {},
            hosts := map[], conns := CloseEach(s.conns, Waiting(s) + Bridged(s) + (set h | h in s.hosts :: s.hosts[h])))
  }

  /** The order in which the host table is walked. */
  predicate Enumerates(order: seq<HostId>, hosts: set<HostId>) {
    && (set h | h in order) == hosts
    && (forall i, j :: 0 <= i < j < |order| ==> order[i] != order[j])
  }

  function SendDrains(s: Cell, order: seq<HostId>): Cell
    requires forall h | h in order :: h in s.hosts
    decreases |order|
  {
    if order == [] then s else SendDrains(SendTo(s, s.hosts[order[0]], Drain), order[1..])
  }

  function DrainCell(s: Cell, order: seq<HostId>): Cell
    requires Enumerates(order, s.hosts.Keys)
  {
    if s.closed || s.draining then s else SendDrains(s.(draining := true), order)
  }

  // ---- Runs -------------------------------------------------------------------------------------

  datatype Event =
    | Accepts(c: ConnId)
    | Receives(c: ConnId, messages: seq<OuterMessage>, rest: seq<byte>, bad: bool)
    | Pipes(c: ConnId, bytes: seq<byte>)
    | FindsKey(c: ConnId, key: Option<seq<byte>>, nonce: Nonce, ephemeral: PublicKey)
    | Resolves(c: ConnId, record: Option<TicketRecord>, now: int, bridgeNonce: Nonce)
    | LookupFails(c: ConnId)
    | Fires(timer: nat)
    | PeerCloses(c: ConnId)
    | Drains(order: seq<HostId>)
    | Closes

  /** One step; a drain that does not walk exactly the host table is no step. */
  function Next(p: Params, s: Cell, e: Event): Cell {
    match e
    case Accepts(c) => Accept(s, c)
    case Receives(c, messages, rest, bad) => Chunk(p, s, c, messages, rest, bad)
    case Pipes(c, bytes) => RawBytes(s, c, bytes)
    case FindsKey(c, key, nonce, ephemeral) => HostKeyFound(p, s, c, key, nonce, ephemeral)
    case Resolves(c, record, now, nonce) => TicketResolved(s, c, record, now, nonce)
    case LookupFails(c) => LookupFailed(s, c)
    case Fires(timer) => TimerFired(s, timer)
    case PeerCloses(c) => if c in s.conns then Detach(s, c) else s
    case Drains(order) => if Enumerates(order, s.hosts.Keys) then DrainCell(s, order) else s
    case Closes => CloseCell(s)
  }

  function Run(p: Params, s: Cell, events: seq<Event>): Cell
    decreases |events|
  {
    if events == [] then s else Run(p, Next(p, s, events[0]), events[1..])
  }
}

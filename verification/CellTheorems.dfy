/** The promises of the cell. */
module CellTheorems {
  // Step by step and over every run.

  import opened Bytes
  import opened Symbols
  import opened Messages
  import opened HostProofs
  import opened Cells
  import opened CellSafety
  import opened CellEffects

  // ---- Steps that are not chunks ----------------------------------------------------------------

  /** Is this step the acceptance of a ticket? */
  predicate Accepting(s: Cell, e: Event) {
    && e.Resolves? && !s.closed
    && var conn := Get(s, e.c);
       && !conn.closed && conn.awaiting.Some? && conn.awaiting.value.ForTicket?
       && e.record.Some? && e.now < e.record.value.expiresAt && e.record.value.hostId in s.hosts
       && conn.awaiting.value.ticket !in s.used
  }

  function AcceptedTicket(s: Cell, e: Event): Ticket
    requires Accepting(s, e)
  {
    Get(s, e.c).awaiting.value.ticket
  }

  /**
   * What an acceptance does: the tables gain one pending bridge, its timer and a used ticket, and the host is
   * asked.
   */
  lemma AcceptingIs(p: Params, s: Cell, e: Event)
    requires Tables(s) && Accepting(s, e)
    ensures var t, ticket := Next(p, s, e), AcceptedTicket(s, e);
            && t.hosts == s.hosts && t.bridges == s.bridges
            && t.pending == s.pending[ticket := Pending(ticket, e.record.value.hostId, e.c, s.nextTimer, e.bridgeNonce)]
            && t.timers == s.timers[s.nextTimer := ticket] && t.used == Newest(s.used + [ticket])
               && t.nextTimer == s.nextTimer + 1
            && t.out == s.out + [Sent(s.hosts[e.record.value.hostId], ConnOpen(ticket, e.bridgeNonce))]
            && (forall d: ConnId | d != e.c :: Get(t, d) == Get(s, d))
            && Get(t, e.c).dataKey == Get(s, e.c).dataKey && Get(t, e.c).challenge == Get(s, e.c).challenge
               && t.closed == s.closed
  {
    var h := e.record.value.hostId;
    assert HostOk(Get(s, s.hosts[h]), h);
    assert Shape(Get(s, e.c));
  }

  /** Why a ticket is not accepted: the first reason that applies. */
  function Refusal(s: Cell, record: Option<TicketRecord>, now: int, ticket: Ticket): CloseCode {
    if record.None? then BadTicket
    else if now >= record.value.expiresAt then TicketExpired
    else if ticket in s.used then TicketReused
    else UnknownHost
  }

  lemma ResolvesIsQuiet(p: Params, s: Cell, e: Event)
    requires e.Resolves? && !Accepting(s, e)
    ensures Quiet(s, Next(p, s, e), e.c)
  {
    var k := Get(s, e.c).(awaiting := None);
    if Get(s, e.c).awaiting.None? || !Get(s, e.c).awaiting.value.ForTicket? {
      NothingIsQuiet(s, e.c);
    } else if s.closed || Get(s, e.c).closed {
      PutIsQuiet(s, e.c, k);
    } else {
      var code := Refusal(s, e.record, e.now, Get(s, e.c).awaiting.value.ticket);
      assert Next(p, s, e) == Refuse(Put(s, e.c, k), e.c, code);
      PutRefuseIsQuiet(s, e.c, k, code);
    }
  }

  /** A host's key turns up: the host's connection is challenged. */
  predicate Challenging(s: Cell, e: Event) {
    && e.FindsKey? && !s.closed && e.key.Some?
    && var conn := Get(s, e.c); !conn.closed && conn.awaiting.Some? && conn.awaiting.value.ForHostKey?
  }

  function Challenged(p: Params, s: Cell, e: Event): Conn
    requires Challenging(s, e)
  {
    var conn := Get(s, e.c);
    conn.(awaiting := None, hostId := Some(conn.awaiting.value.hostId), hostStaticPub := e.key,
          challenge := Some(Challenge(p.cellId, e.nonce, e.ephemeral)))
  }

  lemma ChallengingIs(p: Params, s: Cell, e: Event)
    requires Challenging(s, e)
    ensures Next(p, s, e) == Put(s, e.c,
                                 Challenged(p, s, e)).(out := s.out
                                       + [Sent(e.c, HostChallenge(p.cellId, e.nonce, e.ephemeral))])
    ensures Speaks(s.out, Next(p, s, e).out)
  {
    OpensSnoc(s.out, Sent(e.c, HostChallenge(p.cellId, e.nonce, e.ephemeral)));
    var k := Get(s, e.c).(awaiting := None);
    assert s.conns[e.c := k][e.c := Challenged(p, s, e)] == s.conns[e.c := Challenged(p, s, e)];
  }

  lemma FindsKeyIsQuiet(p: Params, s: Cell, e: Event)
    requires e.FindsKey? && !Challenging(s, e)
    ensures Quiet(s, Next(p, s, e), e.c)
  {
    var k := Get(s, e.c).(awaiting := None);
    if Get(s, e.c).awaiting.None? || !Get(s, e.c).awaiting.value.ForHostKey? {
      NothingIsQuiet(s, e.c);
    } else if s.closed || Get(s, e.c).closed {
      PutIsQuiet(s, e.c, k);
    } else {
      PutRefuseIsQuiet(s, e.c, k, UnknownHost);
    }
  }

  lemma LookupFailsIsQuiet(p: Params, s: Cell, e: Event)
    requires e.LookupFails?
    ensures Quiet(s, Next(p, s, e), e.c)
  {
    if Get(s, e.c).awaiting.None? {
      NothingIsQuiet(s, e.c);
    } else {
      PutRefuseIsQuiet(s, e.c, Get(s, e.c).(awaiting := None), ProtocolError);
    }
  }

  lemma PipesIsQuiet(p: Params, s: Cell, e: Event)
    requires e.Pipes?
    ensures Quiet(s, Next(p, s, e), e.c)
  {
    if Get(s, e.c).pipe.Some? {
      OpensSnoc(s.out, Piped(e.c, Get(s, e.c).pipe.value, e.bytes));
    }
    WriteIsQuiet(s, e.c, Next(p, s, e).out);
  }

  lemma AcceptsIsQuiet(p: Params, s: Cell, e: Event)
    requires e.Accepts?
    ensures Quiet(s, Next(p, s, e), e.c)
  {
    NothingIsQuiet(s, e.c);
    PutIsQuiet(s, e.c, NewConn());
  }

  lemma {:induction false} SendDrainsIsQuiet(s: Cell, order: seq<HostId>, c: ConnId)
    requires forall h | h in order :: h in s.hosts
    ensures Quiet(s, SendDrains(s, order), c)
    decreases |order|
  {
    NothingIsQuiet(s, c);
    if order != [] {
      var t := SendTo(s, s.hosts[order[0]], Drain);
      SendIsQuiet(s, c, Drain, s.hosts[order[0]]);
      SendDrainsIsQuiet(t, order[1..], c);
      QuietTwice(s, t, SendDrains(s, order), c);
    }
  }

  /** Inbound bytes of a connection that is open and framed; any others of the framed phase are dropped. */
  predicate Reads(s: Cell, e: Event) {
    e.Receives? && !Get(s, e.c).closed && !Get(s, e.c).raw
  }

  /** Steps that at most bring their own connection down. */
  predicate Plain(s: Cell, e: Event) {
    match e
    case Accepts(_) => true
    case Pipes(_, _) => true
    case FindsKey(_, _, _, _) => !Challenging(s, e)
    case Resolves(_, _, _, _) => !Accepting(s, e)
    case LookupFails(_) => true
    case PeerCloses(_) => true
    case _ => false
  }

  lemma PlainIsQuiet(p: Params, s: Cell, e: Event)
    requires Plain(s, e)
    ensures Quiet(s, Next(p, s, e), e.c)
  {
    match e
    case Accepts(_) => AcceptsIsQuiet(p, s, e);
    case Pipes(_, _) => PipesIsQuiet(p, s, e);
    case FindsKey(_, _, _, _) => FindsKeyIsQuiet(p, s, e);
    case Resolves(_, _, _, _) => ResolvesIsQuiet(p, s, e);
    case LookupFails(_) => LookupFailsIsQuiet(p, s, e);
    case PeerCloses(c) =>
      NothingIsQuiet(s, c);
      DetachIsQuiet(s, c);
  }

  // ---- Registrations ----------------------------------------------------------------------------

  /** Is `h` registered by the same connection, or by none, in both? */
  predicate SameHost(s: Cell, t: Cell, h: HostId) {
    if h in s.hosts then h in t.hosts && t.hosts[h] == s.hosts[h] else h !in t.hosts
  }

  lemma QuietHost(s: Cell, t: Cell, c: ConnId, h: HostId)
    requires Quiet(s, t, c)
    ensures SameHost(s, t, h) || (h in s.hosts && s.hosts[h] == c)
    ensures h in t.hosts ==> h in s.hosts && t.hosts[h] == s.hosts[h]
  {
  }

  /** The chunk opens with a proof of possession of `h`'s key, against the challenge its connection was sent. */
  predicate Proves(p: Params, s: Cell, e: Event, h: HostId) {
    e.Receives? && e.messages != [] && Registers(p, s, e.c, e.messages[0]) && Get(s, e.c).hostId == Some(h)
  }

  /**
   * A host's registration changes only when its own control connection goes down, when a connection
   * proves possession of its key, and when the cell closes. In particular a superseded control
   * connection, or a data connection, going down never unregisters a host.
   */
  lemma RegistrationChanges(p: Params, s: Cell, e: Event, h: HostId)
    requires Tables(s)
    ensures var t := Next(p, s, e);
            || SameHost(s, t, h)
            || e.Closes?
            || ((e.Receives? || e.PeerCloses?) && h in s.hosts && s.hosts[h] == e.c)
            || (Proves(p, s, e, h) && (h in t.hosts ==> t.hosts[h] == e.c))
  {
    if Plain(s, e) {
      PlainIsQuiet(p, s, e);
      PlainHost(p, s, e, h);
    } else if e.Receives? {
      if Reads(s, e) { ChunkHost(p, s, e, h); }
    } else if Accepting(s, e) {
      AcceptingIs(p, s, e);
    } else if Challenging(s, e) {
      ChallengingIs(p, s, e);
    } else if e.Fires? {
      FiresHost(p, s, e, h);
    } else if e.Drains? && Enumerates(e.order, s.hosts.Keys) && !s.closed && !s.draining {
      SendDrainsKeeps(s.(draining := true), e.order);
    }
  }

  /** The step's connection, if registered, is settled. */
  lemma PlainHost(p: Params, s: Cell, e: Event, h: HostId)
    requires Tables(s) && Plain(s, e) && Quiet(s, Next(p, s, e), e.c)
    ensures SameHost(s, Next(p, s, e), h) || (e.PeerCloses? && h in s.hosts && s.hosts[h] == e.c)
  {
    QuietHost(s, Next(p, s, e), e.c, h);
    if h in s.hosts && s.hosts[h] == e.c {
      assert HostOk(Get(s, e.c), h) && Shape(s.conns[e.c]);
    }
  }

  lemma FiresHost(p: Params, s: Cell, e: Event, h: HostId)
    requires Tables(s) && e.Fires?
    ensures SameHost(s, Next(p, s, e), h)
  {
    if e.timer in s.timers && s.timers[e.timer] in s.pending {
      var ticket := s.timers[e.timer];
      var q := s.pending[ticket];
      var t := s.(timers := s.timers - {e.timer}, pending := s.pending - {ticket});
      RefuseIsQuiet(t, q.controller, BridgeTimeout);
      QuietHost(t, Next(p, s, e), q.controller, h);
      assert PendingOk(Get(s, q.controller), s.timers, ticket, q);
      assert h in s.hosts ==> HostOk(Get(s, s.hosts[h]), h);
    }
  }

  lemma ProofHost(p: Params, s: Cell, c: ConnId, after: Cell, t: Cell, h: HostId)
    requires Registering(p, s, after, c) && Quiet(after, t, c)
    ensures || SameHost(s, t, h)
            || (h in s.hosts && s.hosts[h] == c)
            || (Get(s, c).hostId == Some(h) && (h in t.hosts ==> t.hosts[h] == c))
  {
    QuietHost(after, t, c, h);
  }

  lemma ChunkHost(p: Params, s: Cell, e: Event, h: HostId)
    requires Tables(s) && Reads(s, e)
    ensures var t := Next(p, s, e);
            || SameHost(s, t, h)
            || (h in s.hosts && s.hosts[h] == e.c)
            || (Proves(p, s, e, h) && (h in t.hosts ==> t.hosts[h] == e.c))
  {
    var t := Next(p, s, e);
    var effect := StepEffects(p, s, e.c, e.messages, e.rest, e.bad);
    match effect
    case Torn => QuietHost(s, t, e.c, h);
    case Registered(after) => ProofHost(p, s, e.c, after, t, h);
    case Joins(i) =>
  }

  // ---- Pending bridges --------------------------------------------------------------------------

  /** The pending bridge of `ticket` and its timer, untouched. */
  predicate Stands(s: Cell, t: Cell, ticket: Ticket)
    requires ticket in s.pending
  {
    && ticket in t.pending && t.pending[ticket] == s.pending[ticket]
    && s.pending[ticket].timer in t.timers && t.timers[s.pending[ticket].timer] == ticket
  }

  /** All that ends or replaces a pending bridge; a dial is among it only when it proves the data key. */
  ghost predicate Disturbs(p: Params, s: Cell, e: Event, ticket: Ticket)
    requires ticket in s.pending
  {
    match e
    case Closes => true
    case Fires(timer) => timer in s.timers && s.timers[timer] == ticket
    case PeerCloses(c) => c == s.pending[ticket].controller
    case Receives(c, messages, _, _) =>
      c == s.pending[ticket].controller || exists i | 0 <= i < |messages| ::
            Splices(p, s, c, messages[i]) && messages[i].ticket == ticket
    case Resolves(c, _, _, _) => Accepting(s, e) && AcceptedTicket(s, e) == ticket
    case _ => false
  }

  lemma QuietStands(s: Cell, t: Cell, c: ConnId, ticket: Ticket)
    requires Tables(s) && Quiet(s, t, c) && ticket in s.pending && s.pending[ticket].controller != c
    ensures Stands(s, t, ticket)
  {
    var q := s.pending[ticket];
    assert PendingOk(Get(s, q.controller), s.timers, ticket, q);
    forall i | i in s.pending && s.pending[i].timer == q.timer ensures i == ticket {
      assert PendingOk(Get(s, s.pending[i].controller), s.timers, i, s.pending[i]);
    }
    assert !Released(s, t, q.timer);
  }

  /** A registered or waiting connection has no lookup in flight, so no step but its own chunks and close can end it. */
  lemma PlainStands(p: Params, s: Cell, e: Event, ticket: Ticket)
    requires Tables(s) && Plain(s, e) && ticket in s.pending && !Disturbs(p, s, e, ticket)
    ensures Stands(s, Next(p, s, e), ticket)
  {
    var q := s.pending[ticket];
    assert PendingOk(Get(s, q.controller), s.timers, ticket, q);
    if q.controller == e.c {
      assert Next(p, s, e) == s.(out := Next(p, s, e).out);
    } else {
      PlainIsQuiet(p, s, e);
      QuietStands(s, Next(p, s, e), e.c, ticket);
    }
  }

  lemma FiresStands(p: Params, s: Cell, e: Event, ticket: Ticket)
    requires Tables(s) && e.Fires? && ticket in s.pending && !Disturbs(p, s, e, ticket)
    ensures Stands(s, Next(p, s, e), ticket)
  {
    var q := s.pending[ticket];
    assert PendingOk(Get(s, q.controller), s.timers, ticket, q);
    if e.timer in s.timers && s.timers[e.timer] in s.pending {
      OtherTimerStands(s, e.timer, ticket);
    }
  }

  lemma OtherTimerStands(s: Cell, timer: nat, ticket: Ticket)
    requires PendingsOk(s) && timer in s.timers && s.timers[timer] in s.pending && ticket in s.pending
             && s.timers[timer] != ticket
    ensures Stands(s, TimerFired(s, timer), ticket)
  {
    var other := s.timers[timer];
    var t, r := s.(timers := s.timers - {timer}, pending := s.pending - {other}), s.pending[other];
    assert PendingOk(Get(s, r.controller), s.timers, other, r);
    assert PendingOk(Get(s, s.pending[ticket].controller), s.timers, ticket, s.pending[ticket]);
    RefuseIsQuiet(t, r.controller, BridgeTimeout);
    forall i | i in t.pending ensures t.pending[i].controller != r.controller {
      assert PendingOk(Get(s, s.pending[i].controller), s.timers, i, s.pending[i]);
    }
    LooselyStands(t, TimerFired(s, timer), r.controller, ticket);
  }

  lemma LooselyStands(s: Cell, t: Cell, c: ConnId, ticket: Ticket)
    requires Quiet(s, t, c) && ticket in s.pending && forall i | i in s.pending :: s.pending[i].controller != c
    requires s.pending[ticket].timer in s.timers && s.timers[s.pending[ticket].timer] == ticket
    ensures Stands(s, t, ticket)
  {
    assert forall i | i in s.pending :: i in t.pending;
    assert !Released(s, t, s.pending[ticket].timer);
  }

  lemma ChunkStands(p: Params, s: Cell, e: Event, ticket: Ticket)
    requires Tables(s) && Reads(s, e) && ticket in s.pending && !Disturbs(p, s, e, ticket)
    ensures Stands(s, Next(p, s, e), ticket)
  {
    var t := Next(p, s, e);
    var effect := StepEffects(p, s, e.c, e.messages, e.rest, e.bad);
    if effect.Joins? {
      JoinStands(s, t, e.c, e.messages[effect.i], ticket);
    } else {
      UnjoinedStands(p, s, e.c, e.messages, t, effect, ticket);
    }
  }

  lemma UnjoinedStands(p: Params, s: Cell, c: ConnId, messages: seq<OuterMessage>, t: Cell, effect: Effect,
                       ticket: Ticket)
    requires Tables(s) && Effects(p, s, c, messages, t, effect) && !effect.Joins? && ticket in s.pending
             && s.pending[ticket].controller != c
    ensures Stands(s, t, ticket)
  {
    if effect.Torn? { QuietStands(s, t, c, ticket); } else { QuietStands(effect.after, t, c, ticket); }
  }

  lemma JoinStands(s: Cell, t: Cell, c: ConnId, message: OuterMessage, ticket: Ticket)
    requires Tables(s) && Bridging(s, t, c, message) && ticket in s.pending && ticket != message.ticket
    ensures Stands(s, t, ticket)
  {
    var q, r := s.pending[ticket], s.pending[message.ticket];
    assert PendingOk(Get(s, q.controller), s.timers, ticket, q);
    assert PendingOk(Get(s, r.controller), s.timers, message.ticket, r);
  }

  /** Whatever else happens, a pending bridge waits on, with its timer. */
  lemma PendingStands(p: Params, s: Cell, e: Event, ticket: Ticket)
    requires Tables(s) && ticket in s.pending && !Disturbs(p, s, e, ticket)
    ensures Stands(s, Next(p, s, e), ticket)
  {
    var q := s.pending[ticket];
    assert PendingOk(Get(s, q.controller), s.timers, ticket, q);
    if Plain(s, e) {
      PlainStands(p, s, e, ticket);
    } else if e.Receives? {
      if Reads(s, e) { ChunkStands(p, s, e, ticket); }
    } else if Accepting(s, e) {
      AcceptingIs(p, s, e);
    } else if Challenging(s, e) {
      ChallengingIs(p, s, e);
    } else if e.Fires? {
      FiresStands(p, s, e, ticket);
    } else if e.Drains? && Enumerates(e.order, s.hosts.Keys) && !s.closed && !s.draining {
      SendDrainsKeeps(s.(draining := true), e.order);
    }
  }

  /** No step of the run disturbs `ticket`'s pending bridge, in the state it is taken. */
  ghost predicate Undisturbed(p: Params, s: Cell, events: seq<Event>, ticket: Ticket)
    decreases |events|
  {
    events != [] ==>
      && ticket in s.pending && !Disturbs(p, s, events[0], ticket)
      && Undisturbed(p, Next(p, s, events[0]), events[1..], ticket)
  }

  /** Any number of failing dials, and of everything else that is not about it, leaves a bridge pending. */
  lemma {:induction false} PendingOutlives(p: Params, s: Cell, events: seq<Event>, ticket: Ticket)
    requires Tables(s) && ticket in s.pending && Undisturbed(p, s, events, ticket)
    ensures Stands(s, Run(p, s, events), ticket)
    decreases |events|
  {
    assert PendingOk(Get(s, s.pending[ticket].controller), s.timers, ticket, s.pending[ticket]);
    if events != [] {
      NextKeeps(p, s, events[0]);
      PendingStands(p, s, events[0], ticket);
      PendingOutlives(p, Next(p, s, events[0]), events[1..], ticket);
    }
  }

  // ---- Splices ----------------------------------------------------------------------------------

  /**
   * The step carries a dial by the bridge's host end that proves, over the pending bridge's own nonce, the data
   * key of the host it names.
   */
  ghost predicate Proven(p: Params, s: Cell, e: Event, b: Bridge) {
    && e.Receives? && e.c == b.host && b.ticket in s.pending
    && var q := s.pending[b.ticket];
       && q.controller == b.controller && q.hostId in s.hosts
       && var key := Get(s, s.hosts[q.hostId]).dataKey;
          && key.Some?
          && exists i | 0 <= i < |e.messages| ::
            e.messages[i] == DataAuth(Host, b.ticket, Some(DataAuthMac(key.value, p.cellId, b.ticket, q.nonce)))
  }

  /** Every bridge that comes up was proven, and ends its pending bridge and that one's timer. */
  lemma SplicesAreProven(p: Params, s: Cell, e: Event, b: Bridge)
    requires Tables(s) && b in Next(p, s, e).bridges && b !in s.bridges
    ensures Proven(p, s, e, b)
    ensures b.ticket !in Next(p, s, e).pending && s.pending[b.ticket].timer !in Next(p, s, e).timers
  {
    var t := Next(p, s, e);
    if Plain(s, e) {
      PlainIsQuiet(p, s, e);
    } else if e.Receives? {
      if Reads(s, e) { ChunkSplices(p, s, e, b); }
    } else if Accepting(s, e) {
      AcceptingIs(p, s, e);
    } else if Challenging(s, e) {
      ChallengingIs(p, s, e);
    } else if e.Fires? {
      FiresBridges(p, s, e.timer);
    } else if e.Drains? && Enumerates(e.order, s.hosts.Keys) && !s.closed && !s.draining {
      SendDrainsKeeps(s.(draining := true), e.order);
    }
  }

  lemma FiresBridges(p: Params, s: Cell, timer: nat)
    ensures TimerFired(s, timer).bridges <= s.bridges
  {
    if timer in s.timers && s.timers[timer] in s.pending {
      var ticket := s.timers[timer];
      RefuseIsQuiet(s.(timers := s.timers - {timer}, pending := s.pending - {ticket}), s.pending[ticket].controller,
                    BridgeTimeout);
    }
  }

  lemma ChunkSplices(p: Params, s: Cell, e: Event, b: Bridge)
    requires Tables(s) && Reads(s, e) && b in Next(p, s, e).bridges && b !in s.bridges
    ensures Proven(p, s, e, b)
    ensures b.ticket !in Next(p, s, e).pending && s.pending[b.ticket].timer !in Next(p, s, e).timers
  {
    var effect := StepEffects(p, s, e.c, e.messages, e.rest, e.bad);
    var i := EffectSplices(p, s, e.c, e.messages, Next(p, s, e), effect, b);
    assert e.messages[i] in e.messages;
  }

  lemma EffectSplices(p: Params, s: Cell, c: ConnId, messages: seq<OuterMessage>, t: Cell, effect: Effect, b: Bridge)
      returns (i: nat)
    requires Effects(p, s, c, messages, t, effect) && b in t.bridges && b !in s.bridges
    ensures i < |messages| && Splices(p, s, c, messages[i])
            && b == Bridge(messages[i].ticket, s.pending[messages[i].ticket].controller, c)
    ensures b.ticket !in t.pending && s.pending[b.ticket].timer !in t.timers
  {
    match effect
    case Torn => assert false;
    case Registered(after) => assert false;
    case Joins(j) => i := j;
  }

  /** What `from` pours into an open pipe. */
  function Poured(from: ConnId, to: ConnId, bytes: seq<byte>): seq<Out> {
    if bytes == [] then [] else [Piped(from, to, bytes)]
  }

  /**
   * And every proven first message brings its bridge up: both ends are told and pipe to each other, and
   * each then gets what the other's reader still held, the controller's first.
   */
  lemma ProvenSplices(p: Params, s: Cell, c: ConnId, message: OuterMessage, rest: seq<byte>)
    requires Tables(s) && !Get(s, c).closed && Splices(p, s, c, message)
    ensures var t, q := Next(p, s, Receives(c, [message], rest, false)), s.pending[message.ticket];
            && Bridge(message.ticket, q.controller, c) in t.bridges && message.ticket !in t.pending
               && q.timer !in t.timers
            && Get(t, c).pipe == Some(q.controller) && Get(t, q.controller).pipe == Some(c)
            && !Get(t, c).closed && !Get(t, q.controller).closed
            && t.out == s.out + [Sent(q.controller, DataReady), Sent(c, DataReady)]
                        + Poured(q.controller, c, Get(s, q.controller).held) + Poured(c, q.controller, rest)
  {
    assert Shape(s.conns[c]);
    OneMessage(p, s, c, message, rest);
    DialTables(p, s, c, message);
    SpliceTells(p, s, c, message);
    LeavePours(Dispatch(p, s, c, message), c, s.pending[message.ticket].controller, rest);
  }

  /** The bridge takes the place of the pending one and its timer. */
  lemma DialTables(p: Params, s: Cell, c: ConnId, message: OuterMessage)
    requires Tables(s) && Splices(p, s, c, message)
    ensures var t, q := Dispatch(p, s, c, message), s.pending[message.ticket];
            Bridge(message.ticket, q.controller, c) in t.bridges && message.ticket !in t.pending && q.timer !in t.timers
  {
    BridgingNow(p, s, c, message);
  }

  lemma LeavePours(s: Cell, c: ConnId, to: ConnId, rest: seq<byte>)
    requires Get(s, c).pipe == Some(to) && !Get(s, to).closed
    ensures Leave(s, c, rest) == s.(out := s.out + Poured(c, to, rest))
  {
    assert s.out + [] == s.out;
  }

  /** A chunk of one message and what is behind it. */
  lemma OneMessage(p: Params, s: Cell, c: ConnId, message: OuterMessage, rest: seq<byte>)
    requires !Get(s, c).closed && !Get(s, c).raw
    ensures Next(p, s, Receives(c, [message], rest, false)) == Leave(Dispatch(p, s, c, message), c, rest)
  {
    var t := Dispatch(p, s, c, message);
    assert [message][1..] == [];
    assert DispatchAll(p, s, c, [message], false) == DispatchAll(p, t, c, [], false) == t;
  }

  lemma SpliceTells(p: Params, s: Cell, c: ConnId, message: OuterMessage)
    requires Tables(s) && Splices(p, s, c, message)
    ensures var t, q := Dispatch(p, s, c, message), s.pending[message.ticket];
            && Get(t, c).pipe == Some(q.controller) && Get(t, q.controller).pipe == Some(c)
            && Get(t, c).closed == Get(s, c).closed && !Get(t, q.controller).closed
            && t.out == s.out + [Sent(q.controller, DataReady)]
                        + if Get(s, c).closed then [] else [Sent(c, DataReady)] + Poured(q.controller, c,
                            Get(s, q.controller).held)
  {
    var q, m := s.pending[message.ticket], Put(s, c, Get(s, c).(role := HostData));
    EarlyIsLoose(s, c);
    assert PendingOk(Get(s, q.controller), s.timers, message.ticket, q);
    DialingIs(p, s, c, message);
    SpliceIs(Ready(m, c, message.ticket), q.controller, c, message.ticket);
  }

  /** Both ends piped to each other, and told if they are open. */
  lemma SpliceIs(s: Cell, a: ConnId, b: ConnId, ticket: Ticket)
    requires a != b && !Get(s, a).closed
    ensures var t := Splice(s, a, b, ticket);
            && Get(t, b).pipe == Some(a) && Get(t, a).pipe == Some(b) && Get(t, b).closed == Get(s, b).closed
               && !Get(t, a).closed
            && t.out == s.out + [Sent(a, DataReady)]
                        + if Get(s, b).closed then [] else [Sent(b, DataReady)] + Poured(a, b, Get(s, a).held)
  {
  }

  /** A verified proof registers its host, with the key it proved, whatever became of the cell. */
  lemma ProofRegisters(p: Params, s: Cell, c: ConnId, message: OuterMessage, rest: seq<byte>)
    requires Tables(s) && !Get(s, c).closed && Registers(p, s, c, message)
    ensures var t, k := Next(p, s, Receives(c, [message], rest, false)), Get(s, c);
            && t.hosts == s.hosts[k.hostId.value := c]
            && Get(t, c).dataKey == CellDataAuthKey(p.lowOrder, k.challenge.value, k.hostStaticPub.value)
  {
    assert Shape(s.conns[c]);
    OneMessage(p, s, c, message, rest);
    RegisteringNow(p, s, c, message);
    LeaveKeepsKeys(Dispatch(p, s, c, message), c, rest);
  }

  lemma LeaveKeepsKeys(s: Cell, c: ConnId, rest: seq<byte>)
    ensures Leave(s, c, rest).hosts == s.hosts && Get(Leave(s, c, rest), c).dataKey == Get(s, c).dataKey
  {
  }

  /** Raw bytes go from one end of a splice to its other end, as they are, and nowhere else. */
  lemma BytesStayBetweenEnds(p: Params, s: Cell, c: ConnId, bytes: seq<byte>)
    requires Tables(s) && Next(p, s, Pipes(c, bytes)) != s
    ensures var d := Get(s, c).pipe;
            && d.Some? && d.value != c && Get(s, d.value).pipe == Some(c)
            && Get(s, c).raw && Get(s, d.value).raw && !Get(s, c).role.Control? && !Get(s, d.value).role.Control?
            && Next(p, s, Pipes(c, bytes)) == s.(out := s.out + [Piped(c, d.value, bytes)])
  {
    var d := Get(s, c).pipe.value;
    assert PipeOk(s.conns, c, s.conns[c]) && Shape(s.conns[c]) && Shape(s.conns[d]);
  }
}

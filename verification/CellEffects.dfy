/**
 * What one message, chunk or event can do to the tables of a cell: its connection changes in itself or
 * goes down, or takes over a registration, or turns a pending bridge into a bridge; and everything else
 * stays as it was.
 */
module CellEffects {
  import opened Bytes
  import opened Symbols
  import opened Messages
  import opened HostProofs
  import opened Cells
  import opened CellSafety

  // ---- What one teardown can touch --------------------------------------------------------------

  /** The same connection but for what a teardown changes. */
  predicate Worn(k: Conn, k': Conn) {
    k' == k.(closed := k'.closed, bridge := k'.bridge, dataKey := k'.dataKey) && (k.closed ==> k'.closed)
  }

  /** Every connection but `c` is as it was, perhaps closed and unlinked from its bridge. */
  ghost predicate OthersWear(conns: map<ConnId, Conn>, conns': map<ConnId, Conn>, c: ConnId) {
    forall d: ConnId | d != c :: Worn(At(conns, d), At(conns', d)) && At(conns', d).dataKey == At(conns, d).dataKey
  }

  ghost predicate Released(s: Cell, t: Cell, timer: nat) {
    exists i :: i in s.pending && i !in t.pending && s.pending[i].timer == timer
  }

  /** No table gained anything, only `c` lost entries, and a pending bridge went exactly when its timer did. */
  ghost predicate TablesShrink(s: Cell, t: Cell, c: ConnId) {
    && t == s.(conns := t.conns, hosts := t.hosts, pending := t.pending, timers := t.timers, bridges := t.bridges,
               out := t.out)
    && t.bridges <= s.bridges
    && (forall h | h in t.hosts :: h in s.hosts && t.hosts[h] == s.hosts[h])
    && (forall h | h in s.hosts && s.hosts[h] != c :: h in t.hosts)
    && (forall i | i in t.pending :: i in s.pending && t.pending[i] == s.pending[i])
    && (forall i | i in s.pending && s.pending[i].controller != c :: i in t.pending)
    && (forall i | i in s.pending && i !in t.pending :: s.pending[i].timer !in t.timers)
    && (forall i | i in t.timers :: i in s.timers && t.timers[i] == s.timers[i])
    && (forall i | i in s.timers && i !in t.timers :: Released(s, t, i))
  }

  /** No challenge or data key was made up. */
  predicate Meek(k: Conn, k': Conn) {
    && (k'.dataKey.Some? ==> k'.dataKey == k.dataKey && k'.hostStaticPub == k.hostStaticPub)
    && (k'.challenge.Some? ==> k'.challenge == k.challenge)
  }

  /** Whoever is challenged is the same host with the same key, and no more open than before. */
  predicate Steady(k: Conn, k': Conn) {
    k'.challenge.Some? ==> k'.hostId == k.hostId && k'.hostStaticPub == k.hostStaticPub && (k.closed ==> k'.closed)
  }

  /** The tickets of the conn-opens written, in order. */
  function Opens(out: seq<Out>): seq<Ticket>
    decreases |out|
  {
    if out == [] then []
    else
      var before, last := Opens(out[..|out| - 1]), out[|out| - 1];
      if last.Sent? && last.message.ConnOpen? then before + [last.message.ticket] else before
  }

  lemma OpensSnoc(out: seq<Out>, o: Out)
    ensures Opens(out + [o]) == if o.Sent? && o.message.ConnOpen? then Opens(out) + [o.message.ticket] else Opens(out)
  {
    assert (out + [o])[..|out|] == out;
  }

  /** More was written, but no conn-open. */
  predicate Speaks(out: seq<Out>, out': seq<Out>) {
    (forall o | o in out :: o in out') && Opens(out') == Opens(out)
  }

  /** One connection went down, or changed in itself. */
  ghost predicate Quiet(s: Cell, t: Cell, c: ConnId) {
    && TablesShrink(s, t, c) && OthersWear(s.conns, t.conns, c) && Speaks(s.out, t.out)
    && Meek(Get(s, c), Get(t, c)) && Steady(Get(s, c), Get(t, c))
  }

  lemma QuietTwice(s: Cell, t: Cell, u: Cell, c: ConnId)
    requires Quiet(s, t, c) && Quiet(t, u, c)
    ensures Quiet(s, u, c)
  {
    forall d: ConnId | d != c ensures Worn(At(s.conns, d), At(u.conns, d))
        && At(u.conns, d).dataKey == At(s.conns, d).dataKey {
      assert Worn(At(s.conns, d), At(t.conns, d)) && Worn(At(t.conns, d), At(u.conns, d));
    }
    forall i | i in s.timers && i !in u.timers ensures Released(s, u, i) {
      if i in t.timers {
        assert Released(t, u, i);
      } else {
        assert Released(s, t, i);
      }
    }
  }

  lemma PutIsQuiet(s: Cell, c: ConnId, k: Conn)
    requires Meek(Get(s, c), k) && Steady(Get(s, c), k)
    ensures Quiet(s, Put(s, c, k), c)
  {
  }

  lemma NothingIsQuiet(s: Cell, c: ConnId)
    ensures Quiet(s, s, c)
  {
  }

  lemma WriteIsQuiet(s: Cell, c: ConnId, out: seq<Out>)
    requires Speaks(s.out, out)
    ensures Quiet(s, s.(out := out), c)
  {
  }

  lemma SendSpeaks(s: Cell, c: ConnId, message: OuterMessage)
    requires !message.ConnOpen?
    ensures var t := SendTo(s, c, message); t == s.(out := t.out) && Speaks(s.out, t.out)
  {
    OpensSnoc(s.out, Sent(c, message));
  }

  lemma SendIsQuiet(s: Cell, c: ConnId, message: OuterMessage, d: ConnId)
    requires !message.ConnOpen?
    ensures Quiet(s, SendTo(s, d, message), c)
  {
    SendSpeaks(s, d, message);
    WriteIsQuiet(s, c, SendTo(s, d, message).out);
  }

  lemma DropHostIsQuiet(s: Cell, c: ConnId)
    ensures Quiet(s, DropHost(s, c), c)
  {
  }

  lemma DropPendingIsQuiet(s: Cell, c: ConnId)
    ensures Quiet(s, DropPending(s, c), c)
  {
    var t := DropPending(s, c);
    forall i | i in s.timers && i !in t.timers ensures Released(s, t, i) {
      var k := Get(s, c).ticket.value;
      assert k in s.pending && k !in t.pending && s.pending[k].timer == i;
    }
  }

  lemma DropBridgeIsQuiet(s: Cell, c: ConnId)
    ensures Quiet(s, DropBridge(s, c), c)
  {
    match Get(s, c).bridge
    case None => NothingIsQuiet(s, c);
    case Some(b) =>
      if b in s.bridges {
        var peer := Peer(b, c);
        UnlinkIsQuiet(s.(bridges := s.bridges - {b}), c, peer);
        FewerBridges(s, c, s.bridges - {b});
        QuietTwice(s, s.(bridges := s.bridges - {b}), DropBridge(s, c), c);
      } else {
        NothingIsQuiet(s, c);
      }
  }

  lemma FewerBridges(s: Cell, c: ConnId, bridges: set<Bridge>)
    requires bridges <= s.bridges
    ensures Quiet(s, s.(bridges := bridges), c)
  {
  }

  lemma UnlinkIsQuiet(s: Cell, c: ConnId, peer: ConnId)
    ensures Quiet(s, Put(s, peer, Get(s, peer).(bridge := None, closed := true)), c)
  {
  }

  lemma DetachIsQuiet(s: Cell, c: ConnId)
    ensures Quiet(s, Detach(s, c), c)
  {
    DetachIsPut(s, c);
    var s1 := DropHost(s, c);
    var s2 := DropPending(s1, c);
    var s3 := DropBridge(s2, c);
    DropHostIsQuiet(s, c);
    DropPendingIsQuiet(s1, c);
    QuietTwice(s, s1, s2, c);
    DropBridgeIsQuiet(s2, c);
    QuietTwice(s, s2, s3, c);
    PutIsQuiet(s3, c, Down(Get(s3, c)));
    QuietTwice(s, s3, Detach(s, c), c);
  }

  lemma RefuseIsQuiet(s: Cell, c: ConnId, code: CloseCode)
    ensures Quiet(s, Refuse(s, c, code), c)
  {
    var t := SendTo(s, c, Close(code));
    SendIsQuiet(s, c, Close(code), c);
    DetachIsQuiet(t, c);
    QuietTwice(s, t, Refuse(s, c, code), c);
  }

  lemma PutRefuseIsQuiet(s: Cell, c: ConnId, k: Conn, code: CloseCode)
    requires Meek(Get(s, c), k) && Steady(Get(s, c), k)
    ensures Quiet(s, Refuse(Put(s, c, k), c, code), c)
    ensures Get(Refuse(Put(s, c, k), c, code), c) == Down(k)
  {
    PutIsQuiet(s, c, k);
    RefuseIsQuiet(Put(s, c, k), c, code);
    QuietTwice(s, Put(s, c, k), Refuse(Put(s, c, k), c, code), c);
    RefuseSelf(Put(s, c, k), c, code);
  }

  // ---- What one message can do ------------------------------------------------------------------

  /** The message answers the connection's challenge for its host id and that host's key. */
  predicate Registers(p: Params, s: Cell, c: ConnId, message: OuterMessage) {
    var k := Get(s, c);
    && k.role.ControlPending? && message.HostProof? && k.challenge.Some? && k.hostId.Some? && k.hostStaticPub.Some?
    && VerifyProof(p.lowOrder, k.challenge.value, k.hostId.value, k.hostStaticPub.value, message.mac)
  }

  /** The message is a host dial that proves the data key its pending bridge asks for. */
  predicate Splices(p: Params, s: Cell, c: ConnId, message: OuterMessage) {
    && Get(s, c).role.Unclassified? && message.DataAuth? && message.role.Host?
    && Authentic(p, s, message.ticket, message.dialMac)
  }

  /** Past its first message, and with no challenge to answer. */
  predicate Settled(k: Conn) {
    !k.role.Unclassified? && k.challenge.None?
  }

  /** Any other message changes its own connection or brings it down. */
  lemma DispatchIsQuiet(p: Params, s: Cell, c: ConnId, message: OuterMessage)
    requires Shape(Get(s, c)) && !Registers(p, s, c, message) && !Splices(p, s, c, message)
    ensures Quiet(s, Dispatch(p, s, c, message), c)
    ensures Settled(Get(Dispatch(p, s, c, message), c)) || Get(Dispatch(p, s, c, message), c) == Down(Get(s, c))
    ensures !Get(s, c).role.Unclassified? ==> Settled(Get(Dispatch(p, s, c, message), c))
  {
    match Get(s, c).role
    case Unclassified => ClassifyIsQuiet(p, s, c, message);
    case ControlPending => FailedProofIsQuiet(p, s, c, message);
    case _ =>
      RefuseIsQuiet(s, c, ProtocolError);
      RefuseSelf(s, c, ProtocolError);
      DetachIsQuiet(s, c);
      DetachSelf(s, c);
  }

  lemma FailedProofIsQuiet(p: Params, s: Cell, c: ConnId, message: OuterMessage)
    requires Shape(Get(s, c)) && Get(s, c).role.ControlPending? && !Registers(p, s, c, message)
    ensures Quiet(s, OnProof(p, s, c, message), c) && Settled(Get(OnProof(p, s, c, message), c))
  {
    var k := Get(s, c);
    PutRefuseIsQuiet(s, c, k.(challenge := None), ProtocolError);
    PutRefuseIsQuiet(s, c, k.(challenge := None), ProofFailed);
    RefuseIsQuiet(s, c, ProtocolError);
    RefuseSelf(s, c, ProtocolError);
  }

  lemma ClassifyIsQuiet(p: Params, s: Cell, c: ConnId, message: OuterMessage)
    requires Shape(Get(s, c)) && Get(s, c).role.Unclassified? && !Splices(p, s, c, message)
    ensures Quiet(s, Classify(p, s, c, message), c)
    ensures Settled(Get(Classify(p, s, c, message), c)) || Get(Classify(p, s, c, message), c) == Down(Get(s, c))
  {
    if message.HostHello? {
      PutIsQuiet(s, c, Get(s, c).(role := ControlPending, awaiting := Some(ForHostKey(message.hostId))));
    } else if !message.DataAuth? {
      RefuseIsQuiet(s, c, ProtocolError);
      RefuseSelf(s, c, ProtocolError);
    } else if message.role.Controller? {
      ControllerIsQuiet(p, s, c, message);
    } else {
      FailedDialIsQuiet(p, s, c, message.ticket, message.dialMac);
    }
  }

  lemma ControllerIsQuiet(p: Params, s: Cell, c: ConnId, message: OuterMessage)
    requires Shape(Get(s, c)) && Get(s, c).role.Unclassified? && message.DataAuth? && message.role.Controller?
    ensures Quiet(s, Classify(p, s, c, message), c) && Settled(Get(Classify(p, s, c, message), c))
  {
    var k := Get(s, c);
    PutIsQuiet(s, c, k.(role := ControllerData, awaiting := Some(ForTicket(message.ticket))));
    PutRefuseIsQuiet(s, c, k.(role := ControllerData), Drained);
  }

  lemma FailedDialIsQuiet(p: Params, s: Cell, c: ConnId, ticket: Ticket, mac: Option<Mac>)
    requires Shape(Get(s, c)) && Get(s, c).role.Unclassified? && !Authentic(p, s, ticket, mac)
    ensures var t := CompleteHostDial(p, Put(s, c, Get(s, c).(role := HostData)), c, ticket, mac);
            Quiet(s, t, c) && Settled(Get(t, c))
  {
    var k := Get(s, c).(role := HostData);
    PutRefuseIsQuiet(s, c, k, BadTicket);
    PutRefuseIsQuiet(s, c, k, DataAuthFailed);
    AuthenticStays(p, s, Put(s, c, k), ticket, mac);
  }

  /** Whether a dial is authentic hangs on the tables and the data keys alone. */
  lemma AuthenticStays(p: Params, s: Cell, t: Cell, ticket: Ticket, mac: Option<Mac>)
    requires t.hosts == s.hosts && t.pending == s.pending
    requires forall h | h in s.hosts :: Get(t, s.hosts[h]).dataKey == Get(s, s.hosts[h]).dataKey
    ensures Authentic(p, t, ticket, mac) <==> Authentic(p, s, ticket, mac)
  {
  }

  // ---- What one chunk can do --------------------------------------------------------------------

  /** A settled connection only ever goes down. */
  lemma {:induction false} SettledIsQuiet(p: Params, s: Cell, c: ConnId, messages: seq<OuterMessage>, bad: bool)
    requires Tables(s) && Mid(s, c) && Settled(Get(s, c))
    ensures Quiet(s, DispatchAll(p, s, c, messages, bad), c)
    decreases |messages|
  {
    NothingIsQuiet(s, c);
    if !Get(s, c).raw {
      if messages == [] {
        RefuseIsQuiet(s, c, ProtocolError);
      } else {
        var t := Dispatch(p, s, c, messages[0]);
        assert Shape(Get(s, c)) by { if c in s.conns { assert Shape(s.conns[c]); } }
        DispatchIsQuiet(p, s, c, messages[0]);
        DispatchKeeps(p, s, c, messages[0]);
        SettledIsQuiet(p, t, c, messages[1..], bad);
        QuietTwice(s, t, DispatchAll(p, s, c, messages, bad), c);
      }
    }
  }

  /** What a verified proof does: the connection takes over the host's registration, with the key it proved. */
  ghost predicate Registering(p: Params, s: Cell, t: Cell, c: ConnId) {
    var k := Get(s, c);
    && k.challenge.Some? && k.hostId.Some? && k.hostStaticPub.Some?
    && t == s.(conns := t.conns, hosts := s.hosts[k.hostId.value := c], out := t.out)
    && Get(t, c).dataKey == CellDataAuthKey(p.lowOrder, k.challenge.value, k.hostStaticPub.value)
    && Get(t, c).hostStaticPub == k.hostStaticPub && Get(t, c).challenge == None
    && OthersWear(s.conns, t.conns, c) && Speaks(s.out, t.out)
  }

  /** No secret changed. */
  predicate SameSecrets(k: Conn, k': Conn) {
    k'.dataKey == k.dataKey && k'.challenge == k.challenge && k'.hostStaticPub == k.hostStaticPub
  }

  /** What a proven dial does: its pending bridge and that one's timer give way to the bridge. */
  ghost predicate Bridging(s: Cell, t: Cell, c: ConnId, message: OuterMessage) {
    && message.DataAuth? && message.ticket in s.pending
    && var q := s.pending[message.ticket];
       var b := Bridge(message.ticket, q.controller, c);
       && t == s.(conns := t.conns, pending := s.pending - {message.ticket}, timers := s.timers - {q.timer},
                  bridges := t.bridges, out := t.out)
       && b in t.bridges && t.bridges <= s.bridges + {b}
       && (forall d: ConnId :: SameSecrets(Get(s, d), Get(t, d))) && Speaks(s.out, t.out)
  }

  datatype Effect =
    | Torn                            // the connection changed in itself or went down
    | Registered(after: Cell)         // it registered with the first message; `after` that
    | Joins(i: nat)                   // it was spliced by message `i`

  /** `t` is `s` as far as any dial can tell, and `c` is not yet more than refused. */
  ghost predicate StillNew(s: Cell, t: Cell, c: ConnId) {
    && Quiet(s, t, c) && t.hosts == s.hosts && t.pending == s.pending && t.timers == s.timers
    && Tables(t) && Get(t, c).role.Unclassified? && Shape(Get(t, c))
  }

  ghost predicate Effects(p: Params, s: Cell, c: ConnId, messages: seq<OuterMessage>, t: Cell, effect: Effect) {
    match effect
    case Torn => Quiet(s, t, c)
    case Registered(after) =>
      messages != [] && Registers(p, s, c, messages[0]) && Registering(p, s, after, c) && Tables(after)
      && Quiet(after, t, c)
    case Joins(i) =>
      i < |messages| && Splices(p, s, c, messages[i]) && Bridging(s, t, c, messages[i])
  }

  /** A message that leaves the connection unclassified leaves the tables alone. */
  lemma RefusedStaysNew(p: Params, s: Cell, c: ConnId, message: OuterMessage)
    requires Tables(s) && Get(s, c).role.Unclassified? && !Splices(p, s, c, message)
    ensures var t := Dispatch(p, s, c, message);
            Tables(t) && Mid(t, c) && Quiet(s, t, c) && (Settled(Get(t, c)) || StillNew(s, t, c))
  {
    var t := Dispatch(p, s, c, message);
    EarlyIsLoose(s, c);
    DispatchIsQuiet(p, s, c, message);
    DispatchKeeps(p, s, c, message);
    if !Settled(Get(t, c)) {
      LooseIsUntouched(s, t, c);
    }
  }

  /** A connection in no table has nothing to lose. */
  lemma LooseIsUntouched(s: Cell, t: Cell, c: ConnId)
    requires Loose(s, c) && Quiet(s, t, c)
    ensures t.hosts == s.hosts && t.pending == s.pending && t.timers == s.timers
  {
    assert forall i | i in s.pending :: i in t.pending;
    forall i | i in s.timers ensures i in t.timers {
      assert i !in t.timers ==> Released(s, t, i);
    }
    assert t.timers.Keys == s.timers.Keys && t.hosts.Keys == s.hosts.Keys && t.pending.Keys == s.pending.Keys;
  }

  /** The connections once `c` has replaced the host's previous one. */
  function Superseding(s: Cell, c: ConnId, h: HostId, dataKey: Option<seq<Sym>>): map<ConnId, Conn> {
    var before := if h in s.hosts && s.hosts[h] != c
        then s.conns[s.hosts[h] := Get(s, s.hosts[h]).(closed := true)] else s.conns;
    before[c := Get(s, c).(dataKey := dataKey, role := Control)]
  }

  lemma RegisterIs(s: Cell, c: ConnId, h: HostId, dataKey: Option<seq<Sym>>)
    ensures Register(s, c, h, dataKey)
            == SendTo(s.(conns := Superseding(s, c, h, dataKey), hosts := s.hosts[h := c]), c, HostRegistered(h))
  {
  }

  lemma RegisterTables(s: Cell, c: ConnId, h: HostId, dataKey: Option<seq<Sym>>)
    ensures var t := Register(s, c, h, dataKey);
            && t == s.(conns := t.conns, hosts := s.hosts[h := c], out := t.out)
            && Get(t, c) == Get(s, c).(dataKey := dataKey, role := Control)
            && OthersWear(s.conns, t.conns, c) && Speaks(s.out, t.out)
  {
    RegisterIs(s, c, h, dataKey);
    SendSpeaks(s.(conns := Superseding(s, c, h, dataKey), hosts := s.hosts[h := c]), c, HostRegistered(h));
    SupersedeWears(s.conns, c, if h in s.hosts then s.hosts[h] else c, Get(s, c).(dataKey := dataKey, role := Control));
  }

  lemma SupersedeWears(conns: map<ConnId, Conn>, c: ConnId, previous: ConnId, k: Conn)
    ensures previous != c ==> OthersWear(conns, conns[previous := At(conns, previous).(closed := true)][c := k], c)
    ensures OthersWear(conns, conns[c := k], c)
  {
  }

  lemma RegisteringNow(p: Params, s: Cell, c: ConnId, message: OuterMessage)
    requires Registers(p, s, c, message)
    ensures Registering(p, s, Dispatch(p, s, c, message), c) && Settled(Get(Dispatch(p, s, c, message), c))
  {
    var k := Get(s, c);
    var m := Put(s, c, k.(challenge := None));
    var key := CellDataAuthKey(p.lowOrder, k.challenge.value, k.hostStaticPub.value);
    assert Dispatch(p, s, c, message) == Register(m, c, k.hostId.value, key);
    RegisterTables(m, c, k.hostId.value, key);
    forall d: ConnId | d != c ensures At(m.conns, d) == At(s.conns, d) {}
  }

  lemma NewIsAuthentic(p: Params, s: Cell, before: Cell, c: ConnId, message: OuterMessage)
    requires Get(s, c).role.Unclassified? && StillNew(s, before, c) && Tables(s)
    ensures Splices(p, before, c, message) <==> Splices(p, s, c, message)
  {
    EarlyIsLoose(s, c);
    forall h | h in s.hosts ensures Get(before, s.hosts[h]).dataKey == Get(s, s.hosts[h]).dataKey {
      assert s.hosts[h] != c;
    }
    if message.DataAuth? {
      AuthenticStays(p, s, before, message.ticket, message.dialMac);
    }
  }

  /** A proven dial is spliced from the state in which its pending bridge is settled. */
  lemma DialingIs(p: Params, s: Cell, c: ConnId, message: OuterMessage)
    requires Splices(p, s, c, message)
    ensures var m := Put(s, c, Get(s, c).(role := HostData));
            && message.ticket in m.pending
            && Dispatch(p, s, c, message) == Splice(Ready(m, c, message.ticket), s.pending[message.ticket].controller,
                                                    c, message.ticket)
  {
    var m := Put(s, c, Get(s, c).(role := HostData));
    AuthenticStays(p, s, m, message.ticket, message.dialMac);
    DialIs(p, m, c, message.ticket, message.dialMac);
    assert Dispatch(p, s, c, message) == CompleteHostDial(p, m, c, message.ticket, message.dialMac);
  }

  lemma BridgingNow(p: Params, s: Cell, c: ConnId, message: OuterMessage)
    requires Splices(p, s, c, message) && Tables(s)
    ensures Bridging(s, Dispatch(p, s, c, message), c, message)
  {
    var m, q := Put(s, c, Get(s, c).(role := HostData)), s.pending[message.ticket];
    DialingIs(p, s, c, message);
    var r := Ready(m, c, message.ticket);
    SpliceTables(r, q.controller, c, message.ticket);
    ReadyKeepsSecrets(s, c, message.ticket);
    var t := Dispatch(p, s, c, message);
    forall d: ConnId ensures SameSecrets(Get(s, d), Get(t, d)) {
      assert SameSecrets(Get(s, d), Get(r, d)) && SameSecrets(Get(r, d), Get(t, d));
    }
  }

  lemma ReadyKeepsSecrets(s: Cell, c: ConnId, ticket: Ticket)
    requires ticket in s.pending
    ensures var r := Ready(Put(s, c, Get(s, c).(role := HostData)), c, ticket);
            forall d: ConnId :: SameSecrets(Get(s, d), Get(r, d))
  {
  }

  lemma SpliceTables(s: Cell, a: ConnId, b: ConnId, ticket: Ticket)
    ensures var t := Splice(s, a, b, ticket);
            && t == s.(conns := t.conns, bridges := s.bridges + {Bridge(ticket, a, b)}, out := t.out)
            && (forall d: ConnId :: SameSecrets(Get(s, d), Get(t, d))) && Speaks(s.out, t.out)
  {
    var bridge := Bridge(ticket, a, b);
    var ka := Get(s, a).(bridge := Some(bridge), pipe := Some(b), raw := true, held := []);
    var kb := At(s.conns[a := ka], b).(bridge := Some(bridge), pipe := Some(a), raw := true);
    var u := s.(bridges := s.bridges + {bridge}, conns := s.conns[a := ka][b := kb]);
    var t := SendTo(SendTo(u, a, DataReady), b, DataReady);
    assert Splice(s, a, b, ticket) == PourHeld(t, a, b, Get(s, a).held);
    LinksKeepSecrets(s.conns, a, b, ka, kb);
    ReadySpeaks(u, a, b);
    PourSpeaks(t, a, b, Get(s, a).held);
  }

  lemma LinksKeepSecrets(conns: map<ConnId, Conn>, a: ConnId, b: ConnId, ka: Conn, kb: Conn)
    requires SameSecrets(At(conns, a), ka) && SameSecrets(At(conns[a := ka], b), kb)
    ensures forall d: ConnId :: SameSecrets(At(conns, d), At(conns[a := ka][b := kb], d))
  {
  }

  lemma ReadySpeaks(s: Cell, a: ConnId, b: ConnId)
    ensures var t := SendTo(SendTo(s, a, DataReady), b, DataReady); t == s.(out := t.out) && Speaks(s.out, t.out)
  {
    SendSpeaks(s, a, DataReady);
    SendSpeaks(SendTo(s, a, DataReady), b, DataReady);
  }

  lemma PourSpeaks(s: Cell, from: ConnId, to: ConnId, bytes: seq<byte>)
    ensures var t := Pour(s, from, to, bytes); t == s.(out := t.out) && Speaks(s.out, t.out)
    ensures var t := PourHeld(s, from, to, bytes); t == s.(out := t.out) && Speaks(s.out, t.out)
  {
    OpensSnoc(s.out, Piped(from, to, bytes));
  }

  /** A bridge that came up after refusals came up from the state before them. */
  lemma BridgingLater(s: Cell, t: Cell, u: Cell, c: ConnId, message: OuterMessage)
    requires Get(s, c).role.Unclassified? && Tables(s) && StillNew(s, t, c) && Bridging(t, u, c, message)
    ensures Bridging(s, u, c, message)
  {
    EarlyIsLoose(s, c);
    forall d: ConnId ensures SameSecrets(Get(s, d), Get(u, d)) {
      assert SameSecrets(Get(t, d), Get(u, d));
      if d == c {
        assert Shape(Get(s, c));
      } else {
        assert Worn(At(s.conns, d), At(t.conns, d));
      }
    }
  }

  lemma SplicedIsRaw(p: Params, s: Cell, c: ConnId, message: OuterMessage)
    requires Splices(p, s, c, message)
    ensures Get(Dispatch(p, s, c, message), c).raw
  {
    var m := Put(s, c, Get(s, c).(role := HostData));
    DialingIs(p, s, c, message);
    SpliceRaw(Ready(m, c, message.ticket), s.pending[message.ticket].controller, c, message.ticket);
  }

  lemma SpliceRaw(s: Cell, a: ConnId, b: ConnId, ticket: Ticket)
    ensures Get(Splice(s, a, b, ticket), b).raw
  {
  }

  /** All a chunk amounts to: its connection changed or went down, or registered a host, or joined a bridge. */
  lemma {:induction false} ChunkEffects(p: Params, s: Cell, c: ConnId, messages: seq<OuterMessage>, bad: bool)
      returns (effect: Effect)
    requires Tables(s) && Mid(s, c)
    ensures Effects(p, s, c, messages, DispatchAll(p, s, c, messages, bad), effect)
    decreases |messages|
  {
    assert Shape(Get(s, c)) by { if c in s.conns { assert Shape(s.conns[c]); } }
    if Settled(Get(s, c)) {
      SettledIsQuiet(p, s, c, messages, bad);
      effect := Torn;
    } else if messages == [] {
      NothingIsQuiet(s, c);
      RefuseIsQuiet(s, c, ProtocolError);
      effect := Torn;
    } else if Get(s, c).role.Unclassified? && !Splices(p, s, c, messages[0]) {
      effect := NewChunkEffects(p, s, c, messages, bad);
    } else {
      effect := FirstEffects(p, s, c, messages, bad);
    }
  }

  /** The first message settles it. */
  lemma FirstEffects(p: Params, s: Cell, c: ConnId, messages: seq<OuterMessage>, bad: bool) returns (effect: Effect)
    requires Tables(s) && Mid(s, c) && Shape(Get(s, c)) && !Settled(Get(s, c)) && messages != []
    requires Get(s, c).role.Unclassified? ==> Splices(p, s, c, messages[0])
    ensures Effects(p, s, c, messages, DispatchAll(p, s, c, messages, bad), effect)
  {
    var t, u := Dispatch(p, s, c, messages[0]), DispatchAll(p, s, c, messages, bad);
    assert u == DispatchAll(p, t, c, messages[1..], bad);
    DispatchKeeps(p, s, c, messages[0]);
    if Splices(p, s, c, messages[0]) {
      SplicedIsRaw(p, s, c, messages[0]);
      BridgingNow(p, s, c, messages[0]);
      assert u == t;
      effect := Joins(0);
    } else if Registers(p, s, c, messages[0]) {
      RegisteringNow(p, s, c, messages[0]);
      SettledIsQuiet(p, t, c, messages[1..], bad);
      effect := Registered(t);
    } else {
      DispatchIsQuiet(p, s, c, messages[0]);
      SettledIsQuiet(p, t, c, messages[1..], bad);
      QuietTwice(s, t, u, c);
      effect := Torn;
    }
  }

  lemma {:induction false} NewChunkEffects(p: Params, s: Cell, c: ConnId, messages: seq<OuterMessage>, bad: bool)
      returns (effect: Effect)
    requires Tables(s) && Mid(s, c) && Get(s, c).role.Unclassified? && Shape(Get(s, c))
    requires messages != [] && !Splices(p, s, c, messages[0])
    ensures Effects(p, s, c, messages, DispatchAll(p, s, c, messages, bad), effect)
    decreases |messages|, 0
  {
    var t := Dispatch(p, s, c, messages[0]);
    RefusedStaysNew(p, s, c, messages[0]);
    if Settled(Get(t, c)) {
      SettledIsQuiet(p, t, c, messages[1..], bad);
      QuietTwice(s, t, DispatchAll(p, s, c, messages, bad), c);
      effect := Torn;
    } else {
      var rest := ChunkEffects(p, t, c, messages[1..], bad);
      effect := Later(p, s, t, c, messages, DispatchAll(p, s, c, messages, bad), rest);
    }
  }

  /** A bridge joined by a later message is joined by a message of the whole chunk. */
  lemma LaterJoins(p: Params, s: Cell, t: Cell, c: ConnId, messages: seq<OuterMessage>, u: Cell, i: nat)
    requires Tables(s) && Get(s, c).role.Unclassified? && StillNew(s, t, c) && messages != []
    requires i < |messages[1..]| && Splices(p, t, c, messages[1..][i]) && Bridging(t, u, c, messages[1..][i])
    ensures Splices(p, s, c, messages[i + 1]) && Bridging(s, u, c, messages[i + 1])
  {
    var message := messages[1..][i];
    assert message == messages[i + 1];
    NewIsAuthentic(p, s, t, c, message);
    BridgingLater(s, t, u, c, message);
  }

  /** Effects after a refusal are effects of the whole chunk. */
  lemma Later(p: Params, s: Cell, t: Cell, c: ConnId, messages: seq<OuterMessage>, u: Cell, rest: Effect)
      returns (effect: Effect)
    requires Tables(s) && Get(s, c).role.Unclassified? && StillNew(s, t, c)
    requires messages != [] && Effects(p, t, c, messages[1..], u, rest)
    ensures Effects(p, s, c, messages, u, effect)
  {
    NewRegistersNot(p, t, c, messages[1..], u, rest);
    if rest.Joins? {
      LaterJoins(p, s, t, c, messages, u, rest.i);
      effect := Joins(rest.i + 1);
    } else {
      QuietTwice(s, t, u, c);
      effect := Torn;
    }
  }

  lemma NewRegistersNot(p: Params, s: Cell, c: ConnId, messages: seq<OuterMessage>, t: Cell, effect: Effect)
    requires Get(s, c).role.Unclassified? && Effects(p, s, c, messages, t, effect)
    ensures effect.Torn? || effect.Joins?
  {
  }

  // ---- What is behind the messages --------------------------------------------------------------

  lemma LeaveIsQuiet(s: Cell, c: ConnId, rest: seq<byte>)
    ensures Quiet(s, Leave(s, c, rest), c)
  {
    var k := Get(s, c);
    if k.pipe.Some? {
      PourSpeaks(s, c, k.pipe.value, rest);
      WriteIsQuiet(s, c, Leave(s, c, rest).out);
    } else {
      PutIsQuiet(s, c, k.(held := rest));
    }
  }

  /** All a step of inbound bytes amounts to, of a connection still framed. */
  lemma StepEffects(p: Params, s: Cell, c: ConnId, messages: seq<OuterMessage>, rest: seq<byte>, bad: bool)
      returns (effect: Effect)
    requires Tables(s) && !Get(s, c).closed && !Get(s, c).raw
    ensures Effects(p, s, c, messages, Chunk(p, s, c, messages, rest, bad), effect)
  {
    var t := DispatchAll(p, s, c, messages, bad);
    effect := ChunkEffects(p, s, c, messages, bad);
    LeaveIsQuiet(t, c, rest);
    match effect
    case Torn => QuietTwice(s, t, Leave(t, c, rest), c);
    case Registered(after) => QuietTwice(after, t, Leave(t, c, rest), c);
    case Joins(i) => LeaveBridging(s, t, c, messages[i], rest);
  }

  lemma LeaveBridging(s: Cell, t: Cell, c: ConnId, message: OuterMessage, rest: seq<byte>)
    requires Bridging(s, t, c, message)
    ensures Bridging(s, Leave(t, c, rest), c, message)
  {
    var u := Leave(t, c, rest);
    LeaveIs(t, c, rest);
    forall d: ConnId ensures SameSecrets(Get(s, d), Get(u, d)) {
      assert SameSecrets(Get(s, d), Get(t, d));
    }
  }

  lemma LeaveIs(s: Cell, c: ConnId, rest: seq<byte>)
    ensures var t := Leave(s, c, rest);
            && t == s.(conns := t.conns, out := t.out) && Speaks(s.out, t.out)
            && forall d: ConnId :: SameSecrets(Get(s, d), Get(t, d))
  {
    if Get(s, c).pipe.Some? {
      PourSpeaks(s, c, Get(s, c).pipe.value, rest);
    }
  }
}

/** One short run of a cell, state by state: a host registers and a controller waits for its dial. */
module CellExamples {
  import opened Bytes
  import opened Symbols
  import opened Messages
  import opened Handshakes
  import opened HostProofs
  import opened Cells
  import opened CellTheorems

  lemma {:induction false} RunConcat(p: Params, s: Cell, a: seq<Event>, b: seq<Event>)
    ensures Run(p, s, a + b) == Run(p, Run(p, s, a), b)
    decreases |a|
  {
    if a == [] {
      assert a + b == b;
    } else {
      assert (a + b)[0] == a[0] && (a + b)[1..] == a[1..] + b;
      RunConcat(p, Next(p, s, a[0]), a[1..], b);
    }
  }

  lemma RunSnoc(p: Params, s: Cell, a: seq<Event>, e: Event)
    ensures Run(p, s, a + [e]) == Next(p, Run(p, s, a), e)
  {
    RunConcat(p, s, a, [e]);
    var t := Run(p, s, a);
    assert Run(p, t, [e]) == Run(p, Next(p, t, e), [e][1..]);
  }

  /** Who registers and who waits, and what the cell drew. */
  datatype Story = Story(host: HostId, key: PublicKey, nonce: Nonce, ephemeral: PublicKey,
                         ticket: Ticket, expiresAt: int, now: int, bridgeNonce: Nonce)

  function TheChallenge(p: Params, x: Story): Challenge {
    Challenge(p.cellId, x.nonce, x.ephemeral)
  }

  function TheProof(p: Params, x: Story): OuterMessage {
    HostProof(ComputeMac(SharedSecret(x.ephemeral, x.key), x.host, TheChallenge(p, x)))
  }

  function TheDataKey(x: Story): seq<Sym> {
    DeriveDataAuthKey(SharedSecret(x.ephemeral, x.key), x.nonce)
  }

  /** One message, all of it and nothing behind it. */
  function Just(c: ConnId, message: OuterMessage): Event {
    Receives(c, [message], [], false)
  }

  /** Connection 0 says hello and is challenged. */
  function Hello(x: Story): seq<Event> {
    [Accepts(0)] + [Just(0, HostHello(x.host))] + [FindsKey(0, Some(x.key), x.nonce, x.ephemeral)]
  }

  /** It proves itself; connection 1 comes with a good ticket. */
  function Wait(p: Params, x: Story): seq<Event> {
    Hello(x) + [Just(0, TheProof(p, x))] + [Accepts(1)] + [Just(1, DataAuth(Controller, x.ticket, None))]
    + [Resolves(1, Some(TicketRecord(x.host, x.expiresAt)), x.now, x.bridgeNonce)]
  }

  function ChallengedConn(p: Params, x: Story): Conn {
    NewConn().(role := ControlPending, hostId := Some(x.host), hostStaticPub := Some(x.key),
               challenge := Some(TheChallenge(p, x)))
  }

  function ControlConn(x: Story): Conn {
    NewConn().(role := Control, hostId := Some(x.host), hostStaticPub := Some(x.key), dataKey := Some(TheDataKey(x)))
  }

  function WaitingConn(x: Story): Conn {
    NewConn().(role := ControllerData, hostId := Some(x.host), ticket := Some(x.ticket))
  }

  function Asking(p: Params, x: Story): Out {
    Sent(0, HostChallenge(p.cellId, x.nonce, x.ephemeral))
  }

  lemma ChallengedRun(p: Params, x: Story)
    ensures Run(p, NewCell(), Hello(x)) == NewCell().(conns := map[0 := ChallengedConn(p, x)], out := [Asking(p, x)])
  {
    var e0, e1, e2 := Accepts(0), Just(0, HostHello(x.host)), FindsKey(0, Some(x.key), x.nonce, x.ephemeral);
    var s1 := NewCell().(conns := map[0 := NewConn()]);
    var s2 := NewCell().(conns := map[0 := NewConn().(role := ControlPending, awaiting := Some(ForHostKey(x.host)))]);
    RunSnoc(p, NewCell(), [], e0);
    assert [] + [e0] == [e0];
    assert Run(p, NewCell(), [e0]) == s1;
    RunSnoc(p, NewCell(), [e0], e1);
    OneMessage(p, s1, 0, HostHello(x.host), []);
    assert Run(p, NewCell(), [e0] + [e1]) == s2;
    RunSnoc(p, NewCell(), [e0] + [e1], e2);
  }

  lemma RegisteredRun(p: Params, x: Story)
    requires !p.lowOrder(x.key)
    ensures Run(p, NewCell(), Hello(x) + [Just(0, TheProof(p, x))])
            == NewCell().(conns := map[0 := ControlConn(x)], hosts := map[x.host := 0],
                          out := [Asking(p, x), Sent(0, HostRegistered(x.host))])
  {
    ChallengedRun(p, x);
    RunSnoc(p, NewCell(), Hello(x), Just(0, TheProof(p, x)));
    var s := Run(p, NewCell(), Hello(x));
    var t := Dispatch(p, s, 0, TheProof(p, x));
    assert t.conns == map[0 := ControlConn(x)] && t.hosts == map[x.host := 0];
    OneMessage(p, s, 0, TheProof(p, x), []);
  }

  /** Then the controller waits, and the host is asked to dial. */
  lemma AwaitedRun(p: Params, x: Story)
    requires !p.lowOrder(x.key) && x.now < x.expiresAt
    ensures Run(p, NewCell(), Wait(p, x))
            == NewCell().(conns := map[0 := ControlConn(x), 1 := WaitingConn(x)], hosts := map[x.host := 0],
                          pending := map[x.ticket := Pending(x.ticket, x.host, 1, 0, x.bridgeNonce)],
                          used := [x.ticket], timers := map[0 := x.ticket], nextTimer := 1,
                          out := [Asking(p, x), Sent(0, HostRegistered(x.host)),
                                  Sent(0, ConnOpen(x.ticket, x.bridgeNonce))])
  {
    var events := Hello(x) + [Just(0, TheProof(p, x))];
    var auth := DataAuth(Controller, x.ticket, None);
    var e4, e5, e6 := Accepts(1), Just(1, auth),
        Resolves(1, Some(TicketRecord(x.host, x.expiresAt)), x.now, x.bridgeNonce);
    RegisteredRun(p, x);
    var s4 := Run(p, NewCell(), events);
    var s5 := s4.(conns := map[0 := ControlConn(x), 1 := NewConn()]);
    var s6 := s4.(conns := map[0 := ControlConn(x),
                               1 := NewConn().(role := ControllerData, awaiting := Some(ForTicket(x.ticket)))]);
    RunSnoc(p, NewCell(), events, e4);
    assert Run(p, NewCell(), events + [e4]) == s5;
    RunSnoc(p, NewCell(), events + [e4], e5);
    OneMessage(p, s5, 1, auth, []);
    assert Run(p, NewCell(), events + [e4] + [e5]) == s6;
    RunSnoc(p, NewCell(), events + [e4] + [e5], e6);
    assert [] + [x.ticket] == [x.ticket];
    assert Newest([x.ticket]) == [x.ticket];
  }
}

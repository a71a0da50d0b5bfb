/** Closing a cell. */
module CellClosing {
  // Who can still register with a cell that has been closed.

  import opened Bytes
  import opened Symbols
  import opened Messages
  import opened Handshakes
  import opened HostProofs
  import opened Cells
  import opened CellSafety
  import opened CellEffects
  import opened CellTheorems
  import opened CellRuns
  import opened CellExamples

  /** An open connection that was challenged for a key the challenge can be answered for. */
  predicate Answerable(p: Params, k: Conn) {
    && !k.closed && k.challenge.Some? && k.hostId.Some? && k.hostStaticPub.Some?
    && Dh(p.lowOrder, k.challenge.value.ephemeral, k.hostStaticPub.value).Some?
  }

  function Answer(p: Params, k: Conn): OuterMessage
    requires Answerable(p, k)
  {
    HostProof(ComputeMac(Dh(p.lowOrder, k.challenge.value.ephemeral, k.hostStaticPub.value).value, k.hostId.value,
                         k.challenge.value))
  }

  /** Closed, with nobody registered, waiting or able to answer a challenge. */
  ghost predicate Over(p: Params, s: Cell) {
    s.closed && s.hosts == map[] && s.pending == map[] && forall c: ConnId :: !Answerable(p, Get(s, c))
  }

  lemma QuietIsOver(p: Params, s: Cell, t: Cell, c: ConnId)
    requires Over(p, s) && Quiet(s, t, c)
    ensures Over(p, t)
  {
    forall d: ConnId ensures !Answerable(p, Get(t, d)) {
      assert !Answerable(p, Get(s, d));
      assert d != c ==> Worn(At(s.conns, d), At(t.conns, d));
    }
    assert t.hosts.Keys == {} && t.pending.Keys == {};
  }

  /** Nothing starts again: a lookup that returns after the close challenges nobody. */
  lemma NextIsOver(p: Params, s: Cell, e: Event)
    requires Tables(s) && Over(p, s)
    ensures Over(p, Next(p, s, e))
  {
    if Plain(s, e) {
      PlainIsQuiet(p, s, e);
      QuietIsOver(p, s, Next(p, s, e), e.c);
    } else if Reads(s, e) {
      ChunkIsOver(p, s, e);
    } else if e.Fires? {
      var t := Next(p, s, e);
      assert forall c: ConnId :: Get(t, c) == Get(s, c) && !Answerable(p, Get(s, c));
    }
  }

  lemma ChunkIsOver(p: Params, s: Cell, e: Event)
    requires Tables(s) && Over(p, s) && Reads(s, e)
    ensures Over(p, Next(p, s, e))
  {
    var effect := StepEffects(p, s, e.c, e.messages, e.rest, e.bad);
    assert !Answerable(p, Get(s, e.c));
    match effect
    case Torn => QuietIsOver(p, s, Next(p, s, e), e.c);
    case _ => assert false;
  }

  lemma {:induction false} RunIsOver(p: Params, s: Cell, events: seq<Event>)
    requires Tables(s) && Over(p, s)
    ensures Over(p, Run(p, s, events))
    decreases |events|
  {
    if events != [] {
      NextKeeps(p, s, events[0]);
      NextIsOver(p, s, events[0]);
      RunIsOver(p, Next(p, s, events[0]), events[1..]);
    }
  }

  /** The close leaves a challenged connection as it is: it is in no table. */
  lemma ClosePassesOver(s: Cell, c: ConnId)
    requires Tables(s) && !s.closed && Get(s, c).challenge.Some?
    ensures Get(CloseCell(s), c) == Get(s, c)
  {
    assert Shape(s.conns[c]);
    EarlyIsLoose(s, c);
  }

  /** Its answer registers it. */
  lemma AnswerRegisters(p: Params, s: Cell, c: ConnId, rest: seq<byte>)
    requires Tables(s) && Answerable(p, Get(s, c))
    ensures Next(p, s, Receives(c, [Answer(p, Get(s, c))], rest, false)).hosts == s.hosts[Get(s, c).hostId.value := c]
  {
    assert Shape(s.conns[c]);
    ProofRegisters(p, s, c, Answer(p, Get(s, c)), rest);
  }

  /**
   * After the close the host table stays empty whatever follows, exactly when no open connection has a
   * challenge outstanding for a usable key at that moment.
   */
  lemma ClosedHostsExact(p: Params, s: Cell)
    requires Tables(s) && !s.closed
    ensures (forall events :: Run(p, s, [Closes] + events).hosts == map[])
            <==> (forall c: ConnId :: !Answerable(p, Get(s, c)))
  {
    if c: ConnId :| Answerable(p, Get(s, c)) {
      AnsweredHolds(p, s, c);
    } else {
      CloseCellKeeps(s);
      forall c: ConnId ensures !Answerable(p, Get(CloseCell(s), c)) {
        assert !Answerable(p, Get(s, c));
      }
      forall events ensures Run(p, s, [Closes] + events).hosts == map[] {
        CloseFirst(p, s, events);
        RunIsOver(p, CloseCell(s), events);
      }
    }
  }

  lemma CloseFirst(p: Params, s: Cell, events: seq<Event>)
    ensures Run(p, s, [Closes] + events) == Run(p, CloseCell(s), events)
  {
    assert ([Closes] + events)[0] == Closes && ([Closes] + events)[1..] == events;
  }

  /** An outstanding challenge answered after the close registers its host. */
  lemma AnsweredHolds(p: Params, s: Cell, c: ConnId)
    requires Tables(s) && !s.closed && Answerable(p, Get(s, c))
    ensures exists events :: Run(p, s, [Closes] + events).hosts != map[]
  {
    var t, e := CloseCell(s), Receives(c, [Answer(p, Get(s, c))], [], false);
    CloseCellKeeps(s);
    ClosePassesOver(s, c);
    AnswerRegisters(p, t, c, []);
    CloseFirst(p, s, [e]);
    assert [e][1..] == [] && Run(p, t, [e]) == Next(p, t, e);
    assert Get(s, c).hostId.value in Run(p, s, [Closes] + [e]).hosts;
  }

  /**
   * From a new cell, whatever the host and its key: challenged, closed, answered, and the closed cell holds the
   * host.
   */
  lemma ClosedCellHoldsHost(p: Params, x: Story)
    requires !p.lowOrder(x.key)
    ensures var s := Run(p, NewCell(), Hello(x) + [Closes] + [Just(0, TheProof(p, x))]);
            s.closed && s.hosts == map[x.host := 0]
  {
    ChallengedRun(p, x);
    CellInvariant(p, Hello(x));
    ClosedThen(p, Hello(x), Just(0, TheProof(p, x)));
    LateProof(p, x, Run(p, NewCell(), Hello(x)));
  }

  lemma ClosedThen(p: Params, events: seq<Event>, e: Event)
    ensures Run(p, NewCell(), events + [Closes] + [e]) == Next(p, CloseCell(Run(p, NewCell(), events)), e)
  {
    RunSnoc(p, NewCell(), events + [Closes], e);
    RunSnoc(p, NewCell(), events, Closes);
    assert Run(p, NewCell(), events + [Closes]) == CloseCell(Run(p, NewCell(), events));
  }

  lemma LateProof(p: Params, x: Story, s: Cell)
    requires !p.lowOrder(x.key) && Tables(s) && !s.closed && Get(s, 0) == ChallengedConn(p, x)
    ensures var t := Next(p, CloseCell(s), Just(0, TheProof(p, x))); t.closed && t.hosts == map[x.host := 0]
  {
    CloseCellKeeps(s);
    ClosePassesOver(s, 0);
    AnswerRegisters(p, CloseCell(s), 0, []);
    StillClosed(p, CloseCell(s), Just(0, TheProof(p, x)));
  }
}

/** Host dials behind a refused message. */
module CellDials {
  // They share a chunk, and the bridge comes up with its host end closed.

  import opened Bytes
  import opened Symbols
  import opened Messages
  import opened Handshakes
  import opened HostProofs
  import opened Cells
  import opened CellSafety
  import opened CellEffects
  import opened CellTheorems
  import opened CellRuns
  import opened CellExamples

  // ---- When the host end is open ----------------------------------------------------------------

  /** A refusal does not unclassify a connection, so a proven dial behind it in its chunk still counts. */
  lemma {:induction false} DialEnds(p: Params, s: Cell, c: ConnId, messages: seq<OuterMessage>, bad: bool, b: Bridge)
    requires Tables(s) && Mid(s, c) && Get(s, c).role.Unclassified?
    requires b in DispatchAll(p, s, c, messages, bad).bridges && b !in s.bridges
    ensures messages != []
    ensures Get(DispatchAll(p, s, c, messages, bad), c).closed <==> Get(s, c).closed || !Splices(p, s, c, messages[0])
    decreases |messages|
  {
    assert Shape(Get(s, c)) by { if c in s.conns { assert Shape(s.conns[c]); } }
    if messages == [] {
      RefuseIsQuiet(s, c, ProtocolError);
      assert false;
    } else {
      var t := Dispatch(p, s, c, messages[0]);
      if Splices(p, s, c, messages[0]) {
        SplicedIsRaw(p, s, c, messages[0]);
        SpliceTells(p, s, c, messages[0]);
      } else {
        DispatchIsQuiet(p, s, c, messages[0]);
        RefusedStaysNew(p, s, c, messages[0]);
        if Settled(Get(t, c)) {
          SettledIsQuiet(p, t, c, messages[1..], bad);
          assert false;
        } else {
          DialEnds(p, t, c, messages[1..], bad, b);
        }
      }
    }
  }

  lemma LeaveSame(s: Cell, c: ConnId, rest: seq<byte>)
    ensures Leave(s, c, rest).bridges == s.bridges && Get(Leave(s, c, rest), c).closed == Get(s, c).closed
  {
    LeaveIs(s, c, rest);
  }

  /** The host end of a new bridge is open exactly when no message of its chunk came before the dial. */
  lemma HostEndOpen(p: Params, s: Cell, e: Event, b: Bridge)
    requires Tables(s) && b in Next(p, s, e).bridges && b !in s.bridges
    ensures e.Receives? && e.c == b.host && e.messages != []
    ensures !Get(Next(p, s, e), b.host).closed <==> Splices(p, s, b.host, e.messages[0])
  {
    SplicesAreProven(p, s, e, b);
    assert Reads(s, e);
    var effect := StepEffects(p, s, e.c, e.messages, e.rest, e.bad);
    assert effect.Joins?;
    var t := DispatchAll(p, s, e.c, e.messages, e.bad);
    LeaveSame(t, e.c, e.rest);
    DialEnds(p, s, e.c, e.messages, e.bad, b);
  }

  /** Any other first message than a hello or a dial is refused, and leaves the connection unclassified. */
  predicate Unexpected(message: OuterMessage) {
    !message.HostHello? && !message.DataAuth?
  }

  /** Refused for it, a new connection is closed, and a dial is as authentic as before. */
  lemma JunkRefused(p: Params, s: Cell, c: ConnId, junk: OuterMessage, ticket: Ticket, mac: Option<Mac>)
    requires Tables(s) && Get(s, c) == NewConn() && Authentic(p, s, ticket, mac) && Unexpected(junk)
    ensures var t := Dispatch(p, s, c, junk);
            Tables(t) && t.pending == s.pending && Get(t, c).closed && !Get(t, c).raw
            && Splices(p, t, c, DataAuth(Host, ticket, mac))
  {
    DispatchIsQuiet(p, s, c, junk);
    RefusedStaysNew(p, s, c, junk);
    RefuseSelf(s, c, ProtocolError);
    NewIsAuthentic(p, s, Dispatch(p, s, c, junk), c, DataAuth(Host, ticket, mac));
  }

  /** Wherever the connection is, a proven dial is spliced and the connection no more open than before. */
  lemma DialSpliced(p: Params, s: Cell, c: ConnId, dial: OuterMessage)
    requires Tables(s) && Splices(p, s, c, dial)
    ensures var t := Dispatch(p, s, c, dial);
            Bridge(dial.ticket, s.pending[dial.ticket].controller, c) in t.bridges
            && Get(t, c).closed == Get(s, c).closed && Get(t, c).raw
  {
    SplicedIsRaw(p, s, c, dial);
    BridgingNow(p, s, c, dial);
    SpliceTells(p, s, c, dial);
  }

  lemma TwoMessages(p: Params, s: Cell, c: ConnId, a: OuterMessage, b: OuterMessage)
    requires !Get(s, c).raw && !Get(Dispatch(p, s, c, a), c).raw
    ensures DispatchAll(p, s, c, [a, b], false) == Dispatch(p, Dispatch(p, s, c, a), c, b)
  {
    var t := Dispatch(p, s, c, a);
    assert [a, b][1..] == [b] && [b][1..] == [];
    assert DispatchAll(p, t, c, [b], false) == DispatchAll(p, Dispatch(p, t, c, b), c, [], false);
  }

  /** In a state in which a dial is authentic, it is also behind an unexpected message on a new connection. */
  lemma RefusedDialSplices(p: Params, s: Cell, c: ConnId, junk: OuterMessage, ticket: Ticket, mac: Option<Mac>,
                           rest: seq<byte>)
    requires Tables(s) && !s.closed && c !in s.conns && Authentic(p, s, ticket, mac) && Unexpected(junk)
    ensures var t := Next(p, Next(p, s, Accepts(c)), Receives(c, [junk, DataAuth(Host, ticket, mac)], rest, false));
            Bridge(ticket, s.pending[ticket].controller, c) in t.bridges && Get(t, c).closed
  {
    var s1, dial := Next(p, s, Accepts(c)), DataAuth(Host, ticket, mac);
    AcceptKeeps(s, c);
    EarlyIsLoose(s, c);
    AuthenticStays(p, s, s1, ticket, mac);
    JunkRefused(p, s1, c, junk, ticket, mac);
    var s2 := Dispatch(p, s1, c, junk);
    DialSpliced(p, s2, c, dial);
    TwoMessages(p, s1, c, junk, dial);
    LeaveSame(Dispatch(p, s2, c, dial), c, rest);
  }

  /** It happens: from a new cell, a drain message and then the host's own dial in one chunk. */
  lemma SomeHostEndIsClosed(p: Params, x: Story)
    requires !p.lowOrder(x.key) && x.now < x.expiresAt
    ensures var dial := DataAuth(Host, x.ticket, Some(DataAuthMac(TheDataKey(x), p.cellId, x.ticket, x.bridgeNonce)));
            var s := Run(p, NewCell(), Wait(p, x) + [Accepts(2)] + [Receives(2, [Drain, dial], [], false)]);
            Bridge(x.ticket, 1, 2) in s.bridges && Get(s, 2).closed && !Get(s, 1).closed
  {
    var mac := Some(DataAuthMac(TheDataKey(x), p.cellId, x.ticket, x.bridgeNonce));
    var e := Receives(2, [Drain, DataAuth(Host, x.ticket, mac)], [], false);
    AwaitedRun(p, x);
    var s := Run(p, NewCell(), Wait(p, x));
    CellInvariant(p, Wait(p, x));
    RunSnoc(p, NewCell(), Wait(p, x), Accepts(2));
    RunSnoc(p, NewCell(), Wait(p, x) + [Accepts(2)], e);
    RefusedDialSplices(p, s, 2, Drain, x.ticket, mac, []);
    CellInvariant(p, Wait(p, x) + [Accepts(2)] + [e]);
    var t := Run(p, NewCell(), Wait(p, x) + [Accepts(2)] + [e]);
    assert BridgeOk(Get(t, 1), Get(t, 2), Bridge(x.ticket, 1, 2));
  }
}

/**
 * How a connection leaves a cell: what is taken out of the tables with it, who is closed beside it, and what it is
 * told when it is refused.
 */
module CellLeaving {
  import opened Bytes
  import opened Symbols
  import opened Messages
  import opened HostProofs
  import opened Cells
  import opened CellSafety
  import opened CellEffects
  import opened CellTheorems

  /** The two ends of one bridge. */
  predicate Mates(bridges: set<Bridge>, c: ConnId, d: ConnId) {
    exists b :: b in bridges && ((b.controller == c && b.host == d) || (b.controller == d && b.host == c))
  }

  predicate WaitsUnder(pending: map<Ticket, Pending>, c: ConnId, timer: nat) {
    exists i :: i in pending && pending[i].controller == c && pending[i].timer == timer
  }

  ghost predicate HostsWithout(hosts: map<HostId, ConnId>, after: map<HostId, ConnId>, c: ConnId) {
    && (forall h :: h in after <==> h in hosts && hosts[h] != c)
    && (forall h | h in after :: after[h] == hosts[h])
  }

  ghost predicate PendingWithout(pending: map<Ticket, Pending>, after: map<Ticket, Pending>, c: ConnId) {
    && (forall i :: i in after <==> i in pending && pending[i].controller != c)
    && (forall i | i in after :: after[i] == pending[i])
  }

  ghost predicate TimersWithout(timers: map<nat, Ticket>, after: map<nat, Ticket>, pending: map<Ticket, Pending>,
                                c: ConnId) {
    && (forall i :: i in after <==> i in timers && !WaitsUnder(pending, c, i))
    && (forall i | i in after :: after[i] == timers[i])
  }

  ghost predicate BridgesWithout(bridges: set<Bridge>, after: set<Bridge>, c: ConnId) {
    forall b :: b in after <==> b in bridges && b.controller != c && b.host != c
  }

  /** `c` is closed and its bridge's other end with it; every other connection is as it was. */
  ghost predicate ClosedWithMate(conns: map<ConnId, Conn>, after: map<ConnId, Conn>, bridges: set<Bridge>, c: ConnId) {
    && At(after, c).closed && At(after, c).bridge.None? && At(after, c).dataKey.None?
    && forall d: ConnId | d != c ::
         At(after, d) == if Mates(bridges, c, d) then At(conns, d).(bridge := None, closed := true) else At(conns, d)
  }

  /** `c` is out of every table, with the timer it waited under and its bridge; no other entry is. */
  ghost predicate Gone(s: Cell, t: Cell, c: ConnId) {
    && HostsWithout(s.hosts, t.hosts, c) && PendingWithout(s.pending, t.pending, c)
    && TimersWithout(s.timers, t.timers, s.pending, c) && BridgesWithout(s.bridges, t.bridges, c)
    && ClosedWithMate(s.conns, t.conns, s.bridges, c)
    && t.used == s.used && t.nextTimer == s.nextTimer && t.draining == s.draining && t.closed == s.closed
  }

  lemma DropHostLaw(s: Cell, c: ConnId)
    requires HostsOk(s)
    ensures var t := DropHost(s, c); t == s.(hosts := t.hosts) && HostsWithout(s.hosts, t.hosts, c)
  {
    forall h | h in s.hosts && s.hosts[h] == c ensures Get(s, c).hostId == Some(h) {
      assert HostOk(Get(s, s.hosts[h]), h);
    }
  }

  lemma DropPendingLaw(s: Cell, c: ConnId)
    requires PendingsOk(s)
    ensures var t := DropPending(s, c);
            && t == s.(pending := t.pending, timers := t.timers)
            && PendingWithout(s.pending, t.pending, c) && TimersWithout(s.timers, t.timers, s.pending, c)
  {
    forall i | i in s.pending && s.pending[i].controller == c ensures Get(s, c).ticket == Some(i) {
      assert PendingOk(Get(s, s.pending[i].controller), s.timers, i, s.pending[i]);
    }
    var t := DropPending(s, c);
    forall i | i in s.timers ensures i in t.timers <==> !WaitsUnder(s.pending, c, i) {
      if Get(s, c).ticket.Some? {
        var k := Get(s, c).ticket.value;
        assert WaitsUnder(s.pending, c, i)
               <==> k in s.pending && s.pending[k].controller == c && s.pending[k].timer == i;
      }
    }
  }

  /** An end of a bridge knows it, and it has one bridge. */
  lemma BridgeOf(s: Cell, c: ConnId, b: Bridge)
    requires BridgesOk(s) && b in s.bridges && (b.controller == c || b.host == c)
    ensures Get(s, c).bridge == Some(b) && b.controller != b.host
  {
    assert BridgeOk(Get(s, b.controller), Get(s, b.host), b);
  }

  /** A connection's bridge is its only one. */
  lemma OnlyMate(s: Cell, c: ConnId, x: Bridge)
    requires BridgesOk(s) && x in s.bridges && (x.controller == c || x.host == c)
    ensures BridgesWithout(s.bridges, s.bridges - {x}, c)
    ensures forall d: ConnId :: Mates(s.bridges, c, d) <==> d == Peer(x, c)
  {
    BridgeOf(s, c, x);
    forall b | b in s.bridges && (b.controller == c || b.host == c) ensures b == x {
      BridgeOf(s, c, b);
    }
  }

  lemma DropBridgeLaw(s: Cell, c: ConnId)
    requires Tables(s) && c in s.conns
    ensures var t := DropBridge(s, c);
            && t == s.(bridges := t.bridges, conns := t.conns) && BridgesWithout(s.bridges, t.bridges, c)
            && (forall d: ConnId | d != c ::
                  Get(t, d)
                  == if Mates(s.bridges, c, d) then Get(s, d).(bridge := None, closed := true) else Get(s, d))
  {
    if Get(s, c).bridge.Some? && Get(s, c).bridge.value in s.bridges {
      var x := Get(s, c).bridge.value;
      assert !s.closed && LinkOk(s.bridges, c, s.conns[c]);
      OnlyMate(s, c, x);
    } else {
      forall b | b in s.bridges ensures b.controller != c && b.host != c {
        if b.controller == c || b.host == c { BridgeOf(s, c, b); }
      }
    }
  }

  lemma DetachLaw(s: Cell, c: ConnId)
    requires Tables(s) && c in s.conns
    ensures Gone(s, Detach(s, c), c) && Detach(s, c).out == s.out
  {
    var s1 := DropHost(s, c);
    var s2 := DropPending(s1, c);
    DropHostLaw(s, c);
    DropHostKeeps(s, c);
    DropPendingLaw(s1, c);
    DropPendingKeeps(s1, c);
    DropBridgeLaw(s2, c);
    DetachIsPut(s, c);
  }

  /** Told why, if it still hears, and gone. */
  ghost predicate Refused(s: Cell, t: Cell, c: ConnId, code: CloseCode) {
    Gone(s, t, c) && t.out == s.out + if Get(s, c).closed then [] else [Sent(c, Close(code))]
  }

  /** What is gone from a state that differs in what is written, or in `c` itself, is gone from this one. */
  lemma GoneFrom(s: Cell, m: Cell, t: Cell, c: ConnId)
    requires Gone(m, t, c) && m == s.(conns := m.conns, out := m.out)
    requires forall d: ConnId | d != c :: At(m.conns, d) == At(s.conns, d)
    ensures Gone(s, t, c)
  {
  }

  lemma RefuseLaw(s: Cell, c: ConnId, code: CloseCode)
    requires Tables(s) && c in s.conns
    ensures Refused(s, Refuse(s, c, code), c, code)
  {
    var t := SendTo(s, c, Close(code));
    SendKeeps(s, c, Close(code));
    SendLaw(s, c, Close(code));
    DetachLaw(t, c);
    GoneFrom(s, t, Detach(t, c), c);
  }

  lemma SendLaw(s: Cell, c: ConnId, message: OuterMessage)
    ensures SendTo(s, c, message) == s.(out := s.out + if Get(s, c).closed then [] else [Sent(c, message)])
  {
    assert s.out + [] == s.out;
  }

  /** A refusal from a state in which only `c` itself has changed. */
  lemma PutRefuseLaw(s: Cell, c: ConnId, k: Conn, code: CloseCode)
    requires Tables(Put(s, c, k)) && k.closed == Get(s, c).closed
    ensures Refused(s, Refuse(Put(s, c, k), c, code), c, code)
  {
    RefuseLaw(Put(s, c, k), c, code);
    GoneFrom(s, Put(s, c, k), Refuse(Put(s, c, k), c, code), c);
  }

  /** What a closed reader holds is nobody's. */
  lemma LeaveGone(s: Cell, t: Cell, c: ConnId, rest: seq<byte>)
    requires Gone(s, t, c) && Get(t, c).pipe.None?
    ensures Gone(s, Leave(t, c, rest), c) && Leave(t, c, rest).out == t.out
  {
  }
}

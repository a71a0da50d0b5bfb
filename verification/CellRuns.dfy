/** Whole runs of a cell. */
module CellRuns {
  // Data keys, used tickets, conn-opens and timers.

  import opened Bytes
  import opened Symbols
  import opened Messages
  import opened HostProofs
  import opened Cells
  import opened CellSafety
  import opened CellEffects
  import opened CellTheorems

  // ---- Secrets ----------------------------------------------------------------------------------

  /** The cell challenged `c` with these values. */
  predicate Asked(p: Params, out: seq<Out>, c: ConnId, nonce: Nonce, ephemeral: PublicKey) {
    Sent(c, HostChallenge(p.cellId, nonce, ephemeral)) in out
  }

  /**
   * The key is the data-leg key of a challenge the cell sent on this very connection, for the key its host is
   * known by.
   */
  ghost predicate KeyOf(p: Params, out: seq<Out>, c: ConnId, k: Conn, key: seq<Sym>) {
    && k.hostStaticPub.Some?
    && exists nonce: Nonce, ephemeral: PublicKey ::
      Asked(p, out, c, nonce, ephemeral)
      && CellDataAuthKey(p.lowOrder, Challenge(p.cellId, nonce, ephemeral), k.hostStaticPub.value) == Some(key)
  }

  ghost predicate SecretsOk(p: Params, out: seq<Out>, c: ConnId, k: Conn) {
    && (k.challenge.Some? ==>
          k.challenge.value.cellId == p.cellId
          && Asked(p, out, c, k.challenge.value.nonce, k.challenge.value.ephemeral))
    && (k.dataKey.Some? ==> KeyOf(p, out, c, k, k.dataKey.value))
  }

  /** No secret but of this cell's own making. */
  ghost predicate Secrets(p: Params, s: Cell) {
    forall c: ConnId :: SecretsOk(p, s.out, c, Get(s, c))
  }

  lemma SecretsStay(p: Params, out: seq<Out>, out': seq<Out>, c: ConnId, k: Conn, k': Conn)
    requires SecretsOk(p, out, c, k) && Meek(k, k') && forall o | o in out :: o in out'
    ensures SecretsOk(p, out', c, k')
  {
    if k'.dataKey.Some? {
      var nonce: Nonce, ephemeral: PublicKey :|
        Asked(p, out, c, nonce, ephemeral)
        && CellDataAuthKey(p.lowOrder, Challenge(p.cellId, nonce, ephemeral), k.hostStaticPub.value) == k.dataKey;
      assert Asked(p, out', c, nonce, ephemeral);
    }
  }

  lemma QuietSecrets(p: Params, s: Cell, t: Cell, c: ConnId)
    requires Secrets(p, s) && Quiet(s, t, c)
    ensures Secrets(p, t)
  {
    forall d: ConnId ensures SecretsOk(p, t.out, d, Get(t, d)) {
      assert d != c ==> Worn(At(s.conns, d), At(t.conns, d));
      SecretsStay(p, s.out, t.out, d, Get(s, d), Get(t, d));
    }
  }

  /** A verified proof turns the connection's challenge into its data key. */
  lemma RegisteringSecrets(p: Params, s: Cell, t: Cell, c: ConnId)
    requires Secrets(p, s) && Registering(p, s, t, c)
    ensures Secrets(p, t)
  {
    forall d: ConnId ensures SecretsOk(p, t.out, d, Get(t, d)) {
      assert SecretsOk(p, s.out, d, Get(s, d));
      if d != c {
        assert Worn(At(s.conns, d), At(t.conns, d));
        SecretsStay(p, s.out, t.out, d, Get(s, d), Get(t, d));
      } else {
        var challenge := Get(s, c).challenge.value;
        assert Asked(p, t.out, c, challenge.nonce, challenge.ephemeral);
      }
    }
  }

  lemma SameSecretsStay(p: Params, s: Cell, t: Cell)
    requires Secrets(p, s) && (forall d: ConnId :: SameSecrets(Get(s, d), Get(t, d))) && forall o | o in s.out ::
               o in t.out
    ensures Secrets(p, t)
  {
    forall d: ConnId ensures SecretsOk(p, t.out, d, Get(t, d)) {
      assert SameSecrets(Get(s, d), Get(t, d));
      SecretsStay(p, s.out, t.out, d, Get(s, d), Get(t, d));
    }
  }

  lemma ChallengingSecrets(p: Params, s: Cell, e: Event)
    requires Tables(s) && Secrets(p, s) && Challenging(s, e)
    ensures Secrets(p, Next(p, s, e))
  {
    ChallengingIs(p, s, e);
    var t := Next(p, s, e);
    forall d: ConnId ensures SecretsOk(p, t.out, d, Get(t, d)) {
      if d != e.c {
        SecretsStay(p, s.out, t.out, d, Get(s, d), Get(t, d));
      } else {
        assert Shape(Get(s, e.c));
        assert Asked(p, t.out, e.c, e.nonce, e.ephemeral);
      }
    }
  }

  lemma FiresSecrets(p: Params, s: Cell, timer: nat)
    requires Secrets(p, s)
    ensures Secrets(p, TimerFired(s, timer))
  {
    if timer in s.timers {
      var t := s.(timers := s.timers - {timer});
      SameSecretsStay(p, s, t);
      if s.timers[timer] in s.pending {
        var u := t.(pending := t.pending - {s.timers[timer]});
        SameSecretsStay(p, s, u);
        RefuseIsQuiet(u, s.pending[s.timers[timer]].controller, BridgeTimeout);
        QuietSecrets(p, u, TimerFired(s, timer), s.pending[s.timers[timer]].controller);
      }
    }
  }

  lemma RegisteredSecrets(p: Params, s: Cell, after: Cell, t: Cell, c: ConnId)
    requires Secrets(p, s) && Registering(p, s, after, c) && Quiet(after, t, c)
    ensures Secrets(p, t)
  {
    RegisteringSecrets(p, s, after, c);
    QuietSecrets(p, after, t, c);
  }

  lemma BridgingSecrets(p: Params, s: Cell, t: Cell, c: ConnId, message: OuterMessage)
    requires Secrets(p, s) && Bridging(s, t, c, message)
    ensures Secrets(p, t)
  {
    SameSecretsStay(p, s, t);
  }

  lemma ChunkSecrets(p: Params, s: Cell, e: Event)
    requires Tables(s) && Secrets(p, s) && Reads(s, e)
    ensures Secrets(p, Next(p, s, e))
  {
    var t := Next(p, s, e);
    var effect := StepEffects(p, s, e.c, e.messages, e.rest, e.bad);
    match effect
    case Torn => QuietSecrets(p, s, t, e.c);
    case Registered(after) => RegisteredSecrets(p, s, after, t, e.c);
    case Joins(i) => BridgingSecrets(p, s, t, e.c, e.messages[i]);
  }

  lemma NextSecrets(p: Params, s: Cell, e: Event)
    requires Tables(s) && Secrets(p, s)
    ensures Secrets(p, Next(p, s, e))
  {
    var t := Next(p, s, e);
    if Plain(s, e) {
      PlainIsQuiet(p, s, e);
      QuietSecrets(p, s, t, e.c);
    } else if e.Receives? {
      if Reads(s, e) { ChunkSecrets(p, s, e); }
    } else if Accepting(s, e) {
      AcceptingSecrets(p, s, e);
    } else if Challenging(s, e) {
      ChallengingSecrets(p, s, e);
    } else if e.Fires? {
      FiresSecrets(p, s, e.timer);
    } else if e.Drains? {
      if Enumerates(e.order, s.hosts.Keys) { DrainSecrets(p, s, e.order); }
    } else if e.Closes? {
      CloseSecrets(p, s);
    }
  }

  lemma AcceptingSecrets(p: Params, s: Cell, e: Event)
    requires Tables(s) && Secrets(p, s) && Accepting(s, e)
    ensures Secrets(p, Next(p, s, e))
  {
    var t := Next(p, s, e);
    AcceptingIs(p, s, e);
    forall d: ConnId ensures SecretsOk(p, t.out, d, Get(t, d)) {
            SecretsStay(p, s.out, t.out, d, Get(s, d), Get(t, d)); }
  }

  lemma DrainSecrets(p: Params, s: Cell, order: seq<HostId>)
    requires Secrets(p, s) && Enumerates(order, s.hosts.Keys)
    ensures Secrets(p, DrainCell(s, order))
  {
    if !s.closed && !s.draining {
      SameSecretsStay(p, s, s.(draining := true));
      SendDrainsIsQuiet(s.(draining := true), order, 0);
      QuietSecrets(p, s.(draining := true), DrainCell(s, order), 0);
    }
  }

  lemma CloseSecrets(p: Params, s: Cell)
    requires Secrets(p, s)
    ensures Secrets(p, CloseCell(s))
  {
    forall d: ConnId ensures SameSecrets(Get(s, d), Get(CloseCell(s), d)) {}
    SameSecretsStay(p, s, CloseCell(s));
  }

  // ---- Used tickets and conn-opens --------------------------------------------------------------

  /** Equal entries are more than `MAX_USED_TICKETS` apart. */
  predicate Spaced(log: seq<Ticket>) {
    forall i, j | 0 <= i < j < |log| && log[i] == log[j] :: j - i > MAX_USED_TICKETS
  }

  /** The used-ticket set is the newest part of the log of conn-opens, which repeats a ticket only far apart. */
  predicate UsedOk(s: Cell) {
    s.used == Newest(Opens(s.out)) && Spaced(Opens(s.out))
  }

  lemma NewestTwice(log: seq<Ticket>, t: Ticket)
    ensures Newest(Newest(log) + [t]) == Newest(log + [t])
  {
  }

  lemma SpacedSnoc(log: seq<Ticket>, t: Ticket)
    requires Spaced(log) && t !in Newest(log)
    ensures Spaced(log + [t])
  {
    var after := log + [t];
    forall i, j | 0 <= i < j < |after| && after[i] == after[j] ensures j - i > MAX_USED_TICKETS {
      if j == |log| {
        var first := if |log| > MAX_USED_TICKETS then |log| - MAX_USED_TICKETS else 0;
        assert forall k | first <= k < |log| :: log[k] == Newest(log)[k - first];
      }
    }
  }

  /** A step that accepts nothing opens nothing. */
  lemma OnlyAcceptingOpens(p: Params, s: Cell, e: Event)
    requires Tables(s)
    ensures var t := Next(p, s, e);
            if Accepting(s, e) then
              && Opens(t.out) == Opens(s.out) + [AcceptedTicket(s, e)]
                 && t.used == Newest(s.used + [AcceptedTicket(s, e)])
              && AcceptedTicket(s, e) !in s.used
            else Opens(t.out) == Opens(s.out) && t.used == s.used
  {
    var t := Next(p, s, e);
    if Plain(s, e) {
      PlainIsQuiet(p, s, e);
    } else if e.Receives? {
      if Reads(s, e) { ChunkOpens(p, s, e); }
    } else if Accepting(s, e) {
      AcceptingIs(p, s, e);
      OpensSnoc(s.out, t.out[|s.out|]);
    } else if Challenging(s, e) {
      ChallengingIs(p, s, e);
    } else if e.Fires? {
      FiresOpens(s, e.timer);
    } else if e.Drains? && Enumerates(e.order, s.hosts.Keys) && !s.closed && !s.draining {
      SendDrainsIsQuiet(s.(draining := true), e.order, 0);
    }
  }

  lemma ChunkOpens(p: Params, s: Cell, e: Event)
    requires Tables(s) && Reads(s, e)
    ensures Opens(Next(p, s, e).out) == Opens(s.out) && Next(p, s, e).used == s.used
  {
    var effect := StepEffects(p, s, e.c, e.messages, e.rest, e.bad);
  }

  lemma FiresOpens(s: Cell, timer: nat)
    ensures Opens(TimerFired(s, timer).out) == Opens(s.out) && TimerFired(s, timer).used == s.used
  {
    if timer in s.timers && s.timers[timer] in s.pending {
      var ticket := s.timers[timer];
      RefuseIsQuiet(s.(timers := s.timers - {timer}, pending := s.pending - {ticket}), s.pending[ticket].controller,
                    BridgeTimeout);
    }
  }

  lemma NextUsed(p: Params, s: Cell, e: Event)
    requires Tables(s) && UsedOk(s)
    ensures UsedOk(Next(p, s, e))
  {
    OnlyAcceptingOpens(p, s, e);
    if Accepting(s, e) {
      NewestTwice(Opens(s.out), AcceptedTicket(s, e));
      SpacedSnoc(Opens(s.out), AcceptedTicket(s, e));
    }
  }

  // ---- Every reachable state --------------------------------------------------------------------

  ghost predicate Inv(p: Params, s: Cell) {
    Tables(s) && Secrets(p, s) && UsedOk(s)
  }

  lemma {:induction false} RunKeeps(p: Params, s: Cell, events: seq<Event>)
    requires Inv(p, s)
    ensures Inv(p, Run(p, s, events))
    decreases |events|
  {
    if events != [] {
      NextKeeps(p, s, events[0]);
      NextSecrets(p, s, events[0]);
      NextUsed(p, s, events[0]);
      RunKeeps(p, Next(p, s, events[0]), events[1..]);
    }
  }

  /** The invariant of the cell, over every run from its creation. */
  lemma CellInvariant(p: Params, events: seq<Event>)
    ensures Inv(p, Run(p, NewCell(), events))
  {
    RunKeeps(p, NewCell(), events);
  }

  /** No connection is in two bridges, nor in one twice, nor both bridged and waiting. */
  lemma OneBridgeEach(s: Cell, b: Bridge, b': Bridge)
    requires Tables(s) && b in s.bridges && b' in s.bridges
    ensures b.controller != b.host
    ensures {b.controller, b.host} !! {b'.controller, b'.host} || b == b'
    ensures forall t | t in s.pending :: s.pending[t].controller != b.controller && s.pending[t].controller != b.host
  {
    assert BridgeOk(Get(s, b.controller), Get(s, b.host), b) && BridgeOk(Get(s, b'.controller), Get(s, b'.host), b');
    forall t | t in s.pending ensures s.pending[t].controller != b.controller && s.pending[t].controller != b.host {
      assert PendingOk(Get(s, s.pending[t].controller), s.timers, t, s.pending[t]);
    }
  }

  // ---- Resolutions ------------------------------------------------------------------------------

  /** The tickets that lookups resolved in a run, in order. */
  function Resolved(p: Params, s: Cell, events: seq<Event>): seq<Ticket>
    decreases |events|
  {
    if events == [] then []
    else
      var e := events[0];
      var rest := Resolved(p, Next(p, s, e), events[1..]);
      if e.Resolves? && e.record.Some? && Get(s, e.c).awaiting.Some? && Get(s, e.c).awaiting.value.ForTicket?
      then [Get(s, e.c).awaiting.value.ticket] + rest else rest
  }

  /** Every conn-open is paid for by a successful resolution of its own ticket. */
  lemma {:induction false} OpensArePaid(p: Params, s: Cell, events: seq<Event>)
    requires Tables(s)
    ensures multiset(Opens(Run(p, s, events).out)) <= multiset(Opens(s.out)) + multiset(Resolved(p, s, events))
    decreases |events|
  {
    if events != [] {
      var e, t := events[0], Next(p, s, events[0]);
      NextKeeps(p, s, e);
      OnlyAcceptingOpens(p, s, e);
      OpensArePaid(p, t, events[1..]);
    }
  }

  /** A conn-open goes to the registered host of an unexpired record, for a ticket not used lately. */
  lemma OpensInTime(p: Params, s: Cell, e: Event)
    requires Tables(s) && Opens(Next(p, s, e).out) != Opens(s.out)
    ensures e.Resolves? && e.record.Some? && e.now < e.record.value.expiresAt && e.record.value.hostId in s.hosts
            && !s.closed
    ensures Get(s, e.c).awaiting.Some? && Get(s, e.c).awaiting.value.ForTicket?
            && Get(s, e.c).awaiting.value.ticket !in s.used
    ensures Next(p, s, e).out == s.out
              + [Sent(s.hosts[e.record.value.hostId], ConnOpen(Get(s, e.c).awaiting.value.ticket, e.bridgeNonce))]
  {
    OnlyAcceptingOpens(p, s, e);
    if Accepting(s, e) {
      AcceptingIs(p, s, e);
    }
  }

  // ---- Timers -----------------------------------------------------------------------------------

  /** Every live timer is a pending bridge's own; the tables say that every pending bridge has one. */
  predicate TimersMatch(s: Cell) {
    forall i | i in s.timers :: s.timers[i] in s.pending && s.pending[s.timers[i]].timer == i
  }

  /** The step accepts a ticket that is still pending. */
  predicate Reaccepts(s: Cell, e: Event) {
    Accepting(s, e) && AcceptedTicket(s, e) in s.pending
  }

  lemma QuietTimers(s: Cell, t: Cell, c: ConnId)
    requires TimersMatch(s) && Quiet(s, t, c)
    ensures TimersMatch(t)
  {
  }

  lemma FiresTimers(s: Cell, timer: nat)
    requires TimersMatch(s)
    ensures TimersMatch(TimerFired(s, timer))
  {
    if timer in s.timers {
      var ticket := s.timers[timer];
      var t := s.(timers := s.timers - {timer}, pending := s.pending - {ticket});
      assert TimersMatch(t);
      RefuseIsQuiet(t, s.pending[ticket].controller, BridgeTimeout);
      QuietTimers(t, TimerFired(s, timer), s.pending[ticket].controller);
    }
  }

  lemma BridgingTimers(s: Cell, t: Cell, c: ConnId, message: OuterMessage)
    requires TimersMatch(s) && Bridging(s, t, c, message)
    ensures TimersMatch(t)
  {
  }

  lemma ChunkTimers(p: Params, s: Cell, e: Event)
    requires Tables(s) && TimersMatch(s) && Reads(s, e)
    ensures TimersMatch(Next(p, s, e))
  {
    var t := Next(p, s, e);
    var effect := StepEffects(p, s, e.c, e.messages, e.rest, e.bad);
    EffectTimers(p, s, e.c, e.messages, t, effect);
  }

  lemma EffectTimers(p: Params, s: Cell, c: ConnId, messages: seq<OuterMessage>, t: Cell, effect: Effect)
    requires Tables(s) && TimersMatch(s) && Effects(p, s, c, messages, t, effect)
    ensures TimersMatch(t)
  {
    match effect
    case Torn => QuietTimers(s, t, c);
    case Registered(after) => QuietTimers(after, t, c);
    case Joins(i) => BridgingTimers(s, t, c, messages[i]);
  }

  lemma AcceptingTimers(p: Params, s: Cell, e: Event)
    requires Tables(s) && TimersMatch(s) && Accepting(s, e)
    ensures TimersMatch(Next(p, s, e)) <==> !Reaccepts(s, e)
  {
    AcceptingIs(p, s, e);
    var t, ticket := Next(p, s, e), AcceptedTicket(s, e);
    if ticket in s.pending {
      var q := s.pending[ticket];
      assert PendingOk(Get(s, q.controller), s.timers, ticket, q);
      assert q.timer in t.timers && t.timers[q.timer] == ticket && t.pending[ticket].timer != q.timer;
    }
  }

  /**
   * Live timers and pending bridges stay in one-to-one correspondence exactly as long as no pending ticket is
   * accepted again.
   */
  lemma TimersStayMatched(p: Params, s: Cell, e: Event)
    requires Tables(s) && TimersMatch(s)
    ensures TimersMatch(Next(p, s, e)) <==> !Reaccepts(s, e)
  {
    var t := Next(p, s, e);
    if Plain(s, e) {
      PlainIsQuiet(p, s, e);
      QuietTimers(s, t, e.c);
    } else if e.Receives? {
      if Reads(s, e) { ChunkTimers(p, s, e); }
    } else if Accepting(s, e) {
      AcceptingTimers(p, s, e);
    } else if Challenging(s, e) {
      ChallengingIs(p, s, e);
    } else if e.Fires? {
      FiresTimers(s, e.timer);
    } else if e.Drains? && Enumerates(e.order, s.hosts.Keys) && !s.closed && !s.draining {
      SendDrainsIsQuiet(s.(draining := true), e.order, 0);
      QuietTimers(s.(draining := true), t, 0);
    } else if e.Closes? && !s.closed {
      CloseTimers(s);
    }
  }

  lemma CloseTimers(s: Cell)
    requires TimersMatch(s) && !s.closed
    ensures TimersMatch(CloseCell(s)) && CloseCell(s).timers == map[]
  {
    forall i | i in s.timers ensures i in (set t | t in s.pending :: s.pending[t].timer) {
      assert s.timers[i] in s.pending;
    }
  }

  /** Only opened tickets wait. */
  predicate PendingOpened(s: Cell) {
    forall t | t in s.pending :: t in Opens(s.out)
  }

  lemma NextPendingOpened(p: Params, s: Cell, e: Event)
    requires Tables(s) && PendingOpened(s)
    ensures PendingOpened(Next(p, s, e))
  {
    OnlyAcceptingOpens(p, s, e);
    PendingGrows(p, s, e);
  }

  /** Only an acceptance adds a pending bridge. */
  lemma PendingGrows(p: Params, s: Cell, e: Event)
    requires Tables(s)
    ensures var t := Next(p, s, e);
            forall i | i in t.pending :: i in s.pending || (Accepting(s, e) && i == AcceptedTicket(s, e))
  {
    var t := Next(p, s, e);
    if Plain(s, e) {
      PlainIsQuiet(p, s, e);
    } else if e.Receives? {
      if Reads(s, e) { ChunkPending(p, s, e); }
    } else if Accepting(s, e) {
      AcceptingIs(p, s, e);
    } else if Challenging(s, e) {
      ChallengingIs(p, s, e);
    } else if e.Fires? && e.timer in s.timers && s.timers[e.timer] in s.pending {
      var ticket := s.timers[e.timer];
      RefuseIsQuiet(s.(timers := s.timers - {e.timer}, pending := s.pending - {ticket}), s.pending[ticket].controller,
                    BridgeTimeout);
    } else if e.Drains? && Enumerates(e.order, s.hosts.Keys) && !s.closed && !s.draining {
      SendDrainsIsQuiet(s.(draining := true), e.order, 0);
    }
  }

  lemma ChunkPending(p: Params, s: Cell, e: Event)
    requires Tables(s) && Reads(s, e)
    ensures forall i | i in Next(p, s, e).pending :: i in s.pending
  {
    var effect := StepEffects(p, s, e.c, e.messages, e.rest, e.bad);
  }

  predicate Distinct(log: seq<Ticket>) {
    forall i, j | 0 <= i < j < |log| :: log[i] != log[j]
  }

  /** One resolution fewer to come, and perhaps its ticket opened: what is to come is still new. */
  lemma StillNew(log: seq<Ticket>, rest: seq<Ticket>, before: seq<Ticket>, more: seq<Ticket>)
    requires Distinct(log) && forall t | t in log :: t !in before
    requires (rest == log && more == []) || (log != [] && rest == log[1..] && (more == [] || more == [log[0]]))
    ensures Distinct(rest) && forall t | t in rest :: t !in before + more
  {
    var k := |log| - |rest|;
    forall i, j | 0 <= i < j < |rest| ensures rest[i] != rest[j] {
      assert rest[i] == log[k + i] && rest[j] == log[k + j];
    }
    forall t | t in rest ensures t !in before + more {
      var i :| 0 <= i < |rest| && rest[i] == t;
      assert log[k + i] == t;
    }
  }

  /** With an authorizer that resolves each ticket at most once, timers and pending bridges match throughout. */
  lemma {:induction false} SingleUseTimers(p: Params, s: Cell, events: seq<Event>)
    requires Tables(s) && TimersMatch(s) && PendingOpened(s)
    requires Distinct(Resolved(p, s, events)) && forall t | t in Resolved(p, s, events) :: t !in Opens(s.out)
    ensures TimersMatch(Run(p, s, events))
    decreases |events|
  {
    if events != [] {
      var e, t := events[0], Next(p, s, events[0]);
      var log, rest := Resolved(p, s, events), Resolved(p, t, events[1..]);
      NextKeeps(p, s, e);
      TimersStayMatched(p, s, e);
      NextPendingOpened(p, s, e);
      OnlyAcceptingOpens(p, s, e);
      assert log == rest || (log != [] && log[1..] == rest);
      var more := if Accepting(s, e) then [AcceptedTicket(s, e)] else [];
      assert Opens(t.out) == Opens(s.out) + more by { assert Opens(s.out) + [] == Opens(s.out); }
      StillNew(log, rest, Opens(s.out), more);
      SingleUseTimers(p, t, events[1..]);
    }
  }

  // ---- Closing ----------------------------------------------------------------------------------

  lemma {:induction false} ClosedStays(p: Params, s: Cell, events: seq<Event>)
    requires Tables(s) && s.closed
    ensures Run(p, s, events).closed
    decreases |events|
  {
    if events != [] {
      NextKeeps(p, s, events[0]);
      StillClosed(p, s, events[0]);
      ClosedStays(p, Next(p, s, events[0]), events[1..]);
    }
  }

  lemma StillClosed(p: Params, s: Cell, e: Event)
    requires Tables(s) && s.closed
    ensures Next(p, s, e).closed
  {
    if Plain(s, e) {
      PlainIsQuiet(p, s, e);
    } else if e.Receives? {
      if Reads(s, e) { var effect := StepEffects(p, s, e.c, e.messages, e.rest, e.bad); }
    }
  }

  /** From the close on nothing waits and nothing is bridged. */
  lemma AfterClose(p: Params, s: Cell, events: seq<Event>)
    requires Inv(p, s)
    ensures var t := Run(p, s, [Closes] + events); t.closed && t.pending == map[] && t.bridges == {}
  {
    assert ([Closes] + events)[0] == Closes && ([Closes] + events)[1..] == events;
    var t := Next(p, s, Closes);
    NextKeeps(p, s, Closes);
    NextSecrets(p, s, Closes);
    NextUsed(p, s, Closes);
    ClosedStays(p, t, events);
    RunKeeps(p, t, events);
  }
}

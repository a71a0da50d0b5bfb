/** From issue to conn-open. */
module TicketFlow {
  // What a ticket resolves to, and which host is asked to dial for it, is what it was issued for.

  import opened Bytes
  import opened Messages
  import opened HostProofs
  import opened Redis
  import opened Docs
  import opened Tickets
  import opened Cells
  import opened CellSafety
  import opened CellEffects
  import opened CellTheorems
  import opened CellRuns
  import opened Fleets
  import CellLaws
  import CellLeaving

  // ---- Nothing is resolved that was not issued ----------------------------------------------------

  /** An issue of the ticket, for this host and until then. */
  predicate IssuedFor(issues: set<Issue>, ticket: Ticket, hostId: HostId, expiresAt: int) {
    exists x :: x in issues && x.ticket == ticket
                && x.doc.TicketDoc? && x.doc.hostId == hostId && x.doc.expiresAt == expiresAt
  }

  predicate StoredAsIssued(f: Fleet) {
    forall k | k in f.store && k.TicketKey? ::
      f.store[k].value.Json? && Issue(k.ticket, f.store[k].value.record) in f.issues
  }

  predicate ResolvedAsIssued(f: Fleet) {
    forall r | r in f.results && r.record.Some? ::
      IssuedFor(f.issues, r.ticket, r.record.value.hostId, r.record.value.expiresAt)
  }

  predicate Traced(f: Fleet) {
    StoredAsIssued(f) && ResolvedAsIssued(f)
  }

  lemma MoreIssues(issues: set<Issue>, more: set<Issue>)
    requires issues <= more
    ensures forall ticket, hostId, expiresAt | IssuedFor(issues, ticket, hostId, expiresAt) ::
              IssuedFor(more, ticket, hostId, expiresAt)
  {
  }

  lemma MintsTraced(ps: nat -> Params, f: Fleet, step: Step)
    requires Traced(f) && step.Mints?
    ensures Traced(Advance(ps, f, step))
  {
    MoreIssues(f.issues, Advance(ps, f, step).issues);
    forall k: Key | k != TicketKey(step.ticket)
      ensures k in Advance(ps, f, step).store ==> k in f.store && Advance(ps, f, step).store[k] == f.store[k]
    {
      ApplyElsewhere(f.store, Set(TicketKey(step.ticket), Json(step.doc), Some(step.ttlMs), true), step.clock, k);
    }
  }

  lemma ConsumesTraced(ps: nat -> Params, f: Fleet, step: Step)
    requires Traced(f) && step.Consumes?
    ensures Traced(Advance(ps, f, step))
  {
    if Asks(f, step.i, step.c).Some? {
      var g, ticket := Advance(ps, f, step), Asks(f, step.i, step.c).value;
      var r := g.results[|f.results|];
      if r.record.Some? {
        var entry := f.store[TicketKey(ticket)];
        ResolutionLaw(entry.value, step.activeHost, step.now);
        assert Issue(ticket, entry.value.record) in f.issues;
        assert IssuedFor(g.issues, ticket, r.record.value.hostId, r.record.value.expiresAt);
      }
    }
  }

  lemma AdvanceTraced(ps: nat -> Params, f: Fleet, step: Step)
    requires Traced(f)
    ensures Traced(Advance(ps, f, step))
  {
    match step
    case Mints(_, _, _, _) => MintsTraced(ps, f, step);
    case Consumes(_, _, _, _, _) => ConsumesTraced(ps, f, step);
    case Delivers(k, _, _) =>
      if k < |f.results| {
        assert forall r | r in f.results[..k] + f.results[k + 1..] :: r in f.results;
      }
    case Works(_, _) =>
    case Elsewhere(op, clock) =>
      if !op.key.TicketKey? {
        forall k: Key | k.TicketKey? ensures k in Apply(f.store, op, clock).store <==> k in f.store {
          ApplyElsewhere(f.store, op, clock, k);
        }
        forall k: Key | k.TicketKey? && k in f.store ensures Apply(f.store, op, clock).store[k] == f.store[k] {
          ApplyElsewhere(f.store, op, clock, k);
        }
      }
  }

  lemma {:induction false} ProceedTraced(ps: nat -> Params, f: Fleet, steps: seq<Step>)
    requires Traced(f) && AllTables(f)
    ensures Traced(Proceed(ps, f, steps)) && AllTables(Proceed(ps, f, steps))
    decreases |steps|
  {
    if steps != [] {
      AdvanceTraced(ps, f, steps[0]);
      AdvanceTables(ps, f, steps[0]);
      ProceedTraced(ps, Advance(ps, f, steps[0]), steps[1..]);
    }
  }

  lemma AdvanceTables(ps: nat -> Params, f: Fleet, step: Step)
    requires AllTables(f)
    ensures AllTables(Advance(ps, f, step))
  {
    match step
    case Delivers(k, now, nonce) =>
      if k < |f.results| && Asks(f, f.results[k].cell, f.results[k].c) == Some(f.results[k].ticket) {
        var r := f.results[k];
        NextKeeps(ps(r.cell), f.cells[r.cell], Resolves(r.c, r.record, now, nonce));
      }
    case Works(i, e) => if i < |f.cells| { NextKeeps(ps(i), f.cells[i], e); }
    case _ =>
  }

  /** Over every run: an answer under way that names a host and an expiry names those of an issue of its ticket. */
  lemma AnswersAsIssued(ps: nat -> Params, n: nat, steps: seq<Step>)
    ensures ResolvedAsIssued(Proceed(ps, NewFleet(n), steps))
  {
    ProceedTraced(ps, NewFleet(n), steps);
  }

  /**
   * And a cell that asks a host to dial for a ticket asks the host the ticket was issued for, before the
   * issue expires, once, and nobody else.
   */
  lemma OpensWhereIssued(ps: nat -> Params, n: nat, steps: seq<Step>, step: Step, i: nat)
    requires i < |Proceed(ps, NewFleet(n), steps).cells|
    ensures var f := Proceed(ps, NewFleet(n), steps);
            var g := Advance(ps, f, step);
            && |g.cells| == |f.cells|
            && (Opens(g.cells[i].out) != Opens(f.cells[i].out) ==>
                  && step.Delivers? && step.k < |f.results| && f.results[step.k].cell == i
                  && f.results[step.k].record.Some?
                  && var ticket, record := f.results[step.k].ticket, f.results[step.k].record.value;
                     && IssuedFor(f.issues, ticket, record.hostId, record.expiresAt) && step.now < record.expiresAt
                     && record.hostId in f.cells[i].hosts
                     && g.cells[i].out
                        == f.cells[i].out + [Sent(f.cells[i].hosts[record.hostId], ConnOpen(ticket, step.bridgeNonce))])
  {
    ProceedTraced(ps, NewFleet(n), steps);
    var f := Proceed(ps, NewFleet(n), steps);
    if step.Delivers? && step.k < |f.results| && f.results[step.k].cell == i {
      DeliversOpen(ps, f, step, i);
    } else if step.Works? && step.i == i && !step.e.Resolves? {
      OnlyAcceptingOpens(ps(i), f.cells[i], step.e);
    }
  }

  lemma DeliversOpen(ps: nat -> Params, f: Fleet, step: Step, i: nat)
    requires AllTables(f) && i < |f.cells| && step.Delivers? && step.k < |f.results| && f.results[step.k].cell == i
    ensures var g, r := Advance(ps, f, step), f.results[step.k];
            && |g.cells| == |f.cells|
            && (Opens(g.cells[i].out) != Opens(f.cells[i].out) ==>
                  && r.record.Some? && step.now < r.record.value.expiresAt && r.record.value.hostId in f.cells[i].hosts
                  && g.cells[i].out
                     == f.cells[i].out
                        + [Sent(f.cells[i].hosts[r.record.value.hostId], ConnOpen(r.ticket, step.bridgeNonce))])
  {
    var r := f.results[step.k];
    if Asks(f, i, r.c) == Some(r.ticket) {
      var e := Resolves(r.c, r.record, step.now, step.bridgeNonce);
      OnlyAcceptingOpens(ps(i), f.cells[i], e);
      if Accepting(f.cells[i], e) {
        AcceptingIs(ps(i), f.cells[i], e);
      }
    }
  }

  // ---- What is issued resolves ------------------------------------------------------------------

  /**
   * From issue to answer: a ticket stored and then consumed while it lives, for a cell that asks for it, is
   * answered with the host and the expiry it was issued with, exactly when that host is active and the
   * caller's clock is before the expiry; and the ticket is gone either way.
   */
  lemma IssueResolves(ps: nat -> Params, f: Fleet, mint: Step, consume: Step)
    requires mint.Mints? && mint.doc.TicketDoc? && Live(f.store, TicketKey(mint.ticket), mint.clock).None?
    requires consume.Consumes? && Asks(f, consume.i, consume.c) == Some(mint.ticket)
    requires consume.clock < mint.clock + mint.ttlMs
    ensures var g := Advance(ps, Advance(ps, f, mint), consume);
            var good := mint.doc.expiresAt > consume.now && consume.activeHost(mint.doc.hostId).Some?;
            && TicketKey(mint.ticket) !in g.store
            && g.results == f.results + [Result(consume.i, consume.c, mint.ticket,
                                                if good then Some(TicketRecord(mint.doc.hostId, mint.doc.expiresAt))
                                                else None)]
  {
    var h := Advance(ps, f, mint);
    assert h.store[TicketKey(mint.ticket)] == Entry(Json(mint.doc), Some(mint.clock + mint.ttlMs));
    ResolutionLaw(Json(mint.doc), consume.activeHost, consume.now);
  }

  /** The cell is open, and so is the connection that waits for its ticket's answer. */
  predicate Waits(f: Fleet, i: nat, c: ConnId, ticket: Ticket) {
    Asks(f, i, c) == Some(ticket) && !f.cells[i].closed && c in f.cells[i].conns && !f.cells[i].conns[c].closed
  }

  /**
   * And from issue to dial: the answer delivered, the host the ticket was issued for is asked to dial, and only it,
   * exactly when it is active and registered at the cell, both clocks are before the expiry of the issue, and the
   * ticket is not a recently used one; otherwise the controller is refused with a code.
   */
  lemma IssueOpens(ps: nat -> Params, f: Fleet, mint: Step, consume: Step, deliver: Step)
    requires AllTables(f) && mint.Mints? && mint.doc.TicketDoc?
    requires Live(f.store, TicketKey(mint.ticket), mint.clock).None?
    requires consume.Consumes? && consume.clock < mint.clock + mint.ttlMs
    requires Waits(f, consume.i, consume.c, mint.ticket) && deliver.Delivers? && deliver.k == |f.results|
    ensures var g := Advance(ps, Advance(ps, Advance(ps, f, mint), consume), deliver);
            var i, h, s := consume.i, mint.doc.hostId, f.cells[consume.i];
            && g.results == f.results && |g.cells| == |f.cells|
            && if consume.activeHost(h).Some? && h in s.hosts && mint.ticket !in s.used
                  && consume.now < mint.doc.expiresAt && deliver.now < mint.doc.expiresAt
               then g.cells[i].out == s.out + [Sent(s.hosts[h], ConnOpen(mint.ticket, deliver.bridgeNonce))]
               else exists code :: CellLeaving.Refused(s, g.cells[i], consume.c, code)
  {
    var h := Advance(ps, Advance(ps, f, mint), consume);
    IssueResolves(ps, f, mint, consume);
    var r := h.results[|f.results|];
    LastDelivered(ps, h, f.results, r, deliver);
    WaitingResolves(ps(consume.i), f.cells[consume.i], Resolves(consume.c, r.record, deliver.now, deliver.bridgeNonce));
  }

  /** The answer queued last reaches the connection that asked for it. */
  lemma LastDelivered(ps: nat -> Params, h: Fleet, results: seq<Result>, r: Result, deliver: Step)
    requires h.results == results + [r] && deliver.Delivers? && deliver.k == |results|
    requires Asks(h, r.cell, r.c) == Some(r.ticket)
    ensures var g := Advance(ps, h, deliver);
            && g.results == results && |g.cells| == |h.cells|
            && g.cells[r.cell]
               == Cells.Next(ps(r.cell), h.cells[r.cell], Resolves(r.c, r.record, deliver.now, deliver.bridgeNonce))
  {
    assert h.results[..|results|] + h.results[|results| + 1..] == results;
  }

  lemma WaitingResolves(p: Params, s: Cell, e: Cells.Event)
    requires Tables(s) && e.Resolves? && CellLaws.Awaited(s, e.c) && Cells.Get(s, e.c).awaiting.value.ForTicket?
    ensures var t, ticket := Cells.Next(p, s, e), Cells.Get(s, e.c).awaiting.value.ticket;
            if e.record.Some? && e.now < e.record.value.expiresAt && ticket !in s.used
               && e.record.value.hostId in s.hosts
            then t.out == s.out + [Sent(s.hosts[e.record.value.hostId], ConnOpen(ticket, e.bridgeNonce))]
            else exists code :: CellLeaving.Refused(s, t, e.c, code)
  {
    CellLaws.ResolvesLaw(p, s, e);
  }
}

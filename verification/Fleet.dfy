/** Cells, replicas, one store. */
module Fleets {
  // Any number of cells and control-plane replicas over one store, in any interleaving.

  import opened Bytes
  import opened Messages
  import opened HostProofs
  import opened Redis
  import opened Docs
  import opened Tickets
  import opened Cells
  import opened CellSafety
  import opened CellEffects
  import opened CellTheorems
  import opened CellRuns

  /** A resolution on its way back to the connection that asked. */
  datatype Result = Result(cell: nat, c: ConnId, ticket: Ticket, record: Option<TicketRecord>)

  datatype Issue = Issue(ticket: Ticket, doc: Doc)

  /**
   * `issued` and `resolved` log the tickets stored and the tickets successfully consumed, `issues` what was
   * stored under them.
   */
  datatype Fleet = Fleet(store: Store<Doc>, cells: seq<Cell>, results: seq<Result>, issued: seq<Ticket>,
                         resolved: seq<Ticket>, issues: set<Issue>)

  datatype Step =
    // one attempt of an issueTicket
    | Mints(ticket: Ticket, doc: Doc, ttlMs: int, clock: int)
    // a cell's resolveTicket
    | Consumes(i: nat, c: ConnId, activeHost: HostId -> Option<seq<byte>>, now: int, clock: int)
    // its answer reaches the cell
    | Delivers(k: nat, now: int, bridgeNonce: Nonce)
    // any other event at a cell
    | Works(i: nat, e: Cells.Event)
    // any other use of the store
    | Elsewhere(op: Op<Doc>, clock: int)

  function Asks(f: Fleet, i: nat, c: ConnId): Option<Ticket> {
    if i < |f.cells| && Cells.Get(f.cells[i], c).awaiting.Some? && Cells.Get(f.cells[i], c).awaiting.value.ForTicket?
    then Some(Cells.Get(f.cells[i], c).awaiting.value.ticket) else None
  }

  function Advance(ps: nat -> Params, f: Fleet, step: Step): Fleet {
    match step
    case Mints(ticket, doc, ttlMs, clock) =>
      var o := Attempt(f.store, ticket, doc, ttlMs, clock);
      f.(store := o.store, issued := if o.reply.Ok? then f.issued + [ticket] else f.issued,
         issues := if o.reply.Ok? then f.issues + {Issue(ticket, doc)} else f.issues)
    case Consumes(i, c, activeHost, now, clock) =>
      (match Asks(f, i, c)
       case None => f
       case Some(ticket) =>
         var o := Apply(f.store, GetDel(TicketKey(ticket)), clock);
         var record := Record(Resolution(o.reply, activeHost, now));
         f.(store := o.store, results := f.results + [Result(i, c, ticket, record)],
            resolved := if record.Some? then f.resolved + [ticket] else f.resolved))
    case Delivers(k, now, nonce) =>
      if k < |f.results| then Deliver(ps, f, f.results[k], f.results[..k] + f.results[k + 1..], now, nonce) else f
    case Works(i, e) =>
      if i < |f.cells| && !e.Resolves? then f.(cells := f.cells[i := Cells.Next(ps(i), f.cells[i], e)]) else f
    case Elsewhere(op, clock) => if op.key.TicketKey? then f else f.(store := Apply(f.store, op, clock).store)
  }

  function Deliver(ps: nat -> Params, f: Fleet, r: Result, rest: seq<Result>, now: int, nonce: Nonce): Fleet {
    if Asks(f, r.cell, r.c) == Some(r.ticket)
    then f.(results := rest, cells :=
              f.cells[r.cell := Cells.Next(ps(r.cell), f.cells[r.cell], Resolves(r.c, r.record, now, nonce))])
    else f.(results := rest)
  }

  /** How often the cells asked a host to dial for `t`. */
  function Opened(cells: seq<Cell>, t: Ticket): nat {
    if cells == [] then 0 else multiset(Opens(cells[0].out))[t] + Opened(cells[1..], t)
  }

  /** How many successful resolutions of `t` are still on their way. */
  function Owed(results: seq<Result>, t: Ticket): nat {
    if results == [] then 0
    else (if results[0].record.Some? && results[0].ticket == t then 1 else 0) + Owed(results[1..], t)
  }

  lemma {:induction false} OpenedUpdate(cells: seq<Cell>, i: nat, d: Cell, t: Ticket)
    requires i < |cells|
    ensures Opened(cells[i := d], t) + multiset(Opens(cells[i].out))[t] == Opened(cells, t) + multiset(Opens(d.out))[t]
    decreases |cells|
  {
    if i == 0 {
      assert cells[0 := d][1..] == cells[1..];
    } else {
      assert cells[i := d][1..] == cells[1..][i - 1 := d];
      OpenedUpdate(cells[1..], i - 1, d, t);
    }
  }

  lemma {:induction false} OwedConcat(a: seq<Result>, b: seq<Result>, t: Ticket)
    ensures Owed(a + b, t) == Owed(a, t) + Owed(b, t)
    decreases |a|
  {
    if a == [] {
      assert a + b == b;
    } else {
      assert (a + b)[1..] == a[1..] + b;
      OwedConcat(a[1..], b, t);
    }
  }

  lemma OwedRemove(results: seq<Result>, k: nat, t: Ticket)
    requires k < |results|
    ensures Owed(results, t) == Owed(results[..k] + results[k + 1..], t) + Owed([results[k]], t)
  {
    assert results == results[..k] + ([results[k]] + results[k + 1..]);
    OwedConcat(results[..k], [results[k]] + results[k + 1..], t);
    OwedConcat([results[k]], results[k + 1..], t);
    OwedConcat(results[..k], results[k + 1..], t);
  }

  /**
   * Each conn-open and each result under way has its own resolution; each resolution and the stored ticket its
   * own issue.
   */
  predicate PaidFor(f: Fleet, t: Ticket) {
    && Opened(f.cells, t) + Owed(f.results, t) <= multiset(f.resolved)[t]
    && multiset(f.resolved)[t] + (if TicketKey(t) in f.store then 1 else 0) <= multiset(f.issued)[t]
  }

  predicate AllTables(f: Fleet) {
    forall i | 0 <= i < |f.cells| :: Tables(f.cells[i])
  }

  lemma ConsumesPaid(ps: nat -> Params, f: Fleet, step: Step, t: Ticket)
    requires PaidFor(f, t) && step.Consumes?
    ensures PaidFor(Advance(ps, f, step), t)
  {
    if Asks(f, step.i, step.c).Some? {
      var g, ticket := Advance(ps, f, step), Asks(f, step.i, step.c).value;
      OwedConcat(f.results, [g.results[|f.results|]], t);
    }
  }

  /** An event at a cell opens nothing, or its own ticket when it delivers a record. */
  lemma CellOpens(p: Params, s: Cell, e: Cells.Event, t: Ticket)
    requires Tables(s)
    ensures var d := Cells.Next(p, s, e);
            && Tables(d)
            && multiset(Opens(d.out))[t] <= multiset(Opens(s.out))[t]
                 + (if Accepting(s, e) && AcceptedTicket(s, e) == t then 1 else 0)
  {
    NextKeeps(p, s, e);
    OnlyAcceptingOpens(p, s, e);
  }

  lemma DeliverPaid(ps: nat -> Params, f: Fleet, r: Result, rest: seq<Result>, now: int, nonce: Nonce, t: Ticket)
    requires PaidFor(f, t) && AllTables(f) && Owed(f.results, t) == Owed(rest, t) + Owed([r], t)
    ensures PaidFor(Deliver(ps, f, r, rest, now, nonce), t) && AllTables(Deliver(ps, f, r, rest, now, nonce))
  {
    if Asks(f, r.cell, r.c) == Some(r.ticket) {
      var e := Resolves(r.c, r.record, now, nonce);
      CellOpens(ps(r.cell), f.cells[r.cell], e, t);
      OpenedUpdate(f.cells, r.cell, Cells.Next(ps(r.cell), f.cells[r.cell], e), t);
      assert Owed([r], t) == if r.record.Some? && r.ticket == t then 1 else 0;
    }
  }

  lemma WorksPaid(ps: nat -> Params, f: Fleet, step: Step, t: Ticket)
    requires PaidFor(f, t) && AllTables(f) && step.Works? && step.i < |f.cells| && !step.e.Resolves?
    ensures PaidFor(Advance(ps, f, step), t) && AllTables(Advance(ps, f, step))
  {
    CellOpens(ps(step.i), f.cells[step.i], step.e, t);
    OpenedUpdate(f.cells, step.i, Cells.Next(ps(step.i), f.cells[step.i], step.e), t);
  }

  lemma AdvancePaid(ps: nat -> Params, f: Fleet, step: Step, t: Ticket)
    requires PaidFor(f, t) && AllTables(f)
    ensures PaidFor(Advance(ps, f, step), t) && AllTables(Advance(ps, f, step))
  {
    match step
    case Mints(_, _, _, _) =>
    case Consumes(_, _, _, _, _) => ConsumesPaid(ps, f, step, t);
    case Delivers(k, now, nonce) =>
      if k < |f.results| {
        OwedRemove(f.results, k, t);
        DeliverPaid(ps, f, f.results[k], f.results[..k] + f.results[k + 1..], now, nonce, t);
      }
    case Works(i, e) => if i < |f.cells| && !e.Resolves? { WorksPaid(ps, f, step, t); }
    case Elsewhere(op, clock) => if !op.key.TicketKey? { ApplyElsewhere(f.store, op, clock, TicketKey(t)); }
  }

  function Proceed(ps: nat -> Params, f: Fleet, steps: seq<Step>): Fleet
    decreases |steps|
  {
    if steps == [] then f else Proceed(ps, Advance(ps, f, steps[0]), steps[1..])
  }

  lemma {:induction false} ProceedPaid(ps: nat -> Params, f: Fleet, steps: seq<Step>, t: Ticket)
    requires PaidFor(f, t) && AllTables(f)
    ensures PaidFor(Proceed(ps, f, steps), t)
    decreases |steps|
  {
    if steps != [] {
      AdvancePaid(ps, f, steps[0], t);
      ProceedPaid(ps, Advance(ps, f, steps[0]), steps[1..], t);
    }
  }

  /** `n` new cells over an empty store. */
  function NewFleet(n: nat): Fleet {
    Fleet(map[], seq(n, _ => NewCell()), [], [], [], {})
  }

  lemma {:induction false} NoneOpened(cells: seq<Cell>, t: Ticket)
    requires forall i | 0 <= i < |cells| :: cells[i] == NewCell()
    ensures Opened(cells, t) == 0
    decreases |cells|
  {
    if cells != [] {
      NoneOpened(cells[1..], t);
    }
  }

  /**
   * Over every run, a ticket is resolved, and asked of a host, no more often than it was issued: one issue, one
   * conn-open anywhere.
   */
  lemma OneOpenPerIssue(ps: nat -> Params, n: nat, steps: seq<Step>, t: Ticket)
    ensures var f := Proceed(ps, NewFleet(n), steps);
            Opened(f.cells, t) <= multiset(f.resolved)[t] <= multiset(f.issued)[t]
  {
    NoneOpened(NewFleet(n).cells, t);
    ProceedPaid(ps, NewFleet(n), steps, t);
  }

  /**
   * A resolution that succeeds is of a record still unexpired when it was consumed, whatever the store's own
   * clock says.
   */
  lemma NoneSucceedsExpired(ps: nat -> Params, f: Fleet, step: Step)
    requires Advance(ps, f, step).resolved != f.resolved
    ensures step.Consumes? && Asks(f, step.i, step.c).Some?
    ensures var ticket := Asks(f, step.i, step.c).value;
            && Taken(f.store, ticket, step.clock) && TicketKey(ticket) !in Advance(ps, f, step).store
            && f.store[TicketKey(ticket)].value.Json? && f.store[TicketKey(ticket)].value.record.TicketDoc?
            && f.store[TicketKey(ticket)].value.record.expiresAt > step.now
  {
  }
}

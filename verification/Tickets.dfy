/** Issuing and consuming relay tickets (apps/control-plane/src/services/relay-coordination.ts). */
module Tickets {
  import opened Bytes
  import opened Messages
  import opened Redis
  import opened Docs
  import opened Cells

  const TICKET_MINT_ATTEMPTS := 3

  /** One attempt: store the record under a fresh ticket unless the key is taken. */
  function Attempt(s: Store<Doc>, ticket: Ticket, doc: Doc, ttlMs: int, clock: int): Outcome<Doc> {
    Apply(s, Set(TicketKey(ticket), Json(doc), Some(ttlMs), true), clock)
  }

  predicate Taken(s: Store<Doc>, ticket: Ticket, clock: int) {
    Live(s, TicketKey(ticket), clock).Some?
  }

  /**
   * `mints` are the random tickets the attempts draw, `clocks` the store's at each of them. The issued ticket
   * is the first one free in its turn, and it is stored; or all were taken, and nothing is.
   */
  method IssueTicket(redis: MemoryRedis<Doc>, hostId: HostId, orgId: seq<byte>, principal: Principal, ttlMs: int,
                     mints: seq<Ticket>, now: int, clocks: seq<int>)
    returns (r: Option<(Ticket, int)>, ghost attempt: nat)
    requires |mints| == |clocks| == TICKET_MINT_ATTEMPTS
    modifies redis
    ensures forall i | 0 <= i < attempt :: i < |mints| && Taken(old(redis.store), mints[i], clocks[i])
    ensures r.None? ==> attempt == |mints| && redis.store == old(redis.store)
    ensures r.Some? ==>
              && attempt < |mints| && r == Some((mints[attempt], now + ttlMs))
                 && !Taken(old(redis.store), mints[attempt], clocks[attempt])
              && redis.store == old(redis.store)[TicketKey(mints[attempt]) :=
                   Entry(Json(TicketDoc(hostId, orgId, principal, now + ttlMs)), Some(clocks[attempt] + ttlMs))]
  {
    var expiresAt := now + ttlMs;
    var payload := TicketDoc(hostId, orgId, principal, expiresAt);
    attempt := 0;
    for i := 0 to TICKET_MINT_ATTEMPTS
      invariant attempt == i && redis.store == old(redis.store)
      invariant forall j | 0 <= j < i :: Taken(old(redis.store), mints[j], clocks[j])
    {
      var ticket := mints[i];
      var stored := redis.SetKey(TicketKey(ticket), Json(payload), Some(ttlMs), true, clocks[i]);
      if stored != Null {
        r := Some((ticket, expiresAt));
        return;
      }
      attempt := attempt + 1;
    }
    r := None;
  }

  datatype ConsumedTicket = ConsumedTicket(hostId: HostId, orgId: seq<byte>, expiresAt: int, staticKey: seq<byte>)

  /** What a stored value resolves to: only an unexpired ticket record of an active host. */
  function Resolution(raw: Reply<Doc>, activeHost: HostId -> Option<seq<byte>>, now: int): Option<ConsumedTicket> {
    match raw
    case Found(Json(TicketDoc(hostId, orgId, _, expiresAt))) =>
      if expiresAt <= now then None
      else (match activeHost(hostId)
            case Some(key) => Some(ConsumedTicket(hostId, orgId, expiresAt, key))
            case None => None)
    case _ => None
  }

  /** The record of an unexpired ticket, for a host that is active. */
  predicate Good(value: Value<Doc>, activeHost: HostId -> Option<seq<byte>>, now: int) {
    && value.Json? && value.record.TicketDoc? && value.record.expiresAt > now
    && activeHost(value.record.hostId).Some?
  }

  /** A good record, and no other, resolves: to its own host, organisation and expiry, with that host's key. */
  lemma ResolutionLaw(value: Value<Doc>, activeHost: HostId -> Option<seq<byte>>, now: int)
    ensures var r := Resolution(Found(value), activeHost, now);
            && (r.Some? <==> Good(value, activeHost, now))
            && (r.Some? ==>
                  && r.value.hostId == value.record.hostId && r.value.orgId == value.record.orgId
                  && r.value.expiresAt == value.record.expiresAt
                  && r.value.staticKey == activeHost(value.record.hostId).value)
    ensures Resolution(Null, activeHost, now).None? && Resolution(Ok, activeHost, now).None?
  {
  }

  /** Read and delete in one step; every failure looks the same, and the ticket is gone whatever the result. */
  method ConsumeTicket(redis: MemoryRedis<Doc>, activeHost: HostId -> Option<seq<byte>>, now: int, clock: int,
                       ticket: Ticket)
    returns (r: Option<ConsumedTicket>)
    modifies redis
    ensures redis.store == old(redis.store) - {TicketKey(ticket)}
    ensures r == Resolution(Apply(old(redis.store), GetDel(TicketKey(ticket)), clock).reply, activeHost, now)
    ensures r.Some? <==>
              && Taken(old(redis.store), ticket, clock)
              && Good(old(redis.store)[TicketKey(ticket)].value, activeHost, now)
    ensures r.Some? ==>
              var record := old(redis.store)[TicketKey(ticket)].value.record;
              && r.value.hostId == record.hostId && r.value.orgId == record.orgId
              && r.value.expiresAt == record.expiresAt && Some(r.value.staticKey) == activeHost(record.hostId)
  {
    var raw := redis.GetDelKey(TicketKey(ticket), clock);
    if raw == Null {
      return None;
    }
    if !raw.value.Json? || !raw.value.record.TicketDoc? || raw.value.record.expiresAt <= now {
      return None;
    }
    var key := activeHost(raw.value.record.hostId);
    if key.None? {
      return None;
    }
    return Some(ConsumedTicket(raw.value.record.hostId, raw.value.record.orgId, raw.value.record.expiresAt, key.value));
  }

  /** The authorizer the cell is given. */
  function Record(consumed: Option<ConsumedTicket>): Option<TicketRecord> {
    if consumed.Some? then Some(TicketRecord(consumed.value.hostId, consumed.value.expiresAt)) else None
  }
}

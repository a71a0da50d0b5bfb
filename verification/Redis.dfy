/**
 * The ephemeral key-value store (apps/control-plane/src/redis.ts). Every operation is one atomic step at
 * one clock reading.
 */
module Redis {
  import opened Bytes

  /** Keys by what they hold; the source keeps them apart by prefix and hashes the secrets in them. */
  datatype Key =
    | RateKey(name: string, id: string)
    | TicketKey(ticket: seq<byte>)
    | RequestKey(request: nat)
    | GrantKey(request: nat)
    | AttemptsKey(request: nat)
    | TokenKey(secret: nat)

  /** Stored text: a number, what `String(NaN)` leaves behind, or the JSON of a record. */
  datatype Value<R> = Number(n: int) | NaN | Json(record: R)

  datatype Entry<R> = Entry(value: Value<R>, expiresAt: Option<int>)

  type Store<R> = map<Key, Entry<R>>

  predicate Expired<R>(e: Entry<R>, now: int) {
    e.expiresAt.Some? && e.expiresAt.value <= now
  }

  function Live<R>(s: Store<R>, key: Key, now: int): Option<Entry<R>> {
    if key in s && !Expired(s[key], now) then Some(s[key]) else None
  }

  /** Looking a key up evicts it when it has expired. */
  function Evict<R>(s: Store<R>, key: Key, now: int): Store<R> {
    if key in s && Expired(s[key], now) then s - {key} else s
  }

  datatype Op<R> =
    | Set(key: Key, value: Value<R>, pxMs: Option<int>, nx: bool)
    | Get(key: Key)
    | GetDel(key: Key)
    | Del(key: Key)
    | Incr(key: Key)
    | PExpire(key: Key, ms: int)

  datatype Reply<R> = Ok | Null | Found(value: Value<R>)

  datatype Outcome<R> = Outcome(store: Store<R>, reply: Reply<R>)

  function Increment<R>(entry: Option<Entry<R>>): Value<R> {
    match entry
    case None => Number(1)
    case Some(Entry(Number(n), _)) => Number(n + 1)
    case _ => NaN
  }

  function Answer<R>(entry: Option<Entry<R>>): Reply<R> {
    if entry.Some? then Found(entry.value.value) else Null
  }

  function Apply<R>(s: Store<R>, op: Op<R>, now: int): Outcome<R> {
    var entry, t := Live(s, op.key, now), Evict(s, op.key, now);
    match op
    case Set(key, value, pxMs, nx) =>
      if nx && entry.Some? then Outcome(s, Null)
      else Outcome(t[key := Entry(value, if pxMs.Some? then Some(now + pxMs.value) else None)], Ok)
    case Get(_) => Outcome(t, Answer(entry))
    case GetDel(key) => Outcome(t - {key}, Answer(entry))
    case Del(key) => Outcome(s - {key}, Ok)
    case Incr(key) =>
      var next := Increment(entry);
      Outcome(t[key := Entry(next, if entry.Some? then entry.value.expiresAt else None)], Found(next))
    case PExpire(key, ms) =>
      if entry.Some? then Outcome(s[key := entry.value.(expiresAt := Some(now + ms))], Ok) else Outcome(t, Ok)
  }

  // ---- Lazy eviction is eager eviction ----------------------------------------------------------

  /** What is there at `now`. */
  function Alive<R>(s: Store<R>, now: int): Store<R> {
    map key | key in s && !Expired(s[key], now) :: s[key]
  }

  /** An operation sees and leaves what it would had all expired entries been swept first. */
  lemma ApplyAlive<R>(s: Store<R>, op: Op<R>, now: int, later: int)
    requires now <= later
    ensures Apply(s, op, now).reply == Apply(Alive(s, now), op, now).reply
    ensures Alive(Apply(s, op, now).store, later) == Alive(Apply(Alive(s, now), op, now).store, later)
  {
    var e, a := Live(s, op.key, now), Live(Alive(s, now), op.key, now);
    assert e == a;
    var t, u := Apply(s, op, now).store, Apply(Alive(s, now), op, now).store;
    forall key ensures key in Alive(t, later) <==> key in Alive(u, later) {
    }
    forall key | key in Alive(t, later) ensures Alive(t, later)[key] == Alive(u, later)[key] {
    }
  }

  /** Equal sweeps now are equal sweeps later. */
  lemma AliveLater<R>(s: Store<R>, now: int, later: int)
    requires now <= later
    ensures Alive(Alive(s, now), later) == Alive(s, later)
  {
  }

  datatype Timed<R> = Timed(op: Op<R>, at: int)

  predicate Ordered<R>(ops: seq<Timed<R>>, start: int) {
    (forall i | 0 <= i < |ops| :: start <= ops[i].at) && forall i, j | 0 <= i < j < |ops| :: ops[i].at <= ops[j].at
  }

  function Replies<R>(s: Store<R>, ops: seq<Timed<R>>): seq<Reply<R>>
    decreases |ops|
  {
    if ops == [] then []
    else
      var o := Apply(s, ops[0].op, ops[0].at);
      [o.reply] + Replies(o.store, ops[1..])
  }

  /** The replies of a store that sweeps everything expired before each operation. */
  function EagerReplies<R>(s: Store<R>, ops: seq<Timed<R>>): seq<Reply<R>>
    decreases |ops|
  {
    if ops == [] then []
    else
      var o := Apply(Alive(s, ops[0].at), ops[0].op, ops[0].at);
      [o.reply] + EagerReplies(o.store, ops[1..])
  }

  /** No run of operations on a clock that does not run back can tell lazy eviction from eager. */
  lemma {:induction false} LazyIsEager<R>(s: Store<R>, t: Store<R>, ops: seq<Timed<R>>, start: int)
    requires Ordered(ops, start) && Alive(s, start) == Alive(t, start)
    ensures Replies(s, ops) == EagerReplies(t, ops)
    decreases |ops|
  {
    if ops != [] {
      var now := ops[0].at;
      AliveLater(s, start, now);
      AliveLater(t, start, now);
      ApplyAlive(s, ops[0].op, now, now);
      LazyIsEager(Apply(s, ops[0].op, now).store, Apply(Alive(t, now), ops[0].op, now).store, ops[1..], now);
    }
  }

  /** An operation on one key leaves every other. */
  lemma ApplyElsewhere<R>(s: Store<R>, op: Op<R>, now: int, key: Key)
    requires key != op.key
    ensures key in Apply(s, op, now).store <==> key in s
    ensures key in s ==> Apply(s, op, now).store[key] == s[key]
  {
  }

  // ---- What is seen -----------------------------------------------------------------------------

  /** What a read at `at` finds: what was stored, until its time is up and not at that instant any more. */
  function Seen<R>(s: Store<R>, key: Key, at: int): Option<Value<R>> {
    if key !in s then None
    else match s[key].expiresAt
      case None => Some(s[key].value)
      case Some(end) => if at < end then Some(s[key].value) else None
  }

  /** What is there when nothing puts an end to it. */
  function Until<R>(value: Value<R>, end: Option<int>, at: int): Option<Value<R>> {
    if end.None? || at < end.value then Some(value) else None
  }

  /** What a counter comes to: one more, 1 where there is none, and no number where there is no number. */
  function Bumped<R>(seen: Option<Value<R>>): Value<R> {
    if seen.None? then Number(1) else if seen.value.Number? then Number(seen.value.n + 1) else NaN
  }

  /** The reply, and what any read of the key finds from then on: operation by operation. */
  lemma OpLaw<R>(s: Store<R>, op: Op<R>, now: int, later: int)
    requires now <= later
    ensures var t, seen := Apply(s, op, now), Seen(s, op.key, now);
            match op
            case Set(key, value, pxMs, nx) =>
              if nx && seen.Some? then t.reply == Null && t.store == s
              else && t.reply == Ok
                   && Seen(t.store, key, later)
                      == Until(value, if pxMs.Some? then Some(now + pxMs.value) else None, later)
            case Get(key) =>
              && t.reply == (if seen.Some? then Found(seen.value) else Null)
              && Seen(t.store, key, later) == Seen(s, key, later)
            case GetDel(key) =>
              t.reply == (if seen.Some? then Found(seen.value) else Null) && Seen(t.store, key, later) == None
            case Del(key) => Seen(t.store, key, later) == None
            case Incr(key) =>
              && t.reply == Found(Bumped(seen))
              && (Seen(t.store, key, later).Some? <==> seen.None? || Seen(s, key, later).Some?)
              && (Seen(t.store, key, later).Some? ==> Seen(t.store, key, later).value == Bumped(seen))
            case PExpire(key, ms) =>
              Seen(t.store, key, later) == if seen.Some? then Until(seen.value, Some(now + ms), later) else None
    ensures Live(s, op.key, now).Some? <==> Seen(s, op.key, now).Some?
  {
  }

  // ---- The in-process store ---------------------------------------------------------------------

  class MemoryRedis<R> {
    var store: Store<R>

    constructor ()
      ensures store == map[]
    {
      store := map[];
    }

    method LiveEntry(key: Key, now: int) returns (entry: Option<Entry<R>>)
      modifies this
      ensures entry == Live(old(store), key, now) && store == Evict(old(store), key, now)
    {
      if key !in store {
        return None;
      }
      var found := store[key];
      if found.expiresAt.Some? && found.expiresAt.value <= now {
        store := store - {key};
        return None;
      }
      return Some(found);
    }

    method SetKey(key: Key, value: Value<R>, pxMs: Option<int>, nx: bool, now: int) returns (reply: Reply<R>)
      modifies this
      ensures Outcome(store, reply) == Apply(old(store), Set(key, value, pxMs, nx), now)
    {
      if nx {
        var entry := LiveEntry(key, now);
        if entry.Some? {
          return Null;
        }
      }
      var expiresAt := if pxMs.Some? then Some(now + pxMs.value) else None;
      store := store[key := Entry(value, expiresAt)];
      return Ok;
    }

    method GetKey(key: Key, now: int) returns (reply: Reply<R>)
      modifies this
      ensures Outcome(store, reply) == Apply(old(store), Get(key), now)
    {
      var entry := LiveEntry(key, now);
      reply := Answer(entry);
    }

    method GetDelKey(key: Key, now: int) returns (reply: Reply<R>)
      modifies this
      ensures Outcome(store, reply) == Apply(old(store), GetDel(key), now)
    {
      var entry := LiveEntry(key, now);
      if entry.None? {
        return Null;
      }
      store := store - {key};
      return Found(entry.value.value);
    }

    method DelKey(key: Key, now: int)
      modifies this
      ensures Outcome(store, Ok) == Apply(old(store), Del(key), now)
    {
      store := store - {key};
    }

    method IncrKey(key: Key, now: int) returns (reply: Reply<R>)
      modifies this
      ensures Outcome(store, reply) == Apply(old(store), Incr(key), now)
    {
      var entry := LiveEntry(key, now);
      var next := if entry.None? then Number(1)
              else if entry.value.value.Number? then Number(entry.value.value.n + 1) else NaN;
      store := store[key := Entry(next, if entry.Some? then entry.value.expiresAt else None)];
      return Found(next);
    }

    method PExpireKey(key: Key, ms: int, now: int)
      modifies this
      ensures Outcome(store, Ok) == Apply(old(store), PExpire(key, ms), now)
    {
      var entry := LiveEntry(key, now);
      if entry.Some? {
        store := store[key := entry.value.(expiresAt := Some(now + ms))];
      }
    }
  }
}

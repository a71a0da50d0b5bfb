/** The fixed-window limiter (apps/control-plane/src/services/rate-limit.ts). */
module RateLimits {
  import opened Bytes
  import opened Redis

  datatype Verdict<R> = Verdict(store: Store<R>, allowed: bool)

  /** The count against the limit; a comparison with NaN is false. */
  predicate Within<R>(reply: Reply<R>, limit: int) {
    reply.Found? && reply.value.Number? && reply.value.n <= limit
  }

  /** One hit with its two store calls, each at its own clock reading. */
  function Torn<R>(s: Store<R>, key: Key, limit: int, windowMs: int, now: int, later: int): Verdict<R> {
    var armed := Apply(s, Set(key, Number(0), Some(windowMs), true), now).store;
    var counted := Apply(armed, Incr(key), later);
    Verdict(counted.store, Within(counted.reply, limit))
  }

  function Hit<R>(s: Store<R>, key: Key, limit: int, windowMs: int, now: int): Verdict<R> {
    Torn(s, key, limit, windowMs, now, now)
  }

  /** `later` is the clock when the second call is taken. */
  method CheckRateLimit<R>(redis: MemoryRedis<R>, name: string, id: string, limit: int, windowMs: int, now: int,
                           later: int)
    returns (allowed: bool)
    modifies redis
    ensures Verdict(redis.store, allowed) == Torn(old(redis.store), RateKey(name, id), limit, windowMs, now, later)
  {
    var key := RateKey(name, id);
    var armed := redis.SetKey(key, Number(0), Some(windowMs), true, now);
    var count := redis.IncrKey(key, later);
    allowed := count.Found? && count.value.Number? && count.value.n <= limit;
  }

  // ---- Counters have an expiry ------------------------------------------------------------------

  /** A window: how many hits it has counted, the one that opened it included, and when it ends. */
  predicate Window<R>(s: Store<R>, key: Key, now: int, count: nat, end: int) {
    count >= 1 && Live(s, key, now) == Some(Entry(Number(count), Some(end)))
  }

  /** Absent, expired, or a window. */
  ghost predicate Proper<R(!new)>(s: Store<R>, key: Key, now: int) {
    Live(s, key, now).None? || exists count: nat, end: int :: Window(s, key, now, count, end)
  }

  /**
   * A hit leaves a counter with an expiry exactly when the window is still open at the increment; torn
   * apart, or with a window of no length, it can leave one that never goes.
   */
  lemma TornHit<R(!new)>(s: Store<R>, key: Key, limit: int, windowMs: int, now: int, later: int)
    requires now <= later && Proper(s, key, now)
    ensures var t := Torn(s, key, limit, windowMs, now, later).store;
            var end := if Live(s, key, now).Some? then Live(s, key, now).value.expiresAt.value else now + windowMs;
            key in t && (t[key].expiresAt.Some? <==> later < end)
  {
  }

  /** One store call of some hit on the key, or anything done at other keys. */
  datatype Call<R> = Arms(at: int) | Counts(at: int) | Aside(op: Op<R>, at: int)

  function Called<R>(s: Store<R>, key: Key, windowMs: int, call: Call<R>): Outcome<R> {
    match call
    case Arms(at) => Apply(s, Set(key, Number(0), Some(windowMs), true), at)
    case Counts(at) => Apply(s, Incr(key), at)
    case Aside(op, at) => Apply(s, op, at)
  }

  function AfterCalls<R>(s: Store<R>, key: Key, windowMs: int, calls: seq<Call<R>>): Store<R>
    decreases |calls|
  {
    if calls == [] then s else AfterCalls(Called(s, key, windowMs, calls[0]).store, key, windowMs, calls[1..])
  }

  function Counted<R>(calls: seq<Call<R>>): nat {
    if calls == [] then 0 else (if calls[0].Counts? then 1 else 0) + Counted(calls[1..])
  }

  /** How many of the hits are allowed. */
  function Allowed<R>(s: Store<R>, key: Key, limit: int, windowMs: int, calls: seq<Call<R>>): nat
    decreases |calls|
  {
    if calls == [] then 0
    else
      var o := Called(s, key, windowMs, calls[0]);
      (if calls[0].Counts? && Within(o.reply, limit) then 1 else 0) + Allowed(o.store, key, limit, windowMs, calls[1..])
  }

  /**
   * A counter without expiry never goes, however the calls of later hits interleave and whenever they come:
   * it counts them all, the rest of the limit is allowed, and from then on none ever is.
   */
  lemma {:induction false} NeverAgain<R>(s: Store<R>, key: Key, limit: int, windowMs: int, calls: seq<Call<R>>, n: nat)
    requires key in s && s[key] == Entry(Number(n), None)
    requires forall c | c in calls && c.Aside? :: c.op.key != key
    ensures var t := AfterCalls(s, key, windowMs, calls); key in t && t[key] == Entry(Number(n + Counted(calls)), None)
    ensures Allowed(s, key, limit, windowMs, calls) == if Counted(calls) <= limit - n
            then Counted(calls) else Positive(limit - n)
    decreases |calls|
  {
    if calls != [] {
      var o := Called(s, key, windowMs, calls[0]);
      if calls[0].Aside? {
        ApplyElsewhere(s, calls[0].op, calls[0].at, key);
      }
      NeverAgain(o.store, key, limit, windowMs, calls[1..], if calls[0].Counts? then n + 1 else n);
    }
  }

  /** So a hit torn apart by the end of its window leaves the key with what is left of one limit, for good. */
  lemma TornForGood<R(!new)>(s: Store<R>, key: Key, limit: int, windowMs: int, now: int, later: int,
                             calls: seq<Call<R>>)
    requires now <= later && Proper(s, key, now)
    requires later >= if Live(s, key, now).Some? then Live(s, key, now).value.expiresAt.value else now + windowMs
    requires forall c | c in calls && c.Aside? :: c.op.key != key
    ensures Allowed(Torn(s, key, limit, windowMs, now, later).store, key, limit, windowMs, calls) <= Positive(limit - 1)
    ensures Counted(calls) >= Positive(limit - 1) ==>
              Allowed(Torn(s, key, limit, windowMs, now, later).store, key, limit, windowMs, calls)
                  == Positive(limit - 1)
  {
    NeverAgain(Torn(s, key, limit, windowMs, now, later).store, key, limit, windowMs, calls, 1);
  }

  /** The first hit opens a window; later ones count in it. */
  lemma HitIs<R(!new)>(s: Store<R>, key: Key, limit: int, windowMs: int, now: int)
    requires windowMs > 0 && Proper(s, key, now)
    ensures var v := Hit(s, key, limit, windowMs, now);
            if Live(s, key, now).None? then
              v.store[key] == Entry(Number(1), Some(now + windowMs)) && v.allowed == (1 <= limit) && key in v.store
            else
              var n, end := Live(s, key, now).value.value.n, Live(s, key, now).value.expiresAt;
              key in v.store && v.store[key] == Entry(Number(n + 1), end) && v.allowed == (n + 1 <= limit)
  {
  }

  // ---- The bound over any interval --------------------------------------------------------------

  /** A hit on the key, or anything else done to the store at other keys. */
  datatype Event<R> = Hits(at: int) | Else(op: Op<R>, at: int)

  predicate Legal<R>(events: seq<Event<R>>, key: Key, start: int) {
    && (forall i | 0 <= i < |events| :: start <= events[i].at && (events[i].Else? ==> events[i].op.key != key))
    && (forall i, j | 0 <= i < j < |events| :: events[i].at <= events[j].at)
  }

  function Step<R>(s: Store<R>, key: Key, limit: int, windowMs: int, e: Event<R>): Verdict<R> {
    match e
    case Hits(at) => Hit(s, key, limit, windowMs, at)
    case Else(op, at) => Verdict(Apply(s, op, at).store, false)
  }

  /** How many hits are allowed in `[from, from + windowMs)`. */
  function AllowedIn<R>(s: Store<R>, key: Key, limit: int, windowMs: int, events: seq<Event<R>>, from: int): nat
    decreases |events|
  {
    if events == [] then 0
    else
      var v := Step(s, key, limit, windowMs, events[0]);
      (if v.allowed && from <= events[0].at < from + windowMs then 1 else 0)
        + AllowedIn(v.store, key, limit, windowMs, events[1..], from)
  }

  function Positive(n: int): nat {
    if n > 0 then n else 0
  }

  /** Two windows' worth, less the hit that opened the first: the second opens a whole window after it. */
  function Most(limit: int): nat {
    Positive(2 * limit - 1)
  }

  /** How many more hits the interval can still see allowed. */
  function Budget<R>(s: Store<R>, key: Key, limit: int, windowMs: int, now: int, from: int): nat {
    match Live(s, key, now)
    case Some(Entry(Number(count), Some(end))) =>
      if end >= from + windowMs then Positive(limit - count)
      else if end > from then Positive(limit - count) + Positive(limit)
      else Most(limit)
    case _ => if now >= from then Positive(limit) else Most(limit)
  }

  lemma BudgetLater<R(!new)>(s: Store<R>, key: Key, limit: int, windowMs: int, now: int, later: int, from: int)
    requires now <= later < from + windowMs && Proper(s, key, now)
    ensures Proper(s, key, later) && Budget(s, key, limit, windowMs, later, from)
            <= Budget(s, key, limit, windowMs, now, from)
  {
    if Live(s, key, now).Some? && Live(s, key, later).Some? {
      var count: nat, end: int :| Window(s, key, now, count, end);
      assert Window(s, key, later, count, end);
    }
  }

  /** A hit spends what it gets. */
  lemma HitSpends<R(!new)>(s: Store<R>, key: Key, limit: int, windowMs: int, now: int, from: int)
    requires windowMs > 0 && Proper(s, key, now) && now < from + windowMs
    ensures var v := Hit(s, key, limit, windowMs, now);
            && Proper(v.store, key, now)
            && (if v.allowed && from <= now then 1 else 0) + Budget(v.store, key, limit, windowMs, now, from)
               <= Budget(s, key, limit, windowMs, now, from)
  {
    HitIs(s, key, limit, windowMs, now);
    var v := Hit(s, key, limit, windowMs, now);
    if Live(s, key, now).None? {
      assert Window(v.store, key, now, 1, now + windowMs);
    } else {
      var count: nat, end: int :| Window(s, key, now, count, end);
      assert Window(v.store, key, now, count + 1, end);
    }
  }

  lemma ElseSpendsNothing<R(!new)>(s: Store<R>, key: Key, limit: int, windowMs: int, op: Op<R>, now: int, from: int)
    requires Proper(s, key, now) && op.key != key
    ensures var t := Apply(s, op, now).store;
            Proper(t, key, now) && Budget(t, key, limit, windowMs, now, from)
                == Budget(s, key, limit, windowMs, now, from)
  {
    ApplyElsewhere(s, op, now, key);
    var t := Apply(s, op, now).store;
    assert Live(t, key, now) == Live(s, key, now);
    if Live(s, key, now).Some? {
      var count: nat, end: int :| Window(s, key, now, count, end);
      assert Window(t, key, now, count, end);
    }
  }

  lemma {:induction false} Spent<R(!new)>(s: Store<R>, key: Key, limit: int, windowMs: int, events: seq<Event<R>>,
                                          start: int, from: int)
    requires windowMs > 0 && Legal(events, key, start) && Proper(s, key, start) && start < from + windowMs
    ensures AllowedIn(s, key, limit, windowMs, events, from) <= Budget(s, key, limit, windowMs, start, from)
    decreases |events|
  {
    if events != [] {
      var now := events[0].at;
      if now >= from + windowMs {
        NoneAfter(s, key, limit, windowMs, events, from);
      } else {
        BudgetLater(s, key, limit, windowMs, start, now, from);
        if events[0].Hits? {
          HitSpends(s, key, limit, windowMs, now, from);
        } else {
          ElseSpendsNothing(s, key, limit, windowMs, events[0].op, now, from);
        }
        Spent(Step(s, key, limit, windowMs, events[0]).store, key, limit, windowMs, events[1..], now, from);
      }
    }
  }

  lemma {:induction false} NoneAfter<R(!new)>(s: Store<R>, key: Key, limit: int, windowMs: int, events: seq<Event<R>>,
                                              from: int)
    requires forall i | 0 <= i < |events| :: events[i].at >= from + windowMs
    ensures AllowedIn(s, key, limit, windowMs, events, from) == 0
    decreases |events|
  {
    if events != [] {
      NoneAfter(Step(s, key, limit, windowMs, events[0]).store, key, limit, windowMs, events[1..], from);
    }
  }

  /**
   * Any half-open interval of one window's length sees fewer than twice the limit allowed, whatever else the
   * store is used for.
   */
  lemma UnderTwiceTheLimit<R(!new)>(s: Store<R>, key: Key, limit: int, windowMs: int, events: seq<Event<R>>,
                                    start: int, from: int)
    requires windowMs > 0 && key !in s && Legal(events, key, start)
    ensures AllowedIn(s, key, limit, windowMs, events, from) <= Most(limit)
  {
    if start < from + windowMs {
      Spent(s, key, limit, windowMs, events, start, from);
    } else {
      NoneAfter(s, key, limit, windowMs, events, from);
    }
  }

  /** The bound is met: a full window's last moment and the next one's first. */
  lemma BoundIsMet<R(!new)>(key: Key)
    ensures AllowedIn<R>(map[], key, 2, 10, [Hits(0), Hits(9), Hits(10), Hits(11)], 9) == 3 == Most(2)
  {
  }

  ghost function Final<R>(s: Store<R>, key: Key, limit: int, windowMs: int, events: seq<Event<R>>): Store<R>
    decreases |events|
  {
    if events == [] then s else Final(Step(s, key, limit, windowMs, events[0]).store, key, limit, windowMs, events[1..])
  }

  /** Every live counter has an expiry, after any run. */
  lemma {:induction false} CountersExpire<R(!new)>(s: Store<R>, key: Key, limit: int, windowMs: int,
      events: seq<Event<R>>, start: int, end: int)
    requires windowMs > 0 && Legal(events, key, start) && Proper(s, key, start) && start <= end
             && forall i | 0 <= i < |events| :: events[i].at <= end
    ensures Proper(Final(s, key, limit, windowMs, events), key, end)
    decreases |events|
  {
    if events == [] {
      if Live(s, key, end).Some? {
        var count: nat, e: int :| Window(s, key, start, count, e);
        assert Window(s, key, end, count, e);
      }
    } else {
      var now := events[0].at;
      BudgetLater(s, key, limit, windowMs, start, now, now);
      if events[0].Hits? {
        HitSpends(s, key, limit, windowMs, now, now);
      } else {
        ElseSpendsNothing(s, key, limit, windowMs, events[0].op, now, now);
      }
      CountersExpire(Step(s, key, limit, windowMs, events[0]).store, key, limit, windowMs, events[1..], now, end);
    }
  }
}

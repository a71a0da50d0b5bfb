/** CLI auth, one call at a time: what each comes to when calls about other requests alone go on beside it. */
module CliAuthSerial {
  import opened Bytes
  import opened Redis
  import opened Docs
  import opened CliAuths

  // ---- One call at a time -----------------------------------------------------------------------

  function Rank(call: Call): nat {
    match call
    case Done(_) => 0
    case Start(_, _, _, _, _, _) => 1
    case Retire(_, _, _) => 1
    case StoreGrant(_, _, _, _, _) => 1
    case Invalidate(_) => 1
    case StoreToken(_, _, _, _, _) => 2
    case CountAttempt(_) => 2
    case TakeGrant(_, _, _, _, _, _) => 3
    case ArmAttempts(_, _, _) => 3
    case Approve(_, _, _, _, _) => 4
    case Exchange(_, _, _, _, _, _) => 4
  }

  /** The keys of one request. */
  predicate Own(key: Key, r: nat) {
    key == RequestKey(r) || key == AttemptsKey(r) || key == GrantKey(r)
  }

  /**
   * One store step of a call: what others do to the store while it is awaited, and the store's clock when it is
   * taken.
   */
  datatype Tick = Tick(others: seq<Timed<Doc>>, clock: int)

  function Meanwhile(s: Store<Doc>, others: seq<Timed<Doc>>): Store<Doc>
    decreases |others|
  {
    if others == [] then s else Meanwhile(Apply(s, others[0].op, others[0].at).store, others[1..])
  }

  predicate Same(s: Store<Doc>, t: Store<Doc>, key: Key) {
    (key in s <==> key in t) && (key in s ==> s[key] == t[key])
  }

  lemma {:induction false} MeanwhileSame(s: Store<Doc>, others: seq<Timed<Doc>>, key: Key)
    requires forall o | o in others :: o.op.key != key
    ensures Same(s, Meanwhile(s, others), key)
    decreases |others|
  {
    if others != [] {
      ApplyElsewhere(s, others[0].op, others[0].at, key);
      MeanwhileSame(Apply(s, others[0].op, others[0].at).store, others[1..], key);
    }
  }

  predicate Foreign(others: seq<Timed<Doc>>, r: nat) {
    forall o | o in others :: !Own(o.op.key, r)
  }

  /**
   * The store's clock starts no earlier than the caller's and does not run back; what comes in between is not
   * about `r`.
   */
  predicate Elapses(ticks: seq<Tick>, r: nat, now: int)
    decreases |ticks|
  {
    ticks != [] ==> now <= ticks[0].clock && Foreign(ticks[0].others, r) && Elapses(ticks[1..], r, ticks[0].clock)
  }

  function Last(ticks: seq<Tick>): int
    requires ticks != []
  {
    ticks[|ticks| - 1].clock
  }

  lemma {:induction false} LastIsLast(ticks: seq<Tick>, r: nat, now: int)
    requires Elapses(ticks, r, now) && ticks != []
    ensures now <= ticks[0].clock <= Last(ticks)
    decreases |ticks|
  {
    if |ticks| > 1 {
      LastIsLast(ticks[1..], r, ticks[0].clock);
    }
  }

  function Take(s: Store<Doc>, call: Call, tick: Tick): Progress {
    StepCall(Meanwhile(s, tick.others), call, tick.clock)
  }

  /** A call run to its end, a tick a step. */
  function Finish(s: Store<Doc>, call: Call, ticks: seq<Tick>): (p: Progress)
    requires |ticks| >= Rank(call)
    ensures p.call.Done?
    decreases Rank(call)
  {
    if call.Done? then Progress(s, call)
    else
      var p := Take(s, call, ticks[0]);
      Finish(p.store, p.call, ticks[1..])
  }

  /** What others do to the store in between does not touch the request's keys. */
  lemma TickSame(s: Store<Doc>, tick: Tick, r: nat)
    requires Foreign(tick.others, r)
    ensures var t := Meanwhile(s, tick.others);
            Same(s, t, RequestKey(r)) && Same(s, t, AttemptsKey(r)) && Same(s, t, GrantKey(r))
  {
    MeanwhileSame(s, tick.others, RequestKey(r));
    MeanwhileSame(s, tick.others, AttemptsKey(r));
    MeanwhileSame(s, tick.others, GrantKey(r));
  }

  // ---- What a request's keys hold ---------------------------------------------------------------

  /** The request's record, which a caller with an earlier clock than its expiry finds alive. */
  predicate Holds(s: Store<Doc>, r: nat, record: Doc) {
    && record.RequestDoc? && RequestKey(r) in s && s[RequestKey(r)].value == Json(record)
    && s[RequestKey(r)].expiresAt.Some? && s[RequestKey(r)].expiresAt.value >= record.expiresAt
  }

  /** An attempt counter that does not expire before its request. */
  predicate Tally(s: Store<Doc>, r: nat, record: Doc, n: nat)
    requires record.RequestDoc?
  {
    && AttemptsKey(r) in s && s[AttemptsKey(r)].value == Number(n)
    && s[AttemptsKey(r)].expiresAt.Some? && s[AttemptsKey(r)].expiresAt.value >= record.expiresAt
  }

  /** A request whose wrong codes so far are exactly what its attempt counter says. */
  predicate Counted(s: Store<Doc>, r: nat, record: Doc, wrong: nat) {
    Holds(s, r, record) && if wrong == 0 then AttemptsKey(r) !in s else Tally(s, r, record, wrong)
  }

  /** Some caller from `now` on may still find the request: before the record's own expiry, whatever the store's. */
  predicate Findable(s: Store<Doc>, r: nat, now: int) {
    && RequestKey(r) in s && s[RequestKey(r)].value.Json? && s[RequestKey(r)].value.record.RequestDoc?
    && s[RequestKey(r)].value.record.expiresAt > now
  }

  function RecordOf(s: Store<Doc>, r: nat): Doc
    requires RequestKey(r) in s && s[RequestKey(r)].value.Json?
  {
    s[RequestKey(r)].value.record
  }

  /** What a call with clock `now` loads at the store's clock `clock`. */
  function Request(s: Store<Doc>, r: nat, now: int, clock: int): Option<Doc> {
    Loaded(Apply(s, Get(RequestKey(r)), clock).reply, now)
  }

  // ---- Outcomes ---------------------------------------------------------------------------------

  /** An exchange or an approval that finds no live request is refused; only an expired entry goes. */
  lemma DeadIsRefused(s: Store<Doc>, call: Call, ticks: seq<Tick>)
    requires (call.Approve? || call.Exchange?) && |ticks| >= 4 && Elapses(ticks, call.request, call.now)
    requires Request(s, call.request, call.now, ticks[0].clock).None?
    ensures var p, r := Finish(s, call, ticks), call.request;
            && p.call == Done(Refused) && Same(s, p.store, AttemptsKey(r)) && Same(s, p.store, GrantKey(r))
            && (Same(s, p.store, RequestKey(r))
                || (RequestKey(r) in s && Expired(s[RequestKey(r)], ticks[0].clock) && RequestKey(r) !in p.store))
  {
    TickSame(s, ticks[0], call.request);
    var p := Take(s, call, ticks[0]);
    assert p.call == Done(Refused);
    assert Finish(p.store, p.call, ticks[1..]) == p;
  }

  /** The exchange shows the request's secret, a grant waits, and a callback request's code is the grant's. */
  predicate Presents(s: Store<Doc>, call: Call, ticks: seq<Tick>, userId: nat)
    requires call.Exchange? && |ticks| >= 4
  {
    var record, grant := Request(s, call.request, call.now, ticks[0].clock),
        Live(s, GrantKey(call.request), ticks[1].clock);
    && record.Some? && call.secret == record.value.secret
    && grant.Some? && grant.value.value.Json? && grant.value.value.record.GrantDoc?
       && grant.value.value.record.userId == userId
    && (record.value.callback ==> call.code.Some? && call.code == grant.value.value.record.code)
  }

  predicate TokenStored(s: Store<Doc>, token: nat, userId: nat, expiresAt: int, entryExpiresAt: int) {
    TokenKey(token) in s && s[TokenKey(token)] == Entry(Json(TokenDoc(userId, expiresAt)), Some(entryExpiresAt))
  }

  /** Minting: the token is stored and the request retired. */
  lemma MintOutcome(s: Store<Doc>, call: Call, ticks: seq<Tick>)
    requires call.StoreToken? && |ticks| >= 2 && Elapses(ticks, call.request, call.now)
    requires forall o | o in ticks[1].others :: o.op.key != TokenKey(call.newToken)
    ensures var p, r := Finish(s, call, ticks), call.request;
            && p.call == Done(Minted(call.newToken, call.userId)) && RequestKey(r) !in p.store
               && Same(s, p.store, GrantKey(r))
            && TokenStored(p.store, call.newToken, call.userId, call.now + call.ttlMs, ticks[0].clock + call.ttlMs)
  {
    var r := call.request;
    TickSame(s, ticks[0], r);
    var p1 := Take(s, call, ticks[0]);
    TickSame(p1.store, ticks[1], r);
    MeanwhileSame(p1.store, ticks[1].others, TokenKey(call.newToken));
    var p2 := Take(p1.store, p1.call, ticks[1]);
    assert Finish(p1.store, p1.call, ticks[1..]) == Finish(p2.store, p2.call, ticks[1..][1..]) == p2;
  }

  /** The grant is gone; missing, it leaves the exchange pending, and accepted, it comes to a token. */
  lemma GrantOutcome(s: Store<Doc>, call: Call, ticks: seq<Tick>)
    requires call.TakeGrant? && |ticks| >= 3 && Elapses(ticks, call.request, call.now)
    requires forall i | 0 <= i < |ticks| :: forall o | o in ticks[i].others :: o.op.key != TokenKey(call.newToken)
    ensures var p, r, grant := Finish(s, call, ticks), call.request, Live(s, GrantKey(call.request), ticks[0].clock);
            var userId := if grant.Some? then Granted(Found(grant.value.value), call.record, call.code) else None;
            && GrantKey(r) !in p.store
            && p.call.result == (if grant.None?
                                 then Pending else if userId.None?
                                         then Refused else Minted(call.newToken, userId.value))
            && (userId.Some? ==>
                  && RequestKey(r) !in p.store
                  && TokenStored(p.store, call.newToken, userId.value, call.now + call.ttlMs,
                                 ticks[1].clock + call.ttlMs))
  {
    var r := call.request;
    TickSame(s, ticks[0], r);
    var p := Take(s, call, ticks[0]);
    assert Finish(s, call, ticks) == Finish(p.store, p.call, ticks[1..]);
    if p.call.StoreToken? {
      ElapsesFrom(ticks[1..], r, call.now, ticks[0].clock);
      MintOutcome(p.store, p.call, ticks[1..]);
    }
  }

  /**
   * An exchange mints exactly when it presents secret, grant and code, and for the approving user; it is
   * pending exactly when only the grant is missing; a wrong secret burns no grant, a wrong code does.
   */
  lemma ExchangeOutcome(s: Store<Doc>, call: Call, ticks: seq<Tick>, userId: nat)
    requires call.Exchange? && |ticks| >= 4 && Elapses(ticks, call.request, call.now)
    requires forall i | 0 <= i < |ticks| :: forall o | o in ticks[i].others :: o.op.key != TokenKey(call.newToken)
    ensures var p, r := Finish(s, call, ticks), call.request;
            var record := Request(s, r, call.now, ticks[0].clock);
            var known := record.Some? && call.secret == record.value.secret;
            && (p.call.result == Minted(call.newToken, userId) <==> Presents(s, call, ticks, userId))
            && (p.call.result.Minted? ==>
                  p.call.result.token == call.newToken && RequestKey(r) !in p.store
                  && TokenStored(p.store, call.newToken, p.call.result.userId, call.now + call.ttlMs,
                                 ticks[2].clock + call.ttlMs))
            && (p.call.result == Pending <==> known && Live(s, GrantKey(r), ticks[1].clock).None?)
            && (if known then GrantKey(r) !in p.store else Same(s, p.store, GrantKey(r)))
  {
    var r := call.request;
    TickSame(s, ticks[0], r);
    var p1 := Take(s, call, ticks[0]);
    assert Finish(s, call, ticks) == Finish(p1.store, p1.call, ticks[1..]);
    assert Same(s, p1.store, GrantKey(r));
    if p1.call.TakeGrant? {
      ElapsesFrom(ticks[1..], r, call.now, ticks[0].clock);
      GrantOutcome(p1.store, p1.call, ticks[1..]);
    }
  }

  lemma ElapsesFrom(ticks: seq<Tick>, r: nat, now: int, later: int)
    requires now <= later && Elapses(ticks, r, later)
    ensures Elapses(ticks, r, now)
  {
  }

  /**
   * An approval wins exactly when it finds a live request, with its code if it asks for one, that nobody has
   * approved; its grant outlives the request.
   */
  lemma ApproveOutcome(s: Store<Doc>, call: Call, ticks: seq<Tick>)
    requires call.Approve? && |ticks| >= 4 && Elapses(ticks, call.request, call.now)
    ensures var p, r := Finish(s, call, ticks), call.request;
            var record := Request(s, r, call.now, ticks[0].clock);
            && (p.call.result.Approved? <==>
                  && record.Some? && !WrongCode(record.value, call.provided)
                  && Live(s, GrantKey(r), ticks[1].clock).None?)
            && (p.call.result.Approved? ==>
                  && p.call.result.code == (if record.value.callback then Some(call.newCode) else None)
                  && GrantKey(r) in p.store
                  && p.store[GrantKey(r)] == Entry(Json(GrantDoc(call.userId, p.call.result.code)),
                                                   Some(ticks[1].clock - call.now + record.value.expiresAt)))
            && (!p.call.result.Approved? ==>
                  Live(p.store, GrantKey(r), Last(ticks)) == Live(s, GrantKey(r), Last(ticks)))
  {
    var r := call.request;
    LastIsLast(ticks, r, call.now);
    LastIsLast(ticks[1..], r, ticks[0].clock);
    TickSame(s, ticks[0], r);
    var p1 := Take(s, call, ticks[0]);
    assert Finish(s, call, ticks) == Finish(p1.store, p1.call, ticks[1..]);
    assert Same(s, p1.store, GrantKey(r));
    if p1.call.StoreGrant? {
      TickSame(p1.store, ticks[1], r);
      var p2 := Take(p1.store, p1.call, ticks[1]);
      assert Finish(p1.store, p1.call, ticks[1..]) == Finish(p2.store, p2.call, ticks[1..][1..]) == p2;
    } else if p1.call.ArmAttempts? {
      AttemptsOffGrants(p1.store, p1.call, ticks[1..], ticks[0].clock);
    }
  }

  /** Counting a wrong code ends in a refusal and touches no grant. */
  lemma AttemptsOffGrants(s: Store<Doc>, call: Call, ticks: seq<Tick>, from: int)
    requires (call.ArmAttempts? || call.CountAttempt? || call.Invalidate?) && |ticks| >= Rank(call)
             && Elapses(ticks, call.request, from)
    ensures Finish(s, call, ticks).call == Done(Refused)
            && Same(s, Finish(s, call, ticks).store, GrantKey(call.request))
    decreases Rank(call)
  {
    TickSame(s, ticks[0], call.request);
    var p := Take(s, call, ticks[0]);
    if !p.call.Done? {
      AttemptsOffGrants(p.store, p.call, ticks[1..], ticks[0].clock);
    }
  }

  // ---- Attempts ---------------------------------------------------------------------------------

  /** The step that counts: the counter goes up, and at the limit the request is to go; or the request has expired. */
  lemma CountStep(s: Store<Doc>, r: nat, record: Doc, n: nat, clock: int)
    requires Holds(s, r, record) && Tally(s, r, record, n) && clock < record.expiresAt
    ensures var p := StepCall(s, CountAttempt(r), clock);
            && Holds(p.store, r, record) && Tally(p.store, r, record, n + 1)
            && p.call == if n + 1 >= MAX_APPROVE_ATTEMPTS then Invalidate(r) else Done(Refused)
  {
  }

  /** The step before: the counter is there, as it was or new at zero, for as long as the request. */
  lemma ArmStep(s: Store<Doc>, r: nat, record: Doc, n: nat, now: int, clock: int)
    requires Counted(s, r, record, n) && now <= clock < record.expiresAt
    ensures var p := StepCall(s, ArmAttempts(r, record, now), clock);
            Holds(p.store, r, record) && Tally(p.store, r, record, n) && p.call == CountAttempt(r)
  {
  }

  lemma SameHolds(s: Store<Doc>, t: Store<Doc>, r: nat, record: Doc, n: nat)
    requires Same(s, t, RequestKey(r)) && Same(s, t, AttemptsKey(r)) && record.RequestDoc?
    ensures Holds(t, r, record) <==> Holds(s, r, record)
    ensures Tally(t, r, record, n) <==> Tally(s, r, record, n)
    ensures Counted(t, r, record, n) <==> Counted(s, r, record, n)
  {
  }

  /**
   * A wrong code shown to a live request spends one attempt, and the fifth ends the request; unless it expires
   * first.
   */
  lemma WrongCodeCounts(s: Store<Doc>, call: Call, ticks: seq<Tick>, record: Doc, wrong: nat)
    requires call.Approve? && |ticks| >= 4 && Elapses(ticks, call.request, call.now)
    requires Counted(s, call.request, record, wrong)
             && Request(s, call.request, call.now, ticks[0].clock) == Some(record)
    requires WrongCode(record, call.provided)
    ensures var p, r := Finish(s, call, ticks), call.request;
            && p.call == Done(Refused)
            && (Last(ticks) < record.expiresAt ==>
                  if wrong + 1 < MAX_APPROVE_ATTEMPTS
                      then Counted(p.store, r, record, wrong + 1) else RequestKey(r) !in p.store)
  {
    var r := call.request;
    TickSame(s, ticks[0], r);
    var p1 := Take(s, call, ticks[0]);
    assert p1.call == ArmAttempts(r, record, call.now);
    SameHolds(s, p1.store, r, record, wrong);
    AttemptsOffGrants(p1.store, p1.call, ticks[1..], ticks[0].clock);
    if Last(ticks) < record.expiresAt {
      Attempt(p1.store, ticks[1..], r, record, wrong, call.now);
    }
  }

  lemma Attempt(s: Store<Doc>, ticks: seq<Tick>, r: nat, record: Doc, wrong: nat, now: int)
    requires |ticks| >= 3 && Elapses(ticks, r, now) && Counted(s, r, record, wrong) && Last(ticks) < record.expiresAt
    ensures var p := Finish(s, ArmAttempts(r, record, now), ticks);
            if wrong + 1 < MAX_APPROVE_ATTEMPTS
                then Counted(p.store, r, record, wrong + 1) else RequestKey(r) !in p.store
  {
    var t := ticks[1..];
    LastIsLast(ticks, r, now);
    LastIsLast(t, r, ticks[0].clock);
    TickSame(s, ticks[0], r);
    SameHolds(s, Meanwhile(s, ticks[0].others), r, record, wrong);
    ArmStep(Meanwhile(s, ticks[0].others), r, record, wrong, now, ticks[0].clock);
    var p1 := Take(s, ArmAttempts(r, record, now), ticks[0]);
    TickSame(p1.store, t[0], r);
    SameHolds(p1.store, Meanwhile(p1.store, t[0].others), r, record, wrong);
    CountStep(Meanwhile(p1.store, t[0].others), r, record, wrong, t[0].clock);
    var p2 := Take(p1.store, p1.call, t[0]);
    assert Finish(p1.store, p1.call, t) == Finish(p2.store, p2.call, t[1..]);
    if p2.call.Invalidate? {
      var p3 := Take(p2.store, p2.call, t[1..][0]);
      assert Finish(p2.store, p2.call, t[1..]) == p3;
    }
  }

  /** A right code, or none asked for, leaves request and counter alone. */
  lemma RightCodeCounts(s: Store<Doc>, call: Call, ticks: seq<Tick>, record: Doc, wrong: nat)
    requires call.Approve? && |ticks| >= 4 && Elapses(ticks, call.request, call.now)
    requires Counted(s, call.request, record, wrong)
             && Request(s, call.request, call.now, ticks[0].clock) == Some(record)
    requires !WrongCode(record, call.provided)
    ensures Counted(Finish(s, call, ticks).store, call.request, record, wrong)
  {
    var r := call.request;
    TickSame(s, ticks[0], r);
    var p1 := Take(s, call, ticks[0]);
    SameHolds(s, p1.store, r, record, wrong);
    TickSame(p1.store, ticks[1], r);
    var p2 := Take(p1.store, p1.call, ticks[1]);
    assert Finish(p1.store, p1.call, ticks[1..]) == p2;
    SameHolds(p1.store, p2.store, r, record, wrong);
  }

  /** An exchange mints and retires the request, or leaves request and counter alone. */
  lemma ExchangeRetires(s: Store<Doc>, call: Call, ticks: seq<Tick>, record: Doc, wrong: nat)
    requires call.Exchange? && |ticks| >= 4 && Elapses(ticks, call.request, call.now)
    requires Counted(s, call.request, record, wrong)
             && Request(s, call.request, call.now, ticks[0].clock) == Some(record)
    ensures var p, r := Finish(s, call, ticks), call.request;
            if p.call.result.Minted? then RequestKey(r) !in p.store else Counted(p.store, r, record, wrong)
  {
    var r := call.request;
    TickSame(s, ticks[0], r);
    var p1 := Take(s, call, ticks[0]);
    SameHolds(s, p1.store, r, record, wrong);
    if p1.call.TakeGrant? {
      TickSame(p1.store, ticks[1], r);
      var p2 := Take(p1.store, p1.call, ticks[1]);
      SameHolds(p1.store, p2.store, r, record, wrong);
      assert Finish(p1.store, p1.call, ticks[1..]) == Finish(p2.store, p2.call, ticks[1..][1..]);
      if p2.call.StoreToken? {
        var p3 := Take(p2.store, p2.call, ticks[2]);
        var p4 := Take(p3.store, p3.call, ticks[3]);
        assert Finish(p2.store, p2.call, ticks[1..][1..]) == Finish(p3.store, p3.call, ticks[1..][1..][1..]) == p4;
      }
    }
  }

  /** And whoever comes once it is found no more is refused. */
  lemma GoneIsRefused(s: Store<Doc>, call: Call, ticks: seq<Tick>)
    requires (call.Approve? || call.Exchange?) && |ticks| >= 4 && Elapses(ticks, call.request, call.now)
    requires !Findable(s, call.request, call.now)
    ensures Finish(s, call, ticks).call == Done(Refused)
  {
    DeadIsRefused(s, call, ticks);
  }
}

/** Tokens of a request. */
module CliAuthTokens {
  // CLI auth with calls about one request overlapping: when it yields one token, and when it may yet
  // yield a second.

  import opened Bytes
  import opened Redis
  import opened Docs
  import opened CliAuths
  import opened CliAuthSerial

  // ---- Overlapping calls ------------------------------------------------------------------------

  /** Request 7 is started, approved by user 11, and its second approval, by user 12, has loaded the request. */
  function Opening(): seq<Event> {
    [Begins(Start(7, 1, true, "", 1000, 0)), Moves(0, 0)]
    + [Begins(Approve(7, 11, None, 100, 0)), Moves(1, 0), Moves(1, 0)]
    + [Begins(Approve(7, 12, None, 200, 0)), Moves(2, 0)]
  }

  /**
   * An exchange takes the first grant, the second approval stores another, a second exchange mints from that,
   * and the first from its own.
   */
  function Overlap(): seq<Event> {
    [Begins(Exchange(7, 1, Some(100), 900, 50, 0)), Moves(3, 0), Moves(3, 0)]
    + [Moves(2, 0)]
    + [Begins(Exchange(7, 1, Some(200), 901, 50, 0)), Moves(4, 0), Moves(4, 0), Moves(4, 0)]
    + [Moves(3, 0)]
  }

  lemma Run1(w: World, e: Event)
    ensures Run(w, [e]) == Next(w, e)
  {
    assert [e][1..] == [];
  }

  lemma Run2(w: World, e: Event, f: Event)
    ensures Run(w, [e, f]) == Next(Next(w, e), f)
  {
    assert [e, f] == [e] + [f];
    RunConcat(w, [e], [f]);
    Run1(w, e);
    Run1(Next(w, e), f);
  }

  lemma Run3(w: World, e: Event, f: Event, g: Event)
    ensures Run(w, [e, f, g]) == Next(Next(Next(w, e), f), g)
  {
    assert [e, f, g] == [e, f] + [g];
    RunConcat(w, [e, f], [g]);
    Run2(w, e, f);
    Run1(Next(Next(w, e), f), g);
  }

  const HELD := RequestDoc(1, true, 1000, None)

  function Waiting(): World {
    World(map[RequestKey(7) := Entry(Json(HELD), Some(1000)),
              GrantKey(7) := Entry(Json(GrantDoc(11, Some(100))), Some(1000))],
          [Done(Started), Done(Approved(Some(100))), StoreGrant(7, HELD, 12, 200, 0)], [(7, 11)], [])
  }

  lemma Opens()
    ensures Run(World(map[], [], [], []), Opening()) == Waiting()
  {
    var w0 := World(map[], [], [], []);
    var w1 := World(map[RequestKey(7) := Entry(Json(HELD), Some(1000))], [Done(Started)], [], []);
    var e1 := [Begins(Start(7, 1, true, "", 1000, 0)), Moves(0, 0)];
    Run2(w0, e1[0], e1[1]);
    assert Run(w0, e1) == w1;
    var w2 := Waiting().(calls := w1.calls + [Done(Approved(Some(100)))]);
    var e2 := [Begins(Approve(7, 11, None, 100, 0)), Moves(1, 0), Moves(1, 0)];
    Run3(w1, e2[0], e2[1], e2[2]);
    assert Run(w1, e2) == w2;
    var e3 := [Begins(Approve(7, 12, None, 200, 0)), Moves(2, 0)];
    Run2(w2, e3[0], e3[1]);
    RunConcat(w0, e1, e2);
    RunConcat(w0, e1 + e2, e3);
  }

  /** The second exchange's last step, and the first one's. */
  function Racing(): World {
    World(map[RequestKey(7) := Entry(Json(HELD), Some(1000)),
              GrantKey(7) := Entry(Json(GrantDoc(12, Some(200))), Some(1000))],
          [Done(Started), Done(Approved(Some(100))), Done(Approved(Some(200))), StoreToken(7, 11, 900, 50, 0)],
              [(7, 11), (7, 12)], [])
  }

  lemma Races()
    ensures Run(Waiting(), [Begins(Exchange(7, 1, Some(100), 900, 50, 0)), Moves(3, 0), Moves(3, 0)] + [Moves(2, 0)])
            == Racing()
  {
    var e4 := [Begins(Exchange(7, 1, Some(100), 900, 50, 0)), Moves(3, 0), Moves(3, 0)];
    Run3(Waiting(), e4[0], e4[1], e4[2]);
    var w4 := Run(Waiting(), e4);
    assert w4.calls == Waiting().calls + [StoreToken(7, 11, 900, 50, 0)];
    assert w4.store == map[RequestKey(7) := Entry(Json(HELD), Some(1000))];
    Run1(w4, Moves(2, 0));
    RunConcat(Waiting(), e4, [Moves(2, 0)]);
  }

  /** The second exchange about to take the second grant. */
  function Taking(): World {
    Racing().(calls := Racing().calls + [TakeGrant(7, HELD, Some(200), 901, 50, 0)])
  }

  lemma Finds()
    ensures Run(Racing(), [Begins(Exchange(7, 1, Some(200), 901, 50, 0)), Moves(4, 0)]) == Taking()
  {
    var begin := Begins(Exchange(7, 1, Some(200), 901, 50, 0));
    Run2(Racing(), begin, Moves(4, 0));
    assert Next(Racing(), begin).calls[4] == begin.call;
  }

  lemma Mints()
    ensures Run(Taking(), [Moves(4, 0), Moves(4, 0), Moves(3, 0)]).minted == [(7, 12), (7, 11)]
  {
    Run3(Taking(), Moves(4, 0), Moves(4, 0), Moves(3, 0));
    var u3 := Next(Taking(), Moves(4, 0));
    assert u3.calls[4] == StoreToken(7, 12, 901, 50, 0) && u3.minted == [];
    var u4 := Next(u3, Moves(4, 0));
    assert u4.minted == [(7, 12)] && u4.calls[3] == StoreToken(7, 11, 900, 50, 0);
  }

  /**
   * One token a request is not what the code keeps when an approval and an exchange overlap: here one request
   * yields two, each by its own approval.
   */
  lemma TwoTokens()
    ensures Run(World(map[], [], [], []), Opening() + Overlap()).minted == [(7, 12), (7, 11)]
  {
    var w0 := World(map[], [], [], []);
    var e45 := [Begins(Exchange(7, 1, Some(100), 900, 50, 0)), Moves(3, 0), Moves(3, 0)] + [Moves(2, 0)];
    var e6 := [Begins(Exchange(7, 1, Some(200), 901, 50, 0)), Moves(4, 0)];
    var e7 := [Moves(4, 0), Moves(4, 0), Moves(3, 0)];
    Opens();
    Races();
    Finds();
    Mints();
    assert Overlap() == e45 + (e6 + e7);
    RunConcat(w0, Opening(), Overlap());
    RunConcat(Waiting(), e45, e6 + e7);
    RunConcat(Racing(), e6, e7);
  }

  // ---- Calls about one request ------------------------------------------------------------------

  predicate Concerns(call: Call, r: nat) {
    !call.Done? && call.request == r
  }

  predicate Approving(call: Call, r: nat) {
    Concerns(call, r) && (call.Approve? || call.ArmAttempts? || call.CountAttempt? || call.Invalidate?
                          || call.StoreGrant?)
  }

  predicate Exchanging(call: Call, r: nat) {
    Concerns(call, r) && (call.Exchange? || call.TakeGrant? || call.StoreToken? || call.Retire?)
  }

  predicate Starting(call: Call, r: nat) {
    call.Start? && call.request == r
  }

  predicate Moved(w: World, e: Event, r: nat) {
    e.Moves? && e.k < |w.calls| && Concerns(w.calls[e.k], r)
  }

  /** The tokens minted for `r`. */
  function Tokens(minted: seq<Claim>, r: nat): nat {
    if minted == [] then 0
    else Tokens(minted[..|minted| - 1], r) + if minted[|minted| - 1].0 == r then 1 else 0
  }

  lemma TokensSnoc(minted: seq<Claim>, c: Claim, r: nat)
    ensures Tokens(minted + [c], r) == Tokens(minted, r) + if c.0 == r then 1 else 0
  {
    assert (minted + [c])[..|minted|] == minted;
  }

  predicate Minting(call: Call, r: nat) {
    call.StoreToken? && call.request == r
  }

  function Minter(r: nat): Call -> bool {
    call => Minting(call, r)
  }

  /**
   * The grants of `r` that exchanges took and accepted: those whose token is minted, and those whose token is
   * still to be.
   */
  function Taken(w: World, r: nat): nat {
    Tokens(w.minted, r) + Count(w.calls, Minter(r))
  }

  /** A step about another request is one operation on keys that are not this one's. */
  function StepOp(call: Call): Op<Doc>
    requires !call.Done?
  {
    match call
    case Start(request, secret, callback, userCode, ttlMs, now) =>
      Set(RequestKey(request), Json(RequestDoc(secret, callback, now + ttlMs, if callback
                                               then None else Some(NormalizeUserCode(userCode)))), Some(ttlMs), true)
    case Approve(request, _, _, _, _) => Get(RequestKey(request))
    case ArmAttempts(request, record, now) =>
      Set(AttemptsKey(request), Number(0), Some(if record.RequestDoc? then Max(1, record.expiresAt - now) else 1), true)
    case CountAttempt(request) => Incr(AttemptsKey(request))
    case Invalidate(request) => Del(RequestKey(request))
    case StoreGrant(request, record, userId, newCode, now) =>
      Set(GrantKey(request), Json(GrantDoc(userId, if record.RequestDoc?
                                           && record.callback then Some(newCode) else None)),
          Some(if record.RequestDoc? then record.expiresAt - now else 0), true)
    case Exchange(request, _, _, _, _, _) => Get(RequestKey(request))
    case TakeGrant(request, _, _, _, _, _) => GetDel(GrantKey(request))
    case StoreToken(_, userId, newToken, ttlMs, now) =>
          Set(TokenKey(newToken), Json(TokenDoc(userId, now + ttlMs)), Some(ttlMs), false)
    case Retire(request, _, _) => Del(RequestKey(request))
  }

  lemma StepIsForeign(s: Store<Doc>, call: Call, clock: int, r: nat)
    requires !call.Done?
    ensures var p := StepCall(s, call, clock);
            p.store == Apply(s, StepOp(call), clock).store && (p.call.Done? || p.call.request == call.request)
    ensures call.request != r ==> !Own(StepOp(call).key, r)
  {
  }

  /** Nothing new under the key. */
  predicate Kept(s: Store<Doc>, t: Store<Doc>, key: Key) {
    key in t ==> key in s && t[key] == s[key]
  }

  /** Who writes a request's record and its grant, and which step takes a grant. */
  lemma MoveKeys(s: Store<Doc>, call: Call, clock: int, r: nat)
    ensures var p := StepCall(s, call, clock);
            && (Kept(s, p.store, RequestKey(r)) || Starting(call, r))
            && (Kept(s, p.store, GrantKey(r)) || (call.StoreGrant? && call.request == r))
            && (Minting(p.call, r) ==>
                  call.TakeGrant? && call.request == r && GrantKey(r) in s && GrantKey(r) !in p.store)
  {
    if !call.Done? && call.request != r {
      StepIsForeign(s, call, clock, r);
      ApplyElsewhere(s, StepOp(call), clock, RequestKey(r));
      ApplyElsewhere(s, StepOp(call), clock, GrantKey(r));
    }
  }

  lemma NextKeys(w: World, e: Event, r: nat)
    requires e.Elsewhere? ==> !Own(e.op.key, r)
    ensures Kept(w.store, Next(w, e).store, RequestKey(r)) || (Moved(w, e, r) && w.calls[e.k].Start?)
    ensures Kept(w.store, Next(w, e).store, GrantKey(r)) || (Moved(w, e, r) && w.calls[e.k].StoreGrant?)
  {
    match e
    case Begins(_) =>
    case Moves(k, clock) => if k < |w.calls| { MoveKeys(w.store, w.calls[k], clock, r); }
    case Elsewhere(op, clock) =>
      ApplyElsewhere(w.store, op, clock, RequestKey(r));
      ApplyElsewhere(w.store, op, clock, GrantKey(r));
  }

  /** Only a step that takes a grant and accepts it changes the number taken. */
  lemma NextTaken(w: World, e: Event, r: nat)
    ensures var took := Moved(w, e, r) && w.calls[e.k].TakeGrant?
            && Minting(StepCall(w.store, w.calls[e.k], e.clock).call, r);
            Taken(Next(w, e), r) == Taken(w, r) + if took then 1 else 0
    ensures Tokens(Next(w, e).minted, r) >= Tokens(w.minted, r)
  {
    match e
    case Begins(call) => CountSnoc(w.calls, call, Minter(r));
    case Moves(k, clock) =>
      if k < |w.calls| {
        var p := StepCall(w.store, w.calls[k], clock);
        CountUpdate(w.calls, k, p.call, Minter(r));
        MoveKeys(w.store, w.calls[k], clock, r);
        if w.calls[k].StoreToken? {
          TokensSnoc(w.minted, (w.calls[k].request, w.calls[k].userId), r);
        }
      }
    case Elsewhere(_, _) =>
  }

  // ---- No approval beside an exchange -----------------------------------------------------------

  /**
   * Approvals of `r` are not under way beside exchanges of `r`; it is started once; and nothing else touches
   * its keys. Approvals may overlap one another, and so may exchanges, and clocks run as they like.
   */
  predicate Apart(w: World, started: bool, e: Event, r: nat) {
    match e
    case Begins(call) =>
      && (Starting(call, r) ==> !started)
      && (call.Approve? && call.request == r ==> forall k | 0 <= k < |w.calls| :: !Exchanging(w.calls[k], r))
      && (call.Exchange? && call.request == r ==> forall k | 0 <= k < |w.calls| :: !Approving(w.calls[k], r))
    case Moves(_, _) => true
    case Elsewhere(op, _) => !Own(op.key, r)
  }

  predicate AllApart(w: World, started: bool, events: seq<Event>, r: nat)
    decreases |events|
  {
    events != [] ==>
      && Apart(w, started, events[0], r)
      && AllApart(Next(w, events[0]), started || (events[0].Begins? && Starting(events[0].call, r)), events[1..], r)
  }

  /** The call is about to retire `r`, or will be once its token is stored. */
  predicate Retiring(call: Call, r: nat) {
    (call.StoreToken? || call.Retire?) && call.request == r
  }

  predicate SomeRetires(calls: seq<Call>, r: nat) {
    exists k :: 0 <= k < |calls| && Retiring(calls[k], r)
  }

  /**
   * Once a grant is taken there is none left nor on its way, and the request is there only until its taker
   * retires it.
   */
  predicate Spent(w: World, r: nat) {
    && GrantKey(r) !in w.store
    && (forall k | 0 <= k < |w.calls| :: !(w.calls[k].StoreGrant? && w.calls[k].request == r))
    && (RequestKey(r) in w.store ==> SomeRetires(w.calls, r))
  }

  /** No exchange of `r` has found it. */
  predicate Unseen(w: World, r: nat) {
    && RequestKey(r) !in w.store && Taken(w, r) == 0
    && forall k | 0 <= k < |w.calls| :: !(w.calls[k].TakeGrant? && w.calls[k].request == r)
  }

  predicate StartsOnce(w: World, started: bool, r: nat) {
    && (!started ==> Unseen(w, r) && forall k | 0 <= k < |w.calls| :: !Starting(w.calls[k], r))
    && (forall k | 0 <= k < |w.calls| && Starting(w.calls[k], r) :: Unseen(w, r))
    && (forall i, j | 0 <= i < j < |w.calls| :: !(Starting(w.calls[i], r) && Starting(w.calls[j], r)))
  }

  predicate Sides(calls: seq<Call>, r: nat) {
    forall i, j | 0 <= i < |calls| && 0 <= j < |calls| :: !(Approving(calls[i], r) && Exchanging(calls[j], r))
  }

  predicate Single(w: World, started: bool, r: nat) {
    Taken(w, r) <= 1 && Sides(w.calls, r) && StartsOnce(w, started, r) && (Taken(w, r) == 1 ==> Spent(w, r))
  }

  lemma BeginsSides(w: World, started: bool, call: Call, r: nat)
    requires Sides(w.calls, r) && Apart(w, started, Begins(call), r)
    requires call.Start? || call.Approve? || call.Exchange?
    ensures Sides(w.calls + [call], r)
  {
    assert Approving(call, r) ==> call.Approve?;
    assert Exchanging(call, r) ==> call.Exchange?;
  }

  lemma BeginsSingle(w: World, started: bool, call: Call, r: nat)
    requires Single(w, started, r) && Apart(w, started, Begins(call), r)
    ensures Single(Next(w, Begins(call)), started || Starting(call, r), r)
  {
    var u := Next(w, Begins(call));
    NextTaken(w, Begins(call), r);
    if u != w {
      assert u.calls == w.calls + [call];
      assert forall k | 0 <= k < |w.calls| :: u.calls[k] == w.calls[k];
      BeginsSides(w, started, call, r);
      if SomeRetires(w.calls, r) {
        var k :| 0 <= k < |w.calls| && Retiring(w.calls[k], r);
        assert Retiring(u.calls[k], r);
      }
    }
  }

  /** A step of one call: the sides stay apart, and nothing is started. */
  lemma MoveSides(w: World, started: bool, k: nat, clock: int, r: nat)
    requires Single(w, started, r) && k < |w.calls|
    ensures Sides(Next(w, Moves(k, clock)).calls, r) && StartsOnce(Next(w, Moves(k, clock)), started, r)
  {
    var call, p, u := w.calls[k], StepCall(w.store, w.calls[k], clock), Next(w, Moves(k, clock));
    assert u.calls == w.calls[k := p.call];
    assert Approving(p.call, r) ==> Approving(call, r);
    assert Exchanging(p.call, r) ==> Exchanging(call, r);
    assert forall i | 0 <= i < |w.calls| && i != k :: u.calls[i] == w.calls[i];
    NextKeys(w, Moves(k, clock), r);
    NextTaken(w, Moves(k, clock), r);
    assert p.call.TakeGrant? && p.call.request == r ==> RequestKey(r) in w.store;
  }

  /** Once taken: nobody finds the request but beside its taker, so nobody approves it. */
  lemma MoveSpent(w: World, started: bool, k: nat, clock: int, r: nat)
    requires Single(w, started, r) && k < |w.calls| && Taken(w, r) == 1
    ensures Taken(Next(w, Moves(k, clock)), r) == 1 && Spent(Next(w, Moves(k, clock)), r)
  {
    var call, p, u := w.calls[k], StepCall(w.store, w.calls[k], clock), Next(w, Moves(k, clock));
    assert u.calls == w.calls[k := p.call];
    NextKeys(w, Moves(k, clock), r);
    NextTaken(w, Moves(k, clock), r);
    MoveKeys(w.store, call, clock, r);
    if RequestKey(r) in w.store {
      var j :| 0 <= j < |w.calls| && Retiring(w.calls[j], r);
      assert Exchanging(w.calls[j], r) && !Approving(call, r);
      if RequestKey(r) in u.store {
        assert Retiring(u.calls[j], r);
      }
    }
  }

  lemma MoveSingle(w: World, started: bool, k: nat, clock: int, r: nat)
    requires Single(w, started, r) && k < |w.calls|
    ensures Single(Next(w, Moves(k, clock)), started, r)
  {
    var call, p, u := w.calls[k], StepCall(w.store, w.calls[k], clock), Next(w, Moves(k, clock));
    MoveSides(w, started, k, clock, r);
    if Taken(w, r) == 1 {
      MoveSpent(w, started, k, clock, r);
    } else {
      NextTaken(w, Moves(k, clock), r);
      MoveKeys(w.store, call, clock, r);
      if Taken(u, r) == 1 {
        assert u.calls[k] == p.call && Minting(p.call, r) && Retiring(u.calls[k], r);
        assert Exchanging(call, r) && forall i | 0 <= i < |w.calls| :: !Approving(w.calls[i], r);
      }
    }
  }

  lemma NextSingle(w: World, started: bool, e: Event, r: nat)
    requires Single(w, started, r) && Apart(w, started, e, r)
    ensures Single(Next(w, e), started || (e.Begins? && Starting(e.call, r)), r)
  {
    match e
    case Begins(call) => BeginsSingle(w, started, call, r);
    case Moves(k, clock) => if k < |w.calls| { MoveSingle(w, started, k, clock, r); }
    case Elsewhere(op, clock) => NextKeys(w, e, r);
  }

  lemma {:induction false} RunSingle(w: World, started: bool, events: seq<Event>, r: nat) returns (begun: bool)
    requires Single(w, started, r) && AllApart(w, started, events, r)
    ensures Single(Run(w, events), begun, r)
    decreases |events|
  {
    begun := started;
    if events != [] {
      NextSingle(w, started, events[0], r);
      begun := RunSingle(Next(w, events[0]), started
                         || (events[0].Begins? && Starting(events[0].call, r)), events[1..], r);
    }
  }

  /**
   * From any store: as long as no approval of `r` is under way beside an exchange of it, it yields at most
   * one token, in any interleaving and whatever the clocks say; and from the time its exchanges are done it
   * is gone, with no grant left.
   */
  lemma OneTokenPerRequest(s: Store<Doc>, started: bool, events: seq<Event>, r: nat)
    requires !started ==> RequestKey(r) !in s
    requires AllApart(World(s, [], [], []), started, events, r)
    ensures var w := Run(World(s, [], [], []), events);
            && Tokens(w.minted, r) <= 1
            && (Tokens(w.minted, r) == 1 && (forall k | 0 <= k < |w.calls| :: !Exchanging(w.calls[k], r)) ==>
                  RequestKey(r) !in w.store && GrantKey(r) !in w.store)
  {
    var begun := RunSingle(World(s, [], [], []), started, events, r);
    var w := Run(World(s, [], [], []), events);
    assert forall k | 0 <= k < |w.calls| && Retiring(w.calls[k], r) :: Exchanging(w.calls[k], r);
  }

  // ---- A second token ---------------------------------------------------------------------------

  /** What may follow `now`: no second start of `r`, nothing else at its keys, and no clock behind `now`. */
  predicate Follows(e: Event, r: nat, now: int) {
    match e
    case Begins(call) => !Starting(call, r)
        && ((call.Approve? || call.Exchange?) && call.request == r ==> now <= call.now)
    case Moves(_, clock) => now <= clock
    case Elsewhere(op, _) => !Own(op.key, r)
  }

  predicate AllFollow(events: seq<Event>, r: nat, now: int) {
    forall e | e in events :: Follows(e, r, now)
  }

  function GrantCode(record: Doc, newCode: nat): Option<nat> {
    if record.RequestDoc? && record.callback then Some(newCode) else None
  }

  /** The exchange accepts a grant of this code. */
  predicate Fits(record: Doc, code: Option<nat>, granted: Option<nat>) {
    record.RequestDoc? && record.callback ==> code.Some? && code == granted
  }

  /** A caller who has the request's code, if it has one, may approve it. */
  predicate Approvable(record: Doc) {
    record.RequestDoc? && !WrongCode(record, record.userCode)
  }

  /**
   * The approval stores a grant of this code unless one is there: it has passed its checks, or finds the
   * request and will pass them.
   */
  predicate Brings(s: Store<Doc>, call: Call, r: nat, now: int, granted: Option<nat>) {
    match call
    case StoreGrant(request, record, _, newCode, _) => request == r && granted == GrantCode(record, newCode)
    case Approve(request, _, provided, newCode, at) =>
      && request == r
      && var found := Request(s, r, at, now);
         found.Some? && !WrongCode(found.value, provided) && granted == GrantCode(found.value, newCode)
    case _ => false
  }

  /** A grant of this code is stored, or an approval under way brings one, or one yet to come does. */
  predicate Offered(w: World, r: nat, now: int, granted: Option<nat>) {
    || StoredGrant(w.store, r, now) == Some(granted)
    || (exists k :: 0 <= k < |w.calls| && Brings(w.store, w.calls[k], r, now, granted))
    || (Request(w.store, r, now, now).Some? && Approvable(Request(w.store, r, now, now).value)
        && Request(w.store, r, now, now).value.callback == granted.Some?)
  }

  function StoredGrant(s: Store<Doc>, r: nat, now: int): Option<Option<nat>> {
    var grant: Option<Entry<Doc>> := Live(s, GrantKey(r), now);
    match grant
    case Some(Entry(Json(GrantDoc(_, code)), _)) => Some(code)
    case _ => None
  }

  /** The exchange is to take whatever grant is there: it has found the request, or finds it and shows its secret. */
  predicate Seeks(s: Store<Doc>, call: Call, r: nat, now: int, record: Doc, code: Option<nat>) {
    match call
    case TakeGrant(request, found, shown, _, _, _) => request == r && found == record && shown == code
    case Exchange(request, secret, shown, _, _, at) =>
      request == r && Request(s, r, at, now) == Some(record) && secret == record.secret && shown == code
    case _ => false
  }

  /** An exchange under way seeks a grant, or one yet to come does. */
  predicate Sought(w: World, r: nat, now: int, record: Doc, code: Option<nat>) {
    || (exists k :: 0 <= k < |w.calls| && Seeks(w.store, w.calls[k], r, now, record, code))
    || Request(w.store, r, now, now) == Some(record)
  }

  /** Some exchange may yet take and accept some grant. */
  ghost predicate Open(w: World, r: nat, now: int) {
    exists record, code, granted ::
      Sought(w, r, now, record, code) && Offered(w, r, now, granted) && Fits(record, code, granted)
  }

  predicate NoStart(w: World, r: nat) {
    forall k | 0 <= k < |w.calls| :: !Starting(w.calls[k], r)
  }

  /** What is found later is found now. */
  lemma RequestBack(s: Store<Doc>, t: Store<Doc>, r: nat, at: int, now: int, clock: int)
    requires Kept(s, t, RequestKey(r)) && now <= clock
    ensures Request(t, r, at, clock).Some? ==> Request(s, r, at, now) == Request(t, r, at, clock)
    ensures now <= at && Request(t, r, at, clock).Some? ==> Request(s, r, now, now) == Request(t, r, at, clock)
  {
  }

  /** A call that brings a grant after a step of its own brought it before. */
  lemma BringsBack(s: Store<Doc>, call: Call, clock: int, r: nat, now: int, granted: Option<nat>)
    requires now <= clock && !Starting(call, r)
    ensures var p := StepCall(s, call, clock);
            && (Brings(p.store, p.call, r, now, granted) ==> Brings(s, call, r, now, granted))
            && (StoredGrant(p.store, r, now) == Some(granted) ==>
                  StoredGrant(s, r, now) == Some(granted) || Brings(s, call, r, now, granted))
  {
    MoveKeys(s, call, clock, r);
    if call.Approve? && call.request == r {
      RequestBack(s, s, r, call.now, now, clock);
    }
  }

  lemma SeeksBack(s: Store<Doc>, call: Call, clock: int, r: nat, now: int, record: Doc, code: Option<nat>)
    requires now <= clock && !Starting(call, r)
    ensures var p := StepCall(s, call, clock);
            Seeks(p.store, p.call, r, now, record, code) ==> Seeks(s, call, r, now, record, code)
  {
    MoveKeys(s, call, clock, r);
    if call.Exchange? && call.request == r {
      RequestBack(s, s, r, call.now, now, clock);
    }
  }

  lemma OfferedBack(w: World, e: Event, r: nat, now: int, granted: Option<nat>)
    requires NoStart(w, r) && Follows(e, r, now) && Offered(Next(w, e), r, now, granted)
    ensures Offered(w, r, now, granted)
  {
    var u := Next(w, e);
    NextKeys(w, e, r);
    RequestBack(w.store, u.store, r, now, now, now);
    if e.Moves? && e.k < |w.calls| {
      BringsBack(w.store, w.calls[e.k], e.clock, r, now, granted);
    }
    if k :| 0 <= k < |u.calls| && Brings(u.store, u.calls[k], r, now, granted) {
      if k < |w.calls| {
        if u.calls[k] == w.calls[k] {
          BringsKept(w.store, u.store, w.calls[k], r, now, granted);
        }
        assert Brings(w.store, w.calls[k], r, now, granted);
      } else {
        RequestBack(w.store, u.store, r, u.calls[k].now, now, now);
        RightCode(Request(u.store, r, u.calls[k].now, now).value, u.calls[k].provided);
      }
    }
  }

  lemma BringsKept(s: Store<Doc>, t: Store<Doc>, call: Call, r: nat, now: int, granted: Option<nat>)
    requires Kept(s, t, RequestKey(r)) && Brings(t, call, r, now, granted)
    ensures Brings(s, call, r, now, granted)
  {
  }

  lemma SeeksKept(s: Store<Doc>, t: Store<Doc>, call: Call, r: nat, now: int, record: Doc, code: Option<nat>)
    requires Kept(s, t, RequestKey(r)) && Seeks(t, call, r, now, record, code)
    ensures Seeks(s, call, r, now, record, code)
  {
  }

  /** Whoever gives a code that passes gives the request's own. */
  lemma RightCode(record: Doc, provided: Option<string>)
    requires record.RequestDoc? && !WrongCode(record, provided)
    ensures Approvable(record)
  {
    if record.userCode.Some? {
      NormalFixed(record.userCode.value);
    }
  }

  lemma SoughtBack(w: World, e: Event, r: nat, now: int, record: Doc, code: Option<nat>)
    requires NoStart(w, r) && Follows(e, r, now) && Sought(Next(w, e), r, now, record, code)
    ensures Sought(w, r, now, record, code)
  {
    var u := Next(w, e);
    NextKeys(w, e, r);
    RequestBack(w.store, u.store, r, now, now, now);
    if e.Moves? && e.k < |w.calls| {
      SeeksBack(w.store, w.calls[e.k], e.clock, r, now, record, code);
    }
    if k :| 0 <= k < |u.calls| && Seeks(u.store, u.calls[k], r, now, record, code) {
      if k < |w.calls| {
        if u.calls[k] == w.calls[k] {
          SeeksKept(w.store, u.store, w.calls[k], r, now, record, code);
        }
        assert Seeks(w.store, w.calls[k], r, now, record, code);
      } else {
        RequestBack(w.store, u.store, r, u.calls[k].now, now, now);
      }
    }
  }

  /** A grant taken and accepted was offered and sought. */
  lemma TakenIsOpen(w: World, k: nat, clock: int, r: nat, now: int)
    requires k < |w.calls| && now <= clock && Minting(StepCall(w.store, w.calls[k], clock).call, r)
    ensures Minting(w.calls[k], r) || Open(w, r, now)
  {
    if w.calls[k].TakeGrant? {
      var record, code := w.calls[k].record, w.calls[k].code;
      assert Seeks(w.store, w.calls[k], r, now, record, code);
      var granted := StoredGrant(w.store, r, now);
      assert Offered(w, r, now, granted.value) && Fits(record, code, granted.value);
    }
  }

  /** Where nothing may be taken, nothing ever is. */
  lemma NextBarred(w: World, e: Event, r: nat, now: int)
    requires NoStart(w, r) && Follows(e, r, now) && !Open(w, r, now)
    ensures NoStart(Next(w, e), r) && !Open(Next(w, e), r, now) && Taken(Next(w, e), r) == Taken(w, r)
  {
    var u := Next(w, e);
    NextTaken(w, e, r);
    if e.Moves? && e.k < |w.calls| && w.calls[e.k].TakeGrant?
        && Minting(StepCall(w.store, w.calls[e.k], e.clock).call, r) {
      TakenIsOpen(w, e.k, e.clock, r, now);
    }
    if record, code, granted :|
        Sought(u, r, now, record, code) && Offered(u, r, now, granted) && Fits(record, code, granted) {
      SoughtBack(w, e, r, now, record, code);
      OfferedBack(w, e, r, now, granted);
    }
  }

  lemma {:induction false} RunBarred(w: World, events: seq<Event>, r: nat, now: int)
    requires NoStart(w, r) && AllFollow(events, r, now) && !Open(w, r, now)
    ensures Taken(Run(w, events), r) == Taken(w, r)
    decreases |events|
  {
    if events != [] {
      assert forall e | e in events[1..] :: e in events;
      NextBarred(w, events[0], r, now);
      RunBarred(Next(w, events[0]), events[1..], r, now);
    }
  }

  function At(e: Event): int {
    match e
    case Begins(call) => if call.Start? || call.Approve? || call.Exchange? then call.now else 0
    case Moves(_, clock) => clock
    case Elsewhere(_, clock) => clock
  }

  /** The clocks of callers and store do not run back, from the one reading to the other. */
  predicate Between(events: seq<Event>, from: int, to: int) {
    && from <= to && (forall i | 0 <= i < |events| :: from <= At(events[i]) <= to)
    && forall i, j | 0 <= i < j < |events| :: At(events[i]) <= At(events[j])
  }

  lemma BetweenConcat(a: seq<Event>, b: seq<Event>, from: int, middle: int, to: int)
    requires Between(a, from, middle) && Between(b, middle, to)
    ensures Between(a + b, from, to)
  {
  }

  /** A grant expires; an approval past its checks came before its request's expiry. */
  ghost predicate Formed(w: World, r: nat) {
    && (GrantKey(r) in w.store ==> w.store[GrantKey(r)].expiresAt.Some?)
    && forall k | 0 <= k < |w.calls| && w.calls[k].StoreGrant? && w.calls[k].request == r ::
         w.calls[k].record.RequestDoc? && w.calls[k].now < w.calls[k].record.expiresAt
  }

  lemma NextFormed(w: World, e: Event, r: nat)
    requires Formed(w, r)
    ensures Formed(Next(w, e), r)
  {
    match e
    case Begins(_) =>
    case Moves(k, clock) => if k < |w.calls| { MoveKeys(w.store, w.calls[k], clock, r); }
    case Elsewhere(op, clock) => if !op.key.GrantKey? { ApplyElsewhere(w.store, op, clock, GrantKey(r)); }
  }

  lemma {:induction false} RunFormed(w: World, events: seq<Event>, r: nat)
    requires Formed(w, r)
    ensures Formed(Run(w, events), r)
    decreases |events|
  {
    if events != [] {
      NextFormed(w, events[0], r);
      RunFormed(Next(w, events[0]), events[1..], r);
    }
  }

  /** A call that finds the request moves on; nothing else changes. */
  lemma Loads(w: World, k: nat, r: nat, now: int)
    requires k < |w.calls| && (w.calls[k].Approve? || w.calls[k].Exchange?) && w.calls[k].request == r
    requires Request(w.store, r, w.calls[k].now, now).Some?
    ensures Next(w, Moves(k, now)) == w.(calls := w.calls[k := StepCall(w.store, w.calls[k], now).call])
    ensures Taken(Next(w, Moves(k, now)), r) == Taken(w, r)
  {
    NextTaken(w, Moves(k, now), r);
    assert Evict(w.store, RequestKey(r), now) == w.store;
  }

  predicate Takes(w: World, k: nat, r: nat, record: Doc, code: Option<nat>) {
    k < |w.calls| && w.calls[k].TakeGrant? && w.calls[k].request == r && w.calls[k].record == record
    && w.calls[k].code == code
  }

  /** The exchange that seeks gets to where it takes. */
  lemma SeekerTakes(w: World, r: nat, now: int, record: Doc, code: Option<nat>, granted: Option<nat>)
      returns (events: seq<Event>, k: nat)
    requires Sought(w, r, now, record, code) && Offered(w, r, now, granted)
    ensures AllFollow(events, r, now) && Between(events, now, now) && Takes(Run(w, events), k, r, record, code)
    ensures Offered(Run(w, events), r, now, granted) && Taken(Run(w, events), r) == Taken(w, r)
  {
    events, k := [], 0;
    if j :| 0 <= j < |w.calls| && Seeks(w.store, w.calls[j], r, now, record, code) {
      k := j;
      if w.calls[k].Exchange? {
        events := [Moves(k, now)];
        Run1(w, events[0]);
        Loads(w, k, r, now);
        StillOffered(w, Next(w, events[0]), k, r, now, granted);
      }
    } else {
      k := |w.calls|;
      events := NewcomerTakes(w, r, now, record, code, granted);
    }
  }

  lemma NewcomerTakes(w: World, r: nat, now: int, record: Doc, code: Option<nat>, granted: Option<nat>)
      returns (events: seq<Event>)
    requires Request(w.store, r, now, now) == Some(record) && Offered(w, r, now, granted)
    ensures AllFollow(events, r, now) && Between(events, now, now) && Takes(Run(w, events), |w.calls|, r, record, code)
    ensures Offered(Run(w, events), r, now, granted) && Taken(Run(w, events), r) == Taken(w, r)
  {
    var k, begin := |w.calls|, Begins(Exchange(r, record.secret, code, 0, 0, now));
    events := [begin, Moves(k, now)];
    var v := Next(w, begin);
    Run2(w, begin, Moves(k, now));
    NextTaken(w, begin, r);
    assert v.calls[k] == begin.call;
    Loads(v, k, r, now);
    StillOffered(w, v, k, r, now, granted);
    StillOffered(v, Next(v, Moves(k, now)), k, r, now, granted);
  }

  lemma StillOffered(w: World, u: World, k: nat, r: nat, now: int, granted: Option<nat>)
    requires u.store == w.store && |w.calls| <= |u.calls| && (k < |w.calls| ==> w.calls[k].Exchange?)
    requires forall i | 0 <= i < |w.calls| && i != k :: u.calls[i] == w.calls[i]
    requires Offered(w, r, now, granted)
    ensures Offered(u, r, now, granted)
  {
    if i :| 0 <= i < |w.calls| && Brings(w.store, w.calls[i], r, now, granted) {
      assert Brings(u.store, u.calls[i], r, now, granted);
    }
  }

  predicate Stores(w: World, j: nat, r: nat, granted: Option<nat>) {
    && j < |w.calls| && w.calls[j].StoreGrant? && w.calls[j].request == r
    && granted == GrantCode(w.calls[j].record, w.calls[j].newCode)
  }

  /** The approval that brings a grant gets to where it stores it, unless it is stored. */
  lemma OfferStores(w: World, k: nat, r: nat, now: int, granted: Option<nat>) returns (events: seq<Event>, j: nat)
    requires Offered(w, r, now, granted) && k < |w.calls| && w.calls[k].TakeGrant?
    ensures AllFollow(events, r, now) && Between(events, now, now) && Taken(Run(w, events), r) == Taken(w, r)
    ensures k < |Run(w, events).calls| && Run(w, events).calls[k] == w.calls[k]
    ensures StoredGrant(Run(w, events).store, r, now) == Some(granted) || Stores(Run(w, events), j, r, granted)
  {
    events, j := [], 0;
    if StoredGrant(w.store, r, now) == Some(granted) {
    } else if i :| 0 <= i < |w.calls| && Brings(w.store, w.calls[i], r, now, granted) {
      j := i;
      if w.calls[j].Approve? {
        events := [Moves(j, now)];
        Run1(w, events[0]);
        Loads(w, j, r, now);
      }
    } else {
      j := |w.calls|;
      var record := Request(w.store, r, now, now).value;
      events := [Begins(Approve(r, 0, record.userCode, if granted.Some? then granted.value else 0, now)),
                 Moves(j, now)];
      var v := Next(w, events[0]);
      Run2(w, events[0], events[1]);
      NextTaken(w, events[0], r);
      assert v.calls[j] == events[0].call;
      Loads(v, j, r, now);
    }
  }

  /** It stores it, if need be once the grant that is there has expired. */
  lemma Lands(w: World, k: nat, j: nat, r: nat, now: int, granted: Option<nat>) returns (clock: int)
    requires Formed(w, r) && Stores(w, j, r, granted) && k < |w.calls| && w.calls[k].TakeGrant?
    ensures now <= clock && StoredGrant(Next(w, Moves(j, clock)).store, r, clock) == Some(granted)
    ensures Next(w, Moves(j, clock)).calls[k] == w.calls[k] && |Next(w, Moves(j, clock)).calls| == |w.calls|
    ensures Taken(Next(w, Moves(j, clock)), r) == Taken(w, r)
  {
    clock := if GrantKey(r) in w.store then Max(now, w.store[GrantKey(r)].expiresAt.value) else now;
    NextTaken(w, Moves(j, clock), r);
    assert Live(w.store, GrantKey(r), clock).None?;
  }

  /** It is taken and accepted. */
  lemma TakesIt(w: World, k: nat, clock: int, r: nat, record: Doc, code: Option<nat>, granted: Option<nat>)
    requires Takes(w, k, r, record, code) && Fits(record, code, granted)
             && StoredGrant(w.store, r, clock) == Some(granted)
    ensures Taken(Next(w, Moves(k, clock)), r) == Taken(w, r) + 1
  {
    NextTaken(w, Moves(k, clock), r);
    assert Minting(StepCall(w.store, w.calls[k], clock).call, r);
  }

  /** Where a grant may yet be taken, some continuation takes one. */
  lemma OpenIsTaken(w: World, r: nat, now: int) returns (events: seq<Event>, later: int)
    requires Formed(w, r) && Open(w, r, now)
    ensures AllFollow(events, r, now) && Between(events, now, later) && Taken(Run(w, events), r) == Taken(w, r) + 1
  {
    var record, code, granted :| Sought(w, r, now, record, code) && Offered(w, r, now, granted)
            && Fits(record, code, granted);
    var a, k := SeekerTakes(w, r, now, record, code, granted);
    var v := Run(w, a);
    RunFormed(w, a, r);
    var b, j := OfferStores(v, k, r, now, granted);
    var u := Run(v, b);
    RunFormed(v, b, r);
    RunConcat(w, a, b);
    BetweenConcat(a, b, now, now, now);
    var last;
    if StoredGrant(u.store, r, now) == Some(granted) {
      TakesIt(u, k, now, r, record, code, granted);
      later, last := now, [Moves(k, now)];
      Run1(u, last[0]);
    } else {
      later := Lands(u, k, j, r, now, granted);
      TakesIt(Next(u, Moves(j, later)), k, later, r, record, code, granted);
      last := [Moves(j, later), Moves(k, later)];
      Run2(u, last[0], last[1]);
    }
    events := a + b + last;
    RunConcat(w, a + b, last);
    BetweenConcat(a + b, last, now, now, later);
  }

  /** Every grant taken comes to a token. */
  lemma {:induction false} AllMint(w: World, r: nat, now: int) returns (events: seq<Event>)
    ensures AllFollow(events, r, now) && Between(events, now, now) && Tokens(Run(w, events).minted, r) == Taken(w, r)
    decreases Count(w.calls, Minter(r))
  {
    CountNone(w.calls, Minter(r));
    if k :| 0 <= k < |w.calls| && Minting(w.calls[k], r) {
      assert Minter(r)(w.calls[k]);
      var e := Moves(k, now);
      NextTaken(w, e, r);
      CountUpdate(w.calls, k, StepCall(w.store, w.calls[k], now).call, Minter(r));
      var rest := AllMint(Next(w, e), r, now);
      Run1(w, e);
      RunConcat(w, [e], rest);
      events := [e] + rest;
    } else {
      events := [];
    }
  }

  /**
   * In every world a run leads to in which an exchange has taken a grant of `r`: from `now` on no second
   * token is minted, whatever follows, exactly when one grant only is taken so far and no exchange may yet
   * take another; otherwise one is, on a clock that does not run back. One may when an exchange, under way or
   * to come, finds the request (or has found it), and a grant its code fits is stored, or is brought by an
   * approval that found the request, or finds it.
   */
  lemma SecondTokenExact(before: seq<Event>, r: nat, now: int)
    requires var w := Run(World(map[], [], [], []), before); NoStart(w, r) && Taken(w, r) >= 1
    ensures var w := Run(World(map[], [], [], []), before);
            (forall events | AllFollow(events, r, now) :: Tokens(Run(w, events).minted, r) <= 1)
            <==> Taken(w, r) == 1 && !Open(w, r, now)
    ensures var w := Run(World(map[], [], [], []), before);
            !(Taken(w, r) == 1 && !Open(w, r, now)) ==>
              exists events, later ::
                    AllFollow(events, r, now) && Between(events, now, later) && Tokens(Run(w, events).minted, r) > 1
  {
    var w := Run(World(map[], [], [], []), before);
    RunFormed(World(map[], [], [], []), before, r);
    if Taken(w, r) == 1 && !Open(w, r, now) {
      forall events | AllFollow(events, r, now) ensures Tokens(Run(w, events).minted, r) <= 1 {
        RunBarred(w, events, r, now);
      }
    } else {
      var a, later := [], now;
      if Taken(w, r) == 1 {
        a, later := OpenIsTaken(w, r, now);
      }
      var b := AllMint(Run(w, a), r, later);
      RunConcat(w, a, b);
      BetweenConcat(a, b, now, later, later);
      assert AllFollow(a + b, r, now) && Between(a + b, now, later) && Tokens(Run(w, a + b).minted, r) > 1;
    }
  }
}

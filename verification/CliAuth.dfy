/**
 * CLI auth, step by step (apps/control-plane/src/services/cli-auth.ts): each call is a process that takes one store
 * step at a time. A secret's hash is represented by the secret.
 */
module CliAuths {
  import opened Bytes
  import opened Redis
  import opened Docs

  const MAX_APPROVE_ATTEMPTS := 5

  // ---- User codes -------------------------------------------------------------------------------

  const USER_CODE_ALPHABET := "ABCDEFGHJKLMNPQRSTUVWXYZ23456789"
  const USER_CODE_LENGTH := 8

  predicate CodeSymbol(c: char) {
    'A' <= c <= 'Z' || '0' <= c <= '9'
  }

  function Upper(c: char): char {
    if 'a' <= c <= 'z' then (c as int - 32) as char else c
  }

  /** Upper-case, and drop all but letters and digits. */
  function NormalizeUserCode(value: string): (code: string)
    ensures forall c | c in code :: CodeSymbol(c)
  {
    if value == [] then []
    else
      var c := Upper(value[0]);
      (if CodeSymbol(c) then [c] else []) + NormalizeUserCode(value[1..])
  }

  lemma {:induction false} NormalizeConcat(a: string, b: string)
    ensures NormalizeUserCode(a + b) == NormalizeUserCode(a) + NormalizeUserCode(b)
  {
    if a == [] {
      assert a + b == b;
    } else {
      assert (a + b)[1..] == a[1..] + b;
      NormalizeConcat(a[1..], b);
    }
  }

  /** A code of symbols is its own normal form, and so is any normal form. */
  lemma {:induction false} NormalFixed(code: string)
    requires forall c | c in code :: CodeSymbol(c)
    ensures NormalizeUserCode(code) == code
  {
    if code != [] {
      assert code[0] in code && Upper(code[0]) == code[0];
      NormalFixed(code[1..]);
    }
  }

  /** Eight random symbols with a hyphen in the middle; as the user may type it, the hyphen does not count. */
  method MintUserCode(bytes: seq<byte>) returns (code: string)
    requires |bytes| == USER_CODE_LENGTH
    ensures |code| == USER_CODE_LENGTH + 1 && code[4] == '-'
    ensures NormalizeUserCode(code) == code[..4] + code[5..]
    ensures forall i | 0 <= i < USER_CODE_LENGTH :: (code[..4] + code[5..])[i] == USER_CODE_ALPHABET[bytes[i] % 32]
  {
    code := "";
    for i := 0 to USER_CODE_LENGTH
      invariant |code| == i && forall j | 0 <= j < i :: code[j] == USER_CODE_ALPHABET[bytes[j] % 32]
    {
      code := code + [USER_CODE_ALPHABET[bytes[i] % |USER_CODE_ALPHABET|]];
    }
    ghost var plain := code;
    AlphabetIsNormal();
    NormalFixed(code[..4]);
    NormalFixed(code[4..]);
    NormalizeConcat(code[..4], "-" + code[4..]);
    NormalizeConcat("-", code[4..]);
    assert NormalizeUserCode("-") == [] by { assert "-"[1..] == []; }
    code := code[..4] + "-" + code[4..];
    assert code == plain[..4] + ("-" + plain[4..]);
    assert code[..4] + code[5..] == plain == plain[..4] + plain[4..];
  }

  lemma AlphabetIsNormal()
    ensures |USER_CODE_ALPHABET| == 32 && forall i | 0 <= i < 32 :: CodeSymbol(USER_CODE_ALPHABET[i])
  {
  }

  // ---- Calls ------------------------------------------------------------------------------------

  datatype Result = Refused | Pending | Started | Approved(code: Option<nat>) | Minted(token: nat, userId: nat)

  /** A call by the store step it takes next. `now` is its own clock reading. */
  datatype Call =
    | Start(request: nat, secret: nat, callback: bool, userCode: string, ttlMs: int, now: int)
    | Approve(request: nat, userId: nat, provided: Option<string>, newCode: nat, now: int)
    | ArmAttempts(request: nat, record: Doc, now: int)
    | CountAttempt(request: nat)
    | Invalidate(request: nat)
    | StoreGrant(request: nat, record: Doc, userId: nat, newCode: nat, now: int)
    | Exchange(request: nat, secret: nat, code: Option<nat>, newToken: nat, ttlMs: int, now: int)
    | TakeGrant(request: nat, record: Doc, code: Option<nat>, newToken: nat, ttlMs: int, now: int)
    | StoreToken(request: nat, userId: nat, newToken: nat, ttlMs: int, now: int)
    | Retire(request: nat, userId: nat, newToken: nat)
    | Done(result: Result)

  /** `loadRequest` on what the store answered. */
  function Loaded(reply: Reply<Doc>, now: int): Option<Doc> {
    match reply
    case Found(Json(RequestDoc(secret, callback, expiresAt, userCode))) =>
      if expiresAt <= now then None else Some(RequestDoc(secret, callback, expiresAt, userCode))
    case _ => None
  }

  /** A headless request asks for the code its terminal shows. */
  predicate WrongCode(record: Doc, provided: Option<string>) {
    && record.RequestDoc? && record.userCode.Some?
    && var typed := if provided.Some? then NormalizeUserCode(provided.value) else "";
       typed == "" || typed != record.userCode.value
  }

  /** The grant as seen by an exchange: burned by a wrong or missing callback code. */
  function Granted(reply: Reply<Doc>, record: Doc, code: Option<nat>): Option<nat> {
    match reply
    case Found(Json(GrantDoc(userId, expected))) =>
      if record.RequestDoc? && record.callback
          && (code.None? || expected.None? || code != expected) then None else Some(userId)
    case _ => None
  }

  datatype Progress = Progress(store: Store<Doc>, call: Call)

  function Max(a: int, b: int): int {
    if a > b then a else b
  }

  /** The store step of each call, and where the call goes on. */
  function StepCall(s: Store<Doc>, call: Call, clock: int): Progress {
    match call
    case Start(request, secret, callback, userCode, ttlMs, now) =>
      var record := RequestDoc(secret, callback, now + ttlMs, if callback
                               then None else Some(NormalizeUserCode(userCode)));
      Progress(Apply(s, Set(RequestKey(request), Json(record), Some(ttlMs), true), clock).store, Done(Started))
    case Approve(request, userId, provided, newCode, now) =>
      var o := Apply(s, Get(RequestKey(request)), clock);
      Progress(o.store,
               match Loaded(o.reply, now)
               case None => Done(Refused)
               case Some(record) =>
                 if WrongCode(record, provided) then ArmAttempts(request, record, now)
                         else StoreGrant(request, record, userId, newCode, now))
    case ArmAttempts(request, record, now) =>
      var ms := if record.RequestDoc? then Max(1, record.expiresAt - now) else 1;
      Progress(Apply(s, Set(AttemptsKey(request), Number(0), Some(ms), true), clock).store, CountAttempt(request))
    case CountAttempt(request) =>
      var o := Apply(s, Incr(AttemptsKey(request)), clock);
      Progress(o.store, if o.reply.Found? && o.reply.value.Number?
               && o.reply.value.n >= MAX_APPROVE_ATTEMPTS then Invalidate(request) else Done(Refused))
    case Invalidate(request) => Progress(Apply(s, Del(RequestKey(request)), clock).store, Done(Refused))
    case StoreGrant(request, record, userId, newCode, now) =>
      var code := if record.RequestDoc? && record.callback then Some(newCode) else None;
      var ms := if record.RequestDoc? then record.expiresAt - now else 0;
      var o := Apply(s, Set(GrantKey(request), Json(GrantDoc(userId, code)), Some(ms), true), clock);
      Progress(o.store, Done(if o.reply.Ok? then Approved(code) else Refused))
    case Exchange(request, secret, code, newToken, ttlMs, now) =>
      var o := Apply(s, Get(RequestKey(request)), clock);
      Progress(o.store,
               match Loaded(o.reply, now)
               case None => Done(Refused)
               case Some(record) => if secret != record.secret
                   then Done(Refused) else TakeGrant(request, record, code, newToken, ttlMs, now))
    case TakeGrant(request, record, code, newToken, ttlMs, now) =>
      var o := Apply(s, GetDel(GrantKey(request)), clock);
      Progress(o.store,
               if o.reply.Null? then Done(Pending)
               else match Granted(o.reply, record, code)
                    case None => Done(Refused)
                    case Some(userId) => StoreToken(request, userId, newToken, ttlMs, now))
    case StoreToken(request, userId, newToken, ttlMs, now) =>
      Progress(Apply(s, Set(TokenKey(newToken), Json(TokenDoc(userId, now + ttlMs)), Some(ttlMs), false), clock).store,
               Retire(request, userId, newToken))
    case Retire(request, userId, newToken) =>
      Progress(Apply(s, Del(RequestKey(request)), clock).store, Done(Minted(newToken, userId)))
    case Done(_) => Progress(s, call)
  }

  /** An approval wins when its grant is stored; a token is minted when its record is. */
  predicate Wins(before: Call, after: Call) {
    before.StoreGrant? && after.Done? && after.result.Approved?
  }

  // ---- Any interleaving -------------------------------------------------------------------------

  type Claim = (nat, nat)

  /** All calls ever made, and the logs of winning approvals and of minted tokens, each by request and user. */
  datatype World = World(store: Store<Doc>, calls: seq<Call>, wins: seq<Claim>, minted: seq<Claim>)

  datatype Event =
    | Begins(call: Call)
    | Moves(k: nat, clock: int)
    | Elsewhere(op: Op<Doc>, clock: int)

  /** Only the services' own calls touch grants. */
  function Next(w: World, e: Event): World {
    match e
    case Begins(call) => if call.Start? || call.Approve? || call.Exchange? then w.(calls := w.calls + [call]) else w
    case Moves(k, clock) => if k < |w.calls| then Move(w, k, StepCall(w.store, w.calls[k], clock)) else w
    case Elsewhere(op, clock) => if op.key.GrantKey? then w else w.(store := Apply(w.store, op, clock).store)
  }

  function Move(w: World, k: nat, p: Progress): World
    requires k < |w.calls|
  {
    var call := w.calls[k];
    World(p.store, w.calls[k := p.call],
          if Wins(call, p.call) then w.wins + [(call.request, call.userId)] else w.wins,
          if call.StoreToken? then w.minted + [(call.request, call.userId)] else w.minted)
  }

  function Run(w: World, events: seq<Event>): World
    decreases |events|
  {
    if events == [] then w else Run(Next(w, events[0]), events[1..])
  }

  lemma {:induction false} RunConcat(w: World, a: seq<Event>, b: seq<Event>)
    ensures Run(w, a + b) == Run(Run(w, a), b)
    decreases |a|
  {
    if a == [] {
      assert a + b == b;
    } else {
      assert (a + b)[1..] == a[1..] + b;
      RunConcat(Next(w, a[0]), a[1..], b);
    }
  }

  /** How many of the calls are such. */
  function Count(calls: seq<Call>, such: Call -> bool): nat {
    if calls == [] then 0 else (if such(calls[0]) then 1 else 0) + Count(calls[1..], such)
  }

  predicate Carries(call: Call, c: Claim) {
    call.StoreToken? && call.request == c.0 && call.userId == c.1
  }

  function Carrier(c: Claim): Call -> bool {
    call => Carries(call, c)
  }

  /** Calls that took the grant and have not minted yet. */
  function Carried(calls: seq<Call>, c: Claim): nat {
    Count(calls, Carrier(c))
  }

  predicate Stored(s: Store<Doc>, c: Claim) {
    GrantKey(c.0) in s && s[GrantKey(c.0)].value.Json? && s[GrantKey(c.0)].value.record.GrantDoc?
    && s[GrantKey(c.0)].value.record.userId == c.1
  }

  lemma {:induction false} CountUpdate(calls: seq<Call>, k: nat, call: Call, such: Call -> bool)
    requires k < |calls|
    ensures Count(calls[k := call], such) + (if such(calls[k]) then 1 else 0) == Count(calls, such)
              + (if such(call) then 1 else 0)
    decreases |calls|
  {
    if k == 0 {
      assert calls[0 := call][1..] == calls[1..];
    } else {
      assert calls[k := call][1..] == calls[1..][k - 1 := call];
      CountUpdate(calls[1..], k - 1, call, such);
    }
  }

  lemma {:induction false} CountSnoc(calls: seq<Call>, call: Call, such: Call -> bool)
    ensures Count(calls + [call], such) == Count(calls, such) + (if such(call) then 1 else 0)
    decreases |calls|
  {
    if calls == [] {
      assert [call][1..] == [];
    } else {
      assert (calls + [call])[1..] == calls[1..] + [call];
      CountSnoc(calls[1..], call, such);
    }
  }

  lemma {:induction false} CountMost(calls: seq<Call>, such: Call -> bool, most: Call -> bool)
    requires forall call | call in calls && such(call) :: most(call)
    ensures Count(calls, such) <= Count(calls, most)
    decreases |calls|
  {
    if calls != [] {
      CountMost(calls[1..], such, most);
    }
  }

  /** None are such exactly when the count is 0. */
  lemma {:induction false} CountNone(calls: seq<Call>, such: Call -> bool)
    ensures Count(calls, such) == 0 <==> forall k | 0 <= k < |calls| :: !such(calls[k])
    decreases |calls|
  {
    if calls != [] {
      CountNone(calls[1..], such);
      assert forall k | 0 < k < |calls| :: calls[k] == calls[1..][k - 1];
      assert forall k | 0 <= k < |calls[1..]| :: calls[1..][k] == calls[k + 1];
    }
  }

  /** Each token, each grant taken and the grant stored has its own winning approval. */
  predicate Backed(w: World, c: Claim) {
    multiset(w.minted)[c] + Carried(w.calls, c) + (if Stored(w.store, c) then 1 else 0) <= multiset(w.wins)[c]
  }

  /** One store step: a grant is stored by a winning approval and taken by one exchange. */
  lemma StepBacks(s: Store<Doc>, call: Call, clock: int, c: Claim)
    ensures var p := StepCall(s, call, clock);
            var before := (if Stored(s, c) then 1 else 0)
                  + (if Wins(call, p.call) && (call.request, call.userId) == c then 1 else 0);
            (if Stored(p.store, c) then 1 else 0) + (if Carries(p.call, c) then 1 else 0) <= before
            || (Carries(call, c) && Stored(p.store, c) == Stored(s, c) && !Carries(p.call, c))
  {
    var p := StepCall(s, call, clock);
    match call
    case StoreGrant(request, record, userId, newCode, now) =>
    case TakeGrant(request, record, code, newToken, ttlMs, now) =>
    case Done(_) =>
    case _ => OffGrant(s, call, clock, c);
  }

  lemma OffGrant(s: Store<Doc>, call: Call, clock: int, c: Claim)
    requires !call.StoreGrant? && !call.TakeGrant? && !call.Done?
    ensures Stored(StepCall(s, call, clock).store, c) == Stored(s, c) && !Carries(StepCall(s, call, clock).call, c)
  {
  }

  lemma MovesBacked(w: World, k: nat, clock: int, c: Claim)
    requires k < |w.calls| && Backed(w, c)
    ensures Backed(Next(w, Moves(k, clock)), c)
  {
    var call := w.calls[k];
    var p := StepCall(w.store, call, clock);
    CountUpdate(w.calls, k, p.call, Carrier(c));
    StepBacks(w.store, call, clock, c);
  }

  lemma NextBacked(w: World, e: Event, c: Claim)
    requires Backed(w, c)
    ensures Backed(Next(w, e), c)
  {
    match e
    case Begins(call) => CountSnoc(w.calls, call, Carrier(c));
    case Moves(k, clock) => if k < |w.calls| { MovesBacked(w, k, clock, c); }
    case Elsewhere(op, clock) => if !op.key.GrantKey? { ApplyElsewhere(w.store, op, clock, GrantKey(c.0)); }
  }

  lemma {:induction false} RunBacked(w: World, events: seq<Event>, c: Claim)
    requires Backed(w, c)
    ensures Backed(Run(w, events), c)
    decreases |events|
  {
    if events != [] {
      NextBacked(w, events[0], c);
      RunBacked(Next(w, events[0]), events[1..], c);
    }
  }

  /**
   * However calls interleave, every token is backed by a winning approval of its own, of its request and by its
   * user.
   */
  lemma TokensAreApproved(events: seq<Event>)
    ensures var w := Run(World(map[], [], [], []), events); multiset(w.minted) <= multiset(w.wins)
  {
    var start := World(map[], [], [], []);
    forall c: Claim ensures multiset(Run(start, events).minted)[c] <= multiset(Run(start, events).wins)[c] {
      RunBacked(start, events, c);
    }
  }
}

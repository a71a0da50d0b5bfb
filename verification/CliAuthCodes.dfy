/** Wrong codes, and how many of them a request stands: CLI auth with approvals of one request overlapping. */
module CliAuthCodes {
  import opened Bytes
  import opened Redis
  import opened Docs
  import opened CliAuths
  import opened CliAuthSerial
  import opened CliAuthTokens

  // ---- Approvals under way ----------------------------------------------------------------------

  /** An approval that may yet compare or count a wrong code. */
  predicate Trying(call: Call, r: nat) {
    Concerns(call, r) && (call.Approve? || call.ArmAttempts? || call.CountAttempt? || call.Invalidate?)
  }

  function Trier(r: nat): Call -> bool {
    (call: Call) => Trying(call, r)
  }

  function Arming(r: nat): Call -> bool {
    (call: Call) => call.ArmAttempts? && call.request == r
  }

  function Counting(r: nat): Call -> bool {
    (call: Call) => call.CountAttempt? && call.request == r
  }

  function Voiding(r: nat): Call -> bool {
    (call: Call) => call.Invalidate? && call.request == r
  }

  /** An approval that may yet find the request. */
  function Hoping(s: Store<Doc>, r: nat): Call -> bool {
    (call: Call) => call.Approve? && call.request == r && Findable(s, r, call.now)
  }

  lemma {:induction false} StagesCount(calls: seq<Call>, s: Store<Doc>, r: nat)
    ensures Count(calls, Hoping(s, r)) + Count(calls, Arming(r)) + Count(calls, Counting(r))
              + Count(calls, Voiding(r)) <= Count(calls, Trier(r))
    decreases |calls|
  {
    if calls != [] {
      StagesCount(calls[1..], s, r);
    }
  }

  /** How many wrong codes the counter says. */
  function Counter(s: Store<Doc>, r: nat): nat {
    if AttemptsKey(r) in s && s[AttemptsKey(r)].value.Number?
        && s[AttemptsKey(r)].value.n >= 0 then s[AttemptsKey(r)].value.n else 0
  }

  // ---- Runs -------------------------------------------------------------------------------------

  /**
   * What a request has been through: whether it was started, the wrong codes compared with its own, the latest
   * clock.
   */
  datatype Track = Track(started: bool, wrong: nat, time: int)

  predicate Enters(call: Call, r: nat) {
    (call.Start? || call.Approve?) && call.request == r
  }

  /** A step of the request's start or of one of its approvals. */
  predicate Advances(w: World, e: Event, r: nat) {
    Moved(w, e, r) && !Exchanging(w.calls[e.k], r)
  }

  /**
   * The clocks of approvals and of the store under them do not run back, across all of them; the request is
   * started once; and nothing else touches its keys. Approvals and exchanges overlap as they like.
   */
  predicate Paced(w: World, x: Track, e: Event, r: nat) {
    match e
    case Begins(call) => Enters(call, r) ==> x.time <= call.now && (call.Start? ==> !x.started)
    case Moves(_, clock) => Advances(w, e, r) ==> x.time <= clock
    case Elsewhere(op, _) => !Own(op.key, r)
  }

  function Follow(w: World, x: Track, e: Event, r: nat): Track {
    match e
    case Begins(call) => if Enters(call, r) then Track(x.started || call.Start?, x.wrong, call.now) else x
    case Moves(k, clock) =>
      if Advances(w, e, r)
      then Track(x.started, if w.calls[k].Approve?
                 && StepCall(w.store, w.calls[k], clock).call.ArmAttempts? then x.wrong + 1 else x.wrong, clock)
      else x
    case Elsewhere(_, _) => x
  }

  /** And at most `most` of its approvals are ever under way at a time, those past a right code apart. */
  predicate AllPaced(w: World, x: Track, events: seq<Event>, r: nat, most: nat)
    decreases |events|
  {
    events != [] ==>
      && Paced(w, x, events[0], r) && Count(Next(w, events[0]).calls, Trier(r)) <= most
      && AllPaced(Next(w, events[0]), Follow(w, x, events[0], r), events[1..], r, most)
  }

  function Lived(w: World, x: Track, events: seq<Event>, r: nat): Track
    decreases |events|
  {
    if events == [] then x else Lived(Next(w, events[0]), Follow(w, x, events[0], r), events[1..], r)
  }

  // ---- What every run keeps ---------------------------------------------------------------------

  /** While the request lives its counter is never reset: it and the approvals still to count are all wrong codes. */
  predicate Even(s: Store<Doc>, r: nat, x: Track, arming: nat, counting: nat, voiding: nat) {
    Findable(s, r, x.time) ==>
      && Holds(s, r, RecordOf(s, r))
      && x.wrong == Counter(s, r) + arming + counting
      && Counter(s, r) < MAX_APPROVE_ATTEMPTS + voiding
      && (if AttemptsKey(r) !in s then counting == 0
          else Counter(s, r) + counting > 0 && Tally(s, r, RecordOf(s, r), Counter(s, r)))
  }

  /** Nobody has found the request. */
  predicate Unfound(s: Store<Doc>, calls: seq<Call>, x: Track, r: nat) {
    && RequestKey(r) !in s && AttemptsKey(r) !in s && x.wrong == 0
    && Count(calls, Arming(r)) == Count(calls, Counting(r)) == Count(calls, Voiding(r)) == 0
  }

  /** What a call about the request knows of it. */
  predicate Knows(s: Store<Doc>, call: Call, x: Track, r: nat) {
    && (call.ArmAttempts? && call.request == r ==>
          call.record.RequestDoc? && call.now <= x.time
          && (RequestKey(r) in s ==> s[RequestKey(r)].value == Json(call.record)))
    && (Starting(call, r) ==> x.started)
    && (Enters(call, r) ==> call.now <= x.time)
  }

  predicate StartsAlone(w: World, x: Track, r: nat) {
    && (!x.started ==> Unfound(w.store, w.calls, x, r) && NoStart(w, r))
    && (forall k | 0 <= k < |w.calls| && Starting(w.calls[k], r) :: Unfound(w.store, w.calls, x, r))
    && (forall i, j | 0 <= i < j < |w.calls| :: !(Starting(w.calls[i], r) && Starting(w.calls[j], r)))
  }

  predicate Tallied(w: World, x: Track, r: nat) {
    Even(w.store, r, x, Count(w.calls, Arming(r)), Count(w.calls, Counting(r)), Count(w.calls, Voiding(r)))
  }

  ghost predicate Budget(w: World, x: Track, r: nat, most: nat) {
    && Count(w.calls, Trier(r)) <= most
    && x.wrong + Count(w.calls, Hoping(w.store, r)) < MAX_APPROVE_ATTEMPTS + most
    && Tallied(w, x, r) && StartsAlone(w, x, r)
    && forall k | 0 <= k < |w.calls| :: Knows(w.store, w.calls[k], x, r)
  }

  // ---- One step ---------------------------------------------------------------------------------

  function One(b: bool): nat {
    if b then 1 else 0
  }

  /** A step of the start or of an approval, where the request lives on. */
  lemma StepEven(s: Store<Doc>, call: Call, r: nat, x: Track, clock: int, arming: nat, counting: nat, voiding: nat)
    requires Concerns(call, r) && !Exchanging(call, r) && !call.Start? && x.time <= clock && Knows(s, call, x, r)
    requires Even(s, r, x, arming, counting, voiding)
    requires (call.ArmAttempts? ==> arming > 0) && (call.CountAttempt? ==> counting > 0)
             && (call.Invalidate? ==> voiding > 0)
    ensures var p := StepCall(s, call, clock);
            var y := Track(x.started, if call.Approve? && p.call.ArmAttempts? then x.wrong + 1 else x.wrong, clock);
            && (Findable(p.store, r, clock) ==> Findable(s, r, x.time))
            && Even(p.store, r, y, arming - One(call.ArmAttempts?) + One(p.call.ArmAttempts?),
                    counting - One(call.CountAttempt?) + One(p.call.CountAttempt?),
                        voiding - One(call.Invalidate?) + One(p.call.Invalidate?))
  {
    if Findable(StepCall(s, call, clock).store, r, clock) {
      match call
      case ArmAttempts(_, record, now) => ArmStepEven(s, r, record, Counter(s, r), now, clock);
      case CountAttempt(_) => CountStep(s, r, RecordOf(s, r), Counter(s, r), clock);
      case _ =>
    }
  }

  lemma ArmStepEven(s: Store<Doc>, r: nat, record: Doc, n: nat, now: int, clock: int)
    requires Holds(s, r, record) && (if AttemptsKey(r) !in s then n == 0 else Tally(s, r, record, n))
             && now <= clock < record.expiresAt
    ensures var p := StepCall(s, ArmAttempts(r, record, now), clock);
            Holds(p.store, r, record) && Tally(p.store, r, record, n) && p.call == CountAttempt(r)
  {
  }

  /** A step of the start: the request is there, and nobody has tried it. */
  lemma StartEven(s: Store<Doc>, call: Call, r: nat, x: Track, clock: int)
    requires Starting(call, r) && Knows(s, call, x, r) && x.time <= clock && x.wrong == 0
    requires RequestKey(r) !in s && AttemptsKey(r) !in s
    ensures Even(StepCall(s, call, clock).store, r, Track(x.started, 0, clock), 0, 0, 0)
  {
  }

  /** What the others know stays so: no step but the start writes the record. */
  lemma KnowsKept(s: Store<Doc>, t: Store<Doc>, call: Call, x: Track, y: Track, r: nat)
    requires Kept(s, t, RequestKey(r)) && x.time <= y.time && x.started == y.started && Knows(s, call, x, r)
    ensures Knows(t, call, y, r)
  {
  }

  /** Hopes only fade. */
  lemma HopeKept(s: Store<Doc>, t: Store<Doc>, calls: seq<Call>, r: nat)
    requires Kept(s, t, RequestKey(r))
    ensures Count(calls, Hoping(t, r)) <= Count(calls, Hoping(s, r))
  {
    CountMost(calls, Hoping(t, r), Hoping(s, r));
  }

  /** Without hope nobody compares a code. */
  lemma ComparesHoped(s: Store<Doc>, call: Call, r: nat, clock: int)
    requires call.Approve? && call.request == r && StepCall(s, call, clock).call.ArmAttempts?
    ensures Hoping(s, r)(call) && StepCall(s, call, clock).call == ArmAttempts(r, RecordOf(s, r), call.now)
    ensures RecordOf(s, r).RequestDoc? && Same(s, StepCall(s, call, clock).store, RequestKey(r))
  {
  }

  // ---- Whole runs -------------------------------------------------------------------------------

  /** The counts of a call that is added. */
  lemma StagesSnoc(calls: seq<Call>, call: Call, s: Store<Doc>, r: nat)
    ensures var after := calls + [call];
            && Count(after, Trier(r)) == Count(calls, Trier(r)) + One(Trying(call, r))
            && Count(after, Arming(r)) == Count(calls, Arming(r)) + One(Arming(r)(call))
            && Count(after, Counting(r)) == Count(calls, Counting(r)) + One(Counting(r)(call))
            && Count(after, Voiding(r)) == Count(calls, Voiding(r)) + One(Voiding(r)(call))
            && Count(after, Hoping(s, r)) == Count(calls, Hoping(s, r)) + One(Hoping(s, r)(call))
  {
    CountSnoc(calls, call, Trier(r));
    CountSnoc(calls, call, Arming(r));
    CountSnoc(calls, call, Counting(r));
    CountSnoc(calls, call, Voiding(r));
    CountSnoc(calls, call, Hoping(s, r));
  }

  lemma StagesUpdate(calls: seq<Call>, k: nat, call: Call, s: Store<Doc>, r: nat)
    requires k < |calls|
    ensures var after, was := calls[k := call], calls[k];
            && Count(after, Trier(r)) + One(Trying(was, r)) == Count(calls, Trier(r)) + One(Trying(call, r))
            && Count(after, Arming(r)) + One(Arming(r)(was)) == Count(calls, Arming(r)) + One(Arming(r)(call))
            && Count(after, Counting(r)) + One(Counting(r)(was)) == Count(calls, Counting(r)) + One(Counting(r)(call))
            && Count(after, Voiding(r)) + One(Voiding(r)(was)) == Count(calls, Voiding(r)) + One(Voiding(r)(call))
            && Count(after, Hoping(s, r)) + One(Hoping(s, r)(was)) == Count(calls, Hoping(s, r))
                 + One(Hoping(s, r)(call))
  {
    CountUpdate(calls, k, call, Trier(r));
    CountUpdate(calls, k, call, Arming(r));
    CountUpdate(calls, k, call, Counting(r));
    CountUpdate(calls, k, call, Voiding(r));
    CountUpdate(calls, k, call, Hoping(s, r));
  }

  /** Where the request lives, the ceiling follows from its counter. */
  lemma Ceiling(w: World, x: Track, r: nat, most: nat)
    requires Count(w.calls, Trier(r)) <= most && Tallied(w, x, r) && Findable(w.store, r, x.time)
    ensures x.wrong + Count(w.calls, Hoping(w.store, r)) < MAX_APPROVE_ATTEMPTS + most
  {
    StagesCount(w.calls, w.store, r);
  }

  lemma BeginsBudget(w: World, x: Track, call: Call, r: nat, most: nat)
    requires Budget(w, x, r, most) && Paced(w, x, Begins(call), r)
             && Count(Next(w, Begins(call)).calls, Trier(r)) <= most
    ensures Budget(Next(w, Begins(call)), Follow(w, x, Begins(call), r), r, most)
  {
    var u, y := Next(w, Begins(call)), Follow(w, x, Begins(call), r);
    if u != w {
      StagesSnoc(w.calls, call, w.store, r);
      assert forall k | 0 <= k < |w.calls| :: u.calls[k] == w.calls[k];
      assert Tallied(u, y, r);
      if Findable(u.store, r, y.time) {
        Ceiling(u, y, r, most);
      }
      assert forall k | 0 <= k < |w.calls| :: Knows(u.store, u.calls[k], y, r);
    }
  }

  /** A step that is neither the request's start nor one of its approvals': its record may go, its counter stays. */
  lemma AsideBudget(w: World, u: World, x: Track, r: nat, most: nat)
    requires Budget(w, x, r, most) && Kept(w.store, u.store, RequestKey(r)) && Same(w.store, u.store, AttemptsKey(r))
    requires |u.calls| == |w.calls|
    requires forall i | 0 <= i < |w.calls| ::
               u.calls[i] == w.calls[i] || !(Concerns(u.calls[i], r) && !Exchanging(u.calls[i], r))
    requires forall i | 0 <= i < |w.calls| ::
               u.calls[i] == w.calls[i] || !(Concerns(w.calls[i], r) && !Exchanging(w.calls[i], r))
    requires Count(u.calls, Trier(r)) == Count(w.calls, Trier(r))
             && Count(u.calls, Arming(r)) == Count(w.calls, Arming(r))
    requires Count(u.calls, Counting(r)) == Count(w.calls, Counting(r))
             && Count(u.calls, Voiding(r)) == Count(w.calls, Voiding(r))
    requires Count(u.calls, Hoping(w.store, r)) == Count(w.calls, Hoping(w.store, r))
    ensures Budget(u, x, r, most)
  {
    HopeKept(w.store, u.store, u.calls, r);
    forall k | 0 <= k < |u.calls| ensures Knows(u.store, u.calls[k], x, r) {
      if u.calls[k] == w.calls[k] {
        KnowsKept(w.store, u.store, w.calls[k], x, x, r);
      }
    }
  }

  lemma AsideMoveBudget(w: World, x: Track, k: nat, clock: int, r: nat, most: nat)
    requires Budget(w, x, r, most) && k < |w.calls| && !Advances(w, Moves(k, clock), r)
    ensures Budget(Next(w, Moves(k, clock)), x, r, most)
  {
    var call, p, u := w.calls[k], StepCall(w.store, w.calls[k], clock), Next(w, Moves(k, clock));
    assert u.calls == w.calls[k := p.call];
    StagesUpdate(w.calls, k, p.call, w.store, r);
    MoveKeys(w.store, call, clock, r);
    if !call.Done? && call.request != r {
      StepIsForeign(w.store, call, clock, r);
      ApplyElsewhere(w.store, StepOp(call), clock, AttemptsKey(r));
    }
    AsideBudget(w, u, x, r, most);
  }

  /** A step of an approval: what the counter and the approvals say of the wrong codes. */
  lemma ApprovalTallied(w: World, x: Track, k: nat, clock: int, r: nat, most: nat)
    requires Budget(w, x, r, most) && Paced(w, x, Moves(k, clock), r) && Advances(w, Moves(k, clock), r)
             && !w.calls[k].Start?
    ensures Tallied(Next(w, Moves(k, clock)), Follow(w, x, Moves(k, clock), r), r)
    ensures Findable(Next(w, Moves(k, clock)).store, r, clock) ==> Findable(w.store, r, x.time)
  {
    var call, p := w.calls[k], StepCall(w.store, w.calls[k], clock);
    StagesUpdate(w.calls, k, p.call, w.store, r);
    CountNone(w.calls, Arming(r));
    CountNone(w.calls, Counting(r));
    CountNone(w.calls, Voiding(r));
    assert Arming(r)(call) == call.ArmAttempts? && Counting(r)(call) == call.CountAttempt?
           && Voiding(r)(call) == call.Invalidate?;
    StepEven(w.store, call, r, x, clock, Count(w.calls, Arming(r)), Count(w.calls, Counting(r)),
             Count(w.calls, Voiding(r)));
  }

  lemma ApprovalCeiling(w: World, x: Track, k: nat, clock: int, r: nat, most: nat)
    requires Budget(w, x, r, most) && Paced(w, x, Moves(k, clock), r) && Advances(w, Moves(k, clock), r)
             && !w.calls[k].Start?
    ensures var u, y := Next(w, Moves(k, clock)), Follow(w, x, Moves(k, clock), r);
            y.wrong + Count(u.calls, Hoping(u.store, r)) < MAX_APPROVE_ATTEMPTS + most
            && Count(u.calls, Trier(r)) <= most
  {
    var call, p, u := w.calls[k], StepCall(w.store, w.calls[k], clock), Next(w, Moves(k, clock));
    StagesUpdate(w.calls, k, p.call, w.store, r);
    MoveKeys(w.store, call, clock, r);
    HopeKept(w.store, u.store, u.calls, r);
    if call.Approve? && p.call.ArmAttempts? {
      ComparesHoped(w.store, call, r, clock);
    }
  }

  lemma ApprovalKnows(w: World, x: Track, k: nat, clock: int, r: nat, most: nat)
    requires Budget(w, x, r, most) && Paced(w, x, Moves(k, clock), r) && Advances(w, Moves(k, clock), r)
             && !w.calls[k].Start?
    ensures var u, y := Next(w, Moves(k, clock)), Follow(w, x, Moves(k, clock), r);
            forall i | 0 <= i < |u.calls| :: Knows(u.store, u.calls[i], y, r)
  {
    var call, p, u, y := w.calls[k], StepCall(w.store, w.calls[k], clock), Next(w, Moves(k, clock)),
        Follow(w, x, Moves(k, clock), r);
    MoveKeys(w.store, call, clock, r);
    forall i | 0 <= i < |u.calls| ensures Knows(u.store, u.calls[i], y, r) {
      if i != k {
        assert u.calls[i] == w.calls[i];
        KnowsKept(w.store, u.store, w.calls[i], x, y, r);
      } else {
        assert u.calls[i] == p.call;
        assert Knows(w.store, call, x, r);
        if p.call.ArmAttempts? {
          ComparesHoped(w.store, call, r, clock);
        }
      }
    }
  }

  /** As long as nobody has found the request its approvals are refused. */
  lemma ApprovalAlone(w: World, x: Track, k: nat, clock: int, r: nat, most: nat)
    requires Budget(w, x, r, most) && Paced(w, x, Moves(k, clock), r) && Advances(w, Moves(k, clock), r)
             && !w.calls[k].Start?
    ensures StartsAlone(Next(w, Moves(k, clock)), Follow(w, x, Moves(k, clock), r), r)
  {
    var call, p, u, y := w.calls[k], StepCall(w.store, w.calls[k], clock), Next(w, Moves(k, clock)),
        Follow(w, x, Moves(k, clock), r);
    assert u.calls == w.calls[k := p.call] && !p.call.Start?;
    if Unfound(w.store, w.calls, x, r) {
      UnfoundKept(w, x, k, clock, r);
    }
  }

  lemma UnfoundKept(w: World, x: Track, k: nat, clock: int, r: nat)
    requires Unfound(w.store, w.calls, x, r) && Advances(w, Moves(k, clock), r) && !w.calls[k].Start?
    ensures Unfound(Next(w, Moves(k, clock)).store, Next(w, Moves(k, clock)).calls, Follow(w, x, Moves(k, clock), r), r)
  {
    var call, p := w.calls[k], StepCall(w.store, w.calls[k], clock);
    StagesUpdate(w.calls, k, p.call, w.store, r);
    MoveKeys(w.store, call, clock, r);
    CountNone(w.calls, Arming(r));
    CountNone(w.calls, Counting(r));
    CountNone(w.calls, Voiding(r));
    assert !Arming(r)(call) && !Counting(r)(call) && !Voiding(r)(call);
  }

  lemma StartBudget(w: World, x: Track, k: nat, clock: int, r: nat, most: nat)
    requires Budget(w, x, r, most) && Paced(w, x, Moves(k, clock), r) && Advances(w, Moves(k, clock), r)
             && w.calls[k].Start?
    ensures Budget(Next(w, Moves(k, clock)), Follow(w, x, Moves(k, clock), r), r, most)
  {
    var call, p, u, y := w.calls[k], StepCall(w.store, w.calls[k], clock), Next(w, Moves(k, clock)),
        Follow(w, x, Moves(k, clock), r);
    assert Starting(call, r) && Knows(w.store, call, x, r) && Unfound(w.store, w.calls, x, r);
    StagesUpdate(w.calls, k, p.call, u.store, r);
    StartEven(w.store, call, r, x, clock);
    StagesCount(u.calls, u.store, r);
    CountNone(w.calls, Arming(r));
    forall i | 0 <= i < |u.calls| ensures Knows(u.store, u.calls[i], y, r) && !Starting(u.calls[i], r) {
      if i != k {
        assert u.calls[i] == w.calls[i] && !Arming(r)(w.calls[i]);
        assert Starting(w.calls[k], r);
      }
    }
  }

  lemma NextBudget(w: World, x: Track, e: Event, r: nat, most: nat)
    requires Budget(w, x, r, most) && Paced(w, x, e, r) && Count(Next(w, e).calls, Trier(r)) <= most
    ensures Budget(Next(w, e), Follow(w, x, e, r), r, most)
  {
    match e
    case Begins(call) => BeginsBudget(w, x, call, r, most);
    case Moves(k, clock) =>
      if !Advances(w, e, r) {
        if k < |w.calls| { AsideMoveBudget(w, x, k, clock, r, most); }
      } else if w.calls[k].Start? {
        StartBudget(w, x, k, clock, r, most);
      } else {
        ApprovalTallied(w, x, k, clock, r, most);
        ApprovalCeiling(w, x, k, clock, r, most);
        ApprovalKnows(w, x, k, clock, r, most);
        ApprovalAlone(w, x, k, clock, r, most);
      }
    case Elsewhere(op, clock) =>
      ApplyElsewhere(w.store, op, clock, RequestKey(r));
      ApplyElsewhere(w.store, op, clock, AttemptsKey(r));
      AsideBudget(w, Next(w, e), x, r, most);
  }

  lemma {:induction false} RunBudget(w: World, x: Track, events: seq<Event>, r: nat, most: nat)
    requires Budget(w, x, r, most) && AllPaced(w, x, events, r, most)
    ensures Budget(Run(w, events), Lived(w, x, events, r), r, most)
    decreases |events|
  {
    if events != [] {
      NextBudget(w, x, events[0], r, most);
      RunBudget(Next(w, events[0]), Follow(w, x, events[0], r), events[1..], r, most);
    }
  }

  /**
   * However approvals and exchanges of a request interleave, of which at most `most` approvals are ever
   * under way at once: at most 4 + `most` wrong codes are compared with its own. While somebody may still
   * find it, its counter has never been reset: it and the approvals about to count come to all wrong codes.
   * So once none is under way, five have ended the request, and fewer are what the counter says.
   */
  lemma CodesCompared(events: seq<Event>, r: nat, most: nat, start: int, now: int)
    requires AllPaced(World(map[], [], [], []), Track(false, 0, start), events, r, most)
    ensures var w, x := Run(World(map[], [], [], []), events),
            Lived(World(map[], [], [], []), Track(false, 0, start), events, r);
            && x.wrong < MAX_APPROVE_ATTEMPTS + most
            && (Findable(w.store, r, x.time) ==>
                  && x.wrong == Counter(w.store, r) + Count(w.calls, Arming(r)) + Count(w.calls, Counting(r))
                  && x.wrong < MAX_APPROVE_ATTEMPTS + Count(w.calls, Trier(r)))
            && (Count(w.calls, Trier(r)) == 0 && x.time <= now && Findable(w.store, r, now) ==>
                  x.wrong < MAX_APPROVE_ATTEMPTS && Counted(w.store, r, RecordOf(w.store, r), x.wrong))
  {
    var w0, x0 := World(map[], [], [], []), Track(false, 0, start);
    RunBudget(w0, x0, events, r, most);
    StagesCount(Run(w0, events).calls, Run(w0, events).store, r);
  }

  /** So when approvals of a request do not overlap it stands five wrong codes, however exchanges overlap. */
  lemma FiveCodes(events: seq<Event>, r: nat, start: int)
    requires AllPaced(World(map[], [], [], []), Track(false, 0, start), events, r, 1)
    ensures Lived(World(map[], [], [], []), Track(false, 0, start), events, r).wrong <= MAX_APPROVE_ATTEMPTS
  {
    CodesCompared(events, r, 1, start, start);
  }

  // ---- The bound is met -------------------------------------------------------------------------

  lemma {:induction false} PacedConcat(w: World, x: Track, a: seq<Event>, b: seq<Event>, r: nat, most: nat)
    requires AllPaced(w, x, a, r, most) && AllPaced(Run(w, a), Lived(w, x, a, r), b, r, most)
    ensures AllPaced(w, x, a + b, r, most) && Run(w, a + b) == Run(Run(w, a), b)
    ensures Lived(w, x, a + b, r) == Lived(Run(w, a), Lived(w, x, a, r), b, r)
    decreases |a|
  {
    if a == [] {
      assert a + b == b;
    } else {
      assert (a + b)[1..] == a[1..] + b;
      PacedConcat(Next(w, a[0]), Follow(w, x, a[0], r), a[1..], b, r, most);
    }
  }

  lemma PacedSnoc(w: World, x: Track, a: seq<Event>, e: Event, r: nat, most: nat)
    requires AllPaced(w, x, a, r, most) && Paced(Run(w, a), Lived(w, x, a, r), e, r)
    requires Count(Next(Run(w, a), e).calls, Trier(r)) <= most
    ensures AllPaced(w, x, a + [e], r, most) && Run(w, a + [e]) == Next(Run(w, a), e)
    ensures Lived(w, x, a + [e], r) == Follow(Run(w, a), Lived(w, x, a, r), e, r)
  {
    assert [e][1..] == [];
    PacedConcat(w, x, a, [e], r, most);
  }

  /** Request 7 shows a code; whoever approves it gives none. */
  const SHOWN := RequestDoc(1, false, 1000, Some("A"))
  const TRIES := Approve(7, 11, None, 0, 0)

  function Attempts(n: nat): Store<Doc> {
    map[RequestKey(7) := Entry(Json(SHOWN), Some(1000))] + if n == 0
        then map[] else map[AttemptsKey(7) := Entry(Number(n), Some(1000))]
  }

  /** `n` approvals are refused, and `m` more have compared their code. */
  function Tried(n: nat, m: nat): (calls: seq<Call>)
    ensures |calls| == 1 + n + m
  {
    if m > 0 then Tried(n, m - 1) + [ArmAttempts(7, SHOWN, 0)]
    else if n > 0 then Tried(n - 1, 0) + [Done(Refused)]
    else [Done(Started)]
  }

  lemma {:induction false} TriedCount(n: nat, m: nat)
    ensures Count(Tried(n, m), Trier(7)) == m
    decreases n + m
  {
    if m > 0 {
      TriedCount(n, m - 1);
      CountSnoc(Tried(n, m - 1), ArmAttempts(7, SHOWN, 0), Trier(7));
    } else if n > 0 {
      TriedCount(n - 1, 0);
      CountSnoc(Tried(n - 1, 0), Done(Refused), Trier(7));
    } else {
      assert [Done(Started)][1..] == [];
    }
  }

  /** A world that a legal run leads to, and how many wrong codes it compared. */
  ghost predicate Reached(store: Store<Doc>, calls: seq<Call>, wrong: nat, most: nat, events: seq<Event>) {
    var w0, x0 := World(map[], [], [], []), Track(false, 0, 0);
    && AllPaced(w0, x0, events, 7, most) && Run(w0, events) == World(store, calls, [], [])
    && Lived(w0, x0, events, 7) == Track(true, wrong, 0)
  }

  /** One more event. */
  lemma Onward(store: Store<Doc>, calls: seq<Call>, wrong: nat, most: nat, events: seq<Event>, e: Event)
    requires Reached(store, calls, wrong, most, events)
    requires var w, x := World(store, calls, [], []), Track(true, wrong, 0);
             Paced(w, x, e, 7) && Count(Next(w, e).calls, Trier(7)) <= most && Next(w, e).wins == []
             && Next(w, e).minted == []
             && Follow(w, x, e, 7).started && Follow(w, x, e, 7).time == 0
    ensures var w, x := World(store, calls, [], []), Track(true, wrong, 0);
            Reached(Next(w, e).store, Next(w, e).calls, Follow(w, x, e, 7).wrong, most, events + [e])
  {
    PacedSnoc(World(map[], [], [], []), Track(false, 0, 0), events, e, 7, most);
  }

  lemma Starts(most: nat) returns (events: seq<Event>)
    ensures Reached(Attempts(0), Tried(0, 0), 0, most, events)
  {
    var w0, x0 := World(map[], [], [], []), Track(false, 0, 0);
    var begin, move := Begins(Start(7, 1, false, "A", 1000, 0)), Moves(0, 0);
    CountSnoc([], begin.call, Trier(7));
    assert [] + [begin.call] == [begin.call];
    PacedSnoc(w0, x0, [], begin, 7, most);
    var w1 := World(map[], [begin.call], [], []);
    assert NormalizeUserCode("A") == "A" by { assert "A"[1..] == []; }
    assert StepCall(map[], begin.call, 0) == Progress(Attempts(0), Done(Started));
    TriedCount(0, 0);
    assert Next(w1, move) == World(Attempts(0), [Done(Started)], [], []);
    events := [] + [begin];
    PacedSnoc(w0, x0, events, move, 7, most);
    events := events + [move];
  }

  /** A wrong code with nobody beside it: compared, and not counted yet. */
  lemma Compares(n: nat, m: nat, most: nat, events: seq<Event>) returns (more: seq<Event>)
    requires m < most && Reached(Attempts(n), Tried(n, m), n + m, most, events)
    ensures Reached(Attempts(n), Tried(n, m + 1), n + m + 1, most, more)
  {
    var k := |Tried(n, m)|;
    TriedCount(n, m);
    CountSnoc(Tried(n, m), TRIES, Trier(7));
    Onward(Attempts(n), Tried(n, m), n + m, most, events, Begins(TRIES));
    more := events + [Begins(TRIES)];
    var calls := Tried(n, m) + [TRIES];
    assert calls[k := ArmAttempts(7, SHOWN, 0)] == Tried(n, m + 1);
    TriedCount(n, m + 1);
    assert Evict(Attempts(n), RequestKey(7), 0) == Attempts(n);
    Onward(Attempts(n), calls, n + m, most, more, Moves(k, 0));
    more := more + [Moves(k, 0)];
  }

  function Armed(n: nat): Store<Doc> {
    Attempts(n)[AttemptsKey(7) := Entry(Number(n), Some(1000))]
  }

  lemma Arms(n: nat, most: nat, events: seq<Event>) returns (more: seq<Event>)
    requires most > 0 && Reached(Attempts(n), Tried(n, 1), n + 1, most, events)
    ensures Reached(Armed(n), Tried(n, 0) + [CountAttempt(7)], n + 1, most, more)
  {
    var k, calls := |Tried(n, 0)|, Tried(n, 0) + [CountAttempt(7)];
    assert Tried(n, 1)[k := CountAttempt(7)] == calls && Tried(n, 1)[k] == ArmAttempts(7, SHOWN, 0);
    TriedCount(n, 0);
    CountSnoc(Tried(n, 0), CountAttempt(7), Trier(7));
    assert StepCall(Attempts(n), ArmAttempts(7, SHOWN, 0), 0) == Progress(Armed(n), CountAttempt(7));
    Onward(Attempts(n), Tried(n, 1), n + 1, most, events, Moves(k, 0));
    more := events + [Moves(k, 0)];
  }

  /** And counted, as long as it is not the fifth. */
  lemma Counts(n: nat, most: nat, events: seq<Event>) returns (more: seq<Event>)
    requires n < 4 && Reached(Armed(n), Tried(n, 0) + [CountAttempt(7)], n + 1, most, events)
    ensures Reached(Attempts(n + 1), Tried(n + 1, 0), n + 1, most, more)
  {
    var k, calls := |Tried(n, 0)|, Tried(n, 0) + [CountAttempt(7)];
    assert calls[k := Done(Refused)] == Tried(n + 1, 0) && calls[k] == CountAttempt(7);
    TriedCount(n + 1, 0);
    assert StepCall(Armed(n), CountAttempt(7), 0) == Progress(Attempts(n + 1), Done(Refused));
    Onward(Armed(n), calls, n + 1, most, events, Moves(k, 0));
    more := events + [Moves(k, 0)];
  }

  lemma {:induction false} CountsTo(n: nat, most: nat) returns (events: seq<Event>)
    requires n <= 4 && most > 0
    ensures Reached(Attempts(n), Tried(n, 0), n, most, events)
  {
    if n == 0 {
      events := Starts(most);
    } else {
      events := CountsTo(n - 1, most);
      events := Compares(n - 1, 0, most, events);
      events := Arms(n - 1, most, events);
      events := Counts(n - 1, most, events);
    }
  }

  lemma {:induction false} ComparesTo(m: nat, most: nat) returns (events: seq<Event>)
    requires m <= most && most > 0
    ensures Reached(Attempts(4), Tried(4, m), 4 + m, most, events)
  {
    if m == 0 {
      events := CountsTo(4, most);
    } else {
      events := ComparesTo(m - 1, most);
      events := Compares(4, m - 1, most, events);
    }
  }

  /** The budget is not kept when approvals overlap: after four wrong codes, as many more as overlap are compared. */
  lemma BudgetIsMet(most: nat)
    requires most > 0
    ensures exists events ::
              AllPaced(World(map[], [], [], []), Track(false, 0, 0), events, 7, most)
              && Lived(World(map[], [], [], []), Track(false, 0, 0), events, 7).wrong == MAX_APPROVE_ATTEMPTS - 1 + most
  {
    var events := ComparesTo(most, most);
  }
}

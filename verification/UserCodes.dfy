/** Which codes approve. */
module UserCodes {
  // The code an approval is shown, character by character against the one the terminal shows.

  import opened Bytes
  import opened Redis
  import opened Docs
  import opened CliAuths
  import opened CliAuthSerial

  // ---- Typing a code ----------------------------------------------------------------------------

  predicate Small(c: char) {
    'a' <= c <= 'z'
  }

  /** A letter or a digit. */
  predicate Counts(c: char) {
    'A' <= c <= 'Z' || Small(c) || '0' <= c <= '9'
  }

  /** The same digit, or the same letter, in whichever case it is typed. */
  predicate SameSymbol(typed: char, shown: char) {
    Counts(typed)
    && if Small(typed) then typed as int - 'a' as int == shown as int - 'A' as int else typed == shown
  }

  /** `places` are the letters and digits of `typed`, all of them, in order, and each is the code's at its place. */
  ghost predicate SpellsAt(typed: string, code: string, places: seq<nat>) {
    && Symbols(typed, code, places) && Rising(places)
    && forall i | 0 <= i < |typed| :: Counts(typed[i]) <==> i in places
  }

  ghost predicate Spells(typed: string, code: string) {
    exists places :: SpellsAt(typed, code, places)
  }

  function Shifted(places: seq<nat>): seq<nat> {
    seq(|places|, j requires 0 <= j < |places| => places[j] + 1)
  }

  lemma {:induction false} NormalSpells(typed: string) returns (places: seq<nat>)
    ensures SpellsAt(typed, NormalizeUserCode(typed), places)
    decreases |typed|
  {
    if typed == [] {
      places := [];
    } else {
      var rest := NormalSpells(typed[1..]);
      places := (if Counts(typed[0]) then [0] else []) + Shifted(rest);
      ShiftedSpells(typed, rest, places);
    }
  }

  lemma ShiftedSpells(typed: string, rest: seq<nat>, places: seq<nat>)
    requires typed != [] && SpellsAt(typed[1..], NormalizeUserCode(typed[1..]), rest)
    requires places == (if Counts(typed[0]) then [0] else []) + Shifted(rest)
    ensures SpellsAt(typed, NormalizeUserCode(typed), places)
  {
    var code, behind := NormalizeUserCode(typed), NormalizeUserCode(typed[1..]);
    NormalHead(typed);
    ShiftedSymbols(typed, rest, places, code, behind);
    ShiftedPlaces(typed, rest, places);
  }

  lemma NormalHead(typed: string)
    requires typed != []
    ensures var code, behind := NormalizeUserCode(typed), NormalizeUserCode(typed[1..]);
            if Counts(typed[0]) then |code| == 1 + |behind| && code[1..] == behind && SameSymbol(typed[0], code[0])
            else code == behind
  {
    UpperSame(typed[0]);
  }

  lemma UpperSame(c: char)
    ensures CodeSymbol(Upper(c)) <==> Counts(c)
    ensures Counts(c) ==> SameSymbol(c, Upper(c))
  {
  }

  /** Each place has its symbol. */
  predicate Symbols(typed: string, code: string, places: seq<nat>) {
    |places| == |code| && forall j | 0 <= j < |places| :: places[j] < |typed| && SameSymbol(typed[places[j]], code[j])
  }

  lemma ShiftedBehind(typed: string, rest: seq<nat>, behind: string)
    requires typed != [] && Symbols(typed[1..], behind, rest) && Rising(rest)
    ensures Symbols(typed, behind, Shifted(rest)) && Rising([0] + Shifted(rest)) && Rising(Shifted(rest))
  {
    forall j | 0 <= j < |rest| ensures typed[Shifted(rest)[j]] == typed[1..][rest[j]] {
    }
  }

  lemma ShiftedSymbols(typed: string, rest: seq<nat>, places: seq<nat>, code: string, behind: string)
    requires typed != [] && Symbols(typed[1..], behind, rest) && Rising(rest)
    requires places == (if Counts(typed[0]) then [0] else []) + Shifted(rest)
    requires if Counts(typed[0]) then |code| == 1 + |behind| && code[1..] == behind && SameSymbol(typed[0], code[0])
             else code == behind
    ensures Symbols(typed, code, places) && Rising(places)
  {
    ShiftedBehind(typed, rest, behind);
    if Counts(typed[0]) {
      forall j | 0 < j < |places| ensures places[j] < |typed| && SameSymbol(typed[places[j]], code[j]) {
        assert places[j] == Shifted(rest)[j - 1] && code[j] == behind[j - 1];
      }
    } else {
      assert places == Shifted(rest);
    }
  }

  lemma ShiftedPlaces(typed: string, rest: seq<nat>, places: seq<nat>)
    requires typed != [] && places == (if Counts(typed[0]) then [0] else []) + Shifted(rest)
    requires forall i | 0 <= i < |typed[1..]| :: Counts(typed[1..][i]) <==> i in rest
    ensures forall i | 0 <= i < |typed| :: Counts(typed[i]) <==> i in places
  {
    forall i | 0 <= i < |typed| ensures Counts(typed[i]) <==> i in places {
      ShiftedIn(rest, i);
      if i > 0 {
        assert typed[i] == typed[1..][i - 1];
      }
    }
  }

  lemma ShiftedIn(rest: seq<nat>, i: nat)
    ensures i in Shifted(rest) <==> i > 0 && i - 1 in rest
  {
    if i > 0 && i - 1 in rest {
      var j :| 0 <= j < |rest| && rest[j] == i - 1;
      assert Shifted(rest)[j] == i;
    }
  }

  /** Letters and digits are spelled in one way. */
  lemma {:induction false} OneSpelling(typed: string, a: string, p: seq<nat>, b: string, q: seq<nat>)
    requires SpellsAt(typed, a, p) && SpellsAt(typed, b, q)
    ensures p == q && a == b
  {
    SamePlaces(p, q);
    forall j | 0 <= j < |a| ensures a[j] == b[j] {
    }
  }

  predicate Rising(p: seq<nat>) {
    forall i, j | 0 <= i < j < |p| :: p[i] < p[j]
  }

  /** Rising sequences of the same numbers are the same. */
  lemma {:induction false} SamePlaces(p: seq<nat>, q: seq<nat>)
    requires Rising(p) && Rising(q) && (forall i | i in p :: i in q) && (forall i | i in q :: i in p)
    ensures p == q
    decreases |p|
  {
    assert p != [] ==> p[0] in q;
    assert q != [] ==> q[0] in p;
    if p != [] {
      assert p[|p| - 1] in q && q[|q| - 1] in p;
      assert p[|p| - 1] == q[|q| - 1];
      LastOnce(p);
      LastOnce(q);
      var a, b := p[..|p| - 1], q[..|q| - 1];
      forall i | i in a ensures i in b { assert i in p; }
      forall i | i in b ensures i in a { assert i in q; }
      SamePlaces(a, b);
    }
  }

  lemma LastOnce(p: seq<nat>)
    requires Rising(p) && p != []
    ensures forall i :: i in p[..|p| - 1] <==> i in p && i != p[|p| - 1]
  {
    forall i | i in p && i != p[|p| - 1] ensures i in p[..|p| - 1] {
      var j :| 0 <= j < |p| && p[j] == i;
      assert p[..|p| - 1][j] == i;
    }
  }

  lemma SpellsExactly(typed: string, code: string)
    ensures Spells(typed, code) <==> NormalizeUserCode(typed) == code
  {
    var p := NormalSpells(typed);
    if Spells(typed, code) {
      var q :| SpellsAt(typed, code, q);
      OneSpelling(typed, NormalizeUserCode(typed), p, code, q);
    }
  }

  // ---- Finding the request ----------------------------------------------------------------------

  /** The request's record is there and its time is not up: on the store's clock, and on the caller's. */
  predicate InTime(s: Store<Doc>, r: nat, now: int, clock: int, record: Doc) {
    && RequestKey(r) in s && s[RequestKey(r)].value == Json(record)
    && record.RequestDoc? && now < record.expiresAt
    && (s[RequestKey(r)].expiresAt.Some? ==> clock < s[RequestKey(r)].expiresAt.value)
  }

  /** A call finds that record and no other. */
  lemma FoundLaw(s: Store<Doc>, r: nat, now: int, clock: int, record: Doc)
    ensures Request(s, r, now, clock) == Some(record) <==> InTime(s, r, now, clock, record)
  {
    if RequestKey(r) in s && s[RequestKey(r)].value.Json? && s[RequestKey(r)].value.record.RequestDoc? {
      assert s[RequestKey(r)].value.record
             == RequestDoc(s[RequestKey(r)].value.record.secret, s[RequestKey(r)].value.record.callback,
                           s[RequestKey(r)].value.record.expiresAt, s[RequestKey(r)].value.record.userCode);
    }
  }

  // ---- Approving --------------------------------------------------------------------------------

  /** The code that a request shows is typed; or it shows none. */
  ghost predicate Shows(record: Doc, provided: Option<string>)
    requires record.RequestDoc?
  {
    record.userCode.Some? ==>
      record.userCode.value != "" && provided.Some? && Spells(provided.value, record.userCode.value)
  }

  lemma WrongCodeMeans(record: Doc, provided: Option<string>)
    requires record.RequestDoc?
    ensures WrongCode(record, provided) <==> !Shows(record, provided)
  {
    if record.userCode.Some? && provided.Some? {
      SpellsExactly(provided.value, record.userCode.value);
    }
  }

  /**
   * An approval that finds its request wins exactly when nobody has approved it and its code, if it shows
   * one, is typed: its letters and digits in order, in either case, with anything else between.
   */
  lemma ApproveLaw(s: Store<Doc>, call: Call, ticks: seq<Tick>, record: Doc)
    requires call.Approve? && |ticks| >= 4 && Elapses(ticks, call.request, call.now)
    requires InTime(s, call.request, call.now, ticks[0].clock, record)
    ensures var p, approved := Finish(s, call, ticks), Live(s, GrantKey(call.request), ticks[1].clock).Some?;
            && (p.call.result.Approved? <==> !approved && Shows(record, call.provided))
            && (!p.call.result.Approved? ==> p.call == Done(Refused))
            && (p.call.result.Approved? ==>
                  && GrantKey(call.request) in p.store && p.store[GrantKey(call.request)].value.Json?
                  && p.store[GrantKey(call.request)].value.record
                     == GrantDoc(call.userId, if record.callback then Some(call.newCode) else None))
  {
    FoundLaw(s, call.request, call.now, ticks[0].clock, record);
    ApproveOutcome(s, call, ticks);
    WrongCodeMeans(record, call.provided);
    ApprovalEnds(s, call, ticks);
  }

  /** An approval comes to a win or a refusal. */
  lemma ApprovalEnds(s: Store<Doc>, call: Call, ticks: seq<Tick>)
    requires call.Approve? && |ticks| >= 4 && Elapses(ticks, call.request, call.now)
    ensures var r := Finish(s, call, ticks).call.result; r.Approved? || r == Refused
  {
    var p := Take(s, call, ticks[0]);
    if p.call.ArmAttempts? {
      AttemptsOffGrants(p.store, p.call, ticks[1..], ticks[0].clock);
    } else if p.call.StoreGrant? {
      var q := Take(p.store, p.call, ticks[1..][0]);
      assert Finish(p.store, p.call, ticks[1..]) == Finish(q.store, q.call, ticks[1..][1..]) == q;
    }
  }

  /** What is not the code spends one attempt, and the fifth ends the request; what is spends none. */
  lemma AttemptLaw(s: Store<Doc>, call: Call, ticks: seq<Tick>, record: Doc, wrong: nat)
    requires call.Approve? && |ticks| >= 4 && Elapses(ticks, call.request, call.now)
    requires Counted(s, call.request, record, wrong)
    requires InTime(s, call.request, call.now, ticks[0].clock, record)
    ensures var p, r := Finish(s, call, ticks), call.request;
            if Shows(record, call.provided) then Counted(p.store, r, record, wrong)
            else Last(ticks) < record.expiresAt ==>
                   if wrong + 1 < 5 then Counted(p.store, r, record, wrong + 1) else RequestKey(r) !in p.store
  {
    FoundLaw(s, call.request, call.now, ticks[0].clock, record);
    WrongCodeMeans(record, call.provided);
    if Shows(record, call.provided) {
      RightCodeCounts(s, call, ticks, record, wrong);
    } else {
      WrongCodeCounts(s, call, ticks, record, wrong);
    }
  }

  // ---- Starting ---------------------------------------------------------------------------------

  /** The request's record says what it was started with. */
  ghost predicate StartedAs(record: Doc, call: Call)
    requires call.Start?
  {
    && record.RequestDoc? && record.secret == call.secret && record.callback == call.callback
    && record.expiresAt == call.now + call.ttlMs && (record.userCode.None? <==> call.callback)
    && (!call.callback ==> Spells(call.userCode, record.userCode.value))
  }

  /** A start under an id that is free stores its secret, its expiry and, if it is headless, the code it shows. */
  lemma StartLaw(s: Store<Doc>, call: Call, ticks: seq<Tick>)
    requires call.Start? && ticks != [] && Foreign(ticks[0].others, call.request)
    requires Live(s, RequestKey(call.request), ticks[0].clock).None?
    ensures var p, key := Finish(s, call, ticks), RequestKey(call.request);
            && p.call == Done(Started) && key in p.store
            && p.store[key].expiresAt == Some(ticks[0].clock + call.ttlMs) && p.store[key].value.Json?
            && StartedAs(p.store[key].value.record, call)
            && Same(s, p.store, GrantKey(call.request)) && Same(s, p.store, AttemptsKey(call.request))
  {
    TickSame(s, ticks[0], call.request);
    var p := Take(s, call, ticks[0]);
    assert Finish(s, call, ticks) == Finish(p.store, p.call, ticks[1..]) == p;
    SpellsExactly(call.userCode, NormalizeUserCode(call.userCode));
  }

  /** Eight symbols with a hyphen in the middle, as `MintUserCode` makes them. */
  predicate Minted(code: string) {
    |code| == 9 && code[4] == '-' && forall i | 0 <= i < 9 && i != 4 :: CodeSymbol(code[i])
  }

  /** What `MintUserCode` makes of any random bytes. */
  lemma MintsMinted(code: string, bytes: seq<byte>)
    requires |bytes| == 8 && |code| == 9 && code[4] == '-'
    requires forall i | 0 <= i < 8 :: (code[..4] + code[5..])[i] == USER_CODE_ALPHABET[bytes[i] % 32]
    ensures Minted(code)
  {
    AlphabetIsNormal();
    forall i | 0 <= i < 9 && i != 4 ensures CodeSymbol(code[i]) {
      var j := if i < 4 then i else i - 1;
      assert code[i] == (code[..4] + code[5..])[j] == USER_CODE_ALPHABET[bytes[j] % 32];
    }
  }

  function Plain(code: string): string
    requires |code| == 9
  {
    code[..4] + code[5..]
  }

  lemma MintedIsPlain(code: string)
    requires Minted(code)
    ensures Spells(code, Plain(code)) && Plain(code) != ""
  {
    HyphenDrops(code);
    SpellsExactly(code, Plain(code));
  }

  lemma HyphenDrops(code: string)
    requires Minted(code)
    ensures NormalizeUserCode(code) == Plain(code)
  {
    var a, b := code[..4], code[5..];
    NormalFixed(a);
    NormalFixed(b);
    assert code == a + ("-" + b);
    Hyphened(a, b);
  }

  lemma Hyphened(a: string, b: string)
    requires NormalizeUserCode(a) == a && NormalizeUserCode(b) == b
    ensures NormalizeUserCode(a + ("-" + b)) == a + b
  {
    var hyphened := "-" + b;
    HyphenFirst(b, hyphened);
    NormalizeConcat(a, hyphened);
  }

  lemma HyphenFirst(b: string, hyphened: string)
    requires hyphened == "-" + b && NormalizeUserCode(b) == b
    ensures NormalizeUserCode(hyphened) == b
  {
    OnlyHyphen();
    NormalizeConcat("-", b);
    assert [] + b == b;
  }

  lemma OnlyHyphen()
    ensures NormalizeUserCode("-") == []
  {
    assert "-"[1..] == [];
  }

  /**
   * From start to approval: what a headless start shows approves it, typed in either case, with the hyphen,
   * without it or with anything else that is no letter or digit; and nothing else does.
   */
  lemma ShownApproves(s: Store<Doc>, start: Call, begun: seq<Tick>, call: Call, ticks: seq<Tick>)
    requires start.Start? && !start.callback && Minted(start.userCode) && begun != []
    requires start.now <= begun[0].clock && Foreign(begun[0].others, start.request)
    requires Live(s, RequestKey(start.request), begun[0].clock).None? && GrantKey(start.request) !in s
    requires call.Approve? && call.request == start.request && |ticks| >= 4
    requires Elapses(ticks, call.request, call.now) && call.now <= ticks[0].clock < start.now + start.ttlMs
    ensures var p := Finish(Finish(s, start, begun).store, call, ticks);
            p.call.result.Approved? <==> call.provided.Some? && Spells(call.provided.value, Plain(start.userCode))
  {
    var t := Finish(s, start, begun).store;
    StartLaw(s, start, begun);
    MintedIsPlain(start.userCode);
    var record := t[RequestKey(call.request)].value.record;
    SameCode(start.userCode, record.userCode.value, Plain(start.userCode));
    ApproveLaw(t, call, ticks, record);
  }

  lemma SameCode(typed: string, a: string, b: string)
    requires Spells(typed, a) && Spells(typed, b)
    ensures a == b
  {
    SpellsExactly(typed, a);
    SpellsExactly(typed, b);
  }

  /** So does every way of typing it: each symbol in either case, and the hyphen there or not. */
  lemma EitherWay(code: string, typed: string)
    requires Minted(code) && |typed| == 8 && forall i | 0 <= i < 8 :: SameSymbol(typed[i], Plain(code)[i])
    ensures Spells(typed, Plain(code)) && Spells(typed[..4] + "-" + typed[4..], Plain(code))
  {
    var p: seq<nat> := seq(8, i => i);
    var q: seq<nat> := seq(8, i => if i < 4 then i else i + 1);
    var hyphened := typed[..4] + "-" + typed[4..];
    forall i | 0 <= i < 8 ensures Counts(typed[i]) <==> i in p {
      assert p[i] == i;
    }
    assert SpellsAt(typed, Plain(code), p);
    forall j | 0 <= j < 8 ensures hyphened[q[j]] == typed[j] {
    }
    forall i | 0 <= i < 9 ensures Counts(hyphened[i]) <==> i in q {
      if i < 4 {
        assert q[i] == i;
      } else if i > 4 {
        assert q[i - 1] == i;
      }
    }
    assert SpellsAt(hyphened, Plain(code), q);
  }
}

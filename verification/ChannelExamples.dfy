/**
 * That what the channel results assume can be had: a cipher that decrypts and expands, one that cannot
 * be forged, ends that are matched, and runs in which frames arrive.
 */
module ChannelExamples {
  import opened Bytes
  import opened Symbols
  import opened Frames
  import opened Records
  import opened Encodings
  import opened Handshakes
  import opened Channels
  import Framing
  import P = ChannelProgress
  import X = ChannelExchange
  import S = ChannelSafety

  // ---- A cipher that decrypts and expands -------------------------------------------------------

  /** The end of the nonce, where it is concrete. */
  function NonceTag(nonce: Nonce): (tag: seq<byte>)
    ensures |tag| == TAG_BYTES
  {
    seq(TAG_BYTES, i requires 0 <= i < TAG_BYTES =>
      if |nonce| >= TAG_BYTES && nonce[|nonce| - TAG_BYTES + i].Raw? then nonce[|nonce| - TAG_BYTES + i].b else 0)
  }

  /** The plaintext and its nonce's tag: no secrecy, but all that delivery needs. */
  function ByNonce(): Aead {
    Aead((key: Key, nonce: Nonce, plain: seq<byte>) => plain + NonceTag(nonce),
         (key: Key, nonce: Nonce, record: seq<byte>) =>
           if |record| >= TAG_BYTES && record[|record| - TAG_BYTES..] == NonceTag(nonce)
               then Some(record[..|record| - TAG_BYTES]) else None)
  }

  lemma ByNonceSeals(key: Key, nonce: Nonce, plain: seq<byte>)
    ensures var record := ByNonce().seal(key, nonce, plain);
            && |record| == |plain| + TAG_BYTES && Tag(record) == NonceTag(nonce)
            && ByNonce().open(key, nonce, record) == Some(plain)
  {
    var record := plain + NonceTag(nonce);
    assert record[|record| - TAG_BYTES..] == NonceTag(nonce) && record[..|record| - TAG_BYTES] == plain;
  }

  lemma ByNonceSound()
    ensures P.Correct(ByNonce()) && Expands(ByNonce())
  {
    forall key, nonce, plain
      ensures ByNonce().open(key, nonce, ByNonce().seal(key, nonce, plain)) == Some(plain)
      ensures |ByNonce().seal(key, nonce, plain)| == |plain| + TAG_BYTES
    {
      ByNonceSeals(key, nonce, plain);
    }
  }

  /** Its tags repeat no more than the counters do. */
  lemma TagsDiffer(prefix: seq<Sym>, i: nat, j: nat)
    requires |prefix| == NONCE_PREFIX_BYTES && i < TWO_TO_THE_64 && j < TWO_TO_THE_64
    requires NonceTag(NonceOf(prefix, i)) == NonceTag(NonceOf(prefix, j))
    ensures i == j
  {
    TagEndsInCounter(prefix, i);
    TagEndsInCounter(prefix, j);
    CounterBytesInjective(i, j);
  }

  lemma TagEndsInCounter(prefix: seq<Sym>, i: nat)
    requires |prefix| == NONCE_PREFIX_BYTES
    ensures NonceTag(NonceOf(prefix, i))[8..] == CounterBytes(i)
  {
    var nonce, tag := NonceOf(prefix, i), NonceTag(NonceOf(prefix, i));
    forall k | 0 <= k < 8 ensures tag[8..][k] == CounterBytes(i)[k] {
      assert nonce[16 + k] == Raws(CounterBytes(i))[k];
    }
  }

  // ---- Two matched ends -------------------------------------------------------------------------

  function Ends(lowOrder: PublicKey -> bool, eI: PublicKey, eR: PublicKey, own: PublicKey, context: seq<Sym>): X.Setup
    requires InitiatorKeys(lowOrder, eI, own, context, eR).Some?
  {
    X.Setup(Config(Initiator, ByNonce(), eI,
                   (message: seq<byte>) => InitiatorKeys(lowOrder, eI, own, context, message)),
            Config(Responder, ByNonce(), eR,
                   (message: seq<byte>) => ResponderKeys(lowOrder, eR, own, context, message)),
            InitiatorKeys(lowOrder, eI, own, context, eR).value)
  }

  /** With good keys and this cipher the ends are matched, and neither is ever closed but by its own user. */
  lemma SomeEndsAreMatched(lowOrder: PublicKey -> bool, eI: PublicKey, eR: PublicKey, own: PublicKey, context: seq<Sym>,
                           events: seq<X.Event>, role: Role)
    requires !lowOrder(eI) && !lowOrder(eR) && !lowOrder(own)
    ensures InitiatorKeys(lowOrder, eI, own, context, eR).Some?
    ensures var x := Ends(lowOrder, eI, eR, own, context);
            X.Matched(x) && var h := X.Run(x, X.QUIET, events).Of(role); !h.quit ==> h.chan.phase != Closed
  {
    MatchedFinish(lowOrder, eI, eR, own, context);
    ByNonceSound();
    var x := Ends(lowOrder, eI, eR, own, context);
    X.ExchangeDelivers(x, events, role);
    X.QuietInv(x);
    X.RunKeeps(x, X.QUIET, events);
    NothingRepeats(x.Of(X.Peer(role)), x.keys, X.Run(x, X.QUIET, events).Of(X.Peer(role)).chan);
  }

  lemma NothingRepeats(cfg: Config, keys: SessionKeys, c: Chan)
    requires X.Wrote(cfg, keys, c) && cfg.aead == ByNonce()
    ensures !X.Repeated(c.sealed)
  {
    var key, prefix := SendKey(cfg.role, keys), SendPrefix(cfg.role, keys);
    forall k | 0 < k < |c.sealed| ensures Tag(c.sealed[k - 1].record) != Tag(c.sealed[k].record) {
      ByNonceSeals(key, NonceOf(prefix, k - 1), FrameBytes(c.sealed[k - 1].frame));
      ByNonceSeals(key, NonceOf(prefix, k), FrameBytes(c.sealed[k].frame));
      if Tag(c.sealed[k - 1].record) == Tag(c.sealed[k].record) {
        TagsDiffer(prefix, k - 1, k);
      }
    }
  }

  // ---- A cipher that cannot be forged -----------------------------------------------------------

  function Find(sealed: seq<Rec>, key: Key, nonce: Nonce, record: seq<byte>): Option<seq<byte>> {
    if sealed == [] then None
    else if sealed[0].key == key && sealed[0].nonce == nonce
    && sealed[0].record == record then Some(FrameBytes(sealed[0].frame))
    else Find(sealed[1..], key, nonce, record)
  }

  function FindAll(net: S.Network, key: Key, nonce: Nonce, record: seq<byte>): Option<seq<byte>> {
    if net == [] then None
    else
      var found := Find(net[0].chan.sealed, key, nonce, record);
      if found.Some? then found else FindAll(net[1..], key, nonce, record)
  }

  /** It opens what was sealed, and nothing else. */
  function Ledger(net: S.Network): Aead {
    Aead(ByNonce().seal, (key: Key, nonce: Nonce, record: seq<byte>) => FindAll(net, key, nonce, record))
  }

  lemma {:induction false} Finds(sealed: seq<Rec>, key: Key, nonce: Nonce, record: seq<byte>) returns (k: nat)
    requires Find(sealed, key, nonce, record).Some?
    ensures k < |sealed| && sealed[k].key == key && sealed[k].nonce == nonce && sealed[k].record == record
    ensures Find(sealed, key, nonce, record) == Some(FrameBytes(sealed[k].frame))
  {
    if sealed[0].key == key && sealed[0].nonce == nonce && sealed[0].record == record {
      k := 0;
    } else {
      var i := Finds(sealed[1..], key, nonce, record);
      k := i + 1;
    }
  }

  lemma {:induction false} FindsIn(net: S.Network, key: Key, nonce: Nonce, record: seq<byte>) returns (j: nat)
    requires FindAll(net, key, nonce, record).Some?
    ensures j < |net| && Find(net[j].chan.sealed, key, nonce, record) == FindAll(net, key, nonce, record)
  {
    if Find(net[0].chan.sealed, key, nonce, record).Some? {
      j := 0;
    } else {
      var i := FindsIn(net[1..], key, nonce, record);
      j := i + 1;
    }
  }

  /** In any network, whatever keys are kept: so an adversary can always move, and deliver what was sealed. */
  lemma LedgerUnforgeable(kept: Key -> bool, net: S.Network)
    ensures S.Unforgeable(kept, Ledger(net), net) && Expands(Ledger(net))
  {
    ByNonceSound();
    forall key, nonce, plain ensures |Ledger(net).seal(key, nonce, plain)| == |plain| + TAG_BYTES {
      ByNonceSeals(key, nonce, plain);
    }
    forall key, nonce, record | kept(key) && Ledger(net).open(key, nonce, record).Some?
      ensures exists j, k | 0 <= j < |net| && 0 <= k < |net[j].chan.sealed| ::
        var rec := net[j].chan.sealed[k];
        rec.key == key && rec.nonce == nonce && rec.record == record
        && Ledger(net).open(key, nonce, record) == Some(FrameBytes(rec.frame))
    {
      var j := FindsIn(net, key, nonce, record);
      var k := Finds(net[j].chan.sealed, key, nonce, record);
    }
  }

  // ---- A run in which a frame arrives -----------------------------------------------------------

  function Two(eI: PublicKey, eR: PublicKey, own: PublicKey, hostId: seq<byte>, ticket: seq<byte>): seq<S.Party> {
    [S.Party(Initiator, eI, own, hostId, ticket), S.Party(Responder, eR, own, hostId, ticket)]
  }

  function Opened(keys: SessionKeys, wire: seq<seq<byte>>): Chan {
    NEW.(phase := Open, keys := Some(keys), wire := wire)
  }

  /** Having read its peer's message and nothing else, an end is open. */
  lemma ReadsMessage(cfg: Config, message: seq<byte>, keys: SessionKeys)
    requires |message| == HANDSHAKE_MSG_BYTES && cfg.consume(message) == Some(keys)
    ensures Receive(cfg, NEW, message) == Opened(keys, if cfg.role == Responder then [cfg.message] else [])
  {
    assert NEW.buf + message == message && message[..HANDSHAKE_MSG_BYTES] == message
           && message[HANDSHAKE_MSG_BYTES..] == [];
  }

  /** Handed the first record of its peer, an open responder delivers its frame. */
  lemma ReadsRecord(cfg: Config, c: Chan, frame: Frame, record: seq<byte>)
    requires cfg.role == Responder && c.phase == Open && c.keys.Some? && c.rx == FRESH && c.buf == []
             && |record| <= MAX_RECORD_BYTES
    requires cfg.aead.open(c.keys.value.keyI2R, NonceOf(RecvPrefix(Responder, c.keys.value), 0), record)
             == Some(FrameBytes(frame))
    ensures Ok(c) ==> Receive(cfg, c, Framing.Framed(record)).rx.delivered == [frame]
  {
    var m := Reader(cfg.aead, RecvKey(cfg.role, c.keys.value), RecvPrefix(cfg.role, c.keys.value));
    FrameRoundTrip(frame, FrameBytes(frame));
    Framing.DrainFramed(m, c.rx, record, []);
    assert Framing.Framed(record) + [] == Framing.Framed(record)
           && c.buf + Framing.Framed(record) == Framing.Framed(record);
    assert [] + [frame] == [frame];
  }

  /** The two handshake messages, delivered. */
  lemma BothRead(kept: Key -> bool, lowOrder: PublicKey -> bool, eI: PublicKey, eR: PublicKey, own: PublicKey,
                 hostId: seq<byte>, ticket: seq<byte>)
    returns (keys: SessionKeys, m1: S.Move, m2: S.Move)
    requires !lowOrder(eI) && !lowOrder(eR) && !lowOrder(own)
    ensures var parties := Two(eI, eR, own, hostId, ticket);
            S.Enabled(kept, parties, S.Start0(parties), m1)
    ensures var parties := Two(eI, eR, own, hostId, ticket);
            var n1 := S.Step(kept, lowOrder, parties, S.Start0(parties), m1);
            && S.Enabled(kept, parties, n1, m2)
            && S.Step(kept, lowOrder, parties, n1, m2) == [S.Node(Opened(keys, []), eR), S.Node(Opened(keys, [eR]), eI)]
  {
    var parties, context := Two(eI, eR, own, hostId, ticket), RelayChannelContext(hostId, ticket);
    MatchedFinish(lowOrder, eI, eR, own, context);
    keys := InitiatorKeys(lowOrder, eI, own, context, eR).value;
    var n0 := S.Start0(parties);
    m1 := S.Hear(1, eI, Ledger(n0));
    LedgerUnforgeable(kept, n0);
    var n1 := S.Step(kept, lowOrder, parties, n0, m1);
    ReadsMessage(S.ConfigOf(lowOrder, Ledger(n0), parties[1]), eI, keys);
    assert n1[1] == S.Node(Opened(keys, [eR]), eI) by { assert [] + eI == eI; }
    m2 := S.Hear(0, eR, Ledger(n1));
    LedgerUnforgeable(kept, n1);
    ReadsMessage(S.ConfigOf(lowOrder, Ledger(n1), parties[0]), eR, keys);
    assert [] + eR == eR;
  }

  /**
   * Both ends read each other's message, the initiator sends, the responder delivers: each move is the
   * adversary's to make.
   */
  lemma FrameArrives(kept: Key -> bool, lowOrder: PublicKey -> bool, eI: PublicKey, eR: PublicKey, own: PublicKey,
                     hostId: seq<byte>, ticket: seq<byte>, frame: Frame) returns (moves: seq<S.Move>)
    requires eI != eR && !lowOrder(eI) && !lowOrder(eR) && !lowOrder(own)
             && RECORD_OVERHEAD_BYTES + |frame.payload| <= MAX_RECORD_BYTES
    ensures var parties := Two(eI, eR, own, hostId, ticket);
            && S.Fresh(parties) && S.Legal(kept, lowOrder, parties, S.Start0(parties), moves)
            && var net := S.Play(kept, lowOrder, parties, S.Start0(parties), moves);
               |net| == 2 && net[1].chan.rx.delivered == [frame] && S.Guarded(parties, parties[1], S.Read(net[1]))
  {
    var parties := Two(eI, eR, own, hostId, ticket);
    var n0 := S.Start0(parties);
    var keys, m1, m2 := BothRead(kept, lowOrder, eI, eR, own, hostId, ticket);
    var n2 := S.Step(kept, lowOrder, parties, S.Step(kept, lowOrder, parties, n0, m1), m2);
    ByNonceSound();
    var m3 := S.Say(0, frame, ByNonce());
    var n3 := S.Step(kept, lowOrder, parties, n2, m3);
    var rec := SealRec(S.ConfigOf(lowOrder, ByNonce(), parties[0]), n2[0].chan, frame);
    S.ShortRecords(S.ConfigOf(lowOrder, ByNonce(), parties[0]), n2[0].chan, frame);
    assert n3[0].chan.sealed == [rec] by { assert [] + [rec] == [rec]; }
    var m4 := S.Hear(1, Framing.Framed(rec.record), Ledger(n3));
    LedgerUnforgeable(kept, n3);
    assert Ledger(n3).open(rec.key, rec.nonce, rec.record) == Some(FrameBytes(frame));
    ReadsRecord(S.ConfigOf(lowOrder, Ledger(n3), parties[1]), n3[1].chan, frame, rec.record);
    moves := [m1, m2, m3, m4];
    FourMoves(kept, lowOrder, parties, n0, m1, m2, m3, m4);
    var n4 := S.Step(kept, lowOrder, parties, n3, m4);
    assert n4[1].heard[..HANDSHAKE_MSG_BYTES] == eI;
    assert parties[0] in parties && parties[0].ephemeral == S.Read(n4[1]);
  }

  lemma FourMoves(kept: Key -> bool, lowOrder: PublicKey -> bool, parties: seq<S.Party>, net: S.Network,
                  m1: S.Move, m2: S.Move, m3: S.Move, m4: S.Move)
    requires S.Enabled(kept, parties, net, m1)
    requires var n1 := S.Step(kept, lowOrder, parties, net, m1);
             S.Enabled(kept, parties, n1, m2) && var n2 := S.Step(kept, lowOrder, parties, n1, m2);
             S.Enabled(kept, parties, n2, m3) && var n3 := S.Step(kept, lowOrder, parties, n2, m3);
             S.Enabled(kept, parties, n3, m4)
    ensures S.Legal(kept, lowOrder, parties, net, [m1, m2, m3, m4])
    ensures var n2 := S.Step(kept, lowOrder, parties, S.Step(kept, lowOrder, parties, net, m1), m2);
            S.Play(kept, lowOrder, parties, net, [m1, m2, m3, m4])
                == S.Step(kept, lowOrder, parties, S.Step(kept, lowOrder, parties, n2, m3), m4)
  {
    var n1 := S.Step(kept, lowOrder, parties, net, m1);
    var n2 := S.Step(kept, lowOrder, parties, n1, m2);
    var n3 := S.Step(kept, lowOrder, parties, n2, m3);
    var n4 := S.Step(kept, lowOrder, parties, n3, m4);
    assert [m1, m2, m3, m4][1..] == [m2, m3, m4] && [m2, m3, m4][1..] == [m3, m4] && [m3, m4][1..] == [m4]
           && [m4][1..] == [];
    assert S.Legal(kept, lowOrder, parties, n4, []);
    assert S.Legal(kept, lowOrder, parties, n3, [m4]);
    assert S.Legal(kept, lowOrder, parties, n2, [m3, m4]);
    assert S.Legal(kept, lowOrder, parties, n1, [m2, m3, m4]);
    assert S.Play(kept, lowOrder, parties, n4, []) == n4;
    assert S.Play(kept, lowOrder, parties, n3, [m4]) == n4;
    assert S.Play(kept, lowOrder, parties, n2, [m3, m4]) == n4;
    assert S.Play(kept, lowOrder, parties, n1, [m2, m3, m4]) == n4;
  }
}

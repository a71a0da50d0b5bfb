/**
 * The record layer (packages/channel/src/record.ts): one direction's authenticated encryption with a
 * nonce counted by both ends and never sent.
 */
module Records {
  import opened Bytes
  import opened Symbols

  const NONCE_BYTES := 24
  const NONCE_PREFIX_BYTES := 16
  const TAG_BYTES := 16
  const MAX_SAFE_INTEGER: nat := 0x1F_FFFF_FFFF_FFFF
  const TWO_TO_THE_64: nat := 0x1_0000_0000_0000_0000

  datatype Direction = InitiatorToResponder | ResponderToInitiator

  type Key = seq<Sym>
  type Nonce = seq<Sym>

  /** XChaCha20-Poly1305 (section 2.8 of RFC 8439, extended nonce) as the two functions it computes. */
  datatype Aead = Aead(seal: (Key, Nonce, seq<byte>) -> seq<byte>, open: (Key, Nonce, seq<byte>) -> Option<seq<byte>>)

  function NoncePrefix(sessionId: seq<Sym>, direction: Direction): (prefix: seq<Sym>)
    ensures |prefix| == NONCE_PREFIX_BYTES
  {
    Sha256(sessionId + [Raw(if direction == InitiatorToResponder then 0x00 else 0x01)])[..NONCE_PREFIX_BYTES]
  }

  /** `Math.floor(counter / 2 ** 32)` as `setUint32` reduces it. */
  function High(counter: nat): (w: Word)
    ensures counter < TWO_TO_THE_64 ==> w == counter / 0x1_0000_0000
  {
    counter / 0x1_0000_0000 % 0x1_0000_0000
  }

  /** `counter >>> 0`. */
  function Low(counter: nat): Word {
    counter % 0x1_0000_0000
  }

  function CounterBytes(counter: nat): (bytes: seq<byte>)
    ensures |bytes| == 8
  {
    U32(High(counter)) + U32(Low(counter))
  }

  function NonceOf(prefix: seq<Sym>, counter: nat): (nonce: Nonce)
    requires |prefix| == NONCE_PREFIX_BYTES
    ensures |nonce| == NONCE_BYTES
  {
    prefix + Raws(CounterBytes(counter))
  }

  method NonceFor(prefix: seq<Sym>, counter: nat) returns (nonce: array<Sym>)
    requires |prefix| == NONCE_PREFIX_BYTES
    ensures fresh(nonce) && nonce[..] == NonceOf(prefix, counter)
  {
    nonce := new Sym[NONCE_BYTES](_ => Raw(0));
    forall i | 0 <= i < NONCE_PREFIX_BYTES {
      nonce[i] := prefix[i];
    }
    var high := U32(High(counter));
    forall i | 0 <= i < 4 {
      nonce[NONCE_PREFIX_BYTES + i] := Raw(high[i]);
    }
    var low := U32(Low(counter));
    forall i | 0 <= i < 4 {
      nonce[NONCE_PREFIX_BYTES + 4 + i] := Raw(low[i]);
    }
  }

  /** Counters below 2^64, so all a sealer can reach, give different nonces. */
  lemma NonceInjective(prefix: seq<Sym>, i: nat, j: nat)
    requires |prefix| == NONCE_PREFIX_BYTES && i < TWO_TO_THE_64 && j < TWO_TO_THE_64
    ensures NonceOf(prefix, i) == NonceOf(prefix, j) <==> i == j
  {
    if NonceOf(prefix, i) == NonceOf(prefix, j) {
      assert NonceOf(prefix, i)[16..] == Raws(CounterBytes(i)) && NonceOf(prefix, j)[16..] == Raws(CounterBytes(j));
      RawsInjective(CounterBytes(i), CounterBytes(j));
      CounterBytesInjective(i, j);
    }
  }

  lemma CounterBytesInjective(i: nat, j: nat)
    requires CounterBytes(i) == CounterBytes(j) && i < TWO_TO_THE_64 && j < TWO_TO_THE_64
    ensures i == j
  {
    TwoWordsInjective(High(i), Low(i), High(j), Low(j));
    SameHalves(i, j);
  }

  lemma SameHalves(i: nat, j: nat)
    requires High(i) == High(j) && Low(i) == Low(j) && i < TWO_TO_THE_64 && j < TWO_TO_THE_64
    ensures i == j
  {
  }

  /** Nonces of the two directions, or of two sessions, never meet. */
  lemma NoncesApart(session: seq<Sym>, session': seq<Sym>, direction: Direction, direction': Direction, i: nat, j: nat)
    requires |session| == |session'|
    requires NonceOf(NoncePrefix(session, direction), i) == NonceOf(NoncePrefix(session', direction'), j)
    ensures session == session' && direction == direction'
  {
    var d := Raw(if direction == InitiatorToResponder then 0x00 else 0x01);
    var d' := Raw(if direction' == InitiatorToResponder then 0x00 else 0x01);
    assert NonceOf(NoncePrefix(session, direction), i)[..16] == NoncePrefix(session, direction);
    assert NonceOf(NoncePrefix(session', direction'), j)[..16] == NoncePrefix(session', direction');
    Sha256Injective(session + [d], session' + [d'], 16);
    assert (session + [d])[..|session|] == session && (session' + [d'])[..|session'|] == session';
    assert (session + [d])[|session|] == d && (session' + [d'])[|session'|] == d';
  }

  /** The trailing Poly1305 tag; a record shorter than a tag never opens. */
  function Tag(record: seq<byte>): seq<byte> {
    if |record| < TAG_BYTES then record else record[|record| - TAG_BYTES..]
  }

  datatype Sealed = Record(record: seq<byte>) | Exhausted

  class Sealer {
    const aead: Aead
    const key: Key
    const prefix: seq<Sym>
    var counter: nat
    ghost var used: seq<Nonce>

    ghost predicate Valid()
      reads this
    {
      && |prefix| == NONCE_PREFIX_BYTES
      && counter <= MAX_SAFE_INTEGER + 1
      && |used| == counter
      && (forall i | 0 <= i < counter :: used[i] == NonceOf(prefix, i))
    }

    constructor (aead: Aead, key: Key, sessionId: seq<Sym>, direction: Direction)
      ensures Valid() && counter == 0 && used == []
      ensures this.aead == aead && this.key == key && prefix == NoncePrefix(sessionId, direction)
    {
      this.aead, this.key, prefix := aead, key, NoncePrefix(sessionId, direction);
      counter, used := 0, [];
    }

    /** Encrypt under the next nonce; past 2^53 - 1 records the sealer refuses and stays put. */
    method Seal(plain: seq<byte>) returns (r: Sealed)
      requires Valid()
      modifies this
      ensures Valid()
      ensures old(counter) <= MAX_SAFE_INTEGER ==>
                && r == Record(aead.seal(key, NonceOf(prefix, old(counter)), plain))
                && counter == old(counter) + 1
                && used == old(used) + [NonceOf(prefix, old(counter))]
                && NonceOf(prefix, old(counter)) !in old(used)
      ensures old(counter) > MAX_SAFE_INTEGER ==> r == Exhausted && counter == old(counter) && used == old(used)
    {
      if counter > MAX_SAFE_INTEGER {
        return Exhausted;
      }
      forall i | 0 <= i < counter ensures used[i] != NonceOf(prefix, counter) {
        NonceInjective(prefix, i, counter);
      }
      var nonce := NonceFor(prefix, counter);
      r := Record(aead.seal(key, nonce[..], plain));
      used := used + [nonce[..]];
      counter := counter + 1;
    }
  }

  datatype Opened = Plain(plain: seq<byte>) | ReplayError | DecryptError

  /** What opening a record at a position gives. */
  function OpenAt(aead: Aead, key: Key, prefix: seq<Sym>, counter: nat, lastTag: Option<seq<byte>>,
                  record: seq<byte>): Opened
    requires |prefix| == NONCE_PREFIX_BYTES
  {
    if |record| >= TAG_BYTES && lastTag == Some(Tag(record)) then ReplayError
    else match aead.open(key, NonceOf(prefix, counter), record)
      case None => DecryptError
      case Some(plain) => Plain(plain)
  }

  class Opener {
    const aead: Aead
    const key: Key
    const prefix: seq<Sym>
    var counter: nat
    var lastTag: Option<seq<byte>>

    ghost predicate Valid()
      reads this
    {
      |prefix| == NONCE_PREFIX_BYTES
    }

    constructor (aead: Aead, key: Key, sessionId: seq<Sym>, direction: Direction)
      ensures Valid() && counter == 0 && lastTag == None
      ensures this.aead == aead && this.key == key && prefix == NoncePrefix(sessionId, direction)
    {
      this.aead, this.key, prefix := aead, key, NoncePrefix(sessionId, direction);
      counter, lastTag := 0, None;
    }

    /** Decrypt the next record in order; a failure never advances the counter. */
    method Open(record: seq<byte>) returns (r: Opened)
      requires Valid()
      modifies this
      ensures r == OpenAt(aead, key, prefix, old(counter), old(lastTag), record)
      ensures r.Plain? ==> counter == old(counter) + 1 && lastTag == Some(Tag(record))
      ensures !r.Plain? ==> counter == old(counter) && lastTag == old(lastTag)
    {
      if |record| >= TAG_BYTES && lastTag == Some(Tag(record)) {
        return ReplayError;
      }
      var nonce := NonceFor(prefix, counter);
      match aead.open(key, nonce[..], record) {
        case None => r := DecryptError;
        case Some(plain) =>
          r := Plain(plain);
          counter := counter + 1;
          lastTag := Some(Tag(record));
      }
    }
  }
}

/** The key agreement of the channel. */
module Handshakes {
  // packages/channel/src/handshake.ts and packages/channel/src/kdf.ts. A secret key is represented by its
  // public key: what a holder computes is a function of that and the peer's key.

  import opened Bytes
  import opened Symbols
  import opened Encodings

  const RECORD_KEY_BYTES := 32
  const OKM_BYTES := 96

  datatype SessionKeys = SessionKeys(keyI2R: seq<Sym>, keyR2I: seq<Sym>, sessionId: seq<Sym>)

  function Salt(initiator: PublicKey, responder: PublicKey, context: seq<Sym>): (salt: seq<Sym>)
    ensures |salt| == 32
  {
    Sha256(Raws(Ascii("pherry/channel/v1/salt")) + Raws(initiator) + Raws(responder) + context)
  }

  function DeriveSessionKeys(dhEE: seq<Sym>, dhES: seq<Sym>, initiator: PublicKey, responder: PublicKey,
                             context: seq<Sym>)
    : (keys: SessionKeys)
    ensures |keys.keyI2R| == |keys.keyR2I| == RECORD_KEY_BYTES && |keys.sessionId| == 32
  {
    var okm := Hkdf(dhEE + dhES, Salt(initiator, responder, context), Ascii("pherry/channel/v1"), OKM_BYTES);
    SessionKeys(okm[..RECORD_KEY_BYTES], okm[RECORD_KEY_BYTES..2 * RECORD_KEY_BYTES],
                okm[2 * RECORD_KEY_BYTES..OKM_BYTES])
  }

  lemma SaltInjective(i: PublicKey, r: PublicKey, c: seq<Sym>, i': PublicKey, r': PublicKey, c': seq<Sym>)
    ensures Salt(i, r, c) == Salt(i', r', c') <==> i == i' && r == r' && c == c'
  {
    var domain := Raws(Ascii("pherry/channel/v1/salt"));
    var p, p' := domain + Raws(i) + Raws(r) + c, domain + Raws(i') + Raws(r') + c';
    Sha256Injective(p, p', 32);
    assert Sha256(p)[..32] == Sha256(p) && Sha256(p')[..32] == Sha256(p');
    if p == p' {
      var n := |domain|;
      assert p[n..n + 32] == Raws(i) && p'[n..n + 32] == Raws(i');
      assert p[n + 32..n + 64] == Raws(r) && p'[n + 32..n + 64] == Raws(r');
      assert p[n + 64..] == c && p'[n + 64..] == c';
      RawsInjective(i, i');
      RawsInjective(r, r');
    }
  }

  /** Any one derived secret names every input of the schedule, and the three never coincide. */
  lemma KeysNameInputs(ee: seq<Sym>, es: seq<Sym>, i: PublicKey, r: PublicKey, c: seq<Sym>,
                       ee': seq<Sym>, es': seq<Sym>, i': PublicKey, r': PublicKey, c': seq<Sym>)
    requires |ee| == |es| == |ee'| == |es'| == 32
    ensures var k, k' := DeriveSessionKeys(ee, es, i, r, c), DeriveSessionKeys(ee', es', i', r', c');
            var same := ee == ee' && es == es' && i == i' && r == r' && c == c';
            && (k.keyI2R == k'.keyI2R <==> same)
            && (k.keyR2I == k'.keyR2I <==> same)
            && (k.sessionId == k'.sessionId <==> same)
            && k.keyI2R != k'.keyR2I
  {
    var k, k' := DeriveSessionKeys(ee, es, i, r, c), DeriveSessionKeys(ee', es', i', r', c');
    var s, s' := Salt(i, r, c), Salt(i', r', c');
    var info := Ascii("pherry/channel/v1");
    assert k.keyI2R[0] == HkdfByte(ee + es, s, info, 0) && k'.keyI2R[0] == HkdfByte(ee' + es', s', info, 0);
    assert k.keyR2I[0] == HkdfByte(ee + es, s, info, 32) && k'.keyR2I[0] == HkdfByte(ee' + es', s', info, 32);
    assert k.sessionId[0] == HkdfByte(ee + es, s, info, 64) && k'.sessionId[0] == HkdfByte(ee' + es', s', info, 64);
    SaltInjective(i, r, c, i', r', c');
    assert (ee + es)[..32] == ee && (ee + es)[32..] == es && (ee' + es')[..32] == ee' && (ee' + es')[32..] == es';
  }

  /** `getSharedSecret`: refused for a key of another length or of low order. */
  function Dh(lowOrder: PublicKey -> bool, own: PublicKey, peer: seq<byte>): Option<seq<Sym>> {
    if |peer| != 32 || lowOrder(peer) then None else Some(SharedSecret(own, peer))
  }

  /** `consume` of the initiator: its ephemeral, the pinned static, the responder's message. */
  function InitiatorKeys(lowOrder: PublicKey -> bool, ephemeral: PublicKey, pinned: PublicKey, context: seq<Sym>,
                         message: seq<byte>)
    : Option<SessionKeys>
  {
    match (Dh(lowOrder, ephemeral, message), Dh(lowOrder, ephemeral, pinned))
    case (Some(ee), Some(es)) => Some(DeriveSessionKeys(ee, es, ephemeral, message, context))
    case _ => None
  }

  /** `consume` of the responder: its ephemeral, its static, the initiator's message. */
  function ResponderKeys(lowOrder: PublicKey -> bool, ephemeral: PublicKey, own: PublicKey, context: seq<Sym>,
                         message: seq<byte>)
    : Option<SessionKeys>
  {
    match (Dh(lowOrder, ephemeral, message), Dh(lowOrder, own, message))
    case (Some(ee), Some(es)) => Some(DeriveSessionKeys(ee, es, message, ephemeral, context))
    case _ => None
  }

  /** The two ends saw each other's ephemerals, the pin is the responder's static, the contexts agree. */
  predicate Matched(eI: PublicKey, pinned: PublicKey, cI: seq<Sym>, toI: seq<byte>,
                    eR: PublicKey, own: PublicKey, cR: seq<Sym>, toR: seq<byte>)
  {
    toR == eI && toI == eR && pinned == own && cI == cR
  }

  /** Both ends that finish share their keys, or any one of them, exactly when they are matched. */
  lemma KeysAgree(lowOrder: PublicKey -> bool, eI: PublicKey, pinned: PublicKey, cI: seq<Sym>, toI: seq<byte>,
                  eR: PublicKey, own: PublicKey, cR: seq<Sym>, toR: seq<byte>)
    requires InitiatorKeys(lowOrder, eI, pinned, cI, toI).Some?
    requires ResponderKeys(lowOrder, eR, own, cR, toR).Some?
    ensures var k, k' := InitiatorKeys(lowOrder, eI, pinned, cI, toI).value,
            ResponderKeys(lowOrder, eR, own, cR, toR).value;
            var matched := Matched(eI, pinned, cI, toI, eR, own, cR, toR);
            && (k == k' <==> matched)
            && (k.keyI2R == k'.keyI2R <==> matched)
            && (k.keyR2I == k'.keyR2I <==> matched)
            && (k.sessionId == k'.sessionId <==> matched)
  {
    KeysNameInputs(SharedSecret(eI, toI), SharedSecret(eI, pinned), eI, toI, cI,
                   SharedSecret(eR, toR), SharedSecret(own, toR), toR, eR, cR);
    SharedSecretsAgree(eI, toI, eR, toR);
    SharedSecretsAgree(eI, pinned, own, toR);
  }

  /** Matched ends finish whenever none of their keys is of low order. */
  lemma MatchedFinish(lowOrder: PublicKey -> bool, eI: PublicKey, eR: PublicKey, own: PublicKey, context: seq<Sym>)
    requires !lowOrder(eI) && !lowOrder(eR) && !lowOrder(own)
    ensures InitiatorKeys(lowOrder, eI, own, context, eR).Some?
    ensures InitiatorKeys(lowOrder, eI, own, context, eR) == ResponderKeys(lowOrder, eR, own, context, eI)
  {
    KeysAgree(lowOrder, eI, own, context, eR, eR, own, context, eI);
  }
}

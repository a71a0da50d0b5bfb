/**
 * Symbolic byte strings. Hashes and shared secrets are free terms, one symbol a byte, so layouts keep their true
 * lengths while a hash is injective and X25519 (section 5 of RFC 7748) commutes.
 */
module Symbols {
  import opened Bytes

  type PublicKey = k: seq<byte> | |k| == 32 witness seq(32, _ => 0)

  datatype Sym =
    | Raw(b: byte)
    | DhByte(shared: multiset<PublicKey>, i: nat)
    | ShaByte(preimage: seq<Sym>, i: nat)
    | HkdfByte(ikm: seq<Sym>, salt: seq<Sym>, info: seq<byte>, i: nat)

  /** Concrete bytes as symbols. */
  function Raws(bytes: seq<byte>): (s: seq<Sym>)
    ensures |s| == |bytes|
  {
    seq(|bytes|, i requires 0 <= i < |bytes| => Raw(bytes[i]))
  }

  lemma RawsInjective(a: seq<byte>, b: seq<byte>)
    ensures Raws(a) == Raws(b) <==> a == b
  {
    if Raws(a) == Raws(b) {
      forall i | 0 <= i < |a| ensures a[i] == b[i] {
        assert Raws(a)[i] == Raws(b)[i];
      }
    }
  }

  /** The shared secret of two public keys: either holder computes it from the other's key. */
  function SharedSecret(own: PublicKey, peer: PublicKey): (s: seq<Sym>)
    ensures |s| == 32
  {
    seq(32, i requires i >= 0 => DhByte(multiset{own, peer}, i))
  }

  /** X25519 commutes, and its result names its two keys. */
  lemma SharedSecretsAgree(a: PublicKey, b: PublicKey, c: PublicKey, d: PublicKey)
    ensures SharedSecret(a, b) == SharedSecret(c, d) <==> (a == c && b == d) || (a == d && b == c)
  {
    assert SharedSecret(a, b)[0] == DhByte(multiset{a, b}, 0);
    assert SharedSecret(c, d)[0] == DhByte(multiset{c, d}, 0);
    assert multiset{a, b} == multiset{c, d} <==> (a == c && b == d) || (a == d && b == c) by {
      if multiset{a, b} == multiset{c, d} {
        assert a in multiset{c, d} && b in multiset{c, d} && c in multiset{a, b} && d in multiset{a, b};
        if a == b {
          assert multiset{c, d}[a] == 2;
        }
      }
    }
  }

  function Sha256(preimage: seq<Sym>): (s: seq<Sym>)
    ensures |s| == 32
  {
    seq(32, i requires i >= 0 => ShaByte(preimage, i))
  }

  /** A single byte of a digest already names the preimage. */
  lemma Sha256Injective(a: seq<Sym>, b: seq<Sym>, n: nat)
    requires 0 < n <= 32
    ensures Sha256(a)[..n] == Sha256(b)[..n] <==> a == b
  {
    assert Sha256(a)[..n][0] == ShaByte(a, 0) && Sha256(b)[..n][0] == ShaByte(b, 0);
  }

  /** HKDF-SHA256 (section 2 of RFC 5869) with `length` output bytes. */
  function Hkdf(ikm: seq<Sym>, salt: seq<Sym>, info: seq<byte>, length: nat): (s: seq<Sym>)
    ensures |s| == length
  {
    seq(length, i requires i >= 0 => HkdfByte(ikm, salt, info, i))
  }
}

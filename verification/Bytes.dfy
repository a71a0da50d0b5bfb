/** Byte strings, big-endian words and concatenation: the vocabulary of every wire format below. */
module Bytes {
  type byte = b: int | 0 <= b < 256

  type Word = w: int | 0 <= w < 0x1_0000_0000

  datatype Option<+T> = None | Some(value: T)

  /** `DataView.setUint32(_, w, false)`: the four big-endian bytes of a word. */
  function U32(w: Word): (s: seq<byte>)
    ensures |s| == 4
  {
    [w / 0x100_0000, w / 0x1_0000 % 0x100, w / 0x100 % 0x100, w % 0x100]
  }

  /** The word at the front of a byte string. */
  function FrontU32(s: seq<byte>): (w: Word)
    requires |s| >= 4
  {
    s[0] as int * 0x100_0000 + s[1] as int * 0x1_0000 + s[2] as int * 0x100 + s[3] as int
  }

  /** Reading undoes writing, whatever follows on the wire. */
  lemma U32RoundTrip(w: Word, rest: seq<byte>)
    ensures FrontU32(U32(w) + rest) == w
  {
    var s := U32(w) + rest;
    Digits(w);
    assert s[0] == w / 0x100_0000;
    assert s[1] == w / 0x1_0000 % 0x100;
    assert s[2] == w / 0x100 % 0x100;
    assert s[3] == w % 0x100;
  }

  /** Shifting by bytes, and the four digits of a word. */
  lemma Digits(w: nat)
    ensures w / 0x1_0000 == w / 0x100 / 0x100 && w / 0x100_0000 == w / 0x1_0000 / 0x100
    ensures w == w / 0x100_0000 * 0x100_0000 + w / 0x1_0000 % 0x100 * 0x1_0000 + w / 0x100 % 0x100 * 0x100 + w % 0x100
  {
    assert w == w / 0x100 * 0x100 + w % 0x100;
    assert w / 0x100 == w / 0x100 / 0x100 * 0x100 + w / 0x100 % 0x100;
    assert w / 0x1_0000 == w / 0x1_0000 / 0x100 * 0x100 + w / 0x1_0000 % 0x100;
  }

  lemma U32Injective(v: Word, w: Word)
    requires U32(v) == U32(w)
    ensures v == w
  {
    U32RoundTrip(v, []);
    U32RoundTrip(w, []);
  }

  lemma TwoWordsInjective(a: Word, b: Word, c: Word, d: Word)
    requires U32(a) + U32(b) == U32(c) + U32(d)
    ensures a == c && b == d
  {
    assert (U32(a) + U32(b))[..4] == U32(a) && (U32(c) + U32(d))[..4] == U32(c);
    assert (U32(a) + U32(b))[4..] == U32(b) && (U32(c) + U32(d))[4..] == U32(d);
    U32Injective(a, c);
    U32Injective(b, d);
  }

  /** `acc * 256 + byte` over the first `n` bytes. */
  function Fold(s: seq<byte>, n: nat): nat
    requires n <= |s|
  {
    if n == 0 then 0 else Fold(s, n - 1) * 256 + s[n - 1] as int
  }

  lemma FoldFour(s: seq<byte>)
    requires |s| >= 4
    ensures Fold(s, 4) == FrontU32(s)
  {
    assert Fold(s, 1) == s[0] as int;
    assert Fold(s, 2) == s[0] as int * 0x100 + s[1] as int;
    assert Fold(s, 3) == s[0] as int * 0x1_0000 + s[1] as int * 0x100 + s[2] as int;
  }

  /** Only the first four bytes matter. */
  lemma FrontU32Local(s: seq<byte>, t: seq<byte>)
    requires |s| >= 4
    ensures FrontU32(s + t) == FrontU32(s)
  {
    assert forall i | 0 <= i < 4 :: (s + t)[i] == s[i];
  }

  function Flatten<T>(chunks: seq<seq<T>>): (flat: seq<T>)
    ensures |chunks| == 0 ==> flat == []
  {
    if |chunks| == 0 then [] else chunks[0] + Flatten(chunks[1..])
  }

  lemma {:induction false} FlattenConcat<T>(a: seq<seq<T>>, b: seq<seq<T>>)
    ensures Flatten(a + b) == Flatten(a) + Flatten(b)
  {
    if a == [] {
      assert a + b == b;
    } else {
      assert (a + b)[1..] == a[1..] + b;
      FlattenConcat(a[1..], b);
    }
  }

  lemma FlattenSnoc<T>(a: seq<seq<T>>, x: seq<T>)
    ensures Flatten(a + [x]) == Flatten(a) + x
  {
    FlattenConcat(a, [x]);
    assert Flatten([x]) == x + Flatten<T>([]);
  }

  lemma FlattenPrefix(vs: seq<seq<byte>>, i: nat)
    requires i < |vs|
    ensures Flatten(vs[..i + 1]) == Flatten(vs[..i]) + vs[i]
    ensures |Flatten(vs[..i + 1])| <= |Flatten(vs)|
  {
    assert vs == vs[..i + 1] + vs[i + 1..] && vs[..i + 1] == vs[..i] + [vs[i]];
    FlattenConcat(vs[..i + 1], vs[i + 1..]);
    FlattenSnoc(vs[..i], vs[i]);
  }

  /** Where chunk `c` sits in the flat byte string. */
  lemma ChunkAt(vs: seq<seq<byte>>, c: nat)
    requires c < |vs|
    ensures var at, all := |Flatten(vs[..c])|, Flatten(vs);
            && at + |vs[c]| <= |all| && vs[c] == all[at..at + |vs[c]|]
            && |Flatten(vs[..c + 1])| == at + |vs[c]| && (c + 1 == |vs| ==> at + |vs[c]| == |all|)
  {
    var seen, rest := Flatten(vs[..c]), Flatten(vs[c + 1..]);
    FlattenPrefix(vs, c);
    assert vs == vs[..c + 1] + vs[c + 1..];
    FlattenConcat(vs[..c + 1], vs[c + 1..]);
    assert Flatten(vs) == (seen + vs[c]) + rest;
    assert ((seen + vs[c]) + rest)[|seen|..|seen| + |vs[c]|] == vs[c];
    assert c + 1 == |vs| ==> vs[c + 1..] == [];
  }

  /** `s` is a (not necessarily proper) prefix of `t`. */
  predicate Prefix<T(==)>(s: seq<T>, t: seq<T>) {
    |s| <= |t| && s == t[..|s|]
  }

  lemma PrefixTransitive<T>(a: seq<T>, b: seq<T>, c: seq<T>)
    requires Prefix(a, b) && Prefix(b, c)
    ensures Prefix(a, c)
  {
    assert a == b[..|a|] == c[..|a|];
  }
}

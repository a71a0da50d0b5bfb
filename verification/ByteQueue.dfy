/** The reframing queue. */
module ByteQueues {
  // packages/channel/src/byte-queue.ts: chunks are kept by reference as views of byte buffers, and past
  // 256 chunks they are merged into one private accumulator whose slack later merges fill in place.

  import opened Bytes

  const COALESCE_THRESHOLD := 256

  /** A `Uint8Array`: a window of a byte buffer. */
  datatype View = View(buffer: array<byte>, offset: nat, length: nat) {
    predicate InBounds() {
      offset + length <= buffer.Length
    }

    ghost function Bytes(): (s: seq<byte>)
      requires InBounds()
      reads buffer
      ensures |s| == length
    {
      buffer[offset..offset + length]
    }
  }

  ghost function Buffers(chunks: seq<View>): set<object> {
    set i | 0 <= i < |chunks| :: chunks[i].buffer
  }

  ghost predicate AllInBounds(chunks: seq<View>) {
    forall i | 0 <= i < |chunks| :: chunks[i].InBounds()
  }

  /** The byte string of every chunk, in order. */
  ghost function Values(chunks: seq<View>): (vs: seq<seq<byte>>)
    requires AllInBounds(chunks)
    reads Buffers(chunks)
    ensures |vs| == |chunks|
    ensures forall i {:trigger vs[i]} | 0 <= i < |chunks| :: vs[i] == chunks[i].Bytes()
  {
    seq(|chunks|, i requires 0 <= i < |chunks| && chunks[i].InBounds() reads Buffers(chunks) => chunks[i].Bytes())
  }

  /** `dst.set(src, at)`: the bytes before `at` stay, the view's bytes follow them. */
  method Copy(dst: array<byte>, at: nat, src: View)
    requires src.InBounds() && src.buffer != dst
    requires at + src.length <= dst.Length
    modifies dst
    ensures dst[..at + src.length] == old(dst[..at]) + src.Bytes()
  {
    var i := 0;
    while i < src.length
      invariant 0 <= i <= src.length
      invariant dst[..at + i] == old(dst[..at]) + src.Bytes()[..i]
      modifies dst
    {
      dst[at + i] := src.buffer[src.offset + i];
      i := i + 1;
    }
  }

  /** Copy a chunk list to consecutive positions of `dst`; returns the position after the last byte. */
  method CopyChunks(dst: array<byte>, at: nat, chunks: seq<View>) returns (offset: nat)
    requires AllInBounds(chunks) && forall i | 0 <= i < |chunks| :: chunks[i].buffer != dst
    requires at + |Flatten(Values(chunks))| <= dst.Length
    modifies dst
    ensures offset == at + |old(Flatten(Values(chunks)))|
    ensures dst[..offset] == old(dst[..at]) + old(Flatten(Values(chunks)))
  {
    ghost var vs := Values(chunks);
    ghost var kept := dst[..at];
    offset := at;
    var i := 0;
    assert vs[..0] == [];
    while i < |chunks|
      invariant 0 <= i <= |chunks|
      invariant Values(chunks) == vs
      invariant offset == at + |Flatten(vs[..i])| && offset <= dst.Length
      invariant dst[..offset] == kept + Flatten(vs[..i])
      modifies dst
    {
      FlattenPrefix(vs, i);
      assert chunks[i].Bytes() == vs[i];
      Copy(dst, offset, chunks[i]);
      assert dst[..offset + chunks[i].length] == kept + Flatten(vs[..i]) + vs[i];
      offset := offset + chunks[i].length;
      i := i + 1;
    }
    assert vs[..i] == vs;
  }

  class ByteQueue {
    var chunks: seq<View>
    var length: nat
    /** Backing allocation of the accumulator chunk; null when there is none. */
    var backing: array?<byte>
    var backingUsed: nat

    // Accounting of the copying the merges do.
    ghost var pushed: nat
    ghost var copied: nat
    ghost var appended: nat

    ghost function Repr(): set<object>
      reads this
    {
      Buffers(chunks) + {this} + (if backing == null then {} else {backing})
    }

    /** Length of the head chunk when it is the live view of the accumulator. */
    ghost function Accumulated(): nat
      reads this
    {
      if chunks != [] && backing != null && chunks[0].buffer == backing then chunks[0].length else 0
    }

    ghost predicate Shape()
      reads this
    {
      && AllInBounds(chunks)
      && NoneEmpty(chunks)
      && (backing != null ==> backingUsed <= backing.Length)
      && (forall i | 0 <= i < |chunks| :: chunks[i].buffer == backing ==>
            i == 0 && chunks[0].offset + chunks[0].length == backingUsed)
    }

    /**
     * The copying so far is covered by three times the bytes pushed: bytes outside the accumulator
     * hold three credits, bytes appended to it since it was allocated hold two.
     */
    ghost predicate Paid(buffered: nat)
      reads this
    {
      && Accumulated() <= buffered
      && copied + 3 * (buffered - Accumulated()) + 2 * appended <= 3 * pushed
      && (backing != null ==> backingUsed >= appended && backing.Length == 2 * (backingUsed - appended))
    }

    ghost predicate Valid()
      reads Repr()
    {
      && Shape()
      && |chunks| <= COALESCE_THRESHOLD
      && length == |Flatten(Values(chunks))|
      && Paid(length)
    }

    /** The flat byte string the queue stands for. */
    ghost function Contents(): seq<byte>
      reads this, Repr()
      requires AllInBounds(chunks)
    {
      Flatten(Values(chunks))
    }

    constructor ()
      ensures Valid() && Contents() == [] && fresh(Repr())
      ensures pushed == 0 && copied == 0
    {
      chunks, length, backing, backingUsed := [], 0, null, 0;
      pushed, copied, appended := 0, 0, 0;
    }

    /** Everything `Valid` asks except the bound on the number of chunks. */
    ghost predicate Loose()
      reads this, Repr()
    {
      Shape() && length == |Contents()| && Paid(length)
    }

    method Push(chunk: View)
      requires Valid() && chunk.InBounds()
      requires chunk.buffer != backing  // the backing is private to the queue
      modifies this, backing
      ensures Valid() && fresh(Repr() - old(Repr()) - {chunk.buffer})
      ensures Contents() == old(Contents()) + chunk.Bytes()
      ensures pushed == old(pushed) + chunk.length
    {
      if chunk.length == 0 {
        return;
      }
      Append(chunk);
      if |chunks| > COALESCE_THRESHOLD {
        Coalesce();
      }
    }

    /** Keep a reference to a non-empty chunk. */
    method Append(chunk: View)
      requires Valid() && chunk.InBounds() && chunk.length > 0 && chunk.buffer != backing
      modifies this
      ensures backing == old(backing) && chunks == old(chunks) + [chunk]
      ensures Loose() && Contents() == old(Contents()) + chunk.Bytes()
      ensures pushed == old(pushed) + chunk.length
    {
      ghost var before := Values(chunks);
      FlattenSnoc(before, chunk.Bytes());
      chunks := chunks + [chunk];
      length := length + chunk.length;
      pushed := pushed + chunk.length;
      assert Values(chunks) == before + [chunk.Bytes()];
    }

    /** Merge every chunk into one, in place when the accumulator's slack allows. */
    method Coalesce()
      requires Loose() && |chunks| > 1
      modifies this, backing
      ensures Valid() && Contents() == old(Contents()) && |chunks| == 1
      ensures backing != null && (backing == old(backing) || fresh(backing))
      ensures chunks[0].buffer == backing
      ensures pushed == old(pushed)
    {
      var head := chunks[0];
      if backing != null && head.buffer == backing && head.offset + head.length == backingUsed
         && length - head.length <= backing.Length - backingUsed {
        AppendInPlace();
      } else {
        Reallocate();
      }
    }

    /** Copy the chunks behind the accumulator into its slack. */
    method FillSlack() returns (offset: nat)
      requires Shape() && |chunks| > 1 && backing != null && chunks[0].buffer == backing
      requires |Flatten(Values(chunks[1..]))| <= backing.Length - backingUsed
      modifies backing
      ensures offset == backingUsed + |old(Flatten(Values(chunks[1..])))|
      ensures backing[chunks[0].offset..offset] == old(chunks[0].Bytes()) + old(Flatten(Values(chunks[1..])))
      ensures backing[..backingUsed] == old(backing[..backingUsed])
    {
      ghost var used, tail := backing[..backingUsed], Flatten(Values(chunks[1..]));
      offset := CopyChunks(backing, backingUsed, chunks[1..]);
      Joins(backing[..offset], used, tail, chunks[0].offset);
      assert backing[chunks[0].offset..offset] == backing[..offset][chunks[0].offset..];
      assert backing[..backingUsed] == backing[..offset][..backingUsed];
    }

    /** The accumulator's slack takes the other chunks; nothing before its append offset is written. */
    method AppendInPlace()
      requires Loose() && |chunks| > 1 && backing != null && chunks[0].buffer == backing
      requires length - chunks[0].length <= backing.Length - backingUsed
      modifies this, backing
      ensures Valid() && Contents() == old(Contents()) && |chunks| == 1
      ensures backing == old(backing) && chunks[0].buffer == backing
      ensures pushed == old(pushed)
      ensures old(backing[..backingUsed]) == backing[..old(backingUsed)]
    {
      ContentsOfHead(chunks);
      var head := chunks[0];
      var offset := FillSlack();
      copied, appended := copied + (offset - backingUsed), appended + (offset - backingUsed);
      backingUsed := offset;
      chunks := [View(backing, head.offset, offset - head.offset)];
      ContentsOfHead(chunks);
    }

    /** A fresh accumulator of twice the buffered bytes. */
    method Reallocate()
      requires Loose() && |chunks| > 1
      // the in-place path was not open
      requires backing != null && chunks[0].buffer == backing ==>
                 length - chunks[0].length > backing.Length - backingUsed
      modifies this
      ensures Valid() && Contents() == old(Contents()) && |chunks| == 1
      ensures fresh(backing) && chunks[0].buffer == backing
      ensures pushed == old(pushed)
    {
      ghost var vs := Values(chunks);
      var target := new byte[length * 2];
      assert Values(chunks) == vs;
      var offset := CopyChunks(target, 0, chunks);
      copied, appended := copied + offset, 0;
      backing, backingUsed := target, offset;
      chunks := [View(target, 0, offset)];
      ContentsOfHead(chunks);
      assert target[0..offset] == target[..offset] == Flatten(vs);
    }

    /** The big-endian word at the front; nothing is consumed. */
    method PeekUint32BE() returns (value: Word)
      requires Valid() && length >= 4
      ensures Valid() && Contents() == old(Contents())
      ensures |Contents()| >= 4 && value == FrontU32(Contents())
    {
      ghost var vs, all := Values(chunks), Contents();
      var acc: nat, read: nat, c := 0, 0, 0;
      assert vs[..0] == [];
      while read < 4
        invariant 0 <= c <= |chunks| == |vs| && Values(chunks) == vs && (c == |vs| ==> read == 4)
        invariant read == if |Flatten(vs[..c])| < 4 then |Flatten(vs[..c])| else 4
        invariant acc == Fold(all, read)
        decreases |chunks| - c
      {
        ChunkAt(vs, c);
        acc, read := Accumulate(chunks[c], all, acc, read);
        c := c + 1;
      }
      FoldFour(all);
      value := acc;
    }

    /** Consume the first `n` bytes into one fresh array. */
    method Take(n: nat) returns (out: array<byte>)
      requires Valid() && n <= length
      modifies this
      ensures Valid() && fresh(out) && out.Length == n
      ensures backing == null || backing == old(backing)
      ensures Buffers(chunks) <= old(Buffers(chunks))
      ensures out[..] == old(Contents())[..n] && Contents() == old(Contents())[n..]
      ensures pushed == old(pushed)
    {
      ghost var vs := Values(chunks);
      out := TakeBytes(chunks, n);
      assert Values(chunks) == vs;
      Release(n);
    }

    /** Forget the first `n` bytes; a drained queue also lets go of its accumulator. */
    method Release(n: nat)
      requires Valid() && n <= length
      modifies this
      ensures Valid()
      ensures backing == null || backing == old(backing)
      ensures Buffers(chunks) <= old(Buffers(chunks))
      ensures Contents() == old(Contents())[n..]
      ensures pushed == old(pushed)
    {
      DropKeepsShape(chunks, n);
      DropKeepsContent(chunks, n);
      ghost var vs := Values(Dropped(chunks, n));
      chunks := Dropped(chunks, n);
      length := length - n;
      if |chunks| == 0 {
        backing, backingUsed := null, 0;
      }
      assert Values(chunks) == vs;
    }
  }

  /** Fold a chunk, which starts at position `read0` of `all`, into a partial word, stopping at four bytes. */
  method Accumulate(chunk: View, ghost all: seq<byte>, acc0: nat, read0: nat) returns (acc: nat, read: nat)
    requires chunk.InBounds() && read0 < 4 && read0 + chunk.length <= |all|
             && chunk.Bytes() == all[read0..read0 + chunk.length]
    requires acc0 == Fold(all, read0)
    ensures read == (if read0 + chunk.length < 4 then read0 + chunk.length else 4) && read <= |all|
    ensures acc == Fold(all, read)
  {
    acc, read := acc0, read0;
    var k := 0;
    while k < chunk.length && read < 4
      invariant 0 <= k <= chunk.length && read == read0 + k <= 4
      invariant acc == Fold(all, read)
    {
      assert chunk.buffer[chunk.offset + k] == chunk.Bytes()[k] == all[read];
      acc := acc * 256 + chunk.buffer[chunk.offset + k] as int;
      read := read + 1;
      k := k + 1;
    }
  }

  /** The chunk list once `n` bytes have left its front: emptied heads shifted off, the next one trimmed. */
  function Dropped(chunks: seq<View>, n: nat): (rest: seq<View>)
    ensures |rest| <= |chunks|
  {
    if n == 0 || chunks == [] then chunks
    else if chunks[0].length <= n then Dropped(chunks[1..], n - chunks[0].length)
    else [View(chunks[0].buffer, chunks[0].offset + n, chunks[0].length - n)] + chunks[1..]
  }

  lemma {:induction false} DropAdds(chunks: seq<View>, m: nat, n: nat)
    ensures Dropped(Dropped(chunks, m), n) == Dropped(chunks, m + n)
  {
    if m > 0 && chunks != [] && chunks[0].length <= m {
      DropAdds(chunks[1..], m - chunks[0].length, n);
    }
  }

  lemma {:induction false} DropKeepsContent(chunks: seq<View>, n: nat)
    requires AllInBounds(chunks) && n <= |Flatten(Values(chunks))|
    ensures AllInBounds(Dropped(chunks, n))
    ensures Flatten(Values(Dropped(chunks, n))) == Flatten(Values(chunks))[n..]
  {
    if n > 0 && chunks != [] {
      ContentsOfHead(chunks);
      if chunks[0].length <= n {
        DropKeepsContent(chunks[1..], n - chunks[0].length);
        assert Flatten(Values(chunks))[n..] == Flatten(Values(chunks[1..]))[n - chunks[0].length..];
      } else {
        var next := Dropped(chunks, n);
        ContentsOfHead(next);
        assert next[1..] == chunks[1..];
        assert next[0].Bytes() == chunks[0].Bytes()[n..];
      }
    }
  }

  /** What is left is a tail of the list whose first chunk may have lost bytes at its front. */
  lemma {:induction false} DropKeepsShape(chunks: seq<View>, n: nat)
    requires NoneEmpty(chunks)
    ensures NoneEmpty(Dropped(chunks, n))
    ensures TailOf(Dropped(chunks, n), chunks)
    ensures chunks != [] && n < chunks[0].length ==>
              Dropped(chunks, n) != [] && |Dropped(chunks, n)| == |chunks|
              && Dropped(chunks, n)[0].length == chunks[0].length - n
    ensures chunks != [] && n >= chunks[0].length ==> |Dropped(chunks, n)| < |chunks|
  {
    if n > 0 && chunks != [] && chunks[0].length <= n {
      DropKeepsShape(chunks[1..], n - chunks[0].length);
    }
  }

  ghost predicate NoneEmpty(chunks: seq<View>) {
    forall i | 0 <= i < |chunks| :: chunks[i].length > 0
  }

  ghost predicate TailOf(rest: seq<View>, chunks: seq<View>) {
    && |rest| <= |chunks|
    && var k := |chunks| - |rest|;
       forall i | 0 <= i < |rest| :: rest[i].buffer == chunks[k + i].buffer
                                  && rest[i].offset + rest[i].length == chunks[k + i].offset + chunks[k + i].length
  }

  /** The copying loop of `take`. */
  method TakeBytes(chunks: seq<View>, n: nat) returns (out: array<byte>)
    requires AllInBounds(chunks) && NoneEmpty(chunks) && n <= |Flatten(Values(chunks))|
    ensures fresh(out) && out.Length == n
    ensures out[..] == old(Flatten(Values(chunks))[..n])
  {
    out := new byte[n];
    var filled, rest := 0, chunks;
    ghost var all := old(Flatten(Values(chunks)));
    assert Values(chunks) == old(Values(chunks));
    while filled < n
      invariant 0 <= filled <= n && rest == Dropped(chunks, filled)
      invariant Flatten(Values(chunks)) == all
      invariant out[..filled] == all[..filled]
      decreases n - filled
      modifies out
    {
      var part := NextPart(chunks, rest, filled, n);
      assert part.Bytes() == all[filled..filled + part.length];
      ghost var vs, sofar, bytes := Values(chunks), out[..filled], part.Bytes();
      Copy(out, filled, part);
      assert Values(chunks) == vs;
      assert out[..filled + part.length] == sofar + bytes == all[..filled] + all[filled..filled + part.length];
      assert all[..filled] + all[filled..filled + part.length] == all[..filled + part.length];
      DropAdds(chunks, filled, part.length);
      rest := Dropped(rest, part.length);
      filled := filled + part.length;
    }
  }

  /** The head of what is left after `filled` bytes, cut to the bytes still wanted. */
  method NextPart(ghost chunks: seq<View>, rest: seq<View>, filled: nat, n: nat) returns (part: View)
    requires AllInBounds(chunks) && NoneEmpty(chunks) && filled < n <= |Flatten(Values(chunks))|
    requires rest == Dropped(chunks, filled)
    ensures part.InBounds() && 0 < part.length <= n - filled && part.buffer in Buffers(chunks)
    ensures part.Bytes() == Flatten(Values(chunks))[filled..filled + part.length]
  {
    HeadIsNext(chunks, filled);
    var head := rest[0];
    part := View(head.buffer, head.offset, if head.length <= n - filled then head.length else n - filled);
    Cut(head, part.length);
  }

  /** The front of a view. */
  lemma Cut(v: View, n: nat)
    requires v.InBounds() && n <= v.length
    ensures View(v.buffer, v.offset, n).InBounds() && View(v.buffer, v.offset, n).Bytes() == v.Bytes()[..n]
  {
    assert v.buffer[v.offset..v.offset + v.length][..n] == v.buffer[v.offset..v.offset + n];
  }

  /** The head of what is left is the next bytes of the whole. */
  lemma HeadIsNext(chunks: seq<View>, filled: nat)
    requires AllInBounds(chunks) && NoneEmpty(chunks) && filled < |Flatten(Values(chunks))|
    ensures var rest, all := Dropped(chunks, filled), Flatten(Values(chunks));
            && rest != [] && rest[0].InBounds() && 0 < rest[0].length && rest[0].buffer in Buffers(chunks)
            && forall k | 0 <= k <= rest[0].length ::
                 filled + k <= |all| && rest[0].Bytes()[..k] == all[filled..filled + k]
  {
    var rest, all := Dropped(chunks, filled), Flatten(Values(chunks));
    DropKeepsContent(chunks, filled);
    DropKeepsShape(chunks, filled);
    ContentsOfHead(rest);
    forall k | 0 <= k <= rest[0].length ensures filled + k <= |all| && rest[0].Bytes()[..k] == all[filled..filled + k] {
      assert all[filled..][..k] == all[filled..filled + k];
    }
  }

  /** What is behind a point of the front, with what was written behind the front. */
  lemma Joins(all: seq<byte>, front: seq<byte>, tail: seq<byte>, from: nat)
    requires all == front + tail && from <= |front|
    ensures all[from..] == front[from..] + tail && all[..|front|] == front
  {
  }

  lemma ContentsOfHead(chunks: seq<View>)
    requires AllInBounds(chunks) && chunks != []
    ensures Flatten(Values(chunks)) == chunks[0].Bytes() + Flatten(Values(chunks[1..]))
  {
    assert Values(chunks)[1..] == Values(chunks[1..]);
  }

  // ---- Whole runs -------------------------------------------------------------------------------

  datatype Op = Push(bytes: seq<byte>) | Peek | Take(n: nat)
  datatype Seen = Peeked(value: Word) | Taken(bytes: seq<byte>)

  /** The flat byte string after an operation. */
  function Flat(contents: seq<byte>, op: Op): seq<byte> {
    match op
    case Push(bytes) => contents + bytes
    case Peek => contents
    case Take(n) => if n <= |contents| then contents[n..] else []
  }

  /** Callers peek only at four bytes or more, and take no more than is there. */
  predicate Legal(contents: seq<byte>, ops: seq<Op>)
    decreases ops
  {
    ops == [] ||
    (&& (ops[0].Peek? ==> |contents| >= 4)
     && (ops[0].Take? ==> ops[0].n <= |contents|)
     && Legal(Flat(contents, ops[0]), ops[1..]))
  }

  /** What the operations return on the flat byte string. */
  function FlatRun(contents: seq<byte>, ops: seq<Op>): seq<Seen>
    requires Legal(contents, ops)
    decreases ops
  {
    if ops == [] then [] else
      (match ops[0]
       case Push(_) => []
       case Peek => [Peeked(FrontU32(contents))]
       case Take(n) => [Taken(contents[..n])])
      + FlatRun(Flat(contents, ops[0]), ops[1..])
  }

  function TotalPushed(ops: seq<Op>): nat {
    if ops == [] then 0 else (if ops[0].Push? then |ops[0].bytes| else 0) + TotalPushed(ops[1..])
  }

  method Apply(q: ByteQueue, op: Op) returns (seen: seq<Seen>)
    requires q.Valid()
    requires op.Peek? ==> q.length >= 4
    requires op.Take? ==> op.n <= q.length
    modifies q, q.backing
    ensures q.Valid() && fresh(q.Repr() - old(q.Repr()))
    ensures q.Contents() == Flat(old(q.Contents()), op)
    ensures q.pushed == old(q.pushed) + if op.Push? then |op.bytes| else 0
    ensures match op
            case Push(_) => seen == []
            case Peek => |old(q.Contents())| >= 4 && seen == [Peeked(FrontU32(old(q.Contents())))]
            case Take(n) => n <= |old(q.Contents())| && seen == [Taken(old(q.Contents())[..n])]
  {
    seen := [];
    match op
    case Push(bytes) =>
      ghost var vs := Values(q.chunks);
      var buffer := new byte[|bytes|](i requires 0 <= i < |bytes| => bytes[i]);
      assert Values(q.chunks) == vs;
      assert buffer[0..|bytes|] == bytes;
      q.Push(View(buffer, 0, |bytes|));
    case Peek =>
      var value := q.PeekUint32BE();
      seen := [Peeked(value)];
    case Take(n) =>
      var out := q.Take(n);
      seen := [Taken(out[..])];
  }

  method RunFrom(q: ByteQueue, ops: seq<Op>) returns (seen: seq<Seen>, mostChunks: nat)
    requires q.Valid() && Legal(q.Contents(), ops)
    modifies q.Repr()
    ensures q.Valid()
    ensures Legal(old(q.Contents()), ops) && seen == FlatRun(old(q.Contents()), ops)
    ensures mostChunks <= COALESCE_THRESHOLD
    ensures q.pushed == old(q.pushed) + TotalPushed(ops)
    decreases |ops|
  {
    if ops == [] {
      return [], 0;
    }
    var first := Apply(q, ops[0]);
    var count := |q.chunks|;
    var rest, most := RunFrom(q, ops[1..]);
    seen, mostChunks := first + rest, if count > most then count else most;
  }

  /**
   * Any run: every peek and take returns what the flat byte string gives, the queue never holds
   * more than 256 chunks between operations, and its merges copied at most three times the bytes
   * pushed.
   */
  method Run(ops: seq<Op>) returns (seen: seq<Seen>, mostChunks: nat, ghost copied: nat)
    requires Legal([], ops)
    ensures seen == FlatRun([], ops)
    ensures mostChunks <= COALESCE_THRESHOLD
    ensures copied <= 3 * TotalPushed(ops)
  {
    var q := new ByteQueue();
    seen, mostChunks := RunFrom(q, ops);
    copied := q.copied;
  }
}

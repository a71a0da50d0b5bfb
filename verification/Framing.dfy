/** Incremental parsing of a length-prefixed stream. */
module Framing {
  // As both the channel and the outer framing do it: a machine eats whole payloads from the front of a
  // buffer until it stops, the buffer runs short, or a length prefix exceeds the cap.

  import opened Bytes

  const PREFIX_BYTES := 4

  /** What eats the payloads of type-`S` state. */
  datatype Machine<!S> = Machine(step: (S, seq<byte>) -> S, reject: S -> S, running: S -> bool, cap: nat)

  /** An over-long prefix stops the machine. */
  ghost predicate Valid<S(!new)>(m: Machine<S>) {
    forall s: S :: !m.running(m.reject(s))
  }

  datatype Parse<S> = Parse(state: S, buf: seq<byte>)

  function Drain<S>(m: Machine<S>, state: S, buf: seq<byte>): (p: Parse<S>)
    decreases |buf|
  {
    if !m.running(state) || |buf| < PREFIX_BYTES then Parse(state, buf)
    else
      var length := FrontU32(buf);
      if length > m.cap then Parse(m.reject(state), buf)
      else if |buf| < PREFIX_BYTES + length then Parse(state, buf)
      else Drain(m, m.step(state, buf[PREFIX_BYTES..PREFIX_BYTES + length]), buf[PREFIX_BYTES + length..])
  }

  /** One turn: too few bytes, an over-long prefix, or one payload eaten. */
  lemma DrainTurn<S>(m: Machine<S>, state: S, buf: seq<byte>)
    requires m.running(state)
    ensures |buf| < PREFIX_BYTES ==> Drain(m, state, buf) == Parse(state, buf)
    ensures |buf| >= PREFIX_BYTES ==>
              var n := FrontU32(buf);
              Drain(m, state, buf) ==
              if n > m.cap then Parse(m.reject(state), buf)
              else if |buf| < PREFIX_BYTES + n then Parse(state, buf)
              else Drain(m, m.step(state, buf[PREFIX_BYTES..PREFIX_BYTES + n]), buf[PREFIX_BYTES + n..])
  {
  }

  /** The frame at the front, on its own. */
  lemma DrainOne<S>(m: Machine<S>, state: S, buf: seq<byte>)
    requires m.running(state) && |buf| >= PREFIX_BYTES && FrontU32(buf) <= m.cap
             && |buf| >= PREFIX_BYTES + FrontU32(buf)
    ensures var n := PREFIX_BYTES + FrontU32(buf);
            Drain(m, state, buf[..n]) == Drain(m, m.step(state, buf[PREFIX_BYTES..n]), [])
  {
    var n := PREFIX_BYTES + FrontU32(buf);
    FrontU32Local(buf[..n], buf[n..]);
    assert buf[..n] + buf[n..] == buf;
    assert buf[..n][PREFIX_BYTES..n] == buf[PREFIX_BYTES..n] && buf[..n][n..] == [];
  }

  /** Bytes that arrive later can be parsed later. */
  lemma {:induction false} DrainAppend<S(!new)>(m: Machine<S>, state: S, a: seq<byte>, b: seq<byte>)
    requires Valid(m)
    ensures var p := Drain(m, state, a); Drain(m, state, a + b) == Drain(m, p.state, p.buf + b)
    decreases |a|
  {
    if m.running(state) && |a| >= PREFIX_BYTES {
      FrontU32Local(a, b);
      var length := FrontU32(a);
      if length <= m.cap && |a| >= PREFIX_BYTES + length {
        var n := PREFIX_BYTES + length;
        assert (a + b)[PREFIX_BYTES..n] == a[PREFIX_BYTES..n];
        assert (a + b)[n..] == a[n..] + b;
        DrainAppend(m, m.step(state, a[PREFIX_BYTES..n]), a[n..], b);
      }
    }
  }

  /** Feed chunks one at a time, as a transport delivers them. */
  function Feed<S>(m: Machine<S>, p: Parse<S>, chunks: seq<seq<byte>>): Parse<S>
    decreases |chunks|
  {
    if chunks == [] then p else Feed(m, Drain(m, p.state, p.buf + chunks[0]), chunks[1..])
  }

  /** However a byte stream is cut, feeding its pieces comes to parsing it whole. */
  lemma {:induction false} FeedIsDrain<S(!new)>(m: Machine<S>, state: S, buf: seq<byte>, chunks: seq<seq<byte>>)
    requires Valid(m) && chunks != []
    ensures Feed(m, Parse(state, buf), chunks) == Drain(m, state, buf + Flatten(chunks))
    decreases |chunks|
  {
    var first, rest := chunks[0], chunks[1..];
    var p := Drain(m, state, buf + first);
    assert Flatten(chunks) == first + Flatten(rest);
    if rest == [] {
      assert Flatten(chunks) == first;
      assert Feed(m, p, rest) == p;
    } else {
      FeedIsDrain(m, p.state, p.buf, rest);
      DrainAppend(m, state, buf + first, Flatten(rest));
      assert (buf + first) + Flatten(rest) == buf + Flatten(chunks);
    }
  }

  /** A machine still running holds less than one capped frame. */
  lemma {:induction false} DrainBound<S(!new)>(m: Machine<S>, state: S, buf: seq<byte>)
    requires Valid(m) && m.running(Drain(m, state, buf).state)
    ensures |Drain(m, state, buf).buf| < PREFIX_BYTES + m.cap
    decreases |buf|
  {
    if m.running(state) && |buf| >= PREFIX_BYTES {
      var length := FrontU32(buf);
      if length <= m.cap && |buf| >= PREFIX_BYTES + length {
        DrainBound(m, m.step(state, buf[PREFIX_BYTES..PREFIX_BYTES + length]), buf[PREFIX_BYTES + length..]);
      }
    }
  }

  /** `U32(|payload|) || payload`. */
  function Framed(payload: seq<byte>): (f: seq<byte>)
    requires |payload| < 0x1_0000_0000
    ensures |f| == PREFIX_BYTES + |payload|
  {
    U32(|payload|) + payload
  }

  /** One whole frame at the front of the buffer. */
  lemma DrainFramed<S>(m: Machine<S>, state: S, payload: seq<byte>, rest: seq<byte>)
    requires m.running(state) && |payload| <= m.cap && |payload| < 0x1_0000_0000
    ensures Drain(m, state, Framed(payload) + rest) == Drain(m, m.step(state, payload), rest)
  {
    var buf := Framed(payload) + rest;
    assert buf == U32(|payload|) + (payload + rest);
    U32RoundTrip(|payload|, payload + rest);
    assert buf[PREFIX_BYTES..PREFIX_BYTES + |payload|] == payload;
    assert buf[PREFIX_BYTES + |payload|..] == rest;
  }

  /** A proper prefix of a frame waits. */
  lemma DrainPartial<S>(m: Machine<S>, state: S, payload: seq<byte>, part: seq<byte>)
    requires m.running(state) && |payload| <= m.cap && |payload| < 0x1_0000_0000
    requires Prefix(part, Framed(payload)) && part != Framed(payload)
    ensures Drain(m, state, part) == Parse(state, part)
  {
    if |part| >= PREFIX_BYTES {
      assert part == U32(|payload|) + part[PREFIX_BYTES..];
      U32RoundTrip(|payload|, part[PREFIX_BYTES..]);
    }
  }
}

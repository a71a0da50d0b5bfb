/** Frame handlers that act. */
module ChannelHandlers {
  // A handler may send or close from inside the delivery. Such a chunk comes to the run in which it is
  // cut behind every record, with the handler's own steps in between; so what holds of every run holds of
  // it.

  import opened Bytes
  import opened Symbols
  import opened Frames
  import opened Records
  import opened Handshakes
  import opened Channels
  import opened ChannelProgress
  import Framing

  /** What the handler does on being called: sends and closes, in order, given all it may look at. */
  type Handler = Chan -> seq<Event>

  ghost predicate Acts(handler: Handler) {
    forall c: Chan :: forall i | 0 <= i < |handler(c)| :: handler(c)[i].Say? || handler(c)[i].Quit?
  }

  /** The parsing loop of an open channel, which goes on while the channel is open. */
  ghost function DrainActing(cfg: Config, c: Chan, handler: Handler): (d: Chan)
    requires Ok(c) && c.phase == Open && Expands(cfg.aead) && Acts(handler)
    ensures Ok(d)
    decreases |c.buf|
  {
    var n := Framing.PREFIX_BYTES;
    if |c.buf| < n then c
    else
      var length := FrontU32(c.buf);
      if length > MAX_RECORD_BYTES then Shutdown(c.(rx := c.rx.(failed := true)))
      else if |c.buf| < n + length then c
      else
        var c1 := Opened(cfg, c, n + length);
        if c1.phase != Open then c1
        else
          ActingKeepsBuf(cfg, c1, handler(c1));
          var c2 := Run(cfg, c1, handler(c1));
          if c2.phase != Open then c2 else DrainActing(cfg, c2, handler)
  }

  /** One record of `n` bytes, prefix included, off the front. */
  function Opened(cfg: Config, c: Chan, n: nat): (d: Chan)
    requires Ok(c) && c.phase == Open && Framing.PREFIX_BYTES <= n <= |c.buf|
    ensures Ok(d)
  {
    var rx := RecordStep(cfg.aead, RecvKey(cfg.role, c.keys.value), RecvPrefix(cfg.role, c.keys.value), c.rx,
                         c.buf[Framing.PREFIX_BYTES..n]);
    var d := c.(rx := rx, buf := c.buf[n..]);
    if rx.failed then Shutdown(d) else d
  }

  /** Sending and closing leave the unparsed bytes alone, and do not look at them. */
  lemma {:induction false} ActingKeepsBuf(cfg: Config, c: Chan, acts: seq<Event>)
    requires Ok(c) && Expands(cfg.aead) && c.phase != Handshaking && forall i | 0 <= i < |acts| ::
               acts[i].Say? || acts[i].Quit?
    ensures Run(cfg, c, acts).buf == c.buf && Run(cfg, c, acts).phase != Handshaking
    ensures Run(cfg, c.(buf := []), acts) == Run(cfg, c, acts).(buf := [])
    decreases |acts|
  {
    if acts != [] {
      var d := Next(cfg, c, acts[0]);
      if acts[0].Say? && SendOutcome(cfg, c, acts[0].frame) == Accepted {
        SealedLength(cfg, c, acts[0].frame);
      }
      assert Next(cfg, c.(buf := []), acts[0]) == d.(buf := []);
      ActingKeepsBuf(cfg, d, acts[1..]);
    }
  }

  /** `c` between two chunks holds no whole record. */
  predicate Settled(c: Chan) {
    |c.buf| < Framing.PREFIX_BYTES || (FrontU32(c.buf) <= MAX_RECORD_BYTES
                                       && |c.buf| < Framing.PREFIX_BYTES + FrontU32(c.buf))
  }

  /** The chunk cut behind each record it completes, and what the handler does there. */
  ghost function Script(cfg: Config, c: Chan, bytes: seq<byte>, handler: Handler): seq<Event>
    requires Ok(c) && c.phase == Open && Settled(c) && Expands(cfg.aead) && Acts(handler)
    decreases |bytes|
  {
    var all, n := c.buf + bytes, Framing.PREFIX_BYTES;
    if |all| < n then [Hear(bytes)]
    else
      var size := n + FrontU32(all);
      if FrontU32(all) > MAX_RECORD_BYTES || |all| < size then [Hear(bytes)]
      else
        SettledFront(c, bytes);
        var k := size - |c.buf|;
        var c1 := Receive(cfg, c, bytes[..k]);
        OneArrives(cfg, c, bytes);
        if c1.phase != Open then [Hear(bytes[..k])]
        else
          ActingKeepsBuf(cfg, c1, handler(Opened(cfg, c.(buf := all), size)));
          var acts := handler(Opened(cfg, c.(buf := all), size));
          var c2 := Run(cfg, c1, acts);
          if c2.phase != Open then [Hear(bytes[..k])] + acts
          else [Hear(bytes[..k])] + acts + Script(cfg, c2, bytes[k..], handler)
  }

  lemma SettledFront(c: Chan, bytes: seq<byte>)
    requires Settled(c) && |c.buf + bytes| >= Framing.PREFIX_BYTES
    requires FrontU32(c.buf + bytes) <= MAX_RECORD_BYTES
             && |c.buf + bytes| >= Framing.PREFIX_BYTES + FrontU32(c.buf + bytes)
    ensures |c.buf| < Framing.PREFIX_BYTES + FrontU32(c.buf + bytes)
  {
    if |c.buf| >= Framing.PREFIX_BYTES {
      FrontU32Local(c.buf, bytes);
    }
  }

  /** Handed the rest of one record, a channel opens just that. */
  lemma OneArrives(cfg: Config, c: Chan, bytes: seq<byte>)
    requires Ok(c) && c.phase == Open && Settled(c) && |c.buf + bytes| >= Framing.PREFIX_BYTES
    requires FrontU32(c.buf + bytes) <= MAX_RECORD_BYTES
             && |c.buf + bytes| >= Framing.PREFIX_BYTES + FrontU32(c.buf + bytes)
    ensures var all := c.buf + bytes; var size := Framing.PREFIX_BYTES + FrontU32(all);
            && |c.buf| <= size && Receive(cfg, c, bytes[..size - |c.buf|])
               == Opened(cfg, c.(buf := all), size).(buf := [])
  {
    SettledFront(c, bytes);
    var all := c.buf + bytes;
    var size := Framing.PREFIX_BYTES + FrontU32(all);
    var m := Reader(cfg.aead, RecvKey(cfg.role, c.keys.value), RecvPrefix(cfg.role, c.keys.value));
    assert c.buf + bytes[..size - |c.buf|] == all[..size];
    Framing.DrainOne(m, c.rx, all);
  }

  /** No whole record: the loop ends, or the channel does. */
  lemma NoneArrives(cfg: Config, c: Chan, bytes: seq<byte>, handler: Handler)
    requires Ok(c) && c.phase == Open && Settled(c) && Expands(cfg.aead) && Acts(handler)
    requires var all := c.buf + bytes;
             |all| < Framing.PREFIX_BYTES || FrontU32(all) > MAX_RECORD_BYTES
             || |all| < Framing.PREFIX_BYTES + FrontU32(all)
    ensures DrainActing(cfg, c.(buf := c.buf + bytes), handler) == Receive(cfg, c, bytes)
    ensures Script(cfg, c, bytes, handler) == [Hear(bytes)]
  {
  }

  /** One turn of the loop that opens a record: `d` is what the handler leaves. */
  lemma ActingTurn(cfg: Config, c: Chan, bytes: seq<byte>, handler: Handler)
    requires Whole(cfg, c, bytes, handler)
    ensures var o := Front(cfg, c, bytes);
            DrainActing(cfg, c.(buf := c.buf + bytes), handler)
            == if o.phase != Open then o
               else if After(cfg, c, bytes, handler).phase != Open then After(cfg, c, bytes, handler)
               else DrainActing(cfg, After(cfg, c, bytes, handler), handler)
  {
  }

  /** An open channel between two chunks, and bytes that complete a record. */
  ghost predicate Whole(cfg: Config, c: Chan, bytes: seq<byte>, handler: Handler) {
    && Ok(c) && c.phase == Open && Settled(c) && Expands(cfg.aead) && Acts(handler)
       && |c.buf + bytes| >= Framing.PREFIX_BYTES
    && FrontU32(c.buf + bytes) <= MAX_RECORD_BYTES && |c.buf + bytes| >= Framing.PREFIX_BYTES + FrontU32(c.buf + bytes)
  }

  /** The channel with that record opened. */
  ghost function Front(cfg: Config, c: Chan, bytes: seq<byte>): (o: Chan)
    requires Ok(c) && c.phase == Open && |c.buf + bytes| >= Framing.PREFIX_BYTES
             && |c.buf + bytes| >= Framing.PREFIX_BYTES + FrontU32(c.buf + bytes)
    ensures Ok(o)
  {
    Opened(cfg, c.(buf := c.buf + bytes), Framing.PREFIX_BYTES + FrontU32(c.buf + bytes))
  }

  /** And the handler having acted on it. */
  ghost function After(cfg: Config, c: Chan, bytes: seq<byte>, handler: Handler): Chan
    requires Whole(cfg, c, bytes, handler)
  {
    Run(cfg, Front(cfg, c, bytes), handler(Front(cfg, c, bytes)))
  }

  /** How many of the bytes that record takes. */
  function Cut(c: Chan, bytes: seq<byte>): (k: int)
    requires |c.buf + bytes| >= Framing.PREFIX_BYTES
  {
    Framing.PREFIX_BYTES + FrontU32(c.buf + bytes) - |c.buf|
  }

  lemma ScriptTurn(cfg: Config, c: Chan, bytes: seq<byte>, handler: Handler)
    requires Whole(cfg, c, bytes, handler)
    ensures var o, k := Front(cfg, c, bytes), Cut(c, bytes);
            && 0 < k <= |bytes| && o.buf == bytes[k..] && Receive(cfg, c, bytes[..k]) == o.(buf := [])
            && (o.phase == Open ==>
                  var d := After(cfg, c, bytes, handler);
                  d.buf == bytes[k..] && Run(cfg, o.(buf := []), handler(o)) == d.(buf := []) && d.phase != Handshaking)
            && Script(cfg, c, bytes, handler)
               == if o.phase != Open then [Hear(bytes[..k])]
                  else if After(cfg, c, bytes, handler).phase != Open then [Hear(bytes[..k])] + handler(o)
                  else [Hear(bytes[..k])] + handler(o)
                        + Script(cfg, After(cfg, c, bytes, handler).(buf := []), bytes[k..], handler)
  {
    SettledFront(c, bytes);
    OneArrives(cfg, c, bytes);
    var o, k := Front(cfg, c, bytes), Cut(c, bytes);
    assert (c.buf + bytes)[Framing.PREFIX_BYTES + FrontU32(c.buf + bytes)..] == bytes[k..];
    if o.phase == Open {
      ActingKeepsBuf(cfg, o, handler(o));
    }
  }

  /** The loop with the handler's steps inside, and the cut run with them in between. */
  lemma {:induction false} ActingIsRun(cfg: Config, c: Chan, bytes: seq<byte>, handler: Handler)
    requires Ok(c) && c.phase == Open && Settled(c) && Expands(cfg.aead) && Acts(handler)
    ensures Alike(DrainActing(cfg, c.(buf := c.buf + bytes), handler), Run(cfg, c, Script(cfg, c, bytes, handler)))
    decreases |bytes|
  {
    if !Whole(cfg, c, bytes, handler) {
      NoneArrives(cfg, c, bytes, handler);
      RunOne(cfg, c, Hear(bytes));
    } else {
      ScriptTurn(cfg, c, bytes, handler);
      ActingTurn(cfg, c, bytes, handler);
      var o, k := Front(cfg, c, bytes), Cut(c, bytes);
      RunOne(cfg, c, Hear(bytes[..k]));
      if o.phase == Open {
        var d := After(cfg, c, bytes, handler);
        RunAppend(cfg, c, [Hear(bytes[..k])], handler(o));
        if d.phase == Open {
          var rest := Script(cfg, d.(buf := []), bytes[k..], handler);
          ActingIsRun(cfg, d.(buf := []), bytes[k..], handler);
          RunAppend(cfg, c, [Hear(bytes[..k])] + handler(o), rest);
          var e := d.(buf := []);
          assert e.buf + bytes[k..] == bytes[k..] && e.(buf := e.buf + bytes[k..]) == d;
        }
      }
    }
  }

  lemma RunOne(cfg: Config, c: Chan, e: Event)
    requires Ok(c) && Expands(cfg.aead) && e.Hear?
    ensures Run(cfg, c, [e]) == Next(cfg, c, e)
  {
    assert [e][1..] == [];
    assert Run(cfg, Next(cfg, c, e), []) == Next(cfg, c, e);
  }

  lemma {:induction false} RunAppend(cfg: Config, c: Chan, a: seq<Event>, b: seq<Event>)
    requires Ok(c) && Expands(cfg.aead)
    ensures Run(cfg, c, a + b) == Run(cfg, Run(cfg, c, a), b)
    decreases |a|
  {
    if a == [] {
      assert a + b == b;
    } else {
      if a[0].Say? && SendOutcome(cfg, c, a[0].frame) == Accepted {
        SealedLength(cfg, c, a[0].frame);
      }
      assert (a + b)[0] == a[0] && (a + b)[1..] == a[1..] + b;
      RunAppend(cfg, Next(cfg, c, a[0]), a[1..], b);
    }
  }
}

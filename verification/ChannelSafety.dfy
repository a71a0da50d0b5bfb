/** Channels under an adversary. */
module ChannelSafety {
  // Any number of channel ends on a network the adversary owns: it decides every byte an end receives,
  // seals what it likes under keys of its own, and may itself be the peer of an end. The one thing it
  // cannot do is make a record open, under a key kept from it, that no end sealed under that key and
  // nonce.

  import opened Bytes
  import opened Symbols
  import opened Frames
  import opened Records
  import opened Encodings
  import opened Handshakes
  import opened Channels
  import Framing

  /** One end: its ephemeral, the static it pins or holds, and the bridge it believes it is on. */
  datatype Party = Party(role: Role, ephemeral: PublicKey, pinned: PublicKey, hostId: seq<byte>, ticket: seq<byte>)

  function Consume(lowOrder: PublicKey -> bool, p: Party, message: seq<byte>): Option<SessionKeys> {
    var context := RelayChannelContext(p.hostId, p.ticket);
    if p.role == Initiator then InitiatorKeys(lowOrder, p.ephemeral, p.pinned, context, message)
    else ResponderKeys(lowOrder, p.ephemeral, p.pinned, context, message)
  }

  function ConfigOf(lowOrder: PublicKey -> bool, aead: Aead, p: Party): Config {
    Config(p.role, aead, p.ephemeral, (message: seq<byte>) => Consume(lowOrder, p, message))
  }

  /** An end and all the bytes it was handed while it was not closed. */
  datatype Node = Node(chan: Chan, heard: seq<byte>)

  type Network = seq<Node>

  datatype Move =
    | Begin(i: nat, aead: Aead)
    | Say(i: nat, frame: Frame, aead: Aead)
    | Hear(i: nat, bytes: seq<byte>, aead: Aead)
    | Quit(i: nat)

  /** Under the keys kept from the adversary, whatever opens was sealed, as it is, by some end. */
  ghost predicate Unforgeable(kept: Key -> bool, aead: Aead, net: Network) {
    forall key, nonce, record | kept(key) && aead.open(key, nonce, record).Some? ::
      exists j, k | 0 <= j < |net| && 0 <= k < |net[j].chan.sealed| ::
        var rec := net[j].chan.sealed[k];
        rec.key == key && rec.nonce == nonce && rec.record == record
        && aead.open(key, nonce, record) == Some(FrameBytes(rec.frame))
  }

  ghost predicate Enabled(kept: Key -> bool, parties: seq<Party>, net: Network, move: Move) {
    && move.i < |net| == |parties|
    && (move.Hear? ==> Ok(net[move.i].chan) && Unforgeable(kept, move.aead, net))
    && (move.Say? ==> Ok(net[move.i].chan) && Expands(move.aead))
  }

  lemma ShortRecords(cfg: Config, c: Chan, frame: Frame)
    requires Ok(c) && Expands(cfg.aead) && SendOutcome(cfg, c, frame) == Accepted
    ensures |SealRec(cfg, c, frame).record| == RECORD_OVERHEAD_BYTES + |frame.payload| <= MAX_RECORD_BYTES
  {
  }

  ghost function Step(kept: Key -> bool, lowOrder: PublicKey -> bool, parties: seq<Party>, net: Network,
                      move: Move): (next: Network)
    requires Enabled(kept, parties, net, move)
    ensures |next| == |net|
  {
    var n := net[move.i];
    match move
    case Begin(i, aead) => net[i := n.(chan := Start(ConfigOf(lowOrder, aead, parties[i]), n.chan))]
    case Hear(i, bytes, aead) =>
      if n.chan.phase == Closed then net
      else net[i := Node(Receive(ConfigOf(lowOrder, aead, parties[i]), n.chan, bytes), n.heard + bytes)]
    case Quit(i) => net[i := n.(chan := Shutdown(n.chan))]
    case Say(i, frame, aead) =>
      var cfg := ConfigOf(lowOrder, aead, parties[i]);
      assert SendOutcome(cfg, n.chan, frame) == Accepted ==> |SealRec(cfg, n.chan, frame).record| < 0x1_0000_0000 by {
        if SendOutcome(cfg, n.chan, frame) == Accepted { ShortRecords(cfg, n.chan, frame); }
      }
      net[i := n.(chan := Send(cfg, n.chan, frame))]
  }

  function FramesOf(sealed: seq<Rec>): (frames: seq<Frame>)
    ensures |frames| == |sealed|
  {
    seq(|sealed|, i requires 0 <= i < |sealed| => sealed[i].frame)
  }

  /** The handshake message an end read. */
  function Read(n: Node): seq<byte> {
    if |n.heard| >= HANDSHAKE_MSG_BYTES then n.heard[..HANDSHAKE_MSG_BYTES] else []
  }

  /** The keys that gave it. */
  function Met(lowOrder: PublicKey -> bool, p: Party, n: Node): Option<SessionKeys> {
    if |n.heard| >= HANDSHAKE_MSG_BYTES then Consume(lowOrder, p, Read(n)) else None
  }

  /** All of an end's records are numbered from 0 under the send key of its handshake. */
  ghost predicate Tidy(lowOrder: PublicKey -> bool, p: Party, n: Node) {
    && Ok(n.chan)
    && (n.chan.phase == Handshaking ==> n.chan.buf == n.heard)
    && (n.chan.keys.Some? ==> Met(lowOrder, p, n) == n.chan.keys)
    && (n.chan.sealed != [] || n.chan.rx.delivered != [] ==> Met(lowOrder, p, n).Some?)
    && (forall k | 0 <= k < |n.chan.sealed| ::
          && |n.chan.sealed[k].nonce| == NONCE_BYTES
             && n.chan.sealed[k].nonce[NONCE_PREFIX_BYTES..] == Raws(CounterBytes(k))
          && n.chan.sealed[k].key == SendKey(p.role, Met(lowOrder, p, n).value))
    && (!n.chan.rx.failed ==> n.chan.rx.counter == |n.chan.rx.delivered|)
  }

  /** The receive key an end has or had. */
  function HearsUnder(lowOrder: PublicKey -> bool, parties: seq<Party>, net: Network, i: nat): Option<Key>
    requires i < |net| == |parties|
  {
    match Met(lowOrder, parties[i], net[i])
    case Some(keys) => Some(RecvKey(parties[i].role, keys))
    case None => None
  }

  /** End `j` sealed something under `key`. */
  ghost predicate Sends(net: Network, j: nat, key: Key) {
    j < |net| && net[j].chan.sealed != [] && net[j].chan.sealed[0].key == key
  }

  /** Ends `i` and `j` are opposite, mean the same bridge and static key, and read each other's message. */
  ghost predicate Partners(parties: seq<Party>, net: Network, i: nat, j: nat) {
    && i < |net| == |parties| && j < |net|
    && parties[j].role != parties[i].role && parties[j].pinned == parties[i].pinned
    && RelayChannelContext(parties[j].hostId, parties[j].ticket)
       == RelayChannelContext(parties[i].hostId, parties[i].ticket)
    && Read(net[i]) == parties[j].ephemeral && Read(net[j]) == parties[i].ephemeral
  }

  /** What end `i` delivered came, in order and complete so far, from its partner `j`. */
  ghost predicate HeardFrom(lowOrder: PublicKey -> bool, parties: seq<Party>, net: Network, i: nat, j: nat) {
    && Partners(parties, net, i, j)
    && Prefix(net[i].chan.rx.delivered, FramesOf(net[j].chan.sealed))
    && HearsUnder(lowOrder, parties, net, i).Some? && Sends(net, j, HearsUnder(lowOrder, parties, net, i).value)
  }

  ghost predicate Heard(kept: Key -> bool, lowOrder: PublicKey -> bool, parties: seq<Party>, net: Network, i: nat)
    requires i < |net| == |parties|
  {
    var key := HearsUnder(lowOrder, parties, net, i);
    net[i].chan.rx.delivered != [] && key.Some? && kept(key.value) ==>
          exists j: nat :: HeardFrom(lowOrder, parties, net, i, j)
  }

  ghost predicate Inv(kept: Key -> bool, lowOrder: PublicKey -> bool, parties: seq<Party>, net: Network) {
    && |net| == |parties|
    && (forall i | 0 <= i < |net| :: Tidy(lowOrder, parties[i], net[i]) && Heard(kept, lowOrder, parties, net, i))
  }

  /** Ephemerals are fresh. */
  ghost predicate Fresh(parties: seq<Party>) {
    forall i, j | 0 <= i < j < |parties| :: parties[i].ephemeral != parties[j].ephemeral
  }

  // ---- Which keys can meet ----------------------------------------------------------------------

  function Early(p: Party, m: PublicKey): PublicKey {
    if p.role == Initiator then p.ephemeral else m
  }

  function Late(p: Party, m: PublicKey): PublicKey {
    if p.role == Initiator then m else p.ephemeral
  }

  lemma KeysApart(lowOrder: PublicKey -> bool, p: Party, m: seq<byte>, keys: SessionKeys, q: Party, m': seq<byte>,
                  keys': SessionKeys)
    requires Consume(lowOrder, p, m) == Some(keys) && Consume(lowOrder, q, m') == Some(keys')
    ensures keys.keyI2R != keys'.keyR2I && keys.keyR2I != keys'.keyI2R
    ensures keys.keyI2R == keys'.keyI2R || keys.keyR2I == keys'.keyR2I ==>
              && RelayChannelContext(p.hostId, p.ticket) == RelayChannelContext(q.hostId, q.ticket)
              && Early(p, m) == Early(q, m') && Late(p, m) == Late(q, m')
              && (p.role != q.role ==> p.pinned == q.pinned)
  {
    var c, c' := RelayChannelContext(p.hostId, p.ticket), RelayChannelContext(q.hostId, q.ticket);
    var ee, ee' := SharedSecret(p.ephemeral, m), SharedSecret(q.ephemeral, m');
    var es := if p.role == Initiator then SharedSecret(p.ephemeral, p.pinned) else SharedSecret(p.pinned, m);
    var es' := if q.role == Initiator then SharedSecret(q.ephemeral, q.pinned) else SharedSecret(q.pinned, m');
    KeysNameInputs(ee, es, Early(p, m), Late(p, m), c, ee', es', Early(q, m'), Late(q, m'), c');
    KeysNameInputs(ee', es', Early(q, m'), Late(q, m'), c', ee, es, Early(p, m), Late(p, m), c);
    SharedSecretsAgree(Early(p, m), p.pinned, Early(q, m'), q.pinned);
    SharedSecretsAgree(p.pinned, Early(p, m), q.pinned, Early(q, m'));
    SharedSecretsAgree(Early(p, m), p.pinned, q.pinned, Early(q, m'));
    SharedSecretsAgree(p.pinned, Early(p, m), Early(q, m'), q.pinned);
  }

  // ---- One end receiving ------------------------------------------------------------------------

  ghost predicate Numbered(log: seq<Rec>) {
    && |log| < TWO_TO_THE_64
    && forall k | 0 <= k < |log| ::
         |log[k].nonce| == NONCE_BYTES && log[k].nonce[NONCE_PREFIX_BYTES..] == Raws(CounterBytes(k))
  }

  /** Under `key` nothing opens but what `log` sealed. */
  ghost predicate SourceOnly(aead: Aead, key: Key, log: seq<Rec>) {
    forall nonce, record | aead.open(key, nonce, record).Some? ::
      exists k | 0 <= k < |log| ::
        log[k].nonce == nonce && log[k].record == record
        && aead.open(key, nonce, record) == Some(FrameBytes(log[k].frame))
  }

  ghost predicate InStep(rx: Rx, log: seq<Rec>) {
    && Prefix(rx.delivered, FramesOf(log))
    && (!rx.failed ==> rx.counter == |rx.delivered|)
  }

  lemma RecordStepSafe(aead: Aead, key: Key, prefix: seq<Sym>, log: seq<Rec>, rx: Rx, record: seq<byte>)
    requires |prefix| == NONCE_PREFIX_BYTES && Numbered(log) && SourceOnly(aead, key, log)
    requires !rx.failed && InStep(rx, log)
    ensures InStep(RecordStep(aead, key, prefix, rx, record), log)
  {
    var nonce := NonceOf(prefix, rx.counter);
    if OpenAt(aead, key, prefix, rx.counter, rx.lastTag, record).Plain? {
      var k :| 0 <= k < |log| && log[k].nonce == nonce
          && aead.open(key, nonce, record) == Some(FrameBytes(log[k].frame));
      assert nonce[NONCE_PREFIX_BYTES..] == Raws(CounterBytes(rx.counter));
      RawsInjective(CounterBytes(rx.counter), CounterBytes(k));
      CounterBytesInjective(rx.counter, k);
      FrameRoundTrip(log[k].frame, FrameBytes(log[k].frame));
      assert FramesOf(log)[..k + 1] == FramesOf(log)[..k] + [log[k].frame];
    }
  }

  lemma {:induction false} DrainSafe(aead: Aead, key: Key, prefix: seq<Sym>, log: seq<Rec>, rx: Rx, buf: seq<byte>)
    requires |prefix| == NONCE_PREFIX_BYTES && Numbered(log) && SourceOnly(aead, key, log)
    requires InStep(rx, log)
    ensures InStep(Framing.Drain(Reader(aead, key, prefix), rx, buf).state, log)
    decreases |buf|
  {
    var n := Framing.PREFIX_BYTES;
    if !rx.failed && |buf| >= n {
      var length := FrontU32(buf);
      if length <= MAX_RECORD_BYTES && |buf| >= n + length {
        RecordStepSafe(aead, key, prefix, log, rx, buf[n..n + length]);
        DrainSafe(aead, key, prefix, log, RecordStep(aead, key, prefix, rx, buf[n..n + length]), buf[n + length..]);
      }
    }
  }

  /** Each frame delivered took one counter value. */
  lemma {:induction false} DrainCounts(aead: Aead, key: Key, prefix: seq<Sym>, rx: Rx, buf: seq<byte>)
    requires |prefix| == NONCE_PREFIX_BYTES && (!rx.failed ==> rx.counter == |rx.delivered|)
    ensures var s := Framing.Drain(Reader(aead, key, prefix), rx, buf).state; !s.failed ==> s.counter == |s.delivered|
    decreases |buf|
  {
    var n := Framing.PREFIX_BYTES;
    if !rx.failed && |buf| >= n {
      var length := FrontU32(buf);
      if length <= MAX_RECORD_BYTES && |buf| >= n + length {
        DrainCounts(aead, key, prefix, RecordStep(aead, key, prefix, rx, buf[n..n + length]), buf[n + length..]);
      }
    }
  }

  // ---- The network ------------------------------------------------------------------------------

  /** Whoever seals under the receive key of end `i` is its partner. */
  lemma SourceIsPartner(kept: Key -> bool, lowOrder: PublicKey -> bool, parties: seq<Party>, net: Network, i: nat,
                        j: nat)
    requires Inv(kept, lowOrder, parties, net) && i < |net|
    requires HearsUnder(lowOrder, parties, net, i).Some? && Sends(net, j, HearsUnder(lowOrder, parties, net, i).value)
    ensures Partners(parties, net, i, j)
  {
    var keys, sent := Met(lowOrder, parties[i], net[i]).value, Met(lowOrder, parties[j], net[j]).value;
    KeysApart(lowOrder, parties[j], Read(net[j]), sent, parties[i], Read(net[i]), keys);
  }

  /** There is one such end at most. */
  lemma OneSource(kept: Key -> bool, lowOrder: PublicKey -> bool, parties: seq<Party>, net: Network, i: nat, j: nat,
                  j': nat)
    requires Inv(kept, lowOrder, parties, net) && Fresh(parties) && i < |net|
             && HearsUnder(lowOrder, parties, net, i).Some?
    requires Sends(net, j, HearsUnder(lowOrder, parties, net, i).value)
             && Sends(net, j', HearsUnder(lowOrder, parties, net, i).value)
    ensures j == j'
  {
    SourceIsPartner(kept, lowOrder, parties, net, i, j);
    SourceIsPartner(kept, lowOrder, parties, net, i, j');
  }

  lemma AllUnderOneKey(kept: Key -> bool, lowOrder: PublicKey -> bool, parties: seq<Party>, net: Network, j: nat,
                       k: nat)
    requires Inv(kept, lowOrder, parties, net) && j < |net| && k < |net[j].chan.sealed|
    ensures Sends(net, j, net[j].chan.sealed[k].key)
  {
    assert Tidy(lowOrder, parties[j], net[j]);
  }

  /** Under a kept receive key of end `i` nothing opens but what its source sealed. */
  lemma SourceSeals(kept: Key -> bool, lowOrder: PublicKey -> bool, parties: seq<Party>, net: Network, i: nat,
                    aead: Aead, j: nat)
    requires Inv(kept, lowOrder, parties, net) && Fresh(parties) && Unforgeable(kept, aead, net) && i < |net|
    requires HearsUnder(lowOrder, parties, net, i).Some? && kept(HearsUnder(lowOrder, parties, net, i).value)
    requires Sends(net, j, HearsUnder(lowOrder, parties, net, i).value)
    ensures SourceOnly(aead, HearsUnder(lowOrder, parties, net, i).value, net[j].chan.sealed)
  {
    var key := HearsUnder(lowOrder, parties, net, i).value;
    forall nonce, record | aead.open(key, nonce, record).Some?
      ensures exists k | 0 <= k < |net[j].chan.sealed| ::
        net[j].chan.sealed[k].nonce == nonce && net[j].chan.sealed[k].record == record
        && aead.open(key, nonce, record) == Some(FrameBytes(net[j].chan.sealed[k].frame))
    {
      var j', k :| 0 <= j' < |net| && 0 <= k < |net[j'].chan.sealed| && net[j'].chan.sealed[k].key == key
              && net[j'].chan.sealed[k].nonce == nonce
        && net[j'].chan.sealed[k].record == record
           && aead.open(key, nonce, record) == Some(FrameBytes(net[j'].chan.sealed[k].frame));
      AllUnderOneKey(kept, lowOrder, parties, net, j', k);
      OneSource(kept, lowOrder, parties, net, i, j, j');
    }
  }

  lemma SomeSource(kept: Key -> bool, lowOrder: PublicKey -> bool, parties: seq<Party>, net: Network, aead: Aead,
                   key: Key, nonce: Nonce, record: seq<byte>)
    requires Inv(kept, lowOrder, parties, net) && Unforgeable(kept, aead, net) && kept(key)
             && aead.open(key, nonce, record).Some?
    ensures exists j: nat :: Sends(net, j, key)
  {
    var j, k :| 0 <= j < |net| && 0 <= k < |net[j].chan.sealed| && net[j].chan.sealed[k].key == key;
    AllUnderOneKey(kept, lowOrder, parties, net, j, k);
  }

  /** An end about to parse with its keys: `c` is its state, handshake included, `heard` all it was handed. */
  ghost predicate Parsing(kept: Key -> bool, lowOrder: PublicKey -> bool, parties: seq<Party>, net: Network, i: nat,
                          c: Chan, heard: seq<byte>) {
    && i < |net| && Inv(kept, lowOrder, parties, net) && Fresh(parties) && net[i].chan.phase != Closed
    && c.phase == Open && Tidy(lowOrder, parties[i], Node(c, heard)) && c.sealed == net[i].chan.sealed
       && c.rx == net[i].chan.rx
    && Prefix(net[i].heard, heard) && (net[i].chan.phase == Handshaking ==> c.rx == FRESH)
  }

  /** More bytes do not change the handshake message read. */
  lemma MetStays(lowOrder: PublicKey -> bool, p: Party, n: Node, c: Chan, heard: seq<byte>)
    requires Prefix(n.heard, heard) && Met(lowOrder, p, n).Some?
    ensures Read(Node(c, heard)) == Read(n) && Met(lowOrder, p, Node(c, heard)) == Met(lowOrder, p, n)
  {
    assert heard[..HANDSHAKE_MSG_BYTES] == n.heard[..HANDSHAKE_MSG_BYTES];
  }

  /** Before the step the end's key may not be in the network yet; with `c` it is. */
  lemma ParsingInv(kept: Key -> bool, lowOrder: PublicKey -> bool, parties: seq<Party>, net: Network, i: nat, c: Chan,
                   heard: seq<byte>)
    requires Parsing(kept, lowOrder, parties, net, i, c, heard)
    ensures Inv(kept, lowOrder, parties, net[i := Node(c, heard)])
  {
    if Met(lowOrder, parties[i], net[i]).Some? {
      MetStays(lowOrder, parties[i], net[i], c, heard);
    }
    HeardStays(kept, lowOrder, parties, net, i, Node(c, heard));
    OthersKeep(kept, lowOrder, parties, net, i, Node(c, heard));
  }

  lemma ParsedTidy(lowOrder: PublicKey -> bool, p: Party, aead: Aead, c: Chan, heard: seq<byte>, buf: seq<byte>)
    requires c.phase == Open && Tidy(lowOrder, p, Node(c, heard))
    ensures Tidy(lowOrder, p, Node(DrainRecords(ConfigOf(lowOrder, aead, p), c, buf), heard))
  {
    DrainCounts(aead, RecvKey(p.role, c.keys.value), RecvPrefix(p.role, c.keys.value), c.rx, buf);
  }

  /** Draining keeps an end tidy, and in step with the one source of its key if that key is kept. */
  lemma Parsed(kept: Key -> bool, lowOrder: PublicKey -> bool, parties: seq<Party>, net: Network, i: nat, aead: Aead,
               c: Chan, heard: seq<byte>, buf: seq<byte>)
    requires Parsing(kept, lowOrder, parties, net, i, c, heard) && Unforgeable(kept, aead, net)
    ensures var d := Node(DrainRecords(ConfigOf(lowOrder, aead, parties[i]), c, buf), heard);
            Tidy(lowOrder, parties[i], d) && Heard(kept, lowOrder, parties, net[i := d], i)
  {
    ParsedTidy(lowOrder, parties[i], aead, c, heard, buf);
    if kept(RecvKey(parties[i].role, c.keys.value)) {
      KeptIsHeard(kept, lowOrder, parties, net, i, aead, c, heard, buf);
    } else {
      UnkeptIsHeard(kept, lowOrder, parties, net, i, aead, c, heard, buf);
    }
  }

  lemma KeptIsHeard(kept: Key -> bool, lowOrder: PublicKey -> bool, parties: seq<Party>, net: Network, i: nat,
                    aead: Aead, c: Chan, heard: seq<byte>, buf: seq<byte>)
    requires Parsing(kept, lowOrder, parties, net, i, c, heard) && Unforgeable(kept, aead, net)
             && kept(RecvKey(parties[i].role, c.keys.value))
    ensures Heard(kept, lowOrder, parties,
                  net[i := Node(DrainRecords(ConfigOf(lowOrder, aead, parties[i]), c, buf), heard)], i)
  {
    var d := Node(DrainRecords(ConfigOf(lowOrder, aead, parties[i]), c, buf), heard);
    ParsingInv(kept, lowOrder, parties, net, i, c, heard);
    ParsedKept(kept, lowOrder, parties, net[i := Node(c, heard)], i, aead, buf);
    assert net[i := Node(c, heard)][i := d] == net[i := d];
  }

  lemma UnkeptIsHeard(kept: Key -> bool, lowOrder: PublicKey -> bool, parties: seq<Party>, net: Network, i: nat,
                      aead: Aead, c: Chan, heard: seq<byte>, buf: seq<byte>)
    requires i < |net| == |parties| && c.phase == Open && Tidy(lowOrder, parties[i], Node(c, heard))
             && !kept(RecvKey(parties[i].role, c.keys.value))
    ensures Heard(kept, lowOrder, parties,
                  net[i := Node(DrainRecords(ConfigOf(lowOrder, aead, parties[i]), c, buf), heard)], i)
  {
    var d := Node(DrainRecords(ConfigOf(lowOrder, aead, parties[i]), c, buf), heard);
    assert HearsUnder(lowOrder, parties, net[i := d], i) == Some(RecvKey(parties[i].role, c.keys.value));
  }

  lemma ParsedKept(kept: Key -> bool, lowOrder: PublicKey -> bool, parties: seq<Party>, net: Network, i: nat,
                   aead: Aead, buf: seq<byte>)
    requires Inv(kept, lowOrder, parties, net) && Fresh(parties) && Unforgeable(kept, aead, net) && i < |net|
    requires net[i].chan.phase == Open && kept(RecvKey(parties[i].role, net[i].chan.keys.value))
    ensures Heard(kept, lowOrder, parties,
                  net[i := net[i].(chan := DrainRecords(ConfigOf(lowOrder, aead, parties[i]), net[i].chan, buf))], i)
  {
    var c := net[i].chan;
    var d := net[i].(chan := DrainRecords(ConfigOf(lowOrder, aead, parties[i]), c, buf));
    var key, prefix := RecvKey(parties[i].role, c.keys.value), RecvPrefix(parties[i].role, c.keys.value);
    assert HearsUnder(lowOrder, parties, net, i) == Some(key) == HearsUnder(lowOrder, parties, net[i := d], i);
    if j: nat :| Sends(net, j, key) {
      SourceSeals(kept, lowOrder, parties, net, i, aead, j);
      SourceIsPartner(kept, lowOrder, parties, net, i, j);
      InStepWith(kept, lowOrder, parties, net, i, j);
      DrainSafe(aead, key, prefix, net[j].chan.sealed, c.rx, buf);
      assert HeardFrom(lowOrder, parties, net[i := d], i, j);
    } else {
      forall nonce, record ensures aead.open(key, nonce, record).None? {
        if aead.open(key, nonce, record).Some? {
          SomeSource(kept, lowOrder, parties, net, aead, key, nonce, record);
        }
      }
      assert c.rx.delivered == [];
      DrainSafe(aead, key, prefix, [], c.rx, buf);
    }
  }

  lemma InStepWith(kept: Key -> bool, lowOrder: PublicKey -> bool, parties: seq<Party>, net: Network, i: nat, j: nat)
    requires Inv(kept, lowOrder, parties, net) && Fresh(parties) && i < |net| && net[i].chan.phase == Open
    requires HearsUnder(lowOrder, parties, net, i).Some? && kept(HearsUnder(lowOrder, parties, net, i).value)
    requires Sends(net, j, HearsUnder(lowOrder, parties, net, i).value)
    ensures InStep(net[i].chan.rx, net[j].chan.sealed) && Numbered(net[j].chan.sealed)
  {
    if net[i].chan.rx.delivered != [] {
      var j': nat :| HeardFrom(lowOrder, parties, net, i, j');
      OneSource(kept, lowOrder, parties, net, i, j, j');
    }
  }

  /** Whatever the adversary feeds an end, it stays tidy, and in step with one source if its key is kept. */
  lemma HearSafe(kept: Key -> bool, lowOrder: PublicKey -> bool, parties: seq<Party>, net: Network, i: nat,
                 aead: Aead, bytes: seq<byte>)
    requires Inv(kept, lowOrder, parties, net) && Fresh(parties) && Unforgeable(kept, aead, net) && i < |net|
             && net[i].chan.phase != Closed
    ensures var d := Node(Receive(ConfigOf(lowOrder, aead, parties[i]), net[i].chan, bytes), net[i].heard + bytes);
            Tidy(lowOrder, parties[i], d) && d.chan.sealed == net[i].chan.sealed
            && Heard(kept, lowOrder, parties, net[i := d], i)
  {
    var cfg, c, heard := ConfigOf(lowOrder, aead, parties[i]), net[i].chan, net[i].heard + bytes;
    var buf, n := c.buf + bytes, HANDSHAKE_MSG_BYTES;
    if c.phase == Open {
      MetStays(lowOrder, parties[i], net[i], c, heard);
      Parsed(kept, lowOrder, parties, net, i, aead, c, heard, buf);
    } else if |buf| >= n && cfg.consume(buf[..n]).Some? {
      var answered := if cfg.role == Responder then c.wire + [cfg.message] else c.wire;
      var begun := c.(phase := Open, keys := cfg.consume(buf[..n]), wire := answered);
      Parsed(kept, lowOrder, parties, net, i, aead, begun, heard, buf[n..]);
    }
  }

  /** An end that delivered nothing new has heard nothing new. */
  lemma HeardStays(kept: Key -> bool, lowOrder: PublicKey -> bool, parties: seq<Party>, net: Network, i: nat, d: Node)
    requires Inv(kept, lowOrder, parties, net) && i < |net| && Prefix(net[i].heard, d.heard)
             && d.chan.rx.delivered == net[i].chan.rx.delivered
    requires Prefix(net[i].chan.sealed, d.chan.sealed)
    ensures Heard(kept, lowOrder, parties, net[i := d], i)
  {
    if d.chan.rx.delivered != [] {
      MetStays(lowOrder, parties[i], net[i], d.chan, d.heard);
      if kept(HearsUnder(lowOrder, parties, net, i).value) {
        var j: nat :| HeardFrom(lowOrder, parties, net, i, j);
        assert HeardFrom(lowOrder, parties, net[i := d], i, j);
      }
    }
  }

  /** Ends that did not move still hear from whom they heard. */
  lemma OthersKeep(kept: Key -> bool, lowOrder: PublicKey -> bool, parties: seq<Party>, net: Network, i: nat, d: Node)
    requires Inv(kept, lowOrder, parties, net) && i < |net| && Prefix(net[i].heard, d.heard)
    requires Tidy(lowOrder, parties[i], d) && Prefix(net[i].chan.sealed, d.chan.sealed)
    requires Heard(kept, lowOrder, parties, net[i := d], i)
    ensures Inv(kept, lowOrder, parties, net[i := d])
  {
    var next := net[i := d];
    forall i': nat | i' < |next| ensures Heard(kept, lowOrder, parties, next, i') {
      var key := HearsUnder(lowOrder, parties, net, i');
      if i' != i && next[i'].chan.rx.delivered != [] && key.Some? && kept(key.value) {
        var j: nat :| HeardFrom(lowOrder, parties, net, i', j);
        StillHeardFrom(lowOrder, parties, net, i, d, i', j);
      }
    }
  }

  lemma StillHeardFrom(lowOrder: PublicKey -> bool, parties: seq<Party>, net: Network, i: nat, d: Node, i': nat, j: nat)
    requires i < |net| == |parties| && i' != i && HeardFrom(lowOrder, parties, net, i', j)
             && Tidy(lowOrder, parties[i], net[i])
    requires Prefix(net[i].heard, d.heard) && Prefix(net[i].chan.sealed, d.chan.sealed)
    ensures HeardFrom(lowOrder, parties, net[i := d], i', j)
  {
    var next := net[i := d];
    assert FramesOf(net[j].chan.sealed) == FramesOf(next[j].chan.sealed)[..|net[j].chan.sealed|];
    PrefixTransitive(net[i'].chan.rx.delivered, FramesOf(net[j].chan.sealed), FramesOf(next[j].chan.sealed));
    if j == i {
      MetStays(lowOrder, parties[i], net[i], d.chan, d.heard);
    }
  }

  lemma SendTidy(lowOrder: PublicKey -> bool, p: Party, aead: Aead, n: Node, frame: Frame)
    requires Tidy(lowOrder, p, n) && Expands(aead)
    requires SendOutcome(ConfigOf(lowOrder, aead, p), n.chan, frame) == Accepted
    ensures |SealRec(ConfigOf(lowOrder, aead, p), n.chan, frame).record| < 0x1_0000_0000
    ensures Tidy(lowOrder, p, n.(chan := Send(ConfigOf(lowOrder, aead, p), n.chan, frame)))
  {
    var cfg := ConfigOf(lowOrder, aead, p);
    var rec := SealRec(cfg, n.chan, frame);
    ShortRecords(cfg, n.chan, frame);
    assert rec.nonce[NONCE_PREFIX_BYTES..] == Raws(CounterBytes(|n.chan.sealed|));
    var d := Send(cfg, n.chan, frame);
    forall k | 0 <= k < |d.sealed|
      ensures |d.sealed[k].nonce| == NONCE_BYTES && d.sealed[k].nonce[NONCE_PREFIX_BYTES..] == Raws(CounterBytes(k))
      ensures d.sealed[k].key == SendKey(p.role, n.chan.keys.value)
    {
      if k < |n.chan.sealed| { assert d.sealed[k] == n.chan.sealed[k]; }
    }
  }

  lemma StepSafe(kept: Key -> bool, lowOrder: PublicKey -> bool, parties: seq<Party>, net: Network, move: Move)
    requires Inv(kept, lowOrder, parties, net) && Fresh(parties) && Enabled(kept, parties, net, move)
    ensures Inv(kept, lowOrder, parties, Step(kept, lowOrder, parties, net, move))
  {
    var i := move.i;
    var n, d := net[i], Step(kept, lowOrder, parties, net, move)[i];
    match move
    case Hear(_, bytes, aead) =>
      if n.chan.phase != Closed {
        HearSafe(kept, lowOrder, parties, net, i, aead, bytes);
        OthersKeep(kept, lowOrder, parties, net, i, d);
      }
    case Say(_, frame, aead) =>
      if SendOutcome(ConfigOf(lowOrder, aead, parties[i]), n.chan, frame) == Accepted {
        SendTidy(lowOrder, parties[i], aead, n, frame);
      }
      HeardStays(kept, lowOrder, parties, net, i, d);
      OthersKeep(kept, lowOrder, parties, net, i, d);
    case _ =>
      HeardStays(kept, lowOrder, parties, net, i, d);
      OthersKeep(kept, lowOrder, parties, net, i, d);
  }

  // ---- Whole runs -------------------------------------------------------------------------------

  ghost predicate Legal(kept: Key -> bool, lowOrder: PublicKey -> bool, parties: seq<Party>, net: Network,
                        moves: seq<Move>)
    decreases |moves|
  {
    moves == [] ||
    (Enabled(kept, parties, net, moves[0])
     && Legal(kept, lowOrder, parties, Step(kept, lowOrder, parties, net, moves[0]), moves[1..]))
  }

  ghost function Play(kept: Key -> bool, lowOrder: PublicKey -> bool, parties: seq<Party>, net: Network,
                      moves: seq<Move>): Network
    requires Legal(kept, lowOrder, parties, net, moves)
    decreases |moves|
  {
    if moves == [] then net else Play(kept, lowOrder, parties, Step(kept, lowOrder, parties, net, moves[0]), moves[1..])
  }

  lemma {:induction false} PlaySafe(kept: Key -> bool, lowOrder: PublicKey -> bool, parties: seq<Party>, net: Network,
                                    moves: seq<Move>)
    requires Inv(kept, lowOrder, parties, net) && Fresh(parties) && Legal(kept, lowOrder, parties, net, moves)
    ensures Inv(kept, lowOrder, parties, Play(kept, lowOrder, parties, net, moves))
    decreases |moves|
  {
    if moves != [] {
      StepSafe(kept, lowOrder, parties, net, moves[0]);
      PlaySafe(kept, lowOrder, parties, Step(kept, lowOrder, parties, net, moves[0]), moves[1..]);
    }
  }

  function Start0(parties: seq<Party>): Network {
    seq(|parties|, _ => Node(NEW, []))
  }

  /** `i` and `j` mean the same host, ticket and static key from opposite ends, and read each other's message. */
  ghost predicate SameBridge(parties: seq<Party>, net: Network, i: nat, j: nat) {
    && i < |net| == |parties| && j < |net|
    && parties[j].role != parties[i].role && parties[j].pinned == parties[i].pinned
    && parties[j].hostId == parties[i].hostId && parties[j].ticket == parties[i].ticket
    && Read(net[i]) == parties[j].ephemeral && Read(net[j]) == parties[i].ephemeral
  }

  /**
   * In every run, what an end delivered under a key kept from the adversary is a prefix of what one other
   * end's `send` accepted, and the two are on the same bridge and read each other's handshake message.
   */
  lemma DeliveredIsPrefix(kept: Key -> bool, lowOrder: PublicKey -> bool, parties: seq<Party>, moves: seq<Move>, i: nat)
    requires Fresh(parties) && Legal(kept, lowOrder, parties, Start0(parties), moves) && i < |parties|
    requires forall p, q | p in parties && q in parties ::
               (NulFree(p.hostId) && NulFree(q.hostId)) || |p.ticket| == |q.ticket|
    ensures var net := Play(kept, lowOrder, parties, Start0(parties), moves);
            |net| == |parties| && (net[i].chan.rx.delivered != [] ==>
              && HearsUnder(lowOrder, parties, net, i).Some?
              && (kept(HearsUnder(lowOrder, parties, net, i).value) ==>
                    exists j: nat ::
                          SameBridge(parties, net, i, j) && Prefix(net[i].chan.rx.delivered,
                                                                   FramesOf(net[j].chan.sealed))))
  {
    PlaySafe(kept, lowOrder, parties, Start0(parties), moves);
    var net := Play(kept, lowOrder, parties, Start0(parties), moves);
    if net[i].chan.rx.delivered != [] && kept(HearsUnder(lowOrder, parties, net, i).value) {
      var j: nat :| HeardFrom(lowOrder, parties, net, i, j);
      ContextInjective(parties[j].hostId, parties[j].ticket, parties[i].hostId, parties[i].ticket);
      assert SameBridge(parties, net, i, j);
    }
  }

  // ---- Which keys are kept ----------------------------------------------------------------------

  /**
   * What an adversary that holds none of the parties' secrets cannot derive: an initiator's keys, if a party
   * holds the static key it pins, whatever it read; and a responder's, if what it read is a party's ephemeral.
   */
  ghost predicate Guarded(parties: seq<Party>, p: Party, message: seq<byte>) {
    if p.role == Initiator then exists q :: q in parties && q.role == Responder && q.pinned == p.pinned
    else exists q :: q in parties && q.role == Initiator && q.ephemeral == message
  }

  ghost predicate Kept(lowOrder: PublicKey -> bool, parties: seq<Party>, key: Key) {
    exists p, message :: p in parties && Guarded(parties, p, message) && Consume(lowOrder, p, message).Some?
                         && key == RecvKey(p.role, Consume(lowOrder, p, message).value)
  }

  ghost function KeptKeys(lowOrder: PublicKey -> bool, parties: seq<Party>): Key -> bool {
    (key: Key) => Kept(lowOrder, parties, key)
  }

  /**
   * So against an adversary that may seal whatever it likes under every other key: all that an initiator
   * pinned to a party's key delivers, and all that a responder delivers that answered a party, was sent to
   * it by one party, on the same bridge.
   */
  lemma HonestDelivery(lowOrder: PublicKey -> bool, parties: seq<Party>, moves: seq<Move>, i: nat)
    requires Fresh(parties) && Legal(KeptKeys(lowOrder, parties), lowOrder, parties, Start0(parties), moves)
             && i < |parties|
    requires forall p, q | p in parties && q in parties ::
               (NulFree(p.hostId) && NulFree(q.hostId)) || |p.ticket| == |q.ticket|
    ensures var net := Play(KeptKeys(lowOrder, parties), lowOrder, parties, Start0(parties), moves);
            |net| == |parties| && (net[i].chan.rx.delivered != [] && Guarded(parties, parties[i], Read(net[i])) ==>
              exists j: nat ::
                    SameBridge(parties, net, i, j) && Prefix(net[i].chan.rx.delivered, FramesOf(net[j].chan.sealed)))
  {
    DeliveredIsPrefix(KeptKeys(lowOrder, parties), lowOrder, parties, moves, i);
    var net := Play(KeptKeys(lowOrder, parties), lowOrder, parties, Start0(parties), moves);
    if net[i].chan.rx.delivered != [] && Guarded(parties, parties[i], Read(net[i])) {
      assert parties[i] in parties && Consume(lowOrder, parties[i], Read(net[i])) == Met(lowOrder, parties[i], net[i]);
      assert Kept(lowOrder, parties, HearsUnder(lowOrder, parties, net, i).value);
    }
  }
}

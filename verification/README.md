# Pherry relay, channel and control-plane verification

A Dafny model of the data path of the Pherry tunnel, of the cell that bridges it, and of the one-time
stores behind it, with proofs over every input, run and interleaving.

How the files hang together:

* **Vocabulary.** `Bytes`, `Symbols` (free terms for X25519, SHA-256 and HKDF), `Framing` (length-prefixed
  parsing, generic), `Messages`, `Encodings` (what is hashed, MACed or signed) and `Layouts` (where each byte of
  it, and of what is sent, goes).
* **Secure channel.** `ByteQueue`, `Record`, `Frame`, `Handshake`, the state machine `Channel`, its object
  `SecureChannel`; `ChannelSafety` is the network of ends under an adversary who owns the bytes,
  `ChannelProgress` one end over its whole life, `ChannelSends` and `ChannelReceives` what a send and a chunk
  come to, `ChannelExchange` two ends talking both ways, `ChannelHandlers` frame handlers that send or close,
  `ChannelExamples` what meets the assumptions.
* **Relay.** `OuterFrame` (state machine), `OuterLaws` (what a chunk comes to) and `OuterConnection` (objects);
  `Tunnel` puts two adapters, the cell's two ends and four byte links together. `Cell` is the cell as steps over
  its tables, `CellImpl` the class that refines it, `CellSafety` the consistency of the tables, `CellEffects`
  what one message, chunk or event can touch, `CellLaws` what each event comes to and `CellLeaving` what goes with
  a connection, `CellTheorems` and `CellRuns` the promises, `CellClosing` and `CellDials` two readings that fail
  and when, `CellExamples` a run state by state. `CellTunnel` and `CellBridge` tie the cell to the tunnel,
  `CellSystem` runs adapters, links and cell together. `HostProof` is the registration proof.
* **Stores.** `Redis`, `RateLimit`, `Tickets`, `Fleet` (cells, replicas and one store together), `TicketFlow`
  (from issue to conn-open); `CliAuth`, `CliAuthSerial` (one call at a time), `UserCodes` (which codes approve),
  `CliAuthTokens` and `CliAuthCodes` (calls that overlap).
* **Controller.** `PtyFrame`, `PtyPayloads`, `PtyEvents`, `PtyLog` (the log frame by frame), `PtyEventStream`,
  `Controller`, `ControllerImpl`, `ControllerLaws` and `ControllerChunks` (what each event and each chunk come to),
  `ControllerStreams` (which streams end), `ControllerExamples` (a run in which one does not).

Each mutable object is a class whose methods are proved equal to steps of a state machine over values; the
theorems are about that state machine, over whole runs. What a step does is stated a second time, apart from
its definition, on the fields and bytes before and after it: in the modules named `Laws`, and in `CellLeaving`,
`ControllerChunks`, `ChannelSends`, `ChannelReceives`, `PtyLog`, `UserCodes`, `TicketFlow` and `Layouts`.

Assumptions, each a named predicate or parameter:

* an AEAD that decrypts what it sealed (`Correct`) and expands by its tag (`Expands`), and under the keys
  kept from the adversary opens only what was sealed under that key and nonce (`Unforgeable`); such ciphers
  are exhibited (`ChannelExamples.SomeEndsAreMatched`, `ChannelExamples.LedgerUnforgeable`), with a run that
  delivers (`ChannelExamples.FrameArrives`);
* fresh ephemerals (`Fresh`);
* a wire form in which the messages of one bridge's handshake fit the cap and decode to themselves
  (`Usable`); one is exhibited for every ticket and MAC (`Tunnels.SomeCodecIsUsable`).

Random values, clock readings, database answers and the JSON codecs are parameters of the steps that use
them.

Where code and documentation part, or a stronger reading is false:

* A closed cell can hold a host again, although `close` is documented to tear down every control
  connection. The run: `CellClosing.ClosedCellHoldsHost`. The table stays empty if and only if no open
  connection has a challenge outstanding for a usable key when the close runs
  (`CellClosing.ClosedHostsExact`).
* One CLI-auth request can yield two tokens when an approval overlaps an exchange (`CliAuthTokens.TwoTokens`),
  although the exchange is documented to succeed at most once; each token still has its own approval. It
  yields one at most when none does, however approvals overlap approvals and exchanges exchanges
  (`CliAuthTokens.OneTokenPerRequest`). Once a grant is taken, no second token follows if and only if no
  exchange may yet find another grant, which the stages of the calls under way tell
  (`CliAuthTokens.SecondTokenExact`).
* The budget of five wrong codes is of approvals one after another (`CliAuthCodes.FiveCodes`). When `m` of them
  overlap, `4 + m` codes are compared at most (`CliAuthCodes.CodesCompared`), and for every `m` that many can be
  (`CliAuthCodes.BudgetIsMet`); the counter itself is never reset while the request lives.
* An increment can leave a rate counter without expiry, which is documented never to happen: exactly when the
  window ends between the two store calls of a hit (`RateLimits.TornHit`). Such a counter allows what is left
  of one limit and then no hit ever again (`RateLimits.NeverAgain`, `RateLimits.TornForGood`).
* Closing a controller is documented to end every stream. A stream under whose id the host acks another
  subscription is forgotten (`ControllerStreams.ReuseForgets`; the run: `ControllerExamples.SomeStreamIsForgotten`)
  and never ends (`ControllerStreams.ForgottenForGood`); a stream can end if and only if it is not forgotten
  (`ControllerStreams.EndsExactly`), and none is as long as the host reuses no registered id
  (`ControllerStreams.ClosingEndsAll`).
* The fixed window lets through at most `2*limit - 1`, not `2*limit`, in a window's length
  (`RateLimits.UnderTwiceTheLimit`, `RateLimits.BoundIsMet`).
* A stream that has ended goes on collecting snapshot chunks without limit
  (`PtyEvents.SomeStreamIsUnbounded`, `PtyEvents.EndedIsUnbounded`). The limits hold while it lives, and after
  the end as long as no frame is ingested (`PtyEvents.LimitsHold`); beyond that it holds what its frames come
  to (`PtyEvents.EndedGathers`).
* A dial is accepted at a connection that was refused earlier in the same chunk, so the host end of a bridge
  may be closed; the controller end is open. The run: `CellDials.SomeHostEndIsClosed`. The host end is open
  if and only if no message of its chunk came before the dial (`CellDials.HostEndOpen`).
* What a connection makes of its bytes depends on how they are cut if and only if something follows, in
  them, the message its handler closes on (`OuterFraming.ChunkingExact`).

## Model

| member | source | states |
|---|---|---|
| `Tunnels.TunnelExact` | packages/relay-core/src/cell.ts:470-490 | For any wire form that carries the handshake's own messages, over every run from the two dials, however the four links cut or coalesce bytes and whoever closes: each adapter's consumer has received a prefix of what the other side sent after its own data-ready, nothing bridged was written to an end before its data-ready, and while the ends concerned are open nothing is missing, only under way |
| `Tunnels.Connects` | packages/relay-core/src/data-connection.ts:49-75 | With the links delivering and nobody closing, both dials do end up connected through an open splice, so the exactness result is not about tunnels that never come up |
| `Tunnels.SomeCodecIsUsable` | packages/relay-core/src/outer-frame.ts:78-94 | For every ticket and MAC there is a wire form that carries the handshake's messages within the cap, so the tunnel results are about something |
| `Tunnels.ReadyThenRaw` | packages/relay-core/src/data-connection.ts:49-75 | Awaiting data-ready, on a data-ready and any tail behind it, cut anywhere: the tail waits whole and in order as the raw stream, or is over the limit and the connection closes |
| `CellBridge.BridgeIsTunnel` | packages/relay-core/src/cell.ts:470-541 | From the splice on, whatever else the cell does for whomever: the two connections of a bridge stand, and were written, exactly as the tunnel's ends after the raw bytes and closes of that bridge alone |
| `CellTunnel.DialIsSplice` | packages/relay-core/src/cell.ts:447-490 | A proven dial at the cell, with whatever follows it in its chunk and whatever the controller's reader still held, is the tunnel's splice: the same bytes to the same ends |
| `CellTunnel.RawIsArrive` | packages/relay-core/src/cell.ts:478-485 | Raw bytes at the cell, open or closed at either end, are the tunnel's raw step |
| `CellBridge.DialJoins` | packages/relay-core/src/cell.ts:463-490 | The splice puts the two connections where the previous results start |
| `CellBridge.ElsewhereSpares` | packages/relay-core/src/cell.ts:261-541 | A step that is not about a bridge changes neither of its connections and writes neither of them anything |
| `CellSystems.BridgeExact` | packages/relay-core/src/cell.ts:447-490 | Adapters, links and the whole cell together, from the dial on, the cell serving whomever else: each adapter's consumer has received a prefix of what the other's user sent, the cell wrote it data-ready and then what it piped, and while the ends are open nothing is missing, only under way |
| `CellSystems.SomeSystemIsReady` | packages/relay-core/src/cell.ts:447-490 | From a new cell and two dialing adapters, a run to where that result starts |
| `OuterFraming.ChunkingIrrelevant` | packages/relay-core/src/outer-frame.ts:292-310 | However inbound bytes are cut, the handler sees the same messages, the consumer the same raw suffix, and the connection the same mode and error, up to the first error, provided the handler closes, if at all, on the last message these bytes carry |
| `OuterFraming.ChunkingExact` | packages/relay-core/src/outer-frame.ts:292-310 | And exactly then: of an open, error-free connection between two chunks, every cut of the bytes comes to the same if and only if no message or bad frame follows one the handler closes on |
| `OuterFraming.SomeCutShows` | packages/relay-core/src/outer-frame.ts:293-306 | Where one does follow, the cut right behind the message closed on is seen to differ |
| `OuterFraming.ReceiveSettles` | packages/relay-core/src/outer-frame.ts:299-306 | Between two chunks an open, error-free connection holds no whole frame and no over-cap prefix |
| `OuterFraming.ClosingMakesChunkingMatter` | packages/relay-core/src/outer-frame.ts:293-306 | A concrete pair of cuts that differ: a frame behind a refused one is dispatched or dropped |
| `OuterFraming.BufferBound` | packages/relay-core/src/outer-frame.ts:124-135 | An open, framed, error-free connection buffers less than 4 bytes and one capped message |
| `OuterConnections.OuterFrameReader.Push` | packages/relay-core/src/outer-frame.ts:113-117 | Appends the chunk to the buffered byte string |
| `OuterConnections.OuterFrameReader.Take` | packages/relay-core/src/outer-frame.ts:161-180 | Consumes exactly the first bytes of the buffered byte string, across chunk boundaries |
| `OuterConnections.OuterFrameReader.PeekUint32BE` | packages/relay-core/src/outer-frame.ts:148-158 | The big-endian word at the front, consuming nothing |
| `OuterConnections.OuterFrameReader.Next` | packages/relay-core/src/outer-frame.ts:124-135 | The whole payload at the front, or that it is incomplete, or that its prefix exceeds the cap |
| `OuterConnections.OuterFrameReader.DrainRemaining` | packages/relay-core/src/outer-frame.ts:142-145 | Hands over every buffered byte and leaves none |
| `OuterConnections.OuterConnection.DeliverRaw` | packages/relay-core/src/outer-frame.ts:268-290 | Raw bytes reach the consumer, or wait within the limit, or overflow it, report an error and close |
| `OuterConnections.OuterConnection.ToRaw` | packages/relay-core/src/outer-frame.ts:245-250 | The one-way switch: leftover framed bytes become the first raw bytes; a second call does nothing |
| `OuterConnections.OuterConnection.OnRaw` | packages/relay-core/src/outer-frame.ts:253-259 | Registers the consumer and flushes the waiting bytes to it in arrival order |
| `OuterConnections.OuterConnection.Receive` | packages/relay-core/src/outer-frame.ts:292-310 | The object's receive refines the connection state machine the lemmas are about |
| `ChannelSafety.DeliveredIsPrefix` | packages/channel/src/channel.ts:340-364 | Against anyone who drops, reorders, duplicates, alters, forges or re-cuts bytes, seals what it likes under other keys, and may be the peer itself: what an end delivered under a key kept from the adversary is a prefix of what one other end's send accepted, and the two have opposite roles, the same static key, host and ticket, and read each other's handshake message |
| `ChannelSafety.HonestDelivery` | packages/channel/src/channel.ts:209-222 | So all that an initiator delivers that pins a party's static key, and all that a responder delivers that answered a party's ephemeral, was sent to it by that party, on the same bridge |
| `ChannelExamples.LedgerUnforgeable` | packages/channel/src/record.ts:154-168 | In every network, whatever keys are kept, there is a cipher that meets the assumption and opens what was sealed |
| `ChannelExamples.FrameArrives` | packages/channel/src/channel.ts:340-406 | For all good keys, every host, ticket and frame: a legal run in which both ends read each other's message and the frame is delivered |
| `ChannelSafety.KeysApart` | packages/channel/src/handshake.ts:87-146 | Two ends with distinct ephemerals that share any record key are matched: opposite roles, same static key, same context |
| `ChannelProgress.EverythingArrives` | packages/channel/src/channel.ts:279-296 | Handed a peer's whole output cut anywhere, a receiver delivers every frame and stays open exactly when no two consecutive records end in the same tag, and otherwise the frames before the first repetition; the symmetric size cap never closes it |
| `ChannelExchange.ExchangeDelivers` | packages/channel/src/channel.ts:279-364 | Two matched ends over two links that keep order, their own sends, deliveries in any cut and closes interleaved in any way: what an end delivered is a prefix of its peer's accepted sends; it is closed against its will only after two consecutive records of its peer with the same tag; and with the link drained it has every frame, or those before the first repetition |
| `ChannelExamples.SomeEndsAreMatched` | packages/channel/src/handshake.ts:87-146 | For all good keys and a cipher without repeated tags: the ends are matched, and neither is ever closed but by its own user |
| `ChannelHandlers.ActingIsRun` | packages/channel/src/channel.ts:340-379 | A frame handler that sends or closes from inside the delivery comes to the run in which the chunk is cut behind every record and the handler acts in between |
| `ChannelProgress.OneRecordBeforeAuthentication` | packages/channel/src/channel.ts:279-287 | An initiator that has opened no inbound record has sealed at most one, in any run |
| `ChannelProgress.RunOrderly` | packages/channel/src/channel.ts:134-204 | An end's whole output is its one handshake message and then its records in order, each under its own key and the nonce of its position and within the peer's cap |
| `Channels.ChunkingIrrelevant` | packages/channel/src/channel.ts:330-364 | Any two cuts of the same inbound bytes deliver the same frames and leave the channel open or closed alike |
| `Channels.BufferBound` | packages/channel/src/channel.ts:340-352 | A channel that stays open buffers less than 4 bytes and one capped record |
| `SecureChannels.SecureChannel.Send` | packages/channel/src/channel.ts:279-296 | Accepted exactly when open, within 4 MiB with tag byte and authenticator, with at most 2^53-1 records sealed, and for an initiator with a record opened or none sealed: one sealed record, framed, is written behind the rest; each refusal by its own guard changes nothing |
| `ChannelSends.SendsExact` | packages/channel/src/channel.ts:279-296 | Over every run the records sealed are exactly those of the frames sent when the channel was open, 17 more than the payload was at most 4 MiB, at most 2^53-1 records were sealed, and the end was a responder, had opened a record or had sealed none: all of them, in order, and no others |
| `ChannelSends.SendLaw` | packages/channel/src/channel.ts:279-296 | One send appends its length-prefixed record, sealed under the direction's key and the nonce of its position, exactly under those four conditions; otherwise nothing changes |
| `ChannelSends.RefusalLaw` | packages/channel/src/channel.ts:279-292 | Each refusal if and only if its own guard holds and those before it do not |
| `ChannelSends.StartLaw` | packages/channel/src/channel.ts:183-189 | The initiator's first write is its handshake message, once; a responder starts nothing |
| `SecureChannels.SecureChannel.Receive` | packages/channel/src/channel.ts:330-338 | The object over its byte queue and ciphers refines the channel state machine, whatever the chunk |
| `ChannelReceives.RecordLaw` | packages/channel/src/channel.ts:340-364 | A whole record of at most 4 MiB that opens under the peer's key and the nonce due, does not end as the last one did and carries a frame is delivered as that frame, and what is behind it is read from there; any other closes the channel with nothing delivered, sealed or written |
| `ChannelReceives.WaitsLaw` | packages/channel/src/channel.ts:330-352 | Short of a whole record the bytes wait; a length over 4 MiB closes the channel; a closed channel hears nothing |
| `ChannelReceives.HandshakeLaw` | packages/channel/src/channel.ts:366-406 | The first 32 bytes are the peer's message: refused they close the channel, accepted they open it, answered by a responder, and what is behind them is read by the open channel |
| `SecureChannels.SecureChannel.Shutdown` | packages/channel/src/channel.ts:414-435 | Closes for good and drops the keys; idempotent |
| `SecureChannels.SecureChannel.CompleteHandshake` | packages/channel/src/channel.ts:382-406 | Keys from the first 32 bytes or a failure; a responder answers only then |
| `Records.Sealer.Seal` | packages/channel/src/record.ts:114-122 | The record is sealed under a nonce never used before, in counter order; past 2^53-1 it refuses and stays put |
| `Records.NonceInjective` | packages/channel/src/record.ts:82-90 | The two-halves big-endian nonce is injective on every counter a sealer can reach |
| `Records.NoncesApart` | packages/channel/src/record.ts:77-90 | Nonces of different directions or sessions never coincide |
| `Records.NonceFor` | packages/channel/src/record.ts:82-90 | The filled buffer is prefix and big-endian counter |
| `Records.Opener.Open` | packages/channel/src/record.ts:154-168 | An exact re-delivery of the previous record, a failed decryption, or the plaintext; only success advances |
| `Frames.EncodeFrame` | packages/channel/src/frame.ts:44-49 | The buffer is the tag byte and the payload |
| `Frames.FrameRoundTrip` | packages/channel/src/frame.ts:44-63 | Decoding undoes encoding, and a buffer decodes to a frame exactly when it is that frame's encoding |
| `Handshakes.KeysAgree` | packages/channel/src/handshake.ts:87-146 | Two ends that finish share their keys, or any single one of them, exactly when they saw each other's ephemerals, the pin is the responder's static key and the contexts agree |
| `Handshakes.MatchedFinish` | packages/channel/src/handshake.ts:65-75 | Matched ends always finish, unless a key is of low order, and with equal keys |
| `Handshakes.KeysNameInputs` | packages/channel/src/kdf.ts:101-124 | Each derived secret determines every input of the key schedule, and the two record keys never coincide |
| `Handshakes.SaltInjective` | packages/channel/src/kdf.ts:101-112 | The salt determines both ephemerals and the context |
| `ByteQueues.Run` | packages/channel/src/byte-queue.ts:43-131 | Any run of push, peek and take returns what a flat byte string would, never holds more than 256 chunks, and its merges copy at most three times the bytes pushed |
| `ByteQueues.ByteQueue.Push` | packages/channel/src/byte-queue.ts:43-48 | Appends to the flat content; chunk bound and accounting kept |
| `ByteQueues.ByteQueue.PeekUint32BE` | packages/channel/src/byte-queue.ts:54-64 | The big-endian word at the front of the flat content, consuming nothing |
| `ByteQueues.ByteQueue.Take` | packages/channel/src/byte-queue.ts:70-94 | One fresh array of exactly the first bytes; the rest stays |
| `ByteQueues.ByteQueue.Coalesce` | packages/channel/src/byte-queue.ts:97-131 | One chunk with the same content, whichever path is taken |
| `ByteQueues.ByteQueue.AppendInPlace` | packages/channel/src/byte-queue.ts:102-119 | Writing the accumulator in place overwrites no byte before its append offset |
| `ByteQueues.TakeBytes` | packages/channel/src/byte-queue.ts:70-87 | The copying loop gathers exactly the wanted front across chunk boundaries, without disturbing the chunks |
| `ByteQueues.CopyChunks` | packages/channel/src/byte-queue.ts:109-130 | The merging loop writes the concatenation of the chunks at the offset, and nothing before it |
| `ByteQueues.DropKeepsContent` | packages/channel/src/byte-queue.ts:73-86 | Shifting and trimming chunks removes exactly that many bytes from the front |
| `Encodings.ContextInjective` | packages/relay-core/src/context.ts:43-47 | For NUL-free host ids, or tickets of equal length, the channel context determines host and ticket |
| `Encodings.ContextsMeet` | packages/relay-core/src/context.ts:43-47 | In general two contexts are equal exactly when the separated pairs spell the same bytes |
| `Encodings.ContextCollides` | packages/relay-core/src/context.ts:43-47 | With a NUL in an id, two different pairs do share a context |
| `Encodings.IssuedContextsApart` | packages/relay-core/src/context.ts:43-47 | Between tickets of the issued length the context determines host and ticket whatever the host ids; a collision takes tickets of two lengths and a NUL in a host id |
| `Encodings.TranscriptInjective` | packages/relay-core/src/host-proof.ts:176-188 | The proof transcript determines host id, cell id, nonce and ephemeral, for NUL-free host ids |
| `Encodings.TranscriptsMeet` | packages/relay-core/src/host-proof.ts:178-186 | In general it determines the challenge, and the ids as far as their separated bytes do |
| `Encodings.DataAuthInjective` | packages/relay-core/src/host-proof.ts:257-272 | The data-leg preimage determines cell id, ticket and bridge nonce, for every cell id |
| `Encodings.StatementInjective` | protocol/src/device-auth.ts:81-105 | The signed statement determines session, host id and device key id, for NUL-free host ids or key ids of the fixed length |
| `Encodings.StatementsMeet` | protocol/src/device-auth.ts:81-105 | In general two statements are equal exactly when session and separated ids are |
| `Encodings.DeviceAuthMessage` | protocol/src/device-auth.ts:81-105 | The buffer filled with a moving offset is the statement; a session id of another length is refused |
| `HostProofs.ProofBinds` | packages/relay-core/src/host-proof.ts:132-188 | A proof verifies against a challenge, id and key exactly when it was made for that nonce, ephemeral and key, and ids that spell the same bytes |
| `HostProofs.DataKeysAgree` | packages/relay-core/src/host-proof.ts:202-244 | Cell and host derive one data-leg key exactly when nonce and the two public keys are the same |
| `HostProofs.DialBinds` | packages/relay-core/src/host-proof.ts:257-287 | A dial's MAC is accepted for its own key, cell, ticket and bridge nonce and for no other |
| `Layouts.PtyFrameLayout` | protocol/src/pty-frame.ts:65-78 | Kind, version, opcode and a zero; stream id, low half and high half of the sequence number in four little-endian bytes each; the payload |
| `Layouts.SizeLayout` | protocol/src/pty-payloads.ts:18-25 | Columns and then rows, little-endian |
| `Layouts.ExitLayout` | protocol/src/pty-payloads.ts:33-39 | Nothing for no code, or four little-endian bytes in two's complement |
| `Layouts.ChannelFrameLayout` | packages/channel/src/frame.ts:44-49 | 1 for control or 2 for binary, and the payload |
| `Layouts.PrefixLayout` | packages/relay-core/src/outer-frame.ts:78-90 | A length prefix has its most significant byte first |
| `Layouts.NonceLayout` | packages/channel/src/record.ts:82-90 | The direction's 16 bytes and the record's number in eight big-endian ones |
| `Layouts.DirectionLayout` | packages/channel/src/record.ts:77-81 | The first 16 bytes of the hash of session id and one more byte, 0 from the initiator and 1 to it |
| `Layouts.SaltLayout` | packages/channel/src/kdf.ts:101-112 | A hash over the label, the initiator's ephemeral, the responder's and the context, at their offsets |
| `Layouts.KeysLayout` | packages/channel/src/kdf.ts:101-124 | The 96 bytes derived from the two secrets are the initiator's sending key, the responder's and the session id, in this order |
| `Layouts.EndsLayout` | packages/channel/src/handshake.ts:87-146 | Which two secrets each end derives from, and that both put the initiator's ephemeral first |
| `Layouts.ContextLayout` | packages/relay-core/src/context.ts:43-47 | A hash over the label, the host id, a zero byte and the ticket, at their offsets |
| `Layouts.TranscriptLayout` | packages/relay-core/src/host-proof.ts:176-188 | The label, host id and cell id with a zero byte behind each, the nonce and the ephemeral, at their offsets |
| `Layouts.DataAuthLayout` | packages/relay-core/src/host-proof.ts:257-272 | The label, cell id and ticket with a zero byte behind each, and the bridge nonce, at their offsets |
| `Layouts.StatementLayout` | protocol/src/device-auth.ts:81-105 | The label, session id and host id with a zero byte behind each, and the key id, at their offsets |
| `Layouts.ProofLayout` | packages/relay-core/src/host-proof.ts:132-244 | The proof is an HMAC over that transcript, and its key and the data key are derived from one secret with two labels |
| `CellRuns.CellInvariant` | packages/relay-core/src/cell.ts:261-541 | After every run of events: the tables are consistent (each registered host an open control connection with a data key under its own id; each pending bridge under its ticket with an open unbridged controller and a live timer; each bridge linked from both its ends), no secret is of foreign making, and the used tickets are the newest 1024 of the conn-open log |
| `CellSafety.NextKeeps` | packages/relay-core/src/cell.ts:261-541 | Every single event, mid-chunk dispatch to refused connections included, keeps the tables consistent |
| `CellLaws.MessageLaw` | packages/relay-core/src/cell.ts:261-304 | Which message an open connection is refused for, with which code: controllers of a draining cell as drained, dials as a bad ticket or as unauthenticated, proofs that do not verify, and whatever is not expected; refused, it is told and gone from every table; a registered host that says close is gone without a word; for every other message it stays open |
| `CellLaws.FiresLaw` | packages/relay-core/src/cell.ts:427-432 | A timer's ticket and its entry go with it; the controller that waited, and it was open, is told bridge-timeout once and closed, and no other connection is touched or told; a timer whose ticket waits for nobody does nothing |
| `CellLaws.ResolvesLaw` | packages/relay-core/src/cell.ts:378-409 | Bad, expired, reused and unknown host, each refused with its code and in this order; otherwise the registered host is sent this ticket and nonce, and the bridge waits under a new timer, with only the newest 1024 tickets remembered |
| `CellLaws.FindsKeyLaw` | packages/relay-core/src/cell.ts:306-324 | An unknown host is refused as such; a known one is sent the challenge drawn, which is kept with the key, and no one else hears of it |
| `CellLaws.LateLaw` | packages/relay-core/src/cell.ts:312-314 | An answer for a connection or a cell that has closed changes nothing |
| `CellLaws.LookupFailsLaw` | packages/relay-core/src/cell.ts:286-292 | A lookup that throws is a protocol error |
| `CellLaws.ProofLaw` | packages/relay-core/src/cell.ts:327-362 | A proof that verifies makes the connection its host's, with the derived key and the challenge spent, tells it so, and closes the one it supersedes without a word |
| `CellLaws.AskingLaw` | packages/relay-core/src/cell.ts:283-304 | A hello, and a controller's ticket in a cell that takes controllers, wait for their lookup and change nothing else |
| `CellLaws.DialLaw` | packages/relay-core/src/cell.ts:447-490 | A proven dial puts the bridge in the place of the pending entry and its timer and touches nobody but its two ends |
| `CellLaws.BadFrameLaw` | packages/relay-core/src/cell.ts:245-258 | A bad frame is a protocol error |
| `CellLaws.ChunkLaw` | packages/relay-core/src/cell.ts:245-304 | The messages of a chunk are handled one after another, all of them unless the connection goes raw |
| `CellLeaving.RefuseLaw` | packages/relay-core/src/cell.ts:493-497 | Refused: told the code if it still hears, and then as detached |
| `CellLeaving.DetachLaw` | packages/relay-core/src/cell.ts:505-541 | Detached: out of every table with the timer it waited under and its bridge, closed, its bridge's other end closed with it, and nothing else changed |
| `CellLaws.PeerClosesLaw` | packages/relay-core/src/cell.ts:505-508 | A peer that closes is detached without a word to anybody |
| `CellLaws.AcceptsLaw` | packages/relay-core/src/cell.ts:246-258 | A new connection is open and unclassified, or closed in a closed cell |
| `CellLaws.DrainsLaw` | packages/relay-core/src/cell.ts:210-214 | Every registered host is sent drain once, nobody else anything |
| `CellLaws.ClosesLaw` | packages/relay-core/src/cell.ts:216-231 | The tables are empty, exactly the registered hosts, waiting controllers and ends of bridges are closed, and exactly the pending bridges' timers are gone |
| `CellRuns.OneBridgeEach` | packages/relay-core/src/cell.ts:471-475 | No connection is in two bridges, at both ends of one, or both bridged and waiting |
| `CellTheorems.RegistrationChanges` | packages/relay-core/src/cell.ts:504-541 | A host's registration changes only when its own control connection goes down, when a chunk opens with a verified proof for it, or when the cell closes: a superseded control connection or a data connection going down never unregisters it |
| `CellTheorems.ProofRegisters` | packages/relay-core/src/cell.ts:356-361 | A verified proof registers its host and no other, with the data key of its challenge, whatever became of the cell |
| `CellClosing.ClosedHostsExact` | packages/relay-core/src/cell.ts:216-231 | From the close on the host table stays empty whatever follows, if and only if no open connection has a challenge outstanding for a usable key when the close runs; a key lookup under way does not count, it is abandoned |
| `CellClosing.ClosedCellHoldsHost` | packages/relay-core/src/cell.ts:306-361 | For every host, usable key and challenge, a run from a new cell (accept, hello, key found, close, proof) after which the closed cell holds the host |
| `CellTheorems.SplicesAreProven` | packages/relay-core/src/cell.ts:447-468 | Every bridge that comes up was dialed with a MAC, over that pending bridge's own nonce, under the data key of the host currently registered under the id it waits for; its pending entry and timer are gone |
| `CellTheorems.ProvenSplices` | packages/relay-core/src/cell.ts:463-490 | Every such first message does bring the bridge up, tells both ends, pipes them to each other, and forwards what either reader still held, the controller's first |
| `CellDials.HostEndOpen` | packages/relay-core/src/cell.ts:261-280 | The host end of a new bridge is open if and only if no message of its chunk came before the proven dial |
| `CellDials.SomeHostEndIsClosed` | packages/relay-core/src/cell.ts:261-490 | For every host, usable key, ticket and nonce, a run from a new cell after which a bridge is up with its host end closed: a drain message and then the host's own dial in one chunk |
| `CellDials.RefusedDialSplices` | packages/relay-core/src/cell.ts:261-490 | In every consistent state with a dial awaited, any unexpected message and then the dial in one chunk brings the bridge up at a closed connection |
| `CellTheorems.PendingOutlives` | packages/relay-core/src/cell.ts:453-462 | Any number of failing dials, and of all other events not about it, leaves a pending bridge and its timer as they are |
| `CellTheorems.PendingStands` | packages/relay-core/src/cell.ts:427-468 | The complete list of what ends or replaces a pending bridge |
| `CellTheorems.BytesStayBetweenEnds` | packages/relay-core/src/cell.ts:478-485 | Raw bytes go verbatim from one end of a splice to its other end, and nowhere else |
| `CellRuns.NextSecrets` | packages/relay-core/src/cell.ts:326-361 | Every data key held is that of a challenge this cell sent on that very connection, for the key its host is known by |
| `CellRuns.NextUsed` | packages/relay-core/src/cell.ts:417-424 | The used-ticket set stays the newest 1024 conn-opens, and equal conn-opens stay more than 1024 apart |
| `CellRuns.OpensInTime` | packages/relay-core/src/cell.ts:378-409 | A conn-open goes to the registered host of an unexpired record, for a ticket not recently used |
| `CellRuns.OpensArePaid` | packages/relay-core/src/cell.ts:373-410 | Over every run the conn-opens, as a multiset of tickets, are within the successful resolutions |
| `CellRuns.TimersStayMatched` | packages/relay-core/src/cell.ts:404-432 | Live timers and pending bridges stay in one-to-one correspondence exactly as long as no still-pending ticket is accepted again |
| `CellRuns.SingleUseTimers` | packages/relay-core/src/cell.ts:404-432 | With an authorizer that resolves each ticket at most once they correspond throughout every run |
| `CellRuns.AfterClose` | packages/relay-core/src/cell.ts:216-231 | From the close on, through any events, nothing is pending and nothing is bridged |
| `CellImpls.CellImpl.MarkTicketUsed` | packages/relay-core/src/cell.ts:417-424 | Adding and evicting in a loop keeps exactly the newest 1024 |
| `CellImpls.CellImpl.CleanUp` | packages/relay-core/src/cell.ts:516-541 | Removes the connection from every table it is in, closing its bridge peer |
| `CellImpls.CellImpl.HandleProof` | packages/relay-core/src/cell.ts:327-362 | Every outcome of a proof message, challenge dropped |
| `CellImpls.CellImpl.OnHostKey` | packages/relay-core/src/cell.ts:306-324 | The resumed registration: refused, abandoned, or challenged |
| `CellImpls.CellImpl.OnTicket` | packages/relay-core/src/cell.ts:378-409 | The resumed controller bridge: each refusal in its order, or an opened bridge |
| `CellImpls.CellImpl.HostDial` | packages/relay-core/src/cell.ts:447-468 | A refused dial leaves the pending bridge; a proven one is spliced |
| `CellImpls.CellImpl.SpliceConns` | packages/relay-core/src/cell.ts:471-490 | Links, pipes and signals both ends, and forwards what the controller's reader held |
| `CellImpls.CellImpl.SendRaw` | packages/relay-core/src/outer-frame.ts:235-238 | Bytes go to the other end unless that is closed |
| `CellImpls.CellImpl.OnBridgeTimeout` | packages/relay-core/src/cell.ts:427-432 | The object's step is the one `CellLaws.FiresLaw` is about: the controller that still waits for the ticket is told, closed and forgotten |
| `CellImpls.CellImpl.Receive` | packages/relay-core/src/cell.ts:245-304 | The messages of one chunk in order, closed or not, until the connection goes raw; what is behind them stays in the reader or is forwarded |
| `CellImpls.CellImpl.DrainAll` | packages/relay-core/src/cell.ts:210-214 | Every registered host is told exactly once |
| `CellImpls.CellImpl.CloseAll` | packages/relay-core/src/cell.ts:216-231 | Clears timers, pending bridges, bridges and hosts, closing every connection in them |
| `Redis.LazyIsEager` | apps/control-plane/src/redis.ts:72-114 | No run of operations on a clock that does not run back can tell lazy eviction from sweeping expired entries first |
| `Redis.OpLaw` | apps/control-plane/src/redis.ts:72-114 | Operation by operation: the reply, and what any later read of the key finds, expiry instant excluded |
| `Redis.ApplyElsewhere` | apps/control-plane/src/redis.ts:82-114 | An operation leaves every other key alone |
| `Redis.MemoryRedis.SetKey` | apps/control-plane/src/redis.ts:82-87 | With nx only when no live entry is there; expiry from this clock reading |
| `Redis.MemoryRedis.GetDelKey` | apps/control-plane/src/redis.ts:93-98 | Reads and deletes in one step |
| `Redis.MemoryRedis.IncrKey` | apps/control-plane/src/redis.ts:104-109 | Counts from what is live, keeping its expiry |
| `Redis.MemoryRedis.PExpireKey` | apps/control-plane/src/redis.ts:111-114 | Moves the expiry of a live entry only |
| `RateLimits.UnderTwiceTheLimit` | apps/control-plane/src/services/rate-limit.ts:36-48 | Any half-open interval of one window's length sees at most 2*limit-1 allowed hits, whatever else the store does at other keys |
| `RateLimits.BoundIsMet` | apps/control-plane/src/services/rate-limit.ts:36-48 | A run that reaches that bound |
| `RateLimits.CountersExpire` | apps/control-plane/src/services/rate-limit.ts:36-48 | After every run each live counter has an expiry |
| `RateLimits.TornHit` | apps/control-plane/src/services/rate-limit.ts:43-47 | With the two store calls at two clock readings the counter keeps an expiry exactly when its window is still open at the increment |
| `RateLimits.NeverAgain` | apps/control-plane/src/services/rate-limit.ts:43-47 | A counter without expiry stays for good: however the store calls of later hits interleave and whenever they come, it counts them all, what is left of the limit is allowed, and none after that |
| `RateLimits.TornForGood` | apps/control-plane/src/services/rate-limit.ts:31-47 | So a hit whose window ends between its two store calls leaves the key one limit less that hit, for ever |
| `RateLimits.CheckRateLimit` | apps/control-plane/src/services/rate-limit.ts:36-48 | The two ordered store updates, each at its own clock reading, and the comparison |
| `Tickets.IssueTicket` | apps/control-plane/src/services/relay-coordination.ts:84-119 | Each attempt at its own clock: issues the first minted ticket whose key is free in its turn, and stores it for its principal; with all attempts taken it stores nothing and fails |
| `Tickets.ConsumeTicket` | apps/control-plane/src/services/relay-coordination.ts:150-184 | The ticket is gone whatever the outcome; success exactly for a live, unexpired record of an active host, and then with that record's host, organisation and expiry and that host's key |
| `Tickets.ResolutionLaw` | apps/control-plane/src/services/relay-coordination.ts:150-184 | A stored value resolves exactly when it is the record of an unexpired ticket for an active host: to its own host, organisation and expiry, with that host's key |
| `TicketFlow.AnswersAsIssued` | apps/control-plane/src/services/relay-coordination.ts:84-206 | Over every fleet run an answer that names a host and an expiry names those of an issue of its very ticket |
| `TicketFlow.OpensWhereIssued` | apps/control-plane/src/services/relay-coordination.ts:84-206 | And every conn-open goes to the host that some issue of its ticket was for, before that issue expires, once and to nobody else |
| `TicketFlow.IssueResolves` | apps/control-plane/src/services/relay-coordination.ts:84-206 | A ticket issued and consumed while it lives is answered with the host and expiry it was issued with exactly when that host is active and the caller's clock is before the expiry |
| `TicketFlow.IssueOpens` | apps/control-plane/src/services/relay-coordination.ts:84-206 | And, the answer delivered, the cell asks that host, registered there, and nobody else to dial, exactly when both clocks are before the expiry and the ticket is not a recently used one; else it refuses the controller with a code |
| `Fleets.OneOpenPerIssue` | apps/control-plane/src/services/relay-coordination.ts:84-184 | Across any number of cells and replicas over one store, in any interleaving, a ticket is resolved, and asked of a host, at most as often as it was issued |
| `Fleets.NoneSucceedsExpired` | apps/control-plane/src/services/relay-coordination.ts:156-165 | A resolution that succeeds consumed a record unexpired by the caller's own clock |
| `CliAuths.TokensAreApproved` | apps/control-plane/src/services/cli-auth.ts:249-352 | However the store steps of all calls interleave, tokens, by request and user, are within the winning approvals |
| `CliAuths.StepBacks` | apps/control-plane/src/services/cli-auth.ts:282-327 | A grant is stored by one winning approval and taken by one exchange |
| `CliAuths.MintUserCode` | apps/control-plane/src/services/cli-auth.ts:69-84 | Eight alphabet symbols with a hyphen that normalisation drops |
| `UserCodes.ShownApproves` | apps/control-plane/src/services/cli-auth.ts:192-290 | From start to approval: what a headless start minted approves it, its eight symbols typed in either case and with anything between that is no letter or digit, and nothing else does |
| `UserCodes.EitherWay` | apps/control-plane/src/services/cli-auth.ts:86-89 | With the hyphen and without it, in either case, the code is spelled |
| `UserCodes.ApproveLaw` | apps/control-plane/src/services/cli-auth.ts:249-290 | An approval in time wins exactly when nobody has approved and the letters and digits typed are, one by one and in order, those of the code the request shows, if it shows one |
| `UserCodes.AttemptLaw` | apps/control-plane/src/services/cli-auth.ts:256-272 | What does not spell the code spends one attempt and the fifth deletes the request; what does spends none |
| `UserCodes.StartLaw` | apps/control-plane/src/services/cli-auth.ts:192-220 | A start under a free id stores its secret, its expiry and, if it is headless, the code it shows |
| `UserCodes.FoundLaw` | apps/control-plane/src/services/cli-auth.ts:142-157 | A call finds exactly the request record that is there, before the store's expiry on its clock and before the record's own on the caller's |
| `UserCodes.SpellsExactly` | apps/control-plane/src/services/cli-auth.ts:86-89 | Normalising what is typed gives the code exactly when its letters and digits are, one by one, the code's |
| `UserCodes.MintsMinted` | apps/control-plane/src/services/cli-auth.ts:69-84 | What minting makes of any random bytes has the form the other results ask for |
| `CliAuthTokens.TwoTokens` | apps/control-plane/src/services/cli-auth.ts:313-352 | A concrete interleaving, an approval beside an exchange, in which one request yields two tokens |
| `CliAuthTokens.OneTokenPerRequest` | apps/control-plane/src/services/cli-auth.ts:18-23 | From any store and whatever the clocks say: as long as no approval of a request is under way beside an exchange of it, each kind overlapping itself freely, it yields at most one token, and once its exchanges are done it is gone with no grant left |
| `CliAuthTokens.SecondTokenExact` | apps/control-plane/src/services/cli-auth.ts:273-352 | In every reachable world in which an exchange has taken a grant of a request, whatever follows mints no second token exactly when one grant only is taken so far and no exchange, under way or to come, may take another: read off the request record, the stored grant and the stages that pending approvals and exchanges have reached; otherwise a run on a clock that does not run back mints one |
| `CliAuthCodes.CodesCompared` | apps/control-plane/src/services/cli-auth.ts:256-272 | However approvals and exchanges of a request interleave, of which at most m approvals are under way at once: at most 4 + m wrong codes are compared; while anybody may still find the request its counter has never been reset; and once no approval is under way, five have ended it and fewer are what the counter says |
| `CliAuthCodes.FiveCodes` | apps/control-plane/src/services/cli-auth.ts:34-39 | When approvals of a request do not overlap it stands at most five wrong codes, however exchanges overlap |
| `CliAuthCodes.BudgetIsMet` | apps/control-plane/src/services/cli-auth.ts:256-272 | For every m, a run with at most m approvals at once in which 4 + m wrong codes are compared |
| `CliAuthSerial.GoneIsRefused` | apps/control-plane/src/services/cli-auth.ts:142-157 | Whoever comes once the request is found no more is refused |
| `CliAuthTokens.StepIsForeign` | apps/control-plane/src/services/cli-auth.ts:192-352 | Every store step of a call is one operation on a key of its own request or on a token |
| `CliAuthSerial.DeadIsRefused` | apps/control-plane/src/services/cli-auth.ts:142-157 | Approvals and exchanges that load no live request are refused and change nothing of the request but its expired entry |
| `CliAuthSerial.WrongCodeCounts` | apps/control-plane/src/services/cli-auth.ts:261-272 | A wrong code shown to a live request spends one attempt, and the fifth deletes the request, each store step at its own clock; unless the request expires first |
| `CliAuthSerial.ExchangeOutcome` | apps/control-plane/src/services/cli-auth.ts:313-352 | With each store step at its own clock and foreign operations in between, an exchange mints exactly when it presents the secret, a grant waiting at its own step and, for a callback request, its code, and for the approving user; it is pending exactly when only the grant is missing; a wrong secret burns no grant, a wrong code does |
| `CliAuthSerial.ApproveOutcome` | apps/control-plane/src/services/cli-auth.ts:249-290 | With each store step at its own clock and foreign operations in between, an approval wins exactly when it loads a live request nobody has approved by its second step and shows its code if it asks for one; its grant outlives the request |
| `CliAuthSerial.ExchangeRetires` | apps/control-plane/src/services/cli-auth.ts:313-352 | An exchange of a live request mints and retires it, or leaves request and counter alone, however long its steps take |
| `PtyFrames.PtyRoundTrip` | protocol/src/pty-frame.ts:65-97 | Decoding undoes encoding exactly for 32-bit stream ids, at every safe sequence number |
| `PtyFrames.EncodeDecoded` | protocol/src/pty-frame.ts:65-97 | Encoding undoes decoding exactly for buffers with reserved byte 0 |
| `PtyFrames.DecodeEncoded` | protocol/src/pty-frame.ts:65-97 | What a frame with larger fields decodes to |
| `PtyFrames.WritePtyFrame` | protocol/src/pty-frame.ts:65-78 | The buffer filled field by field is the encoding |
| `PtyPayloads.ExitRoundTrip` | protocol/src/pty-payloads.ts:33-45 | Exactly the signed 32-bit exit codes, and their absence, survive |
| `PtyPayloads.SizeRoundTrip` | protocol/src/pty-payloads.ts:18-30 | Sizes survive modulo 2^16 |
| `PtyEvents.NextSettles` | packages/sdk/src/events.ts:77-175 | After every run the i-th next() has settled with the i-th pushed event, or with done or rejection when there is none and the stream has ended, and waits otherwise; events never queue while calls wait; listeners heard everything since they registered; nothing follows ended; a live snapshot is under 8 MiB and 4096 chunks |
| `PtyEvents.LogGrows` | packages/sdk/src/events.ts:134-175 | The event log only grows, and not once ended, so no settlement is revised |
| `PtyLog.OutputExact` | packages/sdk/src/events.ts:77-127 | Over every run the output events' data, joined, are the payloads of the output frames ingested before the stream's end, joined; of all of them while it lives |
| `PtyLog.LogExact` | packages/sdk/src/events.ts:77-127 | Over every run the log, but for snapshots, is what the frames up to the end say, in order: output with its number and whole payload, columns and rows, exit code, gap |
| `PtyLog.SomeEnd` | packages/sdk/src/events.ts:134-139 | Every run has such an end, or lives to its last event |
| `PtyLog.FrameLaw` | packages/sdk/src/events.ts:108-127 | A frame outside snapshots adds to a live stream's log what its opcode and bytes say, to an ended one's nothing; exactly short sizes and exit codes of one to three bytes throw; unknown opcodes change nothing |
| `PtyLog.ChunkLaw` | packages/sdk/src/events.ts:84-93 | A chunk joins a live stream's open snapshot exactly while it comes to at most 8 MiB and 4096 chunks; else the stream fails and the waiting calls are rejected |
| `PtyLog.SnapshotStarts` | packages/sdk/src/events.ts:79-83 | A start opens an empty snapshot of its number, columns and rows; a short one throws |
| `PtyLog.SnapshotEnds` | packages/sdk/src/events.ts:94-107 | An end closes the snapshot and, on a live stream, adds it with its chunks in order |
| `PtyLog.EndLaw` | packages/sdk/src/events.ts:77-139 | What ends a live stream: end(), a well-formed exit frame, or a chunk too much; nothing else |
| `PtyEvents.SnapshotIsItsChunks` | packages/sdk/src/events.ts:79-107 | A snapshot event carries exactly the chunks since the frame that opened it, whatever came between |
| `PtyEvents.NoSnapshotNoEvent` | packages/sdk/src/events.ts:94-107 | Without an open snapshot its end is no event |
| `PtyEvents.LimitsHold` | packages/sdk/src/events.ts:84-93 | As long as no frame is ingested after the end, no snapshot is over its limits, ended stream or not |
| `PtyEvents.EndedGathers` | packages/sdk/src/events.ts:77-107 | What an ended stream holds after any events is exactly what their frames come to with no limit |
| `PtyEvents.EndedIsUnbounded` | packages/sdk/src/events.ts:84-93 | From every ended stream, for every number of chunks of any size, a run that leaves it holding them |
| `PtyEvents.SomeStreamIsUnbounded` | packages/sdk/src/events.ts:134-139 | For every n a run from a new stream, ended, that holds n chunks |
| `PtyEventStreams.Concat` | packages/sdk/src/events.ts:179-189 | The filled buffer is the concatenation of the chunks |
| `PtyEventStreams.PtyEventStream.IngestFrame` | packages/sdk/src/events.ts:77-127 | The object's step is the one `PtyLog` spells out opcode by opcode, and nothing where a payload throws |
| `PtyEventStreams.PtyEventStream.Next` | packages/sdk/src/events.ts:143-149 | Queue first, then error, then end, then wait |
| `PtyEventStreams.PtyEventStream.PushEvent` | packages/sdk/src/events.ts:153-159 | Every listener, then the first waiting call or the queue; nothing once ended |
| `PtyEventStreams.PtyEventStream.FailStream` | packages/sdk/src/events.ts:167-175 | Ends with rejection of the waiting calls and drops the snapshot |
| `Controllers.GuardNeverTrips` | packages/sdk/src/controller.ts:280-392 | Over every run a controller that owns its channel sends Hello first and requests after, attempts none of those before an inbound frame has authenticated the channel, and never meets the initiator's one-record limit |
| `Controllers.CallsSettleOnce` | packages/sdk/src/controller.ts:359-454 | Each call settles at most once, for good; once closed nothing is in flight and nothing can go out |
| `Controllers.RequestsArePermitted` | packages/sdk/src/controller.ts:364-373 | Over every run, no request goes out before the capabilities are agreed or that they do not allow |
| `Controllers.NoFrameMisrouted` | packages/sdk/src/controller.ts:223-235 | PTY frames right behind a subscribe ack, in the same chunk even, reach that subscription's own stream and no other |
| `ControllerChunks.StreamHears` | packages/sdk/src/controller.ts:394-454 | Whatever a chunk mixes, the stream registered under an id hears exactly the PTY frames for that id, once each and in order, as long as no response in the chunk gives the id out anew; closed behind them, it ends with them heard |
| `ControllerChunks.RunFed` | packages/sdk/src/controller.ts:223-235 | Over every run each stream is registered under one id at most, that of the ack of its own subscription |
| `ControllerChunks.ResponseSettles` | packages/sdk/src/controller.ts:399-431 | The first response of a chunk to a call in flight settles it as its result or its error says, whatever stands before and behind it, the close included |
| `ControllerChunks.AgreedIsHeard` | packages/sdk/src/controller.ts:280-357 | Over every run capabilities are agreed only as the ack of a compatible host, heard on the control lane, has them |
| `ControllerLaws.ResumeLaw` | packages/sdk/src/controller.ts:359-392 | A gated call goes out, under the next id, exactly when the host agreed to what it needs, the controller is open and the channel takes the frame; else it is rejected and nothing is written |
| `ControllerLaws.ResponseLaw` | packages/sdk/src/controller.ts:399-431 | A response settles its own call only, and registers a subscription that succeeded; any other changes nothing |
| `ControllerLaws.BeginLaw` | packages/sdk/src/controller.ts:214-264 | A new call is gated or, closed, rejected; subscribing makes a stream, unsubscribing forgets one and is nothing without one |
| `ControllerLaws.HelloLaw` | packages/sdk/src/controller.ts:280-327 | The hello goes out once the channel is ready and takes it, under a timer; else the handshake is broken |
| `ControllerLaws.AckLaw` | packages/sdk/src/controller.ts:341-357 | The first control frame behind the hello stops the timer, and is the ack or breaks the handshake |
| `ControllerLaws.AgreeLaw` | packages/sdk/src/controller.ts:328-337 | A compatible host's capabilities are agreed, another's break the handshake |
| `ControllerLaws.BinaryLaw` | packages/sdk/src/controller.ts:433-437 | A PTY frame under a registered id is that stream's and no other's; any other is nobody's |
| `ControllerLaws.CloseLaw` | packages/sdk/src/controller.ts:439-454 | Closing rejects exactly the calls in flight and ends exactly the registered streams, their waiting calls done; the handshake timeout does that and breaks the handshake |
| `ControllerLaws.WindLaw` | packages/sdk/src/controller.ts:256-263 | Exactly an unsubscribe that has settled ends its stream |
| `Controllers.NextKeeps` | packages/sdk/src/controller.ts:161-455 | Every event keeps requests awaiting a response and calls in flight in one-to-one correspondence |
| `ControllerStreams.EndsExactly` | packages/sdk/src/controller.ts:223-269 | In every reachable state a stream that was handed out can still end, or has, exactly when the controller has not forgotten it |
| `ControllerStreams.ForgottenForGood` | packages/sdk/src/controller.ts:433-454 | A forgotten stream, live and referred to by nothing, neither ends nor hears anything again in any continuation |
| `ControllerStreams.ClosingEndsAll` | packages/sdk/src/controller.ts:266-269 | As long as the host acks no subscription under the stream id of another that is registered, no stream handed out is ever forgotten: once closed each has ended or ends with its unsubscribe |
| `ControllerStreams.ReuseForgets` | packages/sdk/src/controller.ts:230-233 | An ack under the id of a live registered stream that is not being unsubscribed: when the controller closes next, that stream is forgotten |
| `ControllerExamples.SomeStreamIsForgotten` | packages/sdk/src/controller.ts:223-235 | A run from a new controller that ends closed with a stream handed out and forgotten |
| `ControllerImpls.Controller.Receive` | packages/sdk/src/controller.ts:394-437 | The object handles each delivered frame, and the close that may follow |
| `ControllerImpls.Controller.HandleClose` | packages/sdk/src/controller.ts:439-454 | Rejects every pending call, ends every registered stream, forgets both |
| `ControllerImpls.Controller.HandleControl` | packages/sdk/src/controller.ts:399-431 | Hello-ack first; then responses by id, the stream registered before the call resolves |
| `ControllerImpls.Controller.SendRequest` | packages/sdk/src/controller.ts:359-392 | Gate, capability, closed, then pending and sent; a refused send is taken back |
| `ControllerImpls.Controller.Greet` | packages/sdk/src/controller.ts:280-327 | Hello goes out and the ack is awaited under a timer, or the handshake breaks |
| `OuterFraming.EncodedArrives` | packages/relay-core/src/outer-frame.ts:78-90 | What the encoder emits a framed peer reads back as that one message, never as an over-cap frame |
| `OuterLaws.EncodeLaw` | packages/relay-core/src/outer-frame.ts:78-94 | A message goes out exactly when it is at most 16 KiB, behind its big-endian length |
| `OuterLaws.FrameLaw` | packages/relay-core/src/outer-frame.ts:292-310 | A whole frame of at most 16 KiB that decodes is one message, and the handler's word on it decides what becomes of the bytes behind: the next frame, the first raw bytes, or, closed, still read; one that does not decode is one error and nothing behind it is read |
| `OuterLaws.WaitsLaw` | packages/relay-core/src/outer-frame.ts:124-135 | Short of a whole frame the bytes wait; a length over 16 KiB is one error |
| `OuterLaws.RawLaw` | packages/relay-core/src/outer-frame.ts:268-290 | Raw bytes go to the consumer, or wait up to 16 KiB in all; one more closes the connection with one error; closed, nothing |
| `OuterLaws.GoesRawLaw` | packages/relay-core/src/outer-frame.ts:245-259 | Going raw turns all that was buffered into raw bytes, once; a consumer gets all that waited, in order |
| `OuterFraming.ReceiveTwice` | packages/relay-core/src/outer-frame.ts:292-310 | Receiving two chunks in turn comes to receiving them as one, where the handler closes on the last message only; the first chunk may have ended it |
| `OuterConnections.OuterConnection.Close` | packages/relay-core/src/outer-frame.ts:262-266 | Closes, idempotently |
| `OuterConnections.OuterConnection.ParseOne` | packages/relay-core/src/outer-frame.ts:300-306 | One turn of the framed loop: stop, fail, or hand one message to the handler |
| `SecureChannels.SecureChannel.Start` | packages/channel/src/channel.ts:183-189 | The initiator writes its handshake message once, unless closed by then |
| `SecureChannels.SecureChannel.OpenRecord` | packages/channel/src/channel.ts:351-363 | One whole record consumed and opened in order, or a failure |
| `SecureChannels.SecureChannel.DrainRecords` | packages/channel/src/channel.ts:340-365 | Parses whole records until the bytes run short or one fails |
| `SecureChannels.SecureChannel.Install` | packages/channel/src/channel.ts:388-400 | Each direction gets its own key and nonce prefix |
| `Records.Sealer.constructor` | packages/channel/src/record.ts:103-106 | A sealer starts at counter 0 with its direction's prefix |
| `Records.Opener.constructor` | packages/channel/src/record.ts:137-140 | An opener starts at counter 0 with no previous tag |
| `ByteQueues.ByteQueue.Append` | packages/channel/src/byte-queue.ts:44-46 | A non-empty chunk is kept by reference at the end |
| `ByteQueues.ByteQueue.Reallocate` | packages/channel/src/byte-queue.ts:120-130 | A fresh accumulator holds the same content with as much slack again |
| `ByteQueues.ByteQueue.Release` | packages/channel/src/byte-queue.ts:87-92 | A drained queue lets go of its accumulator; otherwise the rest stays |
| `ByteQueues.Accumulate` | packages/channel/src/byte-queue.ts:57-62 | Folding bytes into the word stops at four |
| `Channels.ReceiveTwice` | packages/channel/src/channel.ts:330-364 | Receiving two chunks in turn comes to receiving them as one |
| `CellImpls.CellImpl.HandleConnection` | packages/relay-core/src/cell.ts:246-258 | A fresh unclassified connection, unless the cell is closed |
| `CellImpls.CellImpl.ClassifyConn` | packages/relay-core/src/cell.ts:283-304 | The first message decides the role; the object's step is the one whose refusals `CellLaws.MessageLaw` lists, a draining cell's of controllers among them |
| `CellImpls.CellImpl.DispatchOne` | packages/relay-core/src/cell.ts:261-280 | Each role's reaction to a message |
| `CellImpls.CellImpl.RegisterHost` | packages/relay-core/src/cell.ts:356-361 | The newest control connection replaces and closes the previous one |
| `CellImpls.CellImpl.OpenBridge` | packages/relay-core/src/cell.ts:397-409 | Used ticket, timer, pending bridge and conn-open, together |
| `CellImpls.CellImpl.RefuseConn` | packages/relay-core/src/cell.ts:493-497 | A coded close is sent before the connection is cleaned up and closed |
| `CellImpls.CellImpl.DetachConn` | packages/relay-core/src/cell.ts:510-513 | Cleans up and closes without a message |
| `CellImpls.CellImpl.OnLookupFailed` | packages/relay-core/src/cell.ts:286-292 | A lookup that throws fails its connection |
| `CellImpls.CellImpl.ReceiveRaw` | packages/relay-core/src/cell.ts:478-485 | An open raw connection's bytes go to the other end, unless that is closed |
| `Redis.MemoryRedis.LiveEntry` | apps/control-plane/src/redis.ts:72-80 | The live entry, evicting an expired one |
| `Redis.MemoryRedis.GetKey` | apps/control-plane/src/redis.ts:89-91 | The live value |
| `Redis.MemoryRedis.DelKey` | apps/control-plane/src/redis.ts:100-102 | Deletes whatever is there |
| `CliAuthSerial.RightCodeCounts` | apps/control-plane/src/services/cli-auth.ts:274-290 | A right code leaves the attempt counter alone |
| `PtyFrames.SetUint32` | protocol/src/pty-frame.ts:73-75 | Four little-endian bytes at an offset, and no others |
| `PtyEventStreams.PtyEventStream.OnEvent` | packages/sdk/src/events.ts:129-131 | A listener is registered once |
| `PtyEventStreams.PtyEventStream.Notify` | packages/sdk/src/events.ts:155 | Every listener is called once |
| `PtyEventStreams.PtyEventStream.Finish` | packages/sdk/src/events.ts:134-139 | Waiting calls are told the stream is done; idempotent |
| `PtyEventStreams.PtyEventStream.AppendChunk` | packages/sdk/src/events.ts:84-93 | A chunk joins the snapshot in progress, and too much of it fails the stream |
| `ControllerImpls.Controller.HandleHelloAck` | packages/sdk/src/controller.ts:341-357 | An ack is taken, anything else breaks the handshake; the timer stops |
| `ControllerImpls.Controller.HandleBinary` | packages/sdk/src/controller.ts:433-437 | A PTY frame goes to the stream registered under its id |
| `ControllerImpls.Controller.OnTimeout` | packages/sdk/src/controller.ts:312-318 | No ack in time breaks the handshake and closes the channel |
| `ControllerImpls.Controller.OnAck` | packages/sdk/src/controller.ts:328-337 | An incompatible host breaks the handshake |
| `ControllerImpls.Controller.Call` | packages/sdk/src/controller.ts:214-264 | A new call is gated, or rejected when closed; unsubscribing forgets the stream first |
| `ControllerImpls.Controller.EndUnsubscribed` | packages/sdk/src/controller.ts:256-263 | Once an unsubscribe has settled, whichever way, its stream ends |
| `ControllerImpls.Controller.RejectPending` | packages/sdk/src/controller.ts:449-450 | Every call in flight is rejected, and only those |
| `ControllerImpls.Controller.EndStreams` | packages/sdk/src/controller.ts:451-452 | Every registered stream ends, and only those |
| `ControllerImpls.Controller.Close` | packages/sdk/src/controller.ts:267-269 | Closing the channel closes the controller |

## Left out

- Tunnels.TunnelExact: the user of an adapter and the cell call back into nothing; two adapters that break the protocol are not covered, the cell alone against any messages is (`CellRuns.CellInvariant`).
- CellImpls.CellImpl.Receive: connections are records in a table keyed by connection number, not heap objects; a chunk comes as the messages the parser gets to and the bytes behind them, which `OuterConnections` parses out of the byte stream.
- SecureChannels.SecureChannel.Receive: delivered frames are logged; a frame handler that sends or closes from inside the delivery is not in this method but in `ChannelHandlers.ActingIsRun`, and an exception from it, which the source isolates from the channel, is not modelled.
- ControllerImpls.Controller.Receive: the channel is held as a value of the channel state machine, not as the object; an unsubscribe's stream ends in a step of its own.
- Records.Opener.Open: the counter is unbounded here; the source would lose precision beyond 2^53 received records.
- ChannelSafety.DeliveredIsPrefix: the AEAD is an ideal one; each move brings an AEAD of its own, restricted only under the kept keys, where `Unforgeable` is absolute and no concrete cipher is.
- PtyFrames.EncodeDecoded: sequence numbers from 2^53 on, where the source's arithmetic rounds.
- CliAuths.MintUserCode: user codes are normalised for ASCII letters only; what upper-casing does to other letters is not modelled.
- CliAuthTokens.SecondTokenExact: about worlds in which a grant has been taken; of earlier ones only the sufficient condition of `CliAuthTokens.OneTokenPerRequest` is stated.
- Tickets.IssueTicket: nothing else uses the store between two attempts; `Fleets` interleaves single attempts with everything else.
- Cryptographic primitives, random generation and zero-filling of secrets: foreign or without effect here.
- Host ids, tickets and cell ids are their UTF-8 bytes; strings with unpaired surrogates, which share an encoding, are not distinguished.
- Promise scheduling: a step runs to its end, `await` is the only point where others may come between.
- The in-memory duplex pair of the cell, writability and drain of transports, and the bridged-bytes tap.
- Sockets, HTTP routers, database queries, push and identity adapters: plumbing over libraries.
- The dashboard, the Swift app, CLI files, configuration: user interface and file access.
- The host runtime: its source is not part of this model.
- JSON text, schemas, base64, version and capability negotiation, loopback-URL and callback handling: each settled by reading one branch.

# Network core: a Dafny model

The repository tunnels Minecraft traffic between a host and a player over QUIC or over a WebSocket relay. This project
models the parts where many small steps have to add up to one promise, and proves the promises for every input, every
run, or every reachable state.

- **The relay's stream multiplexer** (`RelayModel`, `RelayInvariant`, `RelaySteps`, `RelayTheorems`, `RelayAnswers`,
  `RelayWitness`, `RelayTasks`, `FrameCodec`). One host session linked with one TCP client session, as a step system: an
  accept loop, a reader and a writer pump for each stream and side, a frame handler and a keepalive on each side,
  bounded queues, a FIFO wire each way, and WebSocket writers that may die at any moment. Sending OPEN and making the
  map entry are two steps, and so are sending CLOSE and dropping the entry; lookup plus queue push is one step because
  the map lock is held across the send. Wire messages are bytes; handlers decode those bytes. One inductive invariant
  (`RelayInvariant.Inv`) is kept by every step (`RelaySteps.StepKeeps`), and the theorems follow from it: byte integrity
  in both directions, the per-stream frame grammar, stream identity, that a stream ended by the other side loses
  nothing, that every OPEN and every control request is answered, and that ends are announced and heeded.
- **The ready signal** (`Readiness`): what host and client loops report over whole reconnecting runs, joined to the
  multiplexer: a client's success means the host of that session consumed its HELLO.
- **The two STUN parsers** (`Stun`): both loops refine one reading of RFC 5389, hence each other.
- **The manager** (`SessionSlot`, `RelayLedger`, `StatusBoard`): invariants over all interleavings of the session slot's
  operations, of the relay tables, and of the status updates; the operations themselves are class methods. Those on the
  slot are proved to be runs of its steps, those on the tables and the status to be the steps' functions.
- **Printers and parsers that undo each other**: VarInt and the Java handshake (`VarInt`), the RakNet pong
  (`RakNetPong`), the NetherNet envelope (`NetherNet`), the relay's frames (`FrameCodec`).
- **Port prediction** (`PortPrediction`): exactly which ports are listed and which a burst reaches.

Algorithms the source writes as loops are methods proved equal to specification functions; what those functions mean is
then proved as lemmas. The multiplexer's tasks interleave at every `await`, so the step system over them is a function
on values (`RelayModel.Next`); the pumps and the map updates of the handlers are also given in their own imperative form
in `RelayTasks`, where each pump loop is proved to take steps of the model and the handlers to be its step functions.
Exclusive-or is defined bit by bit on naturals (`Bytes.Xor`), shifts and masks are arithmetic, and words are truncated
explicitly where the source truncates.

## What turned out not to hold

- **The start of a stream can be missing at the client.** The client sends OPEN before it makes the map entry, so the
  host's first bytes can arrive in between and are dropped. `RelayWitness.FirstBytesCanBeLost` is such a run;
  `BaseIsWhatPassed` says exactly which bytes are missing (those consumed before the entry was made) and
  `HostToClientIntegrity` that nothing else ever is.
- **A refused stream can leave an entry at the client.** For the same reason ERROR and CLOSE can arrive before the entry
  is made; it is then made all the same, and nothing the host sends will take it away. `RelayWitness.RefusedEntryStays`
  is such a run. `RelayAnswers.HeardEndTakesEntry` says that this is the only way (an end consumed while the entry is
  known always takes it, for good) and `NothingAfterClose` that nothing more is heard.
- **Stream ids are unique only for 2^64 - 1 connections.** The counter wraps, and then id 0 is handed out; see
  `IdsWrapExactly`. The run theorems assume the counter has not wrapped (`s.next <= TWO64`).
- **A host's state does not follow its peers exactly.** Two runs end with a player connected and the status saying
  otherwise: after a disconnect of somebody else it reads `Hosting` (`StatusBoard.ConverseFails`), and after the start
  of another player's punch it reads `Punching` (`PunchPartsToo`). `AgreesExactly` gives, for every update, exactly when
  state and peers agree afterwards, and `AgreesThroughoutExactly` exactly which runs agree at every moment; the
  direction that is always kept is `StatusIsConsistent`.
- **Committing a session that was not prepared stops its tasks.** The error path of `commit_prepared_client_connect`
  puts the session back with its tasks aborted: `SessionSlot.CommitStopsAHost` is a run that leaves a live host session
  with nothing running, and `CommitStopsOtherSessions` says exactly when a commit does harm.
- **The fast burst does not cover the spread.** Of the ports within 100 it reaches those whose place in the list is
  below 150 (`BurstReaches`): all within 74, and away from the ends of the range none further but the one 75 above.
- **The NetherNet parser can panic.** `NetherNet.PanicsExactly` says on which datagrams: those of 48 bytes or more whose
  encrypted part is not a whole number of 16-byte blocks (`OddLengthPanics`), and authentic ones whose payload is too
  short for a packet id (`EmptyPayloadPanics`). All others are read or passed over.

## Model

| member | source | states |
|---|---|---|
| FrameCodec.DecodeEncode | src/wss_relay.rs:1174-1205 | every kind but the compressed one, every 64-bit id and every payload come back as they were sent |
| FrameCodec.DecodeEncodeData | src/wss_relay.rs:1182-1226 | compressed or not, a data frame decodes to (DATA, id, payload) and is never longer than 9 bytes plus the payload |
| FrameCodec.FrameBytes | src/wss_relay.rs:1174-1180 | the layout byte by byte: kind, then the id with its most significant byte first, then the payload |
| FrameCodec.CompressesExactly | src/wss_relay.rs:1209-1220 | a data frame is compressed if and only if the payload has 64 bytes or more, compression works and saves bytes |
| FrameCodec.DecodeIsExact | src/wss_relay.rs:1182-1205 | exactly which messages the decoder accepts, and that an uncompressed message is the encoding of what is read from it |
| RelayInvariant.ReaderStep | src/wss_relay.rs:1107-1138 | a reader pump step keeps: sent plus in hand is what was read from the socket, and the stream's frames are data then at most one CLOSE |
| RelayInvariant.WriterStep | src/wss_relay.rs:1141-1162 | a writer pump step keeps: written, being written and queued are a prefix of what was consumed for the stream, all of it while the entry is there |
| RelaySteps.HostConsumeKeeps | src/wss_relay.rs:328-563 | whatever frame the host handles next, the whole invariant still holds |
| RelaySteps.ClientConsumeKeeps | src/wss_relay.rs:803-862 | whatever frame the client handles next, the whole invariant still holds |
| RelaySteps.StepKeeps | src/wss_relay.rs:202-868 | every step of every task on either side keeps the invariant |
| RelaySteps.RunKeeps | src/wss_relay.rs:202-868 | the invariant holds after any run, under any interleaving, until the id counter wraps |
| RelayTheorems.ClientToHostIntegrity | src/wss_relay.rs:752-797 | what the host wrote, is writing and has queued for a stream is a prefix of what the client read; with an entry, adding handler, wire, queue and hand gives exactly what was read |
| RelayTheorems.HostToClientIntegrity | src/wss_relay.rs:824-831 | what the client hands to a stream's writer is one contiguous stretch of what the host read, starting after the bytes that passed before the entry existed |
| RelayTheorems.BaseIsWhatPassed | src/wss_relay.rs:772-780 | the missing start is exactly the payload consumed before the late map insert, and never changes afterwards; only that step makes client entries |
| RelayTheorems.HostEndLosesNothing | src/wss_relay.rs:1134-1162 | once the client's CLOSE ended a stream, everything the client read is written or queued at the host, and all written when its writer is done |
| RelayTheorems.ClientEndLosesNothing | src/wss_relay.rs:829-831 | the same at the client for a stream the host ended, after the missing start |
| RelayTheorems.WireGrammar | src/wss_relay.rs:344-465 | per stream the client sends a prefix of OPEN DATA* CLOSE, the host a prefix of DATA* CLOSE or of ERROR CLOSE, and nothing before it consumed the OPEN |
| RelayTheorems.OpenedStreamsAreAnswered | src/wss_relay.rs:344-463 | for every OPEN the host consumed: an entry, or work in hand, or exactly ERROR CLOSE sent unless its WebSocket writer died |
| RelayTheorems.EndsAreAnnounced | src/wss_relay.rs:1134-1137 | at either side a stream whose reader pump finished has no entry, and its CLOSE was sent last unless the WebSocket writer died |
| RelayTheorems.WriterStopsWhenDone | src/wss_relay.rs:1148-1161 | a writer pump that is neither cancelled nor failing stops only with its entry gone and everything written |
| RelayAnswers.AnswersKept | src/wss_relay.rs:328-563 | every step keeps: replies sent and in hand are what is owed for the messages consumed |
| RelayAnswers.RepliesMatchRequests | src/wss_relay.rs:339-343 | over any run READY answers each HELLO and a PONG with the same payload each PING, in order, none missing while the link lives and none unasked |
| RelayAnswers.ReadyIsWhatWasHeard | src/wss_relay.rs:816-823 | the client has `got_ready` if and only if it consumed a READY |
| RelayAnswers.RefusalCarriesReason | src/wss_relay.rs:453-460 | the ERROR sent for a failed connection carries its message |
| RelayAnswers.HeardEndTakesEntry | src/wss_relay.rs:829-831 | a CLOSE or ERROR consumed while the client knows the stream takes the entry, and no continuation brings it back |
| RelayAnswers.NothingAfterClose | src/wss_relay.rs:461-462 | once the client consumed a stream's CLOSE, no continuation lets it hear of that stream again |
| RelayTheorems.HostEntriesAreOpenStreams | src/wss_relay.rs:426-432 | a host entry has an allocated id whose OPEN was consumed and whose CLOSE was not |
| RelayTheorems.AcceptedIdIsFresh | src/wss_relay.rs:767-780 | the id given to an accepted connection has never been used by a frame, an entry or a task |
| RelayTheorems.ClosedIdStaysClosed | src/wss_relay.rs:534-536 | after the host consumed a stream's CLOSE no continuation of the run gives that id an entry again |
| RelayTheorems.StreamsNeverUseIdZero | src/wss_relay.rs:466-474 | id 0 carries control frames only and other ids stream frames only; the host's datagram branches are never entered |
| RelayTheorems.AcceptUsesIdAt | src/wss_relay.rs:702 | over any run the counter is one plus the number of accepted connections, and the next connection gets that number modulo 2^64 |
| RelayTheorems.IdsWrapExactly | src/wss_relay.rs:767 | the first n ids are distinct if and only if n is at most 2^64, and avoid 0 if and only if n is less |
| RelayTheorems.NoDecodeErrorsAndBoundedQueues | src/wss_relay.rs:336 | no message either side sends makes the other's decoder fail, and no queue outgrows its bound |
| RelayTheorems.ReadyAfterHello | src/wss_relay.rs:339-343 | a client that saw READY is linked with a host that consumed its HELLO |
| RelayWitness.FirstBytesCanBeLost | src/wss_relay.rs:772-780 | a complete run in which the host reads a byte that never reaches the client's socket |
| RelayWitness.RefusedEntryStays | src/wss_relay.rs:772-780 | a complete run after which the client holds an entry whose end it consumed before making it |
| RelayTasks.PumpReaderToWs | src/wss_relay.rs:1107-1138 | the loop sends DATA* CLOSE carrying exactly the bytes read before the first stop; a failed send loses only the chunk in hand; and the whole loop is a run of the model's reader pump steps to their end |
| RelayTasks.PumpChannelToWriter | src/wss_relay.rs:1141-1162 | what reaches the socket is a prefix of the queued bytes, and all of them when no write fails; and the whole loop is a run of the model's writer pump steps to their end |
| RelayTasks.Endpoint.HandleHostFrame | src/wss_relay.rs:336-560 | the handler's effect on map and task state is the model's host step |
| RelayTasks.Endpoint.Push | src/wss_relay.rs:528-532 | lookup and push is the model's push: dropped without a receiver, blocked on a full queue, appended otherwise |
| RelayTasks.Endpoint.HandleClientFrame | src/wss_relay.rs:815-854 | the handler's effect on map and task state is the model's client step |
| Readiness.HostLoop | src/wss_relay.rs:161-200 | over a whole run the host loop sends at most one verdict: success if and only if the first session was registered, failure if and only if it was neither registered nor cancelled |
| Readiness.ClientLoop | src/wss_relay.rs:602-646 | over a whole run the TCP or UDP client loop sends at most one verdict, success or failure each if and only if some session decides for it after undecided ones; after success the host of that session had consumed its HELLO |
| Readiness.ClientSession | src/wss_relay.rs:648-868 | one session reports success exactly when it gets READY and fails exactly on the listed errors |
| Readiness.ReadyArrives | src/wss_relay.rs:803-823 | READY counts if and only if it comes before anything that stops the read loop |
| Readiness.ClientVerdictMeaning | src/wss_relay.rs:609-645 | at most one verdict; success if and only if some session, after undecided ones only, was linked, sent HELLO, bound its listener and got READY |
| Readiness.FailureMeaning | src/wss_relay.rs:627-641 | the verdict is failure if and only if some uncancelled session, after undecided ones only, got no READY and was not set up to the end or met a broken event |
| Readiness.LoopBreaksExactly | src/wss_relay.rs:803-814 | the read loop ends in an error if and only if a read error or undecodable message comes before anything else that stops it |
| Readiness.DecidedMeans | src/wss_relay.rs:655-745 | what a session that decides for success went through, named one by one |
| Readiness.GetsReadyMeansHelloHeard | src/wss_relay.rs:339-343 | if a session's messages come from any run of the multiplexer, READY received means the host consumed that session's HELLO |
| Readiness.UpMeansHelloHeard | src/wss_relay.rs:609-645 | success over a reconnecting run means one session was linked, bound its listener, sent HELLO, had it consumed by the host, then got READY |
| Stun.ScanPayload | src/signaling.rs:110-138 | the attribute loop returns the first address in the standard's list of attributes; indices stay in bounds and the offset grows by at least 4 |
| Stun.ParseStunBindingResponse | src/signaling.rs:98-138 | the first parser is the standard's reading of the whole message; which messages it refuses and why, as equivalences on their bytes; an address only from an answer to the transaction |
| Stun.ParseXorMappedAddress | src/signaling.rs:140-154 | byte-wise decoding gives the address of an XOR-MAPPED-ADDRESS value of any length |
| Stun.ParseMappedAddress | src/signaling.rs:156-164 | gives the address of a MAPPED-ADDRESS value of any length |
| Stun.ReadAttribute | src/stun.rs:84-119 | word-wise decoding inside the receive buffer gives the same address |
| Stun.ScanBuffer | src/stun.rs:78-124 | the second loop returns the first address among the attributes up to the cut |
| Stun.StunBindingResponse | src/stun.rs:61-125 | the second parser is the standard's reading of the message cut at the length its header gives, and refuses on the same equivalences |
| Stun.ResponseRefuses | src/signaling.rs:99-108 | too short, wrong type and wrong transaction, each if and only if the bytes say so |
| Stun.BuildStunBindingRequest | src/signaling.rs:89-96 | the twenty bytes of the request |
| Stun.BothParsers | src/stun.rs:61-125 | for every receive buffer and transaction both parsers agree, the first one on the cut message |
| Stun.PaddingFormulasAgree | src/signaling.rs:132-134 | from an aligned offset the two padding formulas give the same aligned offset |
| Stun.WordXorIsByteXor | src/stun.rs:93-102 | word-wise and byte-wise exclusive-or agree on octet strings of any length |
| Stun.AttributesOfEncoding | src/signaling.rs:110-135 | reading back any encoded attribute list gives that list |
| Stun.ResponseOfEncoding | src/signaling.rs:98-138 | on an encoded response both parsers return what the attribute list says, and the second ignores whatever follows it |
| Stun.FirstAddressIsFirst | src/signaling.rs:120-138 | the result is the address of the first attribute carrying one, and an error if and only if none does |
| Stun.AddressRoundTrip | src/signaling.rs:140-164 | decoding inverts both address encodings for every port and IPv4 address |
| Stun.AddressExactly | src/signaling.rs:140-164 | an attribute carries an address if and only if its first eight bytes are one of the two encodings of that address |
| SessionSlot.RunKeeps | src/manager.rs:274-496 | the slot invariant holds after any interleaving of operations and outside resets |
| SessionSlot.EveryTokenHeldOrCancelled | src/manager.rs:1818-1862 | the live tokens are exactly the held one, and the running tasks exactly the held session's |
| SessionSlot.NoLiveSessionIsOverwritten | src/manager.rs:420-424 | a step that installs a session finds no live one and leaves exactly the new one live |
| SessionSlot.ConnectLeavesHostAlone | src/manager.rs:340-345 | no step of a connect ends or changes a hosted session |
| SessionSlot.CommitStopsOtherSessions | src/manager.rs:435-484 | what a commit does to any held session, and exactly when it leaves it without its tasks |
| SessionSlot.CommitStopsAHost | src/manager.rs:447-457 | a run after which a host session is held and live with every task of it aborted |
| SessionSlot.StepKeeps | src/manager.rs:274-496 | every step of every operation, and a reset at any point, keeps the slot invariant |
| SessionSlot.Manager.ResetSession | src/manager.rs:1818-1862 | from any slot, locked or not: one reset step of the model, after which no token is live and no task runs |
| SessionSlot.Manager.StartHosting | src/manager.rs:274-313 | a run of model steps that keeps the invariant; exactly one session, a host under an unused token, lives on success, none after a failed start, and bad arguments change nothing |
| SessionSlot.Manager.StopHosting | src/manager.rs:315-320 | a run of model steps that keeps the invariant, after which nothing lives |
| SessionSlot.Manager.ConnectToPeer | src/manager.rs:322-356 | a run of model steps that keeps the invariant; a held host session is untouched, otherwise exactly one new client session lives on success and none after a failure |
| SessionSlot.Manager.PrepareClientConnect | src/manager.rs:358-427 | a run of model steps that keeps the invariant; exactly one prepared session under an unused token lives on success, none after a failure |
| SessionSlot.Manager.CommitPreparedClientConnect | src/manager.rs:429-496 | a run of model steps that keeps the invariant and the live token; a prepared session becomes a client with a task running, in every other case nothing runs |
| RelayLedger.StepKeeps | src/manager.rs:1643-1655 | every step on the tables keeps the ledger: each runtime at exactly one stage, with matching counts |
| RelayLedger.RunKeeps | src/manager.rs:1643-1702 | the ledger holds after any interleaving |
| RelayLedger.EveryRuntimeAccountedFor | src/manager.rs:1833-1837 | an inserted runtime is the sole current entry of its peer and untouched, or left; never cancelled or aborted twice, and both once when nobody holds it half-way |
| RelayLedger.RelayTable.InsertOrReplace | src/manager.rs:1643-1655 | the new runtime is the peer's entry and exactly the replaced one is cancelled and aborted |
| RelayLedger.RelayTable.CancelForPeer | src/manager.rs:1689-1703 | removes exactly the peer's entry if there is one and accounts for it |
| RelayLedger.RelayTable.Drain | src/manager.rs:1833-1837 | no entry of the session's table is left and no other table is touched |
| StatusBoard.ApplyKeeps | src/manager.rs:2040-2119 | every update keeps the count right, the ids distinct and a connected host with a connected peer |
| StatusBoard.RunKeeps | src/manager.rs:2040-2147 | the same after any sequence of updates from the initial status |
| StatusBoard.StatusIsConsistent | src/manager.rs:2044-2051 | in any status read, the count is that of connected peers, ids are distinct, and a host shown connected has a positive count |
| StatusBoard.DisconnectAgreesExactly | src/manager.rs:2107-2119 | a disconnect leaves a host's state in agreement with its peers if and only if no other peer was connected |
| StatusBoard.AgreesExactly | src/manager.rs:2040-2147 | for every update and every consistent status, exactly when a host's state agrees with its peers afterwards |
| StatusBoard.AgreesThroughoutExactly | src/manager.rs:2040-2147 | a run keeps state and peers in agreement at every moment if and only if no disconnect, punch start or late client step comes while another peer is connected |
| StatusBoard.UpsertMeans | src/manager.rs:2063-2096 | after an upsert the peer is listed once with the values given or kept, the others are unchanged and in order, and a host is connected if and only if that peer or another is |
| StatusBoard.PingMeans | src/manager.rs:2098-2105 | only that peer's ping changes |
| StatusBoard.DisconnectMeans | src/manager.rs:2107-2119 | only that peer's connection changes, and a host goes back to hosting |
| StatusBoard.TimeoutMeans | src/manager.rs:901-914 | only an unconnected entry of that peer goes, and the count stays |
| StatusBoard.ConverseFails | src/manager.rs:2113-2116 | a run after which the host shows Hosting with one player connected |
| StatusBoard.PunchPartsToo | src/manager.rs:853-859 | a run without any disconnect after which the host shows Punching with one player connected |
| StatusBoard.Board.Recount | src/manager.rs:2044-2051 | the count becomes the number of connected peers and nothing else changes |
| StatusBoard.Board.UpsertPeer | src/manager.rs:2063-2096 | search, update or push, and recount leave a consistent record with that peer upserted and nobody else touched |
| StatusBoard.Board.UpdatePeerPing | src/manager.rs:2098-2105 | leaves a consistent record in which only that peer's ping changed |
| StatusBoard.Board.MarkPeerDisconnected | src/manager.rs:2107-2119 | leaves a consistent record in which only that peer became unconnected |
| StatusBoard.Board.PunchTimeout | src/manager.rs:901-914 | leaves a consistent record without the unconnected entry of that peer, if it had one, and otherwise unchanged |
| StatusBoard.Board.MarkFatal | src/manager.rs:2130-2148 | whatever the record held, it is consistent after a fatal error: state Error, the mode given, nobody listed |
| VarInt.WriteVarint | src/minecraft.rs:1252-1263 | the loop appends the VarInt of a non-negative value and refuses a negative one |
| VarInt.ReadVarint | src/minecraft.rs:1265-1283 | on any bytes: which of the two errors and when, as equivalences, else the value of the bytes up to the first that announces none; at most five bytes taken |
| VarInt.VarIntRoundTrip | src/minecraft.rs:1252-1283 | reading a written value below 2^31 gives it back in one to five bytes and leaves whatever follows |
| VarInt.VarIntIsMinimal | src/minecraft.rs:1254-1262 | no byte string with the same value is shorter |
| VarInt.VarIntBytes | src/minecraft.rs:1254-1262 | byte by byte: groups of seven bits from the low end, all but the last announcing another |
| VarInt.BuildHandshakePacket | src/minecraft.rs:1237-1250 | the builder gives the framed packet, or an error on a negative version or length |
| VarInt.HandshakeRoundTrip | src/minecraft.rs:1237-1250 | the framed packet reads back to exactly the version, host and port, its prefix being the body's length |
| VarInt.HandshakeBytes | src/minecraft.rs:1237-1250 | the packet byte by byte: length, id 0, version, host with its length, port with its high byte first, next state 1 |
| VarInt.RefusesExactly | src/minecraft.rs:1252-1253 | a handshake is refused if and only if the version is negative, as long as the lengths fit |
| RakNetPong.Answer | src/bedrock_broadcaster.rs:51-77 | which datagrams are answered, and the pong byte by byte: echoed time, server id, magic, text length, text |
| RakNetPong.SplitJoin | src/discovery.rs:18-19 | splitting undoes joining when no field holds the separator |
| RakNetPong.ParseDecimal | src/discovery.rs:21-37 | parsing a printed number gives it back exactly when it fits the type |
| RakNetPong.PlayersOfDecimals | src/bedrock_broadcaster.rs:37-42 | a slots text of two numbers splits into those two |
| RakNetPong.PlayersExactly | src/bedrock_broadcaster.rs:37-42 | exactly one slash gives two counts, any other number gives 0 and 30 |
| RakNetPong.MotdFields | src/bedrock_broadcaster.rs:66-69 | the advertisement is its thirteen fields between semicolons |
| RakNetPong.JoinSplit | src/discovery.rs:18-19 | every text is its pieces joined, and no piece holds the separator |
| RakNetPong.ParsesExactly | src/discovery.rs:16-44 | any datagram: when it is taken for a pong, and what is read from six, eight or eleven fields, with the default port otherwise |
| RakNetPong.ProbesExactly | src/minecraft.rs:90-111 | any datagram: when the probe accepts it, and what it reads up to the length field |
| RakNetPong.PongRoundTrip | src/discovery.rs:16-44 | both readers recover room, host or room, version, counts and port from a pong received whole |
| RakNetPong.CountsRoundTrip | src/minecraft.rs:90-111 | the counts read are the counts advertised |
| NetherNet.TransformInPlace | src/broadcaster.rs:145-147 | the in-place chunk loop maps every 16-byte block of the old contents |
| NetherNet.BlocksInvert | src/discovery.rs:177-180 | decrypting block by block undoes encrypting block by block |
| NetherNet.BuildResponsePacket | src/broadcaster.rs:119-153 | the datagram is the MAC over the payload and the encrypted padded payload |
| NetherNet.ReadsExactly | src/discovery.rs:192-201 | an authenticated payload yields data if and only if it is a packet of id 1 in the builder's layout whose text is hexadecimal for that data |
| NetherNet.ParsePayload | src/discovery.rs:192-201 | the nested checks return data exactly for such payloads, and panic exactly on those shorter than four bytes |
| NetherNet.PanicsExactly | src/discovery.rs:170-192 | on which datagrams the parser panics, for any bytes and any sound key |
| NetherNet.OddLengthPanics | src/discovery.rs:177-180 | a datagram of 49 bytes panics, whatever its bytes |
| NetherNet.EmptyPayloadPanics | src/discovery.rs:182-192 | an authentic datagram of whole blocks with an empty payload panics |
| NetherNet.GotExactly | src/discovery.rs:170-201 | for any bytes, data is obtained if and only if the datagram is of whole blocks, its MAC is good for the payload inside, and that payload carries the data |
| NetherNet.ParseResponse | src/discovery.rs:170-201 | decryption in place and the nested checks obtain data exactly from authentic datagrams carrying it, and panic or pass over as specified |
| NetherNet.HexRoundTrip | src/broadcaster.rs:119 | hexadecimal decoding undoes encoding |
| NetherNet.HexExactly | src/discovery.rs:201 | decoding accepts exactly two digits of either case for each byte, and reads those bytes |
| NetherNet.PayloadBytes | src/broadcaster.rs:121-133 | the payload field by field: lengths, id 1, sender id, zeros, text length, text |
| NetherNet.DatagramParts | src/broadcaster.rs:135-151 | a built datagram decrypts to its payload and padding and starts with the payload's MAC |
| NetherNet.EnvelopeRoundTrip | src/discovery.rs:176-201 | the parser isolates exactly the authenticated payload and recovers the server data byte for byte |
| PortPrediction.BuildTargets | src/signaling.rs:176-189 | the loop builds the specified target list |
| PortPrediction.TargetsExactly | src/signaling.rs:176-189 | for every base and spread, the list's length and the place of every port in it |
| PortPrediction.TargetListIsComplete | src/signaling.rs:176-189 | base first, no port twice, and exactly the valid ports within 100 |
| PortPrediction.Burst | src/signaling.rs:192-207 | a burst sends, round by round, what the specification lists, up to cancellation |
| PortPrediction.BurstReaches | src/signaling.rs:192-207 | a burst reaches a port if and only if it is the base or its place comes up within the rounds |
| PortPrediction.BurstCounts | src/signaling.rs:192-207 | the base gets a packet in every round, each predicted port one in each round that is its turn |
| PortPrediction.FastBurstCoverage | src/signaling.rs:192-207 | an uncancelled fast burst reaches every valid port within 74 of any base |
| PortPrediction.FastBurstReach | src/signaling.rs:192-207 | away from the ends it reaches those and the port 75 above, nothing else |

## Left out

- Progress of the multiplexer: only safety is proved. The map lock is held across a bounded send, and a failed writer
  needs that lock before it drops its receiver, so the code does not promise progress.
- Streams across reconnects: one client session is linked with one host session. Ids restart with each client session
  while the host's map belongs to the host session.
- The relay server: each linked direction is taken to be FIFO and lossless. WebSocket-level ping and pong messages are
  not in the queues, and round-trip times are not computed.
- The datagram side of the relay (streams opened with payload 1, and stream 0): with a TCP client it is never entered
  (`StreamsNeverUseIdZero`), and it is not followed further. `Readiness` does cover the UDP client's ready signal.
- RelayTasks.Endpoint.HandleHostFrame: stops at the first wait that is not on the map; connecting, refusing and replying
  are further steps of the model.
- RelayTasks.PumpChannelToWriter: the buffers are all queued beforehand; a queue that fills while the pump runs is in
  the step system only.
- RelayTasks.PumpReaderToWs: the WebSocket writer keeps up until it dies; waiting for room is in the step system only.
- RelayTasks.Endpoint.HandleClientFrame: stops before a pong is sent, which is the model's `Reply` step.
- zstd, AES and HMAC-SHA256 are parameters; only losslessness, block invertibility and lengths are used. Lossy UTF-8
  decoding is a parameter, required to leave the advertisement text alone in `PongRoundTrip`.
- NetherNet key derivation (the two sides derive different keys) and the fields inside the server data (the builder
  writes one-byte lengths, the parser reads two-byte ones): the key is a parameter and the model stops at the envelope.
- VarInt.HandshakeRoundTrip: for bodies whose length is an `i32`, the source's own limit; longer ones wrap, as
  `HandshakePacket` says.
- Stun.ResponseOfEncoding: the four cookie bytes are arbitrary because neither parser checks them. IPv6 families and
  other attributes yield no address, as in the code.
- SessionSlot.Manager.StartHosting: whether the start gets to its end is a parameter; sockets, certificates and lobby
  calls behind it are not part of this model. A reset from outside may come between any two steps in `SessionSlot.Run`,
  not inside these methods.
- Status fields other than mode, state, peers and their count; logs and notes; `live_connections`, `expected_peers` and
  the e4mc runtime, which no stated property depends on.
- "A direct connection excludes the relay" and "no relay is left after a failed bootstrap": delayed starts and dropped
  handles mean the code does not promise them.
- Sockets, QUIC, TLS, UPnP, lobby HTTP, port scanning, launcher files and the event shim.

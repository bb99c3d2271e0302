# Verification of the Hogrin client core

This project models the client side of the Hogrin messenger and proves properties of the model with
Dafny 4.11. `dafny verify dfyconfig.toml` checks it.

The client is a set of cooperating state machines joined by layers of encoding:

| file | what it models |
|---|---|
| `Bytes.dfy`, `DataStream.dfy`, `Protocol.dfy` | byte order, hex, the QDataStream packets and payloads, the server's line protocol |
| `TcpConnection.dfy`, `Keepalive.dfy` | length-prefixed framing over a stream split anywhere; the ping timer |
| `Platform.dfy`, `PlatformModel.dfy`, `Crypto.dfy` | the laws assumed of libsodium and UTF-8, a model of them, key agreement and encryption |
| `Bootstrap.dfy` | one command queue over two transports, with fallback, reconnection and zombie detection |
| `LocalDb.dfy`, `Network.dfy` | the message and outbox tables; peer connections and handshakes |
| `Core.dfy`, `MessengerCore.dfy` | the reactions of the messenger core as functions of its state, and the core as an object proved against them |
| `MailMoves.dfy`, `MailInvariants.dfy` | the moves of the mail state (tables, outbox, transport log, acknowledgements), relations closed under them, and the mail invariants as such a relation |
| `CoreInvariants.dfy`, `CoreRuns.dfy` | every reaction stays within every closed relation; whole runs |
| `Buffering.dfy`, `Guarantees.dfy` | early blobs; what the invariants say of every reachable state, and where guarantees stop |
| `Replies.dfy` | what replies to STOREs do over whole runs, exactly |
| `KeyRuns.dfy` | keys over whole runs, and exactly which events break their agreement |
| `Clients.dfy` | core and bootstrap client together |
| `EndToEnd.dfy`, `Meeting.dfy` | delivery and receipts between two clients, from login to a first message |
| `Shortfalls.dfy`, `Disconnections.dfy`, `Misattribution.dfy` | runs from login in which the code does less than it seems to promise |

Sockets, timers and server replies are events. Connections are never-reused numbers. Each object of the
source is a class with its fields, and every method is proved to move the state as a function of the old
state says; the lemmas are about those functions. `Messenger.Valid` ties the two halves of the client
together, and its methods keep it: the commands its bootstrap client was given are those the core's transport
log records, and they go out once and in order (`HandedOverIsSent`). `Clients.dfy` says the same of every run
of both halves together.

Some fields only record history, so that whole runs can be spoken of: the transport log `out` with the
origin of each entry, `trace`, `lookups`, `heard`, `claims`, `owners`,
arrival numbers, and `enqueued`. No reaction reads them.

## Assumptions

- Key exchange: the server's session keys are the client's with the directions exchanged (`KxLaw`).
- Secretbox: a box is 16 bytes longer than its message and opens under its nonce and key (`BoxLaw`).
- UTF-8: well-formed text survives, an ASCII tail stays as it is, no '|' appears or disappears (`Utf8Law`).
- QDataStream as Qt documents its format: big-endian, UTF-16 strings behind a 32-bit byte count, a
  QDateTime as Julian day, millisecond of the day and time spec; a short read yields the default value.
- QByteArray: `left` and `remove` with a negative count take nothing. `QWebSocket::open` on an open
  socket discards its connection and starts a new one. An abort reports a disconnection only when there
  was something to disconnect.
- The bootstrap server, which is not part of this repository, answers STOREs and FINDs in order, each at most once,
  and returns blobs verbatim (`Enabled`). A STORE or FIND may be lost with its connection (`StoreLost`,
  `LookupLost`); then the next answer is for the one after it. A found peer is reported under the nickname asked about last,
  as the code does; `Clients.LineReportsLast` proves that half of `Enabled` of the two halves together.
- Nothing is assumed about which keys lookups and relayed envelopes bring. `Meeting.dfy` takes as hypothesis that
  no event keys a session with another nickname's key (`MistakenSomewhere`), the exact condition of
  `KeyRuns.RunKeepsKeysExactly`; that different public keys never agree on the same session keys (`KxDistinct`)
  is assumed only where agreement is shown to break.
- The clock does not run backwards (`InTime`).
- `PlatformModel.LawsHaveAModel` shows the laws assumed of the libraries to be consistent.

## Where the code does less than it seems to promise

Each is shown by a run or an input; where the code does meet the property, the exact condition is named.

- A lookup is reported for the latest nickname asked, not for the one it answers (`MissReportedOfSecond`, exact
  condition `LookupAttribution`). So with two lookups out a session is agreed under the wrong key
  (`OverlapMiskeys`, `OverlapOnTheWire`), as it is under whatever key a relayed envelope names for an unknown
  sender (`RelayMiskeys`); exact condition `RunKeepsKeysExactly`.
- The WebSocket flag can be set while the WebSocket is only connecting (`FallbackReopensLiveWebSocket`);
  exactly the fallback timer firing under a WebSocket in use breaks the transport invariant (`RunIsSafe`).
- With the WebSocket up but unused, TCP down and neither fallback nor reset due, commands are never sent
  (`StrandedIsReached`, exact condition `StrandedExactly`).
- A dial that times out for a peer without a key deletes that peer's queued packets (`DialLosesQueuedMessage`,
  exact condition `LossOnlyWithoutKey`).
- The reply to an untagged STORE settles another message's id (`EarlyReplyMarksWrong`), and so does every reply
  after the STORE of a message was lost with its connection (`LostStoreOnTheWire`, `LostStoreShiftsReply`);
  exact conditions `AckSettlesOwnId` and `RepliesSettleOwn`.
- A late acknowledgement rewrites the status of a read message (`LateReplyHidesRead`, exact condition `ReadIsShown`).
- A message is marked Sent while the only connection is still being dialled (`SentWhileDialling`), or is another
  peer's (`SentToTheWrongPeer`); exact conditions for both `DirectSendReachesWire`.
- The name inside a packet is trusted over its envelope's, so one peer's receipt marks messages to another read
  (`OtherPeerMarksRead`, exact condition `HandledUnderEnvelope`).
- Packets flushed to a newly authenticated peer have no `nick|` envelope (`QueuedMessageStuck`, exact fate
  `FlushedFate`).
- README.md of the repository gives the P2P payload as a serialised packet; the code sends `nick|` and the
  ciphertext, and the model follows the code.

## Model

| member | source | states |
|---|---|---|
| `TcpConnection.Parse` | src/network/src/tcp_connection.cpp:55-83 | a connection waits either without a header and with fewer than 4 bytes, or for a positive size with fewer bytes than that |
| `TcpConnection.ParseConserves` | src/network/src/tcp_connection.cpp:55-83 | the bytes received are exactly the headers and payloads of the frames cut from them, in order, followed by the bytes still held; for every header value, negative ones included |
| `TcpConnection.ParseAppend` | src/network/src/tcp_connection.cpp:55-83 | parsing a longer stream yields the frames of its prefix, then those of what the prefix left unread |
| `TcpConnection.DrainIsParse` | src/network/src/tcp_connection.cpp:60-82 | the incremental loop agrees with the whole-stream parser on the unread bytes, including zero and negative headers |
| `TcpConnection.ChunkingIndependence` | src/network/src/tcp_connection.cpp:55-83 | for every stream and every split into reads, the emitted messages, leftover buffer and expected size are those of parsing the whole stream once |
| `TcpConnection.FramingRoundTrip` | src/network/src/tcp_connection.cpp:30-83 | any interleaving of pings and messages below 2^31 bytes parses to exactly the non-empty messages in order, leaving nothing buffered |
| `TcpConnection.FramingOverChunks` | src/network/src/tcp_connection.cpp:30-83 | the same for every way TCP may split those frames |
| `TcpConnection.Connection.constructor` | src/network/src/tcp_connection.cpp:4-18 | a fresh connection has received nothing and counts as active now |
| `TcpConnection.Connection.OnReadyRead` | src/network/src/tcp_connection.cpp:55-83 | after every read the state is that of parsing all bytes ever received; every iteration that goes on shrinks the buffer |
| `TcpConnection.Connection.SendMessage` | src/network/src/tcp_connection.cpp:40-53 | an open socket gets one frame, a closed one nothing |
| `TcpConnection.Connection.CheckPing` | src/network/src/tcp_connection.cpp:20-38 | a tick closes a connection silent for more than 8000 ms and pings an open one |
| `Keepalive.CloseWindow` | src/network/src/tcp_connection.cpp:11-28 | over every run of arrivals and 2000 ms ticks at any phase, a close happens more than 8000 and at most 10000 ms after the last activity, and a line silent that long is closed |
| `Keepalive.LivelyStaysOpen` | src/network/src/tcp_connection.cpp:20-28 | a connection whose gaps never exceed 8000 ms is never closed by the timer, over every run |
| `Bytes.BigEndianRoundTrip` | src/network/src/tcp_connection.cpp:44-48 | big-endian numbers read back |
| `Bytes.HexRoundTrip` | src/network/src/bootstrap_client.cpp:280-287 | hex decoding undoes hex encoding for every byte array |
| `DataStream.PacketRoundTrip` | src/core/src/messenger_core.cpp:240-265 | deserialising undoes serialising: type, millisecond timestamp and data survive |
| `DataStream.ChatRoundTrip` | src/core/src/messenger_core.cpp:307-317 | the chat decoder recovers all five fields the encoder wrote, whatever sender hint the envelope gives |
| `DataStream.ChatWithoutReply` | src/core/src/messenger_core.cpp:310-317 | a payload without the optional tail yields reply id -1 and empty reply texts, and an empty sender yields the hint |
| `DataStream.ReceiptRoundTrip` | src/core/src/messenger_core.cpp:332-343 | the receipt decoder recovers sender and timestamp |
| `DataStream.ReadsNullString` | src/core/src/messenger_core.cpp:310-314 | the marker of a null string reads as the empty string |
| `Protocol.StoreLineRoundTrip` | src/network/src/bootstrap_client.cpp:280-287 | a STORE line splits at its colons into the peer and the hex of the very blob |
| `Protocol.BranchesExclusive` | src/network/src/bootstrap_client.cpp:192-242 | no reply matches two branches |
| `Protocol.ParseIsOrderFree` | src/network/src/bootstrap_client.cpp:188-243 | whichever branch a reply matches decides the signal, so the order of the tests does not matter |
| `Protocol.ParsePrefixed` | src/network/src/bootstrap_client.cpp:188-243 | every prefix hands its branch exactly the rest of the line |
| `Protocol.ParseMessage` | src/network/src/bootstrap_client.cpp:235-239 | a relayed blob is reported verbatim, and an empty one not at all |
| `Protocol.ParseFound` | src/network/src/bootstrap_client.cpp:213-221 | a found peer is reported with its exact host, port and key, under the nickname remembered last |
| `Crypto.LessTotal` | src/crypto/src/crypto_manager.cpp:32-38 | key comparison is asymmetric and total on distinct keys |
| `Crypto.LessTransitive` | src/crypto/src/crypto_manager.cpp:32-38 | key comparison is transitive |
| `Crypto.RolesCross` | src/crypto/src/crypto_manager.cpp:32-44 | of two distinct identities exactly one is the server, and each side's sending key is the other's receiving key |
| `Crypto.KeyAgreement` | src/crypto/src/crypto_manager.cpp:20-54 | whatever the runs of set_identity and compute_shared_secret on both sides, in any order, once each identity is set or was there from the start: if both end ready their keys cross |
| `Crypto.DecryptUndoesEncrypt` | src/crypto/src/crypto_manager.cpp:56-118 | linked sessions decrypt each other's messages, empty ones included; a ciphertext is 24+16 bytes longer |
| `Crypto.SameKeyHasNoServer` | src/crypto/src/crypto_manager.cpp:38-44 | with equal public keys both sides take the client role |
| `Crypto.CryptoManager.constructor` | src/crypto/src/crypto_manager.cpp:5-12 | a new manager has no shared secret |
| `Crypto.CryptoManager.ComputeSharedSecret` | src/crypto/src/crypto_manager.cpp:20-54 | an agreed secret is kept; otherwise the role by key order decides, and failure leaves the manager without a secret |
| `Crypto.CryptoManager.SetIdentity` | src/crypto/src/crypto_manager.cpp:152-157 | takes over the identity and forgets the secret |
| `Crypto.CryptoManager.LoadKeypair` | src/crypto/src/crypto_manager.cpp:165-174 | full-sized keys replace the identity, others change nothing |
| `Bootstrap.RunConserves` | src/network/src/bootstrap_client.cpp:146-184 | over every run of submissions, connects, drops, fallbacks and resets: commands submitted = commands sent, across both transports and in order, followed by the queue |
| `Bootstrap.SafeStep` | src/network/src/bootstrap_client.cpp:21-71 | one step keeps `the flag implies a connected WebSocket, and a live transport leaves no command waiting unless a reset is due` exactly when it is not the fallback timer firing under a WebSocket in use |
| `Bootstrap.RunIsSafe` | src/network/src/bootstrap_client.cpp:103-184 | a run is safe in all its states if and only if that never happens in it |
| `Bootstrap.FallbackReopensLiveWebSocket` | src/network/src/bootstrap_client.cpp:65-71 | such a run exists from the start: the flag stays set while the WebSocket is only connecting |
| `Bootstrap.StrandedForever` | src/network/src/bootstrap_client.cpp:103-108 | with the WebSocket up, its flag clear and TCP down, no run without a WebSocket drop or a network change ever sends another command |
| `Bootstrap.StrandedExactly` | src/network/src/bootstrap_client.cpp:103-108 | a client can send nothing more, over every run without a WebSocket drop or a network change, if and only if the WebSocket is up but unused, TCP is down, and neither the fallback timer nor a reset is due |
| `Bootstrap.UnstrandedCanSend` | src/network/src/bootstrap_client.cpp:103-184 | from every other state some such run sends a command |
| `Bootstrap.StrandedIsReached` | src/network/src/bootstrap_client.cpp:21-30 | that state is reachable: TCP comes up after the WebSocket and then drops |
| `Bootstrap.RunRemembers` | src/network/src/bootstrap_client.cpp:271-275 | in every reachable state the remembered nickname is the one looked up last |
| `Bootstrap.LookupAttribution` | src/network/src/bootstrap_client.cpp:213-224 | with replies in order, a lookup is reported for the nickname asked exactly when that is the latest one asked, hence always while unanswered lookups share a nickname |
| `Bootstrap.MissReportedOfSecond` | src/network/src/bootstrap_client.cpp:222-224 | two lookups out: that the first nickname is unknown is reported of the second |
| `Bootstrap.BootstrapClient.constructor` | src/network/src/bootstrap_client.cpp:3-12 | starts unconnected with nothing queued |
| `Bootstrap.BootstrapClient.EnsureConnected` | src/network/src/bootstrap_client.cpp:103-115 | dials TCP and starts the fallback timer unless a transport is up or dialling |
| `Bootstrap.BootstrapClient.FlushQueue` | src/network/src/bootstrap_client.cpp:168-184 | the whole queue goes out in order over the preferred live transport, or nothing does |
| `Bootstrap.BootstrapClient.Enqueue` | src/network/src/bootstrap_client.cpp:146-166 | a command is queued, and then flushed, held for a reset of a zombie, or a connection is sought |
| `Bootstrap.BootstrapClient.FindUser` | src/network/src/bootstrap_client.cpp:271-275 | submits exactly the FIND and remembers its nickname |
| `Bootstrap.BootstrapClient.AuthLogin` | src/network/src/bootstrap_client.cpp:250-254 | submits the login and remembers its nickname |
| `Bootstrap.BootstrapClient.StoreMessage` | src/network/src/bootstrap_client.cpp:280-287 | submits exactly the STORE |
| `Bootstrap.BootstrapClient.FetchMessages` | src/network/src/bootstrap_client.cpp:289-290 | submits exactly the FETCH |
| `Bootstrap.BootstrapClient.RegisterUser` | src/network/src/bootstrap_client.cpp:262-269 | submits exactly the REGISTER |
| `Bootstrap.BootstrapClient.HandleLine` | src/network/src/bootstrap_client.cpp:188-243 | notes the time and emits what the line parses to under the remembered nicknames |
| `Bootstrap.BootstrapClient.HandleConnected` | src/network/src/bootstrap_client.cpp:117-135 | greets, lets the reconnect slot submit, then flushes |
| `Bootstrap.BootstrapClient.HandleDisconnected` | src/network/src/bootstrap_client.cpp:137-144 | clears the flag and schedules a reconnect |
| `Bootstrap.BootstrapClient.TcpConnected` | src/network/src/bootstrap_client.cpp:21-25 | TCP takes over from the WebSocket |
| `Bootstrap.BootstrapClient.TcpDisconnected` | src/network/src/bootstrap_client.cpp:27-30 | ignored while the WebSocket is in use |
| `Bootstrap.BootstrapClient.WsConnected` | src/network/src/bootstrap_client.cpp:47-50 | the WebSocket takes over |
| `Bootstrap.BootstrapClient.WsDisconnected` | src/network/src/bootstrap_client.cpp:52-55 | ignored while TCP is in use |
| `Bootstrap.BootstrapClient.FallbackFired` | src/network/src/bootstrap_client.cpp:65-71 | without TCP, aborts it and reopens the WebSocket |
| `Bootstrap.BootstrapClient.ForceReconnect` | src/network/src/bootstrap_client.cpp:292-300 | drops both transports and schedules a new attempt |
| `LocalDb.WithoutBlobs` | src/db/src/local_db.cpp:202-209 | confirming one peer empties that peer's outbox and leaves every other one as it was |
| `LocalDb.WithoutNobody` | src/db/src/local_db.cpp:202-209 | confirming a peer for whom nothing waits changes nothing |
| `LocalDb.BlobsWaiting` | src/db/src/local_db.cpp:190-219 | something is pending exactly when a peek returns something |
| `LocalDb.SavedKeeps` | src/db/src/local_db.cpp:86-118 | saving keeps ids increasing and the read watermark, and changes no earlier row |
| `LocalDb.StatusKeeps` | src/db/src/local_db.cpp:154-162 | a status other than Read keeps the watermark |
| `LocalDb.ReadKeeps` | src/db/src/local_db.cpp:164-175 | a receipt marks every outgoing row up to its time, and read rows stay a prefix |
| `LocalDb.OutboxKeeps` | src/db/src/local_db.cpp:179-209 | queueing and confirming keep outbox ids increasing |
| `LocalDb.LocalDb.constructor` | src/db/src/local_db.cpp:3-3 | starts with empty tables |
| `LocalDb.LocalDb.SaveMessage` | src/db/src/local_db.cpp:86-118 | one row with the next id, or -1 without a database |
| `LocalDb.LocalDb.UpdateStatus` | src/db/src/local_db.cpp:154-162 | only the row with the id changes, and only its status |
| `LocalDb.LocalDb.MarkReadUpTo` | src/db/src/local_db.cpp:164-175 | exactly the covered rows become Read and marked |
| `LocalDb.LocalDb.EnqueueMessage` | src/db/src/local_db.cpp:179-188 | one more packet at the end of the peer's queue |
| `LocalDb.LocalDb.PeekOutbox` | src/db/src/local_db.cpp:190-200 | the peer's packets in id order |
| `LocalDb.LocalDb.ConfirmOutbox` | src/db/src/local_db.cpp:202-209 | the peer's packets are gone, all others stay |
| `LocalDb.LocalDb.HasPending` | src/db/src/local_db.cpp:211-219 | true exactly when a peek would return something |
| `Network.HandshakeRoundTrip` | src/network/src/network_manager.cpp:72-120 | the listening side reads exactly the nickname and key the dialling side sent |
| `Network.WritesSomewhere` | src/network/src/network_manager.cpp:154-158 | broadcast data is written at all exactly when a listed connection is open, and then on each such one |
| `Network.NetworkManager.constructor` | src/network/src/network_manager.cpp:3-29 | starts without connections |
| `Network.NetworkManager.HandleNewConnection` | src/network/src/network_manager.cpp:109-152 | lists the new connection, unauthenticated |
| `Network.NetworkManager.HandleHandshake` | src/network/src/network_manager.cpp:114-135 | a well-formed handshake is recorded under its nickname, anything else unlists the connection |
| `Network.NetworkManager.ConfirmIncomingPeer` | src/network/src/network_manager.cpp:178-192 | settles the claim on both maps and authenticates its connection, if there is a claim |
| `Network.NetworkManager.RejectIncomingPeer` | src/network/src/network_manager.cpp:194-206 | settles the claim on both maps and unlists its connection |
| `Network.NetworkManager.ConnectToHost` | src/network/src/network_manager.cpp:40-107 | dials only with an empty list and without the skip flag; the flag fails at once |
| `Network.NetworkManager.SendData` | src/network/src/network_manager.cpp:154-158 | writes on every listed open connection, in list order |
| `Network.NetworkManager.DisconnectFromHost` | src/network/src/network_manager.cpp:165-172 | closes every listed connection and empties the list |
| `Network.NetworkManager.ConnectionClosed` | src/network/src/network_manager.cpp:95-102 | unlists the connection and reports whether it was the last |
| `Network.NetworkManager.DialConnected` | src/network/src/network_manager.cpp:67-76 | stops the timeout and sends the handshake |
| `Network.NetworkManager.DialTimeout` | src/network/src/network_manager.cpp:78-90 | unlists the connection that did not open |
| `MailInvariants.HeldKeeps` | src/core/src/messenger_core.cpp:405-407 | queueing an unsendable message keeps every mail invariant: tables, ack correlation, conservation and accounting |
| `MailInvariants.RelayedKeeps` | src/core/src/messenger_core.cpp:411-416 | a relayed message keeps ids and STOREs correlated |
| `MailInvariants.DirectKeeps` | src/core/src/messenger_core.cpp:417-420 | a direct message keeps every mail invariant |
| `MailInvariants.AckKeeps` | src/core/src/messenger_core.cpp:76-92 | every reply to a STORE keeps every mail invariant |
| `MailInvariants.LossKeeps` | src/core/src/messenger_core.cpp:76-92 | so does the loss of a STORE with its connection: its id goes on waiting |
| `MailInvariants.AckSettlesOwnId` | src/core/src/messenger_core.cpp:76-92 | a reply settles the id whose STORE it answers exactly when that STORE carried an id and as many ids wait as unanswered STOREs carry |
| `MailInvariants.DrainKeeps` | src/core/src/messenger_core.cpp:605-617 | draining hands over each packet once, or loses packets just when it discards some |
| `MailInvariants.KeptIsClosed` | src/core/src/messenger_core.cpp:76-425 | whatever is logged, received, sent on any route, acknowledged or drained, in any chain: the mail invariants hold after it, rows keep their contents, and packets are lost just when a drain discards some |
| `CoreInvariants.HandleQuietly` | src/core/src/messenger_core.cpp:302-345 | whatever a decrypted packet holds, its handlers only make moves of the mail that every closed relation covers, and touch no session, buffer or pending verification |
| `CoreInvariants.ReceiveEvolves` | src/core/src/messenger_core.cpp:269-298 | a received blob makes only such moves, and gets exactly one fate |
| `CoreInvariants.PassPartitions` | src/core/src/messenger_core.cpp:568-591 | a retry pass is a stable partition, decided blob by blob by the sessions it started with |
| `CoreInvariants.PendingEvolves` | src/core/src/messenger_core.cpp:568-591 | a retry pass makes only such moves, changes no session, and leaves every blob one fate |
| `CoreInvariants.SendMoves` | src/core/src/messenger_core.cpp:379-429 | sending makes only such moves on all three routes, and leaves inbox and verification alone |
| `CoreInvariants.RelayFlushGoes` | src/core/src/messenger_core.cpp:605-617 | a relay flush loses packets exactly when some wait and the key is not ready |
| `CoreInvariants.P2pFailedGoes` | src/core/src/messenger_core.cpp:516-524 | a peer-to-peer failure loses packets exactly under that condition |
| `CoreInvariants.AuthenticatedEvolves` | src/core/src/messenger_core.cpp:41-61 | authenticating an incoming peer makes only such moves and discards nothing |
| `CoreInvariants.ContactEvolves` | src/core/src/messenger_core.cpp:492-514 | finding a contact makes only such moves and discards nothing |
| `CoreInvariants.LostMoves` | src/core/src/messenger_core.cpp:147-169 | losing the last connection makes only such moves and discards nothing |
| `CoreInvariants.FetchEvolves` | src/core/src/messenger_core.cpp:95-132 | fetched messages make only such moves, and every blob gets exactly one fate |
| `CoreRuns.SettleLockstep` | src/core/src/messenger_core.cpp:481-490 | settling a claim clears it on both sides and authenticates only a key the lookup confirmed |
| `CoreRuns.ReactSound` | src/core/src/messenger_core.cpp:11-212 | every reaction stays within every closed mail relation, keeps blobs accounted for and verification in lockstep, and discards packets exactly if it is a failure for a peer without a key |
| `CoreRuns.RunSound` | src/core/src/messenger_core.cpp:11-212 | the same over every run under a non-decreasing clock |
| `CoreRuns.RunKeeps` | src/core/src/messenger_core.cpp:11-212 | over every such run the invariants hold, message rows keep their contents, and packets are lost exactly if some event discards them |
| `CoreRuns.ReachableSound` | src/core/src/messenger_core.cpp:11-212 | the same from login on |
| `Buffering.DeferredDelivery` | src/core/src/messenger_core.cpp:574-589 | once its key is there, a buffered blob is handled exactly as if it arrived now |
| `Buffering.RetryIdempotent` | src/core/src/messenger_core.cpp:568-591 | a second pass with unchanged keys changes nothing at all |
| `Buffering.BareBlobIsStuck` | src/core/src/messenger_core.cpp:269-277 | over every run, a buffered blob with no bar after its first byte stays buffered for good |
| `Buffering.FlushIsBare` | src/core/src/messenger_core.cpp:55-60 | the flush to an authenticated peer broadcasts every waiting packet in order as a bare ciphertext, records each as handed over, and changes no row |
| `Buffering.FlushedFate` | src/core/src/messenger_core.cpp:269-292 | at any receiver such a packet is buffered exactly if it has no bar after its first byte or the bytes before the first bar name no ready session; otherwise the rest is dropped or handled |
| `Buffering.FlushedNeverDelivered` | src/core/src/messenger_core.cpp:55-60 | a packet handed over this way whose ciphertext has no bar after its first byte is held by its receiver for good, over every run |
| `Replies.RunExactly` | src/core/src/messenger_core.cpp:76-92 | a property that every other reaction keeps holds throughout a run exactly when no STORE reply of the run spoils it |
| `Replies.ShownAcked` | src/db/src/local_db.cpp:154-162 | a reply leaves every read message with status Read exactly unless its id is that of a read sent message |
| `Replies.ReadIsShown` | src/core/src/messenger_core.cpp:76-92 | over every run from login, read messages have status Read in every state if and only if no such reply comes |
| `Replies.EvenAcked` | src/core/src/messenger_core.cpp:76-92 | as many ids wait as unanswered STOREs carry plus those lost, and a reply keeps that exactly when it does not answer an untagged STORE while an id waits |
| `Replies.RepliesSettleOwn` | src/core/src/messenger_core.cpp:76-92 | over every run from login, losses included, every reply settles the message it answers if and only if none answers an untagged STORE while an id waits and none comes after the STORE of a message was lost |
| `EndToEnd.PeerEnvelopeOpens` | src/core/src/messenger_core.cpp:269-292 | the receiver recovers nickname and plaintext from a peer envelope |
| `EndToEnd.RelayEnvelopeParses` | src/core/src/messenger_core.cpp:98-107 | splitting at the first two bars undoes the relay envelope, whatever bytes the ciphertext holds |
| `EndToEnd.SendHandsOver` | src/core/src/messenger_core.cpp:379-429 | a sent message adds one row and hands its packet to exactly one of outbox, STORE with its id, and peer connections, with the status of that route |
| `EndToEnd.FrameArrives` | src/network/src/tcp_connection.cpp:40-83 | a blob framed among pings and other messages, split anywhere, is emitted whole |
| `EndToEnd.DirectDelivery` | src/core/src/messenger_core.cpp:269-424 | end to end over a peer connection: the receiver's handler is called with the sender, text, reply fields and timestamp that were sent |
| `EndToEnd.RelayedPacketArrives` | src/core/src/messenger_core.cpp:95-132 | a relayed message is handled, whether or not the receiver had a key for the sender |
| `EndToEnd.RelayDelivery` | src/core/src/messenger_core.cpp:95-132 | end to end through the relay: the STORE line carries the very blob, the reply brings it back verbatim, and it causes the same handler call as a direct delivery |
| `EndToEnd.FlushedDelivery` | src/core/src/messenger_core.cpp:605-617 | a message flushed from the outbox to the relay is delivered as if it had been sent that way |
| `EndToEnd.RelayAnswersByRelay` | src/core/src/messenger_core.cpp:115-127 | after a relayed message the sender is in relay mode, so the receipt goes through the relay |
| `EndToEnd.DeliveryStores` | src/core/src/messenger_core.cpp:319-322 | a delivery stores the message as one incoming row of the sender's conversation |
| `EndToEnd.DeliveryAnswers` | src/core/src/messenger_core.cpp:347-375 | a delivery hands one receipt for exactly that second to the transport there is |
| `EndToEnd.ReceiptMarks` | src/core/src/messenger_core.cpp:332-344 | a delivered receipt marks the rows it covers, over either path |
| `EndToEnd.ReceiptClosure` | src/core/src/messenger_core.cpp:332-375 | whatever the sender does meanwhile, the receipt marks the very row sent and every row to that peer that is not younger |
| `EndToEnd.DirectRoundTrip` | src/core/src/messenger_core.cpp:269-429 | the whole exchange over a peer connection: the message row ends up read |
| `EndToEnd.RelayRoundTrip` | src/core/src/messenger_core.cpp:95-132 | the whole exchange through the relay, even if the receiver learns the key from the envelope |
| `EndToEnd.DirectHandled` | src/core/src/messenger_core.cpp:269-329 | the blob of a direct message reaches the receiver's handler with exactly what was sent |
| `KeyRuns.ReactKeepsKeys` | src/core/src/messenger_core.cpp:476-514 | one event keeps every session agreed and ready exactly when it does not key a session with another nickname's key: a lookup that confirms a claim or finds no session, or a relayed blob of a sender without one |
| `KeyRuns.RunKeepsKeys` | src/core/src/messenger_core.cpp:11-212 | over every run without such an event, every session holds the keys of its own pair of identities and a ready one stays ready |
| `KeyRuns.RunKeepsKeysExactly` | src/core/src/messenger_core.cpp:11-212 | a run keeps every session agreed and ready at every step if and only if it has no such event |
| `KeyRuns.RelayKeeps` | src/core/src/messenger_core.cpp:98-113 | a relayed blob's unverified key breaks agreement exactly if its sender has no session and the key is not the sender's |
| `KeyRuns.RelayHolds` | src/core/src/messenger_core.cpp:109-113 | a relayed blob leaves every ready session exactly as it is |
| `KeyRuns.HonestMistakes` | src/network/src/bootstrap_client.cpp:213-224 | with a server that answers lookups in order with true keys, exactly an answer to an earlier lookup with another key is mistaken |
| `KeyRuns.OrderlyRunsAreRight` | src/network/src/bootstrap_client.cpp:213-224 | so with such a server and true relayed envelopes, a run in which no lookup is answered after another nickname was asked has no mistaken event |
| `KeyRuns.SameKeys` | src/crypto/src/crypto_manager.cpp:20-54 | a ready session keeps its very keys through re-agreement |
| `Meeting.ClientReachable` | src/core/src/messenger_core.cpp:3-212 | every run from login without a mistaken event, under a clock that does not run backwards, ends in a state with all invariants and agreed keys |
| `Meeting.DirectExchange` | src/core/src/messenger_core.cpp:269-429 | between any two such clients a direct message is handled as sent, and whatever the sender sees meanwhile short of a mistaken key, the receipt marks its row read |
| `Meeting.RelayExchange` | src/core/src/messenger_core.cpp:95-132 | the same through the relay, whether or not the receiver ever heard of the sender |
| `Meeting.Introduced` | src/network/src/network_manager.cpp:40-192 | from login, a lookup asked and answered, a dial and a verified handshake leave both clients with each other's keys on one open connection |
| `Meeting.FirstMessage` | src/core/src/messenger_core.cpp:3-429 | one run of the whole protocol from login to a read first message, assuming only the platform's laws, distinct keys and usable nicknames |
| `Meeting.ClientsLinked` | src/crypto/src/crypto_manager.cpp:20-54 | two such clients hold matching sessions as soon as both hold one |
| `Meeting.MessageAnswered` | src/core/src/messenger_core.cpp:302-429 | each side hearing exactly what the other wrote, the message is stored as sent and the bytes written in answer mark it read |
| `Clients.CoreRunsInside` | src/core/src/messenger_core.cpp:11-212 | over every run of core and bootstrap client together, the core goes through a run of its own on the events it sees |
| `Clients.RunInStep` | src/network/src/bootstrap_client.cpp:117-184 | over every run of both, with connections and commands lost, the bootstrap client was given exactly what the core handed over, the REGISTER of a reconnection included, and remembers the nickname asked about last |
| `Clients.EverythingIsSentOnce` | src/network/src/bootstrap_client.cpp:146-184 | from login on, over every such run: commands the core handed over = commands sent on either transport, once each and in order, then the queue |
| `Clients.LineReportsLast` | src/network/src/bootstrap_client.cpp:213-224 | a FOUND or NOT_FOUND line is reported under the nickname asked about last |
| `Clients.FoundLineReports` | src/core/src/messenger_core.cpp:492-499 | whoever the key of a FOUND line belongs to, the core takes it for that nickname's |
| `Shortfalls.OverlapMiskeys` | src/core/src/messenger_core.cpp:492-499 | a run from login: two lookups out, the true answer to the first keys the second one's session |
| `Shortfalls.OverlapOnTheWire` | src/network/src/bootstrap_client.cpp:213-217 | the same with both FINDs sent over a live connection and the server's honest line |
| `Shortfalls.RelayMiskeys` | src/core/src/messenger_core.cpp:106-113 | a run from login: a relayed envelope in an unknown contact's name keys that contact's session |
| `Shortfalls.DialLosesQueuedMessage` | src/core/src/messenger_core.cpp:516-524 | a run from login: queue a message, dial the peer, time out; the packet is gone and nothing was handed to any transport |
| `Shortfalls.EarlyReplyMarksWrong` | src/core/src/messenger_core.cpp:76-92 | a run from login: the OK of a flushed packet's STORE marks the next message sent, whose own STORE then fails without a trace |
| `Shortfalls.SentWhileDialling` | src/core/src/messenger_core.cpp:417-420 | a run from login: a message sent while the dial is pending is marked Sent and no byte has left |
| `Shortfalls.LateReplyHidesRead` | src/core/src/messenger_core.cpp:76-92 | a run of two clients from login: relayed message, receipt, then the late OK; the row is read and its status is Sent |
| `Shortfalls.QueuedMessageStuck` | src/core/src/messenger_core.cpp:41-61 | a run from login: a queued message is flushed bare to the peer that dialled in; it is recorded as handed over, its row stays Pending, and a receiver that finds no bar in it never handles it, over any run |
| `Disconnections.LostStoreShiftsReply` | src/core/src/messenger_core.cpp:76-92 | two relayed messages, the first STORE lost with its connection: the OK for the second marks the first sent, and nothing is left to settle the second |
| `Disconnections.LostStoreOnTheWire` | src/network/src/bootstrap_client.cpp:117-184 | that run from login over the sockets: both STOREs sent, TCP dropped and redialled between them, and the server's OK line |
| `Misattribution.SentToTheWrongPeer` | src/core/src/messenger_core.cpp:417-420 | a run from login: connected to one peer, a message to another one found meanwhile is marked Sent, queued nowhere, and written on the first peer's connection only |
| `Misattribution.NameInside` | src/core/src/messenger_core.cpp:315-340 | both handlers trust the name inside a packet over its envelope's, if there is one |
| `Misattribution.HandledUnderEnvelope` | src/core/src/messenger_core.cpp:302-344 | a packet changes only the conversation of the peer whose envelope it came in exactly unless it names someone else and is a message or a receipt that covers some row |
| `Misattribution.OtherPeerMarksRead` | src/core/src/messenger_core.cpp:332-344 | a run from login: a message to one peer still waits in the outbox, and a receipt from another that names the first marks it read |
| `Network.WrittenTo` | src/network/src/network_manager.cpp:154-158 | broadcast data is written on a connection of a peer exactly when an open listed one was dialled to it or confirmed for it |
| `Guarantees.OutboxConservation` | src/db/src/local_db.cpp:179-209 | per peer and in order, in every reachable state: queued = drained then waiting; and without a loss, queued = handed over then waiting |
| `Guarantees.LossOnlyWithoutKey` | src/core/src/messenger_core.cpp:605-617 | a run loses packets if and only if one of its events is a peer-to-peer failure for a peer with packets and no key |
| `Guarantees.RelayFlushSends` | src/core/src/messenger_core.cpp:605-617 | a relay flush with a key sends exactly this peer's packets in order and no other peer's |
| `Guarantees.LostConnectionsFlush` | src/core/src/messenger_core.cpp:154-168 | the flush loop empties the outbox of every peer it walks that has a key, and of no other |
| `Guarantees.LastConnectionFlushes` | src/core/src/messenger_core.cpp:147-169 | losing the last connection puts every peer ever met into relay mode and empties the outbox of every one with a key |
| `Guarantees.AckCorrelation` | src/core/src/messenger_core.cpp:76-92 | in every reachable state the waiting ids are the last ones handed over; while no message's STORE was lost, a suffix of those of the unanswered STOREs; and if every STORE carried one, all of those, preceded by exactly as many as were lost |
| `Guarantees.AckReachesOwnMessage` | src/core/src/messenger_core.cpp:76-92 | if every STORE came from a sent message, a reply changes the row of the message as many STOREs before the one it answers as were lost, its own exactly if none was, and no other row |
| `Guarantees.UntaggedReplySettlesEarly` | src/core/src/messenger_core.cpp:366-369 | the reply to an untagged STORE, such as a receipt's, gives its status to the row of another message, whose own STORE is still unanswered unless one was lost before, and to no other row |
| `Guarantees.OutboxAccounting` | src/core/src/messenger_core.cpp:398-425 | in every reachable state the message of an outbox packet waits for no reply and is Pending or Read |
| `Guarantees.DirectSendReachesWire` | src/core/src/messenger_core.cpp:417-420 | a direct message is marked Sent at once and never queued, but is written to a socket exactly if a listed connection is open, and to one of its addressee exactly if one of those was dialled to or confirmed for it |
| `Guarantees.ReadWatermark` | src/db/src/local_db.cpp:164-175 | in every reachable state read marks form a prefix of the rows sent to a peer, in id and time order, and status Read is marked |
| `Guarantees.ReadMarksStay` | src/db/src/local_db.cpp:154-175 | over every run rows keep their contents and a read mark is never cleared |
| `Guarantees.VerificationLockstep` | src/network/src/network_manager.cpp:114-135 | in every reachable state both components await the same peers with the same keys, and every authenticated connection claimed what a lookup reported |
| `Guarantees.EveryBlobHasOneFate` | src/core/src/messenger_core.cpp:269-298 | in every reachable state each non-empty blob received is consumed, dropped or buffered, exactly one of them, and the buffer is in arrival order |
| `MessengerCore.Messenger.constructor` | src/core/src/messenger_core.cpp:3-9 | starts logged in with an empty store |
| `MessengerCore.Messenger.CryptoFor` | src/core/src/messenger_core.cpp:224-231 | an entry without a secret for every peer asked about |
| `MessengerCore.Messenger.StoreMessage` | src/core/src/messenger_core.cpp:366-369 | the bootstrap client is asked for exactly what the log records |
| `MessengerCore.Messenger.SendData` | src/core/src/messenger_core.cpp:370-372 | every listed connection is offered the blob |
| `MessengerCore.Messenger.SendReadReceipt` | src/core/src/messenger_core.cpp:347-375 | moves the state as a receipt should, best effort |
| `MessengerCore.Messenger.SendMessage` | src/core/src/messenger_core.cpp:379-429 | moves the state as the reaction SendHandsOver and SendMoves describe, and returns the row id or -1 |
| `MessengerCore.Messenger.HandleChatMessage` | src/core/src/messenger_core.cpp:305-329 | stores the message, then answers with a receipt |
| `MessengerCore.Messenger.HandleReadReceipt` | src/core/src/messenger_core.cpp:332-344 | marks the rows the receipt covers |
| `MessengerCore.Messenger.HandlePlain` | src/core/src/messenger_core.cpp:294-297 | dispatches on the packet type |
| `MessengerCore.Messenger.HandleDataReceived` | src/core/src/messenger_core.cpp:269-298 | buffers, drops or handles the blob |
| `MessengerCore.Messenger.TryDecryptPending` | src/core/src/messenger_core.cpp:568-591 | the loop computes the pass that PassPartitions describes |
| `MessengerCore.Messenger.FlushPendingViaRelay` | src/core/src/messenger_core.cpp:605-617 | the loop hands over the peer's packets in order, or discards them without a key |
| `MessengerCore.Messenger.FlushPendingToPeers` | src/core/src/messenger_core.cpp:55-60 | the loop broadcasts the peer's packets in order |
| `MessengerCore.Messenger.OnIncomingPeerAuthenticated` | src/core/src/messenger_core.cpp:41-61 | agrees keys, retries the buffer and flushes |
| `MessengerCore.Messenger.OnP2pFailed` | src/core/src/messenger_core.cpp:516-524 | switches the peer to relay mode and flushes |
| `MessengerCore.Messenger.ConnectToHost` | src/core/src/messenger_core.cpp:440-444 | dials, or fails over at once |
| `MessengerCore.Messenger.OnPeerFound` | src/core/src/messenger_core.cpp:476-514 | settles a claim, or treats the peer as a contact |
| `MessengerCore.Messenger.OnContactFound` | src/core/src/messenger_core.cpp:492-514 | agrees keys if needed, then flushes by relay or dials |
| `MessengerCore.Messenger.OnAllConnectionsLost` | src/core/src/messenger_core.cpp:147-169 | all peers to relay mode, then the flush loop |
| `MessengerCore.Messenger.OnDisconnected` | src/core/src/messenger_core.cpp:147-169 | unlists the connection and reacts to the last one |
| `MessengerCore.Messenger.RetryP2pConnections` | src/core/src/messenger_core.cpp:593-603 | leaves relay mode and looks up every peer that was in it |
| `MessengerCore.Messenger.OnMessagesFetched` | src/core/src/messenger_core.cpp:95-132 | the loop handles the blobs in order |
| `MessengerCore.Messenger.HandleRelayed` | src/core/src/messenger_core.cpp:98-130 | splits, agrees keys if needed, decrypts and handles |
| `MessengerCore.Messenger.OnStoreReply` | src/core/src/messenger_core.cpp:76-92 | settles the first waiting id |
| `MessengerCore.Messenger.OnConnectionData` | src/core/src/messenger_core.cpp:63-67 | a handshake starts a lookup; anything else is data |
| `MessengerCore.Messenger.OnDialTimeout` | src/core/src/messenger_core.cpp:516-524 | unlists the connection and fails over |
| `MessengerCore.Messenger.PollRelayMessages` | src/core/src/messenger_core.cpp:528-533 | asks for stored messages once logged in |
| `MessengerCore.Messenger.HandedOverIsSent` | src/core/src/messenger_core.cpp:366-369 | in every valid state, what was handed over is what went out on either transport, then the queue |
| `MessengerCore.Messenger.OnServerConnected` | src/core/src/messenger_core.cpp:139-144 | from the second connection on, clears the skip flag and registers again before the queue goes out |
| `MessengerCore.Messenger.OnLine` | src/core/src/messenger_core.cpp:63-132 | a server line has the effect of the reaction to the signal it parses to |

## Left out

- Qt's sockets, event loop and timers; SQL text, migrations, the contacts and identity tables, `created_at`,
  `load_history` and `get_recent_chats`; password hashing; the user interface, the updater and `db_manager.cpp`.
- The slots of the authentication replies.
- Changing identity while logged in (`set_current_nickname`, `load_keypair` with a secret already agreed).
- Each peer's crypto manager inside the core is a value in a map rather than a separate object, so
  aliasing of managers is not modelled; the object itself is the class `CryptoManager`. The key pair a new
  manager generates for itself is never used by the core and is empty here.
- Packets that do not deserialise leave their type unset in the source; here they reach no handler. A
  timestamp that is not a valid UTC instant counts as such a packet.
- Null strings are written as empty ones; both read back alike (`ReadsNullString`).
- Deleted connection objects that are still awaiting verification are only numbers here.
- Crypto.CryptoManager.constructor: takes the key pair that the source generates, because the generator is a
  library call.
- Network.NetworkManager.DisconnectFromHost: does not report the closed sockets while it walks the list, because
  each closing is an event of its own afterwards (`ConnectionClosed`).
- Meeting.FirstMessage: one schedule, and frames handed over whole, because `MessageAnswered` states the exchange
  for any two acquainted clients and `TcpConnection.FramingOverChunks` that framing, pings and splits do not show.
- MessengerCore.Messenger.constructor: starts logged in with an empty store, because login is not modelled.
- MessengerCore.Messenger.OnContactFound: does not write the contact's key to its table, because the core never
  reads it back.
- The authentication commands and UNREGISTER, which the user interface submits, in the runs of `Clients.dfy`.
- Nicknames containing '|', ':', '%' or a newline, and nicknames or keys too long for a 32-bit size.
- Splitting server data into lines, trimming them, and the number in a FOUND port.
- `m_relay_mode`, which nothing reads, and the signals emitted to the user interface.
- The order of the peer map is kept by `Placed`; that it is sorted is not used and not proved.

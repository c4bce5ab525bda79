# Nearby Connections: connection establishment, verified

This project models how Nearby Connections establishes a connection, in Dafny 4.11, and
proves what holds in every run. `dafny verify dfyconfig.toml` checks all of it.

| module | what it models |
|---|---|
| `PcpState`, `PcpHandler` | the connection handler of one device: pending entries, the client's answers, channels, futures. `PcpState` gives every handler as a step on values, `PcpHandler` the object whose methods update its maps in place and are proved to take those steps |
| `PcpInvariants`, `PcpTheorems` | what every step keeps, and the theorems about every run of one handler |
| `PcpSteps` | what every event does, exactly, to the entry and the record of any endpoint, to futures, to channels, and to what the client is told |
| `PcpJobs` | the encryption jobs of a handler, and the channels they hold by a raw pointer |
| `PcpContexts` | the encryption contexts that the channel manager keeps per endpoint |
| `TieBreak` | two handlers that request each other at the same time, joined by two lanes with a handshake on each |
| `SwitchOver` | two devices switching from plaintext to encrypted frames while readers, keep-alive threads and payload threads run |
| `HandlerLink` | the device of `SwitchOver` is the handler of `PcpState`, seen through one endpoint |
| `Framing` | the byte format of a channel, encryption in the middle of the stream, and the channel object |
| `Writers` | any number of threads writing to, pausing, encrypting and closing one channel, one critical section at a time |
| `Mediums`, `EndpointChoice` | preferring mediums, sorting the records of an endpoint, choosing the one to connect to |
| `Discovery` | the index of discovered endpoints and the calls made to the client |
| `Upgrade` | bookkeeping of bandwidth upgrades |
| `GattClient` | handles that share a Gatt client by counting |

Handlers run as tasks of one serial executor, so a handler is one step. A step that yields
`None` (a method that returns `ok == false`) is one in which the code dereferences a null
pointer; runs are stopped there, and `PcpTheorems.TrapsExactly` says when that is.

## What turned out not to hold

- **A disconnection that is not understood.** A client may disconnect while the connection is pending
  (`service_controller_router.cc:342-348`); the frame goes out in plaintext
  (`endpoint_channel_manager.cc:233-235`) and is erased by a peer that encrypts by then. The peer has reported
  accepted, and loses the connection as if by an I/O error: its reader ends there
  (`endpoint_manager.cc:146-153`). `ErasedExactly` says that this is the only frame ever erased, and exactly
  when, `ErasedIsLast` that it is the last one read, and `EarlyDisconnectionIsErased` is a run.
- **A tie broken too late.** `BreakTie` and `ProcessTieBreakLoss` read the medium of the
  pending entry's channel. If our own handshake has finished, that channel was handed over
  and the pointer is null, although the comment at `base_pcp_handler.h:485-487` says that
  this case was meant to be covered. `TrapsExactly` gives the exact guard (an entry with a
  key, and an incoming nonce that is not lower), `TieBreakAfterHandOverTraps` a run.
- **A failure reported too late.** The failure callback gets a raw pointer to the channel of its
  job and reads it (`base_pcp_handler.cc:476` and `561`). The channel may be gone by then: it is destroyed with its
  entry, and, once handed over, when the channel manager drops it. `FailureReadsDestroyed` says exactly when
  nobody holds it any more, for every job of every run; `LateFailure` says so for the losing lane of two
  simultaneous requests: as soon as the other request was read. What the callback does next is stated
  as if that object were still readable, in `StaleFailure` and `LateFailure`: it dereferences a null channel
  exactly if the winner was handed over, and otherwise spares the winner exactly if the two channels differ in
  name or medium. Channels compare by type, name and medium, not by identity; both are of the same type
  until encryption is enabled, so the type is not modelled. `TheHigherNonceCanComplete` is a run
  for every pair of different nonces.
- **The lower nonce can win.** If a device is told that its own handshake failed (a time-out, say)
  before it reads the other request, it takes that one, whatever the nonces. This is the only way
  (`OnlyTheHigherNonceCompletes`), and it happens (`UnopposedCanComplete`); the request with the higher
  nonce, read afterwards, then dereferences a null channel.
- **A success reported too late.** The success callback does not check which channel it belongs to. In such
  a run it can hand over the other request's channel, on which no handshake was completed
  (`StaleSuccessHandsOverTheOther`); never otherwise (`SuccessIsNeverStale`).
- **A missing handshake can be used.** A response for an endpoint that is already connected leaves an answer
  on its record, and the endpoint no longer counts as connected; an incoming connection from it and
  one more accept then reach `EvaluateConnectionResult` with an entry that has no key
  (`BelatedAcceptIsFatal`, from every such state; `MissingHandshakeIsReachable`, a run). Without a response for a
  connected endpoint it does not happen (`NoMissingHandshake`).
- **The empty endpoint id.** A request frame may name the empty endpoint, and an incoming connection whose request
  frame cannot be read removes the entry with the empty id (`base_pcp_handler.cc:1471-1474`).
  `KeyedThroughout` is the exact condition, `EmptyIdLosesItsEntry` a run.
- **A channel encrypted before anybody answered.** The channel manager keeps the context of an accepted connection
  until the endpoint is unregistered, even if there was no channel to encrypt (`endpoint_channel_manager.cc:73-82`), and
  encrypts the endpoint's next channel as soon as it is registered (`97-109`). `EncryptedAtOnce` is the exact
  condition, `EncryptedBeforeAnyAnswer` a run.
- **A refused message silences an encrypted channel.** A message refused for its size was encoded already, so its number
  is missing on the wire, and a reader that asks for the next number decodes nothing after it
  (`HearsExactly`, `ConcurrentRoundTrip`).
- **WEB_RTC records repeat**: `OneWebRtcRecord` is the exact condition, and
  `SecondAppendDuplicates` says that a second request always repeats the record.
- **The upgrade of the empty service** is not undone by reverting its endpoint (`RevertUndoes`).
- **Copy-assigning the only handle to itself** loses the Gatt client (`CountedThroughout`,
  `SelfAssignmentLosesTheClient`).

## Assumptions

- A new channel is a new object. A failed connect attempt has a failure status. What radios,
  users, the endpoint manager and the encryption runner do arrives as events, in any order.
- `TieBreak` starts when both requests have been sent and neither was read. Both devices listen. A handshake
  may fail at any time; it succeeds at the client after the server took part, and at the server after the
  client finished. Users and the endpoint manager act on the endpoint after it was registered. Where a lemma
  says `nonceA >= nonceB`, `MirrorRun` gives the other case.
- `SwitchOver`: each side answers once, a retry waits until encryption is enabled, and payloads are sent after
  acceptance was reported. Keep-alives and disconnections go out at any time, and the endpoint may be
  disconnected at any time, after which nothing more is read or begun to be written.
- An encryption context decodes the n-th message of its peer as its n-th (`Framing.Lawful`) and, where messages are
  refused, nothing under a smaller number (`Framing.Strict`); `Framing.SomeCipherIsStrict` is one that does.
- A wait of a paused writer may end at any time, for any reason, and then looks again, so that nothing
  depends on which waiter is notified. In `Writers` it does not fail; in `Framing.BaseEndpointChannel` it may.
- A client that discovers does not start discovering again before it stops (`service_controller_router.cc:136-139`).

## Model

| member | source | states |
|---|---|---|
| `PcpTheorems.PendingEntries` | connections/implementation/base_pcp_handler.cc:483-541 | in every run, each pending entry holds exactly one of a channel and a crypto context, and each connection that the client has registered and not decided has an entry with a crypto context; for the empty id, exactly as long as no unreadable request removed it |
| `PcpTheorems.KeyedThroughout` | connections/implementation/base_pcp_handler.cc:1465-1477 | up to any point of any run, for any id: a registered, undecided connection always had an entry with a crypto context if and only if no unreadable request arrived while the empty id was registered and undecided |
| `PcpTheorems.ChannelConservation` | connections/implementation/base_pcp_handler.cc:1992-2007 | in every run, a channel that ever became pending is owned by exactly one entry, or was handed over exactly once, or was closed by the handler, and only one of these |
| `PcpTheorems.NoLostWaiter` | connections/implementation/base_pcp_handler.cc:605-752 | in every run, the future of each request was set exactly once and nobody holds it, or is unset and held by an entry that is still handshaking |
| `PcpTheorems.OneWaiter` | connections/implementation/base_pcp_handler.cc:739-744 | in every run, no two entries hold the same future |
| `PcpTheorems.RequestsTellTheTruth` | connections/implementation/base_pcp_handler.cc:525-540 | in every run, a request reported success exactly if its own channel was handed over; after any other report its channel, if it had one, is closed |
| `PcpTheorems.FreshInsertion` | connections/implementation/base_pcp_handler.cc:1498-1605 | in every run a step starts a handshake if and only if it puts an entry in: a request that was allowed, known, connected and written, for an endpoint without an entry; or an incoming one while listening, allowed and of the right type, from an endpoint that is not connected and has no entry or one with a lower nonce. The handshake runs on the channel just created |
| `PcpSteps.EntriesExactly` | connections/implementation/base_pcp_handler.cc:483-572 | in every run, for every step and endpoint: its entry afterwards is the one put in, or the old one, with the key in place of the channel after a success; and it is gone if and only if it failed, was decided, its handshake failed, or an unreadable request took it |
| `PcpSteps.ClientExactly` | connections/implementation/base_pcp_handler.cc:1764-1852 | in every run, for every step and endpoint: the client's record afterwards, a first answer staying; and what the client is told, no more and no less |
| `PcpSteps.FailuresAreTold` | connections/implementation/base_pcp_handler.cc:1066-1076 | in every run a connection that is disconnected, loses a tie or whose answer cannot be written loses its entry, unless the winner takes its place, and the client, if it had it undecided, is told of an error and forgets it |
| `PcpSteps.EffectsExactly` | connections/implementation/base_pcp_handler.cc:995-1014 | in every run, for every step: which future it sets and to which status, and which channels it closes, namely those of the entries it takes away and a new one whose request could not be written or read, or lost or tied |
| `PcpTheorems.DecisionsAreRight` | connections/implementation/base_pcp_handler.h:515-516 | in every run a step tells the client nothing or one thing: accepted only after both accepts and on an encrypted channel, rejected only after a reject, otherwise an error for a lost tie, a disconnection or an unwritten answer; and the step that decides does tell |
| `PcpTheorems.TrapsExactly` | connections/implementation/base_pcp_handler.cc:1609-1683 | in every reachable state a handler dereferences a null pointer if and only if its guard holds; a missing handshake is used only for an endpoint the client holds as connected, or whose entry an unreadable request removed |
| `PcpTheorems.TieBreakAfterHandOverTraps` | connections/implementation/base_pcp_handler.cc:1673-1683 | a run in which a tie is broken after the channel was handed over |
| `PcpTheorems.StaleFailure` | connections/implementation/base_pcp_handler.cc:543-572 | in every run a failure callback, given that its channel can still be read, removes the handshaking entry if that channel compares equal to the entry's, and changes nothing otherwise |
| `PcpJobs.FailureReadsDestroyed` | connections/implementation/base_pcp_handler.cc:468-481 | in every run the failure callback of a job reads a channel that nobody holds any more if and only if neither the job's entry nor the channel manager, for the job's endpoint, holds it |
| `PcpJobs.JobsAreFiled` | connections/implementation/base_pcp_handler.cc:741-751 | in every run the channel of a job became pending, and no entry and no record of the channel manager but that of the job's endpoint holds it |
| `PcpContexts.EncryptedAtOnce` | connections/implementation/endpoint_channel_manager.cc:97-109 | in every run a channel is encrypted as soon as it is handed over if and only if both sides accepted an earlier connection of its endpoint, which was not unregistered since |
| `PcpContexts.EncryptedByAcceptance` | connections/implementation/endpoint_channel_manager.cc:73-82 | in every run a channel is encrypted in no other way than that, and by both sides having accepted the connection it was handed over for |
| `PcpContexts.ContextIsKept` | connections/implementation/endpoint_channel_manager.cc:187-192 | in every run the channel manager has a context for an endpoint if and only if both sides accepted a connection of it and it was not unregistered since |
| `PcpContexts.EncryptedBeforeAnyAnswer` | connections/implementation/base_pcp_handler.cc:1811-1816 | a run in which a channel is encrypted and nobody has answered |
| `PcpTheorems.RestThroughout` | connections/implementation/base_pcp_handler.cc:1764-1816 | up to any point of any run, a connected endpoint always had no pending entry and no recorded answer if and only if no request for it got out and no response for it came while it was connected |
| `PcpTheorems.NoMissingHandshake` | connections/implementation/base_pcp_handler.cc:1783-1816 | in every run in which no response comes for a connected endpoint, evaluating a connection never uses a missing handshake |
| `PcpTheorems.BelatedAcceptIsFatal` | connections/implementation/base_pcp_handler.cc:1156-1213 | from every reachable state with a connected endpoint and nothing pending for it: an accepting response, an incoming connection and one accept use a missing handshake |
| `PcpTheorems.MissingHandshakeIsReachable` | connections/implementation/base_pcp_handler.cc:1151-1213 | a run, with no request to a connected endpoint, in which it does |
| `PcpTheorems.EmptyIdLosesItsEntry` | connections/implementation/base_pcp_handler.cc:1465-1477 | a run in which a connection that named the empty id finished its handshake, and an unreadable request then removed its entry |
| `PcpInvariants.Reachable` | connections/implementation/base_pcp_handler.h:431-440 | every state of every run keeps all the books: entries, channels, futures, outcomes, keys |
| `PcpHandler.BasePcpHandler.RequestConnection` | connections/implementation/base_pcp_handler.cc:605-752 | the method takes exactly the step `Request`, refusals and failures included |
| `PcpHandler.BasePcpHandler.OnIncomingConnection` | connections/implementation/base_pcp_handler.cc:1440-1607 | the method takes exactly the step `Incoming`, and fails exactly where that is undefined |
| `PcpHandler.BasePcpHandler.BreakTie` | connections/implementation/base_pcp_handler.cc:1609-1671 | the higher nonce stays, the lower one is failed, of equal ones both are; the result says whether the incoming connection was killed |
| `PcpHandler.BasePcpHandler.ProcessTieBreakLoss` | connections/implementation/base_pcp_handler.cc:1673-1683 | initiation failure, then result failure; fails exactly if the entry has no channel |
| `PcpHandler.BasePcpHandler.OnEncryptionSuccess` | connections/implementation/base_pcp_handler.cc:483-541 | the channel leaves the entry for the endpoint manager, the future is set once, the key is kept |
| `PcpHandler.BasePcpHandler.OnEncryptionFailure` | connections/implementation/base_pcp_handler.cc:543-572 | the entry is failed exactly if the channels compare equal |
| `PcpHandler.BasePcpHandler.ProcessPreConnectionInitiationFailure` | connections/implementation/base_pcp_handler.cc:995-1014 | channel closed, future set, entry erased with its destructor |
| `PcpHandler.BasePcpHandler.ProcessPreConnectionResultFailure` | connections/implementation/base_pcp_handler.cc:1016-1024 | entry erased with its destructor, client told |
| `PcpHandler.BasePcpHandler.AnswerConnection` | connections/implementation/base_pcp_handler.cc:1026-1149 | the step `Answer` and the status returned, for accepting and rejecting |
| `PcpHandler.BasePcpHandler.OnIncomingFrame` | connections/implementation/base_pcp_handler.cc:1151-1214 | the step `Response`; a repeated answer changes nothing |
| `PcpHandler.BasePcpHandler.OnEndpointDisconnect` | connections/implementation/base_pcp_handler.cc:1216-1240 | the entry is erased with its destructor and the client told |
| `PcpHandler.BasePcpHandler.EvaluateConnectionResult` | connections/implementation/base_pcp_handler.cc:1764-1852 | undecided or unknown: nothing; accepted: encrypted, then reported; rejected: reported |
| `PcpHandler.BasePcpHandler.EncryptChannelForEndpoint` | connections/implementation/endpoint_channel_manager.cc:73-82 | the context is kept, the channel encrypted if there is one, and the result says whether there was |
| `PcpHandler.BasePcpHandler.RegisterChannelForEndpoint` | connections/implementation/endpoint_channel_manager.cc:45-57 | the channel is taken, and encrypted if a context is kept |
| `PcpHandler.BasePcpHandler.DestroyInfo` | connections/implementation/base_pcp_handler.cc:1992-2007 | sets an unset future to an error and closes a channel still owned |
| `TieBreak.OnlyTheHigherNonceCompletes` | connections/implementation/base_pcp_handler.cc:1609-1683 | in every run of two simultaneous requests, with handshakes failing at any time, a channel handed over on either device carries the higher nonce, or its request was read by a device already told that its own request failed; of equal nonces none is handed over otherwise |
| `TieBreak.SuccessIsNeverStale` | connections/implementation/base_pcp_handler.cc:486-496 | in every such run a success callback finds the handshake it belongs to, or none, unless the lower request was read so |
| `TieBreak.LateFailure` | connections/implementation/base_pcp_handler.cc:543-572 | the failure of the losing lane reads a destroyed channel if and only if the other request was read; if it could be read, it would dereference null exactly if the winner was handed over, and otherwise spare the winner exactly if the channels do not compare equal |
| `TieBreak.OnlyTheLateFailureTraps` | connections/implementation/base_pcp_handler.cc:543-561 | in every such run, unless a request was read by a device told of its own failure, no other callback that is due and no request still to be read dereferences null |
| `TieBreak.TheHigherNonceCanComplete` | connections/implementation/base_pcp_handler.cc:1642-1650 | for different nonces, a run in which both devices end on the channel with the higher one, and the late failure dereferences null |
| `TieBreak.UnopposedCanComplete` | connections/implementation/encryption_runner.cc:71-81 | for all nonces, a run in which a handshake fails by itself and the other request completes on both devices; the request with the higher or equal nonce then dereferences null |
| `TieBreak.StaleSuccessHandsOverTheOther` | connections/implementation/base_pcp_handler.cc:483-541 | for different nonces, a run in which a success callback hands over the channel of the other request |
| `TieBreak.MirrorRun` | connections/implementation/base_pcp_handler.cc:1609-1683 | runs are symmetric in the two devices |
| `SwitchOver.SwitchOverIsSafe` | connections/implementation/base_endpoint_channel.cc:136-178 | in every run, an encrypted reader meets plaintext only as a keep-alive or as a disconnection written before its writer decided, and decodes every ciphertext; a plaintext reader meets a ciphertext only between writing its accept and enabling encryption, with its one retry left |
| `SwitchOver.ErasedExactly` | connections/implementation/base_endpoint_channel.cc:147-170 | in every run a frame is erased if and only if it is a plaintext disconnection, written before its writer decided, that reaches an encrypted reader; no answer, keep-alive or payload ever is |
| `SwitchOver.ErasedIsLast` | connections/implementation/endpoint_manager.cc:137-153 | in every run an erased frame is the last one its reader takes, and that device has reported accepted |
| `SwitchOver.NothingIsLost` | connections/implementation/endpoint_manager.cc:214-288 | in every run and both directions, what was put on the wire is what was taken off it, then the frame being retried, then the frames in flight; what was not erased was delivered in order, and no reader is stuck |
| `SwitchOver.EarlyDisconnectionIsErased` | connections/implementation/endpoint_channel_manager.cc:224-239 | a run in which one side disconnects after its accept, and the other reports accepted and erases the disconnection |
| `SwitchOver.Agreement` | connections/implementation/base_pcp_handler.cc:1764-1852 | if the near device ever reports accepted, the far one never reports rejected; accepted is reported only with both accepts given and the channel encrypted |
| `SwitchOver.AgreementOfFar` | connections/implementation/base_pcp_handler.cc:1026-1149 | the same for the far device |
| `SwitchOver.Progress` | connections/implementation/base_pcp_handler.cc:1764-1852 | in every run, with both sides having begun to answer and nobody disconnected, when nothing is left to put, conclude, read, retry or handle, both have reported the same, and accepted exactly if both accepted |
| `SwitchOver.ReportsStick` | connections/implementation/base_pcp_handler.cc:1783-1796 | a report once made stays |
| `SwitchOver.EarlyCiphertextIsDelivered` | connections/implementation/endpoint_manager.cc:232-248 | a run in which a ciphertext arrives inside the window, is retried and delivered |
| `HandlerLink.ConcludeMatches` | connections/implementation/base_pcp_handler.cc:1063-1149 | recording the local answer does the same, with the same report, in the handler and in the device of `SwitchOver` |
| `HandlerLink.HandleMatches` | connections/implementation/base_pcp_handler.cc:1156-1213 | so does the first answer of the other side |
| `HandlerLink.EvaluateMatches` | connections/implementation/base_pcp_handler.cc:1764-1852 | so does evaluating an undecided connection |
| `HandlerLink.HandOverMatches` | connections/implementation/base_pcp_handler.cc:525-534 | a channel just handed over is a fresh device |
| `HandlerLink.DisconnectMatches` | connections/implementation/base_pcp_handler.cc:1216-1240 | so does the disconnection of the endpoint |
| `HandlerLink.DeviceIsHandler` | connections/implementation/base_pcp_handler.cc:1026-1240 | every run of the two devices is, at the near one, a run of the handler of `PcpState`, state by state and report by report, whether it begins with a request or with an incoming one |
| `HandlerLink.OtherDeviceIsHandler` | connections/implementation/base_pcp_handler.cc:1026-1240 | and at the far one |
| `Framing.HeaderRoundTrip` | connections/implementation/base_endpoint_channel.cc:35-55 | reading the four bytes of an int32 gives it back, for every int32 |
| `Framing.BytesRoundTrip` | connections/implementation/base_endpoint_channel.cc:35-55 | writing the int32 of four bytes gives them back, for all four bytes |
| `Framing.IntToBytes` | connections/implementation/base_endpoint_channel.cc:47-55 | the big-endian two's complement bytes, from which the value is read back |
| `Framing.BytesToInt` | connections/implementation/base_endpoint_channel.cc:35-45 | the signed value of four bytes |
| `Framing.TakeWritten` | connections/implementation/base_endpoint_channel.cc:109-134 | a frame at the head of a stream is read whole, and nothing beyond it |
| `Framing.TakenWasWritten` | connections/implementation/base_endpoint_channel.cc:109-134 | whatever is read as a frame is what the writer writes for that payload |
| `Framing.SameBound` | connections/implementation/base_endpoint_channel.cc:226-231 | a plaintext message is written if and only if a reader takes its frame |
| `Framing.ReadBack` | connections/implementation/base_endpoint_channel.cc:105-186 | one written message is read back, and the ends stay in step, if and only if it is not an empty one on an encrypted channel |
| `Framing.Undecoded` | connections/implementation/base_endpoint_channel.cc:147-176 | a frame that does not decode is let through by an encrypted reader if it is a keep-alive and erased otherwise, and the context waits for the same number |
| `Framing.Decoded` | connections/implementation/base_endpoint_channel.cc:140-146 | a frame that decodes gives its message, or an error if that is empty, and the next number is due |
| `Framing.ReadFailsExactly` | connections/implementation/base_endpoint_channel.cc:113-129 | reading fails for the stream if and only if it is closed or does not begin with a frame within the limit, and then gives nothing and leaves the context |
| `Framing.WritesExactly` | connections/implementation/base_endpoint_channel.cc:203-255 | a message is written if and only if the stream is open, it can be encoded and what comes out is within the limit; its number is used up as soon as it is encoded |
| `Framing.RoundTrip` | connections/implementation/base_endpoint_channel.cc:109-255 | every written list is read back as the same list; on an encrypted channel exactly if no message is empty |
| `Framing.SwitchedRoundTrip` | connections/implementation/base_endpoint_channel.cc:345-349 | the same when both ends enable encryption in the middle of the stream |
| `Framing.KeepAlivesPass` | connections/implementation/base_endpoint_channel.cc:147-163 | any list of keep-alives written in plaintext is read whole by a reader that encrypts already, and leaves its context alone |
| `Framing.LateSwitchRoundTrip` | connections/implementation/base_endpoint_channel.cc:147-163 | a reader that switches over first hears the keep-alives written before the writer does, and decodes all that is written after |
| `Framing.HearsExactly` | connections/implementation/base_endpoint_channel.cc:213-231 | of any list written by a writer in step, a reader hears exactly: in plaintext the messages within the limit; encrypted, those that are not empty, up to the first refused for its size |
| `Framing.HearsNothing` | connections/implementation/base_endpoint_channel.cc:147-176 | after a number is missing on the wire, a reader hears nothing more |
| `Framing.PlainWrites` | connections/implementation/base_endpoint_channel.cc:226-231 | a plaintext channel takes a list if and only if every message is within the limit |
| `Framing.BaseEndpointChannel.Read` | connections/implementation/base_endpoint_channel.cc:105-186 | the step `ReadFrom`: bad sizes, short streams, decoding, keep-alives let through, everything else erased |
| `Framing.BaseEndpointChannel.Write` | connections/implementation/base_endpoint_channel.cc:192-262 | waits at the gate as long as the channel is paused, then takes the step `WriteTo`: a refused message uses up its number and adds no byte |
| `Framing.BaseEndpointChannel.BlockUntilUnpaused` | connections/implementation/base_endpoint_channel.cc:421-432 | lets the writer through when the channel is resumed, first closed, or a wait fails, and changes nothing before |
| `Framing.GateExactly` | connections/implementation/base_endpoint_channel.cc:421-439 | a writer gets through if and only if the channel is not paused or a wait ends by resuming, failing, or closing an open channel |
| `Framing.BaseEndpointChannel.TryDecrypt` | connections/implementation/base_endpoint_channel.cc:361-373 | decodes one frame, or fails and leaves the context alone |
| `Framing.BaseEndpointChannel.Close` | connections/implementation/base_endpoint_channel.cc:264-300 | closes the streams once and lets paused writers go; a second close does nothing |
| `Writers.WholeFrames` | connections/implementation/base_endpoint_channel.cc:192-255 | in every interleaving the wire is the frames of the messages encoded so far, in the order of encoding, short of what the owner of the writer mutex still owes; if the stream is closed, a prefix of that |
| `Writers.WireOrder` | connections/implementation/base_endpoint_channel.cc:203-224 | the frames on the wire are in the order of encoding, and their numbers strictly increase within one context |
| `Writers.NumbersAreDense` | connections/implementation/base_endpoint_channel.cc:213-231 | within one context the numbers of all encoded messages have no gap, so a gap on the wire is a message refused for its size |
| `Writers.ConcurrentRoundTrip` | connections/implementation/base_endpoint_channel.cc:105-262 | however threads interleave, a reader that switches over at the same place hears, in the order of encoding, exactly the plaintext messages within the limit and then exactly the encrypted ones that are not empty, up to the first refused for its size |
| `Writers.PausedWriterIsSilent` | connections/implementation/base_endpoint_channel.cc:192-199 | in every interleaving, a writer that finds the channel paused adds no byte before a later resume or the closing of the channel |
| `Writers.PausedExactly` | connections/implementation/base_endpoint_channel.cc:379-388 | in every interleaving the channel is paused if and only if it was paused and neither resumed nor first closed since |
| `Writers.GateOpens` | connections/implementation/base_endpoint_channel.cc:192-199 | in every interleaving a writer at the gate goes through if and only if the channel is not paused then |
| `Writers.PauseDoesNotStopAWriterInside` | connections/implementation/base_endpoint_channel.cc:379-382 | a run in which a writer that passed the gate writes while the channel is paused |
| `Writers.CloseOnce` | connections/implementation/base_endpoint_channel.cc:264-277 | however many threads close, reader, writer and medium are each closed at most once, in this order, and exactly once when closing is done |
| `Mediums.GetMediums` | connections/medium_selector.h:65-75 | exactly the mediums with that flag, each once, most preferred first |
| `Mediums.IsPreferred` | connections/implementation/base_pcp_handler.cc:1407-1438 | for every list of priorities: the smaller first index, an absent medium counting as last |
| `Mediums.Rank` | connections/implementation/base_pcp_handler.cc:1415-1427 | the first index of a medium in a list, or its length |
| `Mediums.ComputeIntersectionOfSupportedMediums` | connections/implementation/base_pcp_handler.cc:295-351 | exactly the mediums both sides support, with the default for an empty list and the client's consent for WEB_RTC |
| `EndpointChoice.StrictWeakOrder` | connections/implementation/base_pcp_handler.cc:1411-1413 | the comparator is a strict weak order, as section 28.7 of ISO C++17 asks of one |
| `EndpointChoice.GetDiscoveredEndpoints` | connections/implementation/base_pcp_handler.cc:861-875 | a permutation of exactly that id's records, sorted by preference |
| `EndpointChoice.MediumSupportedByClientOptions` | connections/implementation/base_pcp_handler.cc:763-772 | true exactly for the mediums the options allow |
| `EndpointChoice.TryInOrder` | connections/implementation/base_pcp_handler.cc:666-682 | the allowed records before the first that connects, each tried once and failed |
| `EndpointChoice.ConnectToBest` | connections/implementation/base_pcp_handler.cc:662-692 | the choice is an allowed record of that id, and every strictly better allowed one was tried as often as it is there and failed; without a choice, exactly the allowed ones were tried |
| `Discovery.CallbacksAgree` | connections/implementation/base_pcp_handler.cc:1248-1341 | over any run, the calls about an id in a session alternate starting with found, and it is reported visible exactly if it has a record |
| `Discovery.EveryCallIsNews` | connections/implementation/base_pcp_handler.cc:1248-1341 | over any run, a found call is made only for an id not listed, a lost call only for one that is, and the ids listed are those with a record |
| `Discovery.NoCallIsIgnored` | connections/implementation/client_proxy.cc:294-380 | over any run of starting, stopping and the handler's events, a discovering client ignored no call exactly if all named its service, and then its own list is exactly the ids with a record; a client that is not discovering has an empty list |
| `Discovery.OneRecordPerMedium` | connections/implementation/base_pcp_handler.cc:1257-1286 | over any run, at most one record per id and medium, for every medium but WEB_RTC |
| `Discovery.OneWebRtcRecord` | connections/implementation/base_pcp_handler.cc:1732-1762 | up to any point of a run WEB_RTC records were unique if and only if no append found one there |
| `Discovery.SecondAppendDuplicates` | connections/implementation/base_pcp_handler.cc:1744-1760 | two allowed appends to a connectable endpoint always leave two WEB_RTC records |
| `Discovery.FiledUnderItsId` | connections/implementation/base_pcp_handler.cc:1283-1286 | over any run, every record is kept under its own id |
| `Discovery.LostExactly` | connections/implementation/base_pcp_handler.cc:1315-1339 | a loss takes the first record over the lost medium of that id, and no other of any id; the client is told if and only if it was the id's only one |
| `Discovery.FoundExactly` | connections/implementation/base_pcp_handler.cc:1257-1299 | a find puts its record in place of one with another info over its medium, or adds it, and touches no other; the client is told of the loss and the new info, or of a new id |
| `Discovery.BluetoothAppendedExactly` | connections/implementation/base_pcp_handler.cc:1685-1730 | one record with the info and service of the first is added if and only if it is allowed, the device valid, the id known and without one over Bluetooth |
| `Discovery.WebRtcAppendedExactly` | connections/implementation/base_pcp_handler.cc:1732-1762 | one such record is added if and only if it is allowed and some record of the id can connect |
| `Discovery.RecordIsLastWord` | connections/implementation/base_pcp_handler.cc:1248-1341 | over any run, for every medium but WEB_RTC, an id has a record over it if and only if the last word about it there was not a loss |
| `Discovery.FoundInfoIsKept` | connections/implementation/base_pcp_handler.cc:1262-1279 | over any run, for every such medium, a find leaves one record over it, with the info found |
| `Discovery.EndpointIndex.StartDiscovery` | connections/implementation/base_pcp_handler.cc:376-381 | the index is emptied, and a new session begins |
| `Discovery.EndpointIndex.OnEndpointFound` | connections/implementation/base_pcp_handler.cc:1248-1300 | the step `OnFound`: a new medium, a changed info, or nothing |
| `Discovery.EndpointIndex.OnEndpointLost` | connections/implementation/base_pcp_handler.cc:1302-1341 | the step `OnLost`: the first record of the medium goes, with a call if it was the last |
| `Discovery.EndpointIndex.AppendRemoteBluetoothMacAddressEndpoint` | connections/implementation/base_pcp_handler.cc:1685-1730 | the step `AppendBluetooth`, and whether a record was appended |
| `Discovery.EndpointIndex.AppendWebRtcEndpoint` | connections/implementation/base_pcp_handler.cc:1732-1762 | the step `AppendWebRtc`, and whether a record was appended |
| `Upgrade.Wrap` | connections/implementation/service_id_constants.h:40-49 | the name is kept in front; empty stays empty, and everything else ends with the postfix |
| `Upgrade.WrapKeepsTheName` | connections/implementation/service_id_constants.h:40-49 | a name with the postfix, or empty, is kept as it is; any other is followed by the postfix and nothing else; wrapping twice is wrapping once |
| `Upgrade.WrapIsInjective` | connections/implementation/service_id_constants.h:40-49 | different names without the postfix stay different |
| `Upgrade.BaseBwuHandler.InitializeUpgradedMediumForEndpoint` | connections/implementation/base_bwu_handler.cc:30-46 | the pair is added if a path became available; no hook; no empty set |
| `Upgrade.BaseBwuHandler.RevertInitiatorState` | connections/implementation/base_bwu_handler.cc:48-53 | no pair is left; the hook was called once for each service that had one; no empty set |
| `Upgrade.BaseBwuHandler.RevertInitiatorStateFor` | connections/implementation/base_bwu_handler.cc:55-76 | the pair is removed, unless the service has no postfix; the hook is called once exactly if it was the service's last; no empty set |
| `Upgrade.HookOncePerUpgrade` | connections/implementation/base_bwu_handler.h:49-52 | over any run, the hook was called for a service exactly once for each time it became active, but for a time that still lasts |
| `Upgrade.OnlyWrappedServices` | connections/implementation/base_bwu_handler.h:65-69 | over any run, every service kept is empty or has the postfix |
| `Upgrade.RevertUndoes` | connections/implementation/base_bwu_handler.cc:55-62 | reverting an endpoint undoes its upgrade if and only if the service is not empty |
| `Upgrade.RevertSparesOthers` | connections/implementation/base_bwu_handler.cc:55-76 | reverting an endpoint of one service leaves every pair of another |
| `Upgrade.PairIsLastWord` | connections/implementation/base_bwu_handler.cc:30-76 | over any run, a pair is kept if and only if it was upgraded, and not reverted alone or with all since |
| `GattClient.CountedThroughout` | fastpair/fast_pair_controller.h:58-108 | over any run on any controllers, the count is the number of live handles and the client exists exactly while there is one, all along if and only if no only handle was copy-assigned to itself |
| `GattClient.DereferenceSucceeds` | fastpair/fast_pair_controller.h:101-104 | without copy-assigning a handle to itself, dereferencing a live handle never fails its check |
| `GattClient.SelfAssignmentLosesTheClient` | fastpair/fast_pair_controller.h:76-85 | what that self-assignment costs, then and later |
| `GattClient.StepCounted` | fastpair/fast_pair_controller.h:171-176 | every event keeps the counting right, but for that self-assignment |
| `GattClient.FastPairController.GetGattClientRef` | fastpair/fast_pair_controller.cc:121-139 | a new handle; the client is created and the count restarted if there was none |
| `GattClient.FastPairController.ReleaseGattClient` | fastpair/fast_pair_controller.h:172-176 | the count goes down, and at zero the client goes |
| `GattClient.GattClientRef.CopyAssign` | fastpair/fast_pair_controller.h:76-85 | releases the old controller, acquires the new one, in this order also if they are the same |
| `GattClient.GattClientRef.MoveAssign` | fastpair/fast_pair_controller.h:86-93 | releases the old controller and empties the other handle, also if it is the same handle |

## Left out

- Key agreement, encryption and message parsing: a context is a pair of functions, a frame is already parsed.
- Radios, sockets, analytics, logging, clocks, alarms for lost endpoints and time-outs.
- The latch of `OnIncomingFrame` on a repeated answer, which the code does not release.
- What becomes of incoming channels refused before they are pending; their destructors are not part of this model.
- `EndpointManager` and `EndpointChannelManager` as state machines of their own: they own a channel after it is handed over, and their disconnections, removals and client clean-ups are free events.
- Partial stream failures other than closing: a stream fails in `Writers` only once it was closed.
- `RevertResponderState`, which calls the hook without touching the bookkeeping.
- The C and Dart adapters, the presence classes, the plug-in map and observers of Fast Pair, and the checks on options.
- EndpointChoice.GetDiscoveredEndpoints: the order of equally preferred records is left open, as `std::sort` leaves it.
- PcpHandler.BasePcpHandler.ProcessTieBreakLoss: does not model the call of `DiscardEndpoint`; what the endpoint manager then does is a free event.
- PcpHandler.BasePcpHandler.ProcessPreConnectionResultFailure: does not model the optional call of `DiscardEndpoint`, for the same reason.
- PcpHandler.BasePcpHandler.EvaluateConnectionResult: does not model the immediate or delayed call of `DiscardEndpoint` after a rejection, for the same reason.
- PcpTheorems.StaleFailure: assumes that the channel passed to the callback can still be read; `PcpJobs.FailureReadsDestroyed` says when it cannot.
- PcpTheorems.NoMissingHandshake: one way only; a rejecting response for a connected endpoint can also end without harm, so the converse is `BelatedAcceptIsFatal`, for accepting ones.

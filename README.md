# Data-channel test server session, modelled in Dafny

The data-channel test server (`browser-test/dcTestServer.cpp`) is a small
WebRTC peer that a browser test runner drives over HTTP. It keeps one
`TestSession`: at most one peer connection, the name of the scenario being run
(`currentTest`), a table of up to 16 server-created data channels, the ICE
gathering flag, the connection state, and an ordered registry of per-channel
statistics. The server's behaviour is the way its HTTP handlers and engine
callbacks change that state:

- `POST /offer?test=<name>` negotiates a new peer connection step by step.
- `POST /reset` returns the session to idle.
- `GET /results` prints the registry as JSON.
- The callbacks count, echo and send messages on the data channels.

This project models that session as the Dafny class `Session.TestSession`.
Each handler and callback is a method with `modifies` clauses, and the loops
of the source are `while` loops with invariants:

- the registry search;
- the 50-message bursts;
- the five `srv-<i>` creations;
- the ICE poll;
- the results listing.

The WebRTC engine (the Kinesis Video WebRTC SDK) is the class `Engine.Engine`.
Each of its calls succeeds or fails as the engine chooses, and each is appended
to a ghost log of `Engine.Call` values. The session's contracts say which calls
it made, in which order and with which outcomes. For example:

- an echo sends exactly the received bytes with the same binary flag;
- the burst handler sends `server-msg-0` … `server-msg-49` in order;
- every failure from `setRemoteDescription` on ends with `freePeerConnection`.

The modules are:

- `Util`: options, bytes, the ASCII bytes of C strings, and `%d` as
  `Decimal`, with its round trip.
- `Stats`: the statistics registry (`findOrCreateStats`), and the `Record`
  step that each handler performs on it.
- `Engine`: the engine oracle and its call log.
- `Scenario`: the scenario names, the channel topology of each, the open
  action of each, and the payloads the server sends.
- `Results`: the JSON text of `/results`.
- `Session`: the `TestSession` class, the traces of `handleOffer`, and the
  error responses.

Where the code does less than one might expect of it, the model follows the code:

- `server-creates-dc` and `server-sends-binary` count their single send
  whether or not it succeeded (`:148-149`, `:154-155`). The burst open action
  counts only successes.
- The failure paths of `handleOffer` after `configureForTest` leave
  `currentTest`, the channel table and the registry as configured. They also
  leave a gathering flag that was already set. So an offer following one that
  failed after ICE gathering does not wait again, and cannot time out
  (`HandleOffer`'s last `ensures`).
- A failed `createPeerConnection` frees nothing (`:296-302`).

## Model

All source paths are in `browser-test/dcTestServer.cpp`.

| member | source | states |
|---|---|---|
| Util.Decimal | browser-test/dcTestServer.cpp:402-405 | `%d` of a counter is a non-empty string of digits, one digit exactly for values below 10, at most two below 100, with no leading zero |
| Util.DecimalRoundTrip | browser-test/dcTestServer.cpp:402-405 | reading the printed digits back gives the printed number |
| Util.DecimalInjective | browser-test/dcTestServer.cpp:129 | different numbers print differently |
| Util.Ascii | browser-test/dcTestServer.cpp:147-148 | the bytes sent for a C string are as many as its characters, each with the character's code |
| Util.AsciiInjective | browser-test/dcTestServer.cpp:129-130 | two texts are sent as the same bytes only if they are the same text |
| Stats.IndexOf | browser-test/dcTestServer.cpp:62-64 | the position found holds the name and no earlier entry does; none is found exactly when no entry has the name |
| Stats.FindOrCreate | browser-test/dcTestServer.cpp:60-67 | an existing entry is handed back with the registry unchanged; otherwise exactly one fresh `{name,0,0,0,false}` is appended at the end and handed back; names stay unique |
| Stats.FindOrCreateIdempotent | browser-test/dcTestServer.cpp:60-67 | finding the same name again changes nothing and hands back the same entry |
| Stats.Record | browser-test/dcTestServer.cpp:99-102 | a handler's update grows the registry by one only for a new name, changes only the entry found, adds the delta to it, and keeps names unique |
| Stats.RecordIndex | browser-test/dcTestServer.cpp:60-67 | after an update the name is found where `findOrCreateStats` put it |
| Stats.RecordLookup | browser-test/dcTestServer.cpp:99-102 | after an update the channel's entry is the old one plus the delta, and every other channel reads as before |
| Stats.RecordTwice | browser-test/dcTestServer.cpp:98-114 | two events on one channel add up: their updates compose into one update by the summed delta |
| Scenario.ServerMsgsDistinct | browser-test/dcTestServer.cpp:129-130 | numbered burst messages (`server-msg-i`, `server-burst-i`) with different numbers are different byte strings |
| Scenario.MultiTopology | browser-test/dcTestServer.cpp:236-242 | `server-creates-multi` asks for `srv-0` to `srv-4` in that order, with default options and distinct names |
| Scenario.Topology | browser-test/dcTestServer.cpp:209-252 | every scenario asks for at most 5 channels (fewer than the 16 slots), with distinct names |
| Scenario.TopologyTable | browser-test/dcTestServer.cpp:212-242 | maxretransmits is ordered with 3 retransmits and no lifetime, maxlifetime is ordered with 1000 ms and no retransmits, unordered is unordered, multi has `srv-0..4`; exactly the known scenario names create channels, `echo` and unknown names none |
| Scenario.BinaryPattern | browser-test/dcTestServer.cpp:152-153 | the binary pattern is 1024 bytes long, byte i being i mod 256 |
| Scenario.ServerMsg | browser-test/dcTestServer.cpp:129 | `server-msg-%d` is ASCII, the number follows the prefix, and for the 50 burst indices it fits the 64-byte buffer, so nothing is truncated |
| Scenario.ServerBurst | browser-test/dcTestServer.cpp:160 | `server-burst-%d` is ASCII, the number follows the prefix, and for the 50 burst indices it fits the 64-byte buffer |
| Scenario.MultiName | browser-test/dcTestServer.cpp:238-239 | `srv-%d` puts the number after the prefix, and the five names fit the 32-byte buffer |
| Scenario.OpenPayloads | browser-test/dcTestServer.cpp:147-161 | hello sends the one text `hello from server`, the pattern action the one 1024-byte pattern, the burst action the 50 payloads `server-burst-i` in order; no action sends nothing, and it is the only one that sends nothing |
| Scenario.OpenIsBinary | browser-test/dcTestServer.cpp:148-161 | only the pattern is sent as binary, and it is one message of 1024 bytes; hello and the burst are text |
| Results.ChannelJson | browser-test/dcTestServer.cpp:402-405 | one channel's object carries the channel name verbatim right after `{"name": "` and ends with `}` |
| Results.ResultsHead | browser-test/dcTestServer.cpp:397 | the text before the listing carries the scenario name verbatim right after `{"test": "` and ends with the array's `[` |
| Results.ResultsJson | browser-test/dcTestServer.cpp:397-408 | the response is the head, then exactly the channel listing, then `]}` |
| Results.JoinSnoc | browser-test/dcTestServer.cpp:398-407 | appending an object to the listing appends a comma (unless it is the first) and the object |
| Results.JoinConcat | browser-test/dcTestServer.cpp:398-407 | the listing of two runs of objects is the first listing, a comma when both are non-empty, and the second |
| Results.ChannelsJsonConcat | browser-test/dcTestServer.cpp:398-407 | channels are listed in registry order, each exactly once |
| Results.ChannelsJsonPrefix | browser-test/dcTestServer.cpp:398-407 | one more loop iteration extends the listing by a comma (after the first) and the next channel's object |
| Results.ChannelsJsonSingle | browser-test/dcTestServer.cpp:398-407 | a single channel is listed as its object alone |
| Results.IdleResults | browser-test/dcTestServer.cpp:397-408 | an idle server reports `{"test": "", "channels": []}` |
| Session.TestName | browser-test/dcTestServer.cpp:259-262 | the `test` parameter when present; `echo` exactly when it is absent or is `echo` |
| Session.LocalRtcConfiguration | browser-test/dcTestServer.cpp:482-485 | local candidate gathering times out after five polls of the ICE wait (500 ms); nomination and connectivity checks time out with the wait itself (100 polls, 10 s) |
| Session.StartCalls | browser-test/dcTestServer.cpp:277-302 | an early failure is a cut-off prologue: the allocation of body length plus one, then the prologue's calls, all successful, up to the one that failed, which is last |
| Session.Prologue | browser-test/dcTestServer.cpp:277-307 | six successful calls: allocation, parse, creation of the connection, then the ICE candidate, connection state and remote channel callbacks registered on it |
| Session.StageTail | browser-test/dcTestServer.cpp:313-371 | starts with `setRemoteDescription`; on success every call succeeded and the serialized answer is last; on failure every call before the last two succeeded and the one before the free failed, except on the ICE timeout, where `setLocalDescription` succeeded just before the free |
| Scenario.OpenActionOf | browser-test/dcTestServer.cpp:146-156 | only `server-creates-dc`, `server-sends-binary` and `burst` have an open action, and each of them creates exactly one server channel |
| Session.IceFlagAfter | browser-test/dcTestServer.cpp:313-371 | the gathering flag after a handshake: set on success and on the answer failures after the wait, clear on the timeout, untouched by the failures before the wait; once set it stays set except on a timeout, since `handleOffer` never clears it |
| Session.OpenSent | browser-test/dcTestServer.cpp:146-172 | an open action counts no more sends than it made; the single-send actions count every send (`:148-149`, `:154-155`); the burst counts all 50 when all succeeded (`:161-163`) |
| Session.CreationCalls | browser-test/dcTestServer.cpp:198-203 | one creation call with the requested name and options; on success it is followed by binding the open handler, then the echo handler, to the new channel; on failure by nothing |
| Session.ErrorResponse | browser-test/dcTestServer.cpp:266-368 | 409 exactly for the conflict, 400 exactly for an invalid SDP, 504 exactly for the ICE timeout, 500 exactly for the six engine failures |
| Session.ErrorResponsesDistinct | browser-test/dcTestServer.cpp:266-368 | different failures give different responses |
| Session.TailFreesOnFailure | browser-test/dcTestServer.cpp:313-371 | from `setRemoteDescription` on, the connection is freed as the very last call exactly when the handshake failed, and never earlier |
| Session.EarlyFailuresFreeNothing | browser-test/dcTestServer.cpp:277-302 | failures up to and including `createPeerConnection` free nothing; the create failure is the one whose last call is `createPeerConnection` |
| Session.NoCreationsOutsideConfig | browser-test/dcTestServer.cpp:296-368 | neither the prologue nor the handshake creates a data channel |
| Session.CreationCallsTrace | browser-test/dcTestServer.cpp:194-207 | one `createChannel` is one creation call, followed, on success only, by binding the open and echo handlers; it creates the returned channel or nothing |
| Session.CreationTraceConcat | browser-test/dcTestServer.cpp:236-242 | creations for two request lists, one after the other, are the creations for the joined list |
| Session.CreationStep | browser-test/dcTestServer.cpp:237-241 | one more `createChannel` in the loop extends the trace by the next request and the created channels by its channel |
| Session.ComposeNegotiation | browser-test/dcTestServer.cpp:309-371 | configuring then handshaking is a negotiation trace, and only the configuration creates channels |
| Session.ComposeOffer | browser-test/dcTestServer.cpp:272-371 | prologue then negotiation is a whole offer trace on the connection created by the prologue |
| Session.TestSession.constructor | browser-test/dcTestServer.cpp:473-485 | the session starts idle (no connection, flag clear, state NONE, no scenario, no channels, empty registry) with the 500 ms / 10 s / 10 s ICE timeouts |
| Session.TestSession.FindOrCreateStats | browser-test/dcTestServer.cpp:60-67 | the linear search leaves the registry and hands back the position exactly as `FindOrCreate` says |
| Session.TestSession.OnIceCandidate | browser-test/dcTestServer.cpp:83-89 | the flag becomes set on the NULL candidate and is otherwise unchanged |
| Session.TestSession.OnConnectionStateChange | browser-test/dcTestServer.cpp:91-95 | the connection state becomes the reported one |
| Session.TestSession.CountReceived | browser-test/dcTestServer.cpp:99-102 | the channel's entry (found or created) counts one more message and its bytes |
| Session.TestSession.OnDataChannelMessageEcho | browser-test/dcTestServer.cpp:98-114 | exactly one send of exactly the received bytes (length 0 for an empty message) with the same binary flag; the entry counts one message, its bytes, and one send iff that send succeeded |
| Session.TestSession.SendCounted | browser-test/dcTestServer.cpp:128-134 | one text send per payload in order, going on after failures; the entry's sent count grows by the number of successful sends |
| Session.TestSession.OnDataChannelMessageBurst | browser-test/dcTestServer.cpp:117-136 | the message is always counted; at 5 bytes or more exactly the 50 sends `server-msg-0..49` follow in order, and only successes are counted; below 5 bytes nothing is sent |
| Session.TestSession.FillPattern | browser-test/dcTestServer.cpp:152-153 | the buffer holds byte i = i mod 256 for i < 1024 |
| Session.TestSession.OnServerChannelOpen | browser-test/dcTestServer.cpp:139-173 | the entry is marked opened; the scenario's sends go out in order (hello as text, the pattern as binary, `server-burst-0..49` as text, or none); hello and pattern are counted unconditionally, burst sends only on success |
| Session.TestSession.MarkOpen | browser-test/dcTestServer.cpp:143-144 | the channel's entry (found or created) is marked opened |
| Session.TestSession.RunOpenAction | browser-test/dcTestServer.cpp:146-172 | the open action chosen by `currentTest` makes its sends in order and counts them as the source does |
| Session.TestSession.SendAndCount | browser-test/dcTestServer.cpp:148-149 | one send of the payload, counted as sent whatever its outcome |
| Session.TestSession.OnDataChannel | browser-test/dcTestServer.cpp:176-185 | the remote channel's entry is marked opened and the echo handler is bound to it, whatever the scenario |
| Session.TestSession.CreateChannel | browser-test/dcTestServer.cpp:194-207 | with all 16 slots taken nothing is called and the table and count are unchanged; otherwise one creation is attempted, and on success the channel fills the next slot, gets its handlers and is counted |
| Session.TestSession.StoreChannel | browser-test/dcTestServer.cpp:200-203 | the new channel goes into slot `serverChannelCount`, gets the open and echo handlers, and the count grows by one |
| Session.TestSession.CreateFirstChannel | browser-test/dcTestServer.cpp:209-251 | a single-channel scenario attempts exactly its one creation |
| Session.TestSession.CreateMultiChannels | browser-test/dcTestServer.cpp:236-242 | the loop attempts the creations of `srv-0..4` in order; the slots then hold exactly the created channels |
| Session.TestSession.ConfigureForTest | browser-test/dcTestServer.cpp:189-253 | `currentTest` becomes the scenario; the creations attempted are exactly its topology, in order; the count equals the number of successful creations and the first slots hold them |
| Session.TestSession.WaitForIceGathering | browser-test/dcTestServer.cpp:334-338 | at most 100 polls; none when gathering was already done; when gathering is still not done afterwards, all 100 polls passed |
| Session.TestSession.Fail | browser-test/dcTestServer.cpp:316-319 | a failure frees the connection, leaves none, and answers the failure's response |
| Session.TestSession.CompleteHandshake | browser-test/dcTestServer.cpp:313-371 | the handshake calls run in order up to the first failure, which frees the connection and answers its error; on success the connection stays and the status is 200 |
| Session.TestSession.StartPeerConnection | browser-test/dcTestServer.cpp:272-307 | allocation, parse and creation happen in order and stop at the first failure; on success the three callbacks are registered |
| Session.TestSession.HandleOffer | browser-test/dcTestServer.cpp:257-372 | the test name defaults to `echo`; 409 exactly when a connection exists, and then nothing is called or changed; failures before a connection change nothing; past creation the trace is prologue, configuration, handshake, the scenario is current, and a connection is left only on success |
| Session.TestSession.OfferOnFreeSession | browser-test/dcTestServer.cpp:272-371 | `handleOffer` past the conflict check, with the same outcomes |
| Session.TestSession.Negotiate | browser-test/dcTestServer.cpp:309-371 | configuration followed by the handshake on the new connection |
| Session.TestSession.HandleReset | browser-test/dcTestServer.cpp:374-392 | an existing connection is freed; afterwards no connection, flag clear, state NONE, no scenario, count 0, empty registry; the response is `{"status": "ok"}` |
| Session.ResetTwice | browser-test/dcTestServer.cpp:374-392 | resetting twice leaves the same state and answers the same as resetting once; the second reset calls nothing |
| Session.TestSession.HandleResults | browser-test/dcTestServer.cpp:394-410 | the response is the scenario name and every registry entry's object in registry order, and nothing changes |

## Left out

- HTTP layer: the httplib server, routing, static files (`readFileContent`,
  `:69-79`, `:412-444`), and `main`'s argument parsing and SDK start and stop
  (`:446-506`). These are I/O and bootstrap. Requests and responses are plain
  values.
- Engine internals: SDP parsing, ICE, DTLS and SCTP are not modelled. Each
  SDK function is an `Engine.Engine` method whose outcome is free, except
  that a created data channel carries the requested name. The SDK is not
  part of this model, so these methods cite no source lines.
- Concurrency: the mutex, the atomic flag, and callbacks arriving on engine
  threads are not modelled. Each callback is one atomic step. The registry
  pointer escaping the lock (`:60-67`) is a concurrency matter and is not
  modelled.
- Timing: `GETTIME` and the 10 s deadline are a count of 100 polls of
  100 ms. The burst open action's `THREAD_SLEEP` every ten sends (`:168-170`)
  has no effect on state and is left out.
- Formatting: `printf` logging is left out, and so is the 512-byte
  `snprintf` truncation in `/results`. The JSON is plain concatenation, and
  names are not escaped, as in the source.
- Counters: the `int` counters have no 32-bit overflow. They are `nat`.
- SDP contents: the offer body and the answer are opaque strings.
  `answerSdp`, `serverChannelStorage` and the `MEMCPY` into the SDP copy
  are not modelled. Only the allocation's size and outcome are.
- Session.TestSession.HandleOffer: the engine is assumed to leave the
  peer-connection handle NULL when `createPeerConnection` fails, so the
  model's session holds no connection after that failure.
- Session.TestSession.CompleteHandshake: the failure paths from
  `setRemoteDescription` on (`:318`, `:329`, `:344`, `:354`, `:366`) do not
  clear `pPeerConnection` themselves. The model assumes `freePeerConnection`
  sets the caller's handle to NULL, so no connection is left after them.
- Session.TestSession.OnDataChannelMessageBurst: the source never registers
  this handler. It is modelled as an operation of its own.
- The Android test application files: these are test and packaging glue
  with no session logic.
- The `opened` field of `ChannelStats` is called `isOpen` in the model.

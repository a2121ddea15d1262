# Low-power TCP gateway: verified model

The gateway accepts TCP connections from devices that speak either newline-terminated JSON or a small binary
protocol, keeps a presence registry mirrored in Redis, and dispatches commands with timed retries. This project
models that behaviour in Dafny, handler by handler, and proves what single operations compute and what whole runs
keep.

| file | part of the gateway |
|---|---|
| `Gf2.dfy`, `Crc32.dfy` | polynomials over GF(2), CRC-32 as a polynomial remainder, the bitwise loop |
| `Bytes.dfy`, `Codec.dfy` | octets and words; frames, the length-value payload, the frames the gateway sends |
| `Text.dfy`, `AuthFields.dfy` | numerals and scanning; the authorization string and its signature |
| `Names.dfy` | MQTT topics |
| `Model.dfy`, `Redis.dfy` | shared entities; key names and the expiring store |
| `FrameReader.dfy`, `LineReader.dfy`, `WriteQueue.dfy` | the two read loops and the write strand of a session |
| `Presence.dfy` | the `sessions` and `states` maps, their Redis records, the offline checker |
| `Dispatcher.dfy`, `Timing.dfy`, `WakeManager.dfy` | pending commands, their histories and clocks, the tick loop |
| `Session.dfy` | protocol detection, all message handlers, disconnection |
| `World.dfy` | the whole gateway as a state machine; the invariant of every reachable state |
| `Effects.dfy` | what each handler does to the whole gateway, written out |
| `Records.dfy` | the online records over all runs: when memory and store agree |
| `Histories.dfy`, `Coverage.dfy`, `Transmissions.dfy` | commands over all runs: histories and timing, stored records, what is sent |
| `Streams.dfy` | the outgoing streams, from the buffers posted in a run to what the peer reads |
| `Endings.dfy` | commands over all runs: acknowledged, completed, or certain to fail |
| `Guarantees.dfy`, `Grants.dfy` | presence, registration, silence, granted intervals and authentication over all runs |
| `Owners.dfy` | which session is registered for a device, over all runs |
| `Handling.dfy` | the low-power read loop and its handlers together |

Objects that the program updates in place are classes (`ByteVector`, `RedisStore`, `LowPowerReader`,
`JsonLineReader`, `Writer`, `GatewayContext`, `TcpGatewayServer`, `WakeManager`, `DeviceSession`). Each of their
methods is proved equal to a function of the state before it, and the lemmas are about those functions. A handler is
one atomic step, as with one worker thread. Time is a parameter in milliseconds. HMAC, AES, base64, random octets and
JSON are parameters about which nothing is assumed, except where a theorem says so. A run (`World.IsRun`) is any
sequence of handlers in any order that respects the detected protocol of each session; reads and errors may still
be handled after a socket was closed.

What a theorem over runs assumes is in its own `requires` clauses, and most assume only that the events form a run.
Results about stored values assume that the key families do not collide (`SeparatesFamilies`, proved of the real key
function in `Redis.dfy`). Results about stored records speak of a set of device ids that contains every id that logs
in or is indexed: `OnlineApart` and `PendingApart` say that no two of them share a record, which holds in the store
exactly when no two agree up to their first NUL, and exactly when none contains a NUL. A store that already holds
records at the start, as after a restart, matters only to the results about online records, which need none of those
ids to have one (`Records.NoneOnline`).

Where the plain statement is false, the exact condition is proved:

- Command histories are well formed if and only if no two commands were sent in one millisecond
  (`Histories.LifecycleIffDistinct`), since message ids are millisecond timestamps; a login and two commands in one
  millisecond are a run that breaks them (`Endings.SameMillisecondRun`).
- A topic gives its device id back if and only if the id has no slash, over prefixes that have no marker in them;
  other prefixes lose every id (`Names.PlainPrefixIsExact`).
- Two Redis names share a key if and only if they are of one family and agree up to their first NUL
  (`Redis.KeysCollide`). Over a set of ids, every run keeps memory and Redis in agreement if and only if no two of
  them share a record, or none is ever written (`Records.AgreementIffApart`); ids that agree up to a NUL give a run that breaks it
  (`Records.NulLoginsBreakAgreement`).
- Every pending command keeps its stored record if and only if the record's time to live exceeds (m+1)(A+P−1)
  milliseconds, or (m+1)P when A is zero (`Coverage.CoverageIffFits`, for A the acknowledgement timeout, P a positive
  bound between ticks, m the retry limit).
- A JSON session's peer is sent lines only, if and only if no `lowpower_wakeup` command was sent to it
  (`Streams.LinesIffNoBinary`); a login and that command, to a device with a local key, are a run where one was
  (`Streams.BinaryRun`).
- A registered session need not carry the id it is registered for: a second login under another id keeps the first
  registration, and a command for the first id then goes to it (`Owners.RenamedRun`). Exactly such a login or
  authentication ends that every registered session carries its id (`Owners.RenamingCauses`).
- Payloads longer than 65535 octets are truncated in the length field and do not round-trip
  (`Codec.MadeFrameRoundTrip`, `Codec.NestedRoundTrip`).
- Being online does not imply being registered: a login, a silence and a heartbeat on the old connection end online
  and unregistered (`Guarantees.StrandedRun`). From a state where every online id is registered, exactly a heartbeat
  on a session whose id is not registered, or a command that finds its session expired, ends that
  (`Guarantees.StrandedCauses`).

## Model

| member | source | states |
|---|---|---|
| Crc32.ComputeCrc32 | src/protocol/LowPowerProtocol.cpp:140-153 | the nested loops return the complement of the reflected remainder of M(x)·x^32 plus the all-ones term, divided by the generator of section 8.1.1.6.2 of ITU-T V.42 by carry-less multiplication |
| Crc32.Crc32IsUnique | src/protocol/LowPowerProtocol.cpp:140-153 | no other word is such a remainder, whatever the quotient |
| Crc32.BurstDetected | src/protocol/LowPowerProtocol.cpp:140-153 | messages of one length that differ only inside 32 consecutive bits have different codes |
| Crc32.OctetBurstDetected | src/protocol/LowPowerProtocol.cpp:155-157 | strings that differ only inside four consecutive octets have different codes |
| Crc32.Crc32IsAffine | src/protocol/LowPowerProtocol.cpp:140-153 | over three messages of one length the code commutes with exclusive or |
| Gf2.MulIsConvolution | src/protocol/LowPowerProtocol.cpp:146-149 | the multiplication used in the definition is the convolution of coefficients, so each term of a product is the parity of its contributing pairs |
| Gf2.RunDivides | src/protocol/LowPowerProtocol.cpp:143-150 | the shift register ends with the remainder of a long division whose quotient is what it shifted out |
| Gf2.BurstChangesRemainder | src/protocol/LowPowerProtocol.cpp:143-150 | for any generator with constant term, a burst no longer than its degree changes the remainder |
| Codec.EncodeFrame | src/protocol/LowPowerProtocol.cpp:63-74 | the encoder appends header, truncated length and payload, ignoring the size field |
| Codec.EncodedLayout | src/protocol/LowPowerProtocol.cpp:15-29 | octet by octet: version, type, flag, the length modulo 2^16 with its high octet first, the payload |
| Codec.ParseOfEncode | src/protocol/LowPowerProtocol.cpp:31-74 | an encoded frame parses if and only if its payload is at most 65535 octets, and then to the same frame |
| Codec.EncodeOfParse | src/protocol/LowPowerProtocol.cpp:31-74 | encoding a parsed frame gives the original octets |
| Codec.MadeFrameRoundTrip | src/protocol/LowPowerProtocol.cpp:53-61 | a made frame survives the wire if and only if its payload fits |
| Codec.ParseAuthPayloadLV | src/protocol/LowPowerProtocol.cpp:76-105 | the advancing parser computes the length-value reading |
| Codec.BuildAuthPayloadLV | src/protocol/LowPowerProtocol.cpp:107-123 | the appending builder computes the length-value form with truncated lengths |
| Codec.LVLayout | src/protocol/LowPowerProtocol.cpp:107-123 | octet by octet: the three lengths modulo 2^16, high octet first, then iv, encrypted id and data |
| Codec.ParseOfBuildLV | src/protocol/LowPowerProtocol.cpp:76-123 | parsing a built payload succeeds if and only if each field is at most 65535 octets, and gives the fields back |
| Codec.ParsedLVIsExact | src/protocol/LowPowerProtocol.cpp:76-123 | the parser accepts exactly the length-value forms, each with its only reading |
| Codec.NestedRoundTrip | src/protocol/LowPowerProtocol.cpp:31-123 | a payload inside a frame round-trips if and only if 6 plus the three lengths is at most 65535 |
| Codec.MakeHeartbeatFrame | src/protocol/LowPowerProtocol.cpp:125-128 | the five octets of the heartbeat |
| Codec.MakeWakeupFrame | src/protocol/LowPowerProtocol.cpp:130-138 | the wake frame carries the big-endian CRC-32 of the local key |
| Codec.WakeupLayout | src/protocol/LowPowerProtocol.cpp:130-138 | the wake frame is 1, 3, 0, 0, 4 and the CRC-32 of the key, high octet first |
| Codec.WakeupFramesDiffer | src/protocol/LowPowerProtocol.cpp:130-157 | local keys that differ only inside four consecutive octets have different wake frames |
| AuthFields.GetAuthField | src/protocol/LowPowerProtocol.cpp:310-330 | the scanning loop returns the field value |
| AuthFields.FieldOfIsExact | src/protocol/LowPowerProtocol.cpp:310-330 | for any split into comma-free segments, the result is the value of the first segment whose text before its first '=' is the key, or empty, and nothing else is |
| AuthFields.SplitExists | src/protocol/LowPowerProtocol.cpp:310-314 | every string has such a split |
| AuthFields.ResponseFields | src/protocol/LowPowerProtocol.cpp:383-390 | the built authorization gives back its time always and its random exactly when that has no comma |
| AuthFields.ResponseVerifies | src/protocol/LowPowerProtocol.cpp:359-397 | for any HMAC, a request with the built authorization verifies if and only if it carries the built signature |
| Names.ExtractInvertsMake | src/backend/MqttBackend.cpp:118-141 | over a plain prefix the extracted id is the id if and only if it has no slash |
| Names.OtherPrefixIgnoresId | src/backend/MqttBackend.cpp:126-141 | over any other prefix the extracted text does not depend on the id |
| Names.PlainPrefixIsExact | src/backend/MqttBackend.cpp:118-141 | a prefix is plain if and only if all non-empty slash-free ids come back |
| Names.PlainPrefixMeaning | src/backend/MqttBackend.cpp:126-131 | plain means that the prefix neither contains "/devices/" nor ends with "/devices" |
| Redis.KeysCollide | src/storage/RedisStore.cpp:59-185 | two names are one key if and only if they are of one family and their arguments agree up to the first NUL |
| Redis.PlainKeysAreInjective | src/storage/RedisStore.cpp:112-185 | NUL-free ids and colon-free message ids have keys of their own in all five families |
| Redis.KeyTexts | src/storage/RedisStore.cpp:112-185 | the five keys of NUL-free names, written out |
| Redis.StoreDistinguishes | src/storage/RedisStore.cpp:59-61 | the store's key function tells plain names apart |
| Redis.FamiliesNeverCollide | src/storage/RedisStore.cpp:112-185 | names of different families never share a key |
| Redis.OnlineApartIsExact | src/storage/RedisStore.cpp:141-160 | in the store, ids have online records of their own if and only if no two agree up to their first NUL |
| Redis.PendingApartIsExact | src/storage/RedisStore.cpp:162-185 | in the store, messages to a set of ids have records of their own if and only if no id contains a NUL |
| Redis.MsgIdsAreDistinct | src/service/WakeManager.cpp:31-33 | message ids are equal only for equal milliseconds, and are free of colons and NULs |
| Redis.MsgIdText | src/service/WakeManager.cpp:31-33 | a message id is W followed by the decimal numeral of the millisecond |
| Redis.RedisStore.SetOnline | src/storage/RedisStore.cpp:141-156 | writes one record that lapses after the time to live; a time to live that is not positive is refused |
| Redis.RedisStore.SavePendingWake | src/storage/RedisStore.cpp:162-178 | the same for a pending command |
| Redis.RedisStore.RemovePendingWake | src/storage/RedisStore.cpp:180-185 | removes the record of one command |
| FrameReader.ChunkIndependence | src/session/DeviceSession.cpp:158-228 | whatever the chunks, the frames delivered and the octets left are those of a greedy reading of the whole stream |
| FrameReader.GreedyConserves | src/session/DeviceSession.cpp:158-228 | the delivered frames, encoded, followed by the octets left are the stream; each delivered frame is well sized and of version 1 |
| FrameReader.TailIsPartialFrame | src/session/DeviceSession.cpp:158-228 | while reading goes on, what is left is a proper prefix of a frame |
| FrameReader.DecodeSent | src/session/DeviceSession.cpp:158-228 | reading the encodings of frames gives exactly those frames in order |
| FrameReader.LowPowerReader.OnReceive | src/session/DeviceSession.cpp:158-228 | the header/payload loop keeps its deliveries and unread octets equal to the greedy reading of everything received, stopping at a bad version or a closing handler |
| LineReader.LinesIgnoreChunks | src/session/DeviceSession.cpp:128-156 | the lines delivered depend on the stream alone |
| LineReader.LineRoundTrip | src/protocol/JsonLineProtocol.cpp:14-18 | one encoded document is read back as itself if and only if it is non-empty, has no newline and does not end in a carriage return |
| LineReader.CarriageReturnIsDropped | src/session/DeviceSession.cpp:145-151 | one carriage return before the newline is dropped, and the line in front of it delivered whole unless it is empty |
| LineReader.ReadSentLines | src/session/DeviceSession.cpp:139-153 | a stream of such documents is read back in order with nothing left |
| LineReader.JsonLineReader.OnReceive | src/session/DeviceSession.cpp:128-156 | the line loop keeps its deliveries and buffer equal to the reading of everything received, and holds no newline back |
| WriteQueue.NextKeepsInv | src/session/DeviceSession.cpp:52-93 | every handler keeps: at most one write, of the front buffer; a waiting queue without error is being written; wire plus queue is everything posted; after an error the wire is a prefix of it |
| WriteQueue.RunKeepsInv | src/session/DeviceSession.cpp:52-93 | the same over every run, and a drained unbroken queue has put exactly the posted octets on the wire |
| WriteQueue.Writer.RunPosted | src/session/DeviceSession.cpp:56-62 | the posted closure appends the buffer and starts a write when none is under way |
| WriteQueue.Writer.OnWritten | src/session/DeviceSession.cpp:81-90 | a completed write pops the front buffer and starts the next |
| WriteQueue.Writer.OnWriteError | src/session/DeviceSession.cpp:82-86 | a failed write ends progress and closes the socket, leaving the queue |
| Presence.RecordIsExact | src/session/DeviceSession.cpp:546-562 | where the record of an id agrees, it is unexpired at a time if and only if the device is online and that time is before its last heartbeat plus the idle timeout |
| Presence.RegisterKeepsInv | src/session/DeviceSession.cpp:546-562 | over ids that share no record, registration keeps the registry invariant and the agreement of every record (who is registered then: Owners.TakingOver) |
| Presence.HeartbeatKeepsInv | src/session/DeviceSession.cpp:304-321 | so does a heartbeat |
| Presence.DisconnectKeepsInv | src/session/DeviceSession.cpp:574-587 | so does a disconnection, also of a session that is no longer the registered one |
| Presence.CheckKeepsInv | src/TcpGatewayServer.cpp:51-85 | so does the checker |
| Presence.CheckIsExact | src/TcpGatewayServer.cpp:51-85 | the checker clears exactly the online devices silent for idle+1 whole seconds or more, and unregisters exactly those |
| Presence.HonouredIntervalSurvives | src/session/DeviceSession.cpp:323-337 | silence of the granted interval survives a check if and only if the idle timeout covers it; max(default, 600) covers every grant |
| Presence.TcpGatewayServer.CheckOffline | src/TcpGatewayServer.cpp:51-85 | the two loops, over the states in any order, change the maps and the store as that function says |
| WakeManagement.WakeManager.SendWake | src/service/WakeManager.cpp:62-140 | the dispatch, its refusals, its choice of protocol, and the document it composes and stores: sequence number and expiry from one reading of the clock, id from another, command and parameters |
| WakeManagement.WakeManager.SendLowPowerWake | src/service/WakeManager.cpp:142-217 | the binary dispatch and its refusal without a local key |
| WakeManagement.WakeManager.MarkAck | src/service/WakeManager.cpp:219-236 | an acknowledgement changes the gateway as the function whose outcome Effects.AckEffect and Endings.MarkEndsForGood state |
| WakeManagement.WakeManager.MarkDone | src/service/WakeManager.cpp:238-257 | a completion removes the record, publishes and erases |
| WakeManagement.WakeManager.OnTick | src/service/WakeManager.cpp:270-305 | the loop in any order plus the removal list turns the map into an order-free function of it, and the notes are those of that order |
| WakeManagement.WakeManager.RetryWake | src/service/WakeManager.cpp:307-348 | a due entry with retries left changes as the function whose outcome Effects.TickEffect states, sends included |
| WakeManagement.TickRefinesEntries | src/service/WakeManager.cpp:270-348 | for every order, each entry and each command's notes, buffers included, are what a function of that entry and one clock reading makes them |
| Model.OctetAt | src/protocol/LowPowerProtocol.cpp:155-157 | the i-th octet of a string is its i-th character modulo 256 |
| Model.CharactersOfOctets | src/protocol/LowPowerProtocol.cpp:96-99 | octets read as characters give the string back if and only if every character is an octet |
| Model.OctetsOfCharacters | src/protocol/LowPowerProtocol.cpp:96-99 | characters read as octets always give the octets back |
| Model.TruncatedDivMeaning | src/service/WakeManager.cpp:115-122 | the integer division that cuts the expiry to whole seconds rounds toward zero |
| Text.ToStringValue | src/service/WakeManager.cpp:31-33 | the text of a number is the decimal numeral that stands for it, after a minus sign if it is negative |
| Dispatcher.SendShape | src/service/WakeManager.cpp:62-217 | a command is sent exactly when its device is registered, the session can be locked, and it goes as a line or a local key is stored; it is then entered for that session, as a JSON line only where the session is not low-power; a refusal changes at most the registration |
| Dispatcher.SendKeepsLifecycle | src/service/WakeManager.cpp:62-217 | a dispatch keeps every command's history well formed if and only if its id has none yet |
| Dispatcher.MarksKeepLifecycle | src/service/WakeManager.cpp:219-257 | acknowledgement and completion keep every history |
| Dispatcher.TickKeepsLifecycle | src/service/WakeManager.cpp:270-348 | a tick keeps every history in any order |
| Timing.TickKeepsClocked | src/service/WakeManager.cpp:270-319 | a tick within a gap of the last one keeps retries and failures between one timeout and one timeout plus a gap after the event before |
| Timing.FailureWindow | src/service/WakeManager.cpp:282-296 | such a history that fails has exactly the permitted retries and fails within [T+(m+1)A, T+(m+1)(A+P)], in fact by T+(m+1)(A+P−1) when A is positive |
| Timing.DeadlineMeaning | src/service/WakeManager.cpp:318-319 | the deadline is at most T+(m+1)(A+P), and equal to it only when the timeout is zero |
| Timing.StretchedTimeoutsFit | src/service/WakeManager.cpp:115-122 | (m+1)(A+P) within the time to live is enough for that, strictly within when the timeout is zero |
| Timing.PendingIsRecorded | src/service/WakeManager.cpp:115-122 | a pending command's record is live when its time to live exceeds the longest time a command can stay pending |
| Timing.DoneRemovesOneRecord | src/service/WakeManager.cpp:245-247 | completion removes the command's record and touches no other plain name |
| Session.AuthenticationIsExact | src/session/DeviceSession.cpp:413-467 | a request is accepted for an id if and only if its payload is a length-value form whose index entry is that id and whose decrypted document is signed for it under its resolved key |
| Session.StoredKeyDecides | src/session/DeviceSession.cpp:525-534 | a request for a device is accepted exactly when it opens and is signed under the stored key, and under the default secret exactly when none is stored |
| Session.AcceptedIsAnswered | src/session/DeviceSession.cpp:482-489 | an accepted request adds exactly one frame to the history; if it fits, it is of type 1 and opens under that key to the device's id and to a document with the heartbeat interval, the request's own random, and a signature for the id over the answer's time and random |
| Session.AnswerVerifies | src/protocol/LowPowerProtocol.cpp:369-429 | an answer that fits its frame is read back whole, and a device that shares the key opens it and finds, by the gateway's own check of a request, the signature for its id over the answer's time and random |
| Session.DeviceSession.BuildAuthResponse | src/protocol/LowPowerProtocol.cpp:369-429 | the answer: interval, the device's random, authorization over time and a fresh random, signature, encrypted with the encrypted id in a length-value frame |
| Session.HeartbeatIsEchoed | src/session/DeviceSession.cpp:494-523 | a received heartbeat frame is answered with its own five octets exactly on a session with an id and a bare frame; otherwise the socket is closed and nothing else changes |
| Session.DisconnectIsIdempotent | src/session/DeviceSession.cpp:569-572 | a second disconnection changes nothing |
| Session.DeviceSession.OnPeek | src/session/DeviceSession.cpp:95-126 | the first octet fixes the protocol or closes the socket |
| Session.DeviceSession.HandleJsonMessage | src/session/DeviceSession.cpp:230-391 | every JSON handler changes the session and the shared state as one function of them |
| Session.DeviceSession.Authenticate | src/session/DeviceSession.cpp:413-467 | the chain of checks computes the authenticated id (Session.StoredKeyDecides says when there is one), with its key and the device's random, and changes nothing |
| Session.DeviceSession.HandleLowPowerFrame | src/session/DeviceSession.cpp:393-523 | every binary handler changes the session and the shared state as one function of them, whose outcomes are Effects.AuthEffect, Effects.AuthRefusalEffect and Effects.HeartbeatEffect |
| Session.DeviceSession.HandleDisconnect | src/session/DeviceSession.cpp:569-597 | the disconnection handler likewise |
| World.RunIsSafe | src/session/DeviceSession.cpp:230-597 | every reachable state, whatever the ids and the store, keeps registered ids online, states under their own ids, registered and logged-in sessions detected, pending commands under their own ids with JSON ones on JSON sessions, and every posted buffer fit for its session's protocol |
| World.NextKeepsProtocols | src/session/DeviceSession.cpp:107-117 | a detected protocol never changes |
| World.RunKeepsProvisioned | src/storage/RedisStore.cpp:120-132 | over every run, no local key, secret or index entry changes |
| Effects.PeekEffect | src/session/DeviceSession.cpp:107-123 | an opening brace makes a JSON session, the octet 1 a low-power one, anything else closes the socket; nothing else changes |
| Effects.LoginEffect | src/session/DeviceSession.cpp:258-296 | a login takes the id over, starts its state anew, renews its record and is acknowledged; nothing else changes |
| Effects.ReportEffect | src/session/DeviceSession.cpp:298-338 | a heartbeat renews the device's own state with what it reports and is told 600 seconds for a reported or last known battery below 10, 300 below 20, else the default; nothing else changes |
| Effects.RefusalEffect | src/session/DeviceSession.cpp:234-269 | malformed and unknown lines, logins without id and heartbeats before login are answered and change nothing |
| Effects.AckEffect | src/session/DeviceSession.cpp:340-350 | an acknowledgement of a pending command removes its entry and publishes "acked"; its record and everything else stay |
| Effects.DoneEffect | src/session/DeviceSession.cpp:352-369 | a completion of a pending command removes its entry and record and publishes "done"; every completion is answered; everything else stays |
| Effects.HostEffect | src/session/DeviceSession.cpp:371-391 | host reports set one field of one state, of a blank one before login |
| Effects.AuthEffect | src/session/DeviceSession.cpp:469-489 | a request signed under the device's key takes the id over, starts its state anew as asleep, renews its record and is answered once; nothing else changes |
| Effects.AuthRefusalEffect | src/session/DeviceSession.cpp:416-467 | a request that no device signed closes the socket and changes nothing else |
| Effects.HeartbeatEffect | src/session/DeviceSession.cpp:494-523 | a bare heartbeat renews the device's own state as asleep and its record and comes back; any other closes the socket; further types do nothing |
| Effects.LossEffect | src/session/DeviceSession.cpp:569-597 | the first loss of a session removes the registration and record of its id and takes it offline; a later one does nothing |
| Effects.CheckEffect | src/TcpGatewayServer.cpp:51-85 | a check takes exactly the devices silent for idle+1 seconds offline, out of the registry and out of the store |
| Effects.RefusedCommandEffect | src/service/WakeManager.cpp:72-83 | which commands are refused, with which reason, and what that changes |
| Effects.LineCommandEffect | src/service/WakeManager.cpp:89-139 | a command to a JSON session is entered, recorded for the whole seconds of the expiry, sent and announced, with the document written out |
| Effects.FrameCommandEffect | src/service/WakeManager.cpp:165-216 | a command to a low-power session, or one that asks for a frame, likewise with the wake frame of the stored key |
| Effects.TickEffect | src/service/WakeManager.cpp:270-348 | a tick in any order: before it is due an entry stays; due without retries left it fails, even without its session; due without its session it stays; otherwise it is counted, rescheduled, announced and sent again as a line or the wake frame of the stored key |
| Histories.LifecycleIffDistinct | src/service/WakeManager.cpp:31-348 | over every run, each command's history is dispatched, retrying(1), …, retrying(k), then at most one of acked, done or failed, with k at most the limit and equal to it on failure, and with 1+k transmissions in JSON only or at most 1+k binary only, if and only if no two commands were sent in one millisecond |
| Histories.CommandFate | src/service/WakeManager.cpp:102-319 | over every run with distinct dispatch times, ticks at most P apart and a lockable session at each due tick: pending only within the deadline T+(m+1)(A+P), otherwise ended, and failed only after m retries at least A apart and inside the window |
| Endings.EndingHasCause | src/session/DeviceSession.cpp:340-369 | over every run, a command is acknowledged only if a line acknowledged it, and done only if one completed it |
| Endings.UnansweredFails | src/service/WakeManager.cpp:270-319 | over every run with distinct dispatch times, ticks at most P apart and a lockable session: a command that no line acknowledges or completes has, once past its deadline, failed after exactly m retries, inside the window |
| Endings.SameMillisecondRun | src/service/WakeManager.cpp:31-33 | a login and two commands in one millisecond are a run whose histories are not well formed |
| Endings.MarkEndsForGood | src/service/WakeManager.cpp:219-257 | over every run with distinct dispatch times, a line that acknowledges or completes a pending command ends it then and there with that one event, and it is never pending nor its history changed again |
| Endings.RunIsBalanced | src/service/WakeManager.cpp:62-348 | over every run, each published dispatch and retry comes with exactly one transmission of its command, and nothing else is transmitted for it |
| Endings.LineGoesWithEveryEvent | src/service/WakeManager.cpp:124-132 | over every run with distinct dispatch times, a command to a JSON session, unless it asks for a frame, is transmitted exactly 1+k times as a line, k its retries, and never as a frame |
| Endings.FrameGoesWithEveryEvent | src/service/WakeManager.cpp:339-345 | a command to a low-power session, or one that asks for a frame, is transmitted exactly 1+k times as a frame and never as a line |
| Coverage.PendingIsCovered | src/service/WakeManager.cpp:115-122 | over every such run, every pending serviced command has its unexpired record when the time to live exceeds the deadline span, as it does if (m+1)(A+P) ≤ 1000·⌊expire/1000⌋ with A positive |
| Coverage.SlowestLapses | src/service/WakeManager.cpp:270-319 | otherwise a run of latest possible ticks ends with the command pending and its record lapsed |
| Coverage.CoverageIffFits | src/service/WakeManager.cpp:115-122 | hence the coverage holds over all runs exactly when the time to live exceeds that span |
| Transmissions.TransmissionsRepeat | src/service/WakeManager.cpp:334-346 | over every run with distinct dispatch times, all transmissions for a command are one and the same buffer to one and the same session; while it is pending that is its stored document, or the wake frame of its device's provisioned key |
| Transmissions.DispatchIsRepeated | src/service/WakeManager.cpp:89-124 | whatever is ever transmitted for a command is what its dispatch composed: the same id, command, parameters, sequence number and expiry, to the session registered then |
| Records.RunKeepsRecords | src/session/DeviceSession.cpp:298-597 | every run over ids that share no record keeps the record of each of them equal to what the registry says of it |
| Records.SharedRecordRun | src/session/DeviceSession.cpp:569-587 | two ids with one record: after both log in and the second is lost, the first is online and registered without a record |
| Records.AgreementIffApart | src/session/DeviceSession.cpp:536-597 | over a set of non-empty ids, all runs keep memory and store in agreement exactly when no two of them share a record, or the idle timeout is not positive and none is ever written |
| Records.NulLoginsBreakAgreement | src/storage/RedisStore.cpp:59-61 | two logins whose ids agree up to a NUL give such a run in the store |
| Guarantees.RegistryOverRuns | src/session/DeviceSession.cpp:258-597 | over every run: registered ids are non-empty and online, states are filed under their own ids, the empty id is never online, a logged-in id keeps its state |
| Guarantees.PresenceOverRuns | src/session/DeviceSession.cpp:298-597 | over every run over ids that share no record, the Redis record of each is unexpired exactly while it is online and within the idle timeout |
| Guarantees.StatesNeverShrink | src/session/DeviceSession.cpp:371-391 | no handler removes a state |
| Guarantees.OfflineCauses | src/TcpGatewayServer.cpp:58-76 | over every run, an online device goes offline exactly by the first disconnection of a session of its id or by a check after idle+1 seconds of silence |
| Guarantees.UnregisteredCauses | src/session/DeviceSession.cpp:574-582 | a device leaves the registry exactly by those events or by a command that finds its session expired |
| Guarantees.StrandedCauses | src/session/DeviceSession.cpp:304-319 | from a reachable state where every online id is registered, exactly a heartbeat of either protocol on a session whose id is not registered, or a command that finds its session expired, leads to one where some is not |
| Guarantees.StrandedRun | src/session/DeviceSession.cpp:304-319 | login, silence, check and heartbeat: a run whose device ends online and unregistered, whatever the configuration |
| Guarantees.GrantIsAnnounced | src/session/DeviceSession.cpp:323-337 | the acknowledgement carries the interval granted for the battery level on record |
| Guarantees.GrantedSilenceIsSpared | src/TcpGatewayServer.cpp:58-76 | with idle ≥ max(default, 600), a device silent no longer than the grant for its battery on record goes offline only when a session of its id is lost |
| Grants.ToldIsHeard | src/session/DeviceSession.cpp:258-338 | over every run, the interval last told to a device in a login or heartbeat acknowledgement is at most max(default, 600), and the device was heard no earlier than it was told |
| Grants.HonouringDeviceStaysOnline | src/session/DeviceSession.cpp:323-337 | over every run with idle ≥ max(default, 600), a device that at every check was last told an interval no longer ago than that interval stays online for as long as no session of its id is lost |
| Owners.RegisteredOnceCarried | src/session/DeviceSession.cpp:536-544 | over every run, the session registered for a device has carried its id |
| Owners.TakingOver | src/session/DeviceSession.cpp:536-544 | a login, or a request signed under the device's key, makes the session the registered one whoever was, brings the device online, and leaves all other registrations and states as they were |
| Owners.LastTakerIsRegistered | src/session/DeviceSession.cpp:536-544 | over every run, while a device is registered its session is the one of its last login or authentication |
| Owners.CommandGoesToLastTaker | src/service/WakeManager.cpp:72-132 | and a command to the device is posted to that session |
| Owners.RenamingCauses | src/session/DeviceSession.cpp:272-286 | from a reachable state where every registered session carries its id, exactly a login or authentication that gives another id to a registered session ends that |
| Owners.RenamedRun | src/session/DeviceSession.cpp:272-286 | two logins under different ids on one session and a command to the first: a run that sends the command to a session with the second id |
| Handling.RejectionCloses | src/session/DeviceSession.cpp:413-502 | a frame handler closes the socket exactly on a failed authentication or a heartbeat without an id or not bare, and does nothing else then |
| Handling.NothingAfterTheEnd | src/session/DeviceSession.cpp:158-228 | over every run in which the frames of a session are the deliveries of its read loop, closing as its handlers do: after a failed authentication, a bad heartbeat or a bad version, no frame of the session is handled |
| Guarantees.NoLongSilence | src/TcpGatewayServer.cpp:40-85 | with checks at most P apart, no device stays online beyond idle+1 seconds plus P of silence |
| Streams.NoLineToLowPower | src/service/WakeManager.cpp:85-108 | over every run, no JSON line is posted to a low-power session; every buffer is one made frame |
| Streams.LowPowerStreamIsSafe | src/session/DeviceSession.cpp:43-126 | over every run of gateway and write strand, with payloads of at most 65535 octets, the wire in any chunks decodes to the first of the posted frames in order, and to all queued ones once an unbroken queue has drained |
| Streams.LinesIffNoBinary | src/service/WakeManager.cpp:85-108 | over every run, the buffers of a JSON session are all lines if and only if no low-power wake command was sent to it |
| Streams.BinaryRun | src/service/WakeManager.cpp:85-87 | a JSON login and a low-power wake command to its device, with a local key stored, are a run that sends a frame to a JSON peer |
| Streams.JsonStreamIsSafe | src/session/DeviceSession.cpp:43-93 | then, with documents dumped in one line, its peer reads the first of the posted documents in order whatever the chunks, and all queued ones once an unbroken queue has drained |
| Guarantees.IdIsAuthenticated | src/session/DeviceSession.cpp:393-492 | over every run, a low-power session has an id only if an earlier request on it passed the checks for that id under its resolved key, the provisioned one or else the default secret |
| Guarantees.StoredKeyAuthenticates | src/session/DeviceSession.cpp:437-467 | over every run, the request that gave a low-power session its id was signed under the device's stored key, or, if none is stored, under the default secret |
| Guarantees.HeartbeatNeedsAuthentication | src/session/DeviceSession.cpp:494-523 | a heartbeat is answered only on such a session, and with exactly the octets received |

## Left out

- The insides of AES, HMAC, base64 and the random generator: functions and drawn values in `Session.Crypto` and `Session.Draw`; `Session.AnswerVerifies` and `Session.AcceptedIsAnswered` assume that decryption undoes encryption and that base64 can be decoded and is octets without a comma. An encryption that throws is not modelled.
- JSON parsing and dumping, and the exceptions the JSON library throws on documents of unexpected types: requests and answers are records.
- Connections to Redis and MQTT, failing Redis commands, retained device-state messages, asio accept and resolve: Redis commands succeed, and the event log records command events and posted buffers.
- The administration server, configuration, start-up and the superseded uncompiled copies of the sources: they would add only easy members.
- Data races between worker threads: every handler is one step, and a tick reads the clock once.
- Logging, remote addresses, the sequence numbers that acknowledgements repeat, and the state fields that are only passed through (imei, fw, model, rssi, rsrp, charging).
- Shared ownership of sessions: a session is a number, and locking a weak reference asks whether it is still alive, which it may cease to be at any moment.
- One session object: its read loops, write strand and handlers are separate classes, joined in the theorems over runs; a frame handled in a run is any well-sized frame of version 1, and `Handling.IsReadingRun` says which runs deliver them as a read loop does.
- FrameReader.LowPowerReader.OnReceive: whether a handler closes the socket is an arbitrary function of the frames delivered so far; `Handling.IsReadStep` takes it from the handlers.
- Histories.CommandFate: a negative acknowledgement timeout is excluded.
- Coverage.CoverageIffFits: a gap of zero between ticks is excluded, under which no time can pass.
- Guarantees.PresenceOverRuns: a record left in the store from before the start is excluded for the ids it speaks of.
- Names.ExtractInvertsMake: only the topic strings; subscriptions and routing of messages are not modelled.

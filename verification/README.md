# Verification of the ECS session data channel

A Dafny model of the session channel of `ecstoolkit`: the reliable stream protocol that `DataChannel` runs over a
websocket, the binary `ClientMessage` frame it exchanges, and the smaller pieces it relies on (retransmission timer,
cipher framing, handshake, back-off retryer, agent version gates). `dafny verify dfyconfig.toml` checks everything.

## How it is laid out

- `Bytes`, `Fields`, `Codec`, `CodecTheorems`: machine integers, field readers and in-place field writers, the frame, and
  what decoding and encoding recover from each other.
- `Encryption`, `Buffers`, `Estimator`: nonce framing and key split, the two bounded buffers, the timer (`Powers` is
  shared with the retryer).
- `Protocol`: the channel as a state machine on values, one function per operation of the source, and runs of events.
- `DataChannel`: the object with its fields, slices and buffers; every method is proved to do to the fields what the
  state machine does to its state.
- `Handlers`: which handlers one message reaches. `Delivery`, `History`, `Ordering`, `Reordering`, `Acknowledging`: the
  receiving side over whole runs.
- `Sending`, `Outgoing`, `RoundTrips`: the sending side over whole runs, acknowledgements and the timer they feed.
- `Negotiation`: control messages and what a handshake installs. `Ciphering`: what is in the clear where. `EndToEnd`: the
  receiver's theorems on the wire format.
- `Retry`, `Version`: the retryer and the version gates.

What the channel cannot determine is a parameter, the datatype `Protocol.World`: the codec, the link (each send may
fail), clocks, random values, KMS, the answers of session plugins, and JSON payloads as already parsed. Answers that
may vary are indexed by how often the world was consulted, so a theorem for all worlds covers every behaviour of the
environment. The network is adversarial: a run is any sequence of arrivals, sends, resend rounds and registrations. An
error of `outputMessageHandler` ends the listener; the model marks the state as failed. A Go panic is an error result.
SHA-256 is any function to 32 bytes, AES-GCM any seal and open with the one law that opening undoes sealing; both are
parameters of the theorems.

## What the proofs found

- A message that arrives in its turn is acknowledged if and only if a handler is there for it and every handler in line
  is ready (`AcknowledgedIffTaken`); a port session, for one, is not ready until its stream is set
  (`session/portsession/portsession.go:156-161`). Otherwise it is passed without delivery and without acknowledgement,
  and its frame is ignored from then on (`LostBeforeRegistration` is a run). The comments at
  `datachannel/datachannel.go:477` and `:986` suggest otherwise.
- An acknowledgement does not promise delivery either: a message buffered ahead of its turn is acknowledged at once and
  reaches a handler only if the session is attended when it is drained (`ConsumedReaches`, `AcknowledgedAndLost`).
- Reordering is invisible as long as the reorder buffer can hold all frames but the expected one (`ReorderingInvisible`);
  with any more, arrival in descending order drops one and stalls (`OneTooMany`).
- The resend scheduler works on a copy of the front entry, so no entry is ever counted as resent and the limit of 3000
  attempts is never reached, however often the front is sent again (`EveryFrameIsTraceable`, `ResendsForever`).
- Sequence numbers are unique if and only if the sends that go through do not overlap (`UniqueIffOneAtATime`,
  `OverlapReusesNumber`); a failed send gives its number back.
- Removing the first-message handler while its list is walked shifts the list under the loop. With two or more plugins
  behind it one is skipped and the last is called twice; with at most one all is well (`VisitedOnce`,
  `TwoPluginsMisdelivered`).
- A handshake is answered if and only if it arrives in its turn (`AnsweredIffInTurn`). A control message that was
  buffered out of order goes to the stream handlers and is never acted upon (`BufferedControlIsLost`,
  `DrainNegotiatesNothing`).
- The listener does not outlive a read error: after a successful reconnect it handles a nil frame and stops
  (`ReconnectEndsListener`).
- An unsupported handshake action is answered without a status; no entry ever carries the status `Unsupported`
  (`ResponseAnswers`).
- A frame whose declared header length exceeds its size makes the decoder panic (`DecodeOutcome`,
  `PanickingFrame`).

## Model

| member | source | states |
|---|---|---|
| `Bytes.IntegerInverse` | message/readers.go:55-69 | big-endian two's-complement 32-bit reader and writer are mutually inverse |
| `Bytes.LongInverse` | message/readers.go:96-161 | the same for 64 bits |
| `Bytes.IntegerValue` | message/readers.go:55-69 | four bytes are read most significant first, in two's complement |
| `Bytes.LongValue` | message/readers.go:96-110 | eight bytes are read the same way |
| `Fields.SafeUint32` | util/safe.go:19-29 | succeeds exactly in the uint32 range and then returns the value |
| `Fields.SafeInt32` | util/safe.go:32-38 | succeeds exactly up to MaxInt32 and then returns the value |
| `Fields.SafeInt64` | util/safe.go:41-52 | succeeds exactly up to MaxInt64 and then returns the value |
| `Fields.UnsignedInverse` | message/readers.go:32-83 | an unsigned read succeeds exactly inside the input and without the sign bit, and writing its value gives the bytes back, for 32 and 64 bits |
| `Fields.PutInteger` | message/writers.go:23-37 | succeeds exactly when the field fits; then only its four bytes change, otherwise nothing |
| `Fields.PutUInteger` | message/writers.go:13-20 | also fails exactly above MaxInt32 |
| `Fields.PutLong` | message/writers.go:130-144 | succeeds exactly when the field fits; then only its eight bytes change |
| `Fields.PutULong` | message/writers.go:147-154 | also fails exactly above MaxInt64 |
| `Fields.PutString` | message/writers.go:54-72 | succeeds exactly when text and field fit; the field becomes the text padded with spaces, the rest is untouched |
| `Fields.PutBytes` | message/writers.go:75-88 | succeeds exactly when the lengths agree and the range is inside; copies exactly there |
| `Fields.PutUuid` | message/writers.go:91-127 | fails exactly on the nil UUID or outside the array; stores the halves swapped |
| `Fields.UuidInverse` | message/readers.go:113-147 | reading a stored UUID gives it back and storing a read one gives the bytes back |
| `Fields.TextInverse` | message/readers.go:19-29 | a stored text is read back unchanged if and only if it is storable (no leading NUL or space, no trailing space, no trailing NUL when it fills the field) |
| `Codec.ClientMessageRef.Deserialize` | message/clientmessage.go:37-93 | succeeds, fails and panics exactly as the frame layout says; on success every field of the receiver is overwritten |
| `Codec.ClientMessageRef.Serialize` | message/clientmessage.go:133-204 | succeeds if and only if type, versions, dates, flags, UUID and payload are in range, also where the uint32 total wraps; the bytes are then exactly the frame, and the payload length field is set |
| `Codec.ClientMessageRef.PutHeader` | message/clientmessage.go:147-194 | exactly when bytes 0 to 119 can be written, and what they are then |
| `Codec.ClientMessageRef.PutFront` | message/clientmessage.go:147-172 | exactly when bytes 0 to 63 can be written, and what they are then |
| `Codec.ClientMessageRef.PutBack` | message/clientmessage.go:174-194 | exactly when bytes 64 to 119 can be written, and what they are then; the first 64 are left alone |
| `Codec.ClientMessageRef.Validate` | message/clientmessage.go:96-124 | accepts exactly the valid messages |
| `CodecTheorems.DecodeFrame` | message/clientmessage.go:37-93 | decoding an encoded message gives back every field, the type up to trimming |
| `CodecTheorems.StoredUuid` | message/writers.go:91-127 | byte by byte, a frame holds the id with its halves exchanged and each half in order |
| `CodecTheorems.MessageTypeNames` | message/types.go:3-22 | the message types by their names |
| `CodecTheorems.RoundTrip` | message/clientmessage.go:133-204 | the round trip loses nothing if and only if the message type is storable |
| `CodecTheorems.FrameInjective` | message/clientmessage.go:133-204 | messages with the same frame agree on everything sent |
| `CodecTheorems.SentIsValid` | message/clientmessage.go:96-124 | an encoded message passes validation if and only if it has type and date, or is a publication notice |
| `CodecTheorems.AcceptedExactly` | message/clientmessage.go:96-124 | byte by byte, exactly which frames decode and pass validation; the digest must be that of the payload wherever a length is declared |
| `CodecTheorems.DecodeOutcome` | message/clientmessage.go:37-93 | exactly which inputs decode and exactly which panic on the unchecked slice |
| `CodecTheorems.PanickingFrame` | message/clientmessage.go:90 | a frame of 120 bytes on which decoding panics |
| `CodecTheorems.ReEncode` | message/clientmessage.go:133-204 | re-encoding a decoded frame gives identical bytes if and only if the frame is canonical |
| `Encryption.Encrypt` | encryption/encrypter.go:70-91 | the re-sliced appends produce exactly nonce followed by sealed text |
| `Encryption.Decrypt` | encryption/encrypter.go:94-111 | opens what follows the nonce; texts shorter than a nonce panic |
| `Encryption.PeerOpens` | encryption/encrypter.go:70-111 | whatever this end encrypts, the other end decrypts to the same text, under any nonce |
| `Encryption.SplitKeyUsable` | encryption/encrypter.go:114-126 | both halves of a data key are AES keys exactly for 32, 48 and 64 bytes, and make up the whole key |
| `Buffers.ListMessageBuffer.Front` | datachannel/listmessagebuffer.go:25-42 | a copy of the oldest element, if any |
| `Buffers.ListMessageBuffer.ForcePushBack` | datachannel/listmessagebuffer.go:45-54 | appends, the oldest making room exactly when the list is full; a capacity of zero panics |
| `Buffers.ListMessageBuffer.RemoveIf` | datachannel/listmessagebuffer.go:58-78 | removes and returns exactly the first match |
| `Buffers.MapMessageBuffer.SetUnlessFull` | datachannel/mapmessagebuffer.go:31-42 | a full buffer refuses, even to overwrite; capacity is kept |
| `Buffers.MapMessageBuffer.Remove` | datachannel/mapmessagebuffer.go:45-55 | removes exactly the key and returns what was there |
| `Estimator.Bounded` | datachannel/datachannel.go:688-704 | over every sample sequence inside [lo, hi]: SRTT stays inside, RTTVAR within the width, the timeout between min(1 s, lo + 10 ms) and min(1 s, hi + max(10 ms, 4(hi - lo))) |
| `Estimator.Convergence` | datachannel/datachannel.go:688-704 | closed form of SRTT and RTTVAR after n equal samples |
| `Estimator.DecayIsPower` | config/config.go:27-30 | the decays in the closed form are powers of 7/8 and 3/4 |
| `Estimator.RepeatIsSamples` | datachannel/datachannel.go:688-704 | n equal samples are an instance of the general sample sequence |
| `Estimator.TimeoutAfter` | datachannel/datachannel.go:688-704 | the exact timeout after n equal samples |
| `Retry.Call` | retry/retryer.go:30-51 | exactly min(first success, MaxAttempts + 1) calls, and up to the first success for a negative MaxAttempts; one sleep between calls, none above the limit unless the first delay is; for ratio 2 the i-th sleep is I * 2^(i mod p) with p the number of doublings that fit |
| `Retry.SleepIsCut` | retry/retryer.go:25-27 | a sleep is the delay times the power of the ratio, cut to whole milliseconds towards zero |
| `Retry.StepOfCall` | retry/retryer.go:40-48 | the back-off resets exactly at the multiples of the period |
| `Retry.FittingExponents` | retry/retryer.go:25-27 | a doubled delay is within the limit exactly below the count |
| `Version.Compare` | version/versionutil.go:34-62 | the loop computes the lexicographic comparison, reading a component only when all before it are equal |
| `Version.CompareIsTotalOrder` | version/versionutil.go:34-62 | on numeric versions of equal length: total, antisymmetric, transitive, and 0 exactly for equal numbers |
| `Version.GreaterTransitive` | version/versionutil.go:45-59 | being newer is transitive even when later components are not numbers |
| `Version.FeaturesNest` | version/versionvalidator.go:11-44 | for every agent string, disabling keep-alive implies multiplexing, which implies the terminate flag |
| `Version.ThresholdExcluded` | version/versionvalidator.go:25-44 | the threshold itself, and versions with another number of components, lack the feature |
| `Version.AtoiOfDecimal` | version/versionutil.go:46-52 | a number in decimal is read back with either sign, whatever its length |
| `Version.AtoiOutOfRange` | version/versionutil.go:46-52 | a decimal is a number exactly within 64 bits |
| `Version.GateOpens` | version/versionvalidator.go:25-44 | a gate opens if and only if some component is larger and all before it are equal numbers, is closed if and only if one is smaller instead or all are equal, and is an error otherwise |
| `Version.FeatureThresholds` | version/versionvalidator.go:11-23 | for every agent version of four numbers each feature is there exactly above its threshold |
| `DataChannel.HandlerSlice.RemoveAt` | datachannel/datachannel.go:620 | the tail moves down by one in the same array, the old last element stays |
| `DataChannel.HandlerSlice.Deregister` | datachannel/datachannel.go:616-625 | removes exactly the first occurrence, shifting the array behind the slice |
| `DataChannel.DataChannel.constructor` | datachannel/datachannel.go:95-137 | the initial state of the machine |
| `DataChannel.DataChannel.RegisterOutputStreamHandler` | datachannel/datachannel.go:260-263 | appends the handler and records whether it is session specific |
| `DataChannel.DataChannel.FirstMessageHandler` | datachannel/datachannel.go:566-583 | removes itself and starts a shell session exactly on an output message with no type set |
| `DataChannel.DataChannel.ProcessOutputMessageWithHandlers` | datachannel/datachannel.go:889-908 | the range loop over the shifting array refines the dispatch function |
| `DataChannel.DataChannel.SendInputDataMessage` | datachannel/datachannel.go:199-257 | new line conversion, encryption, numbering, transmission and record, as the machine has them |
| `DataChannel.DataChannel.SendAcknowledgeMessage` | datachannel/datachannel.go:665-685 | acknowledges exactly this message or reports the failed send |
| `DataChannel.DataChannel.CalculateRetransmissionTimeout` | datachannel/datachannel.go:688-704 | the in-place update is one sample of the timer |
| `DataChannel.DataChannel.ProcessAcknowledgedMessage` | datachannel/datachannel.go:649-662 | removes the acknowledged entry and samples its round trip, or changes nothing |
| `DataChannel.DataChannel.ResendRound` | datachannel/datachannel.go:587-613 | one scheduler round: the assignments to the copy reach nothing |
| `DataChannel.DataChannel.ProcessKmsEncryptionAction` | datachannel/datachannel.go:292-310 | keys and encryption change together, only on success |
| `DataChannel.DataChannel.ProcessSessionTypeAction` | datachannel/datachannel.go:313-349 | sets a known session type or fails |
| `DataChannel.DataChannel.ProcessClientActions` | datachannel/datachannel.go:752-804 | the action loop refines the machine's fold |
| `DataChannel.DataChannel.HandleHandshakeRequest` | datachannel/datachannel.go:736-807 | agent version, actions in order, then the response |
| `DataChannel.DataChannel.HandleEncryptionChallengeRequest` | datachannel/datachannel.go:830-859 | answers with the challenge decrypted and encrypted again |
| `DataChannel.DataChannel.HandleDefaultOutputMessage` | datachannel/datachannel.go:959-988 | decrypts, dispatches, and acknowledges only when a handler was ready |
| `DataChannel.DataChannel.HandleUnexpectedSequenceMessage` | datachannel/datachannel.go:991-1018 | acknowledges and stores messages ahead while there is room, drops the rest |
| `DataChannel.DataChannel.ProcessBufferedMessage` | datachannel/datachannel.go:1021-1050 | hands one buffered message to the handlers and moves past it |
| `DataChannel.DataChannel.ProcessIncomingMessageBufferItems` | datachannel/datachannel.go:268-288 | the drain loop refines the drain function and terminates |
| `DataChannel.DataChannel.HandleOutputMessage` | datachannel/datachannel.go:445-482 | in-order or unexpected, then drain |
| `DataChannel.DataChannel.OutputMessageHandler` | datachannel/datachannel.go:707-733 | decode, validate, dispatch on the message type |
| `DataChannel.DataChannel.ListenOnce` | datachannel/datachannel.go:413-440 | one round of the listener: frame, end of file, failed or successful reconnect; an error ends it |
| `Handlers.VisitedOnce` | datachannel/datachannel.go:616-625 | each handler sees a message exactly once if and only if at most one handler follows the first-message handler |
| `Handlers.DispatchCalls` | datachannel/datachannel.go:889-908 | a dispatch calls exactly the visited handlers up to the first that is not ready, with that handler's answer |
| `Handlers.DispatchExtends` | datachannel/datachannel.go:889-908 | for any handler list, a message reaches a handler if and only if the session is attended; all new calls carry it, and negotiated values stay |
| `Handlers.EachHandlerOnce` | datachannel/datachannel.go:899-905 | in the channel's own configurations each handler is called exactly once and the first-message handler never again |
| `Handlers.TwoPluginsMisdelivered` | datachannel/datachannel.go:899-905 | with two plugins behind it, one is skipped and the other called twice |
| `Handlers.RemovedOne` | datachannel/datachannel.go:616-625 | deregistering takes out the first occurrence and nothing else |
| `Handlers.RegistrationOpens` | datachannel/datachannel.go:260-263 | after a registration the session is attended if and only if the handler is session specific or no type is known |
| `Handlers.FirstMessageDecides` | datachannel/datachannel.go:566-583 | a message sets the session type only as output with none set, and the first-message handler then makes it a shell |
| `Delivery.DrainMovesToGap` | datachannel/datachannel.go:268-288 | draining moves to the least number not buffered and removes exactly the numbers passed; on failure it stops there and keeps the entry |
| `Delivery.StepKeeps` | datachannel/datachannel.go:445-482 | every event keeps the receiver's invariant |
| `Delivery.RunKeeps` | datachannel/datachannel.go:412-441 | so does every run |
| `Delivery.PrefixSafety` | datachannel/datachannel.go:445-482 | under any drops, repeats and reorderings the consumed log is exactly the first `expected` messages the agent sent |
| `Delivery.AcknowledgedIsKept` | datachannel/datachannel.go:991-1018 | every acknowledged message was consumed or is still held with its content; the buffer never exceeds its capacity |
| `Delivery.InTurnIsConsumed` | datachannel/datachannel.go:473-481 | a message in its turn is consumed even when the reorder buffer is full |
| `Delivery.CatchUp` | datachannel/datachannel.go:445-482 | from any reachable state an in-order replay of n frames, control messages included, that ends without failure reaches n |
| `Reordering.CatchUpSucceeds` | datachannel/datachannel.go:445-482 | without errors and with frames the session opens, the replay does end without failure and reaches n, even from a full reorder buffer |
| `History.RunTold` | datachannel/datachannel.go:412-482 | over every run, registrations and control messages included, the session with all handler calls is the outcome of the run's history, whose messages are exactly those consumed, in order |
| `History.SameHistorySameSession` | datachannel/datachannel.go:412-482 | two runs with the same history have the same session, handler calls and payloads included, if KMS answers alike or nothing was negotiated |
| `Ordering.HandlersSeeOrder` | datachannel/datachannel.go:958-988 | in every reachable state, failed or not, each handler was called with agent messages in strictly increasing order, each exactly the agent's message opened with keys the session had during the run |
| `Ordering.ReadyPluginSeesAll` | datachannel/datachannel.go:889-908 | over every run without failure, control messages and reordering included, a plugin that is ready from then on receives exactly the delivered messages, each once, in order and opened, and one for one all data consumed |
| `Reordering.ArrivalSucceeds` | datachannel/datachannel.go:991-1018 | without errors every arrival leaves its frame consumed or held and forgets none, if at most capacity + 1 frames are outstanding |
| `Reordering.ReorderingInvisible` | datachannel/datachannel.go:958-1050 | from any state expecting lo, frames lo..n-1 in any order and number, with older frames, sends, resends and acknowledgements in between, make the handler calls of in-order arrival, decrypted payloads included, if n - lo is at most the capacity + 1 |
| `Reordering.OneTooMany` | datachannel/datachannel.go:1003-1014 | the bound is exact: for every larger n, arrival in descending order stops the expected number at lo + 1 |
| `Acknowledging.AcknowledgedIffTaken` | datachannel/datachannel.go:975-987 | an in-order stream message is acknowledged, with its type, id and number, if and only if the session is attended, every handler in line is ready and the link works; the listener ends if and only if a handler fails first or that acknowledgement cannot be sent; otherwise the message is consumed either way |
| `Acknowledging.PassedIsIgnored` | datachannel/datachannel.go:998-1017 | the frame of a passed number changes nothing and is not acknowledged |
| `Acknowledging.AheadStoredIffRoom` | datachannel/datachannel.go:991-1018 | a message ahead of its turn is acknowledged and stored as it came if and only if there is room and the link works; otherwise dropped, or the listener ends |
| `Acknowledging.LostBeforeRegistration` | datachannel/datachannel.go:889-893 | a run from the start in which output is passed, never delivered and never acknowledged |
| `Acknowledging.ConsumedReaches` | datachannel/datachannel.go:1021-1050 | in every reachable state each consumed message, acknowledged or not, was acted upon or delivered, and a delivery reached a handler if and only if the session was attended at that point |
| `Acknowledging.AcknowledgedAndLost` | datachannel/datachannel.go:1041 | a run from the start in which output is acknowledged, passed and never delivered |
| `Sending.SendStepConserves` | datachannel/datachannel.go:221-254 | every phase of a send and every acknowledgement conserves the numbers |
| `Sending.RunConserves` | datachannel/datachannel.go:649-662 | with sends that do not overlap, acknowledgements between transmission and record allowed: each used number is in exactly one of acknowledged, evicted, buffered, being recorded; the buffer is strictly increasing and within capacity |
| `Sending.EvictsOldest` | datachannel/listmessagebuffer.go:45-54 | a full outgoing buffer gives up exactly its oldest number, and otherwise none |
| `Sending.UniqueIffOneAtATime` | datachannel/datachannel.go:221-252 | over every interleaving of sends, failing ones included, the numbers that go out are unique if and only if each send that goes through loads its number after all such sends before it have counted |
| `Sending.OverlapReusesNumber` | datachannel/datachannel.go:221-252 | two overlapping sends go out under the same number; a failed send before does no harm |
| `Sending.AckIsFilter` | datachannel/datachannel.go:649-662 | one acknowledgement filters out its number |
| `Sending.AcksAreFilter` | datachannel/datachannel.go:649-662 | any acknowledgements, in any order with repeats, leave the buffer without exactly their numbers, in order |
| `Sending.FrontIsOldest` | datachannel/listmessagebuffer.go:25-42 | the front is the oldest number neither acknowledged, evicted nor being recorded |
| `Outgoing.RealIsFaithful` | datachannel/datachannel.go:199-242 | with the real codec every frame put on the wire decodes to an input message under its number that carries the caller's input, sealed under the keys recorded for it |
| `Outgoing.TickKeeps` | datachannel/datachannel.go:587-613 | the exact bytes of the front are sent again if and only if it is late and the link works; no entry changes and the scheduler does not give up |
| `Outgoing.ResendsForever` | datachannel/datachannel.go:587-613 | from any reachable state any number of late rounds sends the front that often, past the limit, with the buffer unchanged |
| `Outgoing.EveryFrameIsTraceable` | datachannel/datachannel.go:199-257 | in every reachable state each buffered entry and each frame ever sent carries what was submitted under its number, sealed under the keys recorded for it; each entry has the time of its send, none was counted as resent and the limit was never reached |
| `RoundTrips.AcknowledgementArrives` | datachannel/datachannel.go:649-662 | an arriving acknowledgement takes exactly the message it names out of the buffer and feeds the timer with the time since it was sent; nothing else changes |
| `RoundTrips.UnreadableAcknowledgement` | datachannel/datachannel.go:485-497 | one whose content does not parse ends the listener |
| `RoundTrips.OnlyAcknowledgements` | datachannel/datachannel.go:707-733 | nothing else acknowledges or feeds the timer, and submissions stay |
| `RoundTrips.AcknowledgedWereNamed` | datachannel/datachannel.go:485-497 | over every run only numbers that an arrived acknowledgement named count as acknowledged |
| `RoundTrips.TimerSamplesRoundTrips` | datachannel/datachannel.go:688-704 | over every run the timer has been fed with times from sending a message to its acknowledgement and with nothing else |
| `RoundTrips.TimerFromTheStart` | datachannel/datachannel.go:95-137 | in every reachable state the timer is that of a fresh channel, 100 ms, 0 and 200 ms, fed with such round trips |
| `Negotiation.ResponseAnswers` | datachannel/datachannel.go:752-804 | one entry per requested action, in order and of its type; as many errors as entries not successful |
| `Negotiation.AnsweredIffInTurn` | datachannel/datachannel.go:456-471 | a handshake that can be answered is answered, with such a response, if and only if its number is the expected one; otherwise nothing is sent or negotiated |
| `Negotiation.HandshakeTakesEffect` | datachannel/datachannel.go:752-804 | a handshake in its turn sets the agent version, turns encryption on with the two halves of the last data key KMS answered with, sets the last known session type, and answers each action with success if and only if it took effect; nothing of it is undone by the drain |
| `Negotiation.ControlAcknowledged` | datachannel/datachannel.go:911-956 | every control message in its turn is acknowledged first, also when the handling fails; exactly when a request or a completion fails |
| `Negotiation.ChallengeAnswered` | datachannel/datachannel.go:830-874 | a challenge the agent sealed is answered with the same text sealed for the agent, which reads it |
| `Negotiation.ChallengeRefused` | datachannel/datachannel.go:830-850 | a challenge that does not parse or open, or comes without keys, ends the listener unanswered |
| `Negotiation.BufferedControlIsLost` | datachannel/datachannel.go:1021-1050 | a run from the start in which a control message is acknowledged, buffered and drained without effect |
| `Negotiation.DrainNegotiatesNothing` | datachannel/datachannel.go:1021-1050 | draining never changes encryption or agent version, nor a session type that is set |
| `Negotiation.RunSound` | datachannel/datachannel.go:736-807 | over every run encryption implies keys, and a session type or encryption once set stays set |
| `Negotiation.OpeningHasKeys` | datachannel/datachannel.go:963-973 | in every reachable state encryption is never on without keys |
| `Ciphering.HandlersSeeClear` | datachannel/datachannel.go:963-973 | handlers are called with the plain message the agent sealed, or with the message itself where nothing is sealed, in its turn and out of the buffer |
| `Ciphering.UnreadableEndsListener` | datachannel/datachannel.go:963-973 | a sealed message that does not open reaches no handler and ends the listener |
| `Ciphering.ReadyPluginSeesClear` | datachannel/datachannel.go:1021-1050 | over every run without failure a ready plugin receives exactly the agent's plain messages, also when encryption is negotiated on the way |
| `Ciphering.SendIsSealed` | datachannel/datachannel.go:199-257 | exactly when a send succeeds, and the frame, submission and buffer entry it adds: the input, sealed under the session's keys if encryption is on and it is output, a lone new line as a carriage return |
| `Ciphering.NeverInTheClear` | datachannel/datachannel.go:213-219 | from any state with encryption on, over every run, no output is submitted without the keys it is sealed under |
| `EndToEnd.AgentFrame` | datachannel/datachannel.go:707-715 | the frame of an agent's message is received as that message and is valid |
| `EndToEnd.FrameIsSorted` | datachannel/datachannel.go:707-733 | a frame that is not accepted ends the listener and does nothing else; what accepted frames of other types do |
| `EndToEnd.PrefixSafetyOnTheWire` | datachannel/datachannel.go:707-733 | prefix safety on the wire format |
| `EndToEnd.ReorderingInvisibleOnTheWire` | datachannel/datachannel.go:958-1050 | reordering is invisible from any state for every agent stream serialized by the codec |
| `EndToEnd.ReconnectEndsListener` | datachannel/datachannel.go:413-440 | the listener is the run of the frames read up to the first read error, which ends it even after a successful reconnect |

## Left out

- Codec.ClientMessageRef.Deserialize: the half-filled receiver after an error is not specified; every caller discards it.
- Codec.ClientMessageRef.Serialize: which error is returned is not specified, only exactly when there is one.
- Encryption.Encrypt: a failing random source is not modelled; the nonce is a parameter.
- DataChannel.DataChannel.FirstMessageHandler: the sends on two Go channels, which may block, are not modelled.
- DataChannel.DataChannel.SendAcknowledgeMessage: the acknowledgement is a value; its JSON and its frame are not modelled.
- DataChannel.DataChannel.ProcessSessionTypeAction: session properties are not kept.
- DataChannel.DataChannel.ListenOnce: the callback for incoming messages is not modelled, and a reconnect is its outcome.
- Reordering.CatchUpSucceeds: frames still to come are stream data; Delivery.CatchUp covers control messages.
- Fields.GetString: white space outside ASCII, which the source also trims, is not modelled; message types are ASCII.
- Sequence counters are unbounded integers; the number written into a frame wraps at 64 bits, so the theorems speak of that wrapped number beyond 2^63 messages.
- Overlapping sends, apart from their numbers (`Sending.UniqueIffOneAtATime`): the conservation theorems take sends one at a time, as the counter requires.
- Data races between goroutines other than acknowledgements during a send; the events of a run are atomic.
- Handlers that call back into the channel while it dispatches to them, other than the first-message handler.
- The Go channels `isSessionTypeSet`, `isStreamMessageResendTimeout` and `displayMessages`, and the texts of errors in the handshake response.
- Floating-point rounding and the truncation of durations in the timer and the retryer; both use exact arithmetic.
- JSON, the websocket library, KMS, SHA-256 and AES-GCM themselves: they are parameters.
- Cluster, executor, terminal, socket and multiplexing code: calls into AWS and the operating system.

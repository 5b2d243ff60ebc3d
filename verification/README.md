# Transcription path of the media server: model and proofs

The media server forwards WebRTC media and, on request, transcribes it. This
project models the whole transcription path and proves what its parts promise to
each other:

- gRPC calls push start and stop commands onto one unbounded FIFO and other
  messages onto bounded per-port queues; media workers learn which stream an SSRC
  belongs to and put audio on the same FIFO (`SignalingProtocol`, `SignalingTraces`,
  `SignalingRuns`, `MediaWorker`, `RtpAudioExtractor`, `PortChoice`);
- one worker consumes the FIFO and drives the session manager, which picks
  servers round-robin and decodes every packet a second time (`Worker`, `Delivery`,
  `DoubleDecode`, `Manager`, `ManagerLocks`, `ManagerSchedules`,
  `ManagerOperations`, `ManagerRefinement`);
- decoded audio is re-chunked and resampled, batched against a millisecond clock,
  and serialised as WAV or raw samples (`Decoder`, `OpenAiSync`, `OpenAiAsync`,
  `Wav`, `PcmBytes`, `SimulStreaming`);
- results are polled and fanned out to bounded subscriber channels (`Results`,
  `FanOut`);
- RTP packets are those of RFC 3550, sections 5.1 and 5.3.1 (`RtpPacket`);
- `EndToEnd` joins the protocol and the worker.

Objects and loops of the program are classes and methods here, proved equal to
functions on plain states; the theorems are about those functions, over every
history. The protocol and the manager's locking are step systems whose steps
interleave freely. Opus decoding and the FFT step are arbitrary deterministic
functions passed in; refused connections, failed sends, timeouts and request
outcomes are arguments.

## What the proofs settle

Beyond the promises that hold outright, some hold only under a condition. Each
has its exact condition, or an exact refutation, as a lemma.

- An RTP packet that consists of nothing but an empty header extension is misread
  as four octets of audio; no other legal packet is (`PayloadInvertsSerialize`).
- Disabling a stream does not stop its audio from being forwarded
  (`AudioSurvivesDisable`); stopping its session is what keeps it from every
  backend, until the stream is started again (`LateAudioReachesNoBackend`). The doc
  comments of the extractor suggest otherwise; the model follows the code.
- A leave and a disable always stop the session before they tell the media worker, an
  enable and an offer that asks for it always start it before; with the worker gone
  nothing is started and no enable is posted (`CallFollowsScript`, `StepFollowsScript`).
- An SSRC nobody registered belongs to whichever stream was enabled last on its port
  when it was first looked up, whoever sends it (`OwnerIsLastEnabled`).
- A live stream's backend is sent one fresh decoder's output over the stream's audio
  since its start, duplicate starts included, if failed decodes are harmless and
  whether a packet decodes depends on the packet alone (`DeliveryIsExact`). The audio
  decoder meets both as soon as the Opus step does and the FFT step never fails on a
  chunk of its own size (`DecoderFailureIsNeutral`, `DecoderSuccessIsStateless`). With harmless failures a
  duplicate start loses audio in some history exactly for codecs in which a restarted
  decoder refuses a packet that the session's decodes (`DuplicateStartLosesAudioIff`).
- The worker's and a session's decoder stay in the same state exactly as long as no
  live stream that has moved on is restarted, no stream goes live without a fresh
  worker decoder and no failed decode of a live stream changes its decoder
  (`SyncedThroughoutIff`); over such histories the second decode can be removed
  without changing what any backend is sent (`SecondDecodeIsRedundant`). What a
  duplicate start of a live stream breaks is this agreement.
- Round-robin rotates only with a default server list
  (`NoRotationWithoutDefaultList`); otherwise every overriding list's first server is
  used (`FirstServerWithoutDefaultList`).
- The worker ends exactly at a shutdown, or at audio for which it neither has nor can
  make a decoder (`EndsIff`); in the service that takes a stopped stream, or one whose
  worker decoder failed at its start (`OnlySuchAudioEndsTheWorker`).
- Starting a session is not atomic: wherever two threads have passed the check for a
  stream its live session can be replaced (`TwoCommittedCanReplace`); with one starter
  at a time it never is (`OneStarterIsStable`), and then, as with the service's one
  worker thread, all interleavings change the sessions as whole requests would
  (`RunsAreServed`, `OneWorkerIsAtomic`).
- A flush submits an oversized chunk exactly after a call that failed with more than a
  chunk's worth behind the failing chunk (`FlushIsOversizedIff`); earlier failures do
  not matter (`FlushAfterSuccess`).
- A subscriber misses an update exactly if it has left or a hundred are waiting when
  one of its session comes (`MissedAreRefused`).
- A result is lost exactly if its stream is stopped before it is polled
  (`EveryResultOnce`).
- The asynchronous result reader drops blank texts and trailing whitespace that
  the synchronous one keeps (`AsyncParseOfPrinted`).

## Model

| member | source | states |
|---|---|---|
| RtpPacket.PayloadInvertsSerialize | src/transcription/handler.rs:178-203 | for every packet RFC 3550 allows, the bytes taken as audio are its payload (none if empty), if and only if it is not a bare empty extension |
| RtpPacket.PayloadIsSlice | src/transcription/handler.rs:178-203 | on arbitrary octets, accepted audio is a non-empty in-bounds slice starting at offset 12 or later |
| RtpPacket.AcceptedIffSerialized | src/transcription/handler.rs:141-203 | an accepted octet string is some legal packet with that payload exactly when its extension and padding framing is legal |
| RtpAudioExtractor.Extractor.constructor | src/transcription/handler.rs:59-68 | a new extractor knows no SSRC and learns nothing |
| RtpAudioExtractor.Extractor.WithAutoLearn | src/transcription/handler.rs:74-82 | starts learning for one default stream |
| RtpAudioExtractor.Extractor.SetAutoLearnFor | src/transcription/handler.rs:85-88 | changes the default and switches learning on, nothing else |
| RtpAudioExtractor.Extractor.EnableFor | src/transcription/handler.rs:91-100 | also marks the stream enabled; known SSRCs keep their owners |
| RtpAudioExtractor.Extractor.DisableFor | src/transcription/handler.rs:103-105 | unmarks the stream and leaves default, learning and owners alone |
| RtpAudioExtractor.Extractor.RegisterSsrc | src/transcription/handler.rs:113-119 | reassigns one SSRC |
| RtpAudioExtractor.Extractor.UnregisterSsrc | src/transcription/handler.rs:122-124 | forgets one SSRC |
| RtpAudioExtractor.Extractor.HasAudioHeader | src/transcription/handler.rs:136-157 | exactly the octets with a whole fixed header, version 2 and an audio payload type |
| RtpAudioExtractor.Extractor.FindOwner | src/transcription/handler.rs:160-176 | the lookup with learning, table update included |
| RtpAudioExtractor.Extractor.FindPayload | src/transcription/handler.rs:178-203 | the offset arithmetic computes the specification's payload |
| RtpAudioExtractor.Extractor.ExtractAudio | src/transcription/handler.rs:135-212 | the imperative parser computes the specification `Extract`, table update included, also when the packet is then rejected |
| RtpAudioExtractor.ExtractInvertsSerialize | src/transcription/handler.rs:135-212 | audio packets (types 111 and 109) of a stream that is known or can be learned come back with payload, timestamp and SSRC, the owner recorded and the rest of the table alone, if and only if not a bare empty extension |
| RtpAudioExtractor.ExtractsIff | src/transcription/handler.rs:135-212 | on arbitrary octets: exactly when audio is handed on, what it is, and what becomes of the table |
| RtpAudioExtractor.ExtractIsFaithful | src/transcription/handler.rs:155-211 | any audio handed on is a slice of a version 2 packet of type 111 or 109, owned by what the table now says |
| RtpAudioExtractor.AutoLearnMeansDefault | src/transcription/handler.rs:57-124 | in every reachable table, learning is on exactly when a default is set |
| RtpAudioExtractor.LookupsAgreeIff | src/signal/mod.rs:97-113 | the run loop's lookup and the parser's agree in owner and table exactly when learning is on wherever the default would be used |
| RtpAudioExtractor.LookupsAgree | src/transcription/handler.rs:160-176 | so the two lookups agree in every reachable table |
| RtpAudioExtractor.OwnersAreSticky | src/transcription/handler.rs:84-124 | once learned, an SSRC keeps its owner through any enables, disables and packets |
| RtpAudioExtractor.OwnersWereIntroduced | src/transcription/handler.rs:84-124 | every default and owner was named by an earlier operation, explicit registrations included |
| RtpAudioExtractor.DefaultIsLastEnabled | src/transcription/handler.rs:84-100 | the default is the stream enabled most recently on the port |
| RtpAudioExtractor.OwnerIsLastEnabled | src/signal/mod.rs:97-113 | without explicit registration, an SSRC has an owner exactly if it was looked up while some stream was enabled, and the owner is the stream enabled last before the first such lookup |
| RtpAudioExtractor.MarkedIff | src/transcription/handler.rs:91-105 | a stream is marked enabled exactly if it was enabled and not disabled since |
| RtpAudioExtractor.DisableDoesNotStopAudio | src/transcription/handler.rs:102-105 | both lookups give the same owner before and after a disable |
| PortChoice.Sorted | src/bin/sfu.rs:227-227 | an ascending permutation of the ports |
| PortChoice.PickIgnoresOrder | src/bin/sfu.rs:223-228 | the port of a session does not depend on the hash map's listing order |
| PortChoice.PickRank | src/bin/sfu.rs:227-228 | the chosen port is the one with exactly session mod n smaller ports |
| PortChoice.PickSeparatesResidues | src/bin/sfu.rs:223-228 | two sessions share a port exactly when their ids agree modulo the number of ports |
| SignalingProtocol.StepKeepsPromises | src/bin/sfu.rs:237-251 | every step keeps: pending enables, defaults and owners at a port belong to that port and their start is already on the FIFO |
| SignalingProtocol.StepKeepsInv | src/bin/sfu.rs:215-466 | the whole protocol invariant is inductive over every atomic step |
| SignalingProtocol.BehaviourInv | src/bin/sfu.rs:215-466 | it holds in every state of every interleaving |
| SignalingProtocol.StartBeforeAudio | src/bin/sfu.rs:387-411 | each audio command has a non-zero session and an earlier start of the same stream |
| SignalingProtocol.SessionAffinity | src/bin/sfu.rs:396-410 | tables only name sessions of their own port, and a session's audio enters the FIFO exactly as its one port forwarded it |
| SignalingTraces.CallFollowsScript | src/bin/sfu.rs:215-466 | while the worker is there and the call is not given up, its own steps do exactly what its kind calls for, in order; it has finished exactly if all is done |
| SignalingTraces.LeaveStops | src/bin/sfu.rs:265-285 | a leave that has ended put one StopSession on the FIFO and then its message on the home port's empty queue, and nothing else |
| SignalingTraces.DisableStops | src/bin/sfu.rs:419-466 | a disable likewise |
| SignalingTraces.EnableStarts | src/bin/sfu.rs:315-417 | an enable put one StartSession with its override and then its message |
| SignalingTraces.OfferStartsIffAsked | src/bin/sfu.rs:215-262 | an offer posts itself, hears its answer, and puts a StartSession and then an enable message exactly if it asked for transcription |
| SignalingTraces.StepFollowsScript | src/bin/sfu.rs:190-208 | so does each single step, also when transcription is off or the worker gone: then nothing reaches the FIFO and an enable ends without its message |
| SignalingTraces.ClosedForGood | src/bin/sfu.rs:190-208 | once the worker is gone the FIFO never grows again |
| SignalingTraces.AnswersAreReal | src/signal/mod.rs:374-417 | an answer is there only after a media worker has taken that call's offer |
| SignalingTraces.TableIsHistory | src/signal/mod.rs:80-113 | a port's table is the outcome of the messages taken and packets looked up there |
| SignalingTraces.ForwardedAsEnabled | src/signal/mod.rs:95-128 | a packet goes to the FIFO, unchanged, for the stream that was enabled last at the port when its SSRC was first looked up |
| SignalingTraces.UnownedIsNotForwarded | src/signal/mod.rs:95-128 | and not at all if no stream had been enabled at any lookup |
| SignalingRuns.NoWedge | src/signal/mod.rs:374-417 | from every reachable state every call can be brought to its end by its own steps and media workers taking messages alone |
| SignalingRuns.DisableCannotSilence | src/signal/mod.rs:336-344 | every run of a service that is up can go on with an enable, a disable and, behind the stop on the FIFO, a packet of an unseen SSRC forwarded for the stream |
| SignalingRuns.AudioSurvivesDisable | src/transcription/handler.rs:102-105 | from every initial state with a port there is a run in which only that happens, all calls ended and all queues empty |
| MediaWorker.MediaPort.HandleSignal | src/signal/mod.rs:291-372 | effect of each message on the table; which messages are replied to and how; fails exactly if a reply is due and its receiver is gone, table effect kept |
| MediaWorker.MediaPort.Turn | src/signal/mod.rs:79-130 | a turn handles at most one message and then forwards all waiting audio; if the reply cannot be sent it forwards nothing and leaves the audio waiting |
| MediaWorker.SignalsAndOwners | src/signal/mod.rs:291-372 | a registration settles one SSRC, an enable every SSRC not yet known, and no other message changes any owner |
| MediaWorker.RepliesIff | src/signal/mod.rs:291-417 | which messages are answered, under their own stream, and how |
| MediaWorker.MediaPort.DrainAudio | src/signal/mod.rs:92-130 | the drain loop forwards every known packet in order, each looked up in the table the previous one left; nothing without a transcription channel |
| MediaWorker.HandlingRefinesProcess | src/signal/mod.rs:80-90 | handling a message is the protocol's process step, replies included |
| MediaWorker.DrainRefinesForwards | src/signal/mod.rs:92-130 | draining a batch is one protocol step per packet |
| Decoder.AudioResampler.WithChunkSize | src/transcription/decoder.rs:32-46 | starts with a fresh engine and an empty buffer |
| Decoder.AudioResampler.ResampleInput | src/transcription/decoder.rs:55-78 | the two loops compute the specification, including state and buffer after an error, and terminate |
| Decoder.AudioResampler.FlushInput | src/transcription/decoder.rs:81-101 | pads, submits once and empties the buffer, also when the step fails |
| Decoder.AudioResampler.Reset | src/transcription/decoder.rs:104-107 | back to the initial state |
| Decoder.ScaleRoundTrip | src/transcription/decoder.rs:57-73 | conversion there and back moves every non-zero sample one step toward zero |
| Decoder.ToSampleIsMonotone | src/transcription/decoder.rs:70-73 | output conversion is monotone and stays within the symmetric 16-bit range |
| Decoder.SamplesOneByOne | src/transcription/decoder.rs:57-73 | both conversions sample by sample: divided by 32768 going in; clamped, times 32767 and cut toward zero coming out |
| Decoder.SplitIndependence | src/transcription/decoder.rs:55-78 | resampling a then b equals resampling a ++ b in output and state; if a fails so does a ++ b, at the same chunk |
| Decoder.CutsDoNotMatter | src/transcription/decoder.rs:55-78 | however a stream is cut into calls, the result is that of one call |
| Decoder.ChunkCount | src/transcription/decoder.rs:64-65 | N samples hold exactly floor(N / chunk size) chunks |
| Decoder.DrainCount | src/transcription/decoder.rs:64-74 | on success exactly those chunks are fed in order and the remainder stays |
| Decoder.ResampleOutputs | src/transcription/decoder.rs:55-78 | a call succeeds exactly if the engine accepts every whole chunk of what waited and came in; it returns all the engine made of each, converted, in order, and the rest waits |
| Decoder.FlushIsSilence | src/transcription/decoder.rs:81-101 | a flush equals a call with just enough silence to fill the waiting chunk, output and state |
| Decoder.CallsSubmitInOrder | src/transcription/decoder.rs:55-78 | over any calls, failed ones included, the chunks submitted so far are the first chunks of everything received, once each and in order, and the buffer is what is behind them |
| Decoder.FlushAfterSuccess | src/transcription/decoder.rs:81-92 | whenever the last call succeeded, whatever failed before it, N mod chunk size samples wait and a flush submits one full chunk or nothing |
| Decoder.FlushIsOversizedIff | src/transcription/decoder.rs:64-92 | after any calls a flush submits an oversized chunk exactly if the last call failed at some chunk j with more than one chunk's worth of samples behind it |
| Decoder.FlushAfterFailureCanBeOversized | src/transcription/decoder.rs:64-92 | for every chunk size and engine, once the engine fails on a chunk the next flush submits in one piece all that followed it in that call |
| Decoder.AudioDecoder.constructor | src/transcription/decoder.rs:132-147 | starts in the codec's initial state |
| Decoder.AudioDecoder.DecodePacket | src/transcription/decoder.rs:156-176 | codec step then resampler; stale contents of the reused buffer never reach the resampler |
| Decoder.DecodesFrame | src/transcription/decoder.rs:156-176 | a refused packet touches no resampler; otherwise exactly the decoded frame is fed, in chunks of 960, and what comes out is what the engine makes of the whole chunks |
| Decoder.DecoderFailureIsNeutral | src/transcription/decoder.rs:156-176 | if the FFT step never fails on a chunk of its own size, a failed decode is harmless as soon as a failed Opus step is |
| Decoder.DecoderSuccessIsStateless | src/transcription/decoder.rs:156-176 | if the FFT step never fails on a chunk of its own size, whether a packet decodes depends on the packet alone as soon as it does for the Opus step |
| Manager.TranscriptionSession.ProcessAudio | src/transcription/manager.rs:158-166 | decodes, then sends; a failed send keeps the decoder's progress |
| Manager.TranscriptionSession.Deposit | src/transcription/backends/openai.rs:304-304 | a backend's result goes to the end of its session's queue |
| Manager.TranscriptionSession.TryRecv | src/transcription/manager.rs:177-179 | takes the oldest waiting segment, or nothing |
| Manager.TranscriptionManager.constructor | src/transcription/manager.rs:208-229 | no sessions, index 0 |
| Manager.TranscriptionManager.OpenSession | src/transcription/manager.rs:114-153 | succeeds exactly when the decoder can be created and the backend is OpenAI or a non-empty list whose connection is accepted; address chosen by index modulo the list in use |
| Manager.TranscriptionManager.StartSession | src/transcription/manager.rs:232-284 | duplicate starts change nothing; success is reported exactly if the stream is then live, under the same conditions; the index moves even when opening fails |
| Manager.TranscriptionManager.StopSession | src/transcription/manager.rs:287-297 | removes that stream only |
| Manager.TranscriptionManager.ProcessAudio | src/transcription/manager.rs:300-326 | changes that stream's session only; unknown streams are ignored |
| Manager.TranscriptionManager.DrainSession | src/transcription/manager.rs:336-339 | moves one session's whole queue to the results, in order |
| Manager.TranscriptionManager.PollResults | src/transcription/manager.rs:331-343 | in any visiting order, each queued segment comes out once under its own stream in its backend's order, and nothing else changes |
| Manager.StartSucceedsIff | src/transcription/manager.rs:114-153 | after any history a start makes a stream live, and is reported as a success, exactly under those conditions; otherwise no session changes |
| Manager.AudioReport | src/transcription/manager.rs:158-166 | audio for a live stream is reported as a success exactly if its backend was sent one more piece, for any other always |
| Manager.PollsTouchOnlyResults | src/transcription/manager.rs:331-343 | over any history, leaving out all polls and results changes no decoder, connection or anything sent |
| Manager.RoundRobin | src/transcription/manager.rs:255-267 | over any history the k-th non-duplicate attempt is issued index k mod n |
| Manager.RoundRobinTarget | src/transcription/manager.rs:126-130 | the address a new session connects to, with or without an override list |
| Manager.NoRotationWithoutDefaultList | src/transcription/manager.rs:258-265 | without a default list every attempt is issued index 0 |
| Manager.FirstServerWithoutDefaultList | src/transcription/manager.rs:126-130 | so after any history each new session of an overriding list connects to its first server |
| Manager.RoundRobinBalance | src/transcription/manager.rs:255-267 | after any history the servers' shares differ by at most one |
| Worker.TranscriptionWorker.constructor | src/transcription/handler.rs:233-239 | no decoders yet |
| Worker.TranscriptionWorker.ProcessAudioPacket | src/transcription/handler.rs:300-327 | gets or creates the decoder, decodes, and passes the raw packet on only if that worked; a decoder that cannot be created ends the worker |
| Worker.TranscriptionWorker.Handle | src/transcription/handler.rs:249-290 | one command, decoders and manager together |
| Worker.TranscriptionWorker.RunLoop | src/transcription/handler.rs:244-297 | the loop over the channel equals folding the step, and stops at a shutdown or panic |
| Worker.DecoderIff | src/transcription/handler.rs:244-306 | a running worker has a stream's decoder exactly if a start that could make one, or audio, came after the stream's last stop |
| Worker.EndsIff | src/transcription/handler.rs:244-306 | the worker has ended exactly if a shutdown arrived, or audio of a stream without a decoder when none could be made, both read off the command history |
| Worker.LiveIffStarted | src/transcription/handler.rs:250-282 | a stream is live exactly when a start of it, with a decoder and OpenAI or an accepted connection of a non-empty list, was followed by no stop |
| Worker.SessionIsStable | src/transcription/handler.rs:250-306 | from a successful start to the next stop the same connection stays, whatever duplicate or failed starts and audio occur; a worker decoder is present if decoders can be created |
| Worker.DecodersCoverSessions | src/transcription/handler.rs:262-306 | as long as decoders can be created, every live session has a worker decoder |
| Delivery.LateAudioIsDropped | src/transcription/handler.rs:299-327 | over any history in which a stream that is not live is not started, its audio changes nothing but the worker's own decoder for it: all sessions, backends and other decoders are as if it had not been sent |
| Delivery.StoppedStreamIsSilent | src/transcription/handler.rs:272-306 | so it is from any stop of a stream to its next start |
| Delivery.DeliveryIsIsolated | src/transcription/handler.rs:299-327 | what a live stream's decoders and backend went through depends on that stream's commands alone |
| Delivery.DeliveryIsExact | src/transcription/handler.rs:299-327 | if failed decodes are harmless and decoding succeeds or not by the packet alone, a live stream's backend was sent exactly, in order, one fresh decoder's output over the stream's audio since the start, less refused sends, whatever duplicate starts and failed creations occur |
| Delivery.DuplicateStartLosesAudioIff | src/transcription/handler.rs:259-266 | where failed decodes are harmless: some history loses audio of a live stream if and only if the codec has a packet refused after a restart and decoded without it; any loss needs a duplicate start |
| DoubleDecode.SyncedThroughoutIff | src/transcription/handler.rs:244-327 | over any history worker and session decoders are in the same state at every moment if and only if every handled command meets that condition |
| DoubleDecode.DecodersAgree | src/transcription/handler.rs:309-319 | no duplicate starts, harmless failures and decoders that can be created are enough for it |
| DoubleDecode.LeanStepRefines | src/transcription/handler.rs:311-319 | from a state in which they agree one step equals a step of a worker that decodes once |
| DoubleDecode.SecondDecodeIsRedundant | src/transcription/handler.rs:311-319 | over every history whose commands meet the condition of `SyncedThroughoutIff` the single-decode worker sends every backend the same samples |
| EndToEnd.NoStrayDecoders | src/transcription/handler.rs:299-306 | at any point of any log where starts come first, decoders exist only for streams already started |
| EndToEnd.ReachableWorkersHaveNoStrayDecoders | src/transcription/handler.rs:299-306 | so it is in every reachable state of the service |
| EndToEnd.OnlySuchAudioEndsTheWorker | src/transcription/handler.rs:303-306 | in every interleaving audio ends the worker only if every start of its stream so far, and there is one, either left it without a worker decoder or was followed by a stop |
| EndToEnd.StreamIsPortStream | src/signal/mod.rs:95-128 | a stream's audio on the FIFO is that stream's audio at its home port |
| EndToEnd.BackendHearsItsPort | src/transcription/handler.rs:299-327 | in every interleaving, under the codec conditions of the delivery law, a live stream's backend was sent the decoding of a contiguous run of what its home port forwarded, from its start on, less refused sends |
| EndToEnd.LateAudioReachesNoBackend | src/transcription/handler.rs:272-306 | in every interleaving, what the home port forwards between a stop and the next start leaves every session and backend as if it had not been forwarded |
| ManagerLocks.NextKeepsInv | src/transcription/manager.rs:240-343 | locks are held by exactly the threads whose position says so, and the map lock is exclusive for writing |
| ManagerLocks.DeadlockFree | src/transcription/manager.rs:240-343 | in every reachable state with an unfinished operation some thread can step, even if waiting writers block new readers |
| ManagerSchedules.EveryScheduleFinishes | src/transcription/manager.rs:240-343 | from every reachable state every scheduler that lets someone step whenever anyone can brings every unfinished operation to its end, whatever opens and in whatever order polls visit, under the strict policy and the lax one |
| ManagerLocks.LockOrder | src/transcription/manager.rs:313-339 | no owner of a session mutex or of the index waits for the session map |
| ManagerOperations.EveryOperationOnce | src/transcription/manager.rs:232-343 | in every run each operation a thread begins takes effect exactly once, as itself and in order, but for the one under way |
| ManagerOperations.EverySessionOnce | src/transcription/manager.rs:306-340 | each thread locks every session it is given once and in order: a poll all it lists, audio the one it found |
| ManagerOperations.LocksAreTaken | src/transcription/manager.rs:313-339 | each such lock is of a mutex that was free, and no other step takes one |
| ManagerLocks.OneStarterIsStable | src/transcription/manager.rs:240-276 | as long as no two threads start this stream at once its live session object is never replaced, whatever happens to other streams |
| ManagerLocks.TwoCommittedCanReplace | src/transcription/manager.rs:240-276 | from every reachable state in which two threads have passed the check for a stream there is a continuation that replaces its live session |
| ManagerLocks.TwoStartersCanReplace | src/transcription/manager.rs:240-276 | and such states are reached |
| ManagerRefinement.RunsAreServed | src/transcription/manager.rs:232-343 | if no stream is started by two threads at once, every interleaving goes step for step through the session maps, object identities included, of whole requests served in the order they take effect |
| ManagerRefinement.OneWorkerIsAtomic | src/transcription/handler.rs:244-297 | so it is with one thread that starts, stops and feeds sessions beside any number that poll |
| PcmBytes.DecodeInvertsEncode | src/transcription/backends/simul_streaming.rs:98-101 | little-endian encoding of samples is invertible |
| PcmBytes.LowOctetFirst | src/transcription/backends/simul_streaming.rs:98-101 | sample i is at octets 2i and 2i + 1, low octet first, in two's complement |
| Wav.CreateWav | src/transcription/backends/openai.rs:326-355 | the appending loop produces header and samples as specified, lengths wrapped to their fields |
| Wav.HeaderLayout | src/transcription/backends/openai.rs:331-348 | every header field and its offset |
| Wav.ReadInvertsWav | src/transcription/backends/openai.rs:326-355 | an exacting reader gets samples, rate and channels back if and only if every size and rate field is wide enough, and otherwise rejects |
| Text.TrimsAwayIffBlank | src/transcription/backends/openai.rs:297-297 | trimming leaves nothing exactly when there is only whitespace |
| Text.TrimCuts | src/transcription/backends/simul_streaming.rs:331-335 | trimming cuts off nothing but whitespace, at both ends |
| Text.TrimIsTight | src/transcription/backends/simul_streaming.rs:331-335 | and all of it |
| OpenAiSync.TranscribeChunk | src/transcription/backends/openai.rs:256-310 | the posted container (16 kHz, mono), and a segment with the chunk's interval and text exactly if the request came back with text that is not blank |
| OpenAiSync.WorkerLoop | src/transcription/backends/openai.rs:205-254 | the loop over any turns equals the specification: buffer, clock, chunks and segments |
| OpenAiSync.NothingLostOrInvented | src/transcription/backends/openai.rs:225-253 | flushed chunks followed by the buffer are the samples received |
| OpenAiSync.ChunkBounds | src/transcription/backends/openai.rs:238-248 | chunks of at least 1600 samples, at most 80000 waiting after any turn, at most a packet over in a chunk, and fewer than 1600 waiting after a periodic turn |
| OpenAiSync.ClockIsElapsed | src/transcription/backends/openai.rs:243-250 | the clock is the sum of all chunk durations and segments start where earlier chunks end, failed and blank ones included |
| OpenAiSync.ClockTracksSamples | src/transcription/backends/openai.rs:243-246 | after k flushes 16·clock is at most the flushed samples and at most 15·k behind |
| OpenAiSync.SegmentsAreOrdered | src/transcription/backends/openai.rs:242-304 | segments are in order, disjoint, at least 100 ms long, each from one transcribed chunk |
| OpenAiSync.EveryTranscriptOnce | src/transcription/backends/openai.rs:242-304 | over any run the segments are, one each and in chunk order, exactly those of the chunks that came back with text that is not blank |
| OpenAiSync.FlushesIff | src/transcription/backends/openai.rs:225-253 | a turn makes all that waits one chunk exactly if more than 80000 samples wait, or at least 1600 do and five seconds have passed |
| OpenAiSync.RequestsAreReadable | src/transcription/backends/openai.rs:238-269 | the chunk bound makes every posted container readable, for packets of up to 2^30 samples |
| OpenAiAsync.OpenAiBackend.constructor | src/transcription/backends/openai.rs:30-51 | empty buffer, clock 0 |
| OpenAiAsync.OpenAiBackend.Flush | src/transcription/backends/openai.rs:53-99 | takes the buffer, assigns it the next interval and advances the clock |
| OpenAiAsync.OpenAiBackend.SendAudio | src/transcription/backends/openai.rs:153-167 | appends, and flushes beyond five seconds |
| OpenAiAsync.FlushesTileTheStream | src/transcription/backends/openai.rs:53-67 | chunks followed by the buffer are all samples sent; the chunks' intervals tile the stream from 0 to the clock |
| OpenAiAsync.DeliveriesAreSourced | src/transcription/backends/openai.rs:82-96 | each delivered segment covers its own task's interval and no task delivers twice |
| OpenAiAsync.DeliveriesAreDisjoint | src/transcription/backends/openai.rs:82-96 | in any completion order delivered segments cover disjoint non-empty intervals |
| OpenAiAsync.EveryTranscriptDelivered | src/transcription/backends/openai.rs:82-96 | in any completion order a task delivers a text exactly if the first request to come back for it came back with that text, not blank |
| OpenAiAsync.SpawnsIff | src/transcription/backends/openai.rs:153-167 | sending makes all that waits one task exactly if more than 80000 samples wait |
| SimulStreaming.Client.SendAudio | src/transcription/backends/simul_streaming.rs:96-108 | appends exactly the samples' octets to the stream |
| SimulStreaming.WireDecodes | src/transcription/backends/simul_streaming.rs:96-108 | however samples are split over calls, the octets decode to all samples in order |
| SimulStreaming.ParseInvertsPrint | src/transcription/backends/simul_streaming.rs:175-188 | a printed result parses back whatever its text, for any number reader that reads whole numbers below 2^53 |
| SimulStreaming.ParsesIff | src/transcription/backends/simul_streaming.rs:175-188 | which lines parse, and as what, for any line and reader: two readable words, a space behind each, then the text |
| SimulStreaming.AsyncIsSyncTrimmed | src/transcription/backends/simul_streaming.rs:331-349 | the asynchronous parser is the synchronous one on the trimmed line |
| SimulStreaming.AsyncParseOfPrinted | src/transcription/backends/simul_streaming.rs:331-349 | its result on a printed line, and exactly when it agrees with the synchronous parser |
| SimulStreaming.ReadResults | src/transcription/backends/simul_streaming.rs:137-171 | the reader loop delivers what parses, in order |
| SimulStreaming.ReadResultsAsync | src/transcription/backends/simul_streaming.rs:295-328 | likewise for the asynchronous reader |
| SimulStreaming.CollectConcat | src/transcription/backends/simul_streaming.rs:137-171 | a line that does not parse costs nothing but itself |
| SimulStreaming.CollectOne | src/transcription/backends/simul_streaming.rs:137-188 | each line gives what it spells, trimmed first in the asynchronous reader, or nothing |
| SimulStreaming.RawLinesJoin | src/transcription/backends/simul_streaming.rs:295-328 | splitting into lines loses and invents no character |
| SimulStreaming.LinesAreUnbroken | src/transcription/backends/simul_streaming.rs:137-171 | the synchronous reader's lines are those without their breaks |
| SimulStreaming.StreamRoundTrip | src/transcription/backends/simul_streaming.rs:137-188 | a stream of printed results is delivered as sent, but for a carriage return at the end of a text |
| SimulStreaming.AsyncStream | src/transcription/backends/simul_streaming.rs:295-349 | the same stream through the asynchronous reader: blank texts vanish, trailing whitespace is cut |
| FanOut.Distributor.SubscribeTo | src/bin/sfu.rs:298-308 | adds one empty channel at the end of the session's list |
| FanOut.Distributor.DistributeOne | src/bin/sfu.rs:169-186 | offers an update to every subscriber of its session and to nobody else |
| FanOut.Distributor.Distribute | src/bin/sfu.rs:166-188 | all results, in order |
| FanOut.Distributor.PollAndDistribute | src/bin/sfu.rs:166-188 | every segment queued in any backend is distributed exactly once, per stream in order |
| FanOut.BatchIsDeliveries | src/bin/sfu.rs:166-188 | distributing a batch after any history delivers each result once and in order |
| FanOut.ChannelStep | src/bin/sfu.rs:179-185 | an update of its session joins a channel's queue unless it is closed or holds a hundred; taking moves the oldest; leaving closes; nothing else touches it |
| FanOut.RegisterKeepsOthers | src/bin/sfu.rs:298-308 | registering appends one empty open channel and keeps all earlier ones |
| FanOut.MissedAreRefused | src/bin/sfu.rs:179-185 | a channel has missed exactly the updates that came while it was closed or held a hundred, and is closed exactly if its subscriber left |
| Results.WaitingIff | src/transcription/manager.rs:331-343 | a produced segment is still waiting exactly if neither a poll nor a stop of its stream came since |
| Results.HandedIff | src/transcription/manager.rs:331-343 | it has been polled exactly if a poll came before any stop of its stream |
| Results.EveryResultOnce | src/bin/sfu.rs:166-188 | over every history of requests and subscribers, the segments distributed for a stream are exactly the produced ones that were polled first, once each and in order; it is lost exactly if a stop of its stream came first, and all others wait in order |
| FanOut.FanOutIsFaithful | src/bin/sfu.rs:179-185 | a subscriber's stream is a subsequence of its own session's updates since it registered, and all of them exactly if none came while it had left or a hundred were waiting |

## Left out

- Opus decoding and the FFT step: arbitrary deterministic functions here, so nothing is claimed about sample values or output counts.
- The vendored SFU crate, DTLS, SCTP, SRTP and SDP: an offer ends in an arbitrary answer or error; where decrypted audio comes from is not part of this model.
- gRPC handlers as methods: each blocks between its pushes, so they are steps of `SignalingProtocol` rather than sequential code; a call may also end at any point, which covers its error returns.
- Request-field checks and configuration constructors: only the resulting optional override is kept.
- `is_transcription_enabled`: nothing on the forwarding path reads it, and it does not gate audio.
- Wall-clock time: elapsed-time tests and receive timeouts are arbitrary inputs.
- Rounding of 32-bit floats: samples are exact reals; number syntax beyond what a number reader is asked for (signs, exponents, infinities) is not fixed.
- Decoder objects inside sessions and the worker: values there, so aliasing between them is not captured; `Decoder.AudioDecoder` ties the object to that value.
- Polls as requests are atomic in `Results`: a segment that a backend produces while a poll is running counts as produced before it if its session is still to be drained, and after it otherwise.
- A socket write that fails half-way, TCP connection set-up, HTTP and JSON: a send either succeeds or fails as a whole.
- Overflow of 64-bit counters and clocks, which no stream of realistic length reaches.
- Debug builds, where the 32-bit length sums of the container would panic instead of wrapping.
- Shutdown, metrics, command line, certificates and deployment files.
- Decoder.AudioResampler.WithChunkSize: requires a positive chunk size, which every caller in the repository passes; with 0 the source's chunk loop would not end.
- Decoder.AudioDecoder.DecodePacket: requires that an Opus frame fits the 5760-sample buffer, the codec's own limit.
- SimulStreaming.Client.SendAudio: does not model a write error, after which the octets sent are unspecified.

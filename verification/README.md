# ParaFlow verification model

A Dafny model of ParaFlow's worker protocol, scalar oracle, measurement harnesses and
integer evidence analysis, with proofs of what they promise each other. The engine is
written in Rust and the controller in Go; both sides are modelled, and the main results
are about the two together.

* **Session.** `Session.dfy` is the shared state of one worker session and its atomic
  operations. `SessionSystem.dfy` interleaves any number of callers, their request
  goroutines, cancellations and force-closes with an arbitrary worker process over two
  byte pipes. `SessionObject.dfy` is the session as an object with mutable fields, whose
  methods take the system's steps in place. `SessionCalls`, `SessionHistory`,
  `SessionEndings`, `SessionDelivery` and `SessionLockstep` hold the invariants;
  `SessionTheorems` states what they mean over whole runs, `SessionFrames` what becomes of
  each frame, and `GuessedFrames` exhibits a worker that answers ahead of time.
* **Dialogue.** `Framing.dfy` specifies newline framing once and proves both chunked
  readers against it. `Hex`, `Protocol` and `Server` model the wire messages, the strict
  decoder and the engine's server loop; `Agreement` proves that one side accepts what the
  other emits, `Canonical` that it accepts nothing else, and `Verdicts` which rule refuses a
  message. `Dialogue` and `Refinement` run the session against the real server, and
  `Liveness` shows that every call of every such run can be brought to its end;
  `Completion` builds whole served batches.
* **Oracle.** `Words`, `SplitMix`, `Contracts`, `Generation`, `Stages`, `Scalar`,
  `Fusion`, `Aggregates` and `ScoreSum` cover validation, generation and the three
  equivalent ways of running the pipeline; `Merging` combines partial aggregates, `Issues`
  states the validation pass as a table, and `Conformance` proves published vectors of the
  generator at literal words. `Floats` decodes binary32 and binary64 values
  and states the rounding facts of IEEE 754-2019 (sections 4.3, 5.11, 6.1 and 6.2) that
  the score-sum theorem needs; the operations themselves are any functions with those
  facts, and `Rounding` exhibits some. `Scores` gives scores in real arithmetic, with flags
  and masks read bit by bit in `Bits`, wherever the binary32 operations are exact: an
  operation whose exact result is a binary32 value returns it (IEEE 754-2019, section 4.3).
* **Analysis.** `Sorting`, `Statistics`, `Ratios`, `Apportion` and `Analysis` are the
  integer-only interpretation of measurements.
* **Evidence.** `Clocks` and `Timing` model the measured runs with an arbitrary schedule
  of clock readings; `EngineResults` and `Evidence` the controller's validation, capture and
  offline replay, `EvidenceFacts` what a verified report establishes, and
  `EvidenceExamples` captures that do and do not replay. `JsonCheck`
  and `Buffers` cover duplicate names and bounded output.

JSON is an abstract codec (`Agreement.ValidCodec`). On the requests the controller sends
and the answers the engine builds, decoding undoes encoding up to the compaction of a
raw workload, and the text has no raw newline and no final carriage return; every answer
fits a frame; compaction changes neither reading of a workload, and the controller's
projection agrees with the engine's decoding. `ReferenceCodec` proves that these
assumptions, and the rounding facts, hold of an actual engine. The clock (whose readings
are after the zero time), the tools found on the host, file contents and digests are
parameters; a capture is given the bytes its suite path yields and, separately, the path
it records for them.

Four results differ from what a reader of the code might expect. A worker can answer a
request before it is made: identifiers are sequential and pending output is not looked
at before a request is sent, so such a frame is delivered like any other, exactly when
its content fits the request that reads it (`SessionFrames.EarlyFrameDecides`,
`GuessedFrames.GuessedFrameDelivered`). The two frame readers do not agree at the end of
the input: an unterminated last line is a frame for the engine and an error for the
controller (`Framing.ReadersDiffer`). A capture is not always replayable: the replay
demands the controller's own version, one build across scenarios and a
repository-relative suite path, none of which the capture checks (`Evidence.ReplayExact`
gives the exact condition on the capture's inputs, and `EvidenceExamples` one capture
that meets it and two that do not). And the guards for an unexpected response kind, for
an oversized selectivity and for a failed correctness comparison can never fire.

Check the whole project with `dafny verify dfyconfig.toml`.

## Model

| member | source | states |
|---|---|---|
| SessionTheorems.MutualExclusion | labctl-go/internal/worker/session.go:303-356 | In every reachable state the free token and the calls holding it add up to exactly one; at most one request goroutine may touch the pipes, only while its own call is inside the transaction and is the only holder. |
| SessionTheorems.IdsNeverReused | labctl-go/internal/worker/session.go:446-453 | Identifiers handed to the worker strictly increase, lie below the counter until it is exhausted, and are never shared by two calls, sent or not. |
| SessionTheorems.NothingComesBack | labctl-go/internal/worker/session.go:367-453 | Over any run a session never reopens, a reaped child stays reaped, identifiers never change, and once the counter has passed 2^64 - 1 no call ever draws an identifier again. |
| SessionTheorems.FreeTokenReaped | labctl-go/internal/worker/session.go:358-384 | Whenever the token is free, a poisoned session has a reaped child, a closed output pipe and drained diagnostics. |
| SessionTheorems.ReturnedCall | labctl-go/internal/worker/session.go:181-291 | For every run and every call that has returned: an acknowledged shutdown means a child that exited cleanly, a failed exit one that did not, and in both the child is gone and reaped; a force-close and every transport, protocol or cancelled transaction leave a killed and reaped child and a session that keeps exactly that failure unless it was closed first; an ended context is only reported by a cancelled call, a rejected encoding only by a request that cannot be encoded, a closed session only by one that is closed. |
| SessionEndings.EndingKept | labctl-go/internal/worker/session.go:181-424 | Every step of every caller, goroutine, pipe and process keeps what the outcomes say: the exit status is fixed once the child is gone, the child is waited for only after that, the first failure recorded is never replaced, and only a token holder poisons. |
| SessionTheorems.PoisonExplained | labctl-go/internal/worker/session.go:367-424 | A poisoned session keeps one cause for good: either its child had exited before a request, or one call's own request failed that way, and once the token is free that call has returned exactly that failure. |
| SessionTheorems.CancelledReturnsAtOnce | labctl-go/internal/worker/session.go:426-440 | A call that starts with an ended context, or whose context ends while it waits for the token, returns without help from any other call and without touching anything shared. |
| SessionTheorems.ReleaseNeverBlocks | labctl-go/internal/worker/session.go:442-444 | In every reachable state a call that is leaving can give its token back at once, and then has returned its outcome. |
| SessionTheorems.NothingWrittenAfterwards | labctl-go/internal/worker/session.go:398-424 | Once the token is free and the session is closed or poisoned, or its child has been waited for, no byte is ever written to the worker, no request logged and no frame read again. |
| SessionTheorems.SealedRun | labctl-go/internal/worker/session.go:283-291 | The same from any moment at which the session is shut and no call is past the check, even while callers still wait for the token. |
| SessionTheorems.DeliveredResult | labctl-go/internal/worker/session.go:303-356 | Against an arbitrary worker, a delivered result comes from one complete line of its output read for that very call; the line carries the call's own request identifier, workload name and backend, its counters are consistent, and no other call holds a response from the same bytes. |
| SessionTheorems.ForeignFramePoisons | labctl-go/internal/protocol/protocol.go:204-252 | A frame that does not decode, or that carries another request's identifier, is refused by the request that reads it, is never anyone's response, and by the time the token is free the session is no longer open. |
| SessionFrames.FramePosition | labctl-go/internal/worker/session.go:303-356 | Each frame starts exactly where the worker's output had been read up to when its request was handed over: it starts before anything written later exactly when unread output was pending, and was complete by then exactly when a line end was pending. |
| SessionFrames.FrameDecides | labctl-go/internal/worker/session.go:325-356 | Only a frame's content decides, not when it was written: the call that read it, unless its own context ended, returns the frame's response exactly when the frame decodes for that call's request, and otherwise fails with a session that is shut and a worker that is reaped. |
| SessionFrames.EarlyFrameDecides | labctl-go/internal/worker/session.go:303-356 | A frame that was complete before its request was handed over is delivered exactly when it decodes for the request that happens to read it, and otherwise poisons the session. |
| GuessedFrames.GuessedFrameDelivered | labctl-go/internal/worker/session.go:446-453 | A run in which the worker answers the first request with two lines, the second a response to the next number: a later call takes it as its own, both calls return normally, and the session stays open. |
| GuessedFrames.AnswersAhead | labctl-go/internal/worker/session.go:446-453 | Such lines exist for any two workloads: an engine's own answers, written one request ahead of time. |
| SessionTheorems.OneResponsePerRequest | labctl-go/internal/worker/session.go:325-336 | The k-th frame read belongs to the k-th request sent, and an open idle session has read exactly one frame per request. |
| SessionTheorems.ReadCompletes | labctl-go/internal/worker/frame.go:16-66 | In every reachable state a waiting read can complete exactly when the unread output holds a whole line or more than 4 MiB without one; only an oversized line fails the transport, any other is decoded for the very request that reads it. |
| SessionTheorems.KindsNeverSurprise | labctl-go/internal/worker/session.go:207-258 | Both branches for an unexpected response kind are unreachable, whatever the worker sends. |
| SessionTheorems.CancelledNeverSends | labctl-go/internal/worker/session.go:426-440 | A call whose context ends before the second context check never draws an identifier, never sends, and reports the ended context if it returns. |
| SessionTheorems.InvKept | labctl-go/internal/worker/session.go:181-384 | Every step of every caller, goroutine, pipe and process keeps the conjunction of all session invariants. |
| SessionTheorems.RunInv | labctl-go/internal/worker/session.go:181-384 | The invariants hold along every run. |
| SessionCalls.AdvanceLocal | labctl-go/internal/worker/session.go:181-291 | Each atomic step of a caller keeps its own facts (goroutine exactly inside the transaction, reaping progress, outcome guarantees) and only moves the session forward. |
| SessionCalls.AdvanceToken | labctl-go/internal/worker/session.go:426-444 | The token count changes exactly when a call starts or stops holding it. |
| SessionCalls.TokenKept | labctl-go/internal/worker/session.go:426-444 | One token, free or with one named holder, after every step. |
| SessionHistory.PoisonKept | labctl-go/internal/worker/session.go:358-384 | A poisoned session is always either reaped or being reaped by its token holder. |
| SessionHistory.LogKept | labctl-go/internal/worker/session.go:194-206 | The request log stays strictly increasing and every entry keeps the identity of the call that made it. |
| SessionDelivery.DeliveryKept | labctl-go/internal/worker/session.go:325-336 | Every response a call stands by is the decoding, for its own identifier and request kind, of a frame received for that call. |
| SessionDelivery.ReceiptsKept | labctl-go/internal/worker/frame.go:16-66 | Frames read are consecutive complete lines of the worker's output, each payload the line without its terminator. |
| SessionLockstep.LockstepKept | labctl-go/internal/worker/session.go:303-356 | Requests and frames stay paired in order; an open session lacks at most the frame of its unsettled holder. |
| SessionLockstep.RejectKept | labctl-go/internal/worker/session.go:333-338 | After a refused frame the session is shut or the call that read it is about to shut it. |
| SessionObject.TakeStep | labctl-go/internal/worker/session.go:181-384 | A caller's step of the interleaved system, taken on a session object that holds the shared state, is exactly the step of the system: same next state, same refusal to move while blocked, and the object ends up holding the new shared state. |
| SessionObject.Drive | labctl-go/internal/worker/session.go:144-453 | A session object driven through any list of actions from the start ends in the shared state of that run of the system, or reports that an action cannot be taken; in it at most one token is free, and whenever one is, a poisoned session has a reaped child, a closed output pipe and drained diagnostics. |
| SessionObject.WorkerSession.CallerStep | labctl-go/internal/worker/session.go:181-453 | Running one atomic step of any call on the object gives exactly the next call and the next shared state of the step system; a blocked step changes nothing. |
| SessionObject.WorkerSession.constructor | labctl-go/internal/worker/session.go:144-155 | A new session is the shared part of the system's initial state: one token, open, numbering from one. |
| SessionObject.WorkerSession.Poison | labctl-go/internal/worker/session.go:367-374 | Only the first failure of an open session is recorded. |
| SessionObject.WorkerSession.Check | labctl-go/internal/worker/session.go:398-424 | The open check on the object, including the poisoning of a session whose child has exited. |
| SessionObject.WorkerSession.TakeRequestId | labctl-go/internal/worker/session.go:446-453 | The current number is handed out and the counter wraps to the exhausted value zero. |
| Refinement.SequentialOracle | labctl-go/internal/worker/session.go:178-281 | Without cancellation, force-close or pipe failure the real server never gets the session poisoned; it closes only over a shutdown that was sent last; every call that sent its request and returned got exactly the sequential answer to its own request; and between calls the pipes hold the requests and their answers pair by pair. |
| Refinement.ExecuteReturnsOracle | engine-rs/crates/paraflow-engine/src/server.rs:107-181 | An execute call on a valid workload returns the oracle's result bit for bit; on an invalid one the structured list of its validation issues. |
| Refinement.CoopKept | engine-rs/crates/paraflow-engine/src/server.rs:89-105 | Every cooperative step keeps the dialogue: bytes written are the logged requests less the unwritten rest, bytes read are their answers. |
| Refinement.StepPipes | labctl-go/internal/worker/session.go:190-222 | A caller step keeps both pipes in dialogue and keeps the session open until an acknowledged shutdown. |
| Refinement.ReadGood | labctl-go/internal/worker/session.go:318-330 | A frame read against the real server is the reading call's own answer and decodes to exactly the expected response. |
| Liveness.EveryCallReturns | labctl-go/internal/worker/session.go:181-281 | From every state any cooperative run can reach, whatever its calls are in the middle of, the run can go on until every call has returned, each with what a sequential oracle would have told it or turned away for a closed session, an exhausted counter or an unencodable request. |
| Liveness.RunWork | labctl-go/internal/worker/session.go:303-356 | Over such runs a request is only under way in an open session with an open input, and a worker that has exited has left all its answers behind. |
| Completion.BatchCompletes | labctl-go/internal/worker/session.go:181-222 | For every list of workloads whose requests fit a frame there is a run of one session and the real server in which call after call returns the oracle's answer to its own workload, numbered 1, 2, 3 and so on, with the session idle and open at the end. |
| Completion.ExecuteCompletes | labctl-go/internal/worker/session.go:181-222 | From every idle open state any run can reach, one more execute call can be run to its end: it returns the oracle's answer, no other call moves, and the session is idle and open again. |
| Completion.ShutdownCompletes | labctl-go/internal/worker/session.go:226-281 | From the same states a shutdown can be run to its end: acknowledged, clean exit without a kill, and pipes, child and diagnostics all released. |
| Completion.RunInput | labctl-go/internal/worker/session.go:260-263 | Over any such run the worker's input is closed only once the session is. |
| ReferenceCodec.EnginesExist | engine-rs/crates/paraflow-engine/src/server.rs:207-218 | The assumptions of these results hold of an actual engine: whatever workloads it reads, a message layer and an arithmetic are exhibited that satisfy all of them. |
| ReferenceCodec.ReferenceIsValid | labctl-go/internal/protocol/protocol.go:593-607 | An actual message layer meets the codec assumption: injective on every request and envelope, one line of text, and every answer the engine builds within the frame limit. |
| Dialogue.ServeAll | engine-rs/crates/paraflow-engine/src/server.rs:89-105 | The server answers any sequence of complete execute requests in order and then behaves as on the rest of its input. |
| Dialogue.ServeComplete | engine-rs/crates/paraflow-engine/src/server.rs:89-105 | On exactly the requests of a log it writes exactly their answers, and returns normally exactly when the last one is a shutdown. |
| Dialogue.ServeIncomplete | engine-rs/crates/paraflow-engine/src/server.rs:220-266 | A request that is still being written is not answered. |
| Dialogue.RequestDecodes | engine-rs/crates/paraflow-protocol/src/lib.rs:167-196 | Every request the controller can encode is decoded by the engine to that request. |
| Verdicts.RequestDecided | engine-rs/crates/paraflow-protocol/src/lib.rs:167-222 | Exactly which requests the engine refuses and with what: the first broken rule of a table (schema, identifier grammar, kind, payload that fits the kind, backend grammar) decides, and a request that breaks none is accepted as it stands. |
| Verdicts.RequestIdGrammar | engine-rs/crates/paraflow-protocol/src/lib.rs:211-222 | The identifier check is the documented alphabet and length, character by character. |
| Verdicts.BackendGrammar | engine-rs/crates/paraflow-protocol/src/lib.rs:198-209 | So is the check of a backend name. |
| Verdicts.ServeRefuses | engine-rs/crates/paraflow-engine/src/server.rs:89-105 | A request the engine refuses ends the server on the spot: neither it nor anything after it is answered. |
| Verdicts.ServeOversized | engine-rs/crates/paraflow-engine/src/server.rs:220-266 | A line of more than 4 MiB ends it as well, and one of exactly 4 MiB does not. |
| Dialogue.AnswerDecodes | labctl-go/internal/protocol/protocol.go:204-252 | Every answer the engine gives to a controller request fits a frame and is decoded by the controller to exactly the expected response. |
| Server.RunServer | engine-rs/crates/paraflow-engine/src/server.rs:89-105 | However its input is chunked, the server writes exactly the bytes of the recursive specification and ends the same way. |
| Server.ExecuteJob | engine-rs/crates/paraflow-engine/src/server.rs:107-181 | One job is answered as specified: backend, shape, validation and execution errors, or the completed result of the streaming oracle. |
| Server.Output.Write | engine-rs/crates/paraflow-engine/src/server.rs:207-218 | An oversized response is refused before any byte is written; otherwise payload and newline are appended. |
| Agreement.ResponseDecodes | labctl-go/internal/protocol/protocol.go:335-488 | Whatever the engine answers, the controller's strict decoder accepts it and recovers the expected response; the answer is small. |
| Agreement.OracleResultAccepted | labctl-go/internal/protocol/protocol.go:490-579 | The oracle never fails on a valid workload, and every result it produces passes the controller's result checks unchanged. |
| Agreement.PrintedResultDecodes | engine-rs/crates/paraflow-protocol/src/lib.rs:277-293 | A result whose counters fit the workload survives the wire exactly. |
| Agreement.InvalidWorkloadDecodes | engine-rs/crates/paraflow-engine/src/server.rs:183-197 | Every invalid workload yields a well-formed, bounded error with its issues in order. |
| Agreement.CodeNamesValid | labctl-go/internal/protocol/protocol.go:659-671 | Every validation code satisfies the controller's grammar for issue codes. |
| Canonical.UnsupportedBackend | engine-rs/crates/paraflow-engine/src/server.rs:107-133 | A request for another backend is answered, whatever its workload, with an error that the controller accepts and whose one issue names the backend field. |
| Verdicts.DecimalExact | engine-rs/crates/paraflow-engine/src/server.rs:183-187 | The issue count in an error message is that count in decimal, without leading zeros. |
| Protocol.AcceptedFrame | labctl-go/internal/protocol/protocol.go:204-252 | A frame the controller accepts carries the expected identifier; its kind fits the request; a completed result echoes workload name and backend, its histogram has the right width and totals the accepted count, which is at most the record count, and its sum is neither NaN nor -infinity. |
| Protocol.FrameServesOneRequest | labctl-go/internal/protocol/protocol.go:226-232 | A frame accepted for one identifier is refused for every other one. |
| Protocol.ValidateHistogram | labctl-go/internal/protocol/protocol.go:535-579 | The running-capacity loop never underflows and is the comparison of the full total. |
| Protocol.ValidateResult | labctl-go/internal/protocol/protocol.go:490-579 | Result validation in order, as one function of the parsed result and the workload. |
| Canonical.AcceptsExactly | labctl-go/internal/protocol/protocol.go:204-488 | The strict decoder accepts exactly one envelope for each response that can answer the request, the one the engine builds, field by field; decoding is undone by encoding as well as the other way round. |
| Canonical.ResultCanonical | labctl-go/internal/protocol/protocol.go:490-607 | A result is read from its printed form and from nothing else, and only when its counters fit the workload. |
| Verdicts.ResultDecided | labctl-go/internal/protocol/protocol.go:490-579 | Exactly which results are refused and why: the first broken rule of a table decides. |
| Verdicts.ControllerIds | labctl-go/internal/protocol/protocol.go:617-631 | The controller sends under exactly the identifiers of sequence numbers. |
| Hex.PrintedAt | engine-rs/crates/paraflow-protocol/src/hex.rs:29-36 | The wire form of a word, character by character: the prefix and sixteen lowercase digits, most significant first. |
| Hex.ParsePrint | engine-rs/crates/paraflow-protocol/src/hex.rs:29-81 | The strict parser accepts exactly the printed forms and inverts the printer on all 64-bit values. |
| Hex.RequestIds | labctl-go/internal/protocol/protocol.go:105-107 | Both peers accept every identifier the session issues, and distinct sequence numbers have distinct identifiers. |
| Framing.GoReadFrame | labctl-go/internal/worker/frame.go:16-66 | The controller's chunked reader returns a function of the bytes alone, consumes exactly one line, and never buffers more than limit + 1 bytes. |
| Framing.RustReadFrame | engine-rs/crates/paraflow-engine/src/server.rs:220-266 | The same for the engine's reader, with its own end-of-input rule. |
| Framing.ReadersDiffer | engine-rs/crates/paraflow-engine/src/server.rs:224-232 | The readers differ exactly on a non-empty unterminated last line within the size rule: the controller calls it truncated, the engine accepts it or finds it too large. |
| Framing.FramedPayload | labctl-go/internal/protocol/protocol.go:593-607 | A one-line payload within the limit that does not end in CR survives its newline whatever follows. |
| Framing.TerminatedLine | labctl-go/internal/worker/frame.go:42-54 | On a terminated line both readers strip one CR and apply the limit. |
| Framing.UnterminatedLine | labctl-go/internal/worker/frame.go:55-64 | The end-of-input outcome of both readers, case by case. |
| Buffers.TailBuffer.Write | labctl-go/internal/worker/frame.go:81-98 | The tail keeps the last bytes of everything written, shifting its array in place. |
| Buffers.TailOfEverything | labctl-go/internal/benchmark/engine.go:358-371 | However output is cut into writes, the tail is the last min(capacity, total) bytes of all of it. |
| Buffers.FeedTail | labctl-go/internal/worker/frame.go:81-98 | After any list of writes the in-place buffer holds exactly the last min(capacity, total) bytes of all of them. |
| Buffers.CappedBuffer.Write | labctl-go/internal/benchmark/engine.go:327-339 | The capture keeps what fits and flags what does not. |
| Buffers.CaptureOfEverything | labctl-go/internal/benchmark/engine.go:327-347 | However output is cut into writes, the capture is its first min(limit, total) bytes and overflow is set exactly when the total exceeds the limit. |
| Buffers.PayloadExact | labctl-go/internal/benchmark/engine.go:146-175 | Exactly the bare payloads within the limit are accepted, followed by nothing, LF or CRLF, and the payload is unique. |
| Buffers.ReadResponse | labctl-go/internal/benchmark/engine.go:103-131 | Capture, overflow check and stripping together accept exactly those outputs, whatever the writes. |
| Buffers.ReadRequest | engine-rs/crates/paraflow-engine/src/profile.rs:156-173 | The engine's bounded read accepts exactly the same inputs with the same payload. |
| Buffers.ByteVector.StripOptionalLineEnding | engine-rs/crates/paraflow-engine/src/benchmark.rs:302-315 | At most one LF or CRLF is popped, and a further CR or LF is refused. |
| JsonCheck.AcceptsExactlyDistinct | labctl-go/internal/jsoncheck/jsoncheck.go:40-53 | The check passes exactly the token streams of one value whose objects have distinct names at every depth. |
| JsonCheck.ScanPrinted | labctl-go/internal/jsoncheck/jsoncheck.go:55-109 | Over a printed value and any suffix the scan takes exactly the value when names are distinct, and reports a duplicate otherwise. |
| JsonCheck.ScanTakesTree | labctl-go/internal/jsoncheck/jsoncheck.go:55-109 | Whatever the scan takes is the printed form of one value with distinct names. |
| JsonCheck.Decoder.ScanJsonValue | labctl-go/internal/jsoncheck/jsoncheck.go:55-109 | The recursive scan over the shared decoder terminates and is that scan. |
| JsonCheck.Decoder.RejectDuplicateObjectKeys | labctl-go/internal/jsoncheck/jsoncheck.go:40-53 | The scan followed by the end-of-input check. |
| SplitMix.UnmixMix | engine-rs/crates/paraflow-engine/src/generation/splitmix64_v1.rs:13-18 | The exhibited inverse undoes the mixer on every word. |
| SplitMix.MixUnmix | engine-rs/crates/paraflow-engine/src/generation/splitmix64_v1.rs:13-18 | And the mixer undoes the inverse. |
| SplitMix.MixIsPermutation | engine-rs/crates/paraflow-engine/src/generation/splitmix64_v1.rs:13-18 | The mixer is a bijection of the 64-bit words. |
| SplitMix.SampleInjective | engine-rs/crates/paraflow-engine/src/generation/splitmix64_v1.rs:24-27 | For one seed and field, distinct indices draw distinct samples. |
| SplitMix.SeedInjective | engine-rs/crates/paraflow-engine/src/generation/splitmix64_v1.rs:24-27 | For one index and field, distinct seeds draw distinct samples: the seed is part of a dataset's identity. |
| SplitMix.FieldInjective | engine-rs/crates/paraflow-engine/src/generation/splitmix64_v1.rs:24-27 | For one seed and index, distinct fields draw distinct samples. |
| Conformance.MixZero | contracts/conformance/splitmix64-v1.json:7-10 | The mixer meets its published vector at zero. |
| Conformance.UniformSelector | contracts/conformance/splitmix64-v1.json:57-62 | The sampler meets the published vector for seed 0x95, index 1, field 0. |
| Conformance.UniformCategory | contracts/conformance/splitmix64-v1.json:104-111 | The second record of the published uniform dataset has the published category. |
| Conformance.HotspotRecord | contracts/conformance/splitmix64-v1.json:173-179 | A whole record of the published hotspot dataset, with a failed hotspot draw, is the published one. |
| Generation.Feature | engine-rs/crates/paraflow-engine/src/generation/mod.rs:129-137 | Features of a validated dataset lie in [min, max), so no conversion can fail. |
| Generation.Category | engine-rs/crates/paraflow-engine/src/generation/mod.rs:139-164 | Categories of a validated dataset lie below the category count. |
| Generation.FallbackBijection | engine-rs/crates/paraflow-engine/src/generation/mod.rs:158-161 | A failed hotspot draw maps its slots one-to-one onto the other categories. |
| Generation.FailedHotspotAvoidsHot | engine-rs/crates/paraflow-engine/src/generation/mod.rs:154-161 | The hot category is chosen exactly when the hotspot draw succeeds. |
| Generation.FlagsFollowProbability | engine-rs/crates/paraflow-engine/src/generation/mod.rs:166-170 | A flag set at one probability stays set at any larger one, is never set at zero and always at 10,000 basis points. |
| Generation.RecordDrawn | engine-rs/crates/paraflow-engine/src/generation/mod.rs:118-170 | A record keeps its index, takes each feature and its flag from its own draw, congruent to it modulo the range, and no two of its five draws are the same word. |
| Generation.CategoryDrawn | engine-rs/crates/paraflow-engine/src/generation/mod.rs:139-164 | A uniform category is congruent to its draw modulo the category count, a hot one is drawn below its probability, and any other stands for the slot congruent to the fallback draw. |
| Generation.PartitionConcatenates | engine-rs/crates/paraflow-engine/src/generation/mod.rs:86-115 | Any partition of the index space concatenates to the full materialization. |
| Generation.GenerateRange | engine-rs/crates/paraflow-engine/src/generation/mod.rs:86-110 | The range loop succeeds exactly on ranges inside the dataset and yields the pointwise records. |
| Generation.GenerateAll | engine-rs/crates/paraflow-engine/src/generation/mod.rs:113-115 | The full materialization is every pointwise record in order. |
| Generation.Records.Next | engine-rs/crates/paraflow-engine/src/generation/mod.rs:186-193 | The lazy iterator yields exactly the remaining records, in order, then ends. |
| Contracts.SilentIffValid | engine-rs/crates/paraflow-contracts/src/validation.rs:138-164 | Validation is silent exactly on workloads that satisfy every invariant, and never reports more than twenty issues. |
| Issues.IssuesExact | engine-rs/crates/paraflow-contracts/src/validation.rs:166-323 | The pass reports exactly the violated rows of one table of invariants, each under its own code and path, in table order. |
| Issues.CodeNamesDistinct | engine-rs/crates/paraflow-contracts/src/validation.rs:45-64 | No two validation codes share a wire name. |
| Contracts.Validate | engine-rs/crates/paraflow-contracts/src/validation.rs:138-164 | The validation pass over the shared issue list reports the specified issues in order. |
| Contracts.IssueLog.CheckDataset | engine-rs/crates/paraflow-contracts/src/validation.rs:193-247 | The dataset pass appends exactly the dataset's issues. |
| Contracts.IssueLog.CheckPipeline | engine-rs/crates/paraflow-contracts/src/validation.rs:261-286 | The pipeline pass appends exactly the pipeline's issues. |
| Stages.ValidClipDefined | engine-rs/crates/paraflow-engine/src/scalar/stages.rs:112-127 | A validated clip never makes the clamp panic. |
| Stages.ClampBounds | engine-rs/crates/paraflow-engine/src/scalar/stages.rs:118-136 | A clamp keeps NaN and otherwise lands between its bounds. |
| Stages.AcceptedScore | engine-rs/crates/paraflow-engine/src/scalar/stages.rs:157-161 | A finite threshold accepts only finite and +infinite scores, and the stages keep identity and category. |
| Scores.NormalizeExact | engine-rs/crates/paraflow-engine/src/scalar/stages.rs:118-127 | Where binary32 arithmetic is exact, a normalized feature is (feature + offset) * scale clamped to [-clip, clip]. |
| Scores.ScoreExact | engine-rs/crates/paraflow-engine/src/scalar/stages.rs:140-155 | And a score is a * weight_a + b * weight_b + bias, plus the flag bonus exactly when every bit set in the mask is set in the flags. |
| Bits.MaskCovered | engine-rs/crates/paraflow-engine/src/scalar/stages.rs:146-146 | The mask comparison holds exactly when every bit of the mask is one in the flags, bit by bit. |
| Scores.FilterExact | engine-rs/crates/paraflow-engine/src/scalar/stages.rs:159-161 | A scored record is accepted, unchanged, exactly when its score is at least the threshold or +infinite. |
| Scores.ProcessExact | engine-rs/crates/paraflow-engine/src/scalar/stages.rs:118-161 | All three stages together: which record is accepted, and with which score, in real arithmetic over the record's own features. |
| Scores.ExactOpsExist | engine-rs/crates/paraflow-engine/src/scalar/stages.rs:140-144 | Operations exact wherever the result is a binary32 value exist. |
| Scalar.Accumulator.Accept | engine-rs/crates/paraflow-engine/src/scalar/aggregate.rs:52-91 | One acceptance updates every field as specified; a rejected one changes nothing. |
| Scalar.RunRecords | engine-rs/crates/paraflow-engine/src/scalar/mod.rs:277-293 | The fused loop over a batch is aggregation of the accepted records. |
| Fusion.StagePassesFuse | engine-rs/crates/paraflow-engine/src/scalar/mod.rs:224-256 | Three whole-batch passes accept the same records in the same order as the record-at-a-time composition. |
| Fusion.RunMaterializedProfiled | engine-rs/crates/paraflow-engine/src/scalar/mod.rs:224-275 | Under any clock the four timed passes return the fused outcome, and each duration spans its own two readings. |
| Fusion.RunStreaming | engine-rs/crates/paraflow-engine/src/scalar/mod.rs:195-203 | The streaming oracle over the lazy iterator is the fused run over the full materialization. |
| Rounding.DownwardIsIeee | engine-rs/crates/paraflow-engine/src/scalar/aggregate.rs:84 | The rounding facts the score-sum results assume hold of an actual arithmetic: binary64 addition rounded toward negative infinity, with exact widening, under any binary32 operations. |
| Aggregates.AggregateDescribed | engine-rs/crates/paraflow-engine/src/scalar/aggregate.rs:52-98 | Inside the category domain count, bins, ID sum and ID xor are the mathematical folds over the accepted records. |
| Aggregates.AggregateRejects | engine-rs/crates/paraflow-engine/src/scalar/aggregate.rs:60-66 | Outside it the first offending record is reported. |
| Aggregates.HistogramConserves | engine-rs/crates/paraflow-engine/src/scalar/aggregate.rs:83-88 | No bin wraps and the bins total the accepted count. |
| Aggregates.AcceptedIgnoresOrder | engine-rs/crates/paraflow-engine/src/scalar/aggregate.rs:83-88 | Permuting the records leaves every integer field unchanged. |
| Aggregates.XorDetectsReplacement | engine-rs/crates/paraflow-engine/src/scalar/aggregate.rs:88-88 | Replacing one accepted ID changes the mixed xor exactly when the IDs differ. |
| Merging.AggregateSingle | engine-rs/crates/paraflow-engine/src/scalar/aggregate.rs:52-91 | One accepted record counts once, in its own bin, with its own identifier and mixed identifier. |
| Merging.AggregateMerges | engine-rs/crates/paraflow-engine/src/scalar/aggregate.rs:83-88 | The integer fields and collected identifiers of a batch are those of any two parts of it, combined. |
| Aggregates.CollectedExactly | engine-rs/crates/paraflow-engine/src/scalar/aggregate.rs:68-81 | The collected IDs are exactly the accepted indices. |
| Aggregates.CollectedAscending | engine-rs/crates/paraflow-engine/src/scalar/aggregate.rs:68-81 | They come out in strictly ascending order. |
| Aggregates.CollectingChangesNothing | engine-rs/crates/paraflow-engine/src/scalar/mod.rs:195-203 | Collecting IDs does not change the result. |
| Aggregates.OracleRun | engine-rs/crates/paraflow-engine/src/scalar/mod.rs:195-203 | On a valid workload the oracle never fails and its output is the described one. |
| ScoreSum.ScoreFoldValue | engine-rs/crates/paraflow-engine/src/scalar/aggregate.rs:84-84 | The running sum stays within n * 2^128, or is +infinity from the first infinite score on. |
| ScoreSum.OracleScoreSum | engine-rs/crates/paraflow-engine/src/scalar/aggregate.rs:84-84 | For every valid workload the score sum is never NaN or -infinity, and +infinite exactly when a +infinite score was accepted. |
| Scores.ScoreSumExact | engine-rs/crates/paraflow-engine/src/scalar/aggregate.rs:84-84 | Where every partial sum of finite scores is a binary64 value, the score sum is their exact sum. |
| Floats.BoundRepresentable | engine-rs/crates/paraflow-engine/src/scalar/aggregate.rs:84-84 | The bounds n * 2^128 used there are exact binary64 values for n up to 2^53 - 1. |
| Statistics.SummarizeValues | labctl-go/internal/benchmark/stats.go:32-58 | The summary loop with its two in-place sorts computes the specified summary. |
| Statistics.SummaryIgnoresOrder | labctl-go/internal/benchmark/stats.go:32-58 | It depends only on the multiset of samples. |
| Statistics.Median | labctl-go/internal/benchmark/stats.go:60-68 | The overflow-free midpoint is the floor of the arithmetic one and lies between the extremes. |
| Statistics.MedianMinimises | labctl-go/internal/benchmark/stats.go:32-68 | No integer has a smaller total absolute deviation from the samples than the median. |
| Statistics.HalfWithinDeviation | labctl-go/internal/benchmark/stats.go:38-55 | At least half of the samples, rounded up, lie within the deviation of the median. |
| Statistics.DeviationInRange | labctl-go/internal/benchmark/stats.go:38-55 | The deviation is at most maximum minus minimum. |
| Statistics.SummaryBounds | labctl-go/internal/benchmark/stats.go:51-57 | Minimum and maximum are samples and bound all samples and the median. |
| Statistics.SummaryExact | labctl-go/internal/benchmark/stats.go:32-58 | Against any ascending arrangement of the samples and of their distances from the median, every field of the summary: count, ends, and the middle of each. |
| Statistics.HalfBeyondDeviation | labctl-go/internal/benchmark/stats.go:38-55 | At least half of the samples lie at or beyond the deviation of the median. |
| Statistics.DeviationMinimises | labctl-go/internal/benchmark/stats.go:38-55 | No integer has a smaller total absolute deviation from the samples' distances to the median than the reported one. |
| Sorting.SortInPlace | labctl-go/internal/benchmark/stats.go:33-49 | The array ends up as the sorted sequence of its old contents by the caller's order, whatever that order is. |
| Sorting.SortStable | labctl-go/internal/benchmark/profile_stats.go:272-274 | Elements the order cannot tell apart come out in the order they went in. |
| Sorting.StableIsSort | labctl-go/internal/benchmark/profile_stats.go:272-274 | Any ordered arrangement that keeps the order of such elements is this one, so a library's stable sort is determined by its documentation. |
| Sorting.AscendSorts | labctl-go/internal/benchmark/stats.go:33-36 | The result is ascending and a permutation. |
| Sorting.AscendingUnique | labctl-go/internal/benchmark/stats.go:33-36 | Only one ascending arrangement exists, so the library's algorithm does not matter. |
| Ratios.ScaledRatioExact | labctl-go/internal/benchmark/profile_stats.go:219-232 | The 128-bit ratio is the exact floor quotient, refused exactly for a zero denominator, a quotient of 2^64 or more, or one above 2^53 - 1. |
| Ratios.HighAgainstQuotient | labctl-go/internal/benchmark/profile_stats.go:223-226 | The test before the division is exactly that the quotient fits a word, so the division cannot panic. |
| Ratios.PartOfWhole | labctl-go/internal/benchmark/profile_stats.go:156-166 | The ratio of a part to its whole in basis points is exact and at most 10,000. |
| Ratios.SumUint64 | labctl-go/internal/benchmark/profile_stats.go:207-217 | The checked sum fails exactly when the mathematical sum exceeds a word. |
| Ratios.AddUint64 | labctl-go/internal/benchmark/engine.go:295-300 | The guarded addition is exact or reports overflow. |
| Apportion.SharesExact | labctl-go/internal/benchmark/profile_stats.go:245-283 | Shares sum to exactly 10,000, each is within one of its exact quota from the inside, and a zero median gets nothing. |
| Apportion.SharesMonotone | labctl-go/internal/benchmark/profile_stats.go:245-283 | A larger median never gets a smaller share. |
| Apportion.SharesOptimal | labctl-go/internal/benchmark/profile_stats.go:245-283 | No integer allocation summing to 10,000 has a smaller total absolute deviation from the exact quotas. |
| Apportion.ShareForm | labctl-go/internal/benchmark/profile_stats.go:272-281 | Each share is the floor of its quota, or one more when the residue is positive and reaches the threshold. |
| Apportion.OrderUnique | labctl-go/internal/benchmark/profile_stats.go:272-277 | Residues come out largest first with ties in index order, and no other arrangement of the residues does. |
| Apportion.RemainingBound | labctl-go/internal/benchmark/profile_stats.go:275-278 | The leftover is non-negative and smaller than the number of entries, so the guard after the sort never fires. |
| Apportion.Divide | labctl-go/internal/benchmark/profile_stats.go:261-270 | The first loop computes floors and residues; the division never panics, no share exceeds the whole and the 32-bit total never wraps. |
| Apportion.ApportionBasisPoints | labctl-go/internal/benchmark/profile_stats.go:245-283 | The computation returns the shares and refuses only an overflowing or zero total. |
| Analysis.AnalysisGuards | labctl-go/internal/benchmark/profile_stats.go:66-189 | The selectivity is exact and at most 10,000; its guards, the pipeline-sum overflow and the apportionment overflow are unreachable; the shares sum to 10,000. |
| Analysis.AnalysisDefined | labctl-go/internal/benchmark/profile_stats.go:93-166 | The analysis of equal results succeeds exactly when the stage medians have a positive sum that fits a word and the ratios fit. |
| Analysis.AnalysisExact | labctl-go/internal/benchmark/profile_stats.go:168-188 | Every field of a successful analysis, from the medians and deviations it is derived from. |
| Analysis.StagesExact | labctl-go/internal/benchmark/profile_stats.go:93-182 | Shares and dominant stages are taken from the five medians in pipeline order, and a tie goes to the earlier stage. |
| Analysis.StageSummariesExact | labctl-go/internal/benchmark/profile_stats.go:22-61 | Each of the five stage summaries is that of the samples' own field of that name. |
| Analysis.DerivedSummariesExact | labctl-go/internal/benchmark/profile_stats.go:22-61 | So are the recorded stage sum and total, and the pipeline boundary is the sum of the four fields after generation. |
| Analysis.FusedSummariesExact | labctl-go/internal/benchmark/stats.go:11-30 | The three summaries of the fused benchmark are those of its three fields. |
| Analysis.BoundariesBounded | labctl-go/internal/benchmark/profile_stats.go:22-61 | Each of the eight summaries bounds the readings of its own boundary, and the derived boundary is the exact sum of the four pipeline stages. |
| Analysis.RatiosExact | labctl-go/internal/benchmark/profile_stats.go:113-154 | The four ratios are exact and defined exactly under the stated bounds. |
| Analysis.SummarizeProfileSamples | labctl-go/internal/benchmark/profile_stats.go:17-62 | Summaries of all eight boundaries, refused exactly for no samples or an overflowing pipeline sum. |
| Analysis.ConservedSummarizes | labctl-go/internal/benchmark/profile_stats.go:40-49 | Samples that pass the conservation checks never overflow the summary. |
| Analysis.Dominant | labctl-go/internal/benchmark/profile_stats.go:285-293 | The dominant stage is the first largest one. |
| Timing.ProfileIteration | engine-rs/crates/paraflow-engine/src/profile.rs:282-337 | One profile iteration reports its nested intervals; the correctness comparison never fails, whatever the clock. |
| Timing.ProfileOutcomeExact | engine-rs/crates/paraflow-engine/src/profile.rs:301-325 | With a monotone clock the stage sum is exact and at most the total, the timing invariant never fails, and an iteration fails exactly when its whole interval exceeds a word. |
| Timing.ProfileFieldsExact | engine-rs/crates/paraflow-engine/src/profile.rs:282-337 | A successful iteration reports each of its five stages and its total as the time between that stage's own two clock readings, whatever the clock does. |
| Timing.ProfileSamplesExact | engine-rs/crates/paraflow-engine/src/profile.rs:191-241 | Every retained sample of a profile run, field by field, from the numbers of the readings it comes from. |
| Timing.BenchmarkIteration | engine-rs/crates/paraflow-engine/src/benchmark.rs:264-300 | One benchmark iteration reports its nested intervals and never mismatches. |
| Timing.BenchmarkOutcomeExact | engine-rs/crates/paraflow-engine/src/benchmark.rs:264-300 | With a monotone clock generation plus pipeline is at most the total, and failure is exactly an oversized interval. |
| Timing.BenchmarkFieldsExact | engine-rs/crates/paraflow-engine/src/benchmark.rs:264-300 | A benchmark iteration succeeds with exactly the sample whose three fields span their own readings. |
| Timing.BenchmarkSamplesExact | engine-rs/crates/paraflow-engine/src/benchmark.rs:171-223 | Every retained sample of a benchmark run, in the same way. |
| Timing.ProfileExperiment | engine-rs/crates/paraflow-engine/src/profile.rs:191-241 | Invalid sampling is refused before an invalid workload, and both before the clock is read; otherwise warm-ups and retained samples in order, each at its own readings, then the experiment total, or the error of the first iteration that fails. |
| Timing.BenchmarkExperiment | engine-rs/crates/paraflow-engine/src/benchmark.rs:171-223 | The same two refusals and the same order of readings for the fused benchmark. |
| Timing.ProfileRunSucceeds | engine-rs/crates/paraflow-engine/src/profile.rs:203-215 | With a monotone clock a profile run succeeds exactly when its whole duration fits a word. |
| Timing.BenchmarkRunSucceeds | engine-rs/crates/paraflow-engine/src/benchmark.rs:185-199 | The same for the fused benchmark. |
| Timing.RetainedFits | engine-rs/crates/paraflow-engine/src/profile.rs:211-215 | The retained totals together are at most the experiment total. |
| Timing.ValidateProfileTiming | labctl-go/internal/benchmark/profile_engine.go:146-188 | The controller's loop accepts exactly the conserved samples, and otherwise reports the first broken rule of the first sample that breaks one. |
| Timing.ValidateBenchmarkTiming | labctl-go/internal/benchmark/engine.go:252-283 | The same for the fused benchmark. |
| Timing.ProfileAccepted | labctl-go/internal/benchmark/profile_engine.go:146-188 | Every successful profile run under a monotone clock is conserved. |
| Timing.BenchmarkAccepted | labctl-go/internal/benchmark/engine.go:252-283 | Every successful benchmark run under a monotone clock is conserved. |
| EngineResults.ProfileReportAccepted | labctl-go/internal/benchmark/profile_engine.go:67-194 | The controller accepts every report a release engine completes for its request. |
| EngineResults.BenchmarkReportAccepted | labctl-go/internal/benchmark/engine.go:177-289 | The same for the fused benchmark. |
| EngineResults.ValidateProfileResult | labctl-go/internal/benchmark/profile_engine.go:67-194 | Header checks, conservation loop and result decoding, as one predicate. |
| EngineResults.ValidateBenchmarkResult | labctl-go/internal/benchmark/engine.go:177-289 | The same for the fused benchmark. |
| Evidence.ReplayExact | labctl-go/internal/benchmark/verify.go:265-462 | A report the capture produced over unchanged repository content is verified exactly when conditions on the capture's inputs hold that the capture never checks: a recorded suite path that is relative to the repository and inside it, a recorded engine path that is not blank, workloads inside the repository, and one engine build throughout whose version is the controller's. |
| EvidenceExamples.CaptureReplays | labctl-go/internal/benchmark/verify.go:265-462 | A concrete capture with one scenario succeeds and its report is verified. |
| EvidenceExamples.VersionsDiffer | labctl-go/internal/benchmark/verify.go:384-386 | The same capture succeeds under a controller of any other version, and its report is then refused. |
| EvidenceExamples.SuiteElsewhere | labctl-go/internal/benchmark/profile_execute.go:304-309 | It succeeds with any absolute recorded suite path, and its report is then refused. |
| Evidence.RawEvidenceDetermines | labctl-go/internal/benchmark/verify.go:405-452 | Two accepted reports with the same raw samples, results and workload path agree on every summary, the analysis and the workload identity. |
| EvidenceFacts.VerifiedExperiment | labctl-go/internal/benchmark/verify.go:302-452 | Whatever a verified experiment says follows from repository content and the two raw runs: the workload identity is that of the file's bytes, both runs answer this very scenario with one release build of the controller's own source, and summaries and analysis are those of the raw samples. |
| EvidenceFacts.VerifiedSuiteFacts | labctl-go/internal/benchmark/verify.go:287-311 | It holds one experiment for each scenario of that suite, in order, and every scenario is within the stated bounds. |
| EvidenceFacts.VerifiedResults | labctl-go/internal/benchmark/verify.go:405-452 | The two runs behind a verified experiment agree on one result that fits the workload. |
| EvidenceFacts.VerifiedSamples | labctl-go/internal/benchmark/verify.go:302-452 | Every retained sample of a verified experiment is in order and conserves its own intervals. |
| EvidenceFacts.VerifiedTime | labctl-go/internal/benchmark/verify.go:356-403 | Time is conserved at every level: the retained samples together fit the engine's total, and that fits the controller's. |
| EvidenceFacts.VerifiedRuns | labctl-go/internal/benchmark/verify.go:336-389 | All runs of a verified report have one build, and no two share an identifier. |
| EvidenceFacts.CaptureExact | labctl-go/internal/benchmark/profile_execute.go:84-329 | Exactly when a capture produces a report, without its early exits: the inputs it needs, every scenario runnable, an engine that did not change and a clock that did not run back. |
| EvidenceFacts.FirstFailure | labctl-go/internal/benchmark/profile_execute.go:124-282 | The first scenario that cannot be run decides what a ready capture reports, whatever the later ones would have done. |
| EvidenceFacts.CaptureRecorded | labctl-go/internal/benchmark/profile_execute.go:260-329 | A produced report records the capture's own inputs and, scenario by scenario, the two runs it was given. |
| EvidenceFacts.PathExact | labctl-go/internal/benchmark/types.go:294-307 | A path is accepted exactly when it is a JSON file name of bounded length whose components are never empty, `.` or `..`. |
| Evidence.ExecuteProfile | labctl-go/internal/benchmark/profile_execute.go:84-329 | The capture loop with its early exits produces the specified report or error. |
| Evidence.CaptureScenario | labctl-go/internal/benchmark/profile_execute.go:124-282 | One scenario of it. |
| Evidence.VerifyProfileReport | labctl-go/internal/benchmark/verify.go:265-462 | The replay loop, with its identifier map and build pointer, passes exactly the verified reports and counts their samples. |
| Evidence.VerifyExperiment | labctl-go/internal/benchmark/verify.go:302-452 | The checks of one experiment, as one predicate. |
| Evidence.TakeSuite | labctl-go/internal/benchmark/verify.go:526-553 | The suite is taken exactly when its bytes, digest and identity agree and it is valid. |
| Evidence.ValidateSuite | labctl-go/internal/benchmark/types.go:97-124 | Suite validation with its map of seen names. |
| EngineResults.OracleResultFits | labctl-go/internal/protocol/protocol.go:490-579 | The serialized oracle result of a valid workload passes the result check of the validators. |
| Evidence.RunIdsDiffer | labctl-go/internal/benchmark/profile_execute.go:165-168 | The experiment identifiers of a capture are pairwise distinct. |
| Evidence.ProducedVerified | labctl-go/internal/benchmark/profile_execute.go:260-282 | A produced experiment passes every check of its own except workload containment and the engine version. |
| Evidence.CommonExact | labctl-go/internal/benchmark/verify.go:464-524 | Of the common evidence checks only the two recorded paths can fail for a produced report; everything about time, host, controller and digests always passes. |

## Left out

- Allocation failures and address-space limits: an early error exit that the model does not take.
- Process launch, signals, file descriptors and the launch-time context check of `Start`: the child is alive or exited, its pipes are byte sequences.
- Liveness that depends on the operating system (a kill ends a blocked read, diagnostics drain): only safety is stated for force-closed, cancelled and failing sessions.
- JSON text, Unicode tables and error wording: the codec is abstract; compaction of a raw workload is part of it, and characters stand for Unicode scalar values.
- Bit-level floating-point arithmetic: the operations are uninterpreted functions with the stated rounding facts; `Scores` says what they compute where no rounding happens.
- The library sorts: modelled by one stable in-place insertion sort; `Sorting.AscendingUnique`, `Sorting.StableIsSort` and `Apportion.OrderUnique` make the algorithm irrelevant.
- The benchmark-only capture and its replay (`Execute`, `verifyCapture`): the profile report covers the same checks and more.
- Publishing reports (temporary file, hard link), evidence discriminators and the optional engine digest comparison: input and output.
- Lexical and symbolic-link path resolution: an abstract containment predicate in `Evidence`; the path grammar itself is modelled.
- Bounds on free-form text fields checked by the engine on one-shot requests: the controller's own suite validation already implies them.
- Command-line dispatch, the doctor, platform probing and build metadata: no state or arithmetic to prove.
- SessionTheorems.DeliveredResult: speaks of the payload bytes a decoder saw, not of JSON text beyond the codec.
- Refinement.SequentialOracle: says what a call returns, not when; `Liveness.EveryCallReturns` shows that it always can, not that a fair scheduler makes it.

/** The engine's sequential protocol server and the responses it constructs. */
module Server {
  import opened Words
  import opened Floats
  import opened Contracts
  import opened Framing
  import opened Protocol
  import Aggregates
  import Fusion
  import Generation
  import Hex
  import Scalar
  import Stages

  /** Everything the server's answers depend on besides the request: the JSON layer, the
      rounding operations and the free-form diagnostic texts. */
  datatype Engine = Engine(
    codec: Codec, ops: FloatOps,
    debugString: string -> string, shapeError: RawJson -> string,
    issueText: Issue -> string, scalarError: Scalar.ScalarError -> string)

  // -------------------------------------------------------- request decoding

  datatype RequestError =
    | MalformedRequest | UnsupportedJobSchema | InvalidRequestId | UnsupportedKind | InvalidPayload | InvalidBackend

  datatype JobRequest = Execute(requestId: string, job: Job) | Shutdown(requestId: string)

  predicate AsciiAlpha(c: char) {
    'a' <= c <= 'z' || 'A' <= c <= 'Z'
  }

  /** `[A-Za-z][A-Za-z0-9._-]{0,63}`. */
  predicate ValidBackend(backend: string) {
    && 1 <= |backend| <= 64 && AsciiAlpha(backend[0])
    && forall i :: 1 <= i < |backend| ==> Hex.AsciiAlnum(backend[i]) || backend[i] in ['.', '_', '-']
  }

  function DecodeRequest(codec: Codec, frame: seq<Byte>): Result<JobRequest, RequestError> {
    match codec.decodeRequest(frame)
    case None => Err(MalformedRequest)
    case Some(r) =>
      if r.schemaVersion != JOB_SCHEMA then Err(UnsupportedJobSchema)
      else if !Hex.RustValidRequestId(r.requestId) then Err(InvalidRequestId)
      else if r.kind == "execute" then
        match r.job
        case None => Err(InvalidPayload)
        case Some(job) => if ValidBackend(job.backend) then Ok(Execute(r.requestId, job)) else Err(InvalidBackend)
      else if r.kind == "shutdown" then
        if r.job.Some? then Err(InvalidPayload) else Ok(Shutdown(r.requestId))
      else Err(UnsupportedKind)
  }

  // --------------------------------------------------------------- responses

  function Bounded(message: string): string {
    if |message| > MAX_MESSAGE_CHARS then message[..MAX_MESSAGE_CHARS] else message
  }

  function Decimal(n: nat): (s: string)
    ensures |s| > 0 && (n < 100 ==> |s| <= 2)
  {
    if n < 10 then ['0' + n as char] else Decimal(n / 10) + ['0' + (n % 10) as char]
  }

  function CodeName(code: ValidationCode): string {
    match code
    case UnsupportedSchema => "unsupported_schema"
    case BlankName => "blank_name"
    case NameTooLong => "name_too_long"
    case UnsafeJsonInteger => "unsafe_json_integer"
    case EmptyCategories => "empty_categories"
    case TooManyCategories => "too_many_categories"
    case InvalidFeatureRange => "invalid_feature_range"
    case InvalidProbability => "invalid_probability"
    case InvalidHotspotCategory => "invalid_hotspot_category"
    case NonFiniteNumber => "non_finite_number"
    case InvalidScale => "invalid_scale"
    case InvalidClip => "invalid_clip"
  }

  function ErrorEnvelope(id: string, code: string, message: string, issues: seq<WireIssue>): Envelope {
    Envelope(JOB_RESULT_SCHEMA, id, "error", None, Absent, Absent,
             Present(WireError(code, message, if issues == [] then Absent else Present(issues))))
  }

  function PrintAll(values: seq<U64>): seq<string> {
    seq(|values|, i requires 0 <= i < |values| => Hex.PrintU64(values[i]))
  }

  function WireOf(r: ResultV1): WireResult {
    WireResult(RESULT_SCHEMA, Some(Hex.PrintU64(r.acceptedCount)),
               Some(WireFloat(FLOAT_ENCODING, Hex.PrintU64(r.scoreSum))), Some(PrintAll(r.histogram)),
               Some(Hex.PrintU64(r.acceptedIdSum)), Some(Hex.PrintU64(r.acceptedIdXor)))
  }

  function CompletedEnvelope(id: string, name: string, r: ResultV1): Envelope {
    Envelope(JOB_RESULT_SCHEMA, id, "completed", Some(name), Present(BACKEND_SCALAR), Present(WireOf(r)), Absent)
  }

  function AckEnvelope(id: string): Envelope {
    Envelope(JOB_RESULT_SCHEMA, id, "shutdown_ack", None, Absent, Absent, Absent)
  }

  function WireIssues(engine: Engine, issues: seq<Issue>): seq<WireIssue> {
    seq(|issues|, i requires 0 <= i < |issues| =>
      WireIssue(CodeName(issues[i].code), Some(issues[i].path), Bounded(engine.issueText(issues[i]))))
  }

  function InvalidWorkloadEnvelope(engine: Engine, id: string, issues: seq<Issue>): Envelope {
    ErrorEnvelope(id, "invalid_workload",
                  "workload has " + Decimal(|issues|) + " semantic validation issue(s)", WireIssues(engine, issues))
  }

  /** The scalar oracle on a validated workload. */
  function Oracle(ops: FloatOps, w: WorkloadSpec): Result<ResultV1, Scalar.ScalarError>
    requires ValidWorkload(w)
  {
    Stages.ValidClipDefined(w.pipeline);
    match Scalar.Run(ops, w.pipeline, w.dataset.categoryCount, false, Generation.AllRecords(w.dataset))
    case Err(e) => Err(e)
    case Ok(output) => Ok(output.result)
  }

  /** The answer to one execute request. */
  function Respond(engine: Engine, id: string, job: Job): Envelope {
    if job.backend != BACKEND_SCALAR then
      ErrorEnvelope(id, "unsupported_backend",
                    Bounded("backend " + engine.debugString(job.backend) + " is not supported by this worker"),
                    [WireIssue("unsupported_backend", Some("job.execution.backend"),
                               Bounded("expected \"scalar\", got " + engine.debugString(job.backend)))])
    else match engine.codec.decodeWorkload(job.workload)
         case None =>
           ErrorEnvelope(id, "invalid_workload",
                         Bounded("workload JSON shape is invalid: " + engine.shapeError(job.workload)), [])
         case Some(w) =>
           SilentIffValid(w);
           if WorkloadIssues(w) != [] then InvalidWorkloadEnvelope(engine, id, WorkloadIssues(w))
           else match Oracle(engine.ops, w)
                case Err(e) => ErrorEnvelope(id, "execution_failed", Bounded("scalar execution failed: " + engine.scalarError(e)), [])
                case Ok(result) => CompletedEnvelope(id, w.name, result)
  }

  // ---------------------------------------------------------- the serve loop

  datatype ServerError = Read | RequestTooLarge | ResponseTooLarge | InvalidRequest(error: RequestError)

  /** What a server session writes, and how it ends. */
  datatype Served = Served(output: seq<Byte>, outcome: Result<(), ServerError>)

  function WriteResponse(codec: Codec, e: Envelope): Result<seq<Byte>, ServerError> {
    var payload := codec.encodeResponse(e);
    if |payload| > MAX_FRAME_BYTES then Err(ResponseTooLarge) else Ok(payload + [LF])
  }

  /** Bytes of `input` that one frame read takes. */
  function Consumed(input: seq<Byte>): nat {
    if HasNewline(input) then LineEnd(input) + 1 else |input|
  }

  function Served1(first: seq<Byte>, rest: Served): Served {
    Served(first + rest.output, rest.outcome)
  }

  /** The whole server loop as a function of its input bytes. */
  function Serve(engine: Engine, input: seq<Byte>, end: End): Served
    decreases |input|
  {
    FrameProgress(input, end);
    match RustFrame(MAX_FRAME_BYTES, input, end)
    case CleanEof => Served([], Ok(()))
    case TooLarge => Served([], Err(RequestTooLarge))
    case ReadFailed => Served([], Err(Read))
    case Payload(frame) =>
      match DecodeRequest(engine.codec, frame)
      case Err(e) => Served([], Err(InvalidRequest(e)))
      case Ok(Shutdown(id)) =>
        (match WriteResponse(engine.codec, AckEnvelope(id))
         case Err(e) => Served([], Err(e))
         case Ok(bytes) => Served(bytes, Ok(())))
      case Ok(Execute(id, job)) =>
        match WriteResponse(engine.codec, Respond(engine, id, job))
        case Err(e) => Served([], Err(e))
        case Ok(bytes) => Served1(bytes, Serve(engine, input[Consumed(input)..], end))
  }

  /** The bytes written so far. */
  class Output {
    var bytes: seq<Byte>

    constructor ()
      ensures bytes == []
    {
      bytes := [];
    }

    /** An oversized response is refused before any byte is written. */
    method Write(codec: Codec, e: Envelope) returns (outcome: Result<(), ServerError>)
      modifies this
      ensures match WriteResponse(codec, e)
              case Ok(written) => outcome == Ok(()) && bytes == old(bytes) + written
              case Err(error) => outcome == Err(error) && bytes == old(bytes)
    {
      var payload := codec.encodeResponse(e);
      if |payload| > MAX_FRAME_BYTES {
        return Err(ResponseTooLarge);
      }
      bytes := bytes + (payload + [LF]);
      return Ok(());
    }
  }

  /** The response to one execute request, computed the way the engine computes it. */
  method ExecuteJob(engine: Engine, id: string, job: Job, output: Output) returns (outcome: Result<(), ServerError>)
    modifies output
    ensures match WriteResponse(engine.codec, Respond(engine, id, job))
            case Ok(written) => outcome == Ok(()) && output.bytes == old(output.bytes) + written
            case Err(error) => outcome == Err(error) && output.bytes == old(output.bytes)
  {
    hide WriteResponse, Scalar.Run, ValidWorkload, WorkloadIssues, Generation.AllRecords;
    if job.backend != BACKEND_SCALAR {
      outcome := output.Write(engine.codec, Respond(engine, id, job));
      return;
    }
    var decoded := engine.codec.decodeWorkload(job.workload);
    if decoded.None? {
      outcome := output.Write(engine.codec, Respond(engine, id, job));
      return;
    }
    var w := decoded.value;
    SilentIffValid(w);
    var issues := Validate(w);
    if issues != [] {
      outcome := output.Write(engine.codec, InvalidWorkloadEnvelope(engine, id, issues));
      return;
    }
    ValidParts(w);
    var run := Fusion.RunStreaming(engine.ops, w, false);
    if run.Err? {
      outcome := output.Write(engine.codec, ErrorEnvelope(id, "execution_failed",
        Bounded("scalar execution failed: " + engine.scalarError(run.error)), []));
      return;
    }
    outcome := output.Write(engine.codec, CompletedEnvelope(id, w.name, run.value.result));
  }

  lemma ValidParts(w: WorkloadSpec)
    requires ValidWorkload(w)
    ensures ValidDataset(w.dataset) && Stages.ClampDefined(w.pipeline.normalize.clip)
  {
    Stages.ValidClipDefined(w.pipeline);
  }

  /** `serve`: whatever the chunking of its input, it writes exactly `Serve`. */
  method RunServer(engine: Engine, input: ByteSource) returns (output: Output, outcome: Result<(), ServerError>)
    modifies input
    ensures fresh(output)
    ensures Serve(engine, old(input.rest), input.end) == Served(output.bytes, outcome)
  {
    hide RustFrame, WriteResponse, DecodeRequest, Respond, LineEnd, Serve;
    output := new Output();
    ghost var all := input.rest;
    while true
      invariant fresh(output)
      invariant Serve(engine, all, input.end) == Served1(output.bytes, Serve(engine, input.rest, input.end))
      decreases |input.rest|
    {
      FrameProgress(input.rest, input.end);
      ServeUnfold(engine, input.rest, input.end);
      ServedAlone(output.bytes);
      var frame, _ := RustReadFrame(input, MAX_FRAME_BYTES);
      match frame {
        case CleanEof => return output, Ok(());
        case TooLarge => return output, Err(RequestTooLarge);
        case ReadFailed => return output, Err(Read);
        case Payload(bytes) =>
          var request := DecodeRequest(engine.codec, bytes);
          match request {
            case Err(e) => return output, Err(InvalidRequest(e));
            case Ok(Shutdown(id)) =>
              outcome := output.Write(engine.codec, AckEnvelope(id));
              return;
            case Ok(Execute(id, job)) =>
              ghost var sent := output.bytes;
              outcome := ExecuteJob(engine, id, job, output);
              if outcome.Err? {
                return;
              }
              ghost var written := WriteResponse(engine.codec, Respond(engine, id, job)).value;
              ServedJoin(sent, written, Serve(engine, input.rest, input.end));
          }
      }
    }
  }

  /** One round of the loop. */
  lemma ServeUnfold(engine: Engine, input: seq<Byte>, end: End)
    ensures var frame := RustFrame(MAX_FRAME_BYTES, input, end);
      && (frame.CleanEof? ==> Serve(engine, input, end) == Served([], Ok(())))
      && (frame.TooLarge? ==> Serve(engine, input, end) == Served([], Err(RequestTooLarge)))
      && (frame.ReadFailed? ==> Serve(engine, input, end) == Served([], Err(Read)))
      && (frame.Payload? ==>
            var rest := if HasNewline(input) then input[LineEnd(input) + 1..] else [];
            match DecodeRequest(engine.codec, frame.bytes)
            case Err(e) => Serve(engine, input, end) == Served([], Err(InvalidRequest(e)))
            case Ok(Shutdown(id)) =>
              (match WriteResponse(engine.codec, AckEnvelope(id))
               case Err(e) => Serve(engine, input, end) == Served([], Err(e))
               case Ok(bytes) => Serve(engine, input, end) == Served(bytes, Ok(())))
            case Ok(Execute(id, job)) =>
              match WriteResponse(engine.codec, Respond(engine, id, job))
              case Err(e) => Serve(engine, input, end) == Served([], Err(e))
              case Ok(bytes) => Serve(engine, input, end) == Served1(bytes, Serve(engine, rest, end)))
  {
    hide RustFrame, DecodeRequest, WriteResponse, Respond;
    FrameProgress(input, end);
    assert input[Consumed(input)..] == if HasNewline(input) then input[LineEnd(input) + 1..] else [];
  }

  lemma ServedJoin(a: seq<Byte>, b: seq<Byte>, rest: Served)
    ensures Served1(a, Served1(b, rest)) == Served1(a + b, rest)
  {
    assert a + (b + rest.output) == a + b + rest.output;
  }

  lemma ServedAlone(a: seq<Byte>)
    ensures a + [] == a
  {
  }

  /** A payload is only ever read from a non-empty input. */
  lemma FrameProgress(input: seq<Byte>, end: End)
    ensures RustFrame(MAX_FRAME_BYTES, input, end).Payload? ==> input != [] && 0 < Consumed(input) <= |input|
    ensures !RustFrame(MAX_FRAME_BYTES, input, end).Truncated?
  {
  }
}

/** Wire messages of the worker protocol and the controller's strict decoding. JSON itself
    is an abstract codec; what is decoded from it is checked field by field. */
module Protocol {
  import opened Words
  import opened Floats
  import opened Contracts
  import opened Framing
  import Aggregates
  import Hex

  const MAX_FRAME_BYTES: nat := 4 * 1024 * 1024
  const JOB_SCHEMA := "paraflow.job/v1"
  const JOB_RESULT_SCHEMA := "paraflow.job-result/v1"
  const RESULT_SCHEMA := "paraflow.result/v1"
  const BACKEND_SCALAR := "scalar"
  const FLOAT_ENCODING := "ieee754-binary64"
  const MAX_MESSAGE_CHARS: nat := 1_024

  type RawJson = string

  datatype Projection = Projection(
    schemaVersion: string, name: string, recordCount: U64, categoryCount: U64, distribution: string)

  datatype Job = Job(backend: string, workload: RawJson)
  datatype Request = Request(schemaVersion: string, requestId: string, kind: string, job: Option<Job>)

  /** An optional raw JSON member: missing, not of the expected shape, or decoded. */
  datatype Member<+T> = Absent | Malformed | Present(value: T)

  datatype WireFloat = WireFloat(encoding: string, bits: string)
  datatype WireResult = WireResult(
    schemaVersion: string, acceptedCount: Option<string>, scoreSum: Option<WireFloat>,
    histogram: Option<seq<string>>, acceptedIdSum: Option<string>, acceptedIdXor: Option<string>)
  datatype WireIssue = WireIssue(code: string, path: Option<string>, message: string)
  datatype WireError = WireError(code: string, message: string, issues: Member<seq<WireIssue>>)

  datatype Envelope = Envelope(
    schemaVersion: string, requestId: string, kind: string, workloadName: Option<string>,
    execution: Member<string>, result: Member<WireResult>, error: Member<WireError>)

  datatype RemoteIssue = RemoteIssue(code: string, path: string, message: string)
  datatype RemoteError = RemoteError(code: string, message: string, issues: seq<RemoteIssue>)
  datatype Response = Completed(result: ResultV1) | RemoteFailure(error: RemoteError) | ShutdownAck

  /** Why the controller refuses data. */
  datatype Rejection =
    | FrameTooLarge | BadEnvelope | WrongSchema | RequestIdMismatch | WrongVariant | UnknownKind
    | MissingField | NameMismatch | BackendMismatch | ForeignField | BadErrorCode | BadMessage
    | BadIssues | BadHex | BadEncoding | NotANumber | NegativeInfinity | ImpossibleWorkload
    | CountExceedsRecords | HistogramLength | HistogramExceedsRecords | HistogramMismatch
    | BadRequestId | BadWorkload

  /** The JSON layer of both processes. `compact` is what the request encoder makes of a raw
      workload: the same document without insignificant space. */
  datatype Codec = Codec(
    encodeRequest: Request -> seq<Byte>,
    decodeRequest: seq<Byte> -> Option<Request>,
    encodeResponse: Envelope -> seq<Byte>,
    decodeResponse: seq<Byte> -> Option<Envelope>,
    compact: RawJson -> RawJson,
    project: RawJson -> Option<Projection>,
    decodeWorkload: RawJson -> Option<WorkloadSpec>)

  // --------------------------------------------------- validating one result

  function ParseAll(texts: seq<string>): Option<seq<U64>> {
    if texts == [] then Some([]) else
      var n := |texts| - 1;
      match (ParseAll(texts[..n]), Hex.ParseU64(texts[n]))
      case (Some(values), Some(value)) => Some(values + [value])
      case _ => None
  }

  datatype ParsedResult = ParsedResult(
    schemaVersion: string, acceptedCount: Option<U64>, scoreSum: Option<WireFloat>,
    histogram: Option<seq<U64>>, acceptedIdSum: Option<U64>, acceptedIdXor: Option<U64>)

  function ParseMember(text: Option<string>): Result<Option<U64>, Rejection> {
    match text
    case None => Ok(None)
    case Some(s) => match Hex.ParseU64(s) case None => Err(BadHex) case Some(n) => Ok(Some(n))
  }

  function ParseHistogram(texts: Option<seq<string>>): Result<Option<seq<U64>>, Rejection> {
    match texts
    case None => Ok(None)
    case Some(s) => match ParseAll(s) case None => Err(BadHex) case Some(values) => Ok(Some(values))
  }

  /** The hexadecimal members as the JSON decoder converts them. */
  function ParseResult(wire: WireResult): Result<ParsedResult, Rejection> {
    match (ParseMember(wire.acceptedCount), ParseHistogram(wire.histogram),
           ParseMember(wire.acceptedIdSum), ParseMember(wire.acceptedIdXor))
    case (Ok(count), Ok(histogram), Ok(idSum), Ok(idXor)) =>
      Ok(ParsedResult(wire.schemaVersion, count, wire.scoreSum, histogram, idSum, idXor))
    case _ => Err(BadHex)
  }

  predicate ValidName(name: string) {
    0 < |name| <= MAX_NAME_CHARS && !IsBlank(name)
  }

  predicate PossibleWorkload(p: Projection) {
    ValidName(p.name) && p.recordCount <= MAX_SAFE_INTEGER && 0 < p.categoryCount <= MAX_CATEGORIES
  }

  /** Histogram consistency: right width, and a total that is the accepted count. */
  function CheckHistogram(counts: seq<U64>, accepted: U64, p: Projection): Option<Rejection> {
    if |counts| != p.categoryCount then Some(HistogramLength)
    else if Aggregates.Total(counts) > p.recordCount then Some(HistogramExceedsRecords)
    else if Aggregates.Total(counts) != accepted then Some(HistogramMismatch)
    else None
  }

  function CheckScore(score: WireFloat): Result<F64, Rejection> {
    if score.encoding != FLOAT_ENCODING then Err(BadEncoding)
    else match Hex.ParseU64(score.bits)
         case None => Err(BadHex)
         case Some(bits) =>
           if Val64(bits).NaN? then Err(NotANumber)
           else if Val64(bits).NegInf? then Err(NegativeInfinity)
           else Ok(bits)
  }

  function CheckedResult(r: ParsedResult, p: Projection): Result<ResultV1, Rejection> {
    if !PossibleWorkload(p) then Err(ImpossibleWorkload)
    else if r.schemaVersion != RESULT_SCHEMA then Err(WrongSchema)
    else if r.acceptedCount.None? || r.scoreSum.None? || r.histogram.None? || r.acceptedIdSum.None? || r.acceptedIdXor.None?
    then Err(MissingField)
    else match CheckScore(r.scoreSum.value)
         case Err(e) => Err(e)
         case Ok(score) =>
           if r.acceptedCount.value > p.recordCount then Err(CountExceedsRecords)
           else match CheckHistogram(r.histogram.value, r.acceptedCount.value, p)
                case Some(e) => Err(e)
                case None => Ok(ResultV1(r.acceptedCount.value, score, r.histogram.value,
                                         r.acceptedIdSum.value, r.acceptedIdXor.value))
  }

  function DecodeResult(wire: WireResult, p: Projection): Result<ResultV1, Rejection> {
    match ParseResult(wire)
    case Err(e) => Err(e)
    case Ok(parsed) => CheckedResult(parsed, p)
  }

  lemma {:induction false} TotalGrows(counts: seq<nat>, i: nat)
    requires i <= |counts|
    ensures Aggregates.Total(counts[..i]) <= Aggregates.Total(counts)
    decreases |counts| - i
  {
    if i < |counts| {
      assert counts[..i + 1][..i] == counts[..i];
      TotalGrows(counts, i + 1);
    } else {
      assert counts[..i] == counts;
    }
  }

  /** The running-total loop: the remaining-capacity subtraction never goes below zero, and
      stopping early is the same as comparing the full total. */
  method ValidateHistogram(counts: seq<U64>, accepted: U64, p: Projection) returns (rejection: Option<Rejection>)
    ensures rejection == CheckHistogram(counts, accepted, p)
  {
    if |counts| != p.categoryCount {
      return Some(HistogramLength);
    }
    var histogram := new U64[|counts|];
    var total: U64 := 0;
    for i := 0 to |counts|
      invariant histogram[..i] == counts[..i]
      invariant total == Aggregates.Total(counts[..i]) <= p.recordCount
    {
      histogram[i] := counts[i];
      var capacity: U64 := p.recordCount - total;
      assert counts[..i + 1][..i] == counts[..i];
      TotalGrows(counts, i + 1);
      if histogram[i] > capacity {
        return Some(HistogramExceedsRecords);
      }
      total := total + histogram[i];
    }
    assert counts[..|counts|] == counts;
    if total != accepted {
      return Some(HistogramMismatch);
    }
    return None;
  }

  method ValidateResult(r: ParsedResult, p: Projection) returns (checked: Result<ResultV1, Rejection>)
    ensures checked == CheckedResult(r, p)
  {
    if !PossibleWorkload(p) {
      return Err(ImpossibleWorkload);
    }
    if r.schemaVersion != RESULT_SCHEMA {
      return Err(WrongSchema);
    }
    if r.acceptedCount.None? || r.scoreSum.None? || r.histogram.None? || r.acceptedIdSum.None? || r.acceptedIdXor.None? {
      return Err(MissingField);
    }
    var score := CheckScore(r.scoreSum.value);
    if score.Err? {
      return Err(score.error);
    }
    if r.acceptedCount.value > p.recordCount {
      return Err(CountExceedsRecords);
    }
    var rejection := ValidateHistogram(r.histogram.value, r.acceptedCount.value, p);
    if rejection.Some? {
      return Err(rejection.value);
    }
    return Ok(ResultV1(r.acceptedCount.value, score.value, r.histogram.value, r.acceptedIdSum.value, r.acceptedIdXor.value));
  }

  // ------------------------------------------------------ decoding responses

  predicate ValidMessage(message: string) {
    1 <= |message| <= MAX_MESSAGE_CHARS
  }

  predicate ValidIssueCode(code: string) {
    && 1 <= |code| <= 64 && 'a' <= code[0] <= 'z'
    && forall i :: 1 <= i < |code| ==> 'a' <= code[i] <= 'z' || '0' <= code[i] <= '9' || code[i] == '_'
  }

  predicate ValidIssue(issue: WireIssue) {
    ValidIssueCode(issue.code) && ValidMessage(issue.message) && issue.path.Some?
  }

  function DecodeCompleted(e: Envelope, expected: Option<Projection>): Result<Response, Rejection> {
    if expected.None? then Err(WrongVariant)
    else if e.workloadName.None? then Err(MissingField)
    else if e.workloadName.value != expected.value.name then Err(NameMismatch)
    else if e.execution.Absent? || e.result.Absent? then Err(MissingField)
    else if !e.error.Absent? then Err(ForeignField)
    else if e.execution.Malformed? then Err(BadEnvelope)
    else if e.execution.value != BACKEND_SCALAR then Err(BackendMismatch)
    else if e.result.Malformed? then Err(BadEnvelope)
    else match DecodeResult(e.result.value, expected.value)
         case Err(r) => Err(r)
         case Ok(result) => Ok(Completed(result))
  }

  function DecodeIssues(issues: seq<WireIssue>): seq<RemoteIssue>
    requires forall i :: 0 <= i < |issues| ==> ValidIssue(issues[i])
  {
    seq(|issues|, i requires 0 <= i < |issues| && ValidIssue(issues[i]) => RemoteIssue(issues[i].code, issues[i].path.value, issues[i].message))
  }

  function DecodeRemoteError(e: Envelope): Result<Response, Rejection> {
    if e.workloadName.Some? || !e.execution.Absent? || !e.result.Absent? then Err(ForeignField)
    else if e.error.Absent? then Err(MissingField)
    else if e.error.Malformed? then Err(BadEnvelope)
    else
      var wire := e.error.value;
      if wire.code !in ["invalid_workload", "unsupported_backend", "execution_failed"] then Err(BadErrorCode)
      else if !ValidMessage(wire.message) then Err(BadMessage)
      else match wire.issues
           case Absent => Ok(RemoteFailure(RemoteError(wire.code, wire.message, [])))
           case Malformed => Err(BadIssues)
           case Present(issues) =>
             if issues == [] || !(forall i :: 0 <= i < |issues| ==> ValidIssue(issues[i])) then Err(BadIssues)
             else Ok(RemoteFailure(RemoteError(wire.code, wire.message, DecodeIssues(issues))))
  }

  function DecodeShutdownAck(e: Envelope, expected: Option<Projection>): Result<Response, Rejection> {
    if expected.Some? then Err(WrongVariant)
    else if e.workloadName.Some? || !e.execution.Absent? || !e.result.Absent? || !e.error.Absent? then Err(ForeignField)
    else Ok(ShutdownAck)
  }

  function DecodeEnvelope(e: Envelope, expectedId: string, expected: Option<Projection>): Result<Response, Rejection> {
    if e.schemaVersion != JOB_RESULT_SCHEMA then Err(WrongSchema)
    else if e.requestId != expectedId then Err(RequestIdMismatch)
    else if e.kind == "completed" then DecodeCompleted(e, expected)
    else if e.kind == "error" then (if expected.None? then Err(WrongVariant) else DecodeRemoteError(e))
    else if e.kind == "shutdown_ack" then DecodeShutdownAck(e, expected)
    else Err(UnknownKind)
  }

  function DecodeResponse(codec: Codec, frame: seq<Byte>, expectedId: string, expected: Option<Projection>): Result<Response, Rejection> {
    if |frame| > MAX_FRAME_BYTES then Err(FrameTooLarge)
    else match codec.decodeResponse(frame)
         case None => Err(BadEnvelope)
         case Some(e) => DecodeEnvelope(e, expectedId, expected)
  }

  /** What an accepted frame proves, whoever wrote it: it echoes this request's identifier;
      a completed result also echoes the workload name and backend, and its counters are
      consistent with the workload; and its kind fits the request. */
  lemma AcceptedFrame(codec: Codec, frame: seq<Byte>, id: string, expected: Option<Projection>)
    requires DecodeResponse(codec, frame, id, expected).Ok?
    ensures codec.decodeResponse(frame).Some? && codec.decodeResponse(frame).value.requestId == id
    ensures var response := DecodeResponse(codec, frame, id, expected).value;
            && (response.ShutdownAck? <==> expected.None?)
            && (response.Completed? ==>
                  var (e, r, p) := (codec.decodeResponse(frame).value, response.result, expected.value);
                  && e.workloadName == Some(p.name) && e.execution == Present(BACKEND_SCALAR)
                  && PossibleWorkload(p) && r.acceptedCount <= p.recordCount
                  && |r.histogram| == p.categoryCount && Aggregates.Total(r.histogram) == r.acceptedCount
                  && !Val64(r.scoreSum).NaN? && !Val64(r.scoreSum).NegInf?)
  {
    hide Val64, PossibleWorkload, Hex.ParseU64;
  }

  /** Exactly which frames deliver a result: nothing is asked of them but their own content. */
  lemma CompletedExactly(codec: Codec, frame: seq<Byte>, id: string, p: Projection, r: ResultV1)
    ensures DecodeResponse(codec, frame, id, Some(p)) == Ok(Completed(r)) <==>
              && |frame| <= MAX_FRAME_BYTES && codec.decodeResponse(frame).Some?
              && var e := codec.decodeResponse(frame).value;
                 && e.schemaVersion == JOB_RESULT_SCHEMA && e.requestId == id && e.kind == "completed"
                 && e.workloadName == Some(p.name) && e.execution == Present(BACKEND_SCALAR) && e.error.Absent?
                 && e.result.Present? && DecodeResult(e.result.value, p) == Ok(r)
  {
    hide DecodeResult;
  }

  /** A frame accepted for one identifier is refused for every other one. */
  lemma FrameServesOneRequest(codec: Codec, frame: seq<Byte>, id: string, other: string,
                              expected: Option<Projection>, otherExpected: Option<Projection>)
    requires DecodeResponse(codec, frame, id, expected).Ok? && other != id
    ensures DecodeResponse(codec, frame, other, otherExpected) == Err(RequestIdMismatch)
  {
    AcceptedFrame(codec, frame, id, expected);
    AcceptedSchema(codec, frame, id, expected);
  }

  lemma AcceptedSchema(codec: Codec, frame: seq<Byte>, id: string, expected: Option<Projection>)
    requires DecodeResponse(codec, frame, id, expected).Ok?
    ensures |frame| <= MAX_FRAME_BYTES && codec.decodeResponse(frame).Some?
    ensures codec.decodeResponse(frame).value.schemaVersion == JOB_RESULT_SCHEMA
  {
  }

  // -------------------------------------------------------- encoding requests

  function ExecuteRequest(id: string, workload: RawJson): Request {
    Request(JOB_SCHEMA, id, "execute", Some(Job(BACKEND_SCALAR, workload)))
  }

  function ShutdownRequest(id: string): Request {
    Request(JOB_SCHEMA, id, "shutdown", None)
  }

  function MarshalFrame(codec: Codec, request: Request): Result<seq<Byte>, Rejection> {
    var payload := codec.encodeRequest(request);
    if |payload| > MAX_FRAME_BYTES then Err(FrameTooLarge) else Ok(payload + [LF])
  }

  function EncodeExecuteFrame(codec: Codec, id: string, workload: RawJson): Result<(seq<Byte>, Projection), Rejection> {
    if !Hex.GoValidRequestId(id) then Err(BadRequestId)
    else match codec.project(workload)
         case None => Err(BadWorkload)
         case Some(p) =>
           match MarshalFrame(codec, ExecuteRequest(id, workload))
           case Err(e) => Err(e)
           case Ok(frame) => Ok((frame, p))
  }

  function EncodeShutdownFrame(codec: Codec, id: string): Result<seq<Byte>, Rejection> {
    if !Hex.GoValidRequestId(id) then Err(BadRequestId) else MarshalFrame(codec, ShutdownRequest(id))
  }
}

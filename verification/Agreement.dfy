/** Whatever the engine answers, the controller's strict decoder accepts and recovers. */
module Agreement {
  import opened Words
  import opened Floats
  import opened Contracts
  import opened Framing
  import opened Protocol
  import opened Server
  import Aggregates
  import Generation
  import Hex
  import Scalar
  import ScoreSum
  import Stages

  // ------------------------------------------------------------ the JSON layer

  const ERROR_CODES: seq<string> := ["invalid_workload", "unsupported_backend", "execution_failed"]

  predicate HexText(s: string) {
    Hex.ParseU64(s).Some?
  }

  predicate SmallIssue(i: WireIssue) {
    |i.code| <= 64 && |i.message| <= MAX_MESSAGE_CHARS && i.path.Some? && |i.path.value| <= 64
  }

  predicate SmallResult(r: WireResult) {
    && r.schemaVersion == RESULT_SCHEMA
    && r.acceptedCount.Some? && HexText(r.acceptedCount.value)
    && r.scoreSum.Some? && r.scoreSum.value.encoding == FLOAT_ENCODING && HexText(r.scoreSum.value.bits)
    && r.histogram.Some? && |r.histogram.value| <= MAX_CATEGORIES
    && (forall i :: 0 <= i < |r.histogram.value| ==> HexText(r.histogram.value[i]))
    && r.acceptedIdSum.Some? && HexText(r.acceptedIdSum.value)
    && r.acceptedIdXor.Some? && HexText(r.acceptedIdXor.value)
  }

  predicate SmallError(e: WireError) {
    && e.code in ERROR_CODES && |e.message| <= MAX_MESSAGE_CHARS && !e.issues.Malformed?
    && (e.issues.Present? ==>
          && |e.issues.value| <= MAX_ISSUES
          && forall i :: 0 <= i < |e.issues.value| ==> SmallIssue(e.issues.value[i]))
  }

  predicate SmallHeader(e: Envelope) {
    && e.schemaVersion == JOB_RESULT_SCHEMA && |e.requestId| <= 64
    && e.kind in ["completed", "error", "shutdown_ack"]
    && (e.workloadName.Some? ==> |e.workloadName.value| <= MAX_NAME_CHARS)
    && (e.execution.Absent? || e.execution == Present(BACKEND_SCALAR))
  }

  /** The envelopes the engine builds: every text in them is fixed or bounded, so their JSON
      stays far below the frame limit. */
  predicate SmallEnvelope(e: Envelope) {
    && SmallHeader(e)
    && (e.result.Absent? || (e.result.Present? && SmallResult(e.result.value)))
    && (e.error.Absent? || (e.error.Present? && SmallError(e.error.value)))
  }

  /** The requests the controller sends. */
  ghost predicate ControllerRequest(codec: Codec, r: Request) {
    && Hex.GoValidRequestId(r.requestId)
    && (r == ShutdownRequest(r.requestId)
        || (r.job.Some? && codec.project(r.job.value.workload).Some? && r == ExecuteRequest(r.requestId, r.job.value.workload)))
  }

  /** The request the engine gets to see. */
  function OnWire(codec: Codec, r: Request): Request {
    match r.job case None => r case Some(job) => r.(job := Some(job.(workload := codec.compact(job.workload))))
  }

  predicate FrameText(text: seq<Byte>) {
    OneLine(text) && !EndsWithCr(text)
  }

  /** The JSON layer: on what either side sends, decoding undoes encoding up to compaction and
      the text has no raw newline and no trailing CR; the engine's answers fit a frame;
      compaction changes neither reading of a workload, and the two readings agree.
      `ReferenceCodec` exhibits such a layer. */
  ghost predicate ValidCodec(codec: Codec) {
    && (forall r: Request :: ControllerRequest(codec, r) ==>
          codec.decodeRequest(codec.encodeRequest(r)) == Some(OnWire(codec, r)) && FrameText(codec.encodeRequest(r)))
    && (forall e: Envelope :: SmallEnvelope(e) ==>
          && codec.decodeResponse(codec.encodeResponse(e)) == Some(e) && FrameText(codec.encodeResponse(e))
          && |codec.encodeResponse(e)| <= MAX_FRAME_BYTES)
    && (forall raw: RawJson ::
          codec.project(codec.compact(raw)) == codec.project(raw) && codec.decodeWorkload(codec.compact(raw)) == codec.decodeWorkload(raw))
    && (forall raw: RawJson :: codec.project(raw).Some? && codec.decodeWorkload(raw).Some? ==>
          Projects(codec.project(raw).value, codec.decodeWorkload(raw).value))
  }

  predicate Projects(p: Projection, w: WorkloadSpec) {
    p.name == w.name && p.recordCount == w.dataset.recordCount && p.categoryCount == w.dataset.categoryCount
  }

  ghost predicate ValidEngine(engine: Engine) {
    && ValidCodec(engine.codec) && Ieee(engine.ops)
    && forall i: Issue :: engine.issueText(i) != ""
  }

  // ------------------------------------------------------------ result wires

  lemma {:induction false} PrintedHistogramParses(values: seq<U64>)
    ensures ParseAll(PrintAll(values)) == Some(values)
  {
    if values != [] {
      var n := |values| - 1;
      PrintedHistogramParses(values[..n]);
      assert PrintAll(values)[..n] == PrintAll(values[..n]);
      assert PrintAll(values)[n] == Hex.PrintU64(values[n]);
      Hex.ParsePrint(values[n], "");
      assert values == values[..n] + [values[n]];
    }
  }

  /** A printed result is accepted exactly when its counters fit the workload. */
  lemma PrintedResultDecodes(r: ResultV1, p: Projection)
    requires PossibleWorkload(p) && r.acceptedCount <= p.recordCount
    requires |r.histogram| == p.categoryCount && Aggregates.Total(r.histogram) == r.acceptedCount
    requires !Val64(r.scoreSum).NaN? && !Val64(r.scoreSum).NegInf?
    ensures DecodeResult(WireOf(r), p) == Ok(r)
  {
    hide Val64, PossibleWorkload, Hex.ParseU64, Hex.PrintU64, ParseAll, PrintAll;
    PrintedHistogramParses(r.histogram);
    Hex.ParsePrint(r.acceptedCount, "");
    Hex.ParsePrint(r.scoreSum, "");
    Hex.ParsePrint(r.acceptedIdSum, "");
    Hex.ParsePrint(r.acceptedIdXor, "");
  }

  lemma OracleDescribed(ops: FloatOps, w: WorkloadSpec)
    requires ValidWorkload(w)
    ensures Stages.ClampDefined(w.pipeline.normalize.clip)
    ensures var accepted := Scalar.Accepted(ops, w.pipeline, Generation.AllRecords(w.dataset));
            && |accepted| <= w.dataset.recordCount && Aggregates.InDomain(accepted, w.dataset.categoryCount)
            && Oracle(ops, w) == Ok(Aggregates.Described(ops, accepted, w.dataset.categoryCount, false).result)
  {
    hide Scalar.Run, Generation.Batch, Aggregates.Described, Stages.ClampDefined;
    Stages.ValidClipDefined(w.pipeline);
    Aggregates.OracleRun(ops, w, false);
    Aggregates.AcceptedFromBatch(ops, w.pipeline, w.dataset, w.dataset.recordCount);
  }

  lemma ProjectionPossible(w: WorkloadSpec, p: Projection)
    requires ValidWorkload(w) && Projects(p, w)
    ensures PossibleWorkload(p) && w.dataset.recordCount < TWO64
  {
  }

  lemma DescribedDecodes(ops: FloatOps, accepted: seq<Stages.ScoredRecord>, p: Projection)
    requires PossibleWorkload(p) && |accepted| <= p.recordCount && Aggregates.InDomain(accepted, p.categoryCount)
    requires !Val64(Aggregates.ScoreFold(ops, accepted)).NaN? && !Val64(Aggregates.ScoreFold(ops, accepted)).NegInf?
    ensures var r := Aggregates.Described(ops, accepted, p.categoryCount, false).result;
            |r.histogram| == p.categoryCount && DecodeResult(WireOf(r), p) == Ok(r)
  {
    hide Val64, DecodeResult, Aggregates.Total, Aggregates.Histogram, Aggregates.ScoreFold, WireOf, ValidName,
         Aggregates.InDomain, Aggregates.IdTotal, Aggregates.MixedXor, Aggregates.CountIn, Aggregates.Ids;
    Aggregates.HistogramConserves(accepted, p.categoryCount);
    Aggregates.HistogramLength(accepted, p.categoryCount);
    PrintedResultDecodes(Aggregates.Described(ops, accepted, p.categoryCount, false).result, p);
  }

  /** The oracle never fails on a valid workload, and the controller accepts its result. */
  lemma OracleResultAccepted(ops: FloatOps, w: WorkloadSpec, p: Projection)
    requires Ieee(ops) && ValidWorkload(w) && Projects(p, w)
    ensures Oracle(ops, w).Ok?
    ensures DecodeResult(WireOf(Oracle(ops, w).value), p) == Ok(Oracle(ops, w).value)
    ensures |Oracle(ops, w).value.histogram| == w.dataset.categoryCount
  {
    hide Val64, Ieee, Oracle, DecodeResult, Aggregates.Described, ValidWorkload, PossibleWorkload,
         Stages.ClampDefined, Aggregates.ScoreFold, Scalar.Accepted, WireOf, Generation.AllRecords, Aggregates.InDomain;
    OracleDescribed(ops, w);
    ProjectionPossible(w, p);
    ScoreSum.OracleScoreSum(ops, w);
    ValidParts(w);
    DescribedDecodes(ops, Scalar.Accepted(ops, w.pipeline, Generation.AllRecords(w.dataset)), p);
  }

  // ----------------------------------------------------------------- issues

  predicate ShortPaths(issues: seq<Issue>) {
    forall i :: 0 <= i < |issues| ==> |issues[i].path| <= 64
  }

  lemma WhenPaths(bad: bool, code: ValidationCode, path: string)
    requires |path| <= 64
    ensures ShortPaths(When(bad, code, path))
  {
  }

  lemma DomainPaths(d: DatasetSpec)
    ensures ShortPaths(DomainIssues(d)) && ShortPaths(DistributionIssues(d))
  {
    hide When;
    WhenPaths(d.categoryCount == 0, EmptyCategories, "dataset.category_count");
    WhenPaths(d.categoryCount > MAX_CATEGORIES, TooManyCategories, "dataset.category_count");
    WhenPaths(d.featureMin >= d.featureMax, InvalidFeatureRange, "dataset.feature_min");
    if d.distribution.Hotspot? {
      WhenPaths(d.distribution.probabilityBps > BASIS_POINTS_MAX, InvalidProbability, "dataset.distribution.probability_bps");
      WhenPaths(0 < d.categoryCount <= d.distribution.category, InvalidHotspotCategory, "dataset.distribution.category");
    }
  }

  lemma DatasetPaths(d: DatasetSpec)
    ensures ShortPaths(DatasetIssues(d))
  {
    hide When, DomainIssues, DistributionIssues;
    DomainPaths(d);
    WhenPaths(d.recordCount > MAX_SAFE_INTEGER, UnsafeJsonInteger, "dataset.record_count");
    WhenPaths(d.seed > MAX_SAFE_INTEGER, UnsafeJsonInteger, "dataset.seed");
    WhenPaths(d.flagProbabilityBps > BASIS_POINTS_MAX, InvalidProbability, "dataset.flag_probability_bps");
  }

  lemma ScalePaths(value: F32, code: ValidationCode, path: string)
    requires |path| <= 64
    ensures ShortPaths(ScaleIssues(value, code, path)) && ShortPaths(FiniteIssues(value, path))
  {
  }

  lemma PipelinePaths(p: PipelineSpec)
    ensures ShortPaths(PipelineIssues(p))
  {
    hide ScaleIssues, FiniteIssues;
    var n, s := p.normalize, p.score;
    ScalePaths(n.offsetA, InvalidScale, "pipeline.normalize.offset_a");
    ScalePaths(n.scaleA, InvalidScale, "pipeline.normalize.scale_a");
    ScalePaths(n.offsetB, InvalidScale, "pipeline.normalize.offset_b");
    ScalePaths(n.scaleB, InvalidScale, "pipeline.normalize.scale_b");
    ScalePaths(n.clip, InvalidClip, "pipeline.normalize.clip");
    ScalePaths(s.weightA, InvalidScale, "pipeline.score.weight_a");
    ScalePaths(s.weightB, InvalidScale, "pipeline.score.weight_b");
    ScalePaths(s.bias, InvalidScale, "pipeline.score.bias");
    ScalePaths(s.flagBonus, InvalidScale, "pipeline.score.flag_bonus");
    ScalePaths(p.filter.minScore, InvalidScale, "pipeline.filter.min_score");
  }

  lemma WorkloadPaths(w: WorkloadSpec)
    ensures ShortPaths(WorkloadIssues(w))
  {
    DatasetPaths(w.dataset);
    PipelinePaths(w.pipeline);
    assert ShortPaths(IdentityIssues(w));
    hide IdentityIssues, DatasetIssues, PipelineIssues;
  }

  /** Every validation code satisfies the controller's grammar for issue codes. */
  lemma CodeNamesValid(code: ValidationCode)
    ensures ValidIssueCode(CodeName(code))
  {
    hide ValidIssueCode;
    if code in {UnsupportedSchema, BlankName, NameTooLong, UnsafeJsonInteger, EmptyCategories, TooManyCategories} {
      WorkloadCodeNames(code);
    } else {
      ParameterCodeNames(code);
    }
  }

  lemma WorkloadCodeNames(code: ValidationCode)
    requires code in {UnsupportedSchema, BlankName, NameTooLong, UnsafeJsonInteger, EmptyCategories, TooManyCategories}
    ensures ValidIssueCode(CodeName(code))
  {
  }

  lemma ParameterCodeNames(code: ValidationCode)
    requires code in {InvalidFeatureRange, InvalidProbability, InvalidHotspotCategory, NonFiniteNumber, InvalidScale, InvalidClip}
    ensures ValidIssueCode(CodeName(code))
  {
  }

  lemma WireIssuesValid(engine: Engine, issues: seq<Issue>)
    requires ShortPaths(issues) && forall i: Issue :: engine.issueText(i) != ""
    ensures var wire := WireIssues(engine, issues);
            forall i :: 0 <= i < |wire| ==> ValidIssue(wire[i]) && SmallIssue(wire[i])
  {
    hide ValidIssueCode, CodeName;
    var wire := WireIssues(engine, issues);
    forall i | 0 <= i < |wire|
      ensures ValidIssue(wire[i]) && SmallIssue(wire[i])
    {
      CodeNamesValid(issues[i].code);
      CodeNameShort(issues[i].code);
    }
  }

  lemma CodeNameShort(code: ValidationCode)
    ensures |CodeName(code)| <= 64
  {
  }

  // -------------------------------------------------------------- responses

  /** What the caller of one execute request must get back. */
  function Expected(engine: Engine, raw: RawJson): Response {
    match engine.codec.decodeWorkload(raw)
    case None =>
      RemoteFailure(RemoteError("invalid_workload", Bounded("workload JSON shape is invalid: " + engine.shapeError(raw)), []))
    case Some(w) =>
      SilentIffValid(w);
      if ValidWorkload(w) then
        match Oracle(engine.ops, w)
        case Ok(result) => Completed(result)
        case Err(e) => RemoteFailure(RemoteError("execution_failed", Bounded("scalar execution failed: " + engine.scalarError(e)), []))
      else
        RemoteFailure(RemoteError("invalid_workload",
          "workload has " + Decimal(|WorkloadIssues(w)|) + " semantic validation issue(s)",
          ExpectedIssues(engine, WorkloadIssues(w))))
  }

  function ExpectedIssues(engine: Engine, issues: seq<Issue>): seq<RemoteIssue> {
    seq(|issues|, i requires 0 <= i < |issues| =>
      RemoteIssue(CodeName(issues[i].code), issues[i].path, Bounded(engine.issueText(issues[i]))))
  }

  lemma CompletedDecodes(id: string, w: WorkloadSpec, r: ResultV1, p: Projection)
    requires |id| <= 64 && Projects(p, w) && |w.name| <= MAX_NAME_CHARS && DecodeResult(WireOf(r), p) == Ok(r)
    requires |r.histogram| <= MAX_CATEGORIES
    ensures DecodeEnvelope(CompletedEnvelope(id, w.name, r), id, Some(p)) == Ok(Completed(r))
    ensures SmallEnvelope(CompletedEnvelope(id, w.name, r))
  {
    hide DecodeResult;
  }

  lemma ErrorDecodes(id: string, code: string, message: string, issues: seq<WireIssue>, p: Projection)
    requires |id| <= 64 && code in ["invalid_workload", "unsupported_backend", "execution_failed"] && ValidMessage(message)
    requires |issues| <= MAX_ISSUES && forall i :: 0 <= i < |issues| ==> ValidIssue(issues[i]) && SmallIssue(issues[i])
    ensures DecodeEnvelope(ErrorEnvelope(id, code, message, issues), id, Some(p))
         == Ok(RemoteFailure(RemoteError(code, message, DecodeIssues(issues))))
    ensures SmallEnvelope(ErrorEnvelope(id, code, message, issues))
  {
    hide ValidIssue, SmallIssue, ValidMessage;
    ValidMessageSize(message);
    assert issues == [] ==> DecodeIssues(issues) == [];
  }

  lemma ValidMessageSize(message: string)
    requires ValidMessage(message)
    ensures |message| <= MAX_MESSAGE_CHARS
  {
  }

  lemma BoundedValid(message: string)
    requires message != ""
    ensures ValidMessage(Bounded(message))
  {
  }

  lemma InvalidWorkloadDecodes(engine: Engine, id: string, w: WorkloadSpec, p: Projection)
    requires |id| <= 64 && !ValidWorkload(w) && forall i: Issue :: engine.issueText(i) != ""
    ensures WorkloadIssues(w) != []
    ensures var e := InvalidWorkloadEnvelope(engine, id, WorkloadIssues(w));
            && SmallEnvelope(e)
            && DecodeEnvelope(e, id, Some(p))
               == Ok(RemoteFailure(RemoteError("invalid_workload",
                    "workload has " + Decimal(|WorkloadIssues(w)|) + " semantic validation issue(s)",
                    ExpectedIssues(engine, WorkloadIssues(w)))))
  {
    hide WorkloadIssues, ValidWorkload, CodeName, ValidIssue, SmallIssue, Decimal, DecodeEnvelope, SmallEnvelope;
    SilentIffValid(w);
    WorkloadPaths(w);
    var issues := WorkloadIssues(w);
    WireIssuesValid(engine, issues);
    var wire := WireIssues(engine, issues);
    ErrorDecodes(id, "invalid_workload", "workload has " + Decimal(|issues|) + " semantic validation issue(s)", wire, p);
    assert DecodeIssues(wire) == ExpectedIssues(engine, issues);
  }

  /** Every answer to a controller request decodes to exactly the expected response. */
  lemma ResponseDecodes(engine: Engine, id: string, raw: RawJson)
    requires ValidEngine(engine) && |id| <= 64 && engine.codec.project(raw).Some?
    ensures var e := Respond(engine, id, Job(BACKEND_SCALAR, raw));
            && SmallEnvelope(e)
            && DecodeEnvelope(e, id, engine.codec.project(raw)) == Ok(Expected(engine, raw))
  {
    hide WorkloadIssues, ValidWorkload, Oracle, DecodeEnvelope, SmallEnvelope, Ieee;
    var p := engine.codec.project(raw).value;
    match engine.codec.decodeWorkload(raw)
    case None =>
      BoundedValid("workload JSON shape is invalid: " + engine.shapeError(raw));
      ErrorDecodes(id, "invalid_workload", Bounded("workload JSON shape is invalid: " + engine.shapeError(raw)), [], p);
      assert DecodeIssues([]) == [];
    case Some(w) =>
      SilentIffValid(w);
      if ValidWorkload(w) {
        OracleResultAccepted(engine.ops, w, p);
        ValidSizes(w);
        CompletedDecodes(id, w, Oracle(engine.ops, w).value, p);
      } else {
        InvalidWorkloadDecodes(engine, id, w, p);
      }
  }

  lemma ValidSizes(w: WorkloadSpec)
    requires ValidWorkload(w)
    ensures |w.name| <= MAX_NAME_CHARS && w.dataset.categoryCount <= MAX_CATEGORIES
  {
  }
}

/** Integer-only interpretation of one fused baseline and one stage profile. */
module Analysis {
  import opened Words
  import opened Floats
  import opened Contracts
  import opened Protocol
  import opened Ratios
  import opened Statistics
  import opened Timing
  import Apportion

  datatype Summary = Summary(generation: Statistics, pipeline: Statistics, engineTotal: Statistics)

  datatype ProfileSummary = ProfileSummary(
    generation: Statistics, normalize: Statistics, score: Statistics, filter: Statistics, aggregate: Statistics,
    stageSum: Statistics, pipelineStages: Statistics, profileTotal: Statistics)

  datatype AnalysisError =
    | EmptySamples | PipelineOverflow | EmptyWorkload | BaselineRejected(why: Rejection) | ProfileRejected(why: Rejection)
    | ResultsDiffer | MedianSum(e: ArithmeticError) | PipelineMedianSum(e: ArithmeticError) | StageShares(e: ArithmeticError)
    | FusedMedianZero | Ratio(e: ArithmeticError) | ProfileTotalZero | Selectivity(e: ArithmeticError) | SelectivityTooLarge

  datatype Analysis = Analysis(
    acceptedCount: U64, selectivity: nat, stageMedianSum: U64, stagePipelineMedianSum: U64, shares: seq<nat>,
    dominantStage: string, dominantPipelineStage: string,
    fusedPerRecord: U64, stagePassPerRecord: U64, observerRatio: U64, fusedMad: U32, profileMad: U32)

  const STAGE_NAMES: seq<string> := ["generation", "normalize", "score", "filter", "aggregate"]

  // ---------------------------------------------------------------- summaries

  datatype FusedBoundary = FusedGeneration | FusedPipeline | FusedTotal

  function FusedReading(s: BenchmarkSample, boundary: FusedBoundary): U64 {
    match boundary
    case FusedGeneration => s.generation
    case FusedPipeline => s.pipeline
    case FusedTotal => s.engineTotal
  }

  /** One measured boundary across all samples. */
  function FusedColumn(samples: seq<BenchmarkSample>, boundary: FusedBoundary): (c: seq<U64>)
    ensures |c| == |samples| && forall i :: 0 <= i < |c| ==> c[i] == FusedReading(samples[i], boundary)
  {
    seq(|samples|, i requires 0 <= i < |samples| => FusedReading(samples[i], boundary))
  }

  function Summarize(samples: seq<BenchmarkSample>): Result<Summary, AnalysisError> {
    if samples == [] then Err(EmptySamples)
    else Ok(Summary(SummaryOf(FusedColumn(samples, FusedGeneration)), SummaryOf(FusedColumn(samples, FusedPipeline)),
                    SummaryOf(FusedColumn(samples, FusedTotal))))
  }

  function PipelineStages(s: ProfileSample): nat {
    s.normalize + s.score + s.filter + s.aggregate
  }

  /** The pipeline boundary of a sample, which the summary only takes when it fits a word. */
  function PipelineWord(s: ProfileSample): U64 {
    if PipelineStages(s) < TWO64 then PipelineStages(s) else MAX_U64
  }

  predicate PipelinesFit(samples: seq<ProfileSample>) {
    forall i :: 0 <= i < |samples| ==> PipelineStages(samples[i]) < TWO64
  }

  datatype Boundary = AtGeneration | AtNormalize | AtScore | AtFilter | AtAggregate | AtStageSum | AtPipeline | AtTotal

  function Reading(s: ProfileSample, boundary: Boundary): U64 {
    match boundary
    case AtGeneration => s.generation
    case AtNormalize => s.normalize
    case AtScore => s.score
    case AtFilter => s.filter
    case AtAggregate => s.aggregate
    case AtStageSum => s.stageSum
    case AtPipeline => PipelineWord(s)
    case AtTotal => s.profileTotal
  }

  function Column(samples: seq<ProfileSample>, boundary: Boundary): (c: seq<U64>)
    ensures |c| == |samples| && forall i :: 0 <= i < |c| ==> c[i] == Reading(samples[i], boundary)
  {
    seq(|samples|, i requires 0 <= i < |samples| => Reading(samples[i], boundary))
  }

  function SummarizeProfile(samples: seq<ProfileSample>): Result<ProfileSummary, AnalysisError> {
    if samples == [] then Err(EmptySamples)
    else if !PipelinesFit(samples) then Err(PipelineOverflow)
    else Ok(ProfileSummary(SummaryOf(Column(samples, AtGeneration)), SummaryOf(Column(samples, AtNormalize)),
                           SummaryOf(Column(samples, AtScore)), SummaryOf(Column(samples, AtFilter)),
                           SummaryOf(Column(samples, AtAggregate)), SummaryOf(Column(samples, AtStageSum)),
                           SummaryOf(Column(samples, AtPipeline)), SummaryOf(Column(samples, AtTotal))))
  }

  /** Samples that pass the conservation checks can always be summarized. */
  lemma ConservedSummarizes(samples: seq<ProfileSample>)
    requires samples != [] && forall i :: 0 <= i < |samples| ==> ProfileSampleConserved(samples[i], i)
    ensures SummarizeProfile(samples).Ok?
  {
    hide SummaryOf, Column;
    forall i | 0 <= i < |samples|
      ensures PipelineStages(samples[i]) < TWO64
    {
      assert ProfileSampleConserved(samples[i], i);
    }
  }

  /** The derived pipeline boundary, summed with overflow checks in one pass. */
  method GatherPipeline(samples: seq<ProfileSample>) returns (r: Result<seq<U64>, AnalysisError>)
    ensures r == if PipelinesFit(samples) then Ok(Column(samples, AtPipeline)) else Err(PipelineOverflow)
  {
    hide Sum;
    var pipelineStages := new U64[|samples|];
    for index := 0 to |samples|
      invariant forall k :: 0 <= k < index ==> PipelineStages(samples[k]) < TWO64
      invariant forall k :: 0 <= k < index ==> pipelineStages[k] == PipelineWord(samples[k])
    {
      var s := samples[index];
      FourSum(s.normalize, s.score, s.filter, s.aggregate);
      var pipeline := SumUint64([s.normalize, s.score, s.filter, s.aggregate]);
      if pipeline.Err? {
        return Err(PipelineOverflow);
      }
      pipelineStages[index] := pipeline.value;
    }
    assert pipelineStages[..] == Column(samples, AtPipeline);
    return Ok(pipelineStages[..]);
  }

  method SummarizeProfileSamples(samples: seq<ProfileSample>) returns (r: Result<ProfileSummary, AnalysisError>)
    ensures r == SummarizeProfile(samples)
  {
    hide SummaryOf, Column;
    if samples == [] {
      return Err(EmptySamples);
    }
    var pipeline := GatherPipeline(samples);
    if pipeline.Err? {
      return Err(pipeline.error);
    }
    var generation := SummarizeValues(Column(samples, AtGeneration));
    var normalize := SummarizeValues(Column(samples, AtNormalize));
    var score := SummarizeValues(Column(samples, AtScore));
    var filter := SummarizeValues(Column(samples, AtFilter));
    var aggregate := SummarizeValues(Column(samples, AtAggregate));
    var stageSum := SummarizeValues(Column(samples, AtStageSum));
    var pipelineStages := SummarizeValues(pipeline.value);
    var profileTotal := SummarizeValues(Column(samples, AtTotal));
    return Ok(ProfileSummary(generation, normalize, score, filter, aggregate, stageSum, pipelineStages, profileTotal));
  }

  lemma FourSum(a: nat, b: nat, c: nat, d: nat)
    ensures Sum([a, b, c, d]) == a + b + c + d
  {
    FiveSum(a, b, c, d, 0);
    SumSnoc([a, b, c, d], 0);
    assert [a, b, c, d] + [0] == [a, b, c, d, 0];
  }

  predicate Bounds(s: Statistics, x: U64, count: nat) {
    s.count == count && s.minimum <= x <= s.maximum && s.minimum <= s.median <= s.maximum && s.mad <= s.maximum
  }

  function StatisticsAt(p: ProfileSummary, boundary: Boundary): Statistics {
    match boundary
    case AtGeneration => p.generation
    case AtNormalize => p.normalize
    case AtScore => p.score
    case AtFilter => p.filter
    case AtAggregate => p.aggregate
    case AtStageSum => p.stageSum
    case AtPipeline => p.pipelineStages
    case AtTotal => p.profileTotal
  }

  /** Every summary bounds every reading of its own boundary; the derived boundary is the
      exact sum of the four pipeline stages. */
  lemma BoundariesBounded(samples: seq<ProfileSample>, i: nat, boundary: Boundary)
    requires i < |samples| && SummarizeProfile(samples).Ok?
    ensures Bounds(StatisticsAt(SummarizeProfile(samples).value, boundary), Reading(samples[i], boundary), |samples|)
    ensures Reading(samples[i], AtPipeline) == PipelineStages(samples[i])
  {
    hide SummaryOf, Column, Bounds;
    ColumnBounds(samples, boundary, i);
  }

  lemma ColumnBounds(samples: seq<ProfileSample>, boundary: Boundary, i: nat)
    requires i < |samples|
    ensures Bounds(SummaryOf(Column(samples, boundary)), Reading(samples[i], boundary), |samples|)
  {
    hide Median, Arranged, Distances, MedianOf, Reading;
    SummaryBounds(Column(samples, boundary), i);
    DeviationInRange(Column(samples, boundary));
  }

  // ----------------------------------------------------------- dominant stage

  /** Index of the first largest value. */
  function DominantIndex(values: seq<U64>): (k: nat)
    requires values != []
    ensures k < |values|
    ensures forall j :: 0 <= j < |values| ==> values[j] <= values[k]
    ensures forall j :: 0 <= j < k ==> values[j] < values[k]
  {
    var n := |values| - 1;
    if n == 0 then 0
    else
      var k := DominantIndex(values[..n]);
      if values[n] > values[k] then n else k
  }

  lemma FirstMaximumUnique(values: seq<U64>, k: nat, m: nat)
    requires k < |values| && m < |values|
    requires forall j :: 0 <= j < |values| ==> values[j] <= values[k] && values[j] <= values[m]
    requires forall j :: 0 <= j < k ==> values[j] < values[k]
    requires forall j :: 0 <= j < m ==> values[j] < values[m]
    ensures k == m
  {
    assert values[k] == values[m];
  }

  method Dominant(names: seq<string>, values: seq<U64>) returns (name: string)
    requires values != [] && |names| == |values|
    ensures name == names[DominantIndex(values)]
  {
    var index := 0;
    for candidate := 1 to |values|
      invariant index < candidate
      invariant forall j :: 0 <= j < candidate ==> values[j] <= values[index]
      invariant forall j :: 0 <= j < index ==> values[j] < values[index]
    {
      if values[candidate] > values[index] {
        index := candidate;
      }
    }
    FirstMaximumUnique(values, index, DominantIndex(values));
    name := names[index];
  }

  // ----------------------------------------------------------------- analysis

  function StageMedians(p: ProfileSummary): (m: seq<U64>)
    ensures |m| == 5
  {
    [p.generation.median, p.normalize.median, p.score.median, p.filter.median, p.aggregate.median]
  }

  /** The four ratios over the fused and profile medians. */
  datatype RatioSet = RatioSet(fusedPerRecord: U64, stagePassPerRecord: U64, observer: U64, fusedMad: U32, profileMad: U32)

  function AnalyzeRatios(records: U64, b: Summary, p: ProfileSummary, pipelineSum: U64): Result<RatioSet, AnalysisError> {
    if b.pipeline.median == 0 then Err(FusedMedianZero)
    else match ScaledRatio(b.pipeline.median, records, 1_000)
         case Err(e) => Err(Ratio(e))
         case Ok(fusedPerRecord) =>
           match ScaledRatio(pipelineSum, records, 1_000)
           case Err(e) => Err(Ratio(e))
           case Ok(stagePassPerRecord) =>
             match ScaledRatio(pipelineSum, b.pipeline.median, 1_000)
             case Err(e) => Err(Ratio(e))
             case Ok(observer) =>
               match RatioBasisPoints(b.pipeline.mad, b.pipeline.median)
               case Err(e) => Err(Ratio(e))
               case Ok(fusedMad) =>
                 if p.profileTotal.median == 0 then Err(ProfileTotalZero)
                 else match RatioBasisPoints(p.profileTotal.mad, p.profileTotal.median)
                      case Err(e) => Err(Ratio(e))
                      case Ok(profileMad) => Ok(RatioSet(fusedPerRecord, stagePassPerRecord, observer, fusedMad, profileMad))
  }

  function AnalyzeDecoded(records: U64, accepted: U64, b: Summary, p: ProfileSummary): Result<Analysis, AnalysisError> {
    var medians := StageMedians(p);
    match CheckedSum(medians)
    case Err(e) => Err(MedianSum(e))
    case Ok(medianSum) =>
      match CheckedSum(medians[1..])
      case Err(e) => Err(PipelineMedianSum(e))
      case Ok(pipelineSum) =>
        match Apportion.Apportioned(medians)
        case Err(e) => Err(StageShares(e))
        case Ok(shares) =>
          match AnalyzeRatios(records, b, p, pipelineSum)
          case Err(e) => Err(e)
          case Ok(q) =>
            match ScaledRatio(accepted, records, 10_000)
            case Err(e) => Err(Selectivity(e))
            case Ok(selectivity) =>
              if selectivity > MAX_U32 then Err(SelectivityTooLarge)
              else Ok(Analysis(accepted, selectivity, medianSum, pipelineSum, shares,
                               STAGE_NAMES[DominantIndex(medians)], STAGE_NAMES[1..][DominantIndex(medians[1..])],
                               q.fusedPerRecord, q.stagePassPerRecord, q.observer, q.fusedMad, q.profileMad))
  }

  function DecodeMember(m: Member<WireResult>, p: Projection): Result<ResultV1, Rejection> {
    match m
    case Absent => Err(MissingField)
    case Malformed => Err(BadEnvelope)
    case Present(wire) => DecodeResult(wire, p)
  }

  function AnalyzeScenario(workload: Projection, baseline: Member<WireResult>, b: Summary, profile: Member<WireResult>, p: ProfileSummary)
    : Result<Analysis, AnalysisError>
  {
    if workload.recordCount == 0 then Err(EmptyWorkload)
    else match DecodeMember(baseline, workload)
         case Err(e) => Err(BaselineRejected(e))
         case Ok(fused) =>
           match DecodeMember(profile, workload)
           case Err(e) => Err(ProfileRejected(e))
           case Ok(staged) =>
             if fused != staged then Err(ResultsDiffer)
             else AnalyzeDecoded(workload.recordCount, fused.acceptedCount, b, p)
  }

  lemma DecodedCount(m: Member<WireResult>, p: Projection)
    ensures DecodeMember(m, p).Ok? ==> DecodeMember(m, p).value.acceptedCount <= p.recordCount
  {
    hide ParseResult, CheckScore, CheckHistogram, PossibleWorkload;
  }

  lemma TailSum(v: seq<nat>)
    requires |v| == 5
    ensures Sum(v) == v[0] + Sum(v[1..]) && Sum(v) == v[0] + v[1] + v[2] + v[3] + v[4]
  {
    FiveSum(v[0], v[1], v[2], v[3], v[4]);
    FourSum(v[1], v[2], v[3], v[4]);
    assert v == [v[0], v[1], v[2], v[3], v[4]];
    assert v[1..] == [v[1], v[2], v[3], v[4]];
  }

  lemma DecodedGuards(records: U64, accepted: U64, b: Summary, p: ProfileSummary)
    requires accepted <= records && records > 0
    ensures match AnalyzeDecoded(records, accepted, b, p)
            case Err(e) => !e.Selectivity? && !e.SelectivityTooLarge? && !e.PipelineMedianSum? && e != StageShares(AdditionOverflow)
            case Ok(a) =>
              && a.acceptedCount == accepted && a.selectivity == accepted * 10_000 / records <= 10_000
              && Sum(a.shares) == 10_000 && |a.shares| == 5
              && a.stageMedianSum == p.generation.median + a.stagePipelineMedianSum
  {
    hide ScaledRatio, RatioBasisPoints, Sum, Apportion.Shares;
    PartOfWhole(accepted, records);
    var medians := StageMedians(p);
    TailSum(medians);
    RatioErrors(records, b, p, if Sum(medians[1..]) < TWO64 then Sum(medians[1..]) else 0);
    hide AnalyzeRatios, StageMedians, DominantIndex;
    if 0 < Sum(medians) < TWO64 {
      Apportion.SharesSum(medians, Sum(medians));
    }
  }

  lemma RatioErrors(records: U64, b: Summary, p: ProfileSummary, pipelineSum: U64)
    ensures match AnalyzeRatios(records, b, p, pipelineSum)
            case Err(e) => e.FusedMedianZero? || e.Ratio? || e.ProfileTotalZero?
            case Ok(_) => true
  {
    hide ScaledRatio, RatioBasisPoints;
  }

  /** The selectivity is the exact share of accepted records and at most 10,000, so none of
      its guards can fire; neither can the pipeline sum's or the apportionment's overflow. */
  lemma AnalysisGuards(workload: Projection, baseline: Member<WireResult>, b: Summary, profile: Member<WireResult>, p: ProfileSummary)
    ensures match AnalyzeScenario(workload, baseline, b, profile, p)
            case Err(e) => !e.Selectivity? && !e.SelectivityTooLarge? && !e.PipelineMedianSum? && e != StageShares(AdditionOverflow)
            case Ok(a) =>
              && a.selectivity == a.acceptedCount * 10_000 / workload.recordCount <= 10_000
              && Sum(a.shares) == 10_000 && |a.shares| == 5
              && a.stageMedianSum == p.generation.median + a.stagePipelineMedianSum
  {
    hide DecodeMember, AnalyzeDecoded, Sum;
    DecodedCount(baseline, workload);
    if workload.recordCount > 0 && DecodeMember(baseline, workload).Ok? {
      DecodedGuards(workload.recordCount, DecodeMember(baseline, workload).value.acceptedCount, b, p);
    }
  }

  /** Exactly when the ratios are defined. */
  predicate RatiosFit(records: U64, b: Summary, p: ProfileSummary, pipelineSum: nat) {
    && records > 0 && b.pipeline.median > 0 && p.profileTotal.median > 0
    && b.pipeline.median * 1_000 / records <= MAX_SAFE_INTEGER && pipelineSum * 1_000 / records <= MAX_SAFE_INTEGER
    && pipelineSum * 1_000 / b.pipeline.median <= MAX_SAFE_INTEGER
    && b.pipeline.mad * 10_000 / b.pipeline.median <= MAX_U32 && p.profileTotal.mad * 10_000 / p.profileTotal.median <= MAX_U32
  }

  lemma RatiosExact(records: U64, b: Summary, p: ProfileSummary, pipelineSum: U64)
    ensures AnalyzeRatios(records, b, p, pipelineSum).Ok? <==> RatiosFit(records, b, p, pipelineSum)
    ensures AnalyzeRatios(records, b, p, pipelineSum).Ok? ==>
              AnalyzeRatios(records, b, p, pipelineSum).value ==
              RatioSet(b.pipeline.median * 1_000 / records, pipelineSum * 1_000 / records, pipelineSum * 1_000 / b.pipeline.median,
                       b.pipeline.mad * 10_000 / b.pipeline.median, p.profileTotal.mad * 10_000 / p.profileTotal.median)
  {
    hide ScaledRatio;
    ScaledRatioExact(b.pipeline.median, records, 1_000);
    ScaledRatioExact(pipelineSum, records, 1_000);
    ScaledRatioExact(pipelineSum, b.pipeline.median, 1_000);
    ScaledRatioExact(b.pipeline.mad, b.pipeline.median, 10_000);
    ScaledRatioExact(p.profileTotal.mad, p.profileTotal.median, 10_000);
  }

  /** A decoded pair of equal results can be analysed exactly when the stage medians have a
      positive sum that fits a word and the ratios fit. */
  lemma AnalysisDefined(records: U64, accepted: U64, b: Summary, p: ProfileSummary)
    requires accepted <= records && records > 0
    ensures var medians := StageMedians(p);
            AnalyzeDecoded(records, accepted, b, p).Ok? <==>
              0 < Sum(medians) < TWO64 && RatiosFit(records, b, p, Sum(medians[1..]))
  {
    hide ScaledRatio, RatioBasisPoints, Sum, Apportion.Shares, RatiosFit;
    PartOfWhole(accepted, records);
    var medians := StageMedians(p);
    TailSum(medians);
    if Sum(medians) < TWO64 {
      RatiosExact(records, b, p, Sum(medians[1..]));
    }
    hide AnalyzeRatios, StageMedians, DominantIndex;
  }

  /** What every field of a successful analysis is. */
  lemma AnalysisExact(records: U64, accepted: U64, b: Summary, p: ProfileSummary)
    requires accepted <= records && records > 0 && AnalyzeDecoded(records, accepted, b, p).Ok?
    ensures var (a, pipelineSum) := (AnalyzeDecoded(records, accepted, b, p).value,
                                     p.normalize.median + p.score.median + p.filter.median + p.aggregate.median);
            && a.acceptedCount == accepted && a.selectivity == accepted * 10_000 / records
            && a.stagePipelineMedianSum == pipelineSum && a.stageMedianSum == p.generation.median + pipelineSum
            && a.fusedPerRecord == b.pipeline.median * 1_000 / records
            && a.stagePassPerRecord == pipelineSum * 1_000 / records
            && b.pipeline.median > 0 && a.observerRatio == pipelineSum * 1_000 / b.pipeline.median
            && a.fusedMad == b.pipeline.mad * 10_000 / b.pipeline.median
            && p.profileTotal.median > 0 && a.profileMad == p.profileTotal.mad * 10_000 / p.profileTotal.median
    ensures var (a, medians) := (AnalyzeDecoded(records, accepted, b, p).value, StageMedians(p));
            && Apportion.Apportioned(medians) == Ok(a.shares)
            && a.dominantStage == STAGE_NAMES[DominantIndex(medians)]
            && a.dominantPipelineStage == STAGE_NAMES[1 + DominantIndex(medians[1..])]
  {
    hide ScaledRatio, RatioBasisPoints, Sum, Apportion.Shares;
    PartOfWhole(accepted, records);
    var medians := StageMedians(p);
    TailSum(medians);
    RatiosExact(records, b, p, Sum(medians[1..]));
    hide AnalyzeRatios;
  }

  /** The name that goes with the first largest value. */
  ghost predicate FirstLargest(values: seq<U64>, names: seq<string>, name: string)
    requires |names| == |values|
  {
    exists k :: 0 <= k < |values| && name == names[k]
      && (forall j :: 0 <= j < |values| ==> values[j] <= values[k]) && (forall j :: 0 <= j < k ==> values[j] < values[k])
  }

  /** Shares and dominant stages, stage by stage: they are taken from the five medians in
      pipeline order, and a tie goes to the earlier stage. */
  lemma StagesExact(records: U64, accepted: U64, b: Summary, p: ProfileSummary)
    requires accepted <= records && records > 0 && AnalyzeDecoded(records, accepted, b, p).Ok?
    ensures var (a, pipeline) := (AnalyzeDecoded(records, accepted, b, p).value,
                                  [p.normalize.median, p.score.median, p.filter.median, p.aggregate.median]);
            && Apportion.Apportioned([p.generation.median] + pipeline) == Ok(a.shares)
            && FirstLargest([p.generation.median] + pipeline, ["generation", "normalize", "score", "filter", "aggregate"], a.dominantStage)
            && FirstLargest(pipeline, ["normalize", "score", "filter", "aggregate"], a.dominantPipelineStage)
  {
    hide AnalyzeDecoded, Apportion.Apportioned, DominantIndex;
    AnalysisExact(records, accepted, b, p);
    var pipeline := [p.normalize.median, p.score.median, p.filter.median, p.aggregate.median];
    var medians := [p.generation.median] + pipeline;
    assert StageMedians(p) == medians && medians[1..] == pipeline;
    var k, j := DominantIndex(medians), DominantIndex(pipeline);
    assert STAGE_NAMES[k] == ["generation", "normalize", "score", "filter", "aggregate"][k];
    assert STAGE_NAMES[1 + j] == ["normalize", "score", "filter", "aggregate"][j];
  }

  lemma ColumnIs(samples: seq<ProfileSample>, boundary: Boundary, v: seq<U64>)
    requires |v| == |samples| > 0 && forall i :: 0 <= i < |samples| ==> v[i] == Reading(samples[i], boundary)
    ensures SummaryOf(Column(samples, boundary)) == SummaryOf(v)
  {
    hide Reading;
    assert Column(samples, boundary) == v;
  }

  /** Every summary of a stage is that of its own field, sample by sample. */
  lemma StageSummariesExact(samples: seq<ProfileSample>, generation: seq<U64>, normalize: seq<U64>, score: seq<U64>,
                            filter: seq<U64>, aggregate: seq<U64>)
    requires SummarizeProfile(samples).Ok? && |samples| == |generation| == |normalize| == |score| == |filter| == |aggregate| > 0
    requires forall i :: 0 <= i < |samples| ==>
               && generation[i] == samples[i].generation && normalize[i] == samples[i].normalize && score[i] == samples[i].score
               && filter[i] == samples[i].filter && aggregate[i] == samples[i].aggregate
    ensures var s := SummarizeProfile(samples).value;
            && s.generation == SummaryOf(generation) && s.normalize == SummaryOf(normalize) && s.score == SummaryOf(score)
            && s.filter == SummaryOf(filter) && s.aggregate == SummaryOf(aggregate)
  {
    hide SummaryOf, Column;
    ColumnIs(samples, AtGeneration, generation);
    ColumnIs(samples, AtNormalize, normalize);
    ColumnIs(samples, AtScore, score);
    ColumnIs(samples, AtFilter, filter);
    ColumnIs(samples, AtAggregate, aggregate);
  }

  /** The three derived summaries: recorded stage sums, recorded totals, and the pipeline sums
      that are formed from the four pipeline stages. */
  lemma DerivedSummariesExact(samples: seq<ProfileSample>, stageSum: seq<U64>, total: seq<U64>, pipeline: seq<U64>)
    requires SummarizeProfile(samples).Ok? && |samples| == |stageSum| == |total| == |pipeline| > 0
    requires forall i :: 0 <= i < |samples| ==>
               && stageSum[i] == samples[i].stageSum && total[i] == samples[i].profileTotal
               && pipeline[i] == samples[i].normalize + samples[i].score + samples[i].filter + samples[i].aggregate
    ensures var s := SummarizeProfile(samples).value;
            s.stageSum == SummaryOf(stageSum) && s.profileTotal == SummaryOf(total) && s.pipelineStages == SummaryOf(pipeline)
  {
    hide SummaryOf, Column;
    ColumnIs(samples, AtStageSum, stageSum);
    ColumnIs(samples, AtTotal, total);
    ColumnIs(samples, AtPipeline, pipeline);
  }

  /** The fused baseline's summaries likewise. */
  lemma FusedSummariesExact(samples: seq<BenchmarkSample>, generation: seq<U64>, pipeline: seq<U64>, total: seq<U64>)
    requires |samples| == |generation| == |pipeline| == |total| > 0
    requires forall i :: 0 <= i < |samples| ==>
               generation[i] == samples[i].generation && pipeline[i] == samples[i].pipeline && total[i] == samples[i].engineTotal
    ensures Summarize(samples) == Ok(Summary(SummaryOf(generation), SummaryOf(pipeline), SummaryOf(total)))
  {
    hide SummaryOf;
    assert FusedColumn(samples, FusedGeneration) == generation;
    assert FusedColumn(samples, FusedPipeline) == pipeline;
    assert FusedColumn(samples, FusedTotal) == total;
  }
}

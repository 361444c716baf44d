/** Workload contracts: logical records, workload parameters and the validation pass
    that collects every semantic problem before anything is generated or executed. */
module Contracts {
  import opened Words
  import opened Floats

  const WORKLOAD_SCHEMA := "paraflow.workload/v1"
  const BASIS_POINTS_MAX: nat := 10_000
  const MAX_CATEGORIES: nat := 65_536
  const MAX_NAME_CHARS: nat := 120

  type I32 = x: int | -0x8000_0000 <= x < 0x8000_0000
  type U16 = x: nat | x < 0x1_0000

  datatype LogicalRecord = LogicalRecord(id: U64, category: U32, featureA: I32, featureB: I32, flags: U32)

  datatype Distribution = Uniform | Hotspot(category: U32, probabilityBps: U16)

  datatype DatasetSpec = DatasetSpec(
    recordCount: U64, seed: U64, distribution: Distribution, featureMin: I32, featureMax: I32,
    categoryCount: U32, flagProbabilityBps: U16)

  datatype NormalizeSpec = NormalizeSpec(offsetA: F32, scaleA: F32, offsetB: F32, scaleB: F32, clip: F32)
  datatype ScoreSpec = ScoreSpec(weightA: F32, weightB: F32, bias: F32, flagMask: U32, flagBonus: F32)
  datatype FilterSpec = FilterSpec(minScore: F32)
  datatype PipelineSpec = PipelineSpec(normalize: NormalizeSpec, score: ScoreSpec, filter: FilterSpec)

  datatype WorkloadSpec = WorkloadSpec(
    schemaVersion: string, name: string, dataset: DatasetSpec, pipeline: PipelineSpec)

  /** The canonical logical result; `scoreSum` is kept as its binary64 bits. */
  datatype ResultV1 = ResultV1(
    acceptedCount: U64, scoreSum: F64, histogram: seq<U64>, acceptedIdSum: U64, acceptedIdXor: U64)

  datatype ValidationCode =
    | UnsupportedSchema | BlankName | NameTooLong | UnsafeJsonInteger | EmptyCategories
    | TooManyCategories | InvalidFeatureRange | InvalidProbability | InvalidHotspotCategory
    | NonFiniteNumber | InvalidScale | InvalidClip

  datatype Issue = Issue(code: ValidationCode, path: string)

  /** Unicode White_Space, the property behind both `unicode.IsSpace` and `char::is_whitespace`. */
  predicate IsSpace(c: char) {
    var n := c as int;
    0x9 <= n <= 0xD || n == 0x20 || n == 0x85 || n == 0xA0 || n == 0x1680 || 0x2000 <= n <= 0x200A
    || n == 0x2028 || n == 0x2029 || n == 0x202F || n == 0x205F || n == 0x3000
  }

  predicate IsBlank(s: string) {
    forall i :: 0 <= i < |s| ==> IsSpace(s[i])
  }

  // ------------------------------------------------- what validation promises

  predicate ValidDistribution(d: DatasetSpec) {
    match d.distribution
    case Uniform => true
    case Hotspot(category, bps) => bps <= BASIS_POINTS_MAX && category < d.categoryCount
  }

  predicate ValidDataset(d: DatasetSpec) {
    && d.recordCount <= MAX_SAFE_INTEGER
    && d.seed <= MAX_SAFE_INTEGER
    && 0 < d.categoryCount <= MAX_CATEGORIES
    && d.featureMin < d.featureMax
    && d.flagProbabilityBps <= BASIS_POINTS_MAX
    && ValidDistribution(d)
  }

  predicate Positive(b: F32) {
    Val32(b).Fin? && Val32(b).r > 0.0
  }

  predicate ValidPipeline(p: PipelineSpec) {
    && IsFinite32(p.normalize.offsetA) && Positive(p.normalize.scaleA)
    && IsFinite32(p.normalize.offsetB) && Positive(p.normalize.scaleB)
    && Positive(p.normalize.clip)
    && IsFinite32(p.score.weightA) && IsFinite32(p.score.weightB)
    && IsFinite32(p.score.bias) && IsFinite32(p.score.flagBonus)
    && IsFinite32(p.filter.minScore)
  }

  predicate ValidIdentity(w: WorkloadSpec) {
    w.schemaVersion == WORKLOAD_SCHEMA && !IsBlank(w.name) && |w.name| <= MAX_NAME_CHARS
  }

  predicate ValidWorkload(w: WorkloadSpec) {
    ValidIdentity(w) && ValidDataset(w.dataset) && ValidPipeline(w.pipeline)
  }

  // ------------------------------------------------------ the validation pass

  function When(bad: bool, code: ValidationCode, path: string): seq<Issue> {
    if bad then [Issue(code, path)] else []
  }

  function ScaleIssues(value: F32, code: ValidationCode, path: string): seq<Issue> {
    When(!IsFinite32(value), NonFiniteNumber, path)
    + When(IsFinite32(value) && Leq(Val32(value), Fin(0.0)), code, path)
  }

  function IdentityIssues(w: WorkloadSpec): seq<Issue> {
    When(w.schemaVersion != WORKLOAD_SCHEMA, UnsupportedSchema, "schema_version")
    + When(IsBlank(w.name), BlankName, "name")
    + When(!IsBlank(w.name) && |w.name| > MAX_NAME_CHARS, NameTooLong, "name")
  }

  function DistributionIssues(d: DatasetSpec): seq<Issue> {
    if d.distribution.Uniform? then [] else
      When(d.distribution.probabilityBps > BASIS_POINTS_MAX, InvalidProbability,
           "dataset.distribution.probability_bps")
      + When(0 < d.categoryCount <= d.distribution.category, InvalidHotspotCategory,
             "dataset.distribution.category")
  }

  function DomainIssues(d: DatasetSpec): seq<Issue> {
    When(d.categoryCount == 0, EmptyCategories, "dataset.category_count")
    + When(d.categoryCount > MAX_CATEGORIES, TooManyCategories, "dataset.category_count")
    + When(d.featureMin >= d.featureMax, InvalidFeatureRange, "dataset.feature_min")
  }

  function DatasetIssues(d: DatasetSpec): seq<Issue> {
    When(d.recordCount > MAX_SAFE_INTEGER, UnsafeJsonInteger, "dataset.record_count")
    + When(d.seed > MAX_SAFE_INTEGER, UnsafeJsonInteger, "dataset.seed")
    + DomainIssues(d)
    + When(d.flagProbabilityBps > BASIS_POINTS_MAX, InvalidProbability, "dataset.flag_probability_bps")
    + DistributionIssues(d)
  }

  function FiniteIssues(value: F32, path: string): seq<Issue> {
    When(!IsFinite32(value), NonFiniteNumber, path)
  }

  function PipelineIssues(p: PipelineSpec): seq<Issue> {
    FiniteIssues(p.normalize.offsetA, "pipeline.normalize.offset_a")
    + ScaleIssues(p.normalize.scaleA, InvalidScale, "pipeline.normalize.scale_a")
    + FiniteIssues(p.normalize.offsetB, "pipeline.normalize.offset_b")
    + ScaleIssues(p.normalize.scaleB, InvalidScale, "pipeline.normalize.scale_b")
    + ScaleIssues(p.normalize.clip, InvalidClip, "pipeline.normalize.clip")
    + FiniteIssues(p.score.weightA, "pipeline.score.weight_a")
    + FiniteIssues(p.score.weightB, "pipeline.score.weight_b")
    + FiniteIssues(p.score.bias, "pipeline.score.bias")
    + FiniteIssues(p.score.flagBonus, "pipeline.score.flag_bonus")
    + FiniteIssues(p.filter.minScore, "pipeline.filter.min_score")
  }

  /** Every problem of a workload, in the order the pass discovers them. */
  function WorkloadIssues(w: WorkloadSpec): seq<Issue> {
    IdentityIssues(w) + DatasetIssues(w.dataset) + PipelineIssues(w.pipeline)
  }

  const MAX_ISSUES: nat := 20

  /** The pass is silent exactly on the workloads whose invariants all hold. */
  lemma SilentIffValid(w: WorkloadSpec)
    ensures DatasetIssues(w.dataset) == [] <==> ValidDataset(w.dataset)
    ensures WorkloadIssues(w) == [] <==> ValidWorkload(w)
    ensures |WorkloadIssues(w)| <= MAX_ISSUES
  {
    hide DatasetIssues, ValidDataset, PipelineIssues, ValidPipeline;
    DatasetSilentIffValid(w.dataset);
    PipelineSilentIffValid(w.pipeline);
  }

  lemma DatasetSilentIffValid(d: DatasetSpec)
    ensures DatasetIssues(d) == [] <==> ValidDataset(d)
    ensures |DatasetIssues(d)| <= 7
  {
  }

  lemma FiniteSilent(value: F32, path: string)
    ensures FiniteIssues(value, path) == [] <==> IsFinite32(value)
    ensures |FiniteIssues(value, path)| <= 1
  {
  }

  lemma ScaleSilent(value: F32, code: ValidationCode, path: string)
    ensures ScaleIssues(value, code, path) == [] <==> Positive(value)
    ensures |ScaleIssues(value, code, path)| <= 1
  {
  }

  lemma PipelineSilentIffValid(p: PipelineSpec)
    ensures PipelineIssues(p) == [] <==> ValidPipeline(p)
    ensures |PipelineIssues(p)| <= 10
  {
    hide IsFinite32, Positive, ScaleIssues, FiniteIssues;
    var n, s := p.normalize, p.score;
    FiniteSilent(n.offsetA, "pipeline.normalize.offset_a");
    ScaleSilent(n.scaleA, InvalidScale, "pipeline.normalize.scale_a");
    FiniteSilent(n.offsetB, "pipeline.normalize.offset_b");
    ScaleSilent(n.scaleB, InvalidScale, "pipeline.normalize.scale_b");
    ScaleSilent(n.clip, InvalidClip, "pipeline.normalize.clip");
    FiniteSilent(s.weightA, "pipeline.score.weight_a");
    FiniteSilent(s.weightB, "pipeline.score.weight_b");
    FiniteSilent(s.bias, "pipeline.score.bias");
    FiniteSilent(s.flagBonus, "pipeline.score.flag_bonus");
    FiniteSilent(p.filter.minScore, "pipeline.filter.min_score");
  }

  /** The shared vector every check pushes onto. */
  class IssueLog {
    var issues: seq<Issue>

    constructor ()
      ensures issues == []
    {
      issues := [];
    }

    method Push(code: ValidationCode, path: string)
      modifies this
      ensures issues == old(issues) + [Issue(code, path)]
    {
      issues := issues + [Issue(code, path)];
    }

    method CheckJsonInteger(path: string, value: U64)
      modifies this
      ensures issues == old(issues) + When(value > MAX_SAFE_INTEGER, UnsafeJsonInteger, path)
    {
      if value > MAX_SAFE_INTEGER {
        Push(UnsafeJsonInteger, path);
      }
    }

    method CheckProbability(path: string, bps: U16)
      modifies this
      ensures issues == old(issues) + When(bps > BASIS_POINTS_MAX, InvalidProbability, path)
    {
      if bps > BASIS_POINTS_MAX {
        Push(InvalidProbability, path);
      }
    }

    method CheckFinite(path: string, value: F32) returns (finite: bool)
      modifies this
      ensures finite <==> IsFinite32(value)
      ensures issues == old(issues) + FiniteIssues(value, path)
    {
      finite := IsFinite32(value);
      if !finite {
        Push(NonFiniteNumber, path);
      }
    }

    method CheckPositive(path: string, value: F32, code: ValidationCode)
      modifies this
      ensures issues == old(issues) + ScaleIssues(value, code, path)
    {
      var finite := CheckFinite(path, value);
      if finite && Leq(Val32(value), Fin(0.0)) {
        Push(code, path);
      }
    }

    method CheckIdentity(w: WorkloadSpec)
      modifies this
      ensures issues == old(issues) + IdentityIssues(w)
    {
      if w.schemaVersion != WORKLOAD_SCHEMA {
        Push(UnsupportedSchema, "schema_version");
      }
      if IsBlank(w.name) {
        Push(BlankName, "name");
      } else if |w.name| > MAX_NAME_CHARS {
        Push(NameTooLong, "name");
      }
    }

    method CheckDistribution(d: DatasetSpec)
      modifies this
      ensures issues == old(issues) + DistributionIssues(d)
    {
      match d.distribution
      case Uniform =>
      case Hotspot(category, bps) =>
        CheckProbability("dataset.distribution.probability_bps", bps);
        if d.categoryCount > 0 && category >= d.categoryCount {
          Push(InvalidHotspotCategory, "dataset.distribution.category");
        }
    }

    method CheckDomain(d: DatasetSpec)
      modifies this
      ensures issues == old(issues) + DomainIssues(d)
    {
      if d.categoryCount == 0 {
        Push(EmptyCategories, "dataset.category_count");
      } else if d.categoryCount > MAX_CATEGORIES {
        Push(TooManyCategories, "dataset.category_count");
      }
      if d.featureMin >= d.featureMax {
        Push(InvalidFeatureRange, "dataset.feature_min");
      }
    }

    method CheckDataset(d: DatasetSpec)
      modifies this
      ensures issues == old(issues) + DatasetIssues(d)
    {
      hide DomainIssues, DistributionIssues;
      CheckJsonInteger("dataset.record_count", d.recordCount);
      CheckJsonInteger("dataset.seed", d.seed);
      CheckDomain(d);
      CheckProbability("dataset.flag_probability_bps", d.flagProbabilityBps);
      CheckDistribution(d);
    }

    method CheckPipeline(p: PipelineSpec)
      modifies this
      ensures issues == old(issues) + PipelineIssues(p)
    {
      hide Val32, IsFinite32, ScaleIssues, FiniteIssues;
      var finite := CheckFinite("pipeline.normalize.offset_a", p.normalize.offsetA);
      CheckPositive("pipeline.normalize.scale_a", p.normalize.scaleA, InvalidScale);
      finite := CheckFinite("pipeline.normalize.offset_b", p.normalize.offsetB);
      CheckPositive("pipeline.normalize.scale_b", p.normalize.scaleB, InvalidScale);
      CheckPositive("pipeline.normalize.clip", p.normalize.clip, InvalidClip);
      finite := CheckFinite("pipeline.score.weight_a", p.score.weightA);
      finite := CheckFinite("pipeline.score.weight_b", p.score.weightB);
      finite := CheckFinite("pipeline.score.bias", p.score.bias);
      finite := CheckFinite("pipeline.score.flag_bonus", p.score.flagBonus);
      finite := CheckFinite("pipeline.filter.min_score", p.filter.minScore);
    }
  }

  method Validate(w: WorkloadSpec) returns (issues: seq<Issue>)
    ensures issues == WorkloadIssues(w)
    ensures issues == [] <==> ValidWorkload(w)
  {
    hide IdentityIssues, DatasetIssues, PipelineIssues, ValidWorkload;
    var log := new IssueLog();
    log.CheckIdentity(w);
    log.CheckDataset(w.dataset);
    log.CheckPipeline(w.pipeline);
    issues := log.issues;
    SilentIffValid(w);
  }
}

/** The validation pass against a table: which violated invariant yields which code at which
    path, and in which order the issues come. */
module Issues {
  import opened Words
  import opened Floats
  import opened Contracts
  import Server

  /** One row: an invariant of the workload contract, and how its violation is reported. */
  datatype Row = Row(violated: bool, code: ValidationCode, path: string)

  predicate NonPositive(value: F32) {
    IsFinite32(value) && Val32(value).r <= 0.0
  }

  function IdentityRows(w: WorkloadSpec): seq<Row> {
    [Row(w.schemaVersion != "paraflow.workload/v1", UnsupportedSchema, "schema_version"),
     Row(IsBlank(w.name), BlankName, "name"),
     Row(!IsBlank(w.name) && |w.name| > 120, NameTooLong, "name")]
  }

  function SizeRows(d: DatasetSpec): seq<Row> {
    [Row(d.recordCount > 9_007_199_254_740_991, UnsafeJsonInteger, "dataset.record_count"),
     Row(d.seed > 9_007_199_254_740_991, UnsafeJsonInteger, "dataset.seed")]
  }

  function DomainRows(d: DatasetSpec): seq<Row> {
    [Row(d.categoryCount == 0, EmptyCategories, "dataset.category_count"),
     Row(d.categoryCount > 65_536, TooManyCategories, "dataset.category_count"),
     Row(d.featureMin >= d.featureMax, InvalidFeatureRange, "dataset.feature_min")]
  }

  function ProbabilityRows(d: DatasetSpec): seq<Row> {
    [Row(d.flagProbabilityBps > 10_000, InvalidProbability, "dataset.flag_probability_bps"),
     Row(d.distribution.Hotspot? && d.distribution.probabilityBps > 10_000, InvalidProbability, "dataset.distribution.probability_bps"),
     Row(d.distribution.Hotspot? && 0 < d.categoryCount <= d.distribution.category, InvalidHotspotCategory, "dataset.distribution.category")]
  }

  function FeatureARows(n: NormalizeSpec): seq<Row> {
    [Row(!IsFinite32(n.offsetA), NonFiniteNumber, "pipeline.normalize.offset_a"),
     Row(!IsFinite32(n.scaleA), NonFiniteNumber, "pipeline.normalize.scale_a"),
     Row(NonPositive(n.scaleA), InvalidScale, "pipeline.normalize.scale_a")]
  }

  function FeatureBRows(n: NormalizeSpec): seq<Row> {
    [Row(!IsFinite32(n.offsetB), NonFiniteNumber, "pipeline.normalize.offset_b"),
     Row(!IsFinite32(n.scaleB), NonFiniteNumber, "pipeline.normalize.scale_b"),
     Row(NonPositive(n.scaleB), InvalidScale, "pipeline.normalize.scale_b")]
  }

  function ClipRows(n: NormalizeSpec): seq<Row> {
    [Row(!IsFinite32(n.clip), NonFiniteNumber, "pipeline.normalize.clip"),
     Row(NonPositive(n.clip), InvalidClip, "pipeline.normalize.clip")]
  }

  function WeightRows(s: ScoreSpec): seq<Row> {
    [Row(!IsFinite32(s.weightA), NonFiniteNumber, "pipeline.score.weight_a"),
     Row(!IsFinite32(s.weightB), NonFiniteNumber, "pipeline.score.weight_b")]
  }

  function ScoreRows(p: PipelineSpec): seq<Row> {
    [Row(!IsFinite32(p.score.bias), NonFiniteNumber, "pipeline.score.bias"),
     Row(!IsFinite32(p.score.flagBonus), NonFiniteNumber, "pipeline.score.flag_bonus"),
     Row(!IsFinite32(p.filter.minScore), NonFiniteNumber, "pipeline.filter.min_score")]
  }

  /** The whole table, in the order of the contract's fields. */
  function Table(w: WorkloadSpec): seq<Row> {
    IdentityRows(w) + SizeRows(w.dataset) + DomainRows(w.dataset) + ProbabilityRows(w.dataset)
    + FeatureARows(w.pipeline.normalize) + FeatureBRows(w.pipeline.normalize) + ClipRows(w.pipeline.normalize)
    + WeightRows(w.pipeline.score) + ScoreRows(w.pipeline)
  }

  /** The rows that are violated, as issues. */
  function Reported(rows: seq<Row>): seq<Issue> {
    if rows == [] then [] else
      var last := rows[|rows| - 1];
      Reported(rows[..|rows| - 1]) + if last.violated then [Issue(last.code, last.path)] else []
  }

  lemma {:induction false} ReportedJoin(a: seq<Row>, b: seq<Row>)
    ensures Reported(a + b) == Reported(a) + Reported(b)
  {
    if b == [] {
      assert a + b == a;
    } else {
      var n := |b| - 1;
      ReportedJoin(a, b[..n]);
      assert (a + b)[..|a + b| - 1] == a + b[..n];
    }
  }

  function One(r: Row): seq<Issue> {
    When(r.violated, r.code, r.path)
  }

  lemma ReportedOne(r: Row)
    ensures Reported([r]) == One(r)
  {
    assert Reported([]) == [] && [r][..0] == [];
  }

  lemma ReportedTwo(r: Row, s: Row)
    ensures Reported([r, s]) == One(r) + One(s)
  {
    hide Reported, One;
    ReportedOne(r);
    ReportedOne(s);
    ReportedJoin([r], [s]);
    assert [r] + [s] == [r, s];
  }

  lemma ReportedThree(r: Row, s: Row, t: Row)
    ensures Reported([r, s, t]) == One(r) + One(s) + One(t)
  {
    hide Reported, One;
    ReportedTwo(r, s);
    ReportedOne(t);
    ReportedJoin([r, s], [t]);
    assert [r, s] + [t] == [r, s, t];
  }

  lemma IdentityTable(w: WorkloadSpec)
    ensures Reported(IdentityRows(w)) == IdentityIssues(w)
  {
    hide Reported, When, IsBlank;
    var t := IdentityRows(w);
    ReportedThree(t[0], t[1], t[2]);
  }

  lemma DomainTable(d: DatasetSpec)
    ensures Reported(DomainRows(d)) == DomainIssues(d)
  {
    hide Reported, When;
    var t := DomainRows(d);
    ReportedThree(t[0], t[1], t[2]);
  }

  lemma ProbabilityTable(d: DatasetSpec)
    ensures Reported(ProbabilityRows(d))
         == When(d.flagProbabilityBps > BASIS_POINTS_MAX, InvalidProbability, "dataset.flag_probability_bps") + DistributionIssues(d)
  {
    hide Reported;
    var t := ProbabilityRows(d);
    ReportedThree(t[0], t[1], t[2]);
  }

  lemma DatasetTable(d: DatasetSpec)
    ensures Reported(SizeRows(d) + DomainRows(d) + ProbabilityRows(d)) == DatasetIssues(d)
  {
    hide Reported, DomainRows, ProbabilityRows, DomainIssues, DistributionIssues, When;
    var t := SizeRows(d);
    ReportedTwo(t[0], t[1]);
    DomainTable(d);
    ProbabilityTable(d);
    ReportedJoin(SizeRows(d), DomainRows(d));
    ReportedJoin(SizeRows(d) + DomainRows(d), ProbabilityRows(d));
  }

  lemma ScaleTable(value: F32, code: ValidationCode, path: string)
    ensures One(Row(!IsFinite32(value), NonFiniteNumber, path)) + One(Row(NonPositive(value), code, path)) == ScaleIssues(value, code, path)
  {
    hide Val32;
  }

  lemma FeatureTables(n: NormalizeSpec)
    ensures Reported(FeatureARows(n))
         == FiniteIssues(n.offsetA, "pipeline.normalize.offset_a") + ScaleIssues(n.scaleA, InvalidScale, "pipeline.normalize.scale_a")
    ensures Reported(FeatureBRows(n))
         == FiniteIssues(n.offsetB, "pipeline.normalize.offset_b") + ScaleIssues(n.scaleB, InvalidScale, "pipeline.normalize.scale_b")
    ensures Reported(ClipRows(n)) == ScaleIssues(n.clip, InvalidClip, "pipeline.normalize.clip")
  {
    hide Reported, When, ScaleIssues, NonPositive, IsFinite32;
    var a, b, c := FeatureARows(n), FeatureBRows(n), ClipRows(n);
    ReportedThree(a[0], a[1], a[2]);
    ReportedThree(b[0], b[1], b[2]);
    ReportedTwo(c[0], c[1]);
    ScaleTable(n.scaleA, InvalidScale, "pipeline.normalize.scale_a");
    ScaleTable(n.scaleB, InvalidScale, "pipeline.normalize.scale_b");
    ScaleTable(n.clip, InvalidClip, "pipeline.normalize.clip");
  }

  lemma ScoreTables(p: PipelineSpec)
    ensures Reported(WeightRows(p.score))
         == FiniteIssues(p.score.weightA, "pipeline.score.weight_a") + FiniteIssues(p.score.weightB, "pipeline.score.weight_b")
    ensures Reported(ScoreRows(p))
         == FiniteIssues(p.score.bias, "pipeline.score.bias") + FiniteIssues(p.score.flagBonus, "pipeline.score.flag_bonus")
            + FiniteIssues(p.filter.minScore, "pipeline.filter.min_score")
  {
    hide Reported, When, IsFinite32;
    var a, b := WeightRows(p.score), ScoreRows(p);
    ReportedTwo(a[0], a[1]);
    ReportedThree(b[0], b[1], b[2]);
  }

  lemma PipelineTable(p: PipelineSpec)
    ensures Reported(FeatureARows(p.normalize) + FeatureBRows(p.normalize) + ClipRows(p.normalize) + WeightRows(p.score) + ScoreRows(p))
         == PipelineIssues(p)
  {
    hide Reported, FeatureARows, FeatureBRows, ClipRows, WeightRows, ScoreRows, FiniteIssues, ScaleIssues;
    var a, b, c, d, e := FeatureARows(p.normalize), FeatureBRows(p.normalize), ClipRows(p.normalize), WeightRows(p.score), ScoreRows(p);
    FeatureTables(p.normalize);
    ScoreTables(p);
    ReportedJoin(a, b);
    ReportedJoin(a + b, c);
    ReportedJoin(a + b + c, d);
    ReportedJoin(a + b + c + d, e);
  }

  /** The pass reports exactly the violated rows of the table, each under its own code and
      path, in table order. */
  lemma IssuesExact(w: WorkloadSpec)
    ensures WorkloadIssues(w) == Reported(Table(w))
  {
    hide Reported, IdentityRows, SizeRows, DomainRows, ProbabilityRows, FeatureARows, FeatureBRows, ClipRows, WeightRows, ScoreRows,
         IdentityIssues, DatasetIssues, PipelineIssues;
    var dataset := SizeRows(w.dataset) + DomainRows(w.dataset) + ProbabilityRows(w.dataset);
    var n, s := w.pipeline.normalize, w.pipeline.score;
    var pipeline := FeatureARows(n) + FeatureBRows(n) + ClipRows(n) + WeightRows(s) + ScoreRows(w.pipeline);
    IdentityTable(w);
    DatasetTable(w.dataset);
    PipelineTable(w.pipeline);
    ReportedJoin(IdentityRows(w), dataset);
    ReportedJoin(IdentityRows(w) + dataset, pipeline);
    assert Table(w) == IdentityRows(w) + dataset + pipeline;
  }

  // ------------------------------------------------------------------ code names

  /** No two codes share a wire name. */
  lemma CodeNamesDistinct(a: ValidationCode, b: ValidationCode)
    ensures Server.CodeName(a) == Server.CodeName(b) <==> a == b
  {
    NameKey(a);
    NameKey(b);
  }

  /** Length and two letters tell the names apart. */
  function Key(name: string): (nat, char, char)
    requires |name| > 8
  {
    (|name|, name[0], name[8])
  }

  function CodeKey(a: ValidationCode): (nat, char, char) {
    match a
    case UnsupportedSchema => (18, 'u', 't')
    case BlankName => (10, 'b', 'm')
    case NameTooLong => (13, 'n', '_')
    case UnsafeJsonInteger => (19, 'u', 's')
    case EmptyCategories => (16, 'e', 't')
    case TooManyCategories => (19, 't', '_')
    case InvalidFeatureRange => (21, 'i', 'f')
    case InvalidProbability => (19, 'i', 'p')
    case InvalidHotspotCategory => (24, 'i', 'h')
    case NonFiniteNumber => (17, 'n', 't')
    case InvalidScale => (13, 'i', 's')
    case InvalidClip => (12, 'i', 'c')
  }

  lemma NameKey(a: ValidationCode)
    ensures |Server.CodeName(a)| > 8 && Key(Server.CodeName(a)) == CodeKey(a)
  {
  }
}

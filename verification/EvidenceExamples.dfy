/** Concrete captures: one that replays, and two that succeed and yet fail their replay,
    each through one of the conditions a capture never checks. */
module EvidenceExamples {
  import opened Words
  import opened Floats
  import opened Contracts
  import opened Framing
  import opened Protocol
  import opened Ratios
  import S = Statistics
  import opened Timing
  import opened Analysis
  import opened EngineResults
  import opened Evidence
  import Aggregates
  import Agreement
  import Server

  const SUITE_PATH := "s.json"
  const WORKLOAD_PATH := "w.json"
  const SUITE_BYTES: seq<Byte> := [1]
  const WORKLOAD_BYTES: seq<Byte> := [2]
  const STARTED: Instant := 1
  const COMPLETED: Instant := 2
  const ENGINE_VERSION := "1"
  const SCENARIO := Scenario("a", WORKLOAD_PATH, BACKEND_SCALAR, Sampling(0, 1))
  const SUITE := Suite(SUITE_SCHEMA, "s", [SCENARIO])
  const PROJECTION := Projection(Evidence.WORKLOAD_SCHEMA, "w", 1, 1, "uniform")
  const BUILD := EngineBuild(ENGINE_VERSION, "release", "t", "r", "c", "clean")
  const RESULT := ResultV1(0, 0, [0], 0, 0)
  const FUSED: seq<BenchmarkSample> := [BenchmarkSample(0, 1, 1, 2)]
  const STAGED: seq<ProfileSample> := [ProfileSample(0, 1, 1, 1, 1, 1, 5, 5)]

  function Zeros(): Digest {
    seq(64, _ => '0')
  }

  function SampleRepository(): Repository {
    Repository(path => if path == SUITE_PATH then Some(SUITE_BYTES) else if path == WORKLOAD_PATH then Some(WORKLOAD_BYTES) else None,
               _ => true, _ => Zeros(),
               bytes => if bytes == SUITE_BYTES then Some(SUITE) else None,
               bytes => if bytes == WORKLOAD_BYTES then Some(PROJECTION) else None)
  }

  function Wire(): Member<WireResult> {
    Present(Server.WireOf(RESULT))
  }

  function BaselineRun(): RunResult<BenchmarkSample> {
    RunResult(BENCHMARK_SCHEMA, BaselineId(0), "a", "w", BACKEND_SCALAR, Sampling(0, 1),
              RunTiming(CLOCK, TIME_UNIT, false, None, None, 2), PASSED, BUILD, FUSED, Wire())
  }

  function ProfileRun(): RunResult<ProfileSample> {
    RunResult(PROFILE_SCHEMA, ProfileId(0), "a", "w", BACKEND_SCALAR, Sampling(0, 1),
              RunTiming(CLOCK, TIME_UNIT, false, Some(TOPOLOGY), Some(OBSERVER), 5), PASSED, BUILD, STAGED, Wire())
  }

  /** One scenario, one sample each; the controller's version and the recorded suite path vary. */
  function SampleCapture(version: string, suiteIdentity: string): Capture {
    var controller := Controller(version, "c", "clean");
    Capture(SampleRepository(), SUITE_PATH, Some(SUITE_BYTES), suiteIdentity, "e", "e", controller,
            true, STARTED, STARTED, COMPLETED,
            Some(Zeros()), Some(Zeros()), _ => false,
            _ => Some((BaselineRun(), 2)), _ => Some((ProfileRun(), 5)))
  }

  lemma NotBlank(s: string)
    requires s != "" && ('a' <= s[0] <= 'z' || '0' <= s[0] <= '9')
    ensures !IsBlank(s)
  {
    assert !IsSpace(s[0]);
  }

  lemma CleanPaths()
    ensures RepositoryJsonPath(SUITE_PATH) && RepositoryJsonPath(WORKLOAD_PATH)
  {
    CleanName('s');
    CleanName('w');
  }

  lemma CleanName(c: char)
    requires c != '/' && c != '.' && c != '\\'
    ensures RepositoryJsonPath([c] + ".json")
  {
    var path := [c] + ".json";
    assert path[|path| - 5..] == ".json";
    assert path[1..] == ".json" && "" + [c] == [c];
    CleanExtension([c]);
  }

  lemma CleanExtension(component: string)
    requires component != "" && component[0] != '.'
    ensures CleanComponents(".json", component)
  {
    var rest := ".json";
    assert rest[0] == '.' && rest[1..] == "json";
    CleanPlain("json", component + [rest[0]]);
  }

  lemma {:induction false} CleanPlain(rest: string, component: string)
    requires '/' !in rest && |component| >= 2 && component[0] != '.'
    ensures CleanComponents(rest, component)
  {
    if rest != "" {
      CleanPlain(rest[1..], component + [rest[0]]);
    }
  }

  lemma ValidSample()
    ensures ValidSuite(SUITE)
  {
    hide RepositoryJsonPath;
    CleanPaths();
    NotBlank("a");
    NotBlank("s");
  }

  lemma ReleaseSample()
    ensures ReleaseBuild(BUILD)
  {
    NotBlank(ENGINE_VERSION);
    NotBlank("t");
    NotBlank("r");
    NotBlank("c");
  }

  lemma ResultDecodes()
    ensures DecodeResult(Server.WireOf(RESULT), PROJECTION) == Ok(RESULT)
  {
    NotBlank("w");
    assert Aggregates.Total([0]) == 0;
    Agreement.PrintedResultDecodes(RESULT, PROJECTION);
  }

  lemma RunsAccepted()
    ensures AcceptsBenchmark(BaselineRun(), Evidence.Request(SCENARIO, BaselineId(0)), PROJECTION)
    ensures AcceptsProfile(ProfileRun(), Evidence.Request(SCENARIO, ProfileId(0)), PROJECTION)
  {
    hide ReleaseBuild, DecodeResult, BaselineId, ProfileId, Server.WireOf;
    ReleaseSample();
    ResultDecodes();
    assert EngineTotals(FUSED) == [2] && ProfileTotals(STAGED) == [5];
    assert Sum([2]) == 2 && Sum([5]) == 5;
  }

  lemma SingleSummary(x: U64)
    ensures S.SummaryOf([x]) == S.Statistics(1, x, x, 0, x)
  {
    S.SummaryBounds([x], 0);
    S.DeviationInRange([x]);
  }

  lemma FusedSummary()
    ensures Summarize(FUSED).Ok?
    ensures Summarize(FUSED).value.pipeline == S.Statistics(1, 1, 1, 0, 1)
  {
    hide S.SummaryOf;
    SingleSummary(1);
    assert FusedColumn(FUSED, FusedPipeline) == [1];
  }

  lemma StagedSummary()
    ensures SummarizeProfile(STAGED).Ok?
    ensures var p := SummarizeProfile(STAGED).value;
            StageMedians(p) == [1, 1, 1, 1, 1] && p.profileTotal == S.Statistics(1, 5, 5, 0, 5)
  {
    hide S.SummaryOf;
    SingleSummary(1);
    SingleSummary(5);
    assert Column(STAGED, AtGeneration) == [1] && Column(STAGED, AtNormalize) == [1] && Column(STAGED, AtScore) == [1];
    assert Column(STAGED, AtFilter) == [1] && Column(STAGED, AtAggregate) == [1] && Column(STAGED, AtTotal) == [5];
  }

  lemma SampleAnalyses(b: Summary, p: ProfileSummary)
    requires b.pipeline == S.Statistics(1, 1, 1, 0, 1)
    requires StageMedians(p) == [1, 1, 1, 1, 1] && p.profileTotal == S.Statistics(1, 5, 5, 0, 5)
    ensures AnalyzeScenario(PROJECTION, Wire(), b, Wire(), p).Ok?
  {
    hide AnalyzeDecoded, DecodeResult, Server.WireOf;
    ResultDecodes();
    TailSum([1, 1, 1, 1, 1]);
    AnalysisDefined(1, 0, b, p);
  }

  lemma SampleInterprets()
    ensures Interpret(PROJECTION, BaselineRun(), ProfileRun()).Ok?
  {
    hide Summarize, SummarizeProfile, AnalyzeScenario, Wire, BaselineId, ProfileId, StageMedians;
    FusedSummary();
    StagedSummary();
    SampleAnalyses(Summarize(FUSED).value, SummarizeProfile(STAGED).value);
  }

  lemma SampleExperiment(version: string, suiteIdentity: string)
    ensures ProduceExperiment(SampleCapture(version, suiteIdentity), SCENARIO, 0).Ok?
  {
    hide Interpret, BaselineRun, ProfileRun, AcceptsBenchmark, AcceptsProfile, BaselineId, ProfileId, Zeros;
    RunsAccepted();
    SampleInterprets();
    SampleRuns();
  }

  lemma SampleRuns()
    ensures BaselineRun().build == BUILD && ProfileRun().build == BUILD
    ensures BaselineRun().timing.experimentTotal == 2 && ProfileRun().timing.experimentTotal == 5
  {
    hide BaselineId, ProfileId, Wire;
  }

  /** The capture succeeds whatever the controller's version and the recorded suite path. */
  lemma SampleProduced(version: string, suiteIdentity: string)
    requires !IsBlank(version)
    ensures DecodeSuite(SampleRepository(), Some(SUITE_BYTES)) == Ok((SUITE_BYTES, SUITE))
    ensures Produce(SampleCapture(version, suiteIdentity)).Ok?
  {
    hide ProduceExperiment, IsBlank, ValidSuite, BaselineRun, ProfileRun, Zeros;
    ValidSample();
    NotBlank("e");
    NotBlank(SUITE_PATH);
    NotBlank("c");
    SampleExperiment(version, suiteIdentity);
    assert ProduceAll(SampleCapture(version, suiteIdentity), SUITE, 0).Ok?;
    assert SUITE.scenarios[0] == SCENARIO;
    assert ProduceAll(SampleCapture(version, suiteIdentity), SUITE, 1).Ok?;
  }

  lemma SampleUnchanged(version: string, suiteIdentity: string)
    requires suiteIdentity == SUITE_PATH || !RepositoryJsonPath(suiteIdentity)
    ensures Unchanged(SampleCapture(version, suiteIdentity))
  {
    hide RepositoryJsonPath, Zeros, BaselineRun, ProfileRun;
  }

  lemma AbsoluteRefused(rest: string)
    ensures !RepositoryJsonPath("/" + rest)
  {
    assert ("/" + rest)[0] == '/';
  }

  /** Replaying is not implied by capturing: of these three captures, all of which succeed,
      the first replays, the second was controlled by another version than its engine's, and
      the third read its suite outside the repository. */
  lemma CaptureReplays()
    ensures var c := SampleCapture(ENGINE_VERSION, SUITE_PATH); Produce(c).Ok? && Verified(c.repository, Produce(c).value)
  {
    hide Produce, Verified, IsBlank, BaselineRun, ProfileRun, Zeros, DecodeSuite, ProduceAll, RepositoryJsonPath, Unchanged;
    var c := SampleCapture(ENGINE_VERSION, SUITE_PATH);
    NotBlank(ENGINE_VERSION);
    NotBlank("e");
    SampleProduced(ENGINE_VERSION, SUITE_PATH);
    SampleUnchanged(ENGINE_VERSION, SUITE_PATH);
    CleanPaths();
    SampleRuns();
    ReplayExact(c);
  }

  lemma VersionsDiffer(version: string)
    requires !IsBlank(version) && version != ENGINE_VERSION
    ensures var c := SampleCapture(version, SUITE_PATH); Produce(c).Ok? && !Verified(c.repository, Produce(c).value)
  {
    hide Produce, Verified, IsBlank, BaselineRun, ProfileRun, Zeros, DecodeSuite, ProduceAll, RepositoryJsonPath, Unchanged, CaptureConditions;
    var c := SampleCapture(version, SUITE_PATH);
    SampleProduced(version, SUITE_PATH);
    SampleUnchanged(version, SUITE_PATH);
    SampleRuns();
    ReplayExact(c);
    assert c.repository.inside(SUITE.scenarios[0].workload);
  }

  lemma SuiteElsewhere(version: string, rest: string)
    requires !IsBlank(version)
    ensures var c := SampleCapture(version, "/" + rest); Produce(c).Ok? && !Verified(c.repository, Produce(c).value)
  {
    hide Produce, Verified, IsBlank, BaselineRun, ProfileRun, Zeros, DecodeSuite, ProduceAll, RepositoryJsonPath, Unchanged, BuildConditions;
    var c := SampleCapture(version, "/" + rest);
    SampleProduced(version, "/" + rest);
    AbsoluteRefused(rest);
    SampleUnchanged(version, "/" + rest);
    ReplayExact(c);
  }
}

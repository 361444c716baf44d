/** What a verified report establishes, flattened across every check of the replay, and when
    exactly a capture succeeds, without its early exits. */
module EvidenceFacts {
  import opened Words
  import opened Framing
  import opened Contracts
  import opened Protocol
  import opened Timing
  import opened Analysis
  import opened EngineResults
  import opened Evidence
  import Hex
  import Ratios

  // ----------------------------------------------------------------- the report

  predicate LowerHex(digest: string) {
    |digest| == 64 && forall i :: 0 <= i < |digest| ==> '0' <= digest[i] <= '9' || 'a' <= digest[i] <= 'f'
  }

  predicate Complete(c: Controller) {
    !IsBlank(c.version) && !IsBlank(c.fullCommit) && c.sourceState in ["clean", "dirty", "unknown"]
  }

  /** A verified report is complete, ordered in time, taken on a host that was ready and ran
      this very controller, and names a suite file of the repository by its content. */
  lemma VerifiedReport(repository: Repository, r: ProfileReport)
    requires Verified(repository, r)
    ensures r.schemaVersion == "paraflow.scalar-profile-report/v1" && r.environment.schemaVersion == "paraflow.environment/v3"
    ensures r.startedAt != 0 && r.completedAt != 0 && r.startedAt <= r.completedAt && r.environment.capturedAt != 0
    ensures Complete(r.controller) && r.environment.source == r.controller && r.environment.ready && r.environment.identified
    ensures r.environment.milestone in ["day-05", "day-06", "day-07"]
    ensures LowerHex(r.suite.sha256) && LowerHex(r.engineArtifact.sha256) && !IsBlank(r.engineArtifact.path)
    ensures RepositoryJsonPath(r.suite.path) && repository.inside(r.suite.path) && repository.content(r.suite.path).Some?
    ensures repository.sha256(repository.content(r.suite.path).value) == r.suite.sha256
  {
    hide ExperimentVerified, DistinctRunIds, OneBuild, IsBlank, RepositoryJsonPath, ValidSuite;
  }

  // ---------------------------------------------------------------------- paths

  /** The components of a path between its slashes. */
  function Components(path: string): (parts: seq<string>)
    ensures |parts| > 0
  {
    if path == "" then [""]
    else
      var parts := Components(path[..|path| - 1]);
      var c := path[|path| - 1];
      if c == '/' then parts + [""] else parts[..|parts| - 1] + [parts[|parts| - 1] + [c]]
  }

  predicate Plain(component: string) {
    component !in ["", ".", ".."]
  }

  predicate AllPlain(parts: seq<string>) {
    forall i :: 0 <= i < |parts| ==> Plain(parts[i])
  }

  lemma {:induction false} ComponentsFrom(done: string, rest: string, parts: seq<string>, component: string)
    requires Components(done) == parts + [component]
    ensures AllPlain(Components(done + rest)) <==> AllPlain(parts) && CleanComponents(rest, component)
    decreases |rest|
  {
    hide Plain;
    if rest == "" {
      assert done + rest == done;
      PlainExact(component);
      assert (parts + [component])[|parts|] == component;
      assert forall i :: 0 <= i < |parts| ==> parts[i] == (parts + [component])[i];
    } else {
      var next := done + [rest[0]];
      assert next[..|done|] == done && done + rest == next + rest[1..];
      if rest[0] == '/' {
        assert Components(next) == (parts + [component]) + [""];
        ComponentsFrom(next, rest[1..], parts + [component], "");
        PlainExact(component);
        assert (parts + [component])[|parts|] == component;
        assert forall i :: 0 <= i < |parts| ==> parts[i] == (parts + [component])[i];
      } else {
        assert (parts + [component])[..|parts|] == parts;
        assert Components(next) == parts + [component + [rest[0]]];
        ComponentsFrom(next, rest[1..], parts, component + [rest[0]]);
      }
    }
  }

  lemma PlainExact(component: string)
    ensures Plain(component) <==> component != "" && component != "." && component != ".."
  {
  }

  /** A repository path is a JSON file name whose components never leave the repository. */
  lemma PathExact(path: string)
    ensures RepositoryJsonPath(path) <==>
              && 5 <= |path| <= 512 && path[|path| - 5..] == ".json" && '\\' !in path
              && forall i :: 0 <= i < |Components(path)| ==> Components(path)[i] !in ["", ".", ".."]
  {
    assert "" + path == path && Components("") == [] + [""];
    ComponentsFrom("", path, [], "");
  }

  predicate ScenarioFacts(s: Scenario) {
    && !IsBlank(s.name) && 1 <= |s.name| <= 120 && s.backend == "scalar" && RepositoryJsonPath(s.workload)
    && s.sampling.warmup <= 1_000 && 1 <= s.sampling.samples <= 10_000
  }

  lemma ScenarioAllowed(s: Scenario)
    ensures ValidScenario(s) <==> ScenarioFacts(s)
  {
    hide RepositoryJsonPath, IsBlank;
  }

  // ------------------------------------------------------------------ the suite

  /** The suite the report was taken of. */
  function SuiteOf(repository: Repository, r: ProfileReport): Suite
    requires repository.content(r.suite.path).Some? && repository.decodeSuite(repository.content(r.suite.path).value).Some?
  {
    repository.decodeSuite(repository.content(r.suite.path).value).value
  }

  /** A verified report holds one experiment for each scenario of its suite, in order, all with
      one engine build that is the controller's own. */
  lemma VerifiedSuiteFacts(repository: Repository, r: ProfileReport)
    requires Verified(repository, r)
    ensures repository.content(r.suite.path).Some? && repository.decodeSuite(repository.content(r.suite.path).value).Some?
    ensures var suite := SuiteOf(repository, r);
            && suite.schemaVersion == "paraflow.benchmark-suite/v1" == r.suite.schemaVersion && suite.name == r.suite.name
            && 1 <= |r.experiments| == |suite.scenarios| <= 64
            && (forall i :: 0 <= i < |r.experiments| ==> r.experiments[i].scenarioName == suite.scenarios[i].name)
            && (forall i, j :: 0 <= i < j < |r.experiments| ==> r.experiments[i].scenarioName != r.experiments[j].scenarioName)
            && (forall i :: 0 <= i < |r.experiments| ==> ScenarioFacts(suite.scenarios[i]))
  {
    hide CommonEvidence, DistinctRunIds, OneBuild, ScenarioFacts, ValidLabel;
    forall i | 0 <= i < |r.experiments|
      ensures r.experiments[i].scenarioName == VerifiedSuite(repository, r.suite).value.scenarios[i].name
      ensures ScenarioFacts(VerifiedSuite(repository, r.suite).value.scenarios[i])
    {
      ScenarioAllowed(VerifiedSuite(repository, r.suite).value.scenarios[i]);
      ScenarioName(repository, r.controller, VerifiedSuite(repository, r.suite).value.scenarios[i], r.experiments[i]);
    }
    hide ExperimentVerified;
  }

  lemma ScenarioName(repository: Repository, controller: Controller, scenario: Scenario, x: ProfileExperiment)
    requires ExperimentVerified(repository, controller, scenario, x)
    ensures x.scenarioName == scenario.name
  {
    hide VerifiedWorkload, Interpret, AcceptsBenchmark, AcceptsProfile, EngineIdentified, Identity;
  }

  // -------------------------------------------------------------- one experiment

  /** The header of one run, against the request the controller must have made. */
  predicate HeaderFacts<S>(run: RunResult<S>, scenario: Scenario, name: string, orchestration: U64) {
    && run.scenarioName == scenario.name && run.backend == "scalar" && run.workloadName == name
    && run.sampling == scenario.sampling && |run.samples| == scenario.sampling.samples
    && run.timing.clock == "std::time::Instant" && run.timing.timeUnit == "nanoseconds" && !run.timing.processStartInSamples
    && run.correctness == Correctness("passed", "rust-scalar-v1", "exact")
    && run.build.profile == "release" && run.timing.experimentTotal <= orchestration
  }

  predicate BuildFacts(build: EngineBuild, controller: Controller) {
    && build.version == controller.version && build.sourceCommit == controller.fullCommit && build.sourceState == controller.sourceState
    && build.profile == "release" && !IsBlank(build.version) && !IsBlank(build.target) && !IsBlank(build.rustc) && !IsBlank(build.sourceCommit)
  }

  /** Whatever a verified experiment says follows from repository content and from the two raw
      runs: the workload identity is that of the file's bytes, both runs answer this scenario
      with one release build of the controller's own source, and summaries and analysis are
      the ones recomputed from the raw samples. */
  lemma VerifiedExperiment(repository: Repository, controller: Controller, scenario: Scenario, x: ProfileExperiment)
    requires ExperimentVerified(repository, controller, scenario, x) && scenario.backend == "scalar"
    ensures repository.inside(scenario.workload) && repository.content(scenario.workload).Some?
    ensures repository.project(repository.content(scenario.workload).value).Some?
    ensures var (bytes, w, b, s) := (repository.content(scenario.workload).value, x.workload, x.baseline.engineResult, x.stages.engineResult);
            var p := repository.project(bytes).value;
            && w == WorkloadIdentity(scenario.workload, repository.sha256(bytes), "paraflow.workload/v1", p.name, p.recordCount,
                                     p.categoryCount, p.distribution)
            && HeaderFacts(b, scenario, p.name, x.baseline.orchestrationTotal) && HeaderFacts(s, scenario, p.name, x.stages.orchestrationTotal)
            && b.schemaVersion == "paraflow.benchmark-engine-result/v1" && s.schemaVersion == "paraflow.profile-engine-result/v1"
            && b.timing.topology.None? && b.timing.observer.None?
            && s.timing.topology == Some("materialized-stage-passes-v1") && s.timing.observer == Some("boundary-timers-v1")
            && b.build == s.build && BuildFacts(b.build, controller)
            && Summarize(b.samples) == Ok(x.baseline.summary) && SummarizeProfile(s.samples) == Ok(x.stages.summary)
            && AnalyzeScenario(p, b.result, x.baseline.summary, s.result, x.stages.summary) == Ok(x.analysis)
  {
    hide Summarize, SummarizeProfile, AnalyzeScenario, BenchmarkConserved, ProfileConserved, IsBlank, ResultFits;
  }

  /** The runs behind a verified experiment agree on one result that fits the workload. */
  lemma VerifiedResults(repository: Repository, controller: Controller, scenario: Scenario, x: ProfileExperiment)
    requires ExperimentVerified(repository, controller, scenario, x) && scenario.backend == "scalar"
    ensures repository.content(scenario.workload).Some? && repository.project(repository.content(scenario.workload).value).Some?
    ensures x.baseline.engineResult.result.Present? && x.stages.engineResult.result.Present?
    ensures var p := repository.project(repository.content(scenario.workload).value).value;
            var (fused, staged) := (DecodeResult(x.baseline.engineResult.result.value, p), DecodeResult(x.stages.engineResult.result.value, p));
            && fused.Ok? && staged == fused && p.recordCount > 0
            && x.analysis.acceptedCount == fused.value.acceptedCount <= p.recordCount
  {
    hide DecodeResult, AnalyzeDecoded, HeaderFacts, BuildFacts, Summarize, SummarizeProfile;
    VerifiedExperiment(repository, controller, scenario, x);
    ResultsPresent(repository, controller, scenario, x);
    var p := repository.project(repository.content(scenario.workload).value).value;
    var (b, s) := (x.baseline.engineResult, x.stages.engineResult);
    DecodedCount(b.result, p);
    AnalysisCount(p, b.result, x.baseline.summary, s.result, x.stages.summary);
    hide ExperimentVerified;
  }

  lemma ResultsPresent(repository: Repository, controller: Controller, scenario: Scenario, x: ProfileExperiment)
    requires ExperimentVerified(repository, controller, scenario, x)
    ensures x.baseline.engineResult.result.Present? && x.stages.engineResult.result.Present?
  {
    hide DecodeResult, Interpret, Identity, EngineIdentified, BenchmarkConserved, ProfileConserved, HeaderFits;
  }

  lemma AnalysisCount(p: Projection, baseline: Member<WireResult>, b: Summary, profile: Member<WireResult>, s: ProfileSummary)
    requires AnalyzeScenario(p, baseline, b, profile, s).Ok?
    ensures p.recordCount > 0 && DecodeMember(baseline, p).Ok? && DecodeMember(profile, p) == DecodeMember(baseline, p)
    ensures AnalyzeScenario(p, baseline, b, profile, s).value.acceptedCount == DecodeMember(baseline, p).value.acceptedCount
  {
    hide DecodeResult, Ratios.CheckedSum, AnalyzeRatios, Ratios.ScaledRatio, Apportion.Apportioned;
  }

  /** Every retained sample of a verified experiment, field by field. */
  lemma VerifiedSamples(repository: Repository, controller: Controller, scenario: Scenario, x: ProfileExperiment, k: nat)
    requires ExperimentVerified(repository, controller, scenario, x) && k < scenario.sampling.samples
    ensures |x.baseline.engineResult.samples| == |x.stages.engineResult.samples| == scenario.sampling.samples
    ensures var b := x.baseline.engineResult.samples[k];
            b.ordinal == k && b.generation + b.pipeline <= b.engineTotal <= x.baseline.engineResult.timing.experimentTotal
    ensures var s := x.stages.engineResult.samples[k];
            && s.ordinal == k && s.generation + s.normalize + s.score + s.filter + s.aggregate == s.stageSum
            && s.stageSum <= s.profileTotal <= x.stages.engineResult.timing.experimentTotal
  {
    hide Interpret, Identity, EngineIdentified, HeaderFits, ResultFits, Ratios.Sum;
    var (b, s) := (x.baseline.engineResult, x.stages.engineResult);
    assert BenchmarkConserved(b.samples, b.sampling.samples, b.timing.experimentTotal);
    assert ProfileConserved(s.samples, s.sampling.samples, s.timing.experimentTotal);
    SampleCounts(repository, controller, scenario, x);
    assert BenchmarkSampleConserved(b.samples[k], k) && ProfileSampleConserved(s.samples[k], k);
    PartBelow(EngineTotals(b.samples), k);
    PartBelow(ProfileTotals(s.samples), k);
  }

  lemma SampleCounts(repository: Repository, controller: Controller, scenario: Scenario, x: ProfileExperiment)
    requires ExperimentVerified(repository, controller, scenario, x)
    ensures |x.baseline.engineResult.samples| == |x.stages.engineResult.samples| == scenario.sampling.samples
  {
    hide Interpret, Identity, EngineIdentified, BenchmarkConserved, ProfileConserved, ResultFits, ReleaseBuild;
  }

  lemma {:induction false} PartBelow(v: seq<nat>, k: nat)
    requires k < |v|
    ensures v[k] <= Ratios.Sum(v)
  {
    if k < |v| - 1 {
      PartBelow(v[..|v| - 1], k);
    }
  }

  /** The time all retained samples took together. */
  function ProfileTime(samples: seq<ProfileSample>): nat {
    if samples == [] then 0 else ProfileTime(samples[..|samples| - 1]) + samples[|samples| - 1].profileTotal
  }

  function BenchmarkTime(samples: seq<BenchmarkSample>): nat {
    if samples == [] then 0 else BenchmarkTime(samples[..|samples| - 1]) + samples[|samples| - 1].engineTotal
  }

  lemma {:induction false} ProfileTimeIsSum(samples: seq<ProfileSample>)
    ensures ProfileTime(samples) == Ratios.Sum(ProfileTotals(samples))
  {
    if samples != [] {
      var n := |samples| - 1;
      ProfileTimeIsSum(samples[..n]);
      assert ProfileTotals(samples)[..n] == ProfileTotals(samples[..n]);
    }
  }

  lemma {:induction false} BenchmarkTimeIsSum(samples: seq<BenchmarkSample>)
    ensures BenchmarkTime(samples) == Ratios.Sum(EngineTotals(samples))
  {
    if samples != [] {
      var n := |samples| - 1;
      BenchmarkTimeIsSum(samples[..n]);
      assert EngineTotals(samples)[..n] == EngineTotals(samples[..n]);
    }
  }

  /** Time is conserved at every level of a verified experiment: the retained samples together
      fit the engine's own total, and that fits the controller's. */
  lemma VerifiedTime(repository: Repository, controller: Controller, scenario: Scenario, x: ProfileExperiment)
    requires ExperimentVerified(repository, controller, scenario, x)
    ensures BenchmarkTime(x.baseline.engineResult.samples) <= x.baseline.engineResult.timing.experimentTotal <= x.baseline.orchestrationTotal
    ensures ProfileTime(x.stages.engineResult.samples) <= x.stages.engineResult.timing.experimentTotal <= x.stages.orchestrationTotal
  {
    hide Interpret, Identity, EngineIdentified, HeaderFits, ResultFits, BenchmarkTime, ProfileTime;
    BenchmarkTimeIsSum(x.baseline.engineResult.samples);
    ProfileTimeIsSum(x.stages.engineResult.samples);
  }

  /** All runs of a verified report have one build and identifiers of their own. */
  lemma VerifiedRuns(repository: Repository, r: ProfileReport, i: nat, j: nat)
    requires Verified(repository, r) && i < |r.experiments| && j < |r.experiments|
    ensures var (x, y) := (r.experiments[i], r.experiments[j]);
            && x.baseline.engineResult.experimentId != y.stages.engineResult.experimentId
            && (x.baseline.engineResult.experimentId == y.baseline.engineResult.experimentId <==> i == j)
            && (x.stages.engineResult.experimentId == y.stages.engineResult.experimentId <==> i == j)
            && x.baseline.engineResult.build == y.baseline.engineResult.build
  {
    hide CommonEvidence, VerifiedSuite, ExperimentVerified;
  }

  // ------------------------------------------------------------------ the capture

  /** Everything one scenario of a capture needs. */
  ghost predicate ScenarioRuns(c: Capture, s: Scenario, i: nat) {
    && !c.cancelled(i) && c.repository.content(s.workload).Some?
    && c.repository.project(c.repository.content(s.workload).value).Some?
    && var p := c.repository.project(c.repository.content(s.workload).value).value;
       && p.schemaVersion == "paraflow.workload/v1" && p.distribution in ["uniform", "hotspot"]
       && c.baselineRun(i).Some? && c.profileRun(i).Some?
       && var ((b, bTotal), (q, qTotal)) := (c.baselineRun(i).value, c.profileRun(i).value);
          && AcceptsBenchmark(b, Evidence.Request(s, BaselineId(i)), p) && b.timing.experimentTotal <= bTotal
          && AcceptsProfile(q, Evidence.Request(s, ProfileId(i)), p) && q.timing.experimentTotal <= qTotal
          && b.build == q.build && b.build.sourceCommit == c.controller.fullCommit && b.build.sourceState == c.controller.sourceState
          && Summarize(b.samples).Ok? && SummarizeProfile(q.samples).Ok?
          && AnalyzeScenario(p, b.result, Summarize(b.samples).value, q.result, SummarizeProfile(q.samples).value).Ok?
  }

  lemma ScenarioExact(c: Capture, s: Scenario, i: nat)
    ensures ProduceExperiment(c, s, i).Ok? <==> ScenarioRuns(c, s, i)
  {
    hide AcceptsBenchmark, AcceptsProfile, Summarize, SummarizeProfile, AnalyzeScenario;
  }

  lemma {:induction false} AllScenarios(c: Capture, suite: Suite, n: nat)
    requires n <= |suite.scenarios|
    ensures ProduceAll(c, suite, n).Ok? <==> forall i :: 0 <= i < n ==> ProduceExperiment(c, suite.scenarios[i], i).Ok?
    ensures forall i :: 0 <= i < n && ProduceExperiment(c, suite.scenarios[i], i).Err?
                        && (forall j :: 0 <= j < i ==> ProduceExperiment(c, suite.scenarios[j], j).Ok?) ==>
              ProduceAll(c, suite, n) == Err(ProduceExperiment(c, suite.scenarios[i], i).error)
  {
    hide ProduceExperiment;
    if n > 0 {
      AllScenarios(c, suite, n - 1);
    }
  }

  /** What a capture needs besides its scenarios. */
  ghost predicate CaptureReady(c: Capture) {
    && !IsBlank(c.enginePath) && !IsBlank(c.suitePath) && Complete(c.controller)
    && c.suiteBytes.Some? && c.repository.decodeSuite(c.suiteBytes.value).Some?
    && ValidSuite(c.repository.decodeSuite(c.suiteBytes.value).value)
    && c.engineHash.Some? && c.toolsReady
  }

  /** The suite of a capture that can read one. */
  function CaptureSuite(c: Capture): Suite
    requires c.suiteBytes.Some? && c.repository.decodeSuite(c.suiteBytes.value).Some?
  {
    c.repository.decodeSuite(c.suiteBytes.value).value
  }

  /** The first `n` scenarios of the suite can be run. */
  ghost predicate RunsUpTo(c: Capture, n: nat)
    requires c.suiteBytes.Some? && c.repository.decodeSuite(c.suiteBytes.value).Some?
  {
    forall i :: 0 <= i < n <= |CaptureSuite(c).scenarios| ==> ScenarioRuns(c, CaptureSuite(c).scenarios[i], i)
  }

  lemma RunsProduce(c: Capture, n: nat)
    requires c.suiteBytes.Some? && c.repository.decodeSuite(c.suiteBytes.value).Some? && n <= |CaptureSuite(c).scenarios|
    ensures ProduceAll(c, CaptureSuite(c), n).Ok? <==> RunsUpTo(c, n)
  {
    hide ScenarioRuns, ProduceExperiment, ProduceAll;
    var suite := CaptureSuite(c);
    AllScenarios(c, suite, n);
    forall i | 0 <= i < n
      ensures ProduceExperiment(c, suite.scenarios[i], i).Ok? <==> ScenarioRuns(c, suite.scenarios[i], i)
    {
      ScenarioExact(c, suite.scenarios[i], i);
    }
  }

  /** Exactly when a capture produces a report: the engine must not change under it and the
      clock must not run back. */
  lemma CaptureExact(c: Capture)
    ensures Produce(c).Ok? <==>
              CaptureReady(c) && c.finalEngineHash == c.engineHash && c.startedAt <= c.completedAt && RunsUpTo(c, |CaptureSuite(c).scenarios|)
  {
    hide ScenarioRuns, ProduceExperiment, IsBlank, ValidSuite, ProduceAll, RunsUpTo;
    if c.suiteBytes.Some? && c.repository.decodeSuite(c.suiteBytes.value).Some? {
      RunsProduce(c, |CaptureSuite(c).scenarios|);
    }
  }

  /** The first scenario that cannot be run decides what a ready capture reports, whatever the
      later ones would have done. */
  lemma FirstFailure(c: Capture, i: nat)
    requires CaptureReady(c) && i < |CaptureSuite(c).scenarios| && RunsUpTo(c, i) && !RunsUpTo(c, i + 1)
    ensures ProduceExperiment(c, CaptureSuite(c).scenarios[i], i).Err?
    ensures Produce(c) == Err(ProduceExperiment(c, CaptureSuite(c).scenarios[i], i).error)
  {
    hide ScenarioRuns, ProduceExperiment, IsBlank, ValidSuite, ProduceAll;
    var suite := CaptureSuite(c);
    RunsProduce(c, i);
    RunsProduce(c, i + 1);
    AllScenarios(c, suite, i);
    AllScenarios(c, suite, i + 1);
    AllScenarios(c, suite, |suite.scenarios|);
  }

  /** What a produced report records of its capture. */
  lemma CaptureRecorded(c: Capture)
    requires Produce(c).Ok?
    ensures var r := Produce(c).value;
            && r.startedAt == c.startedAt && r.completedAt == c.completedAt && r.controller == c.controller
            && r.suite.path == c.suiteIdentity && c.suiteBytes.Some? && r.suite.sha256 == c.repository.sha256(c.suiteBytes.value)
            && c.engineHash == Some(r.engineArtifact.sha256) == c.finalEngineHash && r.engineArtifact.path == c.engineIdentity
            && r.environment.capturedAt == c.checkedAt && r.environment.milestone == "day-07"
    ensures var (r, suite) := (Produce(c).value, c.repository.decodeSuite(c.suiteBytes.value).value);
            && |r.experiments| == |suite.scenarios|
            && forall i :: 0 <= i < |r.experiments| ==>
                 && c.baselineRun(i) == Some((r.experiments[i].baseline.engineResult, r.experiments[i].baseline.orchestrationTotal))
                 && c.profileRun(i) == Some((r.experiments[i].stages.engineResult, r.experiments[i].stages.orchestrationTotal))
  {
    hide ProduceAll, ProduceExperiment, IsBlank, ValidSuite;
    var r, suite := Produce(c).value, c.repository.decodeSuite(c.suiteBytes.value).value;
    ProducedCount(c, suite);
    forall i | 0 <= i < |r.experiments|
      ensures c.baselineRun(i) == Some((r.experiments[i].baseline.engineResult, r.experiments[i].baseline.orchestrationTotal))
      ensures c.profileRun(i) == Some((r.experiments[i].stages.engineResult, r.experiments[i].stages.orchestrationTotal))
    {
      ProducedAt(c, suite, |suite.scenarios|, i);
      RecordedAt(c, suite.scenarios[i], i);
    }
  }

  lemma RecordedAt(c: Capture, s: Scenario, i: nat)
    requires ProduceExperiment(c, s, i).Ok?
    ensures var x := ProduceExperiment(c, s, i).value;
            && c.baselineRun(i) == Some((x.baseline.engineResult, x.baseline.orchestrationTotal))
            && c.profileRun(i) == Some((x.stages.engineResult, x.stages.orchestrationTotal))
  {
    hide AcceptsBenchmark, AcceptsProfile, Interpret;
  }
}

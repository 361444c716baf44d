/** Capturing a paired profile report and replaying it offline from repository content. */
module Evidence {
  import opened Words
  import opened Framing
  import opened Contracts
  import opened Protocol
  import opened Timing
  import opened Analysis
  import opened EngineResults
  import Hex

  // ------------------------------------------------------------------ entities

  datatype Scenario = Scenario(name: string, workload: string, backend: string, sampling: Sampling)
  datatype Suite = Suite(schemaVersion: string, name: string, scenarios: seq<Scenario>)
  datatype Controller = Controller(version: string, fullCommit: string, sourceState: string)

  /** The host report; `identified` stands for its operating-system and tool fields being filled in. */
  datatype Environment = Environment(
    schemaVersion: string, source: Controller, milestone: string, ready: bool, capturedAt: int, identified: bool)

  datatype Artifact = Artifact(path: string, sha256: string)
  datatype SuiteIdentity = SuiteIdentity(path: string, sha256: string, schemaVersion: string, name: string)
  datatype WorkloadIdentity = WorkloadIdentity(
    path: string, sha256: string, schemaVersion: string, name: string, recordCount: U64, categoryCount: U64, distribution: string)

  datatype BaselineEvidence = BaselineEvidence(orchestrationTotal: U64, engineResult: RunResult<BenchmarkSample>, summary: Summary)
  datatype StageEvidence = StageEvidence(orchestrationTotal: U64, engineResult: RunResult<ProfileSample>, summary: ProfileSummary)
  datatype ProfileExperiment = ProfileExperiment(
    scenarioName: string, workload: WorkloadIdentity, baseline: BaselineEvidence, stages: StageEvidence, analysis: Analysis)

  datatype ProfileReport = ProfileReport(
    schemaVersion: string, startedAt: int, completedAt: int, suite: SuiteIdentity, controller: Controller,
    environment: Environment, engineArtifact: Artifact, experiments: seq<ProfileExperiment>)

  const ZERO_TIME: int := 0

  /** A reading of the wall clock, which is always after the zero time. */
  type Instant = t: int | t > ZERO_TIME witness 1

  predicate ValidSha256(digest: string) {
    |digest| == 64 && Hex.AllHex(digest)
  }

  /** What hashing bytes and printing the digest gives. */
  type Digest = d: string | ValidSha256(d) witness seq(64, _ => '0')

  const REPORT_SCHEMA := "paraflow.scalar-profile-report/v1"
  const SUITE_SCHEMA := "paraflow.benchmark-suite/v1"
  const WORKLOAD_SCHEMA := "paraflow.workload/v1"
  const ENVIRONMENT_SCHEMA := "paraflow.environment/v3"
  const MILESTONE := "day-07"
  const MAX_SCENARIOS: nat := 64

  /** Repository content and the opaque functions of it that both programs use. `inside` is
      the symlink check that only the replay makes. */
  datatype Repository = Repository(
    content: string -> Option<seq<Byte>>, inside: string -> bool, sha256: seq<Byte> -> Digest,
    decodeSuite: seq<Byte> -> Option<Suite>, project: seq<Byte> -> Option<Projection>)

  // -------------------------------------------------------- suites and paths

  /** Components between slashes: none empty, `.` or `..`. */
  predicate CleanComponents(rest: string, component: string) {
    if rest == "" then component != "" && component != "." && component != ".."
    else if rest[0] == '/' then component != "" && component != "." && component != ".." && CleanComponents(rest[1..], "")
    else CleanComponents(rest[1..], component + [rest[0]])
  }

  predicate RepositoryJsonPath(path: string) {
    && 5 <= |path| <= 512 && path[|path| - 5..] == ".json" && '\\' !in path && CleanComponents(path, "")
  }

  predicate ValidLabel(name: string) {
    0 < |name| <= 120 && !IsBlank(name)
  }

  predicate ValidScenario(s: Scenario) {
    ValidLabel(s.name) && RepositoryJsonPath(s.workload) && s.backend == BACKEND_SCALAR && ValidSampling(s.sampling)
  }

  ghost predicate ValidSuite(suite: Suite) {
    && suite.schemaVersion == SUITE_SCHEMA && ValidLabel(suite.name) && 0 < |suite.scenarios| <= MAX_SCENARIOS
    && (forall i :: 0 <= i < |suite.scenarios| ==> ValidScenario(suite.scenarios[i]))
    && (forall i, j :: 0 <= i < j < |suite.scenarios| ==> suite.scenarios[i].name != suite.scenarios[j].name)
  }

  /** `Suite.Validate`. */
  method ValidateSuite(suite: Suite) returns (valid: bool)
    ensures valid <==> ValidSuite(suite)
  {
    hide ValidScenario;
    if suite.schemaVersion != SUITE_SCHEMA || !ValidLabel(suite.name) || suite.scenarios == [] || |suite.scenarios| > MAX_SCENARIOS {
      return false;
    }
    var seen: set<string> := {};
    for index := 0 to |suite.scenarios|
      invariant forall name :: name in seen <==> exists i :: 0 <= i < index && suite.scenarios[i].name == name
      invariant forall i :: 0 <= i < index ==> ValidScenario(suite.scenarios[i])
      invariant forall i, j :: 0 <= i < j < index ==> suite.scenarios[i].name != suite.scenarios[j].name
    {
      var scenario := suite.scenarios[index];
      if !ValidScenario(scenario) {
        return false;
      }
      if scenario.name in seen {
        return false;
      }
      seen := seen + {scenario.name};
    }
    return true;
  }

  // --------------------------------------------------------------- production

  /** What one capture takes from the outside: the given paths, what reading the suite path
      yields, both paths as they are recorded (relative to the root when inside it), the
      clock, whether the required tools were found, and what the engine process reported for
      each scenario (nothing when the process or its decoding failed). */
  datatype Capture = Capture(
    repository: Repository, suitePath: string, suiteBytes: Option<seq<Byte>>, suiteIdentity: string,
    enginePath: string, engineIdentity: string, controller: Controller, toolsReady: bool, checkedAt: Instant,
    startedAt: Instant, completedAt: Instant, engineHash: Option<Digest>, finalEngineHash: Option<Digest>,
    cancelled: nat -> bool,
    baselineRun: nat -> Option<(RunResult<BenchmarkSample>, U64)>, profileRun: nat -> Option<(RunResult<ProfileSample>, U64)>)

  datatype CaptureError =
    | BadOptions | NoSuite | InvalidSuite | NoEngine | HostNotReady | ContextEnded | NoWorkload | WrongSchemaVersion
    | WrongDistribution | BaselineFailed | ProfileFailed | SourceMismatch | BuildsDiffer | CannotAnalyze(e: AnalysisError)
    | EngineChanged | ClockWentBack

  /** `doctor.Check`: the host report of this very controller, complete by construction. */
  function HostReport(c: Capture): Environment {
    Environment(ENVIRONMENT_SCHEMA, c.controller, MILESTONE, c.toolsReady, c.checkedAt, true)
  }

  function BaselineId(index: nat): string {
    "day06:baseline:" + Hex.Format(index + 1, 16)
  }

  function ProfileId(index: nat): string {
    "day06:profile:" + Hex.Format(index + 1, 16)
  }

  predicate SourceAligned(build: EngineBuild, controller: Controller) {
    build.sourceCommit == controller.fullCommit && build.sourceState == controller.sourceState
  }

  predicate CompleteController(c: Controller) {
    !IsBlank(c.version) && !IsBlank(c.fullCommit) && ValidSourceState(c.sourceState)
  }

  function Identity(repository: Repository, path: string, bytes: seq<Byte>, p: Projection): WorkloadIdentity {
    WorkloadIdentity(path, repository.sha256(bytes), p.schemaVersion, p.name, p.recordCount, p.categoryCount, p.distribution)
  }

  function Request(s: Scenario, id: string): RunRequest {
    RunRequest(id, s.name, s.backend, s.sampling)
  }

  /** The workload bytes of a scenario, when they can be read and projected. */
  function ReadWorkload(repository: Repository, path: string): Option<(seq<Byte>, Projection)> {
    match repository.content(path)
    case None => None
    case Some(bytes) =>
      match repository.project(bytes)
      case None => None
      case Some(p) => Some((bytes, p))
  }

  /** `RunEngine`: validate the decoded report and compare the two clocks. */
  ghost predicate GoodBaseline(run: Option<(RunResult<BenchmarkSample>, U64)>, q: RunRequest, p: Projection) {
    run.Some? && AcceptsBenchmark(run.value.0, q, p) && run.value.1 >= run.value.0.timing.experimentTotal
  }

  ghost predicate GoodProfile(run: Option<(RunResult<ProfileSample>, U64)>, q: RunRequest, p: Projection) {
    run.Some? && AcceptsProfile(run.value.0, q, p) && run.value.1 >= run.value.0.timing.experimentTotal
  }

  /** Summaries and analysis recomputed from two raw results. */
  function Interpret(p: Projection, baseline: RunResult<BenchmarkSample>, profile: RunResult<ProfileSample>)
    : Result<(Summary, ProfileSummary, Analysis), AnalysisError>
  {
    match Summarize(baseline.samples)
    case Err(e) => Err(e)
    case Ok(b) =>
      match SummarizeProfile(profile.samples)
      case Err(e) => Err(e)
      case Ok(s) =>
        match AnalyzeScenario(p, baseline.result, b, profile.result, s)
        case Err(e) => Err(e)
        case Ok(a) => Ok((b, s, a))
  }

  /** One scenario of the capture loop. */
  ghost function ProduceExperiment(c: Capture, scenario: Scenario, index: nat): Result<ProfileExperiment, CaptureError> {
    if c.cancelled(index) then Err(ContextEnded)
    else match ReadWorkload(c.repository, scenario.workload)
         case None => Err(NoWorkload)
         case Some((bytes, p)) =>
           if p.schemaVersion != WORKLOAD_SCHEMA then Err(WrongSchemaVersion)
           else if p.distribution != "uniform" && p.distribution != "hotspot" then Err(WrongDistribution)
           else if !GoodBaseline(c.baselineRun(index), Request(scenario, BaselineId(index)), p) then Err(BaselineFailed)
           else
             var (baseline, baselineOrchestration) := c.baselineRun(index).value;
             if !SourceAligned(baseline.build, c.controller) then Err(SourceMismatch)
             else if !GoodProfile(c.profileRun(index), Request(scenario, ProfileId(index)), p) then Err(ProfileFailed)
             else
               var (profile, profileOrchestration) := c.profileRun(index).value;
               if !SourceAligned(profile.build, c.controller) then Err(SourceMismatch)
               else if profile.build != baseline.build then Err(BuildsDiffer)
               else match Interpret(p, baseline, profile)
                    case Err(e) => Err(CannotAnalyze(e))
                    case Ok((b, s, a)) =>
                      Ok(ProfileExperiment(scenario.name, Identity(c.repository, scenario.workload, bytes, p),
                                           BaselineEvidence(baselineOrchestration, baseline, b),
                                           StageEvidence(profileOrchestration, profile, s), a))
  }

  ghost function ProduceAll(c: Capture, suite: Suite, n: nat): Result<seq<ProfileExperiment>, CaptureError>
    requires n <= |suite.scenarios|
  {
    if n == 0 then Ok([])
    else match ProduceAll(c, suite, n - 1)
         case Err(e) => Err(e)
         case Ok(done) =>
           match ProduceExperiment(c, suite.scenarios[n - 1], n - 1)
           case Err(e) => Err(e)
           case Ok(x) => Ok(done + [x])
  }

  ghost function DecodeSuite(repository: Repository, bytes: Option<seq<Byte>>): Result<(seq<Byte>, Suite), CaptureError> {
    if bytes.None? then Err(NoSuite)
    else match repository.decodeSuite(bytes.value)
         case None => Err(NoSuite)
         case Some(suite) => if ValidSuite(suite) then Ok((bytes.value, suite)) else Err(InvalidSuite)
  }

  ghost function Produce(c: Capture): Result<ProfileReport, CaptureError> {
    if IsBlank(c.enginePath) || IsBlank(c.suitePath) || !CompleteController(c.controller) then Err(BadOptions)
    else match DecodeSuite(c.repository, c.suiteBytes)
         case Err(e) => Err(e)
         case Ok((bytes, suite)) =>
           if c.engineHash.None? then Err(NoEngine)
           else if !c.toolsReady then Err(HostNotReady)
           else match ProduceAll(c, suite, |suite.scenarios|)
                case Err(e) => Err(e)
                case Ok(experiments) =>
                  if c.finalEngineHash.None? then Err(NoEngine)
                  else if c.finalEngineHash != c.engineHash then Err(EngineChanged)
                  else if c.completedAt < c.startedAt then Err(ClockWentBack)
                  else Ok(ProfileReport(REPORT_SCHEMA, c.startedAt, c.completedAt,
                                        SuiteIdentity(c.suiteIdentity, c.repository.sha256(bytes), suite.schemaVersion, suite.name),
                                        c.controller, HostReport(c), Artifact(c.engineIdentity, c.engineHash.value), experiments))
  }

  /** `RunEngine` and `RunProfileEngine` after the process has exited. */
  method TakeBaseline(run: Option<(RunResult<BenchmarkSample>, U64)>, q: RunRequest, p: Projection) returns (good: bool)
    ensures good <==> GoodBaseline(run, q, p)
  {
    if run.None? {
      return false;
    }
    var accepted := ValidateBenchmarkResult(run.value.0, q, p);
    return accepted && run.value.1 >= run.value.0.timing.experimentTotal;
  }

  method TakeProfile(run: Option<(RunResult<ProfileSample>, U64)>, q: RunRequest, p: Projection) returns (good: bool)
    ensures good <==> GoodProfile(run, q, p)
  {
    if run.None? {
      return false;
    }
    var accepted := ValidateProfileResult(run.value.0, q, p);
    return accepted && run.value.1 >= run.value.0.timing.experimentTotal;
  }

  method CaptureScenario(c: Capture, scenario: Scenario, index: nat) returns (r: Result<ProfileExperiment, CaptureError>)
    ensures r == ProduceExperiment(c, scenario, index)
  {
    hide GoodBaseline, GoodProfile, Interpret, Identity, SourceAligned;
    if c.cancelled(index) {
      return Err(ContextEnded);
    }
    var workload := ReadWorkload(c.repository, scenario.workload);
    if workload.None? {
      return Err(NoWorkload);
    }
    var (bytes, p) := workload.value;
    if p.schemaVersion != WORKLOAD_SCHEMA {
      return Err(WrongSchemaVersion);
    }
    if p.distribution != "uniform" && p.distribution != "hotspot" {
      return Err(WrongDistribution);
    }
    var goodBaseline := TakeBaseline(c.baselineRun(index), Request(scenario, BaselineId(index)), p);
    if !goodBaseline {
      return Err(BaselineFailed);
    }
    BaselineSome(c.baselineRun(index), Request(scenario, BaselineId(index)), p);
    var (baseline, baselineOrchestration) := c.baselineRun(index).value;
    if !SourceAligned(baseline.build, c.controller) {
      return Err(SourceMismatch);
    }
    var goodProfile := TakeProfile(c.profileRun(index), Request(scenario, ProfileId(index)), p);
    if !goodProfile {
      return Err(ProfileFailed);
    }
    ProfileSome(c.profileRun(index), Request(scenario, ProfileId(index)), p);
    var (profile, profileOrchestration) := c.profileRun(index).value;
    if !SourceAligned(profile.build, c.controller) {
      return Err(SourceMismatch);
    }
    if profile.build != baseline.build {
      return Err(BuildsDiffer);
    }
    var interpreted := Interpret(p, baseline, profile);
    if interpreted.Err? {
      return Err(CannotAnalyze(interpreted.error));
    }
    var (b, s, a) := interpreted.value;
    return Ok(ProfileExperiment(scenario.name, Identity(c.repository, scenario.workload, bytes, p),
                                BaselineEvidence(baselineOrchestration, baseline, b),
                                StageEvidence(profileOrchestration, profile, s), a));
  }

  lemma BaselineSome(run: Option<(RunResult<BenchmarkSample>, U64)>, q: RunRequest, p: Projection)
    requires GoodBaseline(run, q, p)
    ensures run.Some?
  {
  }

  lemma ProfileSome(run: Option<(RunResult<ProfileSample>, U64)>, q: RunRequest, p: Projection)
    requires GoodProfile(run, q, p)
    ensures run.Some?
  {
  }

  /** `ExecuteProfile` up to persisting the report. */
  method ExecuteProfile(c: Capture) returns (r: Result<ProfileReport, CaptureError>)
    ensures r == Produce(c)
  {
    hide ProduceExperiment, ValidSuite, CompleteController, IsBlank;
    if IsBlank(c.enginePath) || IsBlank(c.suitePath) || !CompleteController(c.controller) {
      return Err(BadOptions);
    }
    var bytes := c.suiteBytes;
    if bytes.None? {
      return Err(NoSuite);
    }
    var decoded := c.repository.decodeSuite(bytes.value);
    if decoded.None? {
      return Err(NoSuite);
    }
    var suite := decoded.value;
    var valid := ValidateSuite(suite);
    if !valid {
      return Err(InvalidSuite);
    }
    if c.engineHash.None? {
      return Err(NoEngine);
    }
    if !c.toolsReady {
      return Err(HostNotReady);
    }
    var experiments: seq<ProfileExperiment> := [];
    for index := 0 to |suite.scenarios|
      invariant ProduceAll(c, suite, index) == Ok(experiments)
    {
      var experiment := CaptureScenario(c, suite.scenarios[index], index);
      if experiment.Err? {
        ProduceAllStops(c, suite, index + 1, |suite.scenarios|);
        return Err(experiment.error);
      }
      experiments := experiments + [experiment.value];
    }
    if c.finalEngineHash.None? {
      return Err(NoEngine);
    }
    if c.finalEngineHash != c.engineHash {
      return Err(EngineChanged);
    }
    if c.completedAt < c.startedAt {
      return Err(ClockWentBack);
    }
    return Ok(ProfileReport(REPORT_SCHEMA, c.startedAt, c.completedAt,
                            SuiteIdentity(c.suiteIdentity, c.repository.sha256(bytes.value), suite.schemaVersion, suite.name),
                            c.controller, HostReport(c), Artifact(c.engineIdentity, c.engineHash.value), experiments));
  }

  lemma {:induction false} ProduceAllStops(c: Capture, suite: Suite, n: nat, m: nat)
    requires n <= m <= |suite.scenarios| && ProduceAll(c, suite, n).Err?
    ensures ProduceAll(c, suite, m) == ProduceAll(c, suite, n)
  {
    hide ProduceExperiment;
    if n < m {
      ProduceAllStops(c, suite, n, m - 1);
    }
  }

  // -------------------------------------------------------------------- replay

  predicate CommonEvidence(r: ProfileReport) {
    && r.startedAt != ZERO_TIME && r.completedAt != ZERO_TIME && r.startedAt <= r.completedAt
    && CompleteController(r.controller)
    && r.environment.schemaVersion == ENVIRONMENT_SCHEMA && r.environment.source == r.controller
    && r.environment.milestone in {"day-05", "day-06", "day-07"}
    && r.environment.ready && r.environment.capturedAt != ZERO_TIME && r.environment.identified
    && RepositoryJsonPath(r.suite.path) && ValidSha256(r.suite.sha256)
    && !IsBlank(r.engineArtifact.path) && ValidSha256(r.engineArtifact.sha256)
  }

  /** `readVerifiedSuite`. */
  ghost function VerifiedSuite(repository: Repository, identity: SuiteIdentity): Option<Suite> {
    if !repository.inside(identity.path) then None
    else match DecodeSuite(repository, repository.content(identity.path))
         case Err(_) => None
         case Ok((bytes, suite)) =>
           if repository.sha256(bytes) == identity.sha256 && suite.schemaVersion == identity.schemaVersion && suite.name == identity.name
           then Some(suite) else None
  }

  /** `readVerifiedWorkload`. */
  function VerifiedWorkload(repository: Repository, path: string): Option<(seq<Byte>, Projection)> {
    if !repository.inside(path) then None
    else match ReadWorkload(repository, path)
         case None => None
         case Some((bytes, p)) => if p.schemaVersion == WORKLOAD_SCHEMA then Some((bytes, p)) else None
  }

  predicate EngineIdentified(build: EngineBuild, controller: Controller) {
    SourceAligned(build, controller) && build.version == controller.version
  }

  /** Everything the replay checks of one experiment on its own. */
  ghost predicate ExperimentVerified(repository: Repository, controller: Controller, scenario: Scenario, x: ProfileExperiment) {
    && x.scenarioName == scenario.name && VerifiedWorkload(repository, scenario.workload).Some?
    && var (bytes, p) := VerifiedWorkload(repository, scenario.workload).value;
       var (baseline, profile) := (x.baseline.engineResult, x.stages.engineResult);
       && x.workload == Identity(repository, scenario.workload, bytes, p)
       && AcceptsBenchmark(baseline, Request(scenario, baseline.experimentId), p)
       && AcceptsProfile(profile, Request(scenario, profile.experimentId), p)
       && baseline.build == profile.build && EngineIdentified(baseline.build, controller)
       && x.baseline.orchestrationTotal >= baseline.timing.experimentTotal
       && x.stages.orchestrationTotal >= profile.timing.experimentTotal
       && Interpret(p, baseline, profile) == Ok((x.baseline.summary, x.stages.summary, x.analysis))
  }

  function BaselineIdOf(x: ProfileExperiment): string {
    x.baseline.engineResult.experimentId
  }

  function ProfileIdOf(x: ProfileExperiment): string {
    x.stages.engineResult.experimentId
  }

  ghost predicate DistinctRunIds(xs: seq<ProfileExperiment>) {
    && (forall i, j :: 0 <= i < j < |xs| ==> BaselineIdOf(xs[i]) != BaselineIdOf(xs[j]) && ProfileIdOf(xs[i]) != ProfileIdOf(xs[j]))
    && (forall i, j :: 0 <= i < |xs| && 0 <= j < |xs| ==> BaselineIdOf(xs[i]) != ProfileIdOf(xs[j]))
  }

  ghost predicate OneBuild(xs: seq<ProfileExperiment>) {
    forall i :: 0 <= i < |xs| ==> xs[i].baseline.engineResult.build == xs[0].baseline.engineResult.build
  }

  ghost predicate Verified(repository: Repository, r: ProfileReport) {
    && r.schemaVersion == REPORT_SCHEMA && CommonEvidence(r) && VerifiedSuite(repository, r.suite).Some?
    && DistinctRunIds(r.experiments) && OneBuild(r.experiments)
    && var suite := VerifiedSuite(repository, r.suite).value;
       && |r.experiments| == |suite.scenarios|
       && forall i :: 0 <= i < |r.experiments| ==> ExperimentVerified(repository, r.controller, suite.scenarios[i], r.experiments[i])
  }

  function Retained(xs: seq<ProfileExperiment>): nat {
    if xs == [] then 0
    else Retained(xs[..|xs| - 1]) + |xs[|xs| - 1].baseline.engineResult.samples| + |xs[|xs| - 1].stages.engineResult.samples|
  }

  datatype Verification = Verification(suiteName: string, experimentCount: nat, retainedSamples: nat, identities: nat)

  /** The checks of one experiment, in order. */
  method VerifyExperiment(repository: Repository, controller: Controller, scenario: Scenario, x: ProfileExperiment) returns (passed: bool)
    ensures passed <==> ExperimentVerified(repository, controller, scenario, x)
  {
    hide AcceptsBenchmark, AcceptsProfile, Interpret, Identity, EngineIdentified;
    if x.scenarioName != scenario.name {
      return false;
    }
    var workload := VerifiedWorkload(repository, scenario.workload);
    if workload.None? {
      return false;
    }
    var (bytes, p) := workload.value;
    var baseline, profile := x.baseline.engineResult, x.stages.engineResult;
    if x.workload != Identity(repository, scenario.workload, bytes, p) {
      return false;
    }
    var baselineGood := ValidateBenchmarkResult(baseline, Request(scenario, baseline.experimentId), p);
    if !baselineGood {
      return false;
    }
    var profileGood := ValidateProfileResult(profile, Request(scenario, profile.experimentId), p);
    if !profileGood || baseline.build != profile.build || !EngineIdentified(baseline.build, controller) {
      return false;
    }
    if x.baseline.orchestrationTotal < baseline.timing.experimentTotal || x.stages.orchestrationTotal < profile.timing.experimentTotal {
      return false;
    }
    return Interpret(p, baseline, profile) == Ok((x.baseline.summary, x.stages.summary, x.analysis));
  }

  lemma RunIdsStep(xs: seq<ProfileExperiment>, n: nat)
    requires n < |xs| && DistinctRunIds(xs[..n])
    ensures DistinctRunIds(xs[..n + 1]) <==>
              && BaselineIdOf(xs[n]) != ProfileIdOf(xs[n])
              && (forall i :: 0 <= i < n ==> BaselineIdOf(xs[i]) != BaselineIdOf(xs[n]) && ProfileIdOf(xs[i]) != ProfileIdOf(xs[n]))
              && (forall i :: 0 <= i < n ==> BaselineIdOf(xs[i]) != ProfileIdOf(xs[n]) && ProfileIdOf(xs[i]) != BaselineIdOf(xs[n]))
  {
    hide BaselineIdOf, ProfileIdOf;
    var now, next := xs[..n], xs[..n + 1];
    assert forall i :: 0 <= i < n ==> now[i] == xs[i] && next[i] == xs[i];
    assert next[n] == xs[n];
    if DistinctRunIds(next) {
      assert forall i :: 0 <= i < n ==> BaselineIdOf(next[i]) != BaselineIdOf(next[n]) && ProfileIdOf(next[i]) != ProfileIdOf(next[n]);
      assert forall i :: 0 <= i < n ==> BaselineIdOf(next[i]) != ProfileIdOf(next[n]) && BaselineIdOf(next[n]) != ProfileIdOf(next[i]);
    }
  }

  lemma RunIdsPrefix(xs: seq<ProfileExperiment>, n: nat)
    requires n <= |xs| && DistinctRunIds(xs)
    ensures DistinctRunIds(xs[..n])
  {
    hide BaselineIdOf, ProfileIdOf;
  }

  predicate SeenId(xs: seq<ProfileExperiment>, id: string) {
    exists i :: 0 <= i < |xs| && (BaselineIdOf(xs[i]) == id || ProfileIdOf(xs[i]) == id)
  }

  lemma SeenStep(xs: seq<ProfileExperiment>, n: nat, id: string)
    requires n < |xs|
    ensures SeenId(xs[..n + 1], id) <==> SeenId(xs[..n], id) || BaselineIdOf(xs[n]) == id || ProfileIdOf(xs[n]) == id
  {
    hide BaselineIdOf, ProfileIdOf;
    var now, next := xs[..n], xs[..n + 1];
    assert forall i :: 0 <= i < n ==> now[i] == next[i];
    assert next[n] == xs[n];
    if SeenId(now, id) {
      var i :| 0 <= i < n && (BaselineIdOf(now[i]) == id || ProfileIdOf(now[i]) == id);
      assert next[i] == now[i];
    }
  }

  lemma FreshIds(xs: seq<ProfileExperiment>, n: nat)
    requires n < |xs| && DistinctRunIds(xs[..n])
    ensures DistinctRunIds(xs[..n + 1]) <==>
              !SeenId(xs[..n], BaselineIdOf(xs[n])) && !SeenId(xs[..n], ProfileIdOf(xs[n])) && BaselineIdOf(xs[n]) != ProfileIdOf(xs[n])
  {
    hide BaselineIdOf, ProfileIdOf, DistinctRunIds;
    RunIdsStep(xs, n);
    assert forall i :: 0 <= i < n ==> xs[..n][i] == xs[i];
  }

  /** The identifier map: both identifiers of an experiment must be new. */
  method TakeRunIds(ids: set<string>, x: ProfileExperiment, ghost xs: seq<ProfileExperiment>, ghost n: nat)
    returns (unseen: bool, next: set<string>)
    requires n < |xs| && xs[n] == x && DistinctRunIds(xs[..n]) && forall id :: id in ids <==> SeenId(xs[..n], id)
    ensures unseen <==> DistinctRunIds(xs[..n + 1])
    ensures unseen ==> forall id :: id in next <==> SeenId(xs[..n + 1], id)
  {
    hide DistinctRunIds, BaselineIdOf, ProfileIdOf, SeenId;
    FreshIds(xs, n);
    next := ids;
    if BaselineIdOf(x) in next {
      return false, next;
    }
    next := next + {BaselineIdOf(x)};
    if ProfileIdOf(x) in next {
      return false, next;
    }
    next := next + {ProfileIdOf(x)};
    forall id
      ensures id in next <==> SeenId(xs[..n + 1], id)
    {
      SeenStep(xs, n, id);
    }
    return true, next;
  }

  /** `verifyProfileReport`: it passes exactly the verified reports. */
  method VerifyProfileReport(repository: Repository, r: ProfileReport) returns (v: Option<Verification>)
    ensures v.Some? <==> Verified(repository, r)
    ensures v.Some? ==> v.value == Verification(VerifiedSuite(repository, r.suite).value.name, |r.experiments|, Retained(r.experiments), 1 + |r.experiments|)
  {
    hide CommonEvidence, ExperimentVerified, DistinctRunIds, BaselineIdOf, ProfileIdOf, SeenId, VerifiedSuite;
    if r.schemaVersion != REPORT_SCHEMA || !CommonEvidence(r) {
      return None;
    }
    var read := TakeSuite(repository, r.suite);
    if read.None? {
      return None;
    }
    var suite := read.value;
    if |r.experiments| != |suite.scenarios| {
      return None;
    }
    var retained := 0;
    var build: Option<EngineBuild> := None;
    var ids: set<string> := {};
    ghost var xs := r.experiments;
    NoRunIds(xs);
    for index := 0 to |r.experiments|
      invariant forall i :: 0 <= i < index ==> ExperimentVerified(repository, r.controller, suite.scenarios[i], xs[i])
      invariant DistinctRunIds(xs[..index]) && forall id :: id in ids <==> SeenId(xs[..index], id)
      invariant if index == 0 then build == None else build == Some(xs[0].baseline.engineResult.build)
      invariant forall i :: 0 <= i < index ==> xs[i].baseline.engineResult.build == xs[0].baseline.engineResult.build
      invariant retained == Retained(xs[..index])
    {
      var x := r.experiments[index];
      var unseen: bool;
      unseen, ids := TakeRunIds(ids, x, xs, index);
      if !unseen {
        IdsRepeat(xs, index);
        return None;
      }
      var passed := VerifyExperiment(repository, r.controller, suite.scenarios[index], x);
      if !passed {
        return None;
      }
      if build.None? {
        build := Some(x.baseline.engineResult.build);
      } else if build.value != x.baseline.engineResult.build {
        return None;
      }
      assert xs[..index + 1][..index] == xs[..index];
      retained := retained + |x.baseline.engineResult.samples| + |x.stages.engineResult.samples|;
    }
    assert xs[..|xs|] == xs;
    return Some(Verification(suite.name, |r.experiments|, retained, 1 + |r.experiments|));
  }

  lemma NoRunIds(xs: seq<ProfileExperiment>)
    ensures DistinctRunIds(xs[..0]) && Retained(xs[..0]) == 0 && forall id :: !SeenId(xs[..0], id)
  {
  }

  lemma IdsRepeat(xs: seq<ProfileExperiment>, n: nat)
    requires n < |xs| && !DistinctRunIds(xs[..n + 1])
    ensures !DistinctRunIds(xs)
  {
    hide DistinctRunIds;
    if DistinctRunIds(xs) {
      RunIdsPrefix(xs, n + 1);
    }
  }

  method TakeSuite(repository: Repository, identity: SuiteIdentity) returns (suite: Option<Suite>)
    ensures suite == VerifiedSuite(repository, identity)
  {
    hide ValidSuite;
    if !repository.inside(identity.path) {
      return None;
    }
    var bytes := repository.content(identity.path);
    if bytes.None? {
      return None;
    }
    if repository.sha256(bytes.value) != identity.sha256 {
      return None;
    }
    suite := repository.decodeSuite(bytes.value);
    if suite.None? {
      return None;
    }
    var valid := ValidateSuite(suite.value);
    if !valid || suite.value.schemaVersion != identity.schemaVersion || suite.value.name != identity.name {
      return None;
    }
  }

  // ----------------------------------------------------- producer meets replay

  lemma {:induction false} ProducedAt(c: Capture, suite: Suite, n: nat, i: nat)
    requires n <= |suite.scenarios| && ProduceAll(c, suite, n).Ok? && i < n
    ensures |ProduceAll(c, suite, n).value| == n
    ensures ProduceExperiment(c, suite.scenarios[i], i) == Ok(ProduceAll(c, suite, n).value[i])
  {
    hide ProduceExperiment;
    if i < n - 1 {
      ProducedAt(c, suite, n - 1, i);
    } else if n > 1 {
      ProducedAt(c, suite, n - 1, 0);
    }
  }

  /** What a produced experiment satisfies, and what is still open about it. */
  lemma ProducedVerified(c: Capture, scenario: Scenario, index: nat)
    requires ProduceExperiment(c, scenario, index).Ok?
    ensures var x := ProduceExperiment(c, scenario, index).value;
            && (ExperimentVerified(c.repository, c.controller, scenario, x) <==>
                  c.repository.inside(scenario.workload) && x.baseline.engineResult.build.version == c.controller.version)
            && BaselineIdOf(x) == BaselineId(index) && ProfileIdOf(x) == ProfileId(index)
  {
    hide Interpret, ProfileConserved, BenchmarkConserved, ResultFits, ReleaseBuild, BaselineId, ProfileId;
  }

  lemma SamePrefix(prefix: string, a: string, b: string)
    ensures prefix + a == prefix + b <==> a == b
  {
    assert (prefix + a)[|prefix|..] == a && (prefix + b)[|prefix|..] == b;
  }

  lemma NumbersDiffer(i: nat, j: nat)
    requires i < MAX_SCENARIOS && j < MAX_SCENARIOS
    ensures Hex.Format(i + 1, 16) == Hex.Format(j + 1, 16) <==> i == j
  {
    hide Hex.Format;
    Pow2Of64();
    Hex.ParseFormat(i + 1, 16);
    Hex.ParseFormat(j + 1, 16);
  }

  /** Identifiers of different scenarios, and of the two runs of one scenario, all differ. */
  lemma RunIdsDiffer(i: nat, j: nat)
    requires i < MAX_SCENARIOS && j < MAX_SCENARIOS
    ensures BaselineId(i) != ProfileId(j)
    ensures i != j ==> BaselineId(i) != BaselineId(j) && ProfileId(i) != ProfileId(j)
  {
    hide Hex.Format, Hex.AllHex;
    NumbersDiffer(i, j);
    SamePrefix("day06:baseline:", Hex.Format(i + 1, 16), Hex.Format(j + 1, 16));
    SamePrefix("day06:profile:", Hex.Format(i + 1, 16), Hex.Format(j + 1, 16));
    assert |BaselineId(i)| == 31 && |ProfileId(j)| == 30;
  }

  /** The repository still holds what was captured: a recorded suite path that is relative
      to the repository names the bytes that were read. */
  predicate Unchanged(c: Capture) {
    RepositoryJsonPath(c.suiteIdentity) ==> c.repository.content(c.suiteIdentity) == c.suiteBytes
  }

  /** What the replay asks of the recorded paths and the capture never checks. */
  predicate CaptureConditions(c: Capture) {
    RepositoryJsonPath(c.suiteIdentity) && c.repository.inside(c.suiteIdentity) && !IsBlank(c.engineIdentity)
  }

  /** What it asks of the scenarios: workloads inside the repository, and one engine build
      throughout whose version is the controller's. */
  predicate BuildConditions(c: Capture, suite: Suite) {
    forall i :: 0 <= i < |suite.scenarios| ==>
      && c.repository.inside(suite.scenarios[i].workload)
      && c.baselineRun(i).Some? && c.baselineRun(0).Some?
      && c.baselineRun(i).value.0.build.version == c.controller.version
      && c.baselineRun(i).value.0.build == c.baselineRun(0).value.0.build
  }

  lemma CommonExact(c: Capture)
    requires Produce(c).Ok?
    ensures c.suiteBytes.Some? && c.engineHash.Some?
    ensures CommonEvidence(Produce(c).value) && c.repository.inside(c.suiteIdentity) <==> CaptureConditions(c)
  {
    hide ProduceAll, CompleteController, IsBlank, ValidScenario, RepositoryJsonPath, ValidSha256;
  }

  lemma ProducedSuite(c: Capture)
    requires Produce(c).Ok? && Unchanged(c)
    ensures DecodeSuite(c.repository, c.suiteBytes).Ok?
    ensures var (r, suite) := (Produce(c).value, DecodeSuite(c.repository, c.suiteBytes).value.1);
            && ValidSuite(suite) && r.schemaVersion == REPORT_SCHEMA && r.controller == c.controller && r.suite.path == c.suiteIdentity
            && ProduceAll(c, suite, |suite.scenarios|) == Ok(r.experiments)
            && (RepositoryJsonPath(c.suiteIdentity) ==>
                  VerifiedSuite(c.repository, r.suite) == if c.repository.inside(c.suiteIdentity) then Some(suite) else None)
  {
    hide ProduceAll, CompleteController, IsBlank, ValidScenario, RepositoryJsonPath;
  }

  /** A produced experiment records its scenario's workload and the engine's own report. */
  lemma ProducedFrom(c: Capture, scenario: Scenario, index: nat)
    requires ProduceExperiment(c, scenario, index).Ok?
    ensures ProduceExperiment(c, scenario, index).value.workload.path == scenario.workload
    ensures c.baselineRun(index).Some?
    ensures ProduceExperiment(c, scenario, index).value.baseline.engineResult == c.baselineRun(index).value.0
  {
    hide Interpret, AcceptsBenchmark, AcceptsProfile;
  }

  lemma ProducedCount(c: Capture, suite: Suite)
    requires ProduceAll(c, suite, |suite.scenarios|).Ok?
    ensures |ProduceAll(c, suite, |suite.scenarios|).value| == |suite.scenarios|
  {
    if |suite.scenarios| > 0 {
      ProducedAt(c, suite, |suite.scenarios|, 0);
    }
  }

  lemma ProducedIds(xs: seq<ProfileExperiment>)
    requires |xs| <= MAX_SCENARIOS
    requires forall i :: 0 <= i < |xs| ==> BaselineIdOf(xs[i]) == BaselineId(i) && ProfileIdOf(xs[i]) == ProfileId(i)
    ensures DistinctRunIds(xs)
  {
    hide BaselineIdOf, ProfileIdOf, BaselineId, ProfileId;
    forall i, j | 0 <= i < |xs| && 0 <= j < |xs|
      ensures BaselineIdOf(xs[i]) != ProfileIdOf(xs[j])
      ensures i != j ==> BaselineIdOf(xs[i]) != BaselineIdOf(xs[j]) && ProfileIdOf(xs[i]) != ProfileIdOf(xs[j])
    {
      RunIdsDiffer(i, j);
    }
  }

  lemma NeedsPath(r: ProfileReport)
    requires CommonEvidence(r)
    ensures RepositoryJsonPath(r.suite.path)
  {
    hide RepositoryJsonPath;
  }

  /** A report the capture produced over unchanged repository content is verified exactly
      when the conditions the capture leaves open hold of its inputs. */
  lemma ReplayExact(c: Capture)
    requires Produce(c).Ok? && Unchanged(c)
    ensures c.suiteBytes.Some? && c.engineHash.Some? && DecodeSuite(c.repository, c.suiteBytes).Ok?
    ensures Verified(c.repository, Produce(c).value) <==>
              CaptureConditions(c) && BuildConditions(c, DecodeSuite(c.repository, c.suiteBytes).value.1)
  {
    hide Produce, ProduceAll, ProduceExperiment, ExperimentVerified, CommonEvidence, CaptureConditions, VerifiedSuite, DecodeSuite,
         ValidScenario, DistinctRunIds, BaselineIdOf, ProfileIdOf, BaselineId, ProfileId, Unchanged, RepositoryJsonPath;
    CommonExact(c);
    ProducedSuite(c);
    var r, suite := Produce(c).value, DecodeSuite(c.repository, c.suiteBytes).value.1;
    if CommonEvidence(r) {
      NeedsPath(r);
    }
    ProducedCount(c, suite);
    forall i | 0 <= i < |r.experiments|
      ensures ExperimentVerified(c.repository, c.controller, suite.scenarios[i], r.experiments[i]) <==>
                c.repository.inside(suite.scenarios[i].workload) && r.experiments[i].baseline.engineResult.build.version == c.controller.version
      ensures c.baselineRun(i).Some? && r.experiments[i].baseline.engineResult == c.baselineRun(i).value.0
      ensures BaselineIdOf(r.experiments[i]) == BaselineId(i) && ProfileIdOf(r.experiments[i]) == ProfileId(i)
    {
      ProducedAt(c, suite, |suite.scenarios|, i);
      ProducedVerified(c, suite.scenarios[i], i);
      ProducedFrom(c, suite.scenarios[i], i);
    }
    ProducedIds(r.experiments);
  }

  /** Conversely, the raw samples and results of an accepted report leave no freedom: any two
      accepted reports with the same raw evidence agree on every summary and on the analysis. */
  lemma RawEvidenceDetermines(repository: Repository, r: ProfileReport, q: ProfileReport, i: nat)
    requires Verified(repository, r) && Verified(repository, q) && i < |r.experiments| && i < |q.experiments|
    requires r.experiments[i].workload.path == q.experiments[i].workload.path
    requires r.experiments[i].baseline.engineResult.samples == q.experiments[i].baseline.engineResult.samples
    requires r.experiments[i].baseline.engineResult.result == q.experiments[i].baseline.engineResult.result
    requires r.experiments[i].stages.engineResult.samples == q.experiments[i].stages.engineResult.samples
    requires r.experiments[i].stages.engineResult.result == q.experiments[i].stages.engineResult.result
    ensures r.experiments[i].baseline.summary == q.experiments[i].baseline.summary
    ensures r.experiments[i].stages.summary == q.experiments[i].stages.summary
    ensures r.experiments[i].analysis == q.experiments[i].analysis
    ensures r.experiments[i].workload == q.experiments[i].workload
  {
    hide CommonEvidence, VerifiedSuite, DistinctRunIds, OneBuild, ExperimentVerified;
    var s := VerifiedSuite(repository, r.suite).value.scenarios[i];
    var t := VerifiedSuite(repository, q.suite).value.scenarios[i];
    VerifiedInterprets(repository, r.controller, s, r.experiments[i]);
    VerifiedInterprets(repository, q.controller, t, q.experiments[i]);
    InterpretRaw(repository, s.workload, r.experiments[i], q.experiments[i]);
  }

  lemma VerifiedInterprets(repository: Repository, controller: Controller, scenario: Scenario, x: ProfileExperiment)
    requires ExperimentVerified(repository, controller, scenario, x)
    ensures x.workload.path == scenario.workload && VerifiedWorkload(repository, scenario.workload).Some?
    ensures var (bytes, p) := VerifiedWorkload(repository, scenario.workload).value;
            && x.workload == Identity(repository, scenario.workload, bytes, p)
            && Interpret(p, x.baseline.engineResult, x.stages.engineResult) == Ok((x.baseline.summary, x.stages.summary, x.analysis))
  {
    hide Interpret, AcceptsBenchmark, AcceptsProfile, EngineIdentified;
  }

  lemma InterpretRaw(repository: Repository, path: string, x: ProfileExperiment, y: ProfileExperiment)
    requires x.baseline.engineResult.samples == y.baseline.engineResult.samples && x.baseline.engineResult.result == y.baseline.engineResult.result
    requires x.stages.engineResult.samples == y.stages.engineResult.samples && x.stages.engineResult.result == y.stages.engineResult.result
    ensures forall p: Projection :: Interpret(p, x.baseline.engineResult, x.stages.engineResult) == Interpret(p, y.baseline.engineResult, y.stages.engineResult)
  {
    hide Summarize, SummarizeProfile, AnalyzeScenario;
  }
}

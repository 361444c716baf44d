/** The reports of one-shot engine runs: what the engine builds from a measured experiment,
    and the controller's strict validation of it. */
module EngineResults {
  import opened Words
  import opened Floats
  import opened Contracts
  import opened Clocks
  import opened Protocol
  import opened Timing
  import Agreement
  import Ratios
  import Server

  datatype EngineBuild = EngineBuild(
    version: string, profile: string, target: string, rustc: string, sourceCommit: string, sourceState: string)

  datatype Correctness = Correctness(status: string, oracle: string, comparison: string)

  /** Benchmark timing has neither topology nor observer. */
  datatype RunTiming = RunTiming(
    clock: string, timeUnit: string, processStartInSamples: bool, topology: Option<string>, observer: Option<string>,
    experimentTotal: U64)

  datatype RunResult<S> = RunResult(
    schemaVersion: string, experimentId: string, scenarioName: string, workloadName: string, backend: string,
    sampling: Sampling, timing: RunTiming, correctness: Correctness, build: EngineBuild, samples: seq<S>,
    result: Member<WireResult>)

  datatype RunRequest = RunRequest(experimentId: string, scenarioName: string, backend: string, sampling: Sampling)

  const BENCHMARK_SCHEMA := "paraflow.benchmark-engine-result/v1"
  const PROFILE_SCHEMA := "paraflow.profile-engine-result/v1"
  const CLOCK := "std::time::Instant"
  const TIME_UNIT := "nanoseconds"
  const TOPOLOGY := "materialized-stage-passes-v1"
  const OBSERVER := "boundary-timers-v1"
  const PASSED := Correctness("passed", "rust-scalar-v1", "exact")

  predicate ValidSourceState(state: string) {
    state == "clean" || state == "dirty" || state == "unknown"
  }

  predicate ReleaseBuild(b: EngineBuild) {
    && !IsBlank(b.version) && b.profile == "release" && !IsBlank(b.target) && !IsBlank(b.rustc) && !IsBlank(b.sourceCommit)
    && ValidSourceState(b.sourceState)
  }

  /** Every field check before the sample loop. */
  predicate HeaderFits<S>(r: RunResult<S>, q: RunRequest, p: Projection, schema: string, topology: Option<string>, observer: Option<string>) {
    && r.schemaVersion == schema && r.experimentId == q.experimentId && r.scenarioName == q.scenarioName
    && r.workloadName == p.name && r.backend == q.backend && r.sampling == q.sampling
    && r.timing.clock == CLOCK && r.timing.timeUnit == TIME_UNIT && !r.timing.processStartInSamples
    && r.timing.topology == topology && r.timing.observer == observer
    && r.correctness == PASSED && ReleaseBuild(r.build)
    && |r.samples| == r.sampling.samples && !r.result.Absent?
  }

  predicate ResultFits(m: Member<WireResult>, p: Projection) {
    m.Present? && DecodeResult(m.value, p).Ok?
  }

  ghost predicate AcceptsProfile(r: RunResult<ProfileSample>, q: RunRequest, p: Projection) {
    && HeaderFits(r, q, p, PROFILE_SCHEMA, Some(TOPOLOGY), Some(OBSERVER))
    && ProfileConserved(r.samples, r.sampling.samples, r.timing.experimentTotal)
    && ResultFits(r.result, p)
  }

  ghost predicate AcceptsBenchmark(r: RunResult<BenchmarkSample>, q: RunRequest, p: Projection) {
    && HeaderFits(r, q, p, BENCHMARK_SCHEMA, None, None)
    && BenchmarkConserved(r.samples, r.sampling.samples, r.timing.experimentTotal)
    && ResultFits(r.result, p)
  }

  /** `validateProfileEngineResult`. */
  method ValidateProfileResult(r: RunResult<ProfileSample>, q: RunRequest, p: Projection) returns (accepted: bool)
    ensures accepted <==> AcceptsProfile(r, q, p)
  {
    hide ReleaseBuild, ProfileConserved;
    if !HeaderFits(r, q, p, PROFILE_SCHEMA, Some(TOPOLOGY), Some(OBSERVER)) {
      return false;
    }
    var rejection := ValidateProfileTiming(r.samples, r.sampling.samples, r.timing.experimentTotal);
    return rejection.None? && ResultFits(r.result, p);
  }

  /** `validateEngineResult`. */
  method ValidateBenchmarkResult(r: RunResult<BenchmarkSample>, q: RunRequest, p: Projection) returns (accepted: bool)
    ensures accepted <==> AcceptsBenchmark(r, q, p)
  {
    hide ReleaseBuild, BenchmarkConserved;
    if !HeaderFits(r, q, p, BENCHMARK_SCHEMA, None, None) {
      return false;
    }
    var rejection := ValidateBenchmarkTiming(r.samples, r.sampling.samples, r.timing.experimentTotal);
    return rejection.None? && ResultFits(r.result, p);
  }

  // --------------------------------------------------------- the engine's side

  /** What the engine serializes after a successful experiment. */
  function Report<S>(schema: string, topology: Option<string>, observer: Option<string>,
                     q: RunRequest, w: WorkloadSpec, build: EngineBuild, e: Experiment<S>): RunResult<S> {
    RunResult(schema, q.experimentId, q.scenarioName, w.name, BACKEND_SCALAR, q.sampling,
              RunTiming(CLOCK, TIME_UNIT, false, topology, observer, e.experimentTotal), PASSED, build, e.samples,
              Present(Server.WireOf(e.result)))
  }

  lemma OracleResultFits(ops: FloatOps, w: WorkloadSpec, p: Projection)
    requires Ieee(ops) && ValidWorkload(w) && Agreement.Projects(p, w)
    ensures Server.Oracle(ops, w).Ok? && ResultFits(Present(Server.WireOf(Server.Oracle(ops, w).value)), p)
  {
    hide Server.Oracle, Server.WireOf, DecodeResult, Ieee;
    Agreement.OracleResultAccepted(ops, w, p);
  }

  /** Whatever profile experiment the engine completes under a monotone clock, the controller
      that asked for it accepts the report, provided it comes from a release build. */
  lemma ProfileReportAccepted(ops: FloatOps, w: WorkloadSpec, p: Projection, q: RunRequest, build: EngineBuild,
                              at: nat -> nat, e: nat, experiment: Experiment<ProfileSample>)
    requires Ieee(ops) && ValidWorkload(w) && Agreement.Projects(p, w) && q.backend == BACKEND_SCALAR && ReleaseBuild(build)
    requires Server.Oracle(ops, w).Ok? && Monotone(at)
    requires ProfileReport(at, e, q.sampling, Server.Oracle(ops, w).value, Ok(experiment))
    ensures AcceptsProfile(Report(PROFILE_SCHEMA, Some(TOPOLOGY), Some(OBSERVER), q, w, build, experiment), q, p)
  {
    hide Server.Oracle, Server.WireOf, DecodeResult, Ieee, ValidWorkload, ReleaseBuild, ProfileOutcome, Monotone, ProfileConserved;
    OracleResultFits(ops, w, p);
    ProfileAccepted(at, e, q.sampling, Server.Oracle(ops, w).value, experiment);
  }

  lemma BenchmarkReportAccepted(ops: FloatOps, w: WorkloadSpec, p: Projection, q: RunRequest, build: EngineBuild,
                                at: nat -> nat, e: nat, experiment: Experiment<BenchmarkSample>)
    requires Ieee(ops) && ValidWorkload(w) && Agreement.Projects(p, w) && q.backend == BACKEND_SCALAR && ReleaseBuild(build)
    requires Server.Oracle(ops, w).Ok? && Monotone(at)
    requires BenchmarkReport(at, e, q.sampling, Server.Oracle(ops, w).value, Ok(experiment))
    ensures AcceptsBenchmark(Report(BENCHMARK_SCHEMA, None, None, q, w, build, experiment), q, p)
  {
    hide Server.Oracle, Server.WireOf, DecodeResult, Ieee, ValidWorkload, ReleaseBuild, BenchmarkOutcome, Monotone, BenchmarkConserved;
    OracleResultFits(ops, w, p);
    BenchmarkAccepted(at, e, q.sampling, Server.Oracle(ops, w).value, experiment);
  }
}

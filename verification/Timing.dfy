/** The two measurement harnesses of the engine, with their nested clock intervals, and the
    conservation checks the controller applies to what they report. */
module Timing {
  import opened Words
  import opened Floats
  import opened Contracts
  import opened Clocks
  import opened Ratios
  import Aggregates
  import Fusion
  import Generation
  import Scalar
  import Server
  import Stages

  const MAX_WARMUP_ITERATIONS: U32 := 1_000
  const MAX_SAMPLE_ITERATIONS: U32 := 10_000

  datatype Sampling = Sampling(warmup: U32, samples: U32)

  datatype HarnessError =
    | InvalidSampling | InvalidWorkload | DurationOverflow | StageDurationOverflow
    | CorrectnessMismatch | TimingInvariant

  datatype ProfileSample = ProfileSample(
    ordinal: U32, generation: U64, normalize: U64, score: U64, filter: U64, aggregate: U64, stageSum: U64, profileTotal: U64)

  datatype BenchmarkSample = BenchmarkSample(ordinal: U32, generation: U64, pipeline: U64, engineTotal: U64)

  datatype Experiment<T> = Experiment(samples: seq<T>, experimentTotal: U64, result: ResultV1)

  predicate ValidSampling(s: Sampling) {
    s.warmup <= MAX_WARMUP_ITERATIONS && 0 < s.samples <= MAX_SAMPLE_ITERATIONS
  }

  /** `duration_ns`. */
  function DurationNs(d: nat): Result<U64, HarnessError> {
    if d < TWO64 then Ok(d) else Err(DurationOverflow)
  }

  // --------------------------------------------------------- one profile iteration

  /** Clock readings of one profile iteration: it takes twelve. */
  const PROFILE_READS: nat := 12

  function StageSpans(at: nat -> nat, b: nat): seq<nat> {
    [Span(at, b + 1, b + 2), Span(at, b + 3, b + 4), Span(at, b + 5, b + 6), Span(at, b + 7, b + 8), Span(at, b + 9, b + 10)]
  }

  /** What an iteration that starts with reading `b` reports. */
  function ProfileOutcome(at: nat -> nat, b: nat): Result<ProfileSample, HarnessError> {
    var s, total := StageSpans(at, b), Span(at, b, b + 11);
    if s[0] >= TWO64 || s[1] >= TWO64 || s[2] >= TWO64 || s[3] >= TWO64 || s[4] >= TWO64 then Err(DurationOverflow)
    else
      var sum := s[0] + s[1] + s[2] + s[3] + s[4];
      if sum >= TWO64 then Err(StageDurationOverflow)
      else if total >= TWO64 then Err(DurationOverflow)
      else if total < sum then Err(TimingInvariant)
      else Ok(ProfileSample(0, s[0], s[1], s[2], s[3], s[4], sum, total))
  }

  /** Under a monotone clock the nested intervals fit inside the whole, so an iteration fails
      exactly when the whole interval exceeds a word, and never on the timing invariant. */
  lemma ProfileOutcomeExact(at: nat -> nat, b: nat)
    requires Monotone(at)
    ensures ProfileOutcome(at, b).Ok? <==> Span(at, b, b + 11) < TWO64
    ensures ProfileOutcome(at, b) != Err(TimingInvariant)
    ensures ProfileOutcome(at, b).Ok? ==>
              var s := ProfileOutcome(at, b).value;
              && s.stageSum == s.generation + s.normalize + s.score + s.filter + s.aggregate <= s.profileTotal
              && s.profileTotal == Span(at, b, b + 11)
  {
    assert at(b) <= at(b + 1) <= at(b + 2) <= at(b + 3) <= at(b + 4) <= at(b + 5) <= at(b + 6);
    assert at(b + 6) <= at(b + 7) <= at(b + 8) <= at(b + 9) <= at(b + 10) <= at(b + 11);
  }

  /** The time from one reading to a later one; a clock that ran backwards counts as zero. */
  predicate Elapsed(at: nat -> nat, from: nat, to: nat, d: nat) {
    if at(to) >= at(from) then at(from) + d == at(to) else d == 0
  }

  /** Which two readings each field of a profile sample spans, whatever the clock does. */
  predicate ProfileFields(at: nat -> nat, b: nat, s: ProfileSample) {
    && Elapsed(at, b + 1, b + 2, s.generation) && Elapsed(at, b + 3, b + 4, s.normalize) && Elapsed(at, b + 5, b + 6, s.score)
    && Elapsed(at, b + 7, b + 8, s.filter) && Elapsed(at, b + 9, b + 10, s.aggregate) && Elapsed(at, b, b + 11, s.profileTotal)
    && s.stageSum == s.generation + s.normalize + s.score + s.filter + s.aggregate <= s.profileTotal
  }

  lemma ElapsedSpan(at: nat -> nat, from: nat, to: nat, d: nat)
    ensures Elapsed(at, from, to, d) <==> d == Span(at, from, to)
  {
  }

  lemma ProfileSpans(at: nat -> nat, b: nat, s: ProfileSample)
    ensures ProfileFields(at, b, s) <==>
              && [s.generation as nat, s.normalize, s.score, s.filter, s.aggregate] == StageSpans(at, b) && s.profileTotal == Span(at, b, b + 11)
              && s.stageSum == s.generation + s.normalize + s.score + s.filter + s.aggregate <= s.profileTotal
  {
    hide Elapsed, Span;
    ElapsedSpan(at, b + 1, b + 2, s.generation);
    ElapsedSpan(at, b + 3, b + 4, s.normalize);
    ElapsedSpan(at, b + 5, b + 6, s.score);
    ElapsedSpan(at, b + 7, b + 8, s.filter);
    ElapsedSpan(at, b + 9, b + 10, s.aggregate);
    ElapsedSpan(at, b, b + 11, s.profileTotal);
    var spans := StageSpans(at, b);
    assert [s.generation as nat, s.normalize, s.score, s.filter, s.aggregate] == spans <==>
             s.generation == spans[0] && s.normalize == spans[1] && s.score == spans[2] && s.filter == spans[3] && s.aggregate == spans[4];
  }

  /** A successful iteration reports each stage under its own name. */
  lemma ProfileFieldsExact(at: nat -> nat, b: nat)
    requires ProfileOutcome(at, b).Ok?
    ensures ProfileFields(at, b, ProfileOutcome(at, b).value)
  {
    hide ProfileFields, Span;
    var s := ProfileOutcome(at, b).value;
    ProfileSpans(at, b, s);
    assert [s.generation as nat, s.normalize, s.score, s.filter, s.aggregate] == StageSpans(at, b);
  }

  /** Nothing but the stated limits makes an iteration fail. */
  lemma ProfileFieldsSuffice(at: nat -> nat, b: nat, s: ProfileSample)
    requires ProfileFields(at, b, s) && s.ordinal == 0
    ensures ProfileOutcome(at, b) == Ok(s)
  {
    hide ProfileFields, Span;
    ProfileSpans(at, b, s);
    var spans := [s.generation as nat, s.normalize, s.score, s.filter, s.aggregate];
    assert spans == StageSpans(at, b);
    assert StageSpans(at, b)[0] == spans[0] && StageSpans(at, b)[1] == spans[1] && StageSpans(at, b)[2] == spans[2];
    assert StageSpans(at, b)[3] == spans[3] && StageSpans(at, b)[4] == spans[4];
  }

  lemma SumSnoc(v: seq<nat>, x: nat)
    ensures Sum(v + [x]) == Sum(v) + x
  {
    assert (v + [x])[..|v|] == v;
  }

  lemma FiveSum(a: nat, b: nat, c: nat, d: nat, e: nat)
    ensures Sum([a, b, c, d, e]) == a + b + c + d + e
  {
    assert Sum([]) == 0;
    hide Sum;
    SumSnoc([], a);
    SumSnoc([a], b);
    SumSnoc([a, b], c);
    SumSnoc([a, b, c], d);
    SumSnoc([a, b, c, d], e);
    assert [] + [a] == [a] && [a] + [b] == [a, b] && [a, b] + [c] == [a, b, c];
    assert [a, b, c] + [d] == [a, b, c, d] && [a, b, c, d] + [e] == [a, b, c, d, e];
  }

  /** The oracle's result for a validated workload, computed before any timing. */
  predicate Canonical(ops: FloatOps, w: WorkloadSpec, expected: ResultV1)
    requires ValidWorkload(w)
  {
    Server.Oracle(ops, w) == Ok(expected)
  }

  lemma CanonicalRun(ops: FloatOps, w: WorkloadSpec, expected: ResultV1)
    requires ValidWorkload(w) && Canonical(ops, w, expected)
    ensures Stages.ClampDefined(w.pipeline.normalize.clip) && ValidDataset(w.dataset)
    ensures var run := Scalar.Run(ops, w.pipeline, w.dataset.categoryCount, false, Generation.AllRecords(w.dataset));
            run.Ok? && run.value.result == expected
  {
    hide Scalar.Run, Generation.AllRecords;
    Stages.ValidClipDefined(w.pipeline);
  }

  /** `run_iteration` of the stage profile: correctness never fails, whatever the clock. */
  method ProfileIteration(ops: FloatOps, w: WorkloadSpec, expected: ResultV1, clock: Clock) returns (r: Result<ProfileSample, HarnessError>)
    requires ValidWorkload(w) && Canonical(ops, w, expected)
    modifies clock
    ensures r == ProfileOutcome(clock.at, old(clock.ticks))
    ensures r.Ok? ==> clock.ticks == old(clock.ticks) + PROFILE_READS
  {
    hide Canonical, ValidWorkload, ValidDataset, Stages.ClampDefined, Generation.AllRecords, Scalar.Run, Sum;
    CanonicalRun(ops, w, expected);
    var profileStarted := clock.Now();
    var generationStarted := clock.Now();
    var records := Generation.GenerateAll(w.dataset);
    var generationElapsed := clock.Elapsed(generationStarted);
    var generation := DurationNs(generationElapsed);
    if generation.Err? {
      return Err(generation.error);
    }
    var profiled := Fusion.RunMaterializedProfiled(ops, w.pipeline, w.dataset.categoryCount, records, clock);
    var stages := profiled.value.stages;
    var normalize, score, filter, aggregate :=
      DurationNs(stages.normalize), DurationNs(stages.score), DurationNs(stages.filter), DurationNs(stages.aggregate);
    if normalize.Err? || score.Err? || filter.Err? || aggregate.Err? {
      return Err(DurationOverflow);
    }
    FiveSum(generation.value, normalize.value, score.value, filter.value, aggregate.value);
    var stageSum := SumUint64([generation.value, normalize.value, score.value, filter.value, aggregate.value]);
    if stageSum.Err? {
      return Err(StageDurationOverflow);
    }
    if profiled.value.result != expected {
      return Err(CorrectnessMismatch);
    }
    var totalElapsed := clock.Elapsed(profileStarted);
    var profileTotal := DurationNs(totalElapsed);
    if profileTotal.Err? {
      return Err(profileTotal.error);
    }
    if profileTotal.value < stageSum.value {
      return Err(TimingInvariant);
    }
    return Ok(ProfileSample(0, generation.value, normalize.value, score.value, filter.value, aggregate.value, stageSum.value, profileTotal.value));
  }

  // ------------------------------------------------------- one benchmark iteration

  const BENCHMARK_READS: nat := 6

  function BenchmarkOutcome(at: nat -> nat, b: nat): Result<BenchmarkSample, HarnessError> {
    var generation, pipeline, total := Span(at, b + 1, b + 2), Span(at, b + 3, b + 4), Span(at, b, b + 5);
    if generation >= TWO64 || pipeline >= TWO64 || total >= TWO64 then Err(DurationOverflow)
    else Ok(BenchmarkSample(0, generation, pipeline, total))
  }

  lemma BenchmarkOutcomeExact(at: nat -> nat, b: nat)
    requires Monotone(at)
    ensures BenchmarkOutcome(at, b).Ok? <==> Span(at, b, b + 5) < TWO64
    ensures BenchmarkOutcome(at, b).Ok? ==>
              var s := BenchmarkOutcome(at, b).value;
              s.generation + s.pipeline <= s.engineTotal == Span(at, b, b + 5)
  {
    assert at(b) <= at(b + 1) <= at(b + 2) <= at(b + 3) <= at(b + 4) <= at(b + 5);
  }

  /** Which two readings each field of a benchmark sample spans. */
  predicate BenchmarkFields(at: nat -> nat, b: nat, s: BenchmarkSample) {
    Elapsed(at, b + 1, b + 2, s.generation) && Elapsed(at, b + 3, b + 4, s.pipeline) && Elapsed(at, b, b + 5, s.engineTotal)
  }

  lemma BenchmarkFieldsExact(at: nat -> nat, b: nat)
    ensures BenchmarkOutcome(at, b).Ok? ==> BenchmarkFields(at, b, BenchmarkOutcome(at, b).value)
    ensures forall s: BenchmarkSample :: BenchmarkFields(at, b, s) && s.ordinal == 0 ==> BenchmarkOutcome(at, b) == Ok(s)
  {
  }

  method BenchmarkIteration(ops: FloatOps, w: WorkloadSpec, expected: ResultV1, clock: Clock)
    returns (r: Result<BenchmarkSample, HarnessError>)
    requires ValidWorkload(w) && Canonical(ops, w, expected)
    modifies clock
    ensures r == BenchmarkOutcome(clock.at, old(clock.ticks))
    ensures r.Ok? ==> clock.ticks == old(clock.ticks) + BENCHMARK_READS
  {
    hide Canonical, ValidWorkload, ValidDataset, Stages.ClampDefined, Generation.AllRecords, Scalar.Run;
    CanonicalRun(ops, w, expected);
    var engineStarted := clock.Now();
    var generationStarted := clock.Now();
    var records := Generation.GenerateAll(w.dataset);
    var generationElapsed := clock.Elapsed(generationStarted);
    var generation := DurationNs(generationElapsed);
    if generation.Err? {
      return Err(generation.error);
    }
    var pipelineStarted := clock.Now();
    var run := Scalar.RunRecords(ops, w.pipeline, w.dataset.categoryCount, false, records);
    var pipelineElapsed := clock.Elapsed(pipelineStarted);
    var pipeline := DurationNs(pipelineElapsed);
    if pipeline.Err? {
      return Err(pipeline.error);
    }
    if run.value.result != expected {
      return Err(CorrectnessMismatch);
    }
    var totalElapsed := clock.Elapsed(engineStarted);
    var engineTotal := DurationNs(totalElapsed);
    if engineTotal.Err? {
      return Err(engineTotal.error);
    }
    return Ok(BenchmarkSample(0, generation.value, pipeline.value, engineTotal.value));
  }

  // -------------------------------------------------------------- whole experiments

  /** First reading of iteration `i` of an experiment that started with reading `e`. */
  function Start(e: nat, width: nat, i: nat): nat {
    e + 1 + width * i
  }

  lemma StartStep(e: nat, width: nat, i: nat)
    ensures Start(e, width, i + 1) == Start(e, width, i) + width && Start(e, width, 0) == e + 1
  {
  }

  /** What a profile experiment that started with reading `e` must report. */
  ghost predicate ProfileReport(at: nat -> nat, e: nat, sampling: Sampling, expected: ResultV1, r: Result<Experiment<ProfileSample>, HarnessError>) {
    var n := sampling.warmup + sampling.samples;
    var total := Span(at, e, Start(e, PROFILE_READS, n));
    match r
    case Ok(report) =>
      && (forall i :: 0 <= i < n ==> ProfileOutcome(at, Start(e, PROFILE_READS, i)).Ok?)
      && |report.samples| == sampling.samples
      && (forall k :: 0 <= k < sampling.samples ==>
            report.samples[k] == ProfileOutcome(at, Start(e, PROFILE_READS, sampling.warmup + k)).value.(ordinal := k))
      && report.experimentTotal == total && report.result == expected
    case Err(error) =>
      || (exists i :: 0 <= i < n && ProfileOutcome(at, Start(e, PROFILE_READS, i)) == Err(error)
            && forall j :: 0 <= j < i ==> ProfileOutcome(at, Start(e, PROFILE_READS, j)).Ok?)
      || ((forall i :: 0 <= i < n ==> ProfileOutcome(at, Start(e, PROFILE_READS, i)).Ok?) && total >= TWO64 && error == DurationOverflow)
  }

  /** The measured part: warm-ups, retained samples, experiment total. */
  method SampleProfile(ops: FloatOps, w: WorkloadSpec, sampling: Sampling, clock: Clock)
    returns (r: Result<Experiment<ProfileSample>, HarnessError>)
    requires ValidWorkload(w) && ValidSampling(sampling)
    modifies clock
    ensures Server.Oracle(ops, w).Ok? && ProfileReport(clock.at, old(clock.ticks), sampling, Server.Oracle(ops, w).value, r)
  {
    hide ValidWorkload, Scalar.Run, Server.Oracle, ProfileOutcome, Start;
    Server.ValidParts(w);
    OracleSucceeds(ops, w);
    var oracle := Fusion.RunStreaming(ops, w, false);
    OracleIsRun(ops, w);
    var expected := oracle.value.result;
    ghost var e := clock.ticks;
    var started := clock.Now();
    StartStep(e, PROFILE_READS, 0);
    for warmup := 0 to sampling.warmup
      invariant clock.ticks == Start(e, PROFILE_READS, warmup)
      invariant forall i :: 0 <= i < warmup ==> ProfileOutcome(clock.at, Start(e, PROFILE_READS, i)).Ok?
    {
      var sample := ProfileIteration(ops, w, expected, clock);
      if sample.Err? {
        return Err(sample.error);
      }
      StartStep(e, PROFILE_READS, warmup);
    }
    var samples: seq<ProfileSample> := [];
    for ordinal := 0 to sampling.samples
      invariant clock.ticks == Start(e, PROFILE_READS, sampling.warmup + ordinal) && |samples| == ordinal
      invariant forall i :: 0 <= i < sampling.warmup + ordinal ==> ProfileOutcome(clock.at, Start(e, PROFILE_READS, i)).Ok?
      invariant forall k :: 0 <= k < ordinal ==>
                  samples[k] == ProfileOutcome(clock.at, Start(e, PROFILE_READS, sampling.warmup + k)).value.(ordinal := k)
    {
      var sample := ProfileIteration(ops, w, expected, clock);
      if sample.Err? {
        return Err(sample.error);
      }
      StartStep(e, PROFILE_READS, sampling.warmup + ordinal);
      samples := samples + [sample.value.(ordinal := ordinal)];
    }
    var elapsed := clock.Elapsed(started);
    var experimentTotal := DurationNs(elapsed);
    if experimentTotal.Err? {
      return Err(DurationOverflow);
    }
    return Ok(Experiment(samples, experimentTotal.value, expected));
  }

  /** `execute` on a decoded request: the sampling bounds, then the workload, then the run. */
  method ProfileExperiment(ops: FloatOps, w: WorkloadSpec, sampling: Sampling, clock: Clock)
    returns (r: Result<Experiment<ProfileSample>, HarnessError>)
    modifies clock
    ensures !ValidSampling(sampling) ==> r == Err(InvalidSampling) && clock.ticks == old(clock.ticks)
    ensures ValidSampling(sampling) && !ValidWorkload(w) ==> r == Err(InvalidWorkload) && clock.ticks == old(clock.ticks)
    ensures ValidSampling(sampling) && ValidWorkload(w) ==>
              Server.Oracle(ops, w).Ok? && ProfileReport(clock.at, old(clock.ticks), sampling, Server.Oracle(ops, w).value, r)
  {
    hide ValidWorkload, Server.Oracle, ProfileReport;
    if !ValidSampling(sampling) {
      return Err(InvalidSampling);
    }
    var issues := Validate(w);
    if issues != [] {
      return Err(InvalidWorkload);
    }
    r := SampleProfile(ops, w, sampling, clock);
  }

  /** What a benchmark experiment that started with reading `e` must report. */
  ghost predicate BenchmarkReport(at: nat -> nat, e: nat, sampling: Sampling, expected: ResultV1, r: Result<Experiment<BenchmarkSample>, HarnessError>) {
    var n := sampling.warmup + sampling.samples;
    var total := Span(at, e, Start(e, BENCHMARK_READS, n));
    match r
    case Ok(report) =>
      && (forall i :: 0 <= i < n ==> BenchmarkOutcome(at, Start(e, BENCHMARK_READS, i)).Ok?)
      && |report.samples| == sampling.samples
      && (forall k :: 0 <= k < sampling.samples ==>
            report.samples[k] == BenchmarkOutcome(at, Start(e, BENCHMARK_READS, sampling.warmup + k)).value.(ordinal := k))
      && report.experimentTotal == total && report.result == expected
    case Err(error) =>
      || (exists i :: 0 <= i < n && BenchmarkOutcome(at, Start(e, BENCHMARK_READS, i)) == Err(error)
            && forall j :: 0 <= j < i ==> BenchmarkOutcome(at, Start(e, BENCHMARK_READS, j)).Ok?)
      || ((forall i :: 0 <= i < n ==> BenchmarkOutcome(at, Start(e, BENCHMARK_READS, i)).Ok?) && total >= TWO64 && error == DurationOverflow)
  }

  /** The measured part: warm-ups, retained samples, experiment total. */
  method SampleBenchmark(ops: FloatOps, w: WorkloadSpec, sampling: Sampling, clock: Clock)
    returns (r: Result<Experiment<BenchmarkSample>, HarnessError>)
    requires ValidWorkload(w) && ValidSampling(sampling)
    modifies clock
    ensures Server.Oracle(ops, w).Ok? && BenchmarkReport(clock.at, old(clock.ticks), sampling, Server.Oracle(ops, w).value, r)
  {
    hide ValidWorkload, Scalar.Run, Server.Oracle, BenchmarkOutcome, Start;
    Server.ValidParts(w);
    OracleSucceeds(ops, w);
    var oracle := Fusion.RunStreaming(ops, w, false);
    OracleIsRun(ops, w);
    var expected := oracle.value.result;
    ghost var e := clock.ticks;
    var started := clock.Now();
    StartStep(e, BENCHMARK_READS, 0);
    for warmup := 0 to sampling.warmup
      invariant clock.ticks == Start(e, BENCHMARK_READS, warmup)
      invariant forall i :: 0 <= i < warmup ==> BenchmarkOutcome(clock.at, Start(e, BENCHMARK_READS, i)).Ok?
    {
      var sample := BenchmarkIteration(ops, w, expected, clock);
      if sample.Err? {
        return Err(sample.error);
      }
      StartStep(e, BENCHMARK_READS, warmup);
    }
    var samples: seq<BenchmarkSample> := [];
    for ordinal := 0 to sampling.samples
      invariant clock.ticks == Start(e, BENCHMARK_READS, sampling.warmup + ordinal) && |samples| == ordinal
      invariant forall i :: 0 <= i < sampling.warmup + ordinal ==> BenchmarkOutcome(clock.at, Start(e, BENCHMARK_READS, i)).Ok?
      invariant forall k :: 0 <= k < ordinal ==>
                  samples[k] == BenchmarkOutcome(clock.at, Start(e, BENCHMARK_READS, sampling.warmup + k)).value.(ordinal := k)
    {
      var sample := BenchmarkIteration(ops, w, expected, clock);
      if sample.Err? {
        return Err(sample.error);
      }
      StartStep(e, BENCHMARK_READS, sampling.warmup + ordinal);
      samples := samples + [sample.value.(ordinal := ordinal)];
    }
    var elapsed := clock.Elapsed(started);
    var experimentTotal := DurationNs(elapsed);
    if experimentTotal.Err? {
      return Err(DurationOverflow);
    }
    return Ok(Experiment(samples, experimentTotal.value, expected));
  }

  /** `execute` on a decoded request: the sampling bounds, then the workload, then the run. */
  method BenchmarkExperiment(ops: FloatOps, w: WorkloadSpec, sampling: Sampling, clock: Clock)
    returns (r: Result<Experiment<BenchmarkSample>, HarnessError>)
    modifies clock
    ensures !ValidSampling(sampling) ==> r == Err(InvalidSampling) && clock.ticks == old(clock.ticks)
    ensures ValidSampling(sampling) && !ValidWorkload(w) ==> r == Err(InvalidWorkload) && clock.ticks == old(clock.ticks)
    ensures ValidSampling(sampling) && ValidWorkload(w) ==>
              Server.Oracle(ops, w).Ok? && BenchmarkReport(clock.at, old(clock.ticks), sampling, Server.Oracle(ops, w).value, r)
  {
    hide ValidWorkload, Server.Oracle, BenchmarkReport;
    if !ValidSampling(sampling) {
      return Err(InvalidSampling);
    }
    var issues := Validate(w);
    if issues != [] {
      return Err(InvalidWorkload);
    }
    r := SampleBenchmark(ops, w, sampling, clock);
  }

  lemma OracleSucceeds(ops: FloatOps, w: WorkloadSpec)
    requires ValidWorkload(w)
    ensures Server.Oracle(ops, w).Ok?
  {
    hide Scalar.Run, Aggregates.Described, Generation.Batch;
    Aggregates.OracleRun(ops, w, false);
  }

  lemma OracleIsRun(ops: FloatOps, w: WorkloadSpec)
    requires ValidWorkload(w) && Server.Oracle(ops, w).Ok?
    ensures ValidDataset(w.dataset) && Stages.ClampDefined(w.pipeline.normalize.clip)
    ensures var run := Scalar.Run(ops, w.pipeline, w.dataset.categoryCount, false, Generation.AllRecords(w.dataset));
            run.Ok? && Server.Oracle(ops, w) == Ok(run.value.result)
    ensures Canonical(ops, w, Server.Oracle(ops, w).value)
  {
    hide Scalar.Run, Generation.AllRecords;
    Server.ValidParts(w);
  }

  /** Every retained sample of a profile run, by the numbers of the readings it comes from: one
      reading starts the run, each iteration takes twelve, and warm-ups come first. */
  lemma ProfileSamplesExact(at: nat -> nat, e: nat, sampling: Sampling, expected: ResultV1, report: Experiment<ProfileSample>)
    requires ProfileReport(at, e, sampling, expected, Ok(report))
    ensures |report.samples| == sampling.samples && report.result == expected
    ensures forall k :: 0 <= k < sampling.samples ==>
              report.samples[k].ordinal == k && ProfileFields(at, e + 1 + 12 * (sampling.warmup + k), report.samples[k])
    ensures Elapsed(at, e, e + 1 + 12 * (sampling.warmup + sampling.samples), report.experimentTotal)
  {
    hide ProfileOutcome, ProfileFields;
    forall k | 0 <= k < sampling.samples
      ensures report.samples[k].ordinal == k && ProfileFields(at, e + 1 + 12 * (sampling.warmup + k), report.samples[k])
    {
      var b := Start(e, PROFILE_READS, sampling.warmup + k);
      ProfileFieldsExact(at, b);
      ProfileRenumbered(at, b, ProfileOutcome(at, b).value, k);
    }
  }

  lemma ProfileRenumbered(at: nat -> nat, b: nat, s: ProfileSample, k: U32)
    requires ProfileFields(at, b, s)
    ensures ProfileFields(at, b, s.(ordinal := k))
  {
  }

  /** The same for the fused benchmark, whose iterations take six readings. */
  lemma BenchmarkSamplesExact(at: nat -> nat, e: nat, sampling: Sampling, expected: ResultV1, report: Experiment<BenchmarkSample>)
    requires BenchmarkReport(at, e, sampling, expected, Ok(report))
    ensures |report.samples| == sampling.samples && report.result == expected
    ensures forall k :: 0 <= k < sampling.samples ==>
              report.samples[k].ordinal == k && BenchmarkFields(at, e + 1 + 6 * (sampling.warmup + k), report.samples[k])
    ensures Elapsed(at, e, e + 1 + 6 * (sampling.warmup + sampling.samples), report.experimentTotal)
  {
    hide BenchmarkOutcome, BenchmarkFields;
    forall k | 0 <= k < sampling.samples
      ensures report.samples[k].ordinal == k && BenchmarkFields(at, e + 1 + 6 * (sampling.warmup + k), report.samples[k])
    {
      var b := Start(e, BENCHMARK_READS, sampling.warmup + k);
      BenchmarkFieldsExact(at, b);
      BenchmarkRenumbered(at, b, BenchmarkOutcome(at, b).value, k);
    }
  }

  lemma BenchmarkRenumbered(at: nat -> nat, b: nat, s: BenchmarkSample, k: U32)
    requires BenchmarkFields(at, b, s)
    ensures BenchmarkFields(at, b, s.(ordinal := k))
  {
  }

  // ------------------------------------------------------------ conservation

  /** Total length of `n` consecutive iterations that start with iteration `from`. */
  function Retained(at: nat -> nat, e: nat, width: nat, from: nat, n: nat): nat
    requires width > 0
  {
    if n == 0 then 0
    else
      var b := Start(e, width, from + n - 1);
      Retained(at, e, width, from, n - 1) + Span(at, b, b + width - 1)
  }

  /** Iterations never overlap, so together they fit in the experiment. */
  lemma {:induction false} RetainedFits(at: nat -> nat, e: nat, width: nat, from: nat, n: nat)
    requires Monotone(at) && width > 0
    ensures Retained(at, e, width, from, n) <= Span(at, e, Start(e, width, from + n))
    ensures Retained(at, e, width, from, n) + at(Start(e, width, from)) <= at(Start(e, width, from + n))
  {
    hide Start;
    StartAfter(e, width, from);
    StartAfter(e, width, from + n);
    if n > 0 {
      RetainedFits(at, e, width, from, n - 1);
      StartStep(e, width, from + n - 1);
      var b := Start(e, width, from + n - 1);
      assert at(b) <= at(b + width - 1) <= at(b + width);
    }
  }

  lemma StartAfter(e: nat, width: nat, i: nat)
    ensures e < Start(e, width, i)
  {
  }

  /** Every iteration lies inside the experiment. */
  lemma IterationFits(at: nat -> nat, e: nat, width: nat, i: nat, n: nat)
    requires Monotone(at) && width > 0 && i < n
    ensures var b := Start(e, width, i); Span(at, b, b + width - 1) <= Span(at, e, Start(e, width, n))
  {
    var b := Start(e, width, i);
    ProductMonotone(i + 1, n, width);
    assert width * (i + 1) == width * i + width;
    assert e <= b <= b + width - 1 <= Start(e, width, n);
    assert at(e) <= at(b) <= at(b + width - 1) <= at(Start(e, width, n));
  }

  /** With a monotone clock a profile run succeeds exactly when its whole duration fits a
      word; nothing else can go wrong once the request is valid. */
  lemma ProfileRunSucceeds(at: nat -> nat, e: nat, sampling: Sampling, expected: ResultV1, r: Result<Experiment<ProfileSample>, HarnessError>)
    requires Monotone(at) && ProfileReport(at, e, sampling, expected, r)
    ensures r.Ok? <==> Span(at, e, Start(e, PROFILE_READS, sampling.warmup + sampling.samples)) < TWO64
    ensures r.Err? ==> r.error == DurationOverflow || r.error == StageDurationOverflow
  {
    hide ProfileOutcome, Start, Monotone;
    var n := sampling.warmup + sampling.samples;
    forall i | 0 <= i < n
      ensures Span(at, e, Start(e, PROFILE_READS, n)) < TWO64 ==> ProfileOutcome(at, Start(e, PROFILE_READS, i)).Ok?
      ensures ProfileOutcome(at, Start(e, PROFILE_READS, i)).Err? ==>
                ProfileOutcome(at, Start(e, PROFILE_READS, i)).error in {DurationOverflow, StageDurationOverflow}
    {
      IterationFits(at, e, PROFILE_READS, i, n);
      ProfileOutcomeExact(at, Start(e, PROFILE_READS, i));
      ProfileErrors(at, Start(e, PROFILE_READS, i));
    }
  }

  lemma ProfileErrors(at: nat -> nat, b: nat)
    ensures ProfileOutcome(at, b).Err? ==> ProfileOutcome(at, b).error in {DurationOverflow, StageDurationOverflow, TimingInvariant}
  {
  }

  lemma BenchmarkRunSucceeds(at: nat -> nat, e: nat, sampling: Sampling, expected: ResultV1, r: Result<Experiment<BenchmarkSample>, HarnessError>)
    requires Monotone(at) && BenchmarkReport(at, e, sampling, expected, r)
    ensures r.Ok? <==> Span(at, e, Start(e, BENCHMARK_READS, sampling.warmup + sampling.samples)) < TWO64
    ensures r.Err? ==> r.error == DurationOverflow
  {
    hide BenchmarkOutcome, Start, Monotone;
    var n := sampling.warmup + sampling.samples;
    forall i | 0 <= i < n
      ensures Span(at, e, Start(e, BENCHMARK_READS, n)) < TWO64 ==> BenchmarkOutcome(at, Start(e, BENCHMARK_READS, i)).Ok?
      ensures BenchmarkOutcome(at, Start(e, BENCHMARK_READS, i)).Err? ==>
                BenchmarkOutcome(at, Start(e, BENCHMARK_READS, i)).error == DurationOverflow
    {
      IterationFits(at, e, BENCHMARK_READS, i, n);
      BenchmarkOutcomeExact(at, Start(e, BENCHMARK_READS, i));
      BenchmarkErrors(at, Start(e, BENCHMARK_READS, i));
    }
  }

  lemma BenchmarkErrors(at: nat -> nat, b: nat)
    ensures BenchmarkOutcome(at, b).Err? ==> BenchmarkOutcome(at, b).error == DurationOverflow
  {
  }

  // --------------------------------------------------- the controller's checks

  datatype TimingRejection =
    | WrongCount | WrongOrdinal | StageOverflow | StageSumWrong | TotalBelowStages | RetainedOverflow | ExperimentBelowRetained

  function ProfileTotals(samples: seq<ProfileSample>): (t: seq<nat>)
    ensures |t| == |samples| && forall i :: 0 <= i < |t| ==> t[i] == samples[i].profileTotal
  {
    seq(|samples|, i requires 0 <= i < |samples| => samples[i].profileTotal as nat)
  }

  function EngineTotals(samples: seq<BenchmarkSample>): (t: seq<nat>)
    ensures |t| == |samples| && forall i :: 0 <= i < |t| ==> t[i] == samples[i].engineTotal
  {
    seq(|samples|, i requires 0 <= i < |samples| => samples[i].engineTotal as nat)
  }

  predicate ProfileSampleConserved(s: ProfileSample, index: nat) {
    && s.ordinal == index
    && s.generation + s.normalize + s.score + s.filter + s.aggregate == s.stageSum
    && s.stageSum <= s.profileTotal
  }

  predicate BenchmarkSampleConserved(s: BenchmarkSample, index: nat) {
    s.ordinal == index && s.generation + s.pipeline <= s.engineTotal
  }

  ghost predicate ProfileConserved(samples: seq<ProfileSample>, count: nat, experimentTotal: U64) {
    && |samples| == count
    && (forall i :: 0 <= i < |samples| ==> ProfileSampleConserved(samples[i], i))
    && Sum(ProfileTotals(samples)) <= experimentTotal
  }

  ghost predicate BenchmarkConserved(samples: seq<BenchmarkSample>, count: nat, experimentTotal: U64) {
    && |samples| == count
    && (forall i :: 0 <= i < |samples| ==> BenchmarkSampleConserved(samples[i], i))
    && Sum(EngineTotals(samples)) <= experimentTotal
  }

  lemma ProfileTotalsStep(samples: seq<ProfileSample>, k: nat)
    requires k < |samples|
    ensures Sum(ProfileTotals(samples[..k + 1])) == Sum(ProfileTotals(samples[..k])) + samples[k].profileTotal
    ensures Sum(ProfileTotals(samples[..k + 1])) <= Sum(ProfileTotals(samples))
  {
    assert ProfileTotals(samples[..k + 1])[..k] == ProfileTotals(samples[..k]);
    assert ProfileTotals(samples)[..k + 1] == ProfileTotals(samples[..k + 1]);
    SumPrefix(ProfileTotals(samples), k + 1);
  }

  lemma EngineTotalsStep(samples: seq<BenchmarkSample>, k: nat)
    requires k < |samples|
    ensures Sum(EngineTotals(samples[..k + 1])) == Sum(EngineTotals(samples[..k])) + samples[k].engineTotal
    ensures Sum(EngineTotals(samples[..k + 1])) <= Sum(EngineTotals(samples))
  {
    assert EngineTotals(samples[..k + 1])[..k] == EngineTotals(samples[..k]);
    assert EngineTotals(samples)[..k + 1] == EngineTotals(samples[..k + 1]);
    SumPrefix(EngineTotals(samples), k + 1);
  }

  /** The first sample that breaks a rule, and which one. */
  ghost predicate ProfileFaultAt(samples: seq<ProfileSample>, i: nat, why: TimingRejection) {
    && i < |samples| && (forall j :: 0 <= j < i ==> ProfileSampleConserved(samples[j], j))
    && var s := samples[i];
       var stages := s.generation + s.normalize + s.score + s.filter + s.aggregate;
       match why
       case WrongOrdinal => s.ordinal != i
       case StageOverflow => s.ordinal == i && stages >= TWO64
       case StageSumWrong => s.ordinal == i && stages < TWO64 && s.stageSum != stages
       case TotalBelowStages => s.ordinal == i && s.stageSum == stages > s.profileTotal
       case RetainedOverflow => ProfileSampleConserved(s, i) && Sum(ProfileTotals(samples[..i + 1])) >= TWO64
       case _ => false
  }

  /** Why a profile run is refused. */
  ghost predicate ProfileFault(samples: seq<ProfileSample>, count: nat, experimentTotal: U64, why: TimingRejection) {
    match why
    case WrongCount => |samples| != count
    case ExperimentBelowRetained =>
      (forall j :: 0 <= j < |samples| ==> ProfileSampleConserved(samples[j], j)) && experimentTotal < Sum(ProfileTotals(samples)) < TWO64
    case _ => |samples| == count && exists i :: ProfileFaultAt(samples, i, why)
  }

  /** The loop of `validateProfileEngineResult`. */
  method ValidateProfileTiming(samples: seq<ProfileSample>, count: nat, experimentTotal: U64) returns (rejection: Option<TimingRejection>)
    ensures rejection.None? <==> ProfileConserved(samples, count, experimentTotal)
    ensures rejection.Some? ==> ProfileFault(samples, count, experimentTotal, rejection.value)
  {
    hide Sum, ProfileTotals;
    if |samples| != count {
      return Some(WrongCount);
    }
    var retainedTotal: U64 := 0;
    NoProfileTotals();
    for index := 0 to |samples|
      invariant forall i :: 0 <= i < index ==> ProfileSampleConserved(samples[i], i)
      invariant retainedTotal == Sum(ProfileTotals(samples[..index]))
    {
      var sample := samples[index];
      if sample.ordinal != index {
        assert ProfileFaultAt(samples, index, WrongOrdinal);
        return Some(WrongOrdinal);
      }
      FiveSum(sample.generation, sample.normalize, sample.score, sample.filter, sample.aggregate);
      var stages := SumUint64([sample.generation, sample.normalize, sample.score, sample.filter, sample.aggregate]);
      if stages.Err? {
        assert ProfileFaultAt(samples, index, StageOverflow);
        return Some(StageOverflow);
      }
      if sample.stageSum != stages.value {
        assert ProfileFaultAt(samples, index, StageSumWrong);
        return Some(StageSumWrong);
      }
      if sample.profileTotal < stages.value {
        assert ProfileFaultAt(samples, index, TotalBelowStages);
        return Some(TotalBelowStages);
      }
      ProfileTotalsStep(samples, index);
      var overflow: bool;
      retainedTotal, overflow := AddUint64(retainedTotal, sample.profileTotal);
      if overflow {
        assert ProfileFaultAt(samples, index, RetainedOverflow);
        return Some(RetainedOverflow);
      }
    }
    assert samples[..|samples|] == samples;
    if experimentTotal < retainedTotal {
      return Some(ExperimentBelowRetained);
    }
    return None;
  }

  lemma NoProfileTotals()
    ensures forall samples: seq<ProfileSample> :: Sum(ProfileTotals(samples[..0])) == 0
  {
  }

  /** The same for the fused benchmark, whose two boundaries share one overflow check. */
  ghost predicate BenchmarkFaultAt(samples: seq<BenchmarkSample>, i: nat, why: TimingRejection) {
    && i < |samples| && (forall j :: 0 <= j < i ==> BenchmarkSampleConserved(samples[j], j))
    && var s := samples[i];
       match why
       case WrongOrdinal => s.ordinal != i
       case StageOverflow => s.ordinal == i && s.generation + s.pipeline >= TWO64
       case TotalBelowStages => s.ordinal == i && TWO64 > s.generation + s.pipeline > s.engineTotal
       case RetainedOverflow => BenchmarkSampleConserved(s, i) && Sum(EngineTotals(samples[..i + 1])) >= TWO64
       case _ => false
  }

  ghost predicate BenchmarkFault(samples: seq<BenchmarkSample>, count: nat, experimentTotal: U64, why: TimingRejection) {
    match why
    case WrongCount => |samples| != count
    case ExperimentBelowRetained =>
      (forall j :: 0 <= j < |samples| ==> BenchmarkSampleConserved(samples[j], j)) && experimentTotal < Sum(EngineTotals(samples)) < TWO64
    case _ => |samples| == count && exists i :: BenchmarkFaultAt(samples, i, why)
  }

  /** The loop of `validateEngineResult`. */
  method ValidateBenchmarkTiming(samples: seq<BenchmarkSample>, count: nat, experimentTotal: U64) returns (rejection: Option<TimingRejection>)
    ensures rejection.None? <==> BenchmarkConserved(samples, count, experimentTotal)
    ensures rejection.Some? ==> BenchmarkFault(samples, count, experimentTotal, rejection.value)
  {
    hide Sum, EngineTotals;
    if |samples| != count {
      return Some(WrongCount);
    }
    var retainedTotal: U64 := 0;
    NoEngineTotals();
    for index := 0 to |samples|
      invariant forall i :: 0 <= i < index ==> BenchmarkSampleConserved(samples[i], i)
      invariant retainedTotal == Sum(EngineTotals(samples[..index]))
    {
      var sample := samples[index];
      if sample.ordinal != index {
        assert BenchmarkFaultAt(samples, index, WrongOrdinal);
        return Some(WrongOrdinal);
      }
      var boundarySum, overflow := AddUint64(sample.generation, sample.pipeline);
      if overflow {
        assert BenchmarkFaultAt(samples, index, StageOverflow);
        return Some(StageOverflow);
      }
      if sample.engineTotal < boundarySum {
        assert BenchmarkFaultAt(samples, index, TotalBelowStages);
        return Some(TotalBelowStages);
      }
      EngineTotalsStep(samples, index);
      retainedTotal, overflow := AddUint64(retainedTotal, sample.engineTotal);
      if overflow {
        assert BenchmarkFaultAt(samples, index, RetainedOverflow);
        return Some(RetainedOverflow);
      }
    }
    assert samples[..|samples|] == samples;
    if experimentTotal < retainedTotal {
      return Some(ExperimentBelowRetained);
    }
    return None;
  }

  lemma NoEngineTotals()
    ensures forall samples: seq<BenchmarkSample> :: Sum(EngineTotals(samples[..0])) == 0
  {
  }

  // ------------------------------------------------ producer meets validator

  lemma {:induction false} ProfileTotalsRetained(at: nat -> nat, e: nat, from: nat, samples: seq<ProfileSample>)
    requires forall k :: 0 <= k < |samples| ==>
               var b := Start(e, PROFILE_READS, from + k); samples[k].profileTotal == Span(at, b, b + 11)
    ensures Sum(ProfileTotals(samples)) == Retained(at, e, PROFILE_READS, from, |samples|)
  {
    hide Start, Sum, ProfileTotals, Span;
    NoProfileTotals();
    assert samples[..|samples|] == samples;
    if samples == [] {
      assert samples[..0] == [];
    } else {
      var n := |samples| - 1;
      ProfileTotalsRetained(at, e, from, samples[..n]);
      ProfileTotalsStep(samples, n);
      assert samples[..n + 1] == samples;
    }
  }

  lemma {:induction false} EngineTotalsRetained(at: nat -> nat, e: nat, from: nat, samples: seq<BenchmarkSample>)
    requires forall k :: 0 <= k < |samples| ==>
               var b := Start(e, BENCHMARK_READS, from + k); samples[k].engineTotal == Span(at, b, b + 5)
    ensures Sum(EngineTotals(samples)) == Retained(at, e, BENCHMARK_READS, from, |samples|)
  {
    hide Start, Sum, EngineTotals, Span;
    NoEngineTotals();
    assert samples[..|samples|] == samples;
    if samples == [] {
      assert samples[..0] == [];
    } else {
      var n := |samples| - 1;
      EngineTotalsRetained(at, e, from, samples[..n]);
      EngineTotalsStep(samples, n);
      assert samples[..n + 1] == samples;
    }
  }

  /** Every successful profile run passes the controller's conservation checks. */
  lemma ProfileAccepted(at: nat -> nat, e: nat, sampling: Sampling, expected: ResultV1, report: Experiment<ProfileSample>)
    requires Monotone(at) && ProfileReport(at, e, sampling, expected, Ok(report))
    ensures ProfileConserved(report.samples, sampling.samples, report.experimentTotal)
  {
    hide ProfileOutcome, Start, Sum, ProfileTotals, Monotone, Span, Retained;
    forall k | 0 <= k < sampling.samples
      ensures ProfileSampleConserved(report.samples[k], k)
      ensures var b := Start(e, PROFILE_READS, sampling.warmup + k); report.samples[k].profileTotal == Span(at, b, b + 11)
    {
      ProfileOutcomeExact(at, Start(e, PROFILE_READS, sampling.warmup + k));
    }
    ProfileTotalsRetained(at, e, sampling.warmup, report.samples);
    RetainedFits(at, e, PROFILE_READS, sampling.warmup, sampling.samples);
  }

  /** Every successful benchmark run passes the controller's conservation checks. */
  lemma BenchmarkAccepted(at: nat -> nat, e: nat, sampling: Sampling, expected: ResultV1, report: Experiment<BenchmarkSample>)
    requires Monotone(at) && BenchmarkReport(at, e, sampling, expected, Ok(report))
    ensures BenchmarkConserved(report.samples, sampling.samples, report.experimentTotal)
  {
    hide BenchmarkOutcome, Start, Sum, EngineTotals, Monotone, Span, Retained;
    forall k | 0 <= k < sampling.samples
      ensures BenchmarkSampleConserved(report.samples[k], k)
      ensures var b := Start(e, BENCHMARK_READS, sampling.warmup + k); report.samples[k].engineTotal == Span(at, b, b + 5)
    {
      BenchmarkOutcomeExact(at, Start(e, BENCHMARK_READS, sampling.warmup + k));
    }
    EngineTotalsRetained(at, e, sampling.warmup, report.samples);
    RetainedFits(at, e, BENCHMARK_READS, sampling.warmup, sampling.samples);
  }
}

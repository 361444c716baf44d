/** Materialized stage passes and the streaming oracle, both equal to the fused loop. */
module Fusion {
  import opened Words
  import opened Floats
  import opened Contracts
  import opened Stages
  import opened Scalar
  import opened Clocks
  import Generation

  function NormalizeAll(ops: FloatOps, p: NormalizeSpec, records: seq<LogicalRecord>): seq<NormalizedRecord>
    requires ClampDefined(p.clip)
  {
    seq(|records|, i requires 0 <= i < |records| => NormalizeRecord(ops, records[i], p))
  }

  function ScoreAll(ops: FloatOps, p: ScoreSpec, records: seq<NormalizedRecord>): seq<ScoredRecord> {
    seq(|records|, i requires 0 <= i < |records| => ScoreRecord(ops, records[i], p))
  }

  function FilterAll(p: FilterSpec, records: seq<ScoredRecord>): seq<ScoredRecord> {
    if records == [] then [] else
      FilterAll(p, records[..|records| - 1]) + ToSeq(FilterRecord(records[|records| - 1], p))
  }

  /** Three whole-batch passes accept the same records, in the same order, as the
      record-at-a-time composition. */
  lemma {:induction false} StagePassesFuse(ops: FloatOps, p: PipelineSpec, records: seq<LogicalRecord>)
    requires ClampDefined(p.normalize.clip)
    ensures FilterAll(p.filter, ScoreAll(ops, p.score, NormalizeAll(ops, p.normalize, records))) == Accepted(ops, p, records)
  {
    hide NormalizeRecord, ScoreRecord, FilterRecord;
    if records != [] {
      var n := |records| - 1;
      var normalized := NormalizeAll(ops, p.normalize, records);
      var scored := ScoreAll(ops, p.score, normalized);
      StagePassesFuse(ops, p, records[..n]);
      assert NormalizeAll(ops, p.normalize, records[..n]) == normalized[..n];
      assert ScoreAll(ops, p.score, normalized[..n]) == scored[..n];
      assert scored[n] == ScoreRecord(ops, NormalizeRecord(ops, records[n], p.normalize), p.score);
    }
  }

  /** The aggregation pass over an already compacted batch. */
  method AggregateAll(ops: FloatOps, accepted: seq<ScoredRecord>, categoryCount: U32) returns (r: Result<RunOutput, ScalarError>)
    ensures r == Aggregate(ops, accepted, categoryCount, false)
  {
    hide AcceptStep;
    var accumulator := new Accumulator(categoryCount, false);
    for i := 0 to |accepted|
      invariant fresh(accumulator) && fresh(accumulator.histogram) && accumulator.categoryCount == categoryCount
      invariant Aggregate(ops, accepted[..i], categoryCount, false) == Ok(accumulator.Output())
    {
      assert accepted[..i + 1] == accepted[..i] + [accepted[i]];
      AggregateSnoc(ops, accepted[..i], accepted[i], categoryCount, false);
      var outcome := accumulator.Accept(ops, accepted[i]);
      if outcome.Err? {
        AggregateErrorPersists(ops, accepted[..i + 1], accepted[i + 1..], categoryCount, false);
        assert accepted[..i + 1] + accepted[i + 1..] == accepted;
        return Err(outcome.error);
      }
    }
    assert accepted[..|accepted|] == accepted;
    var output := accumulator.Finish();
    r := Ok(output);
  }

  datatype StageDurations = StageDurations(normalize: nat, score: nat, filter: nat, aggregate: nat)
  datatype Profiled = Profiled(result: ResultV1, stages: StageDurations)

  /** The four timed passes. Whatever the clock does, the outcome is the fused one; each
      duration is the interval between its own two readings. */
  method RunMaterializedProfiled(ops: FloatOps, p: PipelineSpec, categoryCount: U32, records: seq<LogicalRecord>, clock: Clock)
    returns (r: Result<Profiled, ScalarError>)
    requires ClampDefined(p.normalize.clip)
    modifies clock
    ensures match Run(ops, p, categoryCount, false, records)
            case Err(e) => r == Err(e)
            case Ok(output) => r.Ok? && r.value.result == output.result
    ensures r.Ok? ==>
      var k := old(clock.ticks);
      && clock.ticks == k + 8
      && r.value.stages == StageDurations(Span(clock.at, k, k + 1), Span(clock.at, k + 2, k + 3),
                                          Span(clock.at, k + 4, k + 5), Span(clock.at, k + 6, k + 7))
  {
    hide Aggregate;
    var normalizeStarted := clock.Now();
    var normalized := NormalizeAll(ops, p.normalize, records);
    var normalize := clock.Elapsed(normalizeStarted);

    var scoreStarted := clock.Now();
    var scored := ScoreAll(ops, p.score, normalized);
    var score := clock.Elapsed(scoreStarted);

    var filterStarted := clock.Now();
    var accepted := FilterAll(p.filter, scored);
    var filter := clock.Elapsed(filterStarted);

    var aggregateStarted := clock.Now();
    StagePassesFuse(ops, p, records);
    var outcome := AggregateAll(ops, accepted, categoryCount);
    if outcome.Err? {
      return Err(outcome.error);
    }
    var aggregate := clock.Elapsed(aggregateStarted);
    r := Ok(Profiled(outcome.value.result, StageDurations(normalize, score, filter, aggregate)));
  }

  /** The oracle's outcome over the first `n` generated records. */
  function RunPrefix(ops: FloatOps, w: WorkloadSpec, collect: bool, n: nat): Result<RunOutput, ScalarError>
    requires ValidDataset(w.dataset) && n <= w.dataset.recordCount && ClampDefined(w.pipeline.normalize.clip)
  {
    Run(ops, w.pipeline, w.dataset.categoryCount, collect, Generation.Batch(w.dataset, 0, n))
  }

  lemma RunPrefixStep(ops: FloatOps, w: WorkloadSpec, collect: bool, n: nat)
    requires ValidDataset(w.dataset) && n < w.dataset.recordCount && ClampDefined(w.pipeline.normalize.clip)
    ensures RunPrefix(ops, w, collect, n + 1)
         == match RunPrefix(ops, w, collect, n)
            case Err(e) => Err(e)
            case Ok(out) => FeedStep(ops, w.pipeline, out, Generation.Record(w.dataset, n), w.dataset.categoryCount)
    ensures RunPrefix(ops, w, collect, n + 1).Err? ==>
              RunPrefix(ops, w, collect, w.dataset.recordCount) == RunPrefix(ops, w, collect, n + 1)
  {
    hide FeedStep, Run, ClampDefined, Generation.Record, Generation.Batch;
    var d, all := w.dataset, Generation.AllRecords(w.dataset);
    Generation.BatchSplit(d, 0, n, d.recordCount);
    Generation.BatchSplit(d, 0, n + 1, d.recordCount);
    Generation.BatchSnoc(d, 0, n);
    assert all[..n] == Generation.Batch(d, 0, n);
    assert all[..n + 1] == Generation.Batch(d, 0, n + 1);
    assert all[n] == Generation.Record(d, n);
    RunSnoc(ops, w.pipeline, d.categoryCount, collect, all, n);
    if RunPrefix(ops, w, collect, n + 1).Err? {
      RunErrorPersists(ops, w.pipeline, d.categoryCount, collect, all, n + 1);
    }
  }

  /** The canonical oracle: the fused stages over the lazily generated records. */
  method RunStreaming(ops: FloatOps, w: WorkloadSpec, collect: bool) returns (r: Result<RunOutput, ScalarError>)
    requires ValidDataset(w.dataset) && ClampDefined(w.pipeline.normalize.clip)
    ensures r == Run(ops, w.pipeline, w.dataset.categoryCount, collect, Generation.AllRecords(w.dataset))
  {
    hide FeedStep, Run, ClampDefined, ValidDataset, Generation.Record, Generation.Batch;
    var records := new Generation.Records(w.dataset);
    var accumulator := new Accumulator(w.dataset.categoryCount, collect);
    EmptyRun(ops, w.pipeline, w.dataset.categoryCount, collect);
    var next := records.Next();
    while next.Some?
      invariant fresh(records) && records.Valid() && records.dataset == w.dataset
      invariant fresh(accumulator) && fresh(accumulator.histogram) && accumulator.categoryCount == w.dataset.categoryCount
      invariant next.Some? ==> records.nextIndex > 0 && next.value == Generation.Record(w.dataset, records.nextIndex - 1)
      invariant next.None? ==> records.nextIndex == w.dataset.recordCount
      invariant RunPrefix(ops, w, collect, records.nextIndex - if next.Some? then 1 else 0) == Ok(accumulator.Output())
      decreases w.dataset.recordCount - records.nextIndex, next.Some?
    {
      RunPrefixStep(ops, w, collect, records.nextIndex - 1);
      var outcome := Feed(ops, w.pipeline, accumulator, next.value);
      if outcome.Err? {
        return Err(outcome.error);
      }
      next := records.Next();
    }
    var output := accumulator.Finish();
    r := Ok(output);
  }
}

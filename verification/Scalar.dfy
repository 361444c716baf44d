/** The scalar oracle: a stateful accumulator, the fused streaming loop, and the
    materialized stage passes used for profiling. */
module Scalar {
  import opened Words
  import opened Floats
  import opened Contracts
  import opened Stages
  import Generation
  import SplitMix

  datatype ScalarError = InvalidGeneratedCategory(recordId: U64, category: U32, categoryCount: U32)

  datatype RunOutput = RunOutput(result: ResultV1, compactedIds: Option<seq<U64>>)

  // ------------------------------------------------------- what is computed

  function EmptyOutput(categoryCount: nat, collect: bool): RunOutput {
    RunOutput(ResultV1(0, ZERO64, seq(categoryCount, _ => 0), 0, 0), if collect then Some([]) else None)
  }

  /** One accepted record folded into the output, or the checked category error. */
  function AcceptStep(ops: FloatOps, out: RunOutput, r: ScoredRecord, categoryCount: U32): Result<RunOutput, ScalarError> {
    var t := out.result;
    if r.category >= |t.histogram| then
      Err(InvalidGeneratedCategory(r.id, r.category, categoryCount))
    else
      Ok(RunOutput(
           ResultV1(WrappingAdd(t.acceptedCount, 1),
                    ops.add64(t.scoreSum, ops.widen(r.score)),
                    t.histogram[r.category := WrappingAdd(t.histogram[r.category], 1)],
                    WrappingAdd(t.acceptedIdSum, r.id),
                    XorWord(t.acceptedIdXor, SplitMix.Mix(r.id))),
           match out.compactedIds case None => None case Some(ids) => Some(ids + [r.id])))
  }

  /** Stable-order aggregation that stops at the first category error. */
  function Aggregate(ops: FloatOps, accepted: seq<ScoredRecord>, categoryCount: U32, collect: bool): Result<RunOutput, ScalarError> {
    if accepted == [] then Ok(EmptyOutput(categoryCount, collect)) else
      var n := |accepted| - 1;
      match Aggregate(ops, accepted[..n], categoryCount, collect)
      case Err(e) => Err(e)
      case Ok(out) => AcceptStep(ops, out, accepted[n], categoryCount)
  }

  function ToSeq<T>(o: Option<T>): seq<T> {
    if o.Some? then [o.value] else []
  }

  /** Stable compaction of the records that pass the three stages. */
  function Accepted(ops: FloatOps, p: PipelineSpec, records: seq<LogicalRecord>): seq<ScoredRecord>
    requires ClampDefined(p.normalize.clip)
  {
    if records == [] then [] else
      var n := |records| - 1;
      Accepted(ops, p, records[..n]) + ToSeq(Process(ops, records[n], p))
  }

  function Run(ops: FloatOps, p: PipelineSpec, categoryCount: U32, collect: bool, records: seq<LogicalRecord>): Result<RunOutput, ScalarError>
    requires ClampDefined(p.normalize.clip)
  {
    Aggregate(ops, Accepted(ops, p, records), categoryCount, collect)
  }

  lemma AcceptedSnoc(ops: FloatOps, p: PipelineSpec, records: seq<LogicalRecord>, n: nat)
    requires ClampDefined(p.normalize.clip) && n < |records|
    ensures Accepted(ops, p, records[..n + 1]) == Accepted(ops, p, records[..n]) + ToSeq(Process(ops, records[n], p))
  {
    assert records[..n + 1][..n] == records[..n];
  }

  lemma AggregateSnoc(ops: FloatOps, accepted: seq<ScoredRecord>, r: ScoredRecord, categoryCount: U32, collect: bool)
    ensures Aggregate(ops, accepted + [r], categoryCount, collect)
         == match Aggregate(ops, accepted, categoryCount, collect)
            case Err(e) => Err(e)
            case Ok(out) => AcceptStep(ops, out, r, categoryCount)
  {
    assert (accepted + [r])[..|accepted|] == accepted;
  }

  /** An error of a prefix is the error of the whole. */
  lemma {:induction false} AggregateErrorPersists(ops: FloatOps, accepted: seq<ScoredRecord>, more: seq<ScoredRecord>, categoryCount: U32, collect: bool)
    requires Aggregate(ops, accepted, categoryCount, collect).Err?
    ensures Aggregate(ops, accepted + more, categoryCount, collect) == Aggregate(ops, accepted, categoryCount, collect)
  {
    if more == [] {
      assert accepted + more == accepted;
    } else {
      var n := |more| - 1;
      AggregateErrorPersists(ops, accepted, more[..n], categoryCount, collect);
      AggregateSnoc(ops, accepted + more[..n], more[n], categoryCount, collect);
      assert accepted + more == accepted + more[..n] + [more[n]];
    }
  }

  lemma {:induction false} AcceptedSplit(ops: FloatOps, p: PipelineSpec, left: seq<LogicalRecord>, right: seq<LogicalRecord>)
    requires ClampDefined(p.normalize.clip)
    ensures Accepted(ops, p, left + right) == Accepted(ops, p, left) + Accepted(ops, p, right)
  {
    hide Process, ClampDefined;
    if right == [] {
      assert left + right == left;
    } else {
      var n := |right| - 1;
      AcceptedSplit(ops, p, left, right[..n]);
      assert (left + right)[..|left + right| - 1] == left + right[..n];
      assert (left + right)[|left + right| - 1] == right[n];
    }
  }

  /** One more record is processed after everything before it. */
  lemma RunSnoc(ops: FloatOps, p: PipelineSpec, categoryCount: U32, collect: bool, records: seq<LogicalRecord>, n: nat)
    requires ClampDefined(p.normalize.clip) && n < |records|
    ensures Run(ops, p, categoryCount, collect, records[..n + 1])
         == match Run(ops, p, categoryCount, collect, records[..n])
            case Err(e) => Err(e)
            case Ok(out) => FeedStep(ops, p, out, records[n], categoryCount)
  {
    hide Process, AcceptStep;
    AcceptedSnoc(ops, p, records, n);
    var before, kept := Accepted(ops, p, records[..n]), Process(ops, records[n], p);
    if kept.Some? {
      AggregateSnoc(ops, before, kept.value, categoryCount, collect);
    } else {
      assert before + ToSeq(kept) == before;
    }
  }

  lemma RunErrorPersists(ops: FloatOps, p: PipelineSpec, categoryCount: U32, collect: bool, records: seq<LogicalRecord>, n: nat)
    requires ClampDefined(p.normalize.clip) && n <= |records|
    requires Run(ops, p, categoryCount, collect, records[..n]).Err?
    ensures Run(ops, p, categoryCount, collect, records) == Run(ops, p, categoryCount, collect, records[..n])
  {
    hide Accepted, Aggregate;
    AcceptedSplit(ops, p, records[..n], records[n..]);
    AggregateErrorPersists(ops, Accepted(ops, p, records[..n]), Accepted(ops, p, records[n..]), categoryCount, collect);
    assert records[..n] + records[n..] == records;
  }

  // ---------------------------------------------------------- the accumulator

  class Accumulator {
    var acceptedCount: U64
    var scoreSum: F64
    var histogram: array<U64>
    var acceptedIdSum: U64
    var acceptedIdXor: U64
    var compactedIds: Option<seq<U64>>
    const categoryCount: U32

    ghost function Output(): RunOutput
      reads this, histogram
    {
      RunOutput(ResultV1(acceptedCount, scoreSum, histogram[..], acceptedIdSum, acceptedIdXor), compactedIds)
    }

    constructor (categoryCount: U32, collect: bool)
      ensures fresh(histogram)
      ensures this.categoryCount == categoryCount && Output() == EmptyOutput(categoryCount, collect)
    {
      acceptedCount, scoreSum, acceptedIdSum, acceptedIdXor := 0, ZERO64, 0, 0;
      histogram := new U64[categoryCount](_ => 0);
      compactedIds := if collect then Some([]) else None;
      this.categoryCount := categoryCount;
    }

    method Accept(ops: FloatOps, r: ScoredRecord) returns (outcome: Result<(), ScalarError>)
      modifies this, histogram
      ensures histogram == old(histogram)
      ensures AcceptStep(ops, old(Output()), r, categoryCount) == match outcome case Ok(_) => Ok(Output()) case Err(e) => Err(e)
      ensures outcome.Err? ==> Output() == old(Output())
    {
      if r.category >= histogram.Length {
        return Err(InvalidGeneratedCategory(r.id, r.category, categoryCount));
      }
      if compactedIds.Some? {
        compactedIds := Some(compactedIds.value + [r.id]);
      }
      acceptedCount := WrappingAdd(acceptedCount, 1);
      scoreSum := ops.add64(scoreSum, ops.widen(r.score));
      histogram[r.category] := WrappingAdd(histogram[r.category], 1);
      acceptedIdSum := WrappingAdd(acceptedIdSum, r.id);
      acceptedIdXor := XorWord(acceptedIdXor, SplitMix.Mix(r.id));
      return Ok(());
    }

    method Finish() returns (output: RunOutput)
      ensures output == Output()
    {
      output := RunOutput(ResultV1(acceptedCount, scoreSum, histogram[..], acceptedIdSum, acceptedIdXor), compactedIds);
    }
  }

  // ------------------------------------------------------- the execution paths

  function FeedStep(ops: FloatOps, p: PipelineSpec, out: RunOutput, record: LogicalRecord, categoryCount: U32): Result<RunOutput, ScalarError>
    requires ClampDefined(p.normalize.clip)
  {
    match Process(ops, record, p)
    case None => Ok(out)
    case Some(kept) => AcceptStep(ops, out, kept, categoryCount)
  }

  /** The body of the fused loop: one record through every stage. */
  method Feed(ops: FloatOps, p: PipelineSpec, accumulator: Accumulator, record: LogicalRecord)
    returns (outcome: Result<(), ScalarError>)
    requires ClampDefined(p.normalize.clip)
    modifies accumulator, accumulator.histogram
    ensures accumulator.histogram == old(accumulator.histogram)
    ensures FeedStep(ops, p, old(accumulator.Output()), record, accumulator.categoryCount)
         == match outcome case Ok(_) => Ok(accumulator.Output()) case Err(e) => Err(e)
  {
    hide NormalizeRecord, ScoreRecord, FilterRecord, AcceptStep;
    var normalized := NormalizeRecord(ops, record, p.normalize);
    var scored := ScoreRecord(ops, normalized, p.score);
    var kept := FilterRecord(scored, p.filter);
    if kept.Some? {
      outcome := accumulator.Accept(ops, kept.value);
    } else {
      outcome := Ok(());
    }
  }

  /** The fused loop over a materialized batch. */
  method RunRecords(ops: FloatOps, p: PipelineSpec, categoryCount: U32, collect: bool, records: seq<LogicalRecord>)
    returns (r: Result<RunOutput, ScalarError>)
    requires ClampDefined(p.normalize.clip)
    ensures r == Run(ops, p, categoryCount, collect, records)
  {
    hide FeedStep, Run;
    var accumulator := new Accumulator(categoryCount, collect);
    EmptyRun(ops, p, categoryCount, collect);
    for i := 0 to |records|
      invariant fresh(accumulator) && fresh(accumulator.histogram) && accumulator.categoryCount == categoryCount
      invariant Run(ops, p, categoryCount, collect, records[..i]) == Ok(accumulator.Output())
    {
      RunSnoc(ops, p, categoryCount, collect, records, i);
      var outcome := Feed(ops, p, accumulator, records[i]);
      if outcome.Err? {
        RunErrorPersists(ops, p, categoryCount, collect, records, i + 1);
        return Err(outcome.error);
      }
    }
    assert records[..|records|] == records;
    var output := accumulator.Finish();
    r := Ok(output);
  }

  lemma EmptyRun(ops: FloatOps, p: PipelineSpec, categoryCount: U32, collect: bool)
    requires ClampDefined(p.normalize.clip)
    ensures Run(ops, p, categoryCount, collect, []) == Ok(EmptyOutput(categoryCount, collect))
  {
  }
}

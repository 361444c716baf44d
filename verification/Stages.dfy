/** The per-record stages between generation and aggregation. */
module Stages {
  import opened Words
  import opened Floats
  import opened Contracts

  datatype NormalizedRecord = NormalizedRecord(id: U64, category: U32, flags: U32, a: F32, b: F32)
  datatype ScoredRecord = ScoredRecord(id: U64, category: U32, score: F32)

  /** `f32::clamp` panics unless its bounds are ordered. */
  predicate ClampDefined(clip: F32) {
    Leq(Val32(Neg32(clip)), Val32(clip))
  }

  function Clamp(x: F32, lo: F32, hi: F32): F32
    requires Leq(Val32(lo), Val32(hi))
  {
    var raised := if Lt(Val32(x), Val32(lo)) then lo else x;
    if Lt(Val32(hi), Val32(raised)) then hi else raised
  }

  function NormalizeFeature(ops: FloatOps, feature: I32, offset: F32, scale: F32, clip: F32): F32
    requires ClampDefined(clip)
  {
    Clamp(ops.mul32(ops.add32(ops.fromI32(feature), offset), scale), Neg32(clip), clip)
  }

  function NormalizeRecord(ops: FloatOps, r: LogicalRecord, p: NormalizeSpec): NormalizedRecord
    requires ClampDefined(p.clip)
  {
    NormalizedRecord(r.id, r.category, r.flags,
                     NormalizeFeature(ops, r.featureA, p.offsetA, p.scaleA, p.clip),
                     NormalizeFeature(ops, r.featureB, p.offsetB, p.scaleB, p.clip))
  }

  function ScoreRecord(ops: FloatOps, r: NormalizedRecord, p: ScoreSpec): ScoredRecord {
    var weighted := ops.add32(ops.mul32(r.a, p.weightA), ops.mul32(r.b, p.weightB));
    var score := ops.add32(weighted, p.bias);
    ScoredRecord(r.id, r.category,
                 if And(r.flags, p.flagMask) == p.flagMask then ops.add32(score, p.flagBonus) else score)
  }

  function FilterRecord(r: ScoredRecord, p: FilterSpec): Option<ScoredRecord> {
    if Leq(Val32(p.minScore), Val32(r.score)) then Some(r) else None
  }

  /** All three stages applied to one record. */
  function Process(ops: FloatOps, r: LogicalRecord, p: PipelineSpec): Option<ScoredRecord>
    requires ClampDefined(p.normalize.clip)
  {
    FilterRecord(ScoreRecord(ops, NormalizeRecord(ops, r, p.normalize), p.score), p.filter)
  }

  /** A validated clip never makes the clamp panic. */
  lemma ValidClipDefined(p: PipelineSpec)
    requires ValidPipeline(p)
    ensures ClampDefined(p.normalize.clip)
  {
    Neg32Negates(p.normalize.clip);
  }

  /** A clamp keeps NaN and otherwise lands between its bounds. */
  lemma ClampBounds(x: F32, clip: F32)
    requires Positive(clip) && ClampDefined(clip)
    ensures var y := Clamp(x, Neg32(clip), clip);
            if Val32(x).NaN? then y == x
            else Leq(Val32(Neg32(clip)), Val32(y)) && Leq(Val32(y), Val32(clip))
  {
    Neg32Negates(clip);
  }

  /** A finite threshold lets through finite and positive infinite scores only, and the
      three stages keep the identity of the record they pass on. */
  lemma AcceptedScore(ops: FloatOps, r: LogicalRecord, p: PipelineSpec)
    requires ClampDefined(p.normalize.clip) && IsFinite32(p.filter.minScore)
    requires Process(ops, r, p).Some?
    ensures var accepted := Process(ops, r, p).value;
            && (Val32(accepted.score).Fin? || Val32(accepted.score).PosInf?)
            && accepted.id == r.id && accepted.category == r.category
  {
  }
}

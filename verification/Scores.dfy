/** What the per-record stages compute, in real arithmetic. Where no step needs rounding the
    stages are the formulas of the workload contract; comparisons and clamping are exact
    everywhere. */
module Scores {
  import opened Words
  import opened Floats
  import opened Contracts
  import opened Bits
  import opened Stages
  import opened Scalar
  import opened Aggregates
  import ScoreSum

  ghost predicate Representable32(v: real) {
    exists b: F32 :: Val32(b) == Fin(v)
  }

  function Times(x: real, y: real): real {
    x * y
  }

  /** An operation whose exact result is a binary32 value delivers that value (IEEE 754-2019
      section 4.3), for conversions, sums and products. */
  ghost predicate Exact32(ops: FloatOps) {
    && (forall n: I32 :: Representable32(n as real) ==> Val32(ops.fromI32(n)) == Fin(n as real))
    && (forall x: F32, y: F32 :: Val32(x).Fin? && Val32(y).Fin? && Representable32(Val32(x).r + Val32(y).r) ==>
          Val32(ops.add32(x, y)) == Fin(Val32(x).r + Val32(y).r))
    && (forall x: F32, y: F32 :: Val32(x).Fin? && Val32(y).Fin? && Representable32(Times(Val32(x).r, Val32(y).r)) ==>
          Val32(ops.mul32(x, y)) == Fin(Times(Val32(x).r, Val32(y).r)))
  }

  lemma ConvertExact(ops: FloatOps, n: I32)
    requires Exact32(ops) && Representable32(n as real)
    ensures Val32(ops.fromI32(n)) == Fin(n as real)
  {
    hide Val32, Representable32;
  }

  lemma AddExact(ops: FloatOps, x: F32, y: F32, sum: real)
    requires Exact32(ops) && Val32(x).Fin? && Val32(y).Fin? && sum == Val32(x).r + Val32(y).r && Representable32(sum)
    ensures Val32(ops.add32(x, y)) == Fin(sum)
  {
    hide Val32, Representable32;
  }

  lemma MulExact(ops: FloatOps, x: F32, y: F32)
    requires Exact32(ops) && Val32(x).Fin? && Val32(y).Fin? && Representable32(Times(Val32(x).r, Val32(y).r))
    ensures Val32(ops.mul32(x, y)) == Fin(Times(Val32(x).r, Val32(y).r))
  {
    hide Val32, Representable32;
  }

  // ---------------------------------------------------------------- clamping

  function Limited(v: real, low: real, high: real): real {
    if v < low then low else if v > high then high else v
  }

  /** A clamp to [-clip, clip], exactly: NaN stays, infinities land on the ends, and a finite
      value is limited. */
  lemma ClampExact(x: F32, clip: F32)
    requires Positive(clip) && ClampDefined(clip)
    ensures var (y, c) := (Val32(Clamp(x, Neg32(clip), clip)), Val32(clip).r);
            match Val32(x)
            case NaN => y == NaN
            case NegInf => y == Fin(-c)
            case PosInf => y == Fin(c)
            case Fin(v) => y == Fin(Limited(v, -c, c))
  {
    hide Val32;
    Neg32Negates(clip);
  }

  // ------------------------------------------------------------- normalization

  /** No step of this normalization rounds. */
  ghost predicate NormalizesExactly(feature: I32, offset: real, scale: real) {
    var shifted := feature as real + offset;
    Representable32(feature as real) && Representable32(shifted) && Representable32(Times(shifted, scale))
  }

  /** A normalized feature is `(feature + offset) * scale`, limited to [-clip, clip]. */
  lemma NormalizeExact(ops: FloatOps, feature: I32, offset: F32, scale: F32, clip: F32)
    requires Exact32(ops) && Positive(clip) && ClampDefined(clip) && Val32(offset).Fin? && Val32(scale).Fin?
    requires NormalizesExactly(feature, Val32(offset).r, Val32(scale).r)
    ensures Val32(NormalizeFeature(ops, feature, offset, scale, clip))
         == Fin(Limited(Times(feature as real + Val32(offset).r, Val32(scale).r), -Val32(clip).r, Val32(clip).r))
  {
    hide Val32, Exact32, Representable32, Clamp, Positive, ClampDefined, Times;
    var shifted := feature as real + Val32(offset).r;
    ConvertExact(ops, feature);
    AddExact(ops, ops.fromI32(feature), offset, shifted);
    MulExact(ops, ops.add32(ops.fromI32(feature), offset), scale);
    ClampExact(ops.mul32(ops.add32(ops.fromI32(feature), offset), scale), clip);
  }

  // ------------------------------------------------------------------ scoring

  predicate FiniteScoring(p: ScoreSpec) {
    Val32(p.weightA).Fin? && Val32(p.weightB).Fin? && Val32(p.bias).Fin? && Val32(p.flagBonus).Fin?
  }

  /** The score of two normalized features: the weighted sum, the bias, and the bonus exactly
      when every flag of the mask is set. */
  ghost function TotalScore(a: real, b: real, flags: U32, p: ScoreSpec): real
    requires FiniteScoring(p)
  {
    Times(a, Val32(p.weightA).r) + Times(b, Val32(p.weightB).r) + Val32(p.bias).r
    + if Covers(flags, p.flagMask) then Val32(p.flagBonus).r else 0.0
  }

  /** No step of this scoring rounds. */
  ghost predicate ScoresExactly(a: real, b: real, flags: U32, p: ScoreSpec)
    requires FiniteScoring(p)
  {
    var (u, v) := (Times(a, Val32(p.weightA).r), Times(b, Val32(p.weightB).r));
    && Representable32(u) && Representable32(v) && Representable32(u + v)
    && Representable32(u + v + Val32(p.bias).r) && Representable32(TotalScore(a, b, flags, p))
  }

  lemma ScoreExact(ops: FloatOps, r: NormalizedRecord, p: ScoreSpec, a: real, b: real)
    requires Exact32(ops) && Val32(r.a) == Fin(a) && Val32(r.b) == Fin(b) && FiniteScoring(p)
    requires ScoresExactly(a, b, r.flags, p)
    ensures Val32(ScoreRecord(ops, r, p).score) == Fin(TotalScore(a, b, r.flags, p))
  {
    hide Val32, Exact32, Representable32, And, Covers, Times;
    MaskCovered(r.flags, p.flagMask);
    var u, v := Times(a, Val32(p.weightA).r), Times(b, Val32(p.weightB).r);
    MulExact(ops, r.a, p.weightA);
    MulExact(ops, r.b, p.weightB);
    var weighted := ops.add32(ops.mul32(r.a, p.weightA), ops.mul32(r.b, p.weightB));
    AddExact(ops, ops.mul32(r.a, p.weightA), ops.mul32(r.b, p.weightB), u + v);
    AddExact(ops, weighted, p.bias, u + v + Val32(p.bias).r);
    if Covers(r.flags, p.flagMask) {
      AddExact(ops, ops.add32(weighted, p.bias), p.flagBonus, TotalScore(a, b, r.flags, p));
    }
  }

  // ---------------------------------------------------------------- filtering

  /** A scored record passes exactly when its score reaches the threshold; infinities compare
      as expected and NaN never passes. A record that passes is passed on unchanged. */
  lemma FilterExact(r: ScoredRecord, p: FilterSpec)
    requires Val32(p.minScore).Fin?
    ensures FilterRecord(r, p).Some? <==>
              match Val32(r.score)
              case NaN => false
              case NegInf => false
              case PosInf => true
              case Fin(v) => v >= Val32(p.minScore).r
    ensures FilterRecord(r, p).Some? ==> FilterRecord(r, p).value == r
  {
    hide Val32;
  }

  // ------------------------------------------------------------ the three stages

  ghost predicate FiniteParameters(p: PipelineSpec) {
    && Val32(p.normalize.offsetA).Fin? && Val32(p.normalize.scaleA).Fin?
    && Val32(p.normalize.offsetB).Fin? && Val32(p.normalize.scaleB).Fin? && Positive(p.normalize.clip)
    && FiniteScoring(p.score) && Val32(p.filter.minScore).Fin?
  }

  ghost function NormalizedA(r: LogicalRecord, p: PipelineSpec): real
    requires FiniteParameters(p)
  {
    Limited(Times(r.featureA as real + Val32(p.normalize.offsetA).r, Val32(p.normalize.scaleA).r),
            -Val32(p.normalize.clip).r, Val32(p.normalize.clip).r)
  }

  ghost function NormalizedB(r: LogicalRecord, p: PipelineSpec): real
    requires FiniteParameters(p)
  {
    Limited(Times(r.featureB as real + Val32(p.normalize.offsetB).r, Val32(p.normalize.scaleB).r),
            -Val32(p.normalize.clip).r, Val32(p.normalize.clip).r)
  }

  /** The score of a generated record under a workload's parameters. */
  ghost function RecordScore(r: LogicalRecord, p: PipelineSpec): real
    requires FiniteParameters(p)
  {
    TotalScore(NormalizedA(r, p), NormalizedB(r, p), r.flags, p.score)
  }

  ghost predicate ProcessesExactly(r: LogicalRecord, p: PipelineSpec)
    requires FiniteParameters(p)
  {
    && NormalizesExactly(r.featureA, Val32(p.normalize.offsetA).r, Val32(p.normalize.scaleA).r)
    && NormalizesExactly(r.featureB, Val32(p.normalize.offsetB).r, Val32(p.normalize.scaleB).r)
    && ScoresExactly(NormalizedA(r, p), NormalizedB(r, p), r.flags, p.score)
  }

  lemma ValidIsFinite(p: PipelineSpec)
    requires ValidPipeline(p)
    ensures FiniteParameters(p) && ClampDefined(p.normalize.clip)
  {
    ValidClipDefined(p);
  }

  /** Where nothing rounds, a record is accepted exactly when its score reaches the threshold,
      and it is passed on under its own identity with exactly that score. */
  lemma ProcessExact(ops: FloatOps, r: LogicalRecord, p: PipelineSpec)
    requires Exact32(ops) && ValidPipeline(p)
    ensures FiniteParameters(p) && ClampDefined(p.normalize.clip)
    ensures ProcessesExactly(r, p) ==>
              && (Process(ops, r, p).Some? <==> RecordScore(r, p) >= Val32(p.filter.minScore).r)
              && (Process(ops, r, p).Some? ==>
                    var s := Process(ops, r, p).value;
                    s.id == r.id && s.category == r.category && Val32(s.score) == Fin(RecordScore(r, p)))
  {
    hide Val32, Exact32, Representable32, ValidPipeline, Positive, NormalizeFeature, FilterRecord, TotalScore, Limited, Leq, Times;
    ValidIsFinite(p);
    if ProcessesExactly(r, p) {
      var n := NormalizeRecord(ops, r, p.normalize);
      NormalizeExact(ops, r.featureA, p.normalize.offsetA, p.normalize.scaleA, p.normalize.clip);
      NormalizeExact(ops, r.featureB, p.normalize.offsetB, p.normalize.scaleB, p.normalize.clip);
      ScoreExact(ops, n, p.score, NormalizedA(r, p), NormalizedB(r, p));
      FilterExact(ScoreRecord(ops, n, p.score), p.filter);
    }
  }

  // --------------------------------------------------------------- the score sum

  /** The real sum of finite scores. */
  ghost function RealSum(accepted: seq<ScoredRecord>): real {
    if accepted == [] then 0.0 else
      var last := Val32(accepted[|accepted| - 1].score);
      RealSum(accepted[..|accepted| - 1]) + if last.Fin? then last.r else 0.0
  }

  /** Where no partial sum rounds, the binary64 sum is the real sum of all scores. */
  lemma {:induction false} ScoreSumExact(ops: FloatOps, accepted: seq<ScoredRecord>)
    requires Ieee(ops) && forall i :: 0 <= i < |accepted| ==> Val32(accepted[i].score).Fin?
    requires forall n :: 0 <= n <= |accepted| ==> Representable(RealSum(accepted[..n]))
    ensures Val64(ScoreFold(ops, accepted)) == Fin(RealSum(accepted))
  {
    hide Val32, Val64, Ieee, Representable;
    if accepted == [] {
      ZeroValue();
    } else {
      var n := |accepted| - 1;
      var before := accepted[..n];
      assert forall k :: 0 <= k <= n ==> before[..k] == accepted[..k];
      ScoreSumExact(ops, before);
      ScoreSum.FiniteSum(ops, ScoreFold(ops, before), accepted[n].score);
      assert accepted[..n + 1] == accepted;
      Kept(ops, RealSum(accepted));
    }
  }

  lemma Kept(ops: FloatOps, v: real)
    requires Ieee(ops) && Representable(v)
    ensures ops.round64(v) == Fin(v)
  {
    hide Representable;
  }

  // ------------------------------------------------------------------- witnesses

  /** Some binary32 encoding of a real number that has one. */
  ghost function Nearest(v: real): F32 {
    if Representable32(v) then
      var b: F32 :| Val32(b) == Fin(v);
      b
    else 0
  }

  ghost function Sum32(x: F32, y: F32): F32 {
    match (Val32(x), Val32(y)) case (Fin(u), Fin(v)) => Nearest(u + v) case _ => 0
  }

  ghost function Product32(x: F32, y: F32): F32 {
    match (Val32(x), Val32(y)) case (Fin(u), Fin(v)) => Nearest(Times(u, v)) case _ => 0
  }

  /** Operations that round nothing they need not round. */
  ghost function ExactOps(): FloatOps {
    FloatOps(n => Nearest(n as real), (x, y) => Sum32(x, y), (x, y) => Product32(x, y), _ => 0, (_, _) => 0, _ => NaN)
  }

  lemma NearestKeeps(v: real)
    requires Representable32(v)
    ensures Val32(Nearest(v)) == Fin(v)
  {
    hide Val32;
  }

  lemma Sum32Keeps(x: F32, y: F32)
    requires Val32(x).Fin? && Val32(y).Fin? && Representable32(Val32(x).r + Val32(y).r)
    ensures Val32(Sum32(x, y)) == Fin(Val32(x).r + Val32(y).r)
  {
    hide Val32, Nearest, Representable32;
    NearestKeeps(Val32(x).r + Val32(y).r);
  }

  lemma Product32Keeps(x: F32, y: F32)
    requires Val32(x).Fin? && Val32(y).Fin? && Representable32(Times(Val32(x).r, Val32(y).r))
    ensures Val32(Product32(x, y)) == Fin(Times(Val32(x).r, Val32(y).r))
  {
    hide Val32, Nearest, Representable32, Times;
    NearestKeeps(Times(Val32(x).r, Val32(y).r));
  }

  /** The exactness of binary32 operations is assumed of something that exists. */
  lemma ExactOpsExist()
    ensures Exact32(ExactOps())
  {
    hide Val32, Nearest, Representable32, Sum32, Product32, Times;
    var ops := ExactOps();
    forall n: I32 | Representable32(n as real)
      ensures Val32(ops.fromI32(n)) == Fin(n as real)
    {
      NearestKeeps(n as real);
    }
    forall x: F32, y: F32 | Val32(x).Fin? && Val32(y).Fin? && Representable32(Val32(x).r + Val32(y).r)
      ensures Val32(ops.add32(x, y)) == Fin(Val32(x).r + Val32(y).r)
    {
      Sum32Keeps(x, y);
    }
    forall x: F32, y: F32 | Val32(x).Fin? && Val32(y).Fin? && Representable32(Times(Val32(x).r, Val32(y).r))
      ensures Val32(ops.mul32(x, y)) == Fin(Times(Val32(x).r, Val32(y).r))
    {
      Product32Keeps(x, y);
    }
  }

  /** Literal encodings and their values: both signs, a fraction, the ends and the specials. */
  lemma Encodings()
    ensures Val32(0) == Fin(0.0) && Val32(0x3F80_0000) == Fin(1.0) && Val32(0x4020_0000) == Fin(2.5)
    ensures Val32(0xC000_0000) == Fin(-2.0) && Val32(1) == Fin(Exp2(-149))
    ensures Val32(0x7F80_0000) == PosInf && Val32(0xFF80_0000) == NegInf && Val32(0x7FC0_0000) == NaN
    ensures Val64(0x3FF0_0000_0000_0000) == Fin(1.0) && Val64(0xC004_0000_0000_0000) == Fin(-2.5)
    ensures Val64(0x7FF0_0000_0000_0000) == PosInf && Val64(0xFFF0_0000_0000_0000) == NegInf && Val64(0x7FF8_0000_0000_0000) == NaN
  {
    Powers();
    assert 1.0 as real * Exp2(-149) == Exp2(-149);
    hide Exp2;
  }

  lemma Powers()
    ensures TWO23 as real * Exp2(-23) == 1.0 && Exp2(-22) == 2.0 * Exp2(-23)
    ensures TWO52 as real * Exp2(-52) == 1.0 && Exp2(-51) == 2.0 * Exp2(-52)
  {
    Exp2Step(-23);
    Exp2Step(-52);
    Pow2Of8();
    Pow2Of64();
    Pow2Of52();
    assert Exp2(0) == 1.0 && Pow2(3) == 8 && Pow2(7) == 128;
    hide Exp2, Pow2;
    Pow2Add(16, 7);
    Exp2Plus(-23, 23);
    Exp2Plus(-52, 52);
  }
}

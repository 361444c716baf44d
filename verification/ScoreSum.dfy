/** The score sum of an oracle run is never NaN or negative infinity. */
module ScoreSum {
  import opened Words
  import opened Floats
  import opened Contracts
  import opened Stages
  import opened Scalar
  import opened Aggregates
  import Generation

  predicate Acceptable(score: F32) {
    Val32(score).Fin? || Val32(score).PosInf?
  }

  ghost predicate SomeInfinite(accepted: seq<ScoredRecord>) {
    exists i :: 0 <= i < |accepted| && Val32(accepted[i].score).PosInf?
  }

  /** Monotone rounding cannot leave an interval with representable ends. */
  lemma RoundedWithin(ops: FloatOps, exact: real, bound: real)
    requires Ieee(ops) && Representable(bound) && Representable(-bound) && -bound <= exact <= bound
    ensures ops.round64(exact).Fin? && -bound <= ops.round64(exact).r <= bound
  {
    hide Val32, Val64, Representable;
    assert Leq(ops.round64(-bound), ops.round64(exact)) && Leq(ops.round64(exact), ops.round64(bound));
  }

  lemma FiniteSum(ops: FloatOps, sum: F64, score: F32)
    requires Ieee(ops) && Val64(sum).Fin? && Val32(score).Fin?
    ensures Val64(ops.add64(sum, ops.widen(score))) == ops.round64(Val64(sum).r + Val32(score).r)
  {
    hide Val32, Val64, Representable;
    var addend := ops.widen(score);
    assert Val64(addend) == Val32(score);
  }

  lemma NextBound(n: nat, c: real, sum: real, addend: real)
    requires -(n as real * c) <= sum <= n as real * c && -c <= addend <= c
    ensures -((n + 1) as real * c) <= sum + addend <= (n + 1) as real * c
  {
    assert (n + 1) as real * c == n as real * c + c;
  }

  /** One finite binary32 addend moves the bound from n to n + 1 multiples of 2^128. */
  lemma FiniteStep(ops: FloatOps, sum: F64, score: F32, n: nat)
    requires Ieee(ops) && n + 1 < TWO53
    requires Val64(sum).Fin? && -(n as real * Ceiling32()) <= Val64(sum).r <= n as real * Ceiling32()
    requires Val32(score).Fin?
    ensures var v := Val64(ops.add64(sum, ops.widen(score)));
            v.Fin? && -((n + 1) as real * Ceiling32()) <= v.r <= (n + 1) as real * Ceiling32()
  {
    hide Val32, Val64, Ceiling32, Ieee;
    Finite32Bounded(score);
    BoundRepresentable(n + 1);
    FiniteSum(ops, sum, score);
    NextBound(n, Ceiling32(), Val64(sum).r, Val32(score).r);
    RoundedWithin(ops, Val64(sum).r + Val32(score).r, (n + 1) as real * Ceiling32());
  }

  /** A positive infinity, on either side, makes the sum positive infinity. */
  lemma InfiniteStep(ops: FloatOps, sum: F64, score: F32)
    requires Ieee(ops) && Acceptable(score)
    requires (Val64(sum).Fin? && Val32(score).PosInf?) || Val64(sum).PosInf?
    ensures Val64(ops.add64(sum, ops.widen(score))) == PosInf
  {
    hide Val32, Val64;
    var addend := ops.widen(score);
    assert Val64(addend) == Val32(score);
  }

  /** The running sum stays within n * 2^128, or is +infinity from the first infinite
      score on; nothing else can happen. */
  lemma {:induction false} ScoreFoldValue(ops: FloatOps, accepted: seq<ScoredRecord>)
    requires Ieee(ops) && |accepted| < TWO53
    requires forall i :: 0 <= i < |accepted| ==> Acceptable(accepted[i].score)
    ensures var v := Val64(ScoreFold(ops, accepted));
            if SomeInfinite(accepted) then v == PosInf
            else v.Fin? && -(|accepted| as real * Ceiling32()) <= v.r <= |accepted| as real * Ceiling32()
  {
    hide Val32, Val64, Ceiling32, Ieee;
    if accepted == [] {
      ZeroValue();
    } else {
      var n := |accepted| - 1;
      var before := accepted[..n];
      ScoreFoldValue(ops, before);
      var sum, score := ScoreFold(ops, before), accepted[n].score;
      assert Acceptable(score);
      InfinitePrefix(accepted, n);
      if SomeInfinite(before) || Val32(score).PosInf? {
        InfiniteStep(ops, sum, score);
      } else {
        FiniteStep(ops, sum, score, n);
      }
    }
  }

  lemma InfinitePrefix(accepted: seq<ScoredRecord>, n: nat)
    requires n < |accepted|
    ensures |accepted| == n + 1 ==> (SomeInfinite(accepted) <==> SomeInfinite(accepted[..n]) || Val32(accepted[n].score).PosInf?)
  {
    hide Val32;
    if SomeInfinite(accepted[..n]) {
      var i :| 0 <= i < |accepted[..n]| && Val32(accepted[..n][i].score).PosInf?;
      assert accepted[i] == accepted[..n][i];
    }
    if SomeInfinite(accepted) && |accepted| == n + 1 {
      var i :| 0 <= i < |accepted| && Val32(accepted[i].score).PosInf?;
      assert i < n ==> accepted[..n][i] == accepted[i];
    }
  }

  /** For every valid workload the oracle's score sum is finite unless a +infinity score
      was accepted, and +infinity exactly then: never NaN, never negative infinity. */
  lemma OracleScoreSum(ops: FloatOps, w: WorkloadSpec)
    requires Ieee(ops) && ValidWorkload(w)
    ensures ClampDefined(w.pipeline.normalize.clip)
    ensures var accepted := Accepted(ops, w.pipeline, Generation.AllRecords(w.dataset));
            var v := Val64(ScoreFold(ops, accepted));
            (v.PosInf? <==> SomeInfinite(accepted)) && (v.Fin? || v.PosInf?)
  {
    hide Val32, Val64, Ieee, Ceiling32, Generation.Batch;
    ValidClipDefined(w.pipeline);
    AcceptedFromBatch(ops, w.pipeline, w.dataset, w.dataset.recordCount);
    ScoreFoldValue(ops, Accepted(ops, w.pipeline, Generation.AllRecords(w.dataset)));
  }
}

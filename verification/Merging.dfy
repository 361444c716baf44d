/** Integer aggregates are determined by single records and by what concatenation does to
    them: partial aggregates of any split combine to the aggregate of the whole. */
module Merging {
  import opened Words
  import opened Floats
  import opened Contracts
  import opened Stages
  import opened Scalar
  import opened Aggregates
  import SplitMix

  lemma XorZeroWord(x: U64)
    ensures XorWord(x, 0) == x && XorWord(0, x) == x
  {
    XorZero(x);
    XorSymmetric(x, 0);
  }

  /** One record: its own bin, its own identifier, its own mixed identifier. */
  lemma AggregateSingle(ops: FloatOps, r: ScoredRecord, categoryCount: U32)
    requires r.category < categoryCount
    ensures Aggregate(ops, [r], categoryCount, true)
         == Ok(RunOutput(ResultV1(1, ops.add64(ZERO64, ops.widen(r.score)), seq(categoryCount, c => if c == r.category then 1 else 0),
                                  r.id, SplitMix.Mix(r.id)), Some([r.id])))
  {
    hide SplitMix.Mix;
    assert [r][..0] == [];
    XorZeroWord(SplitMix.Mix(r.id));
    var out := EmptyOutput(categoryCount, true);
    assert out.result.histogram[r.category := 1] == seq(categoryCount, c => if c == r.category then 1 else 0);
    assert Aggregate(ops, [], categoryCount, true) == Ok(out);
    assert Aggregate(ops, [r], categoryCount, true) == AcceptStep(ops, out, r, categoryCount);
    assert [] + [r.id] == [r.id];
  }

  lemma {:induction false} FoldsJoin(a: seq<ScoredRecord>, b: seq<ScoredRecord>)
    ensures IdTotal(a + b) == IdTotal(a) + IdTotal(b)
    ensures MixedXor(a + b) == XorWord(MixedXor(a), MixedXor(b))
    ensures forall c: nat :: CountIn(a + b, c) == CountIn(a, c) + CountIn(b, c)
  {
    hide SplitMix.Mix, Xor;
    if b == [] {
      assert a + b == a;
      XorZeroWord(MixedXor(a));
    } else {
      var n := |b| - 1;
      FoldsJoin(a, b[..n]);
      FoldsSnoc(a + b[..n], b[n]);
      FoldsSnoc(b[..n], b[n]);
      assert b == b[..n] + [b[n]];
      assert a + b == a + b[..n] + [b[n]];
      XorAssociative(MixedXor(a), MixedXor(b[..n]), SplitMix.Mix(b[n].id));
    }
  }

  lemma WrappedJoin(x: nat, y: nat)
    ensures WrappingAdd(x % TWO64, y % TWO64) == (x + y) % TWO64
  {
  }

  /** The integer fields of two partial outputs, combined. */
  ghost predicate Combines(x: RunOutput, y: RunOutput, z: RunOutput) {
    var (a, b, c) := (x.result, y.result, z.result);
    && c.acceptedCount == WrappingAdd(a.acceptedCount, b.acceptedCount)
    && c.acceptedIdSum == WrappingAdd(a.acceptedIdSum, b.acceptedIdSum)
    && c.acceptedIdXor == XorWord(a.acceptedIdXor, b.acceptedIdXor)
    && |a.histogram| == |b.histogram| == |c.histogram|
    && (forall i :: 0 <= i < |c.histogram| ==> c.histogram[i] == WrappingAdd(a.histogram[i], b.histogram[i]))
    && x.compactedIds.Some? && y.compactedIds.Some? && z.compactedIds == Some(x.compactedIds.value + y.compactedIds.value)
  }

  /** Aggregating a whole batch gives what aggregating its two parts gives, combined. */
  lemma AggregateMerges(ops: FloatOps, a: seq<ScoredRecord>, b: seq<ScoredRecord>, categoryCount: U32)
    requires InDomain(a, categoryCount) && InDomain(b, categoryCount)
    ensures var (x, y, z) := (Aggregate(ops, a, categoryCount, true), Aggregate(ops, b, categoryCount, true),
                              Aggregate(ops, a + b, categoryCount, true));
            x.Ok? && y.Ok? && z.Ok? && Combines(x.value, y.value, z.value)
  {
    hide Aggregate, IdTotal, MixedXor, CountIn, XorWord, WrappingAdd, ScoreFold;
    assert InDomain(a + b, categoryCount);
    AggregateDescribed(ops, a, categoryCount, true);
    AggregateDescribed(ops, b, categoryCount, true);
    AggregateDescribed(ops, a + b, categoryCount, true);
    FoldsJoin(a, b);
    WrappedJoin(|a|, |b|);
    WrappedJoin(IdTotal(a), IdTotal(b));
    forall c: nat
      ensures (CountIn(a, c) + CountIn(b, c)) % TWO64 == WrappingAdd(CountIn(a, c) % TWO64, CountIn(b, c) % TWO64)
    {
      WrappedJoin(CountIn(a, c), CountIn(b, c));
    }
    assert Ids(a + b) == Ids(a) + Ids(b);
  }
}

/** What an aggregation means: every integer field is a mathematical fold over the
    accepted records, insensitive to their order. */
module Aggregates {
  import opened Words
  import opened Floats
  import opened Contracts
  import opened Stages
  import opened Scalar
  import Generation
  import SplitMix

  // ---------------------------------------------------------- reference folds

  /** Accepted records of one category. */
  function CountIn(accepted: seq<ScoredRecord>, category: nat): (n: nat)
    ensures n <= |accepted|
  {
    if accepted == [] then 0 else
      var last := |accepted| - 1;
      CountIn(accepted[..last], category) + if accepted[last].category == category then 1 else 0
  }

  function IdTotal(accepted: seq<ScoredRecord>): nat {
    if accepted == [] then 0 else IdTotal(accepted[..|accepted| - 1]) + accepted[|accepted| - 1].id
  }

  function MixedXor(accepted: seq<ScoredRecord>): U64 {
    if accepted == [] then 0 else
      XorWord(MixedXor(accepted[..|accepted| - 1]), SplitMix.Mix(accepted[|accepted| - 1].id))
  }

  /** The order-sensitive binary64 sum. */
  function ScoreFold(ops: FloatOps, accepted: seq<ScoredRecord>): F64 {
    if accepted == [] then ZERO64 else
      ops.add64(ScoreFold(ops, accepted[..|accepted| - 1]), ops.widen(accepted[|accepted| - 1].score))
  }

  function Ids(accepted: seq<ScoredRecord>): seq<U64> {
    seq(|accepted|, i requires 0 <= i < |accepted| => accepted[i].id)
  }

  function Histogram(accepted: seq<ScoredRecord>, categoryCount: nat): seq<U64> {
    seq(categoryCount, c requires 0 <= c < categoryCount => CountIn(accepted, c) % TWO64)
  }

  ghost predicate InDomain(accepted: seq<ScoredRecord>, categoryCount: nat) {
    forall i :: 0 <= i < |accepted| ==> accepted[i].category < categoryCount
  }

  /** The output described field by field. */
  function Described(ops: FloatOps, accepted: seq<ScoredRecord>, categoryCount: nat, collect: bool): RunOutput {
    RunOutput(ResultV1(|accepted| % TWO64, ScoreFold(ops, accepted), Histogram(accepted, categoryCount),
                       IdTotal(accepted) % TWO64, MixedXor(accepted)),
              if collect then Some(Ids(accepted)) else None)
  }

  lemma HistogramSnoc(accepted: seq<ScoredRecord>, r: ScoredRecord, categoryCount: nat)
    requires r.category < categoryCount
    ensures var before := Histogram(accepted, categoryCount);
            Histogram(accepted + [r], categoryCount) == before[r.category := WrappingAdd(before[r.category], 1)]
  {
    assert (accepted + [r])[..|accepted|] == accepted;
    forall c | 0 <= c < categoryCount
      ensures CountIn(accepted + [r], c) == CountIn(accepted, c) + if c == r.category then 1 else 0
    {
    }
  }

  lemma WrappedSum(total: nat, more: nat)
    ensures WrappingAdd(total % TWO64, more) == (total + more) % TWO64
  {
  }

  lemma FoldsSnoc(a: seq<ScoredRecord>, r: ScoredRecord)
    ensures IdTotal(a + [r]) == IdTotal(a) + r.id
    ensures MixedXor(a + [r]) == XorWord(MixedXor(a), SplitMix.Mix(r.id))
    ensures forall c: nat :: CountIn(a + [r], c) == CountIn(a, c) + if r.category == c then 1 else 0
  {
    assert (a + [r])[..|a|] == a;
  }

  lemma ScoreFoldSnoc(ops: FloatOps, a: seq<ScoredRecord>, r: ScoredRecord)
    ensures ScoreFold(ops, a + [r]) == ops.add64(ScoreFold(ops, a), ops.widen(r.score))
  {
    assert (a + [r])[..|a|] == a;
  }

  lemma DescribedSnoc(ops: FloatOps, accepted: seq<ScoredRecord>, r: ScoredRecord, categoryCount: U32, collect: bool)
    requires r.category < categoryCount
    ensures AcceptStep(ops, Described(ops, accepted, categoryCount, collect), r, categoryCount)
         == Ok(Described(ops, accepted + [r], categoryCount, collect))
  {
    hide Histogram, CountIn, IdTotal, MixedXor, ScoreFold, SplitMix.Mix, XorWord, WrappingAdd;
    HistogramSnoc(accepted, r, categoryCount);
    HistogramLength(accepted, categoryCount);
    FoldsSnoc(accepted, r);
    ScoreFoldSnoc(ops, accepted, r);
    WrappedSum(|accepted|, 1);
    WrappedSum(IdTotal(accepted), r.id);
    assert Ids(accepted + [r]) == Ids(accepted) + [r.id];
  }

  lemma HistogramLength(accepted: seq<ScoredRecord>, categoryCount: nat)
    ensures |Histogram(accepted, categoryCount)| == categoryCount
  {
  }

  /** Inside the category domain aggregation succeeds with the described output. */
  lemma {:induction false} AggregateDescribed(ops: FloatOps, accepted: seq<ScoredRecord>, categoryCount: U32, collect: bool)
    requires InDomain(accepted, categoryCount)
    ensures Aggregate(ops, accepted, categoryCount, collect) == Ok(Described(ops, accepted, categoryCount, collect))
  {
    if accepted == [] {
      assert Histogram([], categoryCount) == seq(categoryCount, _ => 0);
      assert Ids([]) == [];
    } else {
      hide AcceptStep, Described;
      var n := |accepted| - 1;
      AggregateDescribed(ops, accepted[..n], categoryCount, collect);
      DescribedSnoc(ops, accepted[..n], accepted[n], categoryCount, collect);
      assert accepted == accepted[..n] + [accepted[n]];
    }
  }

  /** Outside the domain it reports the first offending record. */
  lemma AggregateRejects(ops: FloatOps, accepted: seq<ScoredRecord>, i: nat, categoryCount: U32, collect: bool)
    requires i < |accepted| && InDomain(accepted[..i], categoryCount) && accepted[i].category >= categoryCount
    ensures Aggregate(ops, accepted, categoryCount, collect)
         == Err(InvalidGeneratedCategory(accepted[i].id, accepted[i].category, categoryCount))
  {
    hide Aggregate;
    AggregateDescribed(ops, accepted[..i], categoryCount, collect);
    AggregateSnoc(ops, accepted[..i], accepted[i], categoryCount, collect);
    HistogramLength(accepted[..i], categoryCount);
    assert accepted[..i + 1] == accepted[..i] + [accepted[i]];
    AggregateErrorPersists(ops, accepted[..i + 1], accepted[i + 1..], categoryCount, collect);
    assert accepted[..i + 1] + accepted[i + 1..] == accepted;
  }

  // --------------------------------------------------------- histogram total

  function Total(counts: seq<nat>): nat {
    if counts == [] then 0 else Total(counts[..|counts| - 1]) + counts[|counts| - 1]
  }

  lemma {:induction false} TotalUpdate(counts: seq<nat>, k: nat, value: nat)
    requires k < |counts|
    ensures Total(counts[k := value]) == Total(counts) - counts[k] + value
  {
    var n := |counts| - 1;
    if k == n {
      assert counts[k := value][..n] == counts[..n];
    } else {
      TotalUpdate(counts[..n], k, value);
      assert counts[k := value][..n] == counts[..n][k := value];
    }
  }

  lemma {:induction false} TotalZeros(n: nat)
    ensures Total(seq(n, _ => 0)) == 0
  {
    if n > 0 {
      TotalZeros(n - 1);
      assert seq(n, _ => 0)[..n - 1] == seq(n - 1, _ => 0);
    }
  }

  /** Below 2^64 records no bin wraps and the bins total the accepted count. */
  lemma {:induction false} HistogramConserves(accepted: seq<ScoredRecord>, categoryCount: nat)
    requires |accepted| < TWO64 && InDomain(accepted, categoryCount)
    ensures forall c :: 0 <= c < categoryCount ==> Histogram(accepted, categoryCount)[c] == CountIn(accepted, c)
    ensures Total(Histogram(accepted, categoryCount)) == |accepted|
  {
    if accepted == [] {
      TotalZeros(categoryCount);
      assert Histogram([], categoryCount) == seq(categoryCount, _ => 0);
    } else {
      var n := |accepted| - 1;
      var before, r := accepted[..n], accepted[n];
      HistogramConserves(before, categoryCount);
      assert accepted == before + [r];
      HistogramSnoc(before, r, categoryCount);
      TotalUpdate(Histogram(before, categoryCount), r.category, CountIn(before, r.category) + 1);
    }
  }

  // ----------------------------------------------------- order insensitivity

  /** Agreement of every integer fold. */
  ghost predicate SameIntegers(a: seq<ScoredRecord>, b: seq<ScoredRecord>) {
    && |a| == |b| && IdTotal(a) == IdTotal(b) && MixedXor(a) == MixedXor(b)
    && forall c: nat :: CountIn(a, c) == CountIn(b, c)
  }

  lemma SwapLast(a: seq<ScoredRecord>, x: ScoredRecord, y: ScoredRecord)
    ensures SameIntegers(a + [x] + [y], a + [y] + [x])
  {
    hide SplitMix.Mix, XorWord, IdTotal, MixedXor, CountIn;
    FoldsSnoc(a, x);
    FoldsSnoc(a + [x], y);
    FoldsSnoc(a, y);
    FoldsSnoc(a + [y], x);
    XorWordSwap(MixedXor(a), SplitMix.Mix(x.id), SplitMix.Mix(y.id));
  }

  lemma XorWordSwap(a: U64, x: U64, y: U64)
    ensures XorWord(XorWord(a, x), y) == XorWord(XorWord(a, y), x)
  {
    XorAssociative(a, x, y);
    XorAssociative(a, y, x);
    XorSymmetric(x, y);
  }

  lemma SameIntegersSnoc(a: seq<ScoredRecord>, b: seq<ScoredRecord>, r: ScoredRecord)
    requires SameIntegers(a, b)
    ensures SameIntegers(a + [r], b + [r])
  {
    FoldsSnoc(a, r);
    FoldsSnoc(b, r);
  }

  function Without<T>(s: seq<T>, k: nat): seq<T>
    requires k < |s|
  {
    s[..k] + s[k + 1..]
  }

  lemma WithoutInit<T>(a: seq<T>, k: nat)
    requires k < |a| - 1
    ensures a[..|a| - 1] + [a[|a| - 1]] == a
    ensures Without(a, k) == Without(a[..|a| - 1], k) + [a[|a| - 1]]
  {
  }

  /** Any record can be aggregated last. */
  lemma {:induction false} MoveToEnd(a: seq<ScoredRecord>, k: nat)
    requires k < |a|
    ensures SameIntegers(a, Without(a, k) + [a[k]])
  {
    var n := |a| - 1;
    if k == n {
      assert Without(a, k) + [a[k]] == a;
      SameIntegersReflexive(a);
    } else {
      hide SameIntegers, Without;
      var init, x, y := a[..n], a[k], a[n];
      var w := Without(init, k);
      MoveToEnd(init, k);
      SameIntegersSnoc(init, w + [x], y);
      SwapLast(w, x, y);
      WithoutInit(a, k);
      SameIntegersJoin(a, w + [x] + [y], w + [y] + [x]);
    }
  }

  lemma MultisetWithout<T>(s: seq<T>, k: nat)
    requires k < |s|
    ensures multiset(s) == multiset(Without(s, k)) + multiset{s[k]}
  {
    assert s == s[..k] + [s[k]] + s[k + 1..];
  }

  /** The last element of `a` can be taken out of any permutation of `a`. */
  lemma PeelPermutation<T>(a: seq<T>, b: seq<T>) returns (k: nat)
    requires multiset(a) == multiset(b) && a != []
    ensures k < |b| && b[k] == a[|a| - 1]
    ensures multiset(a[..|a| - 1]) == multiset(Without(b, k))
  {
    var n := |a| - 1;
    assert a[n] in multiset(b);
    k :| 0 <= k < |b| && b[k] == a[n];
    MultisetWithout(a, n);
    MultisetWithout(b, k);
    assert Without(a, n) == a[..n];
    assert multiset(a[..n]) == multiset(a) - multiset{a[n]};
    assert multiset(Without(b, k)) == multiset(b) - multiset{a[n]};
  }

  lemma EmptyPermutation<T>(a: seq<T>, b: seq<T>)
    requires multiset(a) == multiset(b) && a == []
    ensures b == []
  {
    assert |b| == |multiset(b)| == 0;
  }

  lemma SameIntegersReflexive(a: seq<ScoredRecord>)
    ensures SameIntegers(a, a)
  {
  }

  lemma SameIntegersJoin(a: seq<ScoredRecord>, b: seq<ScoredRecord>, c: seq<ScoredRecord>)
    requires SameIntegers(a, c) && SameIntegers(b, c)
    ensures SameIntegers(a, b)
  {
    hide IdTotal, MixedXor, CountIn;
  }

  /** Reordering the accepted records changes no integer field. */
  lemma {:induction false} IntegersIgnoreOrder(a: seq<ScoredRecord>, b: seq<ScoredRecord>)
    requires multiset(a) == multiset(b)
    ensures SameIntegers(a, b)
    decreases |a|
  {
    hide SameIntegers;
    if a == [] {
      EmptyPermutation(a, b);
      SameIntegersReflexive(a);
    } else {
      var last := |a| - 1;
      var k := PeelPermutation(a, b);
      IntegersIgnoreOrder(a[..last], Without(b, k));
      SameIntegersSnoc(a[..last], Without(b, k), a[last]);
      MoveToEnd(b, k);
      assert a == a[..last] + [a[last]];
      SameIntegersJoin(a, b, Without(b, k) + [a[last]]);
    }
  }

  lemma {:induction false} AcceptedMoveToEnd(ops: FloatOps, p: PipelineSpec, records: seq<LogicalRecord>, k: nat)
    requires ClampDefined(p.normalize.clip) && k < |records|
    ensures multiset(Accepted(ops, p, records)) == multiset(Accepted(ops, p, Without(records, k))) + multiset(ToSeq(Process(ops, records[k], p)))
  {
    hide Process, Accepted;
    var left, right := records[..k], records[k + 1..];
    AcceptedSplit(ops, p, left + [records[k]], right);
    AcceptedSplit(ops, p, left, right);
    AcceptedSnoc(ops, p, records, k);
    assert records[..k + 1] == left + [records[k]];
    assert records == left + [records[k]] + right;
  }

  /** Reordering the input records reorders, and neither loses nor adds, accepted ones; so
      no integer field of the run depends on the order of the records. */
  lemma {:induction false} AcceptedIgnoresOrder(ops: FloatOps, p: PipelineSpec, a: seq<LogicalRecord>, b: seq<LogicalRecord>)
    requires ClampDefined(p.normalize.clip) && multiset(a) == multiset(b)
    ensures multiset(Accepted(ops, p, a)) == multiset(Accepted(ops, p, b))
    ensures SameIntegers(Accepted(ops, p, a), Accepted(ops, p, b))
    decreases |a|
  {
    hide SameIntegers, Process;
    if a == [] {
      EmptyPermutation(a, b);
    } else {
      var k := PeelPermutation(a, b);
      AcceptedIgnoresOrder(ops, p, a[..|a| - 1], Without(b, k));
      assert Without(a, |a| - 1) == a[..|a| - 1];
      AcceptedMoveToEnd(ops, p, a, |a| - 1);
      AcceptedMoveToEnd(ops, p, b, k);
    }
    IntegersIgnoreOrder(Accepted(ops, p, a), Accepted(ops, p, b));
  }

  /** Replacing one accepted ID by a different one always changes the xor checksum. */
  lemma XorDetectsReplacement(a: seq<ScoredRecord>, k: nat, other: ScoredRecord)
    requires k < |a|
    ensures MixedXor(a[k := other]) == MixedXor(a) <==> other.id == a[k].id
  {
    hide SplitMix.Mix, XorWord, MixedXor;
    var b := a[k := other];
    assert Without(b, k) == Without(a, k);
    MoveToEnd(a, k);
    MoveToEnd(b, k);
    FoldsSnoc(Without(a, k), a[k]);
    FoldsSnoc(Without(a, k), other);
    SplitMix.XorWordInjective(SplitMix.Mix(a[k].id), SplitMix.Mix(other.id), MixedXor(Without(a, k)));
    SplitMix.MixIsPermutation(a[k].id, other.id);
  }

  // -------------------------------------------------------- whole-run results

  /** Everything the accepted records of a generated batch satisfy. */
  lemma {:induction false} AcceptedFromBatch(ops: FloatOps, p: PipelineSpec, d: DatasetSpec, n: nat)
    requires ValidDataset(d) && ClampDefined(p.normalize.clip) && IsFinite32(p.filter.minScore) && n <= d.recordCount
    ensures var accepted := Accepted(ops, p, Generation.Batch(d, 0, n));
            && |accepted| <= n && InDomain(accepted, d.categoryCount)
            && (forall i :: 0 <= i < |accepted| ==> accepted[i].id < n)
            && (forall i, j :: 0 <= i < j < |accepted| ==> accepted[i].id < accepted[j].id)
            && (forall i :: 0 <= i < |accepted| ==> Val32(accepted[i].score).Fin? || Val32(accepted[i].score).PosInf?)
  {
    hide Process, Val32, Generation.Record;
    if n > 0 {
      AcceptedFromBatch(ops, p, d, n - 1);
      var batch := Generation.Batch(d, 0, n);
      Generation.BatchSnoc(d, 0, n - 1);
      AcceptedSnoc(ops, p, batch, n - 1);
      assert batch[..n] == batch;
      assert batch[..n - 1] == Generation.Batch(d, 0, n - 1);
      var r := batch[n - 1];
      GeneratedRecord(d, n - 1);
      if Process(ops, r, p).Some? {
        AcceptedScore(ops, r, p);
      }
    }
  }

  lemma GeneratedRecord(d: DatasetSpec, i: nat)
    requires ValidDataset(d) && i < d.recordCount
    ensures Generation.Record(d, i).id == i && Generation.Record(d, i).category < d.categoryCount
  {
  }

  /** An index is among the collected IDs exactly when its record passes the stages. */
  lemma {:induction false} CollectedExactly(ops: FloatOps, p: PipelineSpec, d: DatasetSpec, n: nat, i: nat)
    requires ValidDataset(d) && ClampDefined(p.normalize.clip) && i < n <= d.recordCount
    ensures i in Ids(Accepted(ops, p, Generation.Batch(d, 0, n))) <==> Process(ops, Generation.Record(d, i), p).Some?
  {
    hide Process, Generation.Record;
    var batch := Generation.Batch(d, 0, n);
    Generation.BatchSnoc(d, 0, n - 1);
    AcceptedSnoc(ops, p, batch, n - 1);
    assert batch[..n] == batch;
    assert batch[..n - 1] == Generation.Batch(d, 0, n - 1);
    var before, last := Accepted(ops, p, Generation.Batch(d, 0, n - 1)), Process(ops, batch[n - 1], p);
    IdsConcat(before, ToSeq(last));
    GeneratedRecord(d, n - 1);
    ProcessKeepsId(ops, batch[n - 1], p);
    var all := Ids(before) + Ids(ToSeq(last));
    assert Ids(ToSeq(last)) == if last.Some? then [(n - 1) as U64] else [];
    assert i in all <==> i in Ids(before) || i in Ids(ToSeq(last));
    if i < n - 1 {
      CollectedExactly(ops, p, d, n - 1, i);
    } else {
      IdsBelow(ops, p, d, n - 1);
    }
  }

  lemma IdsConcat(a: seq<ScoredRecord>, b: seq<ScoredRecord>)
    ensures Ids(a + b) == Ids(a) + Ids(b)
  {
  }

  lemma ProcessKeepsId(ops: FloatOps, r: LogicalRecord, p: PipelineSpec)
    requires ClampDefined(p.normalize.clip)
    ensures Process(ops, r, p).Some? ==> Process(ops, r, p).value.id == r.id
  {
  }

  lemma {:induction false} IdsBelow(ops: FloatOps, p: PipelineSpec, d: DatasetSpec, n: nat)
    requires ValidDataset(d) && ClampDefined(p.normalize.clip) && n <= d.recordCount
    ensures forall id :: id in Ids(Accepted(ops, p, Generation.Batch(d, 0, n))) ==> id < n
  {
    hide Process, Generation.Record;
    if n > 0 {
      IdsBelow(ops, p, d, n - 1);
      var batch := Generation.Batch(d, 0, n);
      Generation.BatchSnoc(d, 0, n - 1);
      AcceptedSnoc(ops, p, batch, n - 1);
      assert batch[..n] == batch;
      assert batch[..n - 1] == Generation.Batch(d, 0, n - 1);
      IdsConcat(Accepted(ops, p, batch[..n - 1]), ToSeq(Process(ops, batch[n - 1], p)));
      GeneratedRecord(d, n - 1);
      ProcessKeepsId(ops, batch[n - 1], p);
    }
  }

  /** Collected IDs come out in strictly ascending order, so none is collected twice. */
  lemma {:induction false} CollectedAscending(ops: FloatOps, p: PipelineSpec, d: DatasetSpec, n: nat)
    requires ValidDataset(d) && ClampDefined(p.normalize.clip) && n <= d.recordCount
    ensures var ids := Ids(Accepted(ops, p, Generation.Batch(d, 0, n)));
            forall i, j :: 0 <= i < j < |ids| ==> ids[i] < ids[j]
  {
    hide Process, Generation.Record;
    if n > 0 {
      CollectedAscending(ops, p, d, n - 1);
      IdsBelow(ops, p, d, n - 1);
      var batch := Generation.Batch(d, 0, n);
      Generation.BatchSnoc(d, 0, n - 1);
      AcceptedSnoc(ops, p, batch, n - 1);
      assert batch[..n] == batch;
      assert batch[..n - 1] == Generation.Batch(d, 0, n - 1);
      IdsConcat(Accepted(ops, p, batch[..n - 1]), ToSeq(Process(ops, batch[n - 1], p)));
      GeneratedRecord(d, n - 1);
      ProcessKeepsId(ops, batch[n - 1], p);
      LastId(Ids(Accepted(ops, p, batch[..n - 1])), Process(ops, batch[n - 1], p), n - 1);
    }
  }

  lemma LastId(ids: seq<U64>, last: Option<ScoredRecord>, id: U64)
    requires forall i, j :: 0 <= i < j < |ids| ==> ids[i] < ids[j]
    requires (forall i :: i in ids ==> i < id) && (last.Some? ==> last.value.id == id)
    ensures var all := ids + Ids(ToSeq(last)); forall i, j :: 0 <= i < j < |all| ==> all[i] < all[j]
  {
    assert forall i :: 0 <= i < |ids| ==> ids[i] in ids;
  }

  /** The canonical run of a valid workload: it never fails, and every field of its output
      is the described one whether or not the accepted IDs are collected. */
  lemma OracleRun(ops: FloatOps, w: WorkloadSpec, collect: bool)
    requires ValidWorkload(w)
    ensures ClampDefined(w.pipeline.normalize.clip)
    ensures var accepted := Accepted(ops, w.pipeline, Generation.AllRecords(w.dataset));
            && |accepted| <= w.dataset.recordCount
            && Run(ops, w.pipeline, w.dataset.categoryCount, collect, Generation.AllRecords(w.dataset))
               == Ok(Described(ops, accepted, w.dataset.categoryCount, collect))
  {
    hide Described, Generation.Batch;
    ValidClipDefined(w.pipeline);
    AcceptedFromBatch(ops, w.pipeline, w.dataset, w.dataset.recordCount);
    AggregateDescribed(ops, Accepted(ops, w.pipeline, Generation.AllRecords(w.dataset)), w.dataset.categoryCount, collect);
  }

  /** Collecting the IDs is a pure diagnostic. */
  lemma CollectingChangesNothing(ops: FloatOps, p: PipelineSpec, categoryCount: U32, records: seq<LogicalRecord>)
    requires ClampDefined(p.normalize.clip)
    ensures var (plain, collected) := (Run(ops, p, categoryCount, false, records), Run(ops, p, categoryCount, true, records));
            if plain.Ok? then collected.Ok? && collected.value.result == plain.value.result && plain.value.compactedIds == None
            else collected == plain
  {
    AggregateCollectIrrelevant(ops, Accepted(ops, p, records), categoryCount);
  }

  lemma {:induction false} AggregateCollectIrrelevant(ops: FloatOps, accepted: seq<ScoredRecord>, categoryCount: U32)
    ensures var (plain, collected) := (Aggregate(ops, accepted, categoryCount, false), Aggregate(ops, accepted, categoryCount, true));
            if plain.Ok? then collected.Ok? && collected.value.result == plain.value.result && plain.value.compactedIds == None
            else collected == plain
  {
    if accepted != [] {
      AggregateCollectIrrelevant(ops, accepted[..|accepted| - 1], categoryCount);
    }
  }
}

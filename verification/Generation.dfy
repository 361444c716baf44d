/** Deterministic record generation: random access first, ranges and the lazy iterator
    on top of it. */
module Generation {
  import opened Words
  import opened Contracts
  import opened Ratios
  import SplitMix

  const CATEGORY_SELECTOR: U64 := 0
  const FEATURE_A: U64 := 1
  const FEATURE_B: U64 := 2
  const FLAGS: U64 := 3
  const HOTSPOT_FALLBACK: U64 := 4

  datatype GenerationError = InvalidRange(start: U64, end: U64, recordCount: U64)

  function Draw(d: DatasetSpec, index: U64, field: U64): U64 {
    SplitMix.Sample(d.seed, index, field)
  }

  function Feature(d: DatasetSpec, index: U64, field: U64): (value: I32)
    requires ValidDataset(d)
    ensures d.featureMin <= value < d.featureMax
  {
    d.featureMin + Draw(d, index, field) % (d.featureMax - d.featureMin)
  }

  /** Steps over the hot category. */
  function FallbackCategory(slot: nat, hot: nat): nat {
    slot + if slot >= hot then 1 else 0
  }

  function Category(d: DatasetSpec, index: U64): (category: U32)
    requires ValidDataset(d)
    ensures category < d.categoryCount
  {
    var selector := Draw(d, index, CATEGORY_SELECTOR);
    match d.distribution
    case Uniform => selector % d.categoryCount
    case Hotspot(hot, bps) =>
      if d.categoryCount == 1 then 0
      else if selector % BASIS_POINTS_MAX < bps then hot
      else FallbackCategory(Draw(d, index, HOTSPOT_FALLBACK) % (d.categoryCount - 1), hot)
  }

  function Flags(d: DatasetSpec, index: U64): (flags: U32)
    ensures flags <= 1
  {
    if Draw(d, index, FLAGS) % BASIS_POINTS_MAX < d.flagProbabilityBps then 1 else 0
  }

  function Record(d: DatasetSpec, index: U64): LogicalRecord
    requires ValidDataset(d)
  {
    LogicalRecord(index, Category(d, index), Feature(d, index, FEATURE_A), Feature(d, index, FEATURE_B), Flags(d, index))
  }

  function RecordAt(d: DatasetSpec, index: U64): Option<LogicalRecord>
    requires ValidDataset(d)
  {
    if index < d.recordCount then Some(Record(d, index)) else None
  }

  /** The records of the index range `[lo, hi)`. */
  function Batch(d: DatasetSpec, lo: nat, hi: nat): (records: seq<LogicalRecord>)
    requires ValidDataset(d) && lo <= hi <= d.recordCount
    ensures |records| == hi - lo
    ensures forall k :: 0 <= k < hi - lo ==> RecordAt(d, lo + k) == Some(records[k])
  {
    seq(hi - lo, k requires 0 <= k < hi - lo => Record(d, lo + k))
  }

  function AllRecords(d: DatasetSpec): seq<LogicalRecord>
    requires ValidDataset(d)
  {
    Batch(d, 0, d.recordCount)
  }

  // -------------------------------------------------------- category mapping

  /** The slot that `FallbackCategory` sends to a non-hot category. */
  function FallbackSlot(category: nat, hot: nat): nat
    requires category != hot
  {
    if category > hot then category - 1 else category
  }

  /** A failed hotspot draw reaches every non-hot category from exactly one slot. */
  lemma FallbackBijection(count: nat, hot: nat, slot: nat, category: nat)
    requires hot < count && slot < count - 1
    requires category < count && category != hot
    ensures FallbackCategory(slot, hot) < count && FallbackCategory(slot, hot) != hot
    ensures FallbackSlot(category, hot) < count - 1
    ensures FallbackCategory(slot, hot) == category <==> slot == FallbackSlot(category, hot)
  {
  }

  /** Once the hotspot draw fails, the hot category cannot come back. */
  lemma FailedHotspotAvoidsHot(d: DatasetSpec, index: U64)
    requires ValidDataset(d) && d.distribution.Hotspot? && d.categoryCount > 1
    ensures Category(d, index) == d.distribution.category
            <==> Draw(d, index, CATEGORY_SELECTOR) % BASIS_POINTS_MAX < d.distribution.probabilityBps
  {
    var hot := d.distribution.category;
    var slot := Draw(d, index, HOTSPOT_FALLBACK) % (d.categoryCount - 1);
    FallbackBijection(d.categoryCount, hot, slot, if hot == 0 then 1 else 0);
  }

  /** A flag set at one probability stays set at any larger one; at zero none is set, at
      10,000 basis points every one is. */
  lemma FlagsFollowProbability(d: DatasetSpec, e: DatasetSpec, index: U64)
    requires ValidDataset(d) && ValidDataset(e) && e == d.(flagProbabilityBps := e.flagProbabilityBps)
    ensures d.flagProbabilityBps <= e.flagProbabilityBps ==> Flags(d, index) <= Flags(e, index)
    ensures d.flagProbabilityBps == 0 ==> Flags(d, index) == 0
    ensures d.flagProbabilityBps == BASIS_POINTS_MAX ==> Flags(d, index) == 1
  {
    hide SplitMix.Sample;
  }

  /** What a feature says about its draw: they are congruent modulo the width of the range,
      counted from its low end. */
  lemma FeatureCongruent(d: DatasetSpec, index: U64, field: U64)
    requires ValidDataset(d)
    ensures var width := d.featureMax - d.featureMin;
            (Draw(d, index, field) - (Feature(d, index, field) - d.featureMin)) % width == 0
  {
    hide Draw;
    Remainder(Draw(d, index, field), d.featureMax - d.featureMin);
  }

  lemma Remainder(draw: nat, width: nat)
    requires width > 0
    ensures (draw - draw % width) % width == 0
  {
    var q := draw / width;
    assert draw - draw % width == q * width;
    Multiple(q, width);
  }

  lemma {:induction false} Multiple(q: nat, width: nat)
    requires width > 0
    ensures q * width % width == 0
  {
    if q > 0 {
      Multiple(q - 1, width);
      assert q * width == (q - 1) * width + width;
      OneMore((q - 1) * width, width);
    }
  }

  lemma OneMore(m: nat, width: nat)
    requires width > 0
    ensures (m + width) % width == m % width
  {
    var q, r := m / width, m % width;
    assert m + width == (q + 1) * width + r;
    UniqueQuotient(m + width, width, q + 1, r);
  }

  /** The category of every distribution, from the draws it is made of: a uniform category is
      congruent to its draw, a hot one is drawn below its probability, and any other stands
      for the slot that is congruent to the fallback draw. */
  lemma CategoryDrawn(d: DatasetSpec, index: U64)
    requires ValidDataset(d)
    ensures var category, selector := Category(d, index), Draw(d, index, CATEGORY_SELECTOR);
            match d.distribution
            case Uniform => (selector - category) % d.categoryCount == 0
            case Hotspot(hot, bps) =>
              if d.categoryCount == 1 then category == 0
              else if selector % BASIS_POINTS_MAX < bps then category == hot
              else category != hot && (Draw(d, index, HOTSPOT_FALLBACK) - FallbackSlot(category, hot)) % (d.categoryCount - 1) == 0
  {
    hide Draw;
    Remainder(Draw(d, index, CATEGORY_SELECTOR), d.categoryCount);
    if d.distribution.Hotspot? && d.categoryCount > 1 {
      var slot, hot := Draw(d, index, HOTSPOT_FALLBACK) % (d.categoryCount - 1), d.distribution.category;
      Remainder(Draw(d, index, HOTSPOT_FALLBACK), d.categoryCount - 1);
      FallbackBijection(d.categoryCount, hot, slot, if hot == 0 then 1 else 0);
    }
  }

  /** A record keeps its index, takes each field from its own draw, and no two of the five
      draws of one record are the same word. */
  lemma RecordDrawn(d: DatasetSpec, index: U64)
    requires ValidDataset(d)
    ensures var r := Record(d, index);
            && r.id == index && r.category == Category(d, index)
            && (Draw(d, index, 1) - (r.featureA - d.featureMin)) % (d.featureMax - d.featureMin) == 0
            && (Draw(d, index, 2) - (r.featureB - d.featureMin)) % (d.featureMax - d.featureMin) == 0
            && (r.flags == 1 <==> Draw(d, index, 3) % 10_000 < d.flagProbabilityBps) && (r.flags == 0 || r.flags == 1)
    ensures forall f: U64, g: U64 :: f < 5 && g < 5 && f != g ==> Draw(d, index, f) != Draw(d, index, g)
  {
    hide SplitMix.Sample, Category;
    FeatureCongruent(d, index, FEATURE_A);
    FeatureCongruent(d, index, FEATURE_B);
    forall f: U64, g: U64 | f < 5 && g < 5 && f != g
      ensures Draw(d, index, f) != Draw(d, index, g)
    {
      SplitMix.FieldInjective(d.seed, index, f, g);
    }
  }

  // ------------------------------------------------------------- partitions

  /** Ascending cut points. */
  predicate Ascending(cuts: seq<nat>) {
    forall i :: 0 < i < |cuts| ==> cuts[i - 1] <= cuts[i]
  }

  /** Concatenation of the batches between consecutive cut points. */
  function Pieces(d: DatasetSpec, cuts: seq<nat>): seq<LogicalRecord>
    requires ValidDataset(d) && |cuts| > 0 && Ascending(cuts) && cuts[|cuts| - 1] <= d.recordCount
  {
    if |cuts| == 1 then [] else
      var rest := cuts[..|cuts| - 1];
      Pieces(d, rest) + Batch(d, cuts[|cuts| - 2], cuts[|cuts| - 1])
  }

  lemma BatchSplit(d: DatasetSpec, lo: nat, mid: nat, hi: nat)
    requires ValidDataset(d) && lo <= mid <= hi <= d.recordCount
    ensures Batch(d, lo, mid) + Batch(d, mid, hi) == Batch(d, lo, hi)
  {
    var left, right, whole := Batch(d, lo, mid), Batch(d, mid, hi), Batch(d, lo, hi);
    forall k | 0 <= k < hi - lo
      ensures (left + right)[k] == whole[k]
    {
      assert RecordAt(d, lo + k) == Some(whole[k]);
      if k < mid - lo {
        assert RecordAt(d, lo + k) == Some(left[k]);
      } else {
        assert RecordAt(d, mid + (k - (mid - lo))) == Some(right[k - (mid - lo)]);
      }
    }
  }

  lemma BatchSnoc(d: DatasetSpec, lo: nat, index: nat)
    requires ValidDataset(d) && lo <= index < d.recordCount
    ensures Batch(d, lo, index + 1) == Batch(d, lo, index) + [Record(d, index)]
  {
    hide Record;
    BatchSplit(d, lo, index, index + 1);
    assert Batch(d, index, index + 1) == [Record(d, index)];
  }

  lemma BatchCons(d: DatasetSpec, index: nat)
    requires ValidDataset(d) && index < d.recordCount
    ensures Batch(d, index, d.recordCount) == [Record(d, index)] + Batch(d, index + 1, d.recordCount)
  {
    hide Record;
    BatchSplit(d, index, index + 1, d.recordCount);
    assert Batch(d, index, index + 1) == [Record(d, index)];
  }

  lemma {:induction false} AscendingEnds(cuts: seq<nat>)
    requires |cuts| > 0 && Ascending(cuts)
    ensures cuts[0] <= cuts[|cuts| - 1]
  {
    if |cuts| > 1 {
      AscendingEnds(cuts[..|cuts| - 1]);
    }
  }

  /** Any partition of the index space concatenates to the full materialization. */
  lemma {:induction false} PartitionConcatenates(d: DatasetSpec, cuts: seq<nat>)
    requires ValidDataset(d) && |cuts| > 0 && Ascending(cuts) && cuts[|cuts| - 1] <= d.recordCount
    ensures cuts[0] <= cuts[|cuts| - 1]
    ensures Pieces(d, cuts) == Batch(d, cuts[0], cuts[|cuts| - 1])
    ensures cuts[0] == 0 && cuts[|cuts| - 1] == d.recordCount ==> Pieces(d, cuts) == AllRecords(d)
  {
    AscendingEnds(cuts);
    if |cuts| > 1 {
      var rest := cuts[..|cuts| - 1];
      PartitionConcatenates(d, rest);
      BatchSplit(d, cuts[0], cuts[|cuts| - 2], cuts[|cuts| - 1]);
    }
  }

  // ------------------------------------------------------ range and iterator

  method GenerateRange(d: DatasetSpec, start: U64, end: U64)
    returns (r: Result<seq<LogicalRecord>, GenerationError>)
    requires ValidDataset(d)
    ensures r.Ok? <==> start <= end <= d.recordCount
    ensures r.Ok? ==> r.value == Batch(d, start, end)
    ensures r.Err? ==> r.error == InvalidRange(start, end, d.recordCount)
  {
    if start > end || end > d.recordCount {
      return Err(InvalidRange(start, end, d.recordCount));
    }
    hide Record, Batch;
    var records: seq<LogicalRecord> := [];
    var index := start;
    while index < end
      invariant start <= index <= end
      invariant records == Batch(d, start, index)
    {
      BatchSnoc(d, start, index);
      records := records + [Record(d, index)];
      index := index + 1;
    }
    return Ok(records);
  }

  method GenerateAll(d: DatasetSpec) returns (records: seq<LogicalRecord>)
    requires ValidDataset(d)
    ensures records == AllRecords(d)
  {
    var r := GenerateRange(d, 0, d.recordCount);
    records := r.value;
  }

  /** Lazy stable-order iteration over one validated dataset. */
  class Records {
    const dataset: DatasetSpec
    var nextIndex: U64

    ghost predicate Valid()
      reads this
    {
      ValidDataset(dataset) && nextIndex <= dataset.recordCount
    }

    /** What the iterator has still to yield. */
    ghost function Remaining(): seq<LogicalRecord>
      requires Valid()
      reads this
    {
      Batch(dataset, nextIndex, dataset.recordCount)
    }

    constructor (dataset: DatasetSpec)
      requires ValidDataset(dataset)
      ensures Valid() && this.dataset == dataset && Remaining() == AllRecords(dataset)
    {
      this.dataset := dataset;
      nextIndex := 0;
    }

    method Next() returns (record: Option<LogicalRecord>)
      requires Valid()
      modifies this
      ensures Valid()
      ensures record.None? <==> old(Remaining()) == []
      ensures record.Some? ==> old(Remaining()) == [record.value] + Remaining()
      ensures record == RecordAt(dataset, old(nextIndex))
      ensures nextIndex == old(nextIndex) + if record.Some? then 1 else 0
    {
      hide Record, Batch;
      record := RecordAt(dataset, nextIndex);
      if record.Some? {
        BatchCons(dataset, nextIndex);
        nextIndex := nextIndex + 1;
      }
    }
  }
}

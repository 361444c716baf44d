/** Integer median and median absolute deviation of one measured boundary. */
module Statistics {
  import opened Words
  import opened Sorting

  datatype Statistics = Statistics(count: nat, minimum: U64, median: U64, mad: U64, maximum: U64)

  /** Floor midpoint of the two middle elements, computed without adding them. */
  function Median(sorted: seq<U64>): (m: U64)
    requires sorted != [] && Ascending(sorted)
    ensures |sorted| % 2 == 1 ==> m == sorted[|sorted| / 2]
    ensures |sorted| % 2 == 0 ==> m as int == (sorted[|sorted| / 2 - 1] as int + sorted[|sorted| / 2] as int) / 2
    ensures sorted[0] <= m <= sorted[|sorted| - 1]
  {
    var middle := |sorted| / 2;
    if |sorted| % 2 == 1 then sorted[middle]
    else
      var lower, upper := sorted[middle - 1], sorted[middle];
      lower + (upper - lower) / 2
  }

  function Distance(x: int, y: int): nat {
    if x >= y then x - y else y - x
  }

  function Distances(values: seq<U64>, centre: U64): (d: seq<U64>)
    ensures |d| == |values| && forall i :: 0 <= i < |d| ==> d[i] == Distance(values[i], centre)
  {
    seq(|values|, i requires 0 <= i < |values| => Distance(values[i], centre))
  }

  /** The sorted copy of the samples. */
  function Arranged(s: seq<U64>): (t: seq<U64>)
    ensures |t| == |s| && Ascending(t) && multiset(t) == multiset(s)
  {
    AscendSorts(s);
    Ascend(s)
  }

  function MedianOf(values: seq<U64>): U64
    requires values != []
  {
    Median(Arranged(values))
  }

  /** What `summarizeValues` reports, in terms of its samples. */
  function SummaryOf(values: seq<U64>): Statistics
    requires values != []
  {
    var sorted := Arranged(values);
    var median := Median(sorted);
    Statistics(|values|, sorted[0], median, MedianOf(Distances(sorted, median)), sorted[|sorted| - 1])
  }

  /** Sorting a fresh copy. */
  method SortedCopy(values: seq<U64>) returns (sorted: array<U64>)
    ensures fresh(sorted) && sorted[..] == Arranged(values)
  {
    sorted := new U64[|values|](i requires 0 <= i < |values| => values[i]);
    assert sorted[..] == values;
    SortInPlace(sorted, Below);
  }

  method Deviations(sorted: array<U64>, median: U64) returns (deviations: array<U64>)
    ensures fresh(deviations) && deviations[..] == Distances(sorted[..], median)
  {
    deviations := new U64[sorted.Length];
    for index := 0 to sorted.Length
      invariant forall k :: 0 <= k < index ==> deviations[k] == Distance(sorted[k], median)
    {
      var value := sorted[index];
      deviations[index] := if value >= median then value - median else median - value;
    }
  }

  method SummarizeValues(values: seq<U64>) returns (summary: Statistics)
    requires values != []
    ensures summary == SummaryOf(values)
  {
    hide Median, Arranged, Ascend, Sort, Distances;
    var sorted := SortedCopy(values);
    var median := Median(sorted[..]);
    var deviations := Deviations(sorted, median);
    SortInPlace(deviations, Below);
    ArrangedIsSort(Distances(sorted[..], median));
    summary := Statistics(sorted.Length, sorted[0], median, Median(deviations[..]), sorted[sorted.Length - 1]);
  }

  lemma ArrangedIsSort(s: seq<U64>)
    ensures Arranged(s) == Sort(s, Below)
  {
  }

  // ------------------------------------------------------------ order and range

  /** The summary depends only on which samples there are. */
  lemma SummaryIgnoresOrder(values: seq<U64>, others: seq<U64>)
    requires values != [] && others != [] && multiset(values) == multiset(others)
    ensures SummaryOf(values) == SummaryOf(others)
  {
    AscendingUnique(Arranged(values), Arranged(others));
    assert |values| == |multiset(values)| == |multiset(others)| == |others|;
  }

  /** Minimum and maximum are attained and bound every sample and the median. */
  lemma SummaryBounds(values: seq<U64>, i: nat)
    requires i < |values|
    ensures var r := SummaryOf(values);
            && r.minimum <= values[i] <= r.maximum && r.minimum <= r.median <= r.maximum
            && r.minimum in values && r.maximum in values
  {
    hide Arranged, Distances, Median;
    var sorted := Arranged(values);
    assert values[i] in multiset(sorted);
    assert sorted[0] in multiset(values) && sorted[|sorted| - 1] in multiset(values);
  }

  /** The deviation never exceeds the range. */
  lemma DeviationInRange(values: seq<U64>)
    requires values != []
    ensures var r := SummaryOf(values); r.mad as int <= r.maximum as int - r.minimum as int
  {
    hide Arranged, Median;
    var sorted := Arranged(values);
    var median := Median(sorted);
    var distances := Distances(sorted, median);
    var largest := Arranged(distances)[|distances| - 1];
    assert largest in multiset(distances);
    var k :| 0 <= k < |distances| && distances[k] == largest;
    assert sorted[0] <= sorted[k] <= sorted[|sorted| - 1];
  }

  // -------------------------------------------------------------- optimality

  /** Total absolute deviation from a centre. */
  function Spread(values: seq<U64>, centre: int): nat {
    if values == [] then 0 else Spread(values[..|values| - 1], centre) + Distance(values[|values| - 1], centre)
  }

  lemma {:induction false} SpreadJoin(a: seq<U64>, b: seq<U64>, centre: int)
    ensures Spread(a + b, centre) == Spread(a, centre) + Spread(b, centre)
  {
    if b == [] {
      assert a + b == a;
    } else {
      SpreadJoin(a, b[..|b| - 1], centre);
      assert (a + b)[..|a + b| - 1] == a + b[..|b| - 1];
    }
  }

  lemma {:induction false} SpreadInsert(t: seq<U64>, x: U64, centre: int)
    ensures Spread(Insert(t, x, Below), centre) == Spread(t, centre) + Distance(x, centre)
  {
    var n := |t|;
    if n == 0 || !Below(x, t[n - 1]) {
      assert (t + [x])[..n] == t;
    } else {
      SpreadInsert(t[..n - 1], x, centre);
      var sunk := Insert(t[..n - 1], x, Below);
      assert (sunk + [t[n - 1]])[..|sunk|] == sunk;
    }
  }

  lemma {:induction false} SpreadSorted(values: seq<U64>, centre: int)
    ensures Spread(Ascend(values), centre) == Spread(values, centre)
  {
    if values != [] {
      var n := |values| - 1;
      SpreadSorted(values[..n], centre);
      SpreadInsert(Ascend(values[..n]), values[n], centre);
    }
  }

  /** Peeling the smallest and the largest keeps the median. */
  lemma MedianOfMiddle(sorted: seq<U64>)
    requires |sorted| > 2 && Ascending(sorted)
    ensures var inner := sorted[1..|sorted| - 1]; Ascending(inner) && Median(inner) == Median(sorted)
  {
  }

  lemma SpreadEnds(sorted: seq<U64>, centre: int)
    requires |sorted| >= 2
    ensures var n := |sorted| - 1;
            Spread(sorted, centre) == Distance(sorted[0], centre) + Spread(sorted[1..n], centre) + Distance(sorted[n], centre)
  {
    var n := |sorted| - 1;
    assert sorted[..n] == [sorted[0]] + sorted[1..n];
    SpreadJoin([sorted[0]], sorted[1..n], centre);
    assert [sorted[0]][..0] == [];
    assert Spread([sorted[0]], centre) == Distance(sorted[0], centre);
  }

  lemma {:induction false} SortedMedianMinimises(sorted: seq<U64>, centre: int)
    requires sorted != [] && Ascending(sorted)
    ensures Spread(sorted, Median(sorted)) <= Spread(sorted, centre)
    decreases |sorted|
  {
    hide Median;
    if |sorted| == 1 {
      assert sorted[..0] == [];
    } else {
      var n := |sorted| - 1;
      SpreadEnds(sorted, centre);
      SpreadEnds(sorted, Median(sorted));
      if n > 1 {
        MedianOfMiddle(sorted);
        SortedMedianMinimises(sorted[1..n], centre);
      }
    }
  }

  /** No integer is closer to the samples in total than the reported median. */
  lemma MedianMinimises(values: seq<U64>, centre: int)
    requires values != []
    ensures Spread(values, SummaryOf(values).median) <= Spread(values, centre)
  {
    hide Median;
    SortedMedianMinimises(Arranged(values), centre);
    SpreadSorted(values, centre);
    SpreadSorted(values, SummaryOf(values).median);
  }

  // ----------------------------------------------------------------- coverage

  /** How many samples lie within `radius` of `centre`. */
  function Within(values: seq<U64>, centre: U64, radius: U64): nat {
    if values == [] then 0
    else Within(values[..|values| - 1], centre, radius) + if Distance(values[|values| - 1], centre) <= radius then 1 else 0
  }

  function AtMost(values: seq<U64>, bound: U64): nat {
    if values == [] then 0 else AtMost(values[..|values| - 1], bound) + if values[|values| - 1] <= bound then 1 else 0
  }

  lemma {:induction false} WithinDistances(values: seq<U64>, centre: U64, radius: U64)
    ensures Within(values, centre, radius) == AtMost(Distances(values, centre), radius)
  {
    if values != [] {
      var n := |values| - 1;
      WithinDistances(values[..n], centre, radius);
      assert Distances(values, centre)[..n] == Distances(values[..n], centre);
    }
  }

  lemma {:induction false} AtMostInsert(t: seq<U64>, x: U64, bound: U64)
    ensures AtMost(Insert(t, x, Below), bound) == AtMost(t, bound) + if x <= bound then 1 else 0
  {
    var n := |t|;
    if n == 0 || !Below(x, t[n - 1]) {
      assert (t + [x])[..n] == t;
    } else {
      AtMostInsert(t[..n - 1], x, bound);
      var sunk := Insert(t[..n - 1], x, Below);
      assert (sunk + [t[n - 1]])[..|sunk|] == sunk;
    }
  }

  lemma {:induction false} AtMostSorted(values: seq<U64>, bound: U64)
    ensures AtMost(Ascend(values), bound) == AtMost(values, bound)
  {
    if values != [] {
      var n := |values| - 1;
      AtMostSorted(values[..n], bound);
      AtMostInsert(Ascend(values[..n]), values[n], bound);
    }
  }

  lemma {:induction false} AtMostPrefix(sorted: seq<U64>, bound: U64, k: nat)
    requires k <= |sorted| && forall i :: 0 <= i < k ==> sorted[i] <= bound
    ensures AtMost(sorted, bound) >= k
  {
    if sorted != [] {
      var n := |sorted| - 1;
      AtMostPrefix(sorted[..n], bound, if k <= n then k else n);
    }
  }

  lemma {:induction false} WithinSorted(values: seq<U64>, centre: U64, radius: U64)
    ensures Within(Ascend(values), centre, radius) == Within(values, centre, radius)
  {
    if values != [] {
      var n := |values| - 1;
      WithinSorted(values[..n], centre, radius);
      WithinInsert(Ascend(values[..n]), values[n], centre, radius);
    }
  }

  lemma {:induction false} WithinInsert(t: seq<U64>, x: U64, centre: U64, radius: U64)
    ensures Within(Insert(t, x, Below), centre, radius) == Within(t, centre, radius) + if Distance(x, centre) <= radius then 1 else 0
  {
    var n := |t|;
    if n == 0 || !Below(x, t[n - 1]) {
      assert (t + [x])[..n] == t;
    } else {
      WithinInsert(t[..n - 1], x, centre, radius);
      var sunk := Insert(t[..n - 1], x, Below);
      assert (sunk + [t[n - 1]])[..|sunk|] == sunk;
    }
  }

  /** At least half the samples, rounded up, lie within the deviation of the median. */
  lemma HalfWithinDeviation(values: seq<U64>)
    requires values != []
    ensures var r := SummaryOf(values); 2 * Within(values, r.median, r.mad) >= |values|
  {
    hide Distances, Within, AtMost, Ascend;
    var r, sorted := SummaryOf(values), Arranged(values);
    var distances := Distances(sorted, r.median);
    var ranked := Arranged(distances);
    var half := (|values| + 1) / 2;
    MedianCovers(ranked);
    AtMostPrefix(ranked, r.mad, half);
    AtMostSorted(distances, r.mad);
    WithinDistances(sorted, r.median, r.mad);
    WithinSorted(values, r.median, r.mad);
  }

  lemma MedianCovers(ranked: seq<U64>)
    requires ranked != [] && Ascending(ranked)
    ensures forall i :: 0 <= i < (|ranked| + 1) / 2 ==> ranked[i] <= Median(ranked)
  {
  }

  // ----------------------------------------------------------------- exactness

  lemma {:induction false} DistancesInsert(t: seq<U64>, x: U64, centre: U64)
    ensures multiset(Distances(Insert(t, x, Below), centre)) == multiset(Distances(t, centre)) + multiset{Distance(x, centre)}
  {
    var n := |t|;
    if n == 0 || !Below(x, t[n - 1]) {
      assert Distances(t + [x], centre) == Distances(t, centre) + [Distance(x, centre)];
    } else {
      var sunk := Insert(t[..n - 1], x, Below);
      DistancesInsert(t[..n - 1], x, centre);
      assert Distances(sunk + [t[n - 1]], centre) == Distances(sunk, centre) + [Distance(t[n - 1], centre)];
      assert Distances(t, centre) == Distances(t[..n - 1], centre) + [Distance(t[n - 1], centre)];
    }
  }

  /** Sorting the samples permutes their deviations. */
  lemma {:induction false} DistancesSorted(values: seq<U64>, centre: U64)
    ensures multiset(Distances(Ascend(values), centre)) == multiset(Distances(values, centre))
  {
    if values != [] {
      var n := |values| - 1;
      DistancesSorted(values[..n], centre);
      DistancesInsert(Ascend(values[..n]), values[n], centre);
      assert Distances(values, centre) == Distances(values[..n], centre) + [Distance(values[n], centre)];
    }
  }

  /** The middle of an ascending sequence, rounded down between two. */
  predicate IsMiddle(m: U64, ascending: seq<U64>)
    requires ascending != []
  {
    var half := |ascending| / 2;
    if |ascending| % 2 == 1 then m == ascending[half]
    else m as int == (ascending[half - 1] as int + ascending[half] as int) / 2
  }

  /** Every field of a summary, in terms of any ascending arrangement of the samples and any
      ascending arrangement of their deviations from the median. */
  lemma SummaryExact(values: seq<U64>, sorted: seq<U64>, deviations: seq<U64>)
    requires values != [] && Ascending(sorted) && multiset(sorted) == multiset(values)
    requires Ascending(deviations) && multiset(deviations) == multiset(Distances(values, SummaryOf(values).median))
    ensures sorted != [] && deviations != []
    ensures var r := SummaryOf(values);
            && r.count == |values| && r.minimum == sorted[0] && r.maximum == sorted[|sorted| - 1]
            && IsMiddle(r.median, sorted) && IsMiddle(r.mad, deviations)
  {
    hide Ascending, Ascend, Median;
    var r := SummaryOf(values);
    SameSize(sorted, values);
    SameSize(deviations, Distances(values, r.median));
    AscendingUnique(Arranged(values), sorted);
    DistancesSorted(values, r.median);
    AscendingUnique(Arranged(Distances(sorted, r.median)), deviations);
  }

  function AtLeast(values: seq<U64>, bound: U64): nat {
    if values == [] then 0 else AtLeast(values[..|values| - 1], bound) + if values[|values| - 1] >= bound then 1 else 0
  }

  /** How many samples lie at `radius` from `centre` or further. */
  function Beyond(values: seq<U64>, centre: U64, radius: U64): nat {
    if values == [] then 0
    else Beyond(values[..|values| - 1], centre, radius) + if Distance(values[|values| - 1], centre) >= radius then 1 else 0
  }

  lemma {:induction false} BeyondDistances(values: seq<U64>, centre: U64, radius: U64)
    ensures Beyond(values, centre, radius) == AtLeast(Distances(values, centre), radius)
  {
    if values != [] {
      var n := |values| - 1;
      BeyondDistances(values[..n], centre, radius);
      assert Distances(values, centre)[..n] == Distances(values[..n], centre);
    }
  }

  lemma {:induction false} AtLeastInsert(t: seq<U64>, x: U64, bound: U64)
    ensures AtLeast(Insert(t, x, Below), bound) == AtLeast(t, bound) + if x >= bound then 1 else 0
  {
    var n := |t|;
    if n == 0 || !Below(x, t[n - 1]) {
      assert (t + [x])[..n] == t;
    } else {
      AtLeastInsert(t[..n - 1], x, bound);
      var sunk := Insert(t[..n - 1], x, Below);
      assert (sunk + [t[n - 1]])[..|sunk|] == sunk;
    }
  }

  lemma {:induction false} AtLeastSorted(values: seq<U64>, bound: U64)
    ensures AtLeast(Ascend(values), bound) == AtLeast(values, bound)
  {
    if values != [] {
      var n := |values| - 1;
      AtLeastSorted(values[..n], bound);
      AtLeastInsert(Ascend(values[..n]), values[n], bound);
    }
  }

  lemma {:induction false} AtLeastSuffix(sorted: seq<U64>, bound: U64, k: nat)
    requires k <= |sorted| && forall i :: k <= i < |sorted| ==> sorted[i] >= bound
    ensures AtLeast(sorted, bound) >= |sorted| - k
  {
    if k < |sorted| {
      AtLeastSuffix(sorted[..|sorted| - 1], bound, k);
    }
  }

  lemma MedianBelowUpper(ranked: seq<U64>)
    requires ranked != [] && Ascending(ranked)
    ensures forall i :: |ranked| / 2 <= i < |ranked| ==> ranked[i] >= Median(ranked)
  {
  }

  /** Permuting leaves every such count alone. */
  lemma AtLeastPermuted(a: seq<U64>, b: seq<U64>, bound: U64)
    requires multiset(a) == multiset(b)
    ensures AtLeast(a, bound) == AtLeast(b, bound)
  {
    AtLeastSorted(a, bound);
    AtLeastSorted(b, bound);
    AscendSorts(a);
    AscendSorts(b);
    AscendingUnique(Ascend(a), Ascend(b));
  }

  /** The other side: at least half of the samples, rounded up, lie at the deviation or
      further from the median. */
  lemma HalfBeyondDeviation(values: seq<U64>)
    requires values != []
    ensures var r := SummaryOf(values); 2 * Beyond(values, r.median, r.mad) >= |values|
  {
    hide AtLeast, Ascend, Median, Ascending;
    var r := SummaryOf(values);
    var distances := Distances(Arranged(values), r.median);
    var ranked := Arranged(distances);
    MedianBelowUpper(ranked);
    AtLeastSuffix(ranked, r.mad, |values| / 2);
    DistancesSorted(values, r.median);
    AtLeastPermuted(ranked, Distances(values, r.median), r.mad);
    BeyondDistances(values, r.median, r.mad);
  }

  /** No number is closer in total to the deviations from the median than the reported one. */
  lemma DeviationMinimises(values: seq<U64>, centre: int)
    requires values != []
    ensures var r := SummaryOf(values); Spread(Distances(values, r.median), r.mad) <= Spread(Distances(values, r.median), centre)
  {
    hide Spread, Ascend, Median, Ascending;
    var r := SummaryOf(values);
    var distances := Distances(Arranged(values), r.median);
    SortedMedianMinimises(Arranged(distances), centre);
    DistancesSorted(values, r.median);
    SpreadPermuted(Arranged(distances), Distances(values, r.median), centre);
    SpreadPermuted(Arranged(distances), Distances(values, r.median), r.mad);
  }

  lemma SpreadPermuted(a: seq<U64>, b: seq<U64>, centre: int)
    requires multiset(a) == multiset(b)
    ensures Spread(a, centre) == Spread(b, centre)
  {
    SpreadSorted(a, centre);
    SpreadSorted(b, centre);
    AscendSorts(a);
    AscendSorts(b);
    AscendingUnique(Ascend(a), Ascend(b));
  }
}

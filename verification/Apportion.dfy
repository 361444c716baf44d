/** Largest-remainder apportionment of 10,000 basis points. */
module Apportion {
  import opened Words
  import opened Ratios
  import opened Sorting

  const WHOLE: U32 := 10_000

  datatype Remainder = Remainder(index: nat, value: U64)

  predicate Larger(x: Remainder, y: Remainder) {
    x.value > y.value
  }

  /** The exact quota of entry `i` is `values[i] * WHOLE / total`. */
  function Floor(value: nat, total: nat): nat
    requires total > 0
  {
    value * WHOLE / total
  }

  function Residue(value: nat, total: nat): (r: nat)
    requires total > 0
    ensures r < total
  {
    value * WHOLE % total
  }

  function Floors(values: seq<U64>, total: U64): (f: seq<nat>)
    requires total > 0
    ensures |f| == |values| && forall i :: 0 <= i < |f| ==> f[i] == Floor(values[i], total)
  {
    seq(|values|, i requires 0 <= i < |values| => Floor(values[i], total))
  }

  function Residues(values: seq<U64>, total: U64): (r: seq<Remainder>)
    requires total > 0
    ensures |r| == |values| && forall i :: 0 <= i < |r| ==> r[i] == Remainder(i, Residue(values[i], total))
  {
    seq(|values|, i requires 0 <= i < |values| => Remainder(i, Residue(values[i], total)))
  }

  /** Largest residues first; `OrderTies` says where equal ones go. */
  function Order(values: seq<U64>, total: U64): seq<Remainder>
    requires total > 0
  {
    Sort(Residues(values, total), Larger)
  }

  predicate Picked(order: seq<Remainder>, k: nat, i: nat)
    requires k <= |order|
  {
    exists j :: 0 <= j < k && order[j].index == i
  }

  // ------------------------------------------------------- quotas and residues

  lemma QuotaSplit(value: nat, total: nat)
    requires total > 0
    ensures value * WHOLE == Floor(value, total) * total + Residue(value, total) && Residue(value, total) < total
  {
  }

  lemma FloorBound(value: nat, total: nat)
    requires total > 0 && value <= total
    ensures Floor(value, total) <= WHOLE
  {
    assert value * WHOLE <= total * WHOLE < total * (WHOLE + 1);
    Quotient(value * WHOLE, total, WHOLE + 1);
  }

  function Values(order: seq<Remainder>): (v: seq<nat>)
    ensures |v| == |order| && forall i :: 0 <= i < |v| ==> v[i] == order[i].value
  {
    seq(|order|, i requires 0 <= i < |order| => order[i].value as nat)
  }

  lemma ValuesTake(order: seq<Remainder>, k: nat)
    requires k <= |order|
    ensures Values(order)[..k] == Values(order[..k])
  {
  }

  lemma SumTake(v: seq<nat>, n: nat)
    requires |v| == n + 1
    ensures Sum(v) == Sum(v[..n]) + v[n]
  {
  }

  lemma AddQuota(f: nat, r: nat, sum: nat, value: nat, total: nat)
    requires total > 0 && f * total + r == sum * WHOLE
    ensures (f + Floor(value, total)) * total + (r + Residue(value, total)) == (sum + value) * WHOLE
  {
    QuotaSplit(value, total);
    assert (f + Floor(value, total)) * total == f * total + Floor(value, total) * total;
  }

  /** Whole quotas and residues together make up the scaled total. */
  lemma {:induction false} QuotasSum(values: seq<U64>, total: U64)
    requires total > 0
    ensures Sum(Floors(values, total)) * total + Sum(Values(Residues(values, total))) == Sum(values) * WHOLE
  {
    if values != [] {
      hide Sum, Floor, Residue;
      var n := |values| - 1;
      QuotasSum(values[..n], total);
      assert Floors(values, total)[..n] == Floors(values[..n], total);
      ValuesTake(Residues(values, total), n);
      assert Residues(values, total)[..n] == Residues(values[..n], total);
      SumTake(Floors(values, total), n);
      SumTake(Values(Residues(values, total)), n);
      SumTake(values, n);
      AddQuota(Sum(Floors(values[..n], total)), Sum(Values(Residues(values[..n], total))), Sum(values[..n]), values[n], total);
    }
  }

  lemma {:induction false} InsertSum(t: seq<Remainder>, x: Remainder)
    ensures Sum(Values(Insert(t, x, Larger))) == Sum(Values(t)) + x.value
  {
    var n := |t|;
    if n == 0 || !Larger(x, t[n - 1]) {
      ValuesTake(t + [x], n);
      assert (t + [x])[..n] == t;
    } else {
      InsertSum(t[..n - 1], x);
      var sunk := Insert(t[..n - 1], x, Larger);
      ValuesTake(sunk + [t[n - 1]], |sunk|);
      ValuesTake(t, n - 1);
      assert (sunk + [t[n - 1]])[..|sunk|] == sunk;
    }
  }

  lemma {:induction false} SortSum(s: seq<Remainder>)
    ensures Sum(Values(Sort(s, Larger))) == Sum(Values(s))
  {
    if s != [] {
      var n := |s| - 1;
      SortSum(s[..n]);
      InsertSum(Sort(s[..n], Larger), s[n]);
      ValuesTake(s, n);
    }
  }

  lemma {:induction false} BoundedSum(v: seq<nat>, bound: nat)
    requires forall i :: 0 <= i < |v| ==> v[i] <= bound
    ensures Sum(v) <= |v| * bound
  {
    if v != [] {
      BoundedSum(v[..|v| - 1], bound);
      assert |v| * bound == (|v| - 1) * bound + bound;
    }
  }

  lemma {:induction false} ZeroSum(v: seq<nat>, k: nat)
    requires k <= |v| && forall i :: k <= i < |v| ==> v[i] == 0
    ensures Sum(v) == Sum(v[..k])
  {
    if k < |v| {
      ZeroSum(v[..|v| - 1], k);
      assert v[..|v| - 1][..k] == v[..k];
    } else {
      assert v[..k] == v;
    }
  }

  /** Points left over after the floors. */
  function Remaining(values: seq<U64>, total: U64): int
    requires total > 0
  {
    WHOLE - Sum(Floors(values, total))
  }

  lemma LargerIsOrder()
    ensures WeakOrder(Larger)
  {
  }

  /** What the ordered residues are. */
  lemma OrderFacts(values: seq<U64>, total: U64)
    requires total > 0
    ensures var order := Order(values, total);
            && |order| == |values| && multiset(order) == multiset(Residues(values, total))
            && (forall i, j :: 0 <= i < j < |order| ==> order[i].value >= order[j].value)
            && (forall j :: 0 <= j < |order| ==> order[j].index < |values| && order[j].value == Residue(values[order[j].index], total))
  {
    var r, order := Residues(values, total), Order(values, total);
    LargerIsOrder();
    SortMembers(r, Larger);
    SortOrdered(r, Larger);
    assert forall i, j :: 0 <= i < j < |order| ==> !Larger(order[j], order[i]);
    forall j | 0 <= j < |order|
      ensures order[j].index < |values| && order[j].value == Residue(values[order[j].index], total)
    {
      assert order[j] in multiset(r);
    }
  }

  lemma {:induction false} DistinctTransfer(s: seq<Remainder>, t: seq<Remainder>)
    requires multiset(s) == multiset(t) && forall a, b :: 0 <= a < b < |s| ==> s[a].index != s[b].index
    ensures forall a, b :: 0 <= a < b < |t| ==> t[a].index != t[b].index
  {
    forall a, b | 0 <= a < b < |t|
      ensures t[a].index != t[b].index
    {
      if t[a].index == t[b].index {
        assert t[a] in multiset(s) && t[b] in multiset(s);
        var x :| 0 <= x < |s| && s[x] == t[a];
        var y :| 0 <= y < |s| && s[y] == t[b];
        assert x == y;
        Twice(t, a, b);
        Once(s, x);
      }
    }
  }

  lemma Twice(t: seq<Remainder>, a: nat, b: nat)
    requires a < b < |t| && t[a] == t[b]
    ensures multiset(t)[t[a]] >= 2
  {
    assert t == t[..b] + t[b..];
    assert t[..b][a] in multiset(t[..b]);
    assert t[b..][0] in multiset(t[b..]);
  }

  lemma Once(s: seq<Remainder>, x: nat)
    requires x < |s| && forall a, b :: 0 <= a < b < |s| ==> s[a].index != s[b].index
    ensures multiset(s)[s[x]] == 1
  {
    assert s == s[..x] + [s[x]] + s[x + 1..];
    assert s[x] !in s[..x];
    assert s[x] !in s[x + 1..];
  }

  lemma OrderIndices(values: seq<U64>, total: U64)
    requires total > 0
    ensures var order := Order(values, total);
            forall a, b :: 0 <= a < b < |order| ==> order[a].index != order[b].index
  {
    OrderFacts(values, total);
    DistinctTransfer(Residues(values, total), Order(values, total));
  }

  // ------------------------------------------------------------------ ties

  /** Largest first, and equal values by index. */
  predicate Ahead(x: Remainder, y: Remainder) {
    x.value > y.value || (x.value == y.value && x.index < y.index)
  }

  ghost predicate TiesByIndex(t: seq<Remainder>) {
    forall i, j :: 0 <= i < j < |t| && t[i].value == t[j].value ==> t[i].index < t[j].index
  }

  lemma {:induction false} InsertTies(t: seq<Remainder>, x: Remainder)
    requires TiesByIndex(t) && forall i :: 0 <= i < |t| ==> t[i].index < x.index
    ensures TiesByIndex(Insert(t, x, Larger))
  {
    var n := |t|;
    if n != 0 && Larger(x, t[n - 1]) {
      var sunk := Insert(t[..n - 1], x, Larger);
      InsertTies(t[..n - 1], x);
      InsertMembers(t[..n - 1], x, Larger);
      forall i | 0 <= i < |sunk| && sunk[i].value == t[n - 1].value
        ensures sunk[i].index < t[n - 1].index
      {
        assert sunk[i] in multiset(sunk);
        assert sunk[i] in t[..n - 1];
      }
    }
  }

  lemma {:induction false} SortTies(r: seq<Remainder>)
    requires forall i, j :: 0 <= i < j < |r| ==> r[i].index < r[j].index
    ensures TiesByIndex(Sort(r, Larger))
  {
    if r != [] {
      var n := |r| - 1;
      var t := Sort(r[..n], Larger);
      SortTies(r[..n]);
      SortMembers(r[..n], Larger);
      forall i | 0 <= i < |t|
        ensures t[i].index < r[n].index
      {
        assert t[i] in multiset(t);
        assert t[i] in r[..n];
      }
      InsertTies(t, r[n]);
    }
  }

  /** Residues come out largest first with ties in index order, and that fixes the order: any
      such arrangement of the residues is this one, whatever sort produced it. */
  lemma OrderUnique(values: seq<U64>, total: U64, t: seq<Remainder>)
    requires total > 0
    ensures Strictly(Order(values, total), Ahead)
    ensures multiset(t) == multiset(Residues(values, total)) && Strictly(t, Ahead) ==> t == Order(values, total)
  {
    var order := Order(values, total);
    OrderFacts(values, total);
    SortTies(Residues(values, total));
    assert forall i, j :: 0 <= i < j < |order| ==> Ahead(order[i], order[j]);
    if multiset(t) == multiset(Residues(values, total)) && Strictly(t, Ahead) {
      StrictUnique(t, order, Ahead);
    }
  }

  lemma SignOfProduct(a: int, t: nat)
    requires t > 0
    ensures (a * t > 0 <==> a > 0) && (a * t < 0 <==> a < 0)
  {
  }

  lemma SmallMultiple(k: int, total: nat, n: nat, sum: nat)
    requires sum == k * total && sum <= n * (total - 1) && total > 0
    ensures 0 <= k && (k < n || (k == 0 && n == 0))
  {
    SignOfProduct(k, total);
    SignOfProduct(k - n, total);
    assert (k - n) * total == k * total - n * total;
    assert n * (total - 1) == n * total - n;
  }

  /** All residues, in order, add up to the leftover points. */
  lemma OrderedResidues(values: seq<U64>, total: U64)
    requires total > 0 && total == Sum(values)
    ensures var v := Values(Order(values, total));
            && |v| == |values| && Sum(v) == Remaining(values, total) * total && forall j :: 0 <= j < |v| ==> v[j] <= total - 1
  {
    hide Sum, Floor, Residue;
    var order, floors := Order(values, total), Sum(Floors(values, total));
    OrderFacts(values, total);
    QuotasSum(values, total);
    SortSum(Residues(values, total));
    assert (WHOLE - floors) * total == WHOLE * total - floors * total;
    forall j | 0 <= j < |order|
      ensures Values(order)[j] <= total - 1
    {
      QuotaSplit(values[order[j].index], total);
    }
  }

  /** The leftover is smaller than the number of entries. */
  lemma RemainingBound(values: seq<U64>, total: U64)
    requires total > 0 && total == Sum(values)
    ensures 0 <= Remaining(values, total) < |values|
  {
    hide Sum, Floor, Residue, Order, Remaining;
    OrderedResidues(values, total);
    var v := Values(Order(values, total));
    BoundedSum(v, total - 1);
    SmallMultiple(Remaining(values, total), total, |v|, Sum(v));
    NotEmpty(values);
  }

  lemma NotEmpty(values: seq<U64>)
    ensures Sum(values) > 0 ==> values != []
  {
  }

  /** Every entry that gets one of the leftover points has a positive residue. */
  lemma PickedPositive(values: seq<U64>, total: U64)
    requires total > 0 && total == Sum(values)
    ensures var k := Remaining(values, total);
            0 <= k < |values| == |Order(values, total)| && (k > 0 ==> Order(values, total)[k - 1].value > 0)
  {
    hide Sum, Floor, Residue, Order, Remaining;
    RemainingBound(values, total);
    OrderFacts(values, total);
    OrderedResidues(values, total);
    var k, order := Remaining(values, total), Order(values, total);
    var v := Values(order);
    if k > 0 && order[k - 1].value == 0 {
      ZeroSum(v, k - 1);
      BoundedSum(v[..k - 1], total - 1);
      SmallMultiple(k, total, k - 1, Sum(v));
      assert false;
    }
  }

  // ------------------------------------------------------------------- shares

  ghost predicate Indexed(order: seq<Remainder>, n: nat) {
    && (forall j :: 0 <= j < |order| ==> order[j].index < n)
    && (forall a, b :: 0 <= a < b < |order| ==> order[a].index != order[b].index)
  }

  /** One more point for each of the first `k` entries of the order. */
  function Bumped(floors: seq<nat>, order: seq<Remainder>, k: nat): (shares: seq<nat>)
    requires k <= |order| && forall j :: 0 <= j < |order| ==> order[j].index < |floors|
    ensures |shares| == |floors|
  {
    if k == 0 then floors else
      var before := Bumped(floors, order, k - 1);
      var i := order[k - 1].index;
      before[i := before[i] + 1]
  }

  lemma {:induction false} SumUpdate(v: seq<nat>, i: nat)
    requires i < |v|
    ensures Sum(v[i := v[i] + 1]) == Sum(v) + 1
  {
    var n := |v| - 1;
    var w := v[i := v[i] + 1];
    if i < n {
      SumUpdate(v[..n], i);
      assert w[..n] == v[..n][i := v[..n][i] + 1];
    } else {
      assert w[..n] == v[..n];
    }
  }

  lemma {:induction false} BumpedSum(floors: seq<nat>, order: seq<Remainder>, k: nat)
    requires k <= |order| && Indexed(order, |floors|)
    ensures Sum(Bumped(floors, order, k)) == Sum(floors) + k
  {
    if k > 0 {
      BumpedSum(floors, order, k - 1);
      SumUpdate(Bumped(floors, order, k - 1), order[k - 1].index);
    }
  }

  lemma {:induction false} BumpedAt(floors: seq<nat>, order: seq<Remainder>, k: nat, i: nat)
    requires k <= |order| && Indexed(order, |floors|) && i < |floors|
    ensures Bumped(floors, order, k)[i] == floors[i] + if Picked(order, k, i) then 1 else 0
  {
    if k > 0 {
      BumpedAt(floors, order, k - 1, i);
      if Picked(order, k - 1, i) {
        var j :| 0 <= j < k - 1 && order[j].index == i;
        assert Picked(order, k, i);
      }
      if order[k - 1].index == i {
        assert Picked(order, k, i);
      }
    }
  }

  function Shares(values: seq<U64>, total: U64): (shares: seq<nat>)
    requires total > 0 && total == Sum(values)
    ensures |shares| == |values|
  {
    OrderFacts(values, total);
    RemainingBound(values, total);
    Bumped(Floors(values, total), Order(values, total), Remaining(values, total))
  }

  /** The outcome of the whole computation. */
  function Apportioned(values: seq<U64>): Result<seq<nat>, ArithmeticError> {
    var total := Sum(values);
    if total >= TWO64 then Err(AdditionOverflow) else if total == 0 then Err(ZeroTotal) else Ok(Shares(values, total))
  }

  /** The residue below which nobody gets an extra point. */
  function Threshold(values: seq<U64>, total: U64): nat
    requires total > 0 && total == Sum(values)
  {
    PickedPositive(values, total);
    var k := Remaining(values, total);
    if k == 0 then 0 else Order(values, total)[k - 1].value
  }

  /** Where entry `i` stands in the order. */
  lemma Position(values: seq<U64>, total: U64, i: nat) returns (j: nat)
    requires total > 0 && i < |values|
    ensures j < |Order(values, total)| && Order(values, total)[j] == Remainder(i, Residue(values[i], total))
  {
    hide Residue, Order;
    OrderFacts(values, total);
    var order := Order(values, total);
    assert Residues(values, total)[i] in multiset(order);
    j :| 0 <= j < |order| && order[j] == Residues(values, total)[i];
  }

  lemma PickedHigh(order: seq<Remainder>, k: nat, j: nat, i: nat)
    requires k <= |order| && j < |order| && order[j].index == i
    requires forall a, b :: 0 <= a < b < |order| ==> order[a].index != order[b].index
    requires forall a, b :: 0 <= a < b < |order| ==> order[a].value >= order[b].value
    ensures Picked(order, k, i) <==> j < k
    ensures j < k ==> order[j].value >= order[k - 1].value
    ensures k <= j && k > 0 ==> order[j].value <= order[k - 1].value
  {
  }

  lemma PickedAbove(values: seq<U64>, total: U64, i: nat)
    requires total > 0 && total == Sum(values) && i < |values|
    ensures var (k, r, theta) := (Remaining(values, total), Residue(values[i], total), Threshold(values, total));
            && 0 <= k <= |Order(values, total)|
            && (Picked(Order(values, total), k, i) ==> r >= theta > 0)
            && (!Picked(Order(values, total), k, i) ==> r <= theta)
  {
    hide Sum, Floor, Residue, Order, Remaining, Picked;
    PickedPositive(values, total);
    OrderFacts(values, total);
    OrderIndices(values, total);
    OrderedResidues(values, total);
    var order, k := Order(values, total), Remaining(values, total);
    var j := Position(values, total, i);
    PickedHigh(order, k, j, i);
    SumElement(Values(order), j);
  }

  /** Every share is the floor of its quota, or one more when the residue is positive and
      reaches the threshold. */
  lemma ShareForm(values: seq<U64>, total: U64, i: nat)
    requires total > 0 && total == Sum(values) && i < |values|
    ensures var (s, f, r, theta) := (Shares(values, total)[i], Floor(values[i], total), Residue(values[i], total), Threshold(values, total));
            && ((s == f + 1 && r >= theta > 0) || (s == f && r <= theta)) && theta < total
  {
    hide Sum, Floor, Residue, Order, Remaining, Bumped, Picked;
    OrderFacts(values, total);
    OrderIndices(values, total);
    RemainingBound(values, total);
    PickedAbove(values, total, i);
    BumpedAt(Floors(values, total), Order(values, total), Remaining(values, total), i);
    ThresholdBelow(values, total);
  }

  lemma ThresholdBelow(values: seq<U64>, total: U64)
    requires total > 0 && total == Sum(values)
    ensures Threshold(values, total) < total
  {
    hide Sum, Floor, Residue, Order, Remaining;
    PickedPositive(values, total);
    OrderedResidues(values, total);
    var k := Remaining(values, total);
    if k > 0 {
      assert Values(Order(values, total))[k - 1] <= total - 1;
    }
  }

  // ------------------------------------------------------------------ theorems

  /** Shares sum to exactly 10,000; each is the floor or the ceiling of its exact quota; and
      a zero median gets nothing. */
  lemma SharesExact(values: seq<U64>, total: U64)
    requires total > 0 && total == Sum(values)
    ensures Sum(Shares(values, total)) == WHOLE
    ensures forall i :: 0 <= i < |values| ==>
              var (s, quota) := (Shares(values, total)[i], values[i] * WHOLE);
              s <= WHOLE && (s - 1) * total < quota < (s + 1) * total && (values[i] == 0 ==> s == 0)
  {
    hide Sum, Floor, Residue, Order, Bumped, Threshold, Shares;
    SharesSum(values, total);
    forall i | 0 <= i < |values|
      ensures var (s, quota) := (Shares(values, total)[i], values[i] * WHOLE);
              s <= WHOLE && (s - 1) * total < quota < (s + 1) * total && (values[i] == 0 ==> s == 0)
    {
      ShareForm(values, total, i);
      SumElement(Shares(values, total), i);
      ShareNearQuota(values[i], total, Shares(values, total)[i]);
    }
  }

  lemma SharesSum(values: seq<U64>, total: U64)
    requires total > 0 && total == Sum(values)
    ensures Sum(Shares(values, total)) == WHOLE
  {
    hide Sum, Floor, Residue, Order, Bumped;
    OrderFacts(values, total);
    OrderIndices(values, total);
    RemainingBound(values, total);
    BumpedSum(Floors(values, total), Order(values, total), Remaining(values, total));
  }

  lemma ShareNearQuota(value: nat, total: nat, s: nat)
    requires total > 0
    requires (s == Floor(value, total) + 1 && Residue(value, total) > 0) || s == Floor(value, total)
    ensures (s - 1) * total < value * WHOLE < (s + 1) * total
    ensures value == 0 ==> s == 0
  {
    QuotaSplit(value, total);
    var f := Floor(value, total);
    assert (s + 1) * total == s * total + total && (s - 1) * total == s * total - total;
    assert s == f + 1 ==> s * total == f * total + total;
    if value == 0 {
      UniqueQuotient(0, total, 0, 0);
    }
  }

  /** A larger median never gets a smaller share. */
  lemma SharesMonotone(values: seq<U64>, total: U64, i: nat, j: nat)
    requires total > 0 && total == Sum(values) && i < |values| && j < |values| && values[i] > values[j]
    ensures Shares(values, total)[i] >= Shares(values, total)[j]
  {
    hide Sum, Order, Bumped, Threshold, Shares, Floor, Residue;
    ShareForm(values, total, i);
    ShareForm(values, total, j);
    LargerQuota(values[i], values[j], total);
  }

  lemma LargerQuota(large: nat, small: nat, total: nat)
    requires total > 0 && large > small
    ensures Floor(large, total) > Floor(small, total)
         || (Floor(large, total) == Floor(small, total) && Residue(large, total) > Residue(small, total))
  {
    QuotaSplit(large, total);
    QuotaSplit(small, total);
    var f, g := Floor(large, total), Floor(small, total);
    assert (f - g + 1) * total == f * total - g * total + total;
    SignOfProduct(f - g + 1, total);
  }

  /** Distance of an integer allocation from the exact quota, scaled by the total. */
  function Miss(given: int, value: nat, total: nat): nat {
    var d := given * total - value * WHOLE;
    if d >= 0 then d else -d
  }

  function TotalMiss(allocation: seq<int>, values: seq<U64>, total: nat): nat
    requires |allocation| == |values|
  {
    if values == [] then 0 else
      var n := |values| - 1;
      TotalMiss(allocation[..n], values[..n], total) + Miss(allocation[n], values[n], total)
  }

  function SumInt(values: seq<int>): int {
    if values == [] then 0 else SumInt(values[..|values| - 1]) + values[|values| - 1]
  }

  lemma {:induction false} SumIntNat(values: seq<nat>)
    ensures SumInt(values) == Sum(values)
  {
    if values != [] {
      SumIntNat(values[..|values| - 1]);
    }
  }

  /** Moving one entry away from its share costs at least the slope set by the threshold. */
  lemma MissSlope(value: nat, total: nat, theta: nat, s: int, a: int)
    requires total > 0 && theta < total
    requires var (f, r) := (Floor(value, total), Residue(value, total));
             (s == f + 1 && r >= theta) || (s == f && r <= theta)
    ensures Miss(a, value, total) - Miss(s, value, total) >= (a - s) * (total - 2 * theta)
  {
    QuotaSplit(value, total);
    var f, r, d := Floor(value, total), Residue(value, total), a - s;
    assert a * total == s * total + d * total;
    assert d * (total - 2 * theta) == d * total - 2 * (d * theta);
    if s == f + 1 {
      assert s * total == f * total + total;
      UpperSlope(total, theta, r, d);
    } else {
      LowerSlope(total, theta, r, d);
    }
  }

  lemma UpperSlope(total: nat, theta: nat, r: nat, d: int)
    requires theta <= r < total
    ensures d >= 0 ==> d * total + total - r >= 0 && d * theta >= 0
    ensures d < 0 ==> d * total + total <= 0
    ensures d < 0 ==> 2 * r - 2 * total - 2 * (d * total) + 2 * (d * theta) >= 0
  {
    if d < 0 {
      assert (-d - 1) * (total - theta) >= 0;
      assert (-d - 1) * (total - theta) == -(d * total) + d * theta - total + theta;
      assert (-d - 1) * total >= 0;
    }
  }

  lemma LowerSlope(total: nat, theta: nat, r: nat, d: int)
    requires r <= theta < total
    ensures d >= 1 ==> d * total >= total && d * theta >= theta
    ensures d <= 0 ==> d * total <= 0 && d * total <= d * theta
  {
    if d >= 1 {
      assert (d - 1) * total >= 0 && (d - 1) * theta >= 0;
    } else {
      assert (-d) * total >= 0;
      assert (-d) * (total - theta) >= 0;
      assert (-d) * (total - theta) == -(d * total) + d * theta;
    }
  }

  lemma {:induction false} MissSum(values: seq<U64>, shares: seq<nat>, allocation: seq<int>, total: nat, theta: nat)
    requires |shares| == |values| == |allocation| && total > 0 && theta < total
    requires forall i :: 0 <= i < |values| ==>
               Miss(allocation[i], values[i], total) - Miss(shares[i], values[i], total) >= (allocation[i] - shares[i]) * (total - 2 * theta)
    ensures TotalMiss(allocation, values, total) - TotalMiss(shares, values, total)
         >= (SumInt(allocation) - SumInt(shares)) * (total - 2 * theta)
  {
    hide Miss;
    if values != [] {
      var n := |values| - 1;
      MissSum(values[..n], shares[..n], allocation[..n], total, theta);
      var slope := total - 2 * theta;
      Distribute(SumInt(allocation[..n]) - SumInt(shares[..n]), allocation[n] - shares[n], slope);
    }
  }

  lemma Distribute(x: int, y: int, slope: int)
    ensures (x + y) * slope == x * slope + y * slope
  {
  }

  /** No other integer allocation of 10,000 points is closer to the exact quotas in total. */
  lemma SharesOptimal(values: seq<U64>, total: U64, allocation: seq<int>)
    requires total > 0 && total == Sum(values) && |allocation| == |values| && SumInt(allocation) == WHOLE
    ensures TotalMiss(Shares(values, total), values, total) <= TotalMiss(allocation, values, total)
  {
    hide Sum, Order, Bumped, Threshold, Shares, Floor, Residue, Miss, TotalMiss, SumInt;
    var shares, theta := Shares(values, total), Threshold(values, total);
    ThresholdBelow(values, total);
    forall i | 0 <= i < |values|
      ensures Miss(allocation[i], values[i], total) - Miss(shares[i], values[i], total) >= (allocation[i] - shares[i]) * (total - 2 * theta)
    {
      ShareForm(values, total, i);
      MissSlope(values[i], total, theta, shares[i], allocation[i]);
    }
    MissSum(values, shares, allocation, total, theta);
    SharesSum(values, total);
    SumIntNat(shares);
    assert (SumInt(allocation) - SumInt(shares)) * (total - 2 * theta) == 0;
  }

  // ------------------------------------------------------------ the computation

  lemma ScaledFits(value: U64, total: U64)
    requires 0 < total && value <= total
    ensures Mul64(value, 10_000).0 < total
    ensures Div64(Mul64(value, 10_000).0, Mul64(value, 10_000).1, total) == (Floor(value, total), Residue(value, total))
    ensures Floor(value, total) <= WHOLE
  {
    FloorBound(value, total);
    var (high, low) := Mul64(value, 10_000);
    HighAgainstQuotient(value * 10_000, high, low, total);
    var (quotient, residual) := Div64(high, low, total);
    UniqueQuotient(value * 10_000, total, quotient, residual);
  }

  /** The floors so far never exceed the whole, so their 32-bit sum does not wrap. */
  lemma FloorsFit(values: seq<U64>, total: U64, k: nat)
    requires 0 < total == Sum(values) && k <= |values|
    ensures Sum(Floors(values[..k], total)) <= WHOLE
  {
    hide Sum;
    QuotasSum(values[..k], total);
    SumPrefix(values, k);
    var f := Sum(Floors(values[..k], total));
    assert f * total <= total * WHOLE;
    SignOfProduct(f - WHOLE, total);
    assert (f - WHOLE) * total == f * total - WHOLE * total;
  }

  lemma FloorsStep(values: seq<U64>, total: U64, k: nat)
    requires total > 0 && k < |values|
    ensures Sum(Floors(values[..k + 1], total)) == Sum(Floors(values[..k], total)) + Floor(values[k], total)
  {
    assert Floors(values[..k + 1], total)[..k] == Floors(values[..k], total);
  }

  /** First loop: floors, residues and the running 32-bit total. Neither the division's
      panic nor the share guard is reachable. */
  method Divide(values: seq<U64>, total: U64) returns (shares: array<U32>, remainders: array<Remainder>, handedOut: U32)
    requires 0 < total == Sum(values)
    ensures fresh(shares) && fresh(remainders)
    ensures shares[..] == Floors(values, total) && remainders[..] == Residues(values, total)
    ensures handedOut == Sum(Floors(values, total))
  {
    hide Sum, Floor, Residue, Mul64, Div64;
    shares := new U32[|values|];
    remainders := new Remainder[|values|](_ => Remainder(0, 0));
    handedOut := 0;
    SumNothing(values, total);
    for index := 0 to |values|
      invariant handedOut == Sum(Floors(values[..index], total))
      invariant forall k :: 0 <= k < index ==> shares[k] == Floor(values[k], total)
      invariant forall k :: 0 <= k < index ==> remainders[k] == Remainder(k, Residue(values[k], total))
    {
      SumElement(values, index);
      ScaledFits(values[index], total);
      FloorsStep(values, total, index);
      FloorsFit(values, total, index + 1);
      var (high, low) := Mul64(values[index], 10_000);
      var (quotient, residual) := Div64(high, low, total);
      // The source refuses a quotient above the whole here; it never is.
      assert quotient <= WHOLE;
      shares[index] := quotient;
      handedOut := handedOut + shares[index];
      remainders[index] := Remainder(index, residual);
    }
    assert values[..|values|] == values;
  }

  lemma SumNothing(values: seq<U64>, total: U64)
    requires total > 0
    ensures Sum(Floors(values[..0], total)) == 0
  {
  }

  lemma {:induction false} BumpedFits(values: seq<U64>, total: U64, k: nat)
    requires 0 < total == Sum(values) && Indexed(Order(values, total), |values|) && k <= Remaining(values, total) <= |Order(values, total)|
    ensures forall i :: 0 <= i < |values| ==> Bumped(Floors(values, total), Order(values, total), k)[i] <= WHOLE
  {
    hide Sum, Floor, Residue, Order, Bumped;
    BumpedSum(Floors(values, total), Order(values, total), k);
    forall i | 0 <= i < |values|
      ensures Bumped(Floors(values, total), Order(values, total), k)[i] <= WHOLE
    {
      SumElement(Bumped(Floors(values, total), Order(values, total), k), i);
    }
  }

  /** `apportionBasisPoints`: only an overflowing or zero total is refused. */
  method ApportionBasisPoints(values: seq<U64>) returns (r: Result<seq<U32>, ArithmeticError>)
    ensures match r
            case Ok(shares) => Apportioned(values) == Ok(shares)
            case Err(e) => Apportioned(values) == Err(e)
  {
    hide Sum, Floor, Residue, Order, Bumped, Remaining, Indexed, Sort;
    var sum := SumUint64(values);
    if sum.Err? {
      return Err(AdditionOverflow);
    }
    var total := sum.value;
    if total == 0 {
      return Err(ZeroTotal);
    }
    var shares, remainders, handedOut := Divide(values, total);
    SortInPlace(remainders, Larger);
    Prepared(values, total);
    var remaining: int := WHOLE - handedOut;
    assert remaining == Remaining(values, total) && remainders[..] == Order(values, total);
    if remaining > remainders.Length {
      return Err(RemainderInvalid);
    }
    ghost var floors, order := Floors(values, total), Order(values, total);
    BumpedNone(floors, order);
    for index := 0 to remaining
      invariant shares[..] == Bumped(floors, order, index) && remainders[..] == order
    {
      BumpedOne(floors, order, index);
      BumpedFits(values, total, index + 1);
      var target := remainders[index].index;
      assert remainders[index] == order[index];
      assert shares[target] == shares[..][target];
      assert shares[..][target] + 1 == Bumped(floors, order, index + 1)[target];
      ghost var before := shares[..];
      shares[target] := shares[target] + 1;
      assert shares[..] == before[target := before[target] + 1];
    }
    SharesAre(values, total);
    return Ok(shares[..]);
  }

  lemma SharesAre(values: seq<U64>, total: U64)
    requires 0 < total == Sum(values)
    ensures 0 <= Remaining(values, total) <= |Order(values, total)| && Indexed(Order(values, total), |values|)
    ensures Shares(values, total) == Bumped(Floors(values, total), Order(values, total), Remaining(values, total))
  {
    hide Bumped, Sum, Floor, Residue, Order, Remaining;
    Prepared(values, total);
  }

  lemma BumpedNone(floors: seq<nat>, order: seq<Remainder>)
    requires forall j :: 0 <= j < |order| ==> order[j].index < |floors|
    ensures Bumped(floors, order, 0) == floors
  {
  }

  lemma BumpedOne(floors: seq<nat>, order: seq<Remainder>, k: nat)
    requires k < |order| && forall j :: 0 <= j < |order| ==> order[j].index < |floors|
    ensures var before, i := Bumped(floors, order, k), order[k].index;
            Bumped(floors, order, k + 1) == before[i := before[i] + 1]
  {
  }

  lemma Prepared(values: seq<U64>, total: U64)
    requires 0 < total == Sum(values)
    ensures Order(values, total) == Sort(Residues(values, total), Larger)
    ensures 0 <= Remaining(values, total) < |values| == |Order(values, total)|
    ensures Remaining(values, total) == WHOLE - Sum(Floors(values, total))
    ensures Indexed(Order(values, total), |values|)
    ensures forall j :: 0 <= j < |values| ==> Order(values, total)[j].index < |values|
  {
    hide Sum, Floor, Residue;
    OrderFacts(values, total);
    OrderIndices(values, total);
    RemainingBound(values, total);
  }
}

/** In-place sorting by a caller's `less`, as the analysis uses it. Equal elements keep
    their order; where none are equal, every sorting algorithm gives the same array. */
module Sorting {
  import opened Words

  /** The place a new last element sinks to. */
  function Insert<T>(t: seq<T>, x: T, less: (T, T) -> bool): seq<T> {
    var n := |t|;
    if n == 0 || !less(x, t[n - 1]) then t + [x] else Insert(t[..n - 1], x, less) + [t[n - 1]]
  }

  function Sort<T>(s: seq<T>, less: (T, T) -> bool): seq<T> {
    if s == [] then [] else Insert(Sort(s[..|s| - 1], less), s[|s| - 1], less)
  }

  ghost predicate Ordered<T>(s: seq<T>, less: (T, T) -> bool) {
    forall i, j :: 0 <= i < j < |s| ==> !less(s[j], s[i])
  }

  ghost predicate WeakOrder<T(!new)>(less: (T, T) -> bool) {
    && (forall x, y :: less(x, y) ==> !less(y, x))
    && (forall x, y, z :: !less(x, y) && !less(y, z) ==> !less(x, z))
  }

  lemma {:induction false} InsertMembers<T>(t: seq<T>, x: T, less: (T, T) -> bool)
    ensures multiset(Insert(t, x, less)) == multiset(t) + multiset{x}
    ensures |Insert(t, x, less)| == |t| + 1
  {
    var n := |t|;
    if n != 0 && less(x, t[n - 1]) {
      InsertMembers(t[..n - 1], x, less);
      assert t == t[..n - 1] + [t[n - 1]];
    }
  }

  /** Sorting permutes. */
  lemma {:induction false} SortMembers<T>(s: seq<T>, less: (T, T) -> bool)
    ensures multiset(Sort(s, less)) == multiset(s) && |Sort(s, less)| == |s|
  {
    if s != [] {
      var n := |s| - 1;
      SortMembers(s[..n], less);
      InsertMembers(Sort(s[..n], less), s[n], less);
      assert s == s[..n] + [s[n]];
    }
  }

  lemma {:induction false} InsertOrdered<T(!new)>(t: seq<T>, x: T, less: (T, T) -> bool)
    requires WeakOrder(less) && Ordered(t, less)
    ensures Ordered(Insert(t, x, less), less)
  {
    var n := |t|;
    if n != 0 && less(x, t[n - 1]) {
      var sunk := Insert(t[..n - 1], x, less);
      InsertOrdered(t[..n - 1], x, less);
      InsertMembers(t[..n - 1], x, less);
      forall i | 0 <= i < |sunk|
        ensures !less(t[n - 1], sunk[i])
      {
        assert sunk[i] in multiset(sunk);
      }
      OrderedSnoc(sunk, t[n - 1], less);
    } else {
      LastAbove(t, x, less);
      OrderedSnoc(t, x, less);
    }
  }

  lemma LastAbove<T(!new)>(t: seq<T>, x: T, less: (T, T) -> bool)
    requires WeakOrder(less) && Ordered(t, less) && (t == [] || !less(x, t[|t| - 1]))
    ensures forall i :: 0 <= i < |t| ==> !less(x, t[i])
  {
  }

  lemma OrderedSnoc<T>(t: seq<T>, x: T, less: (T, T) -> bool)
    requires Ordered(t, less) && forall i :: 0 <= i < |t| ==> !less(x, t[i])
    ensures Ordered(t + [x], less)
  {
  }

  /** Sorting orders. */
  lemma {:induction false} SortOrdered<T(!new)>(s: seq<T>, less: (T, T) -> bool)
    requires WeakOrder(less)
    ensures Ordered(Sort(s, less), less)
  {
    hide WeakOrder;
    if s != [] {
      SortOrdered(s[..|s| - 1], less);
      InsertOrdered(Sort(s[..|s| - 1], less), s[|s| - 1], less);
    }
  }

  // ------------------------------------------------------------- stability

  /** The elements that `p` selects, in order. */
  function Selected<T>(s: seq<T>, p: T -> bool): seq<T> {
    if s == [] then [] else
      var n := |s| - 1;
      if p(s[n]) then Selected(s[..n], p) + [s[n]] else Selected(s[..n], p)
  }

  /** Neither below nor above `y`. */
  function Like<T>(less: (T, T) -> bool, y: T): T -> bool {
    x => !less(x, y) && !less(y, x)
  }

  lemma SelectedSnoc<T>(s: seq<T>, x: T, p: T -> bool)
    ensures Selected(s + [x], p) == if p(x) then Selected(s, p) + [x] else Selected(s, p)
  {
    assert (s + [x])[..|s|] == s;
  }

  lemma {:induction false} InsertStable<T(!new)>(t: seq<T>, x: T, less: (T, T) -> bool, y: T)
    requires WeakOrder(less)
    ensures Selected(Insert(t, x, less), Like(less, y)) == Selected(t + [x], Like(less, y))
  {
    var n, p := |t|, Like(less, y);
    if n != 0 && less(x, t[n - 1]) {
      InsertStable(t[..n - 1], x, less, y);
      SelectedSnoc(Insert(t[..n - 1], x, less), t[n - 1], p);
      SelectedSnoc(t[..n - 1], x, p);
      SelectedSnoc(t, x, p);
      assert t == t[..n - 1] + [t[n - 1]];
      SelectedSnoc(t[..n - 1], t[n - 1], p);
    }
  }

  /** Sorting is stable: elements that `less` cannot tell apart keep their order. */
  lemma {:induction false} SortStable<T(!new)>(s: seq<T>, less: (T, T) -> bool, y: T)
    requires WeakOrder(less)
    ensures Selected(Sort(s, less), Like(less, y)) == Selected(s, Like(less, y))
  {
    hide WeakOrder;
    if s != [] {
      var n := |s| - 1;
      SortStable(s[..n], less, y);
      InsertStable(Sort(s[..n], less), s[n], less, y);
      SelectedSnoc(Sort(s[..n], less), s[n], Like(less, y));
    }
  }

  ghost predicate SameClasses<T(!new)>(s: seq<T>, t: seq<T>, less: (T, T) -> bool) {
    forall y :: Selected(s, Like(less, y)) == Selected(t, Like(less, y))
  }

  lemma {:induction false} SelectedFrom<T>(s: seq<T>, p: T -> bool)
    ensures Selected(s, p) != [] ==> exists i :: 0 <= i < |s| && p(s[i])
  {
    if s != [] {
      var n := |s| - 1;
      SelectedFrom(s[..n], p);
      if p(s[n]) {
      } else if Selected(s, p) != [] {
        var i :| 0 <= i < n && p(s[..n][i]);
        assert p(s[i]);
      }
    }
  }

  /** The last elements of two such arrangements are alike, hence equal. */
  lemma LastNotBelow<T(!new)>(s: seq<T>, t: seq<T>, less: (T, T) -> bool)
    requires WeakOrder(less) && Ordered(s, less) && SameClasses(s, t, less) && t != []
    ensures s != [] && !less(s[|s| - 1], t[|t| - 1])
  {
    var z := t[|t| - 1];
    assert Selected(t, Like(less, z)) != [];
    SelectedFrom(s, Like(less, z));
    var i :| 0 <= i < |s| && Like(less, z)(s[i]);
    assert !less(s[|s| - 1], s[i]) && !less(s[i], z);
  }

  lemma LastAlike<T(!new)>(s: seq<T>, t: seq<T>, less: (T, T) -> bool)
    requires WeakOrder(less) && Ordered(s, less) && Ordered(t, less) && SameClasses(s, t, less) && s != [] && t != []
    ensures s[|s| - 1] == t[|t| - 1] && SameClasses(s[..|s| - 1], t[..|t| - 1], less)
  {
    var n, m := |s| - 1, |t| - 1;
    var x, z := s[n], t[m];
    LastNotBelow(s, t, less);
    LastNotBelow(t, s, less);
    var p := Like(less, x);
    assert Selected(s, p) == Selected(s[..n], p) + [x];
    assert Selected(t, p) == Selected(t[..m], p) + [z];
    assert x == Selected(s, p)[|Selected(s, p)| - 1] == z;
    forall y
      ensures Selected(s[..n], Like(less, y)) == Selected(t[..m], Like(less, y))
    {
      var q := Like(less, y);
      assert Selected(s, q) == Selected(t, q);
      if q(x) {
        assert Selected(s[..n], q) == Selected(s, q)[..|Selected(s, q)| - 1];
        assert Selected(t[..m], q) == Selected(t, q)[..|Selected(t, q)| - 1];
      }
    }
  }

  /** There is only one stable ordered arrangement, so every stable sort gives the same. */
  lemma {:induction false} StableUnique<T(!new)>(s: seq<T>, t: seq<T>, less: (T, T) -> bool)
    requires WeakOrder(less) && Ordered(s, less) && Ordered(t, less) && SameClasses(s, t, less)
    ensures s == t
    decreases |s|
  {
    hide WeakOrder, SameClasses;
    if s == [] || t == [] {
      NoneLeft(s, t, less);
    } else {
      var n, m := |s| - 1, |t| - 1;
      LastAlike(s, t, less);
      StableUnique(s[..n], t[..m], less);
      assert s == s[..n] + [s[n]] && t == t[..m] + [t[m]];
    }
  }

  lemma NoneLeft<T(!new)>(s: seq<T>, t: seq<T>, less: (T, T) -> bool)
    requires WeakOrder(less) && Ordered(s, less) && Ordered(t, less) && SameClasses(s, t, less) && (s == [] || t == [])
    ensures s == [] && t == []
  {
    hide WeakOrder, Ordered;
    if t != [] {
      LastNotBelow(s, t, less);
    }
    if s != [] {
      LastNotBelow(t, s, less);
    }
  }

  /** Whatever stable sort a library uses, it computes this function. */
  lemma StableIsSort<T(!new)>(s: seq<T>, t: seq<T>, less: (T, T) -> bool)
    requires WeakOrder(less) && Ordered(t, less) && SameClasses(s, t, less)
    ensures t == Sort(s, less)
  {
    hide WeakOrder;
    SortOrdered(s, less);
    forall y
      ensures Selected(Sort(s, less), Like(less, y)) == Selected(t, Like(less, y))
    {
      SortStable(s, less, y);
    }
    StableUnique(Sort(s, less), t, less);
  }

  /** The array while its element `i` sinks: a hole at `j` inside the sorted stretch `t`. */
  function Sinking<T>(t: seq<T>, hole: T, rest: seq<T>, j: nat): seq<T>
    requires j <= |t|
  {
    t[..j] + [hole] + t[j..] + rest
  }

  lemma SinkingElements<T>(t: seq<T>, hole: T, rest: seq<T>, j: nat)
    requires j <= |t|
    ensures var all := Sinking(t, hole, rest, j);
            && |all| == |t| + 1 + |rest| && all[j] == hole
            && (forall k :: 0 <= k < j ==> all[k] == t[k]) && (forall k :: j < k <= |t| ==> all[k] == t[k - 1])
            && (forall k :: |t| < k < |all| ==> all[k] == rest[k - |t| - 1])
  {
  }

  lemma SinkSlides<T>(t: seq<T>, x: T, rest: seq<T>, hole: T, j: nat)
    requires j <= |t|
    ensures |Sinking(t, hole, rest, j)| > j && Sinking(t, hole, rest, j)[j := x] == Sinking(t, x, rest, j)
    ensures j > 0 ==> Sinking(t, hole, rest, j)[j := t[j - 1]] == Sinking(t, t[j - 1], rest, j - 1)
  {
    hide Sinking;
    SinkingElements(t, hole, rest, j);
    SinkingElements(t, x, rest, j);
    if j > 0 {
      SinkingElements(t, t[j - 1], rest, j - 1);
    }
  }

  lemma InsertSlides<T>(t: seq<T>, x: T, j: nat, less: (T, T) -> bool)
    requires 0 < j <= |t| && less(x, t[j - 1])
    requires Insert(t, x, less) == Insert(t[..j], x, less) + t[j..]
    ensures Insert(t, x, less) == Insert(t[..j - 1], x, less) + t[j - 1..]
  {
    hide Insert;
    InsertUnfold(t[..j], x, less);
    assert t[..j][..j - 1] == t[..j - 1];
    Regroup(Insert(t[..j - 1], x, less), t, j - 1);
  }

  lemma InsertUnfold<T>(t: seq<T>, x: T, less: (T, T) -> bool)
    requires t != [] && less(x, t[|t| - 1])
    ensures Insert(t, x, less) == Insert(t[..|t| - 1], x, less) + [t[|t| - 1]]
  {
  }

  lemma Regroup<T>(low: seq<T>, t: seq<T>, k: nat)
    requires k < |t|
    ensures (low + [t[k]]) + t[k + 1..] == low + t[k..]
  {
  }

  lemma SinkDone<T>(t: seq<T>, x: T, rest: seq<T>, j: nat, less: (T, T) -> bool)
    requires j <= |t| && (j == 0 || !less(x, t[j - 1]))
    requires Insert(t, x, less) == Insert(t[..j], x, less) + t[j..]
    ensures Sinking(t, x, rest, j) == Insert(t, x, less) + rest
  {
  }

  lemma SinkStart<T>(s: seq<T>, i: nat, less: (T, T) -> bool)
    requires i < |s|
    ensures s == Sinking(s[..i], s[i], s[i + 1..], i)
    ensures Insert(s[..i], s[i], less) == Insert(s[..i][..i], s[i], less) + s[..i][i..]
  {
    assert s[..i][..i] == s[..i];
  }

  lemma SinkingAt<T>(t: seq<T>, hole: T, rest: seq<T>, j: nat)
    requires 0 < j <= |t|
    ensures Sinking(t, hole, rest, j)[j - 1] == t[j - 1]
  {
  }

  /** Sink `a[i]` into the sorted stretch before it. */
  method Sink<T>(a: array<T>, i: nat, less: (T, T) -> bool)
    requires i < a.Length
    modifies a
    ensures a[..] == Insert(old(a[..i]), old(a[i]), less) + old(a[i + 1..])
  {
    hide Sinking, Insert;
    ghost var t, rest := a[..i], a[i + 1..];
    var x := a[i];
    var j := i;
    SinkStart(a[..], i, less);
    assert a[..][..i] == t && a[..][i + 1..] == rest;
    ghost var hole := x;
    while j > 0 && less(x, a[j - 1])
      invariant j <= i && Insert(t, x, less) == Insert(t[..j], x, less) + t[j..]
      invariant a[..] == Sinking(t, hole, rest, j)
      invariant j > 0 ==> a[j - 1] == t[j - 1]
    {
      InsertSlides(t, x, j, less);
      SinkSlides(t, x, rest, hole, j);
      ghost var before := a[..];
      hole := t[j - 1];
      a[j] := a[j - 1];
      assert a[..] == before[j := hole];
      j := j - 1;
      if j > 0 {
        SinkingAt(t, hole, rest, j);
        assert a[..][j - 1] == a[j - 1];
      }
    }
    SinkDone(t, x, rest, j, less);
    SinkSlides(t, x, rest, hole, j);
    ghost var before := a[..];
    a[j] := x;
    assert a[..] == before[j := x];
  }

  lemma SortStep<T>(s: seq<T>, i: nat, now: seq<T>, less: (T, T) -> bool)
    requires i < |s| && now == Sort(s[..i], less) + s[i..] && |Sort(s[..i], less)| == i
    ensures now[..i] == Sort(s[..i], less) && now[i] == s[i] && now[i + 1..] == s[i + 1..]
    ensures Insert(now[..i], now[i], less) == Sort(s[..i + 1], less)
  {
    assert s[..i + 1][..i] == s[..i];
  }

  /** The whole slice, in place. */
  method SortInPlace<T>(a: array<T>, less: (T, T) -> bool)
    modifies a
    ensures a[..] == Sort(old(a[..]), less)
  {
    hide Insert, Sort;
    ghost var s := a[..];
    SortNothing(s, less);
    for i := 0 to a.Length
      invariant a[..] == Sort(s[..i], less) + s[i..]
    {
      SortMembers(s[..i], less);
      SortStep(s, i, a[..], less);
      assert a[..][..i] == a[..i] && a[..][i + 1..] == a[i + 1..];
      Sink(a, i, less);
    }
    assert s[..a.Length] == s && s[a.Length..] == [];
  }

  lemma SortNothing<T>(s: seq<T>, less: (T, T) -> bool)
    ensures s == Sort(s[..0], less) + s[0..]
  {
  }

  // ------------------------------------------------- total orders on members

  ghost predicate Strictly<T>(s: seq<T>, before: (T, T) -> bool) {
    forall i, j :: 0 <= i < j < |s| ==> before(s[i], s[j])
  }

  ghost predicate Asymmetric<T(!new)>(before: (T, T) -> bool) {
    forall x, y :: before(x, y) ==> !before(y, x)
  }

  lemma LastSame<T(!new)>(s: seq<T>, t: seq<T>, before: (T, T) -> bool)
    requires Asymmetric(before) && Strictly(s, before) && Strictly(t, before)
    requires multiset(s) == multiset(t) && |s| == |t| && s != []
    ensures s[|s| - 1] == t[|t| - 1]
    ensures Strictly(s[..|s| - 1], before) && Strictly(t[..|t| - 1], before)
  {
    var n := |s| - 1;
    assert s[n] in multiset(t) && t[n] in multiset(s);
    var i :| 0 <= i <= n && t[i] == s[n];
    var j :| 0 <= j <= n && s[j] == t[n];
  }

  /** The members determine a strictly ordered arrangement. */
  lemma {:induction false} StrictUnique<T(!new)>(s: seq<T>, t: seq<T>, before: (T, T) -> bool)
    requires Asymmetric(before) && Strictly(s, before) && Strictly(t, before)
    requires multiset(s) == multiset(t)
    ensures s == t
  {
    hide Asymmetric, Strictly;
    SameSize(s, t);
    if s != [] {
      var n := |s| - 1;
      LastSame(s, t, before);
      AllButLast(s);
      AllButLast(t);
      StrictUnique(s[..n], t[..n], before);
      assert s == s[..n] + [s[n]] && t == t[..n] + [t[n]];
    }
  }

  // --------------------------------------------------------- machine words

  predicate Below(x: U64, y: U64) {
    x < y
  }

  ghost predicate Ascending(s: seq<U64>) {
    forall i, j :: 0 <= i < j < |s| ==> s[i] <= s[j]
  }

  function Ascend(s: seq<U64>): seq<U64> {
    Sort(s, Below)
  }

  lemma AscendSorts(s: seq<U64>)
    ensures Ascending(Ascend(s)) && multiset(Ascend(s)) == multiset(s) && |Ascend(s)| == |s|
  {
    SortOrdered(s, Below);
    SortMembers(s, Below);
    assert forall i, j :: 0 <= i < j < |Ascend(s)| ==> !Below(Ascend(s)[j], Ascend(s)[i]);
  }

  /** One ascending arrangement only, so the sorting algorithm does not matter. */
  lemma {:induction false} AscendingUnique(s: seq<U64>, t: seq<U64>)
    requires Ascending(s) && Ascending(t) && multiset(s) == multiset(t)
    ensures s == t
  {
    SameSize(s, t);
    if s != [] {
      var n := |s| - 1;
      LastAgrees(s, t);
      AscendingUnique(s[..n], t[..n]);
      assert s == s[..n] + [s[n]] && t == t[..n] + [t[n]];
    }
  }

  lemma SameSize<T>(s: seq<T>, t: seq<T>)
    requires multiset(s) == multiset(t)
    ensures |s| == |t|
  {
    assert |s| == |multiset(s)| == |multiset(t)| == |t|;
  }

  lemma LastAgrees(s: seq<U64>, t: seq<U64>)
    requires Ascending(s) && Ascending(t) && multiset(s) == multiset(t) && |s| == |t| && s != []
    ensures var n := |s| - 1;
            && s[n] == t[n] && multiset(s[..n]) == multiset(t[..n]) && Ascending(s[..n]) && Ascending(t[..n])
  {
    LastIsLargest(s, t);
    LastIsLargest(t, s);
    AllButLast(s);
    AllButLast(t);
  }

  lemma LastIsLargest(s: seq<U64>, t: seq<U64>)
    requires Ascending(s) && multiset(s) == multiset(t) && s != [] && t != []
    ensures t[|t| - 1] <= s[|s| - 1]
  {
    assert t[|t| - 1] in multiset(t);
    assert t[|t| - 1] in s;
  }

  lemma AllButLast<T>(s: seq<T>)
    requires s != []
    ensures multiset(s[..|s| - 1]) == multiset(s) - multiset{s[|s| - 1]}
  {
    assert s == s[..|s| - 1] + [s[|s| - 1]];
  }
}

/**
 Unstable sorting. A library sort may return any arrangement whose neighbours
 are in order; when no two elements tie, there is only one.
 */
module Sorting {

  /** A strict weak order: ties are an equivalence. */
  ghost predicate StrictWeak<T(!new)>(less: (T, T) -> bool) {
    forall a, b, c :: OrderLaws(less, a, b, c)
  }

  /** Irreflexive, transitive, and anything between ordered elements is ordered with one of them. */
  predicate OrderLaws<T>(less: (T, T) -> bool, a: T, b: T, c: T) {
    && !less(a, a)
    && (less(a, b) && less(b, c) ==> less(a, c))
    && (less(a, c) ==> less(a, b) || less(b, c))
  }

  ghost predicate Sorted<T>(less: (T, T) -> bool, s: seq<T>) {
    forall i, j :: 0 <= i < j < |s| ==> !less(s[j], s[i])
  }

  /** What a sort may return for s. */
  ghost predicate IsSortOf<T>(less: (T, T) -> bool, s: seq<T>, out: seq<T>) {
    multiset(out) == multiset(s) && Sorted(less, out)
  }

  ghost predicate TieAt<T>(less: (T, T) -> bool, s: seq<T>, i: int) {
    0 < i < |s| && !less(s[i - 1], s[i])
  }

  ghost predicate HasTie<T>(less: (T, T) -> bool, s: seq<T>) {
    exists i :: 0 < i < |s| && TieAt(less, s, i)
  }

  ghost predicate Distinct<T>(less: (T, T) -> bool, s: seq<T>) {
    forall i, j :: 0 <= i < j < |s| ==> less(s[i], s[j]) || less(s[j], s[i])
  }

  /** In sorted order a tie anywhere shows up between neighbours. */
  lemma TieIsAdjacent<T(!new)>(less: (T, T) -> bool, out: seq<T>)
    requires StrictWeak(less) && Sorted(less, out)
    ensures HasTie(less, out) <==> !Distinct(less, out)
  {
    if HasTie(less, out) {
      var k :| 0 < k < |out| && TieAt(less, out, k);
      assert !less(out[k], out[k - 1]);
    }
    if i, j :| 0 <= i < j < |out| && !less(out[i], out[j]) && !less(out[j], out[i]) {
      var k := i + 1;
      assert OrderLaws(less, out[i], out[j], out[k]);
      assert TieAt(less, out, k);
    }
  }

  lemma SameHead<T(!new)>(less: (T, T) -> bool, a: seq<T>, b: seq<T>)
    requires StrictWeak(less) && Sorted(less, a) && Sorted(less, b) && multiset(a) == multiset(b)
    requires Distinct(less, a) && a != [] && b != []
    ensures a[0] == b[0]
  {
    assert a[0] in multiset(b) && b[0] in multiset(a);
    var m :| 0 <= m < |b| && b[m] == a[0];
    var k :| 0 <= k < |a| && a[k] == b[0];
    assert OrderLaws(less, a[0], a[0], a[0]);
  }

  /** Two sorted arrangements of the same tie-free elements are equal. */
  lemma {:induction false} UniqueArrangement<T(!new)>(less: (T, T) -> bool, a: seq<T>, b: seq<T>)
    requires StrictWeak(less) && Sorted(less, a) && Sorted(less, b) && multiset(a) == multiset(b)
    requires Distinct(less, a)
    ensures a == b
  {
    assert |a| == |multiset(a)| == |multiset(b)| == |b|;
    if a != [] {
      SameHead(less, a, b);
      assert a == [a[0]] + a[1..] && b == [b[0]] + b[1..];
      assert multiset(a[1..]) == multiset(a) - multiset{a[0]};
      assert multiset(b[1..]) == multiset(b) - multiset{b[0]};
      UniqueArrangement(less, a[1..], b[1..]);
    }
  }

  /** Whatever the input order and whatever the sort does with ties: the same verdict and the same result. */
  lemma SortIsOrderIndependent<T(!new)>(less: (T, T) -> bool, s: seq<T>, s': seq<T>, out: seq<T>, out': seq<T>)
    requires StrictWeak(less) && multiset(s) == multiset(s')
    requires IsSortOf(less, s, out) && IsSortOf(less, s', out')
    ensures HasTie(less, out) <==> HasTie(less, out')
    ensures !HasTie(less, out) ==> out == out'
  {
    TieIsAdjacent(less, out);
    TieIsAdjacent(less, out');
    if Distinct(less, out) {
      UniqueArrangement(less, out, out');
    } else if Distinct(less, out') {
      UniqueArrangement(less, out', out);
    }
  }

  /** The arrangement of s with no regard to how it is computed. */
  ghost function Arranged<T(!new)>(less: (T, T) -> bool, s: seq<T>): (out: seq<T>)
    requires StrictWeak(less)
    ensures IsSortOf(less, s, out)
  {
    if s == [] then []
    else
      var n := |s| - 1;
      assert s == s[..n] + [s[n]];
      InsertExists(less, Arranged(less, s[..n]), s[n]);
      var out :| IsSortOf(less, s, out);
      out
  }

  lemma InsertExists<T(!new)>(less: (T, T) -> bool, sorted: seq<T>, x: T)
    requires StrictWeak(less) && Sorted(less, sorted)
    ensures exists out :: IsSortOf(less, sorted + [x], out)
  {
    var k := |sorted|;
    while k > 0 && less(x, sorted[k - 1])
      invariant 0 <= k <= |sorted|
      invariant forall i :: k <= i < |sorted| ==> less(x, sorted[i])
    {
      k := k - 1;
    }
    SplitInsert(less, sorted, x, k);
  }

  lemma SplitMultiset<T>(s: seq<T>, x: T, k: nat)
    requires k <= |s|
    ensures multiset(s[..k] + [x] + s[k..]) == multiset(s + [x])
  {
    assert s == s[..k] + s[k..];
  }

  lemma SplitSorted<T(!new)>(less: (T, T) -> bool, sorted: seq<T>, x: T, k: nat, out: seq<T>)
    requires Sorted(less, sorted) && k <= |sorted| && out == sorted[..k] + [x] + sorted[k..]
    requires forall i :: k <= i < |sorted| ==> !less(sorted[i], x)
    requires forall i :: 0 <= i < k ==> !less(x, sorted[i])
    ensures Sorted(less, out)
  {
  }

  lemma SplitInsert<T(!new)>(less: (T, T) -> bool, sorted: seq<T>, x: T, k: nat)
    requires StrictWeak(less) && Sorted(less, sorted) && k <= |sorted|
    requires forall i :: k <= i < |sorted| ==> less(x, sorted[i])
    requires k > 0 ==> !less(x, sorted[k - 1])
    ensures IsSortOf(less, sorted + [x], sorted[..k] + [x] + sorted[k..])
  {
    forall i | k <= i < |sorted| ensures !less(sorted[i], x) {
      assert OrderLaws(less, x, sorted[i], x);
    }
    forall i | 0 <= i < k ensures !less(x, sorted[i]) {
      assert OrderLaws(less, x, sorted[k - 1], sorted[i]);
    }
    SplitMultiset(sorted, x, k);
    SplitSorted(less, sorted, x, k, sorted[..k] + [x] + sorted[k..]);
  }

  /** An insertion sort, standing for the library's; callers learn only that the result is a sort. */
  method Sort<T(!new)>(less: (T, T) -> bool, s: seq<T>) returns (out: seq<T>)
    requires StrictWeak(less)
    ensures IsSortOf(less, s, out)
  {
    out := [];
    for i := 0 to |s|
      invariant IsSortOf(less, s[..i], out)
    {
      assert s[..i + 1] == s[..i] + [s[i]];
      var k := |out|;
      while k > 0 && less(s[i], out[k - 1])
        invariant 0 <= k <= |out|
        invariant forall j :: k <= j < |out| ==> less(s[i], out[j])
      {
        k := k - 1;
      }
      SplitInsert(less, out, s[i], k);
      out := out[..k] + [s[i]] + out[k..];
    }
    assert s[..|s|] == s;
  }

  // ---------------------------------------------------------------------
  // Ties do not depend on the order of the elements
  // ---------------------------------------------------------------------

  lemma TwoPlaces<T>(s: seq<T>, x: T) returns (i: nat, j: nat)
    requires multiset(s)[x] >= 2
    ensures i < j < |s| && s[i] == x && s[j] == x
  {
    i :| 0 <= i < |s| && s[i] == x;
    assert s == s[..i] + [x] + s[i + 1..];
    if x in s[..i] {
      j := i;
      i :| 0 <= i < j && s[i] == x;
    } else {
      assert x in s[i + 1..];
      var k :| 0 <= k < |s[i + 1..]| && s[i + 1..][k] == x;
      j := i + 1 + k;
    }
  }

  lemma TieTravels<T(!new)>(less: (T, T) -> bool, a: seq<T>, b: seq<T>)
    requires multiset(a) == multiset(b) && !Distinct(less, a)
    ensures !Distinct(less, b)
  {
    var i, j :| 0 <= i < j < |a| && !less(a[i], a[j]) && !less(a[j], a[i]);
    if a[i] == a[j] {
      assert a == a[..j] + [a[j]] + a[j + 1..];
      assert a[i] in a[..j];
      var k, l := TwoPlaces(b, a[i]);
    } else {
      assert a[i] in multiset(b) && a[j] in multiset(b);
      var k :| 0 <= k < |b| && b[k] == a[i];
      var l :| 0 <= l < |b| && b[l] == a[j];
    }
  }

  lemma DistinctIsOrderFree<T(!new)>(less: (T, T) -> bool, a: seq<T>, b: seq<T>)
    requires multiset(a) == multiset(b)
    ensures Distinct(less, a) <==> Distinct(less, b)
  {
    if !Distinct(less, a) {
      TieTravels(less, a, b);
    }
    if !Distinct(less, b) {
      TieTravels(less, b, a);
    }
  }

  /** A sort of tie-free elements is the arrangement; a sort of elements with a tie shows one. */
  lemma SortVerdict<T(!new)>(less: (T, T) -> bool, s: seq<T>, out: seq<T>)
    requires StrictWeak(less) && IsSortOf(less, s, out)
    ensures HasTie(less, out) <==> !Distinct(less, s)
    ensures Distinct(less, s) ==> out == Arranged(less, s)
  {
    TieIsAdjacent(less, out);
    DistinctIsOrderFree(less, s, out);
    if Distinct(less, s) {
      UniqueArrangement(less, out, Arranged(less, s));
    }
  }
}

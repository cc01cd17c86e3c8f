/** Stable insertion sort, standing for the library sorts the sources call. */
module Sorting {

  /** Puts `x` behind everything it does not have to precede. */
  function Insert<T>(before: (T, T) -> bool, s: seq<T>, x: T): seq<T> {
    if s == [] then [x]
    else if before(x, s[0]) then [x] + s
    else [s[0]] + Insert(before, s[1..], x)
  }

  function StableSort<T>(before: (T, T) -> bool, s: seq<T>): seq<T> {
    if s == [] then []
    else Insert(before, StableSort(before, s[..|s| - 1]), s[|s| - 1])
  }

  lemma {:induction false} InsertKeeps<T>(before: (T, T) -> bool, s: seq<T>, x: T)
    ensures multiset(Insert(before, s, x)) == multiset(s) + multiset{x}
  {
    if s != [] {
      assert s == [s[0]] + s[1..];
      if !before(x, s[0]) {
        InsertKeeps(before, s[1..], x);
      }
    }
  }

  /** Sorting rearranges. */
  lemma {:induction false} StableSortKeeps<T>(before: (T, T) -> bool, s: seq<T>)
    ensures multiset(StableSort(before, s)) == multiset(s)
  {
    if s != [] {
      var front := s[..|s| - 1];
      assert s == front + [s[|s| - 1]];
      StableSortKeeps(before, front);
      InsertKeeps(before, StableSort(before, front), s[|s| - 1]);
    }
  }

  /** A strict weak order on the elements of interest. */
  ghost predicate WeakOrder<T(!new)>(before: (T, T) -> bool, among: T -> bool) {
    && (forall a, b | among(a) && among(b) && before(a, b) :: !before(b, a))
    && (forall a, b, c | among(a) && among(b) && among(c) && before(a, c) :: before(a, b) || before(b, c))
  }

  /** No later element has to precede an earlier one. */
  predicate Sorted<T>(before: (T, T) -> bool, s: seq<T>) {
    forall i, j | 0 <= i < j < |s| :: !before(s[j], s[i])
  }

  lemma {:induction false} InsertSorts<T(!new)>(before: (T, T) -> bool, among: T -> bool, s: seq<T>, x: T)
    requires WeakOrder(before, among) && among(x) && forall y <- s :: among(y)
    requires Sorted(before, s)
    ensures Sorted(before, Insert(before, s, x))
  {
    var r := Insert(before, s, x);
    if s != [] {
      if before(x, s[0]) {
        forall i, j | 0 <= i < j < |r| ensures !before(r[j], r[i]) {
          if i == 0 && j > 1 {
            assert before(x, s[0]) && !before(s[j - 1], s[0]);
            assert among(s[0]) && among(s[j - 1]);
          }
        }
      } else {
        InsertSorts(before, among, s[1..], x);
        InsertKeeps(before, s[1..], x);
        var tail := Insert(before, s[1..], x);
        forall i, j | 0 <= i < j < |r| ensures !before(r[j], r[i]) {
          if i == 0 {
            assert tail[j - 1] in multiset(tail);
            assert tail[j - 1] == x || tail[j - 1] in s[1..];
            if tail[j - 1] != x {
              var k :| 0 <= k < |s[1..]| && s[1..][k] == tail[j - 1];
              assert !before(s[k + 1], s[0]);
            }
          }
        }
      }
    }
  }

  /** Sorting sorts. */
  lemma {:induction false} StableSortSorts<T(!new)>(before: (T, T) -> bool, among: T -> bool, s: seq<T>)
    requires WeakOrder(before, among) && forall y <- s :: among(y)
    ensures Sorted(before, StableSort(before, s))
  {
    if s != [] {
      var front := s[..|s| - 1];
      StableSortSorts(before, among, front);
      StableSortKeeps(before, front);
      forall y <- StableSort(before, front) ensures among(y) {
        assert y in multiset(front);
      }
      InsertSorts(before, among, StableSort(before, front), s[|s| - 1]);
    }
  }

  // -------------------------------------------------------------- stability

  /** `places` says where in `s` each element of `r` stood: every place once. */
  predicate Rearranges<T(==)>(s: seq<T>, r: seq<T>, places: seq<nat>) {
    && |places| == |r| == |s|
    && (forall i | 0 <= i < |r| :: places[i] < |s| && r[i] == s[places[i]])
    && (forall i, j | 0 <= i < j < |r| :: places[i] != places[j])
  }

  /** Place `x` has to come before place `y`: ranked before it, or unranked and earlier. */
  predicate Earlier<T>(before: (T, T) -> bool, s: seq<T>, x: nat, y: nat)
    requires x < |s| && y < |s|
  {
    before(s[x], s[y]) || (!before(s[y], s[x]) && x < y)
  }

  /** `r` is `s` sorted, with unranked elements in their old order. */
  predicate StablySorted<T(==)>(before: (T, T) -> bool, s: seq<T>, r: seq<T>, places: seq<nat>) {
    && Rearranges(s, r, places)
    && forall i, j | 0 <= i < j < |r| :: Earlier(before, s, places[i], places[j])
  }

  /** Where `Insert` puts `x`: behind elements it does not precede, in front of one it does. */
  lemma {:induction false} InsertPlace<T>(before: (T, T) -> bool, s: seq<T>, x: T) returns (pos: nat)
    ensures pos <= |s| && Insert(before, s, x) == s[..pos] + [x] + s[pos..]
    ensures forall i | 0 <= i < pos :: !before(x, s[i])
    ensures pos < |s| ==> before(x, s[pos])
  {
    if s == [] {
      pos := 0;
    } else if before(x, s[0]) {
      pos := 0;
      assert [x] + s == s[..0] + [x] + s[0..];
    } else {
      var rest := InsertPlace(before, s[1..], x);
      pos := rest + 1;
      assert [s[0]] + (s[1..][..rest] + [x] + s[1..][rest..]) == s[..pos] + [x] + s[pos..];
      forall i | 0 <= i < pos ensures !before(x, s[i]) {
        assert i > 0 ==> s[i] == s[1..][i - 1];
      }
    }
  }

  /** The sort is stable: under a weak order it sorts and keeps unranked elements in order. */
  lemma {:induction false} StableSortIsStable<T(!new)>(before: (T, T) -> bool, among: T -> bool, s: seq<T>)
    returns (places: seq<nat>)
    requires WeakOrder(before, among) && forall y <- s :: among(y)
    ensures StablySorted(before, s, StableSort(before, s), places)
  {
    if s == [] {
      places := [];
    } else {
      var n := |s| - 1;
      var front, x := s[..n], s[n];
      var earlier := StableSortIsStable(before, among, front);
      StableSortSorts(before, among, front);
      var sorted := StableSort(before, front);
      var pos := InsertPlace(before, sorted, x);
      places := earlier[..pos] + [n] + earlier[pos..];
      InsertedStably(before, among, s, sorted, earlier, pos);
    }
  }

  lemma InsertedStably<T(!new)>(
    before: (T, T) -> bool, among: T -> bool, s: seq<T>, sorted: seq<T>, earlier: seq<nat>, pos: nat)
    requires s != [] && WeakOrder(before, among) && forall y <- s :: among(y)
    requires StablySorted(before, s[..|s| - 1], sorted, earlier) && Sorted(before, sorted) && pos <= |sorted|
    requires forall i | 0 <= i < pos :: !before(s[|s| - 1], sorted[i])
    requires pos < |sorted| ==> before(s[|s| - 1], sorted[pos])
    ensures StablySorted(
      before, s, sorted[..pos] + [s[|s| - 1]] + sorted[pos..], earlier[..pos] + [|s| - 1] + earlier[pos..])
  {
    var n := |s| - 1;
    var x := s[n];
    forall i | 0 <= i < |sorted| ensures earlier[i] < n && sorted[i] == s[earlier[i]] && among(sorted[i]) {
      assert s[..n][earlier[i]] == s[earlier[i]];
    }
    forall i | pos <= i < |sorted| ensures before(x, sorted[i]) {
      assert i > pos ==> !before(sorted[i], sorted[pos]);
    }
    forall i, j | 0 <= i < j < |sorted| ensures Earlier(before, s, earlier[i], earlier[j]) {
      assert Earlier(before, s[..n], earlier[i], earlier[j]);
    }
    InsertedRearranges(s, sorted, earlier, pos);
    InsertedInOrder(before, s, earlier, pos);
  }

  lemma InsertedRearranges<T>(s: seq<T>, sorted: seq<T>, earlier: seq<nat>, pos: nat)
    requires s != [] && |earlier| == |sorted| == |s| - 1 && pos <= |sorted|
    requires forall i | 0 <= i < |sorted| :: earlier[i] < |s| - 1 && sorted[i] == s[earlier[i]]
    requires forall i, j | 0 <= i < j < |sorted| :: earlier[i] != earlier[j]
    ensures Rearranges(s, sorted[..pos] + [s[|s| - 1]] + sorted[pos..], earlier[..pos] + [|s| - 1] + earlier[pos..])
  {
  }

  lemma InsertedInOrder<T>(before: (T, T) -> bool, s: seq<T>, earlier: seq<nat>, pos: nat)
    requires s != [] && |earlier| == |s| - 1 && pos <= |earlier|
    requires forall i | 0 <= i < |earlier| :: earlier[i] < |s| - 1
    requires forall i, j | 0 <= i < j < |earlier| :: Earlier(before, s, earlier[i], earlier[j])
    requires forall i | 0 <= i < pos :: Earlier(before, s, earlier[i], |s| - 1)
    requires forall i | pos <= i < |earlier| :: Earlier(before, s, |s| - 1, earlier[i])
    ensures var places := earlier[..pos] + [|s| - 1] + earlier[pos..];
      && |places| == |s| && (forall i | 0 <= i < |places| :: places[i] < |s|)
      && forall i, j | 0 <= i < j < |places| :: Earlier(before, s, places[i], places[j])
  {
  }

  predicate Asymmetric<T>(before: (T, T) -> bool, s: seq<T>) {
    forall x, y | 0 <= x < |s| && 0 <= y < |s| && before(s[x], s[y]) :: !before(s[y], s[x])
  }

  lemma EarlierOneWay<T>(before: (T, T) -> bool, s: seq<T>, x: nat, y: nat)
    requires Asymmetric(before, s) && x < |s| && y < |s| && Earlier(before, s, x, y)
    ensures !Earlier(before, s, y, x)
  {
  }

  /** The places in strictly rising rank. */
  predicate Rising<T>(before: (T, T) -> bool, s: seq<T>, p: seq<nat>) {
    && (forall i | 0 <= i < |p| :: p[i] < |s|)
    && (forall i, j | 0 <= i < j < |p| :: p[i] != p[j])
    && (forall i, j | 0 <= i < j < |p| :: Earlier(before, s, p[i], p[j]))
  }

  lemma SameFirst<T>(before: (T, T) -> bool, s: seq<T>, p: seq<nat>, q: seq<nat>)
    requires Asymmetric(before, s) && Rising(before, s, p) && Rising(before, s, q) && p != [] && q != []
    requires p[0] in q && q[0] in p
    ensures p[0] == q[0]
  {
    var i :| 0 <= i < |q| && q[i] == p[0];
    var j :| 0 <= j < |p| && p[j] == q[0];
    if i > 0 {
      EarlierOneWay(before, s, q[0], q[i]);
    }
  }

  /** There is only one way to list places in strictly rising rank. */
  lemma {:induction false} RisingOnce<T>(before: (T, T) -> bool, s: seq<T>, p: seq<nat>, q: seq<nat>)
    requires Asymmetric(before, s) && Rising(before, s, p) && Rising(before, s, q)
    requires |p| == |q| && forall x: nat :: x in p <==> x in q
    ensures p == q
  {
    if p != [] {
      assert p[0] in p && q[0] in q;
      SameFirst(before, s, p, q);
      assert p == [p[0]] + p[1..] && q == [q[0]] + q[1..];
      forall x: nat ensures x in p[1..] <==> x in q[1..] {
        assert x in p <==> x == p[0] || x in p[1..];
        assert x in q <==> x == q[0] || x in q[1..];
        assert p[0] !in p[1..] && q[0] !in q[1..];
      }
      RisingOnce(before, s, p[1..], q[1..]);
    }
  }

  function Used(p: seq<nat>): set<nat> {
    set x: nat | x in p
  }

  lemma {:induction false} DistinctCount(p: seq<nat>)
    requires forall i, j | 0 <= i < j < |p| :: p[i] != p[j]
    ensures |Used(p)| == |p|
  {
    if p != [] {
      var n := |p| - 1;
      DistinctCount(p[..n]);
      assert p == p[..n] + [p[n]];
      assert p[n] !in p[..n];
      assert Used(p) == Used(p[..n]) + {p[n]};
    } else {
      assert Used(p) == {};
    }
  }

  lemma {:induction false} Below(n: nat) returns (all: set<nat>)
    ensures |all| == n && forall x: nat :: x in all <==> x < n
  {
    all := {};
    if n > 0 {
      var fewer := Below(n - 1);
      all := fewer + {n - 1};
    }
  }

  lemma SubsetOfSameSize<T>(a: set<T>, b: set<T>)
    requires a <= b && |a| == |b|
    ensures a == b
  {
    assert b == a + (b - a);
  }

  /** As many different places as there are: every place. */
  lemma EveryPlace(p: seq<nat>, n: nat)
    requires |p| == n && forall i | 0 <= i < n :: p[i] < n
    requires forall i, j | 0 <= i < j < n :: p[i] != p[j]
    ensures forall x: nat :: x in p <==> x < n
  {
    DistinctCount(p);
    var all := Below(n);
    assert forall x <- Used(p) :: x < n;
    SubsetOfSameSize(Used(p), all);
    forall x: nat ensures x in p <==> x < n {
      assert x in p <==> x in Used(p);
    }
  }

  /** Under a weak order there is only one stable sort: whatever is sorted and keeps
      unranked elements in order is what `StableSort` gives. */
  lemma StableSortIsTheOnlyOne<T(!new)>(
    before: (T, T) -> bool, among: T -> bool, s: seq<T>, r: seq<T>, places: seq<nat>)
    requires WeakOrder(before, among) && forall y <- s :: among(y)
    requires StablySorted(before, s, r, places)
    ensures r == StableSort(before, s)
  {
    var own := StableSortIsStable(before, among, s);
    EveryPlace(places, |s|);
    EveryPlace(own, |s|);
    RisingOnce(before, s, places, own);
  }

  // -------------------------------------------------------------- mapping and permuting

  function Map<A, B>(f: A -> B, s: seq<A>): seq<B> {
    seq(|s|, i requires 0 <= i < |s| => f(s[i]))
  }

  lemma RemoveAt<T>(s: seq<T>, k: nat)
    requires k < |s|
    ensures multiset(s[..k] + s[k + 1..]) == multiset(s) - multiset{s[k]}
  {
    assert s == s[..k] + [s[k]] + s[k + 1..];
  }

  lemma {:induction false} MapPermutes<A, B>(f: A -> B, a: seq<A>, b: seq<A>)
    requires multiset(a) == multiset(b)
    ensures multiset(Map(f, a)) == multiset(Map(f, b))
  {
    if a == [] {
      assert |multiset(b)| == 0;
    } else {
      assert a[0] in multiset(b);
      var k :| 0 <= k < |b| && b[k] == a[0];
      var rest := b[..k] + b[k + 1..];
      RemoveAt(b, k);
      assert a == [a[0]] + a[1..];
      MapPermutes(f, a[1..], rest);
      MapWithout(f, b, k);
      MapWithoutFirst(f, a);
    }
  }

  lemma MapWithoutFirst<A, B>(f: A -> B, s: seq<A>)
    requires s != []
    ensures multiset(Map(f, s)) == multiset(Map(f, s[1..])) + multiset{f(s[0])}
  {
    assert Map(f, s) == [f(s[0])] + Map(f, s[1..]);
  }

  lemma MapWithout<A, B>(f: A -> B, s: seq<A>, k: nat)
    requires k < |s|
    ensures multiset(Map(f, s)) == multiset(Map(f, s[..k] + s[k + 1..])) + multiset{f(s[k])}
  {
    assert Map(f, s) == Map(f, s[..k]) + [f(s[k])] + Map(f, s[k + 1..]);
    assert Map(f, s[..k] + s[k + 1..]) == Map(f, s[..k]) + Map(f, s[k + 1..]);
  }

  lemma SameElements<T>(s: seq<T>, other: seq<T>)
    requires multiset(s) == multiset(other)
    ensures forall x <- s :: x in other
    ensures forall x <- other :: x in s
    ensures |s| == |other|
  {
    forall x <- s ensures x in other {
      assert x in multiset(other);
    }
    forall x <- other ensures x in s {
      assert x in multiset(s);
    }
    assert |multiset(s)| == |s| && |multiset(other)| == |other|;
  }

  lemma TwiceMeansTwoPlaces<T>(s: seq<T>, x: T) returns (i: nat, j: nat)
    requires multiset(s)[x] >= 2
    ensures i < j < |s| && s[i] == x && s[j] == x
  {
    var n := |s| - 1;
    assert s == s[..n] + [s[n]];
    if s[n] == x {
      j := n;
      assert x in multiset(s[..n]);
      i :| 0 <= i < n && s[i] == x;
    } else {
      i, j := TwiceMeansTwoPlaces(s[..n], x);
    }
  }

  lemma TwoPlacesMeanTwice<T>(s: seq<T>, i: nat, j: nat)
    requires i < j < |s| && s[i] == s[j]
    ensures multiset(s)[s[i]] >= 2
  {
    assert s == s[..j] + s[j..];
    assert s[..j][i] == s[i] && s[i] in multiset(s[..j]);
    assert s[j..][0] == s[i] && s[i] in multiset(s[j..]);
  }
}

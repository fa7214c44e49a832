/** Comparison sorting as the Go library promises it: `sort.Slice(s, less)` leaves a
    permutation of `s` in which no later element is `less` than an earlier one. `SortBy`
    is one such result; `SortedPermutationUnique` says it is the only one whenever `less`
    tells apart every two different elements, so nothing depends on the algorithm. */
module Sorting {

  ghost predicate StrictWeak<T(!new)>(less: (T, T) -> bool) {
    && (forall a, b :: less(a, b) ==> !less(b, a))
    && (forall a, b, c :: !less(b, a) && !less(c, b) ==> !less(c, a))
  }

  /** `less` distinguishes any two different elements of `s`. */
  ghost predicate Discriminates<T>(less: (T, T) -> bool, s: seq<T>) {
    forall a, b | a in s && b in s :: a == b || less(a, b) || less(b, a)
  }

  ghost predicate Sorted<T>(less: (T, T) -> bool, s: seq<T>) {
    forall i, j | 0 <= i < j < |s| :: !less(s[j], s[i])
  }

  function Insert<T>(less: (T, T) -> bool, x: T, s: seq<T>): (r: seq<T>)
    ensures multiset(r) == multiset{x} + multiset(s)
  {
    if s == [] || less(x, s[0]) then [x] + s
    else
      assert s == [s[0]] + s[1..];
      [s[0]] + Insert(less, x, s[1..])
  }

  function SortBy<T>(less: (T, T) -> bool, s: seq<T>): (r: seq<T>)
    ensures multiset(r) == multiset(s)
  {
    if s == [] then [] else
      assert s == [s[0]] + s[1..];
      Insert(less, s[0], SortBy(less, s[1..]))
  }

  lemma SameElements<T>(a: seq<T>, b: seq<T>)
    requires multiset(a) == multiset(b)
    ensures |a| == |b|
    ensures forall x :: x in a <==> x in b
  {
    assert |multiset(a)| == |multiset(b)|;
    forall x ensures x in a <==> x in b {
      assert x in a <==> x in multiset(a);
      assert x in b <==> x in multiset(b);
    }
  }

  lemma {:induction false} InsertSorted<T(!new)>(less: (T, T) -> bool, x: T, s: seq<T>)
    requires StrictWeak(less) && Sorted(less, s)
    ensures Sorted(less, Insert(less, x, s))
  {
    if s == [] || less(x, s[0]) {
      var r := [x] + s;
      forall i, j | 0 <= i < j < |r| ensures !less(r[j], r[i]) {
        if i == 0 { assert !less(s[0], x); }
      }
    } else {
      InsertSorted(less, x, s[1..]);
      var t := Insert(less, x, s[1..]);
      var r := [s[0]] + t;
      SameElements(t, [x] + s[1..]);
      forall i, j | 0 <= i < j < |r| ensures !less(r[j], r[i]) {
        if i == 0 {
          assert r[j] in t;
          assert r[j] == x || r[j] in s[1..];
        }
      }
    }
  }

  lemma {:induction false} SortBySorts<T(!new)>(less: (T, T) -> bool, s: seq<T>)
    requires StrictWeak(less)
    ensures Sorted(less, SortBy(less, s))
  {
    if s != [] {
      SortBySorts(less, s[1..]);
      InsertSorted(less, s[0], SortBy(less, s[1..]));
    }
  }

  lemma SameHead<T(!new)>(less: (T, T) -> bool, a: seq<T>, b: seq<T>)
    requires StrictWeak(less) && Sorted(less, a) && Sorted(less, b) && Discriminates(less, a)
    requires a != [] && b != [] && a[0] in b && b[0] in a
    ensures a[0] == b[0]
  {
    var i :| 0 <= i < |b| && b[i] == a[0];
    var j :| 0 <= j < |a| && a[j] == b[0];
    assert i == 0 || !less(b[i], b[0]);
    assert j == 0 || !less(a[j], a[0]);
    assert a[0] in a;
  }

  lemma SameTail<T(!new)>(a: seq<T>, b: seq<T>)
    requires multiset(a) == multiset(b) && a != [] && b != [] && a[0] == b[0]
    ensures multiset(a[1..]) == multiset(b[1..])
  {
    assert a == [a[0]] + a[1..] && b == [b[0]] + b[1..];
    assert multiset(a[1..]) == multiset(a) - multiset{a[0]};
    assert multiset(b[1..]) == multiset(b) - multiset{b[0]};
  }

  /** Any two sorted permutations agree when ties are only between equal elements. */
  lemma {:induction false} SortedPermutationUnique<T(!new)>(less: (T, T) -> bool, a: seq<T>, b: seq<T>)
    requires StrictWeak(less)
    requires multiset(a) == multiset(b) && Sorted(less, a) && Sorted(less, b)
    requires Discriminates(less, a)
    ensures a == b
  {
    SameElements(a, b);
    if a != [] {
      assert a[0] in a && b[0] in b;
      SameHead(less, a, b);
      SameTail(a, b);
      SortedPermutationUnique(less, a[1..], b[1..]);
      assert a == [a[0]] + a[1..] && b == [b[0]] + b[1..];
    }
  }

  /** Sorting forgets the order it was given. */
  lemma SortForgetsOrder<T(!new)>(less: (T, T) -> bool, a: seq<T>, b: seq<T>)
    requires StrictWeak(less) && multiset(a) == multiset(b) && Discriminates(less, a)
    ensures SortBy(less, a) == SortBy(less, b)
  {
    SortBySorts(less, a);
    SortBySorts(less, b);
    SameElements(a, SortBy(less, a));
    SortedPermutationUnique(less, SortBy(less, a), SortBy(less, b));
  }

  function Filter<T(!new)>(keep: T -> bool, s: seq<T>): (r: seq<T>)
    ensures forall x :: x in r <==> x in s && keep(x)
    ensures |r| <= |s|
  {
    if s == [] then []
    else if keep(s[0]) then [s[0]] + Filter(keep, s[1..])
    else Filter(keep, s[1..])
  }

  lemma {:induction false} FilterConcat<T(!new)>(keep: T -> bool, a: seq<T>, b: seq<T>)
    ensures Filter(keep, a + b) == Filter(keep, a) + Filter(keep, b)
  {
    if a == [] {
      assert a + b == b;
    } else {
      assert (a + b)[0] == a[0] && (a + b)[1..] == a[1..] + b;
      FilterConcat(keep, a[1..], b);
    }
  }

  lemma FilterSnoc<T(!new)>(keep: T -> bool, s: seq<T>, x: T)
    ensures Filter(keep, s + [x]) == if keep(x) then Filter(keep, s) + [x] else Filter(keep, s)
  {
    FilterConcat(keep, s, [x]);
    assert [x][1..] == [];
    assert Filter(keep, s) + [] == Filter(keep, s);
  }

  lemma {:induction false} FilterMultiplicity<T(!new)>(keep: T -> bool, s: seq<T>, x: T)
    ensures multiset(Filter(keep, s))[x] == if keep(x) then multiset(s)[x] else 0
  {
    if s != [] {
      assert s == [s[0]] + s[1..];
      FilterMultiplicity(keep, s[1..], x);
    }
  }

  lemma FilterPermutes<T(!new)>(keep: T -> bool, a: seq<T>, b: seq<T>)
    requires multiset(a) == multiset(b)
    ensures multiset(Filter(keep, a)) == multiset(Filter(keep, b))
  {
    forall x ensures multiset(Filter(keep, a))[x] == multiset(Filter(keep, b))[x] {
      FilterMultiplicity(keep, a, x);
      FilterMultiplicity(keep, b, x);
    }
  }

  lemma {:induction false} FilterKeepsSorted<T(!new)>(keep: T -> bool, less: (T, T) -> bool, s: seq<T>)
    requires Sorted(less, s)
    ensures Sorted(less, Filter(keep, s))
  {
    if s != [] {
      FilterKeepsSorted(keep, less, s[1..]);
      if keep(s[0]) {
        var t := Filter(keep, s[1..]);
        forall j | 0 <= j < |t| ensures !less(t[j], s[0]) {
          assert t[j] in s[1..];
        }
      }
    }
  }

  /** Dropping elements commutes with sorting. */
  lemma SortFilterCommute<T(!new)>(keep: T -> bool, less: (T, T) -> bool, s: seq<T>)
    requires StrictWeak(less) && Discriminates(less, s)
    ensures Filter(keep, SortBy(less, s)) == SortBy(less, Filter(keep, s))
  {
    SortBySorts(less, s);
    SortBySorts(less, Filter(keep, s));
    FilterKeepsSorted(keep, less, SortBy(less, s));
    FilterPermutes(keep, s, SortBy(less, s));
    SameElements(s, SortBy(less, s));
    SortedPermutationUnique(less, Filter(keep, SortBy(less, s)), SortBy(less, Filter(keep, s)));
  }

  predicate Distinct<T(==)>(s: seq<T>) {
    forall i, j | 0 <= i < j < |s| :: s[i] != s[j]
  }

  lemma {:induction false} DistinctCount<T>(s: seq<T>)
    requires Distinct(s)
    ensures |set x | x in s| == |s|
  {
    if s == [] {
      assert (set x | x in s) == {};
    } else {
      DistinctCount(s[1..]);
      assert (set x | x in s) == {s[0]} + (set x | x in s[1..]);
    }
  }

  lemma {:induction false} DistinctMultiplicity<T>(s: seq<T>, x: T)
    requires Distinct(s)
    ensures multiset(s)[x] <= 1
  {
    if s != [] {
      assert s == [s[0]] + s[1..];
      DistinctMultiplicity(s[1..], x);
    }
  }

  lemma RepeatMultiplicity<T>(s: seq<T>, i: nat, j: nat)
    requires i < j < |s| && s[i] == s[j]
    ensures multiset(s)[s[i]] >= 2
  {
    assert s == s[..i] + [s[i]] + s[i + 1..j] + [s[j]] + s[j + 1..];
  }

  lemma DistinctPermutes<T>(a: seq<T>, b: seq<T>)
    requires multiset(a) == multiset(b) && Distinct(a)
    ensures Distinct(b)
  {
    forall i, j | 0 <= i < j < |b| ensures b[i] != b[j] {
      if b[i] == b[j] {
        RepeatMultiplicity(b, i, j);
        DistinctMultiplicity(a, b[i]);
      }
    }
  }

  /** Two duplicate-free listings of the same elements are permutations of each other. */
  lemma DistinctSameElements<T(!new)>(a: seq<T>, b: seq<T>)
    requires Distinct(a) && Distinct(b) && forall x :: x in a <==> x in b
    ensures multiset(a) == multiset(b)
  {
    forall x ensures multiset(a)[x] == multiset(b)[x] {
      DistinctMultiplicity(a, x);
      DistinctMultiplicity(b, x);
      assert x in a <==> x in multiset(a);
      assert x in b <==> x in multiset(b);
    }
  }

  /** A duplicate-free listing of a finite set; which one is unspecified, as Go leaves
      the iteration order of a map. */
  ghost function Listing<T(!new)>(s: set<T>): (r: seq<T>)
    ensures Distinct(r) && |r| == |s|
    ensures forall x :: x in r <==> x in s
  {
    if s == {} then [] else
      var x :| x in s;
      [x] + Listing(s - {x})
  }

  /** Drops an element equal to the one before it, as the source's `unique` loops do. */
  function Dedupe<T(==,!new)>(s: seq<T>): (r: seq<T>)
    ensures forall x :: x in r <==> x in s
    ensures |r| <= |s| && (r == [] <==> s == [])
    ensures s != [] ==> r[|r| - 1] == s[|s| - 1]
  {
    if s == [] then [] else
      var init, last := s[..|s| - 1], s[|s| - 1];
      assert s == init + [last];
      var r := Dedupe(init);
      if r == [] || r[|r| - 1] != last then r + [last] else r
  }

  lemma {:induction false} DedupeSorted<T(!new)>(less: (T, T) -> bool, s: seq<T>)
    requires StrictWeak(less) && Sorted(less, s) && Discriminates(less, s)
    ensures Sorted(less, Dedupe(s)) && Distinct(Dedupe(s))
  {
    if s != [] {
      var init, last := s[..|s| - 1], s[|s| - 1];
      assert s == init + [last];
      DedupeSorted(less, init);
      var r := Dedupe(init);
      forall i | 0 <= i < |r| ensures !less(last, r[i]) && (r[|r| - 1] != last ==> r[i] != last) {
        assert r[i] in init;
        assert last in s && r[|r| - 1] in s;
        assert i < |r| - 1 ==> !less(r[|r| - 1], r[i]);
        assert !less(last, r[|r| - 1]);
      }
    }
  }

  /** Sorted with duplicates dropped: the normal form of a collection of values. */
  function NormalForm<T(==,!new)>(less: (T, T) -> bool, s: seq<T>): (r: seq<T>)
    ensures forall x :: x in r <==> x in s
  {
    SameElements(SortBy(less, s), s);
    Dedupe(SortBy(less, s))
  }

  lemma NormalSorted<T(!new)>(less: (T, T) -> bool, s: seq<T>)
    requires StrictWeak(less) && Discriminates(less, s)
    ensures Sorted(less, NormalForm(less, s)) && Distinct(NormalForm(less, s))
  {
    SortBySorts(less, s);
    SameElements(SortBy(less, s), s);
    DedupeSorted(less, SortBy(less, s));
  }

  /** The normal form depends on nothing but which values occur. */
  lemma NormalIsCanonical<T(!new)>(less: (T, T) -> bool, a: seq<T>, b: seq<T>)
    requires StrictWeak(less) && Discriminates(less, a) && forall x :: x in a <==> x in b
    ensures NormalForm(less, a) == NormalForm(less, b)
  {
    NormalSorted(less, a);
    NormalSorted(less, b);
    DistinctSameElements(NormalForm(less, a), NormalForm(less, b));
    SortedPermutationUnique(less, NormalForm(less, a), NormalForm(less, b));
  }

  function Map<T, U>(f: T -> U, s: seq<T>): (r: seq<U>)
    ensures |r| == |s| && forall i | 0 <= i < |s| :: r[i] == f(s[i])
  {
    seq(|s|, i requires 0 <= i < |s| => f(s[i]))
  }

  lemma MapMember<T(!new), U>(f: T -> U, s: seq<T>, y: U)
    ensures y in Map(f, s) <==> exists x :: x in s && f(x) == y
  {
    var r := Map(f, s);
    if y in r {
      var i :| 0 <= i < |r| && r[i] == y;
      assert s[i] in s && f(s[i]) == y;
    }
    if x :| x in s && f(x) == y {
      var i :| 0 <= i < |s| && s[i] == x;
      assert r[i] == y;
    }
  }

  lemma Removed<T>(s: seq<T>, i: nat)
    requires i < |s|
    ensures multiset(s) == multiset{s[i]} + multiset(s[..i] + s[i + 1..])
    ensures multiset(s[..i] + s[i + 1..]) == multiset(s) - multiset{s[i]}
  {
    assert s == s[..i] + [s[i]] + s[i + 1..];
  }

  lemma MapRemoved<T, U>(f: T -> U, s: seq<T>, i: nat)
    requires i < |s|
    ensures multiset(Map(f, s)) == multiset{f(s[i])} + multiset(Map(f, s[..i] + s[i + 1..]))
  {
    Removed(Map(f, s), i);
    assert Map(f, s[..i] + s[i + 1..]) == Map(f, s)[..i] + Map(f, s)[i + 1..];
  }

  /** Where the first element of `a` stands in a permutation of `a`. */
  lemma FindFirst<T>(a: seq<T>, b: seq<T>) returns (i: nat)
    requires multiset(a) == multiset(b) && a != []
    ensures i < |b| && b[i] == a[0] && multiset(a[1..]) == multiset(b[..i] + b[i + 1..])
  {
    SameElements(a, b);
    assert a[0] in a && a[0] in b;
    i :| 0 <= i < |b| && b[i] == a[0];
    Removed(b, i);
    assert a == [a[0]] + a[1..];
    assert multiset(a[1..]) == multiset(a) - multiset{a[0]};
  }

  lemma MapHead<T, U>(f: T -> U, a: seq<T>)
    requires a != []
    ensures multiset(Map(f, a)) == multiset{f(a[0])} + multiset(Map(f, a[1..]))
  {
    assert Map(f, a) == [f(a[0])] + Map(f, a[1..]);
  }

  lemma {:induction false} MapPermutes<T, U>(f: T -> U, a: seq<T>, b: seq<T>)
    requires multiset(a) == multiset(b)
    ensures multiset(Map(f, a)) == multiset(Map(f, b))
  {
    if a == [] {
      SameElements(a, b);
      assert Map(f, a) == [] && Map(f, b) == [];
    } else {
      var i := FindFirst(a, b);
      MapPermutes(f, a[1..], b[..i] + b[i + 1..]);
      MapHead(f, a);
      MapRemoved(f, b, i);
    }
  }

  lemma {:induction false} SubsetSize<T>(a: set<T>, b: set<T>)
    requires a <= b
    ensures |a| <= |b|
  {
    if a != {} {
      var x :| x in a;
      SubsetSize(a - {x}, b - {x});
    }
  }
}

/** Path-prefix sets: the algebra under which policy layers are intersected. A list of
    paths stands for everything at or below one of its entries. */
module Paths {
  import opened Sorting
  import opened Text

  /** The directory form of a path: exactly one "/" is supplied when none is there. */
  function Dir(parent: string): (d: string)
    ensures d != [] && d[|d| - 1] == '/'
  {
    if parent != [] && parent[|parent| - 1] == '/' then parent else parent + "/"
  }

  predicate Within(path: string, parent: string) {
    parent == "." || path == parent || HasPrefix(path, Dir(parent))
  }

  ghost predicate Covered(paths: seq<string>, path: string) {
    exists a :: a in paths && Within(path, a)
  }

  // ---------------------------------------------------------------- the order on paths

  lemma PrefixTransitive(a: string, b: string, c: string)
    requires HasPrefix(a, b) && HasPrefix(b, c)
    ensures HasPrefix(a, c)
  {
    assert a[..|c|] == a[..|b|][..|c|];
  }

  /** Containment is transitive, for arbitrary strings. */
  lemma {:induction false} WithinTransitive(a: string, b: string, c: string)
    requires Within(a, b) && Within(b, c)
    ensures Within(a, c)
  {
    if c != "." && b != c && a != b {
      assert HasPrefix(b, Dir(c));
      assert HasPrefix(Dir(b), b);
      PrefixTransitive(Dir(b), b, Dir(c));
      PrefixTransitive(a, Dir(b), Dir(c));
    }
  }

  lemma PrefixesComparable(p: string, a: string, b: string)
    requires HasPrefix(p, a) && HasPrefix(p, b) && |a| <= |b|
    ensures HasPrefix(b, a)
  {
    assert b[..|a|] == p[..|b|][..|a|] == p[..|a|];
  }

  /** The directories above one path form a chain. */
  lemma {:induction false} AncestorsComparable(p: string, a: string, b: string)
    requires Within(p, a) && Within(p, b)
    ensures Within(a, b) || Within(b, a)
  {
    if a != "." && b != "." && p != a && p != b {
      if |Dir(a)| <= |Dir(b)| {
        PrefixesComparable(p, Dir(a), Dir(b));
        LongerDirInside(a, b);
      } else {
        PrefixesComparable(p, Dir(b), Dir(a));
        LongerDirInside(b, a);
      }
    }
  }

  lemma LongerDirInside(a: string, b: string)
    requires a != "." && b != "." && HasPrefix(Dir(b), Dir(a))
    ensures Within(a, b) || Within(b, a)
  {
    if Dir(b) != b {
      if |Dir(a)| < |Dir(b)| {
        assert b[..|Dir(a)|] == Dir(b)[..|Dir(a)|];
      } else {
        assert Dir(a) == Dir(b);
        if Dir(a) != a { assert a == Dir(a)[..|a|] && b == Dir(b)[..|b|]; }
      }
    }
  }

  lemma CoveredByAncestor(paths: seq<string>, a: string, p: string)
    requires Within(p, a) && Covered(paths, a)
    ensures Covered(paths, p)
  {
    var b :| b in paths && Within(a, b);
    WithinTransitive(p, a, b);
  }

  lemma CoveredConcat(a: seq<string>, b: seq<string>, p: string)
    ensures Covered(a + b, p) <==> Covered(a, p) || Covered(b, p)
  {
    if Covered(a, p) { var x :| x in a && Within(p, x); assert x in a + b; }
    if Covered(b, p) { var x :| x in b && Within(p, x); assert x in a + b; }
    if Covered(a + b, p) { var x :| x in a + b && Within(p, x); assert x in a || x in b; }
  }

  // ---------------------------------------------------------------- the list operations

  /** Two lists stand for the same set of paths. */
  ghost predicate SameCoverage(a: seq<string>, b: seq<string>) {
    forall p {:trigger Covered(a, p)} {:trigger Covered(b, p)} :: Covered(a, p) <==> Covered(b, p)
  }

  ghost predicate SameMembers(a: seq<string>, b: seq<string>) {
    forall x :: x in a <==> x in b
  }

  /** `sortedStrings` / `sortedCapabilities`: sorted, adjacent duplicates dropped. */
  method SortedUnique(values: seq<string>) returns (result: seq<string>)
    ensures SameMembers(result, values) && Sorted(Less, result) && Distinct(result)
  {
    var sorted := SortStrings(values);
    LessIsStrictWeak();
    SortBySorts(Less, values);
    SameElements(values, sorted);
    result := [];
    for i := 0 to |sorted|
      invariant forall x :: x in result <==> x in sorted[..i]
      invariant Sorted(Less, result) && Distinct(result)
      invariant result == [] <==> i == 0
      invariant i > 0 ==> result[|result| - 1] == sorted[i - 1]
    {
      assert sorted[..i + 1] == sorted[..i] + [sorted[i]];
      if result == [] || result[|result| - 1] != sorted[i] {
        forall k | 0 <= k < |result| ensures !Less(sorted[i], result[k]) && result[k] != sorted[i] {
          assert result[k] in sorted[..i];
          NewIsLarger(sorted, i, result, k);
        }
        result := result + [sorted[i]];
      }
    }
    assert sorted[..|sorted|] == sorted;
  }

  lemma {:induction false} NewIsLarger(sorted: seq<string>, i: nat, result: seq<string>, k: nat)
    requires 0 < i < |sorted| && k < |result| && Sorted(Less, sorted) && Sorted(Less, result)
    requires result[k] in sorted[..i]
    requires result[|result| - 1] == sorted[i - 1] != sorted[i]
    ensures !Less(sorted[i], result[k]) && result[k] != sorted[i]
  {
    LessTrichotomy(sorted[i - 1], sorted[i]);
    assert k < |result| - 1 ==> !Less(result[|result| - 1], result[k]);
    assert Less(sorted[i - 1], sorted[i]);
    LessTrichotomy(result[k], sorted[i]);
  }

  /** `x` lies within a listed path that sorts before it. */
  ghost predicate Shadowed(values: seq<string>, x: string) {
    exists y :: y in values && Less(y, x) && Within(x, y)
  }

  lemma SortedBefore(sorted: seq<string>, j: nat, i: nat)
    requires Sorted(Less, sorted) && Distinct(sorted) && j < |sorted| && i < |sorted| && j != i
    ensures Less(sorted[j], sorted[i]) <==> j < i
  {
    LessTrichotomy(sorted[j], sorted[i]);
    if j < i { assert !Less(sorted[i], sorted[j]) && sorted[j] != sorted[i]; }
  }

  /** After the first `i` of the sorted paths: those kept cover them all, and are the ones not
      shadowed. */
  ghost predicate KeptOf(sorted: seq<string>, i: nat, kept: seq<string>)
    requires i <= |sorted|
  {
    && (forall x {:trigger x in kept} | x in kept :: exists j | 0 <= j < i :: sorted[j] == x)
    && (forall j {:trigger Covered(kept, sorted[j])} | 0 <= j < i :: Covered(kept, sorted[j]))
    && (forall j {:trigger Shadowed(sorted, sorted[j])} | 0 <= j < i ::
         sorted[j] in kept <==> !Shadowed(sorted, sorted[j]))
  }

  /** Being covered by what was kept is being shadowed. */
  lemma CoveredIsShadowed(sorted: seq<string>, i: nat, kept: seq<string>)
    requires Sorted(Less, sorted) && Distinct(sorted) && i < |sorted| && KeptOf(sorted, i, kept)
    ensures Covered(kept, sorted[i]) <==> Shadowed(sorted, sorted[i])
  {
    if Covered(kept, sorted[i]) {
      var y :| y in kept && Within(sorted[i], y);
      var j :| 0 <= j < i && sorted[j] == y;
      SortedBefore(sorted, j, i);
    }
    if Shadowed(sorted, sorted[i]) {
      var y :| y in sorted && Less(y, sorted[i]) && Within(sorted[i], y);
      var j :| 0 <= j < |sorted| && sorted[j] == y;
      if j == i { LessTrichotomy(y, y); } else { SortedBefore(sorted, j, i); }
      assert Covered(kept, sorted[j]);
      CoveredByAncestor(kept, y, sorted[i]);
    }
  }

  lemma KeptNext(sorted: seq<string>, i: nat, kept: seq<string>)
    requires Sorted(Less, sorted) && Distinct(sorted) && i < |sorted| && KeptOf(sorted, i, kept)
    ensures KeptOf(sorted, i + 1, if Covered(kept, sorted[i]) then kept else kept + [sorted[i]])
  {
    CoveredIsShadowed(sorted, i, kept);
    var after := if Covered(kept, sorted[i]) then kept else kept + [sorted[i]];
    forall j | 0 <= j <= i
      ensures Covered(after, sorted[j]) && (sorted[j] in after <==> !Shadowed(sorted, sorted[j]))
    {
      if j < i {
        assert Covered(kept, sorted[j]) && sorted[j] != sorted[i];
        assert sorted[j] in kept <==> !Shadowed(sorted, sorted[j]);
        CoveredConcat(kept, [sorted[i]], sorted[j]);
      } else if Covered(kept, sorted[i]) {
        if sorted[i] in kept { SortedTwice(sorted, i, kept); }
      } else {
        assert Within(sorted[i], sorted[i]) && sorted[i] in after;
      }
    }
  }

  lemma SortedTwice(sorted: seq<string>, i: nat, kept: seq<string>)
    requires Distinct(sorted) && i < |sorted| && KeptOf(sorted, i, kept)
    ensures sorted[i] !in kept
  {
  }

  /** Keeps exactly the listed paths that no listed path sorting before them contains. */
  method CanonicalPaths(values: seq<string>) returns (result: seq<string>)
    ensures SameCoverage(result, values)
    ensures forall x :: x in result <==> x in values && !Shadowed(values, x)
  {
    var sorted := SortedUnique(values);
    result := [];
    for i := 0 to |sorted|
      invariant KeptOf(sorted, i, result)
    {
      KeptNext(sorted, i, result);
      var covered := IsCovered(result, sorted[i]);
      if !covered { result := result + [sorted[i]]; }
    }
    KeptAll(values, sorted, result);
  }

  lemma KeptAll(values: seq<string>, sorted: seq<string>, kept: seq<string>)
    requires SameMembers(sorted, values) && KeptOf(sorted, |sorted|, kept)
    ensures SameCoverage(kept, values)
    ensures forall x :: x in kept <==> x in values && !Shadowed(values, x)
  {
    forall x ensures Shadowed(sorted, x) <==> Shadowed(values, x) { }
    forall x ensures x in kept <==> x in values && !Shadowed(values, x) {
      if x in values {
        var j :| 0 <= j < |sorted| && sorted[j] == x;
        assert Shadowed(sorted, sorted[j]) <==> Shadowed(values, x);
      }
    }
    forall p ensures Covered(kept, p) <==> Covered(values, p) {
      if Covered(values, p) {
        var a :| a in values && Within(p, a);
        var j :| 0 <= j < |sorted| && sorted[j] == a;
        assert Covered(kept, sorted[j]);
        CoveredByAncestor(kept, a, p);
      }
    }
  }

  method IsCovered(paths: seq<string>, p: string) returns (covered: bool)
    ensures covered == Covered(paths, p)
  {
    for i := 0 to |paths|
      invariant forall j | 0 <= j < i :: !Within(p, paths[j])
    {
      if Within(p, paths[i]) { return true; }
    }
    covered := false;
  }

  /** What one pair of entries contributes to an intersection. */
  function Meet(a: string, b: string): seq<string> {
    if Within(a, b) then [a] else if Within(b, a) then [b] else []
  }

  lemma MeetCovers(a: string, b: string, p: string)
    ensures Covered(Meet(a, b), p) <==> Within(p, a) && Within(p, b)
  {
    if Within(p, a) && Within(p, b) {
      AncestorsComparable(p, a, b);
      assert Meet(a, b)[0] in Meet(a, b);
    } else if Within(a, b) {
      if Within(p, a) { WithinTransitive(p, a, b); }
    } else if Within(b, a) {
      if Within(p, b) { WithinTransitive(p, b, a); }
    }
  }

  method IntersectPaths(left: seq<string>, right: seq<string>) returns (result: seq<string>)
    ensures forall p :: Covered(result, p) <==> Covered(left, p) && Covered(right, p)
  {
    if |left| == 0 || |right| == 0 { return []; }
    var met: seq<string> := [];
    for i := 0 to |left|
      invariant forall p :: Covered(met, p) <==> Covered(left[..i], p) && Covered(right, p)
    {
      ghost var before := met;
      for j := 0 to |right|
        invariant forall p :: Covered(met, p) <==> Covered(before, p) || (Within(p, left[i]) && Covered(right[..j], p))
      {
        MeetStep(met, left[i], right, j);
        met := met + Meet(left[i], right[j]);
      }
      assert right[..|right|] == right;
      forall p ensures Covered(left[..i + 1], p) <==> Covered(left[..i], p) || Within(p, left[i]) {
        CoveredStep(left, i, p);
      }
    }
    assert left[..|left|] == left;
    result := CanonicalPaths(met);
  }

  lemma CoveredStep(paths: seq<string>, i: nat, p: string)
    requires i < |paths|
    ensures Covered(paths[..i + 1], p) <==> Covered(paths[..i], p) || Within(p, paths[i])
  {
    assert paths[..i + 1] == paths[..i] + [paths[i]];
    CoveredConcat(paths[..i], [paths[i]], p);
    if Within(p, paths[i]) { assert paths[i] in [paths[i]]; }
  }

  lemma {:induction false} MeetStep(met: seq<string>, a: string, right: seq<string>, j: nat)
    requires j < |right|
    ensures forall p ::
      Covered(met + Meet(a, right[j]), p) <==> Covered(met, p) || (Within(p, a) && Within(p, right[j]))
    ensures forall p :: Covered(right[..j + 1], p) <==> Covered(right[..j], p) || Within(p, right[j])
  {
    forall p ensures Covered(met + Meet(a, right[j]), p) <==> Covered(met, p) || (Within(p, a) && Within(p, right[j])) {
      CoveredConcat(met, Meet(a, right[j]), p);
      MeetCovers(a, right[j], p);
    }
    forall p ensures Covered(right[..j + 1], p) <==> Covered(right[..j], p) || Within(p, right[j]) {
      CoveredStep(right, j, p);
    }
  }

  /** Pruning loses nothing that was not forbidden anyway, and keeps an entry exactly when
      something allowed is left. */
  method RemoveFullyForbidden(paths: seq<string>, forbidden: seq<string>) returns (result: seq<string>)
    ensures forall p :: !Covered(forbidden, p) ==> (Covered(result, p) <==> Covered(paths, p))
    ensures result != [] <==> exists p :: Covered(paths, p) && !Covered(forbidden, p)
  {
    var kept: seq<string> := [];
    for i := 0 to |paths|
      invariant forall x :: x in kept <==> x in paths[..i] && !Covered(forbidden, x)
    {
      var blocked := IsCovered(forbidden, paths[i]);
      assert paths[..i + 1] == paths[..i] + [paths[i]];
      if !blocked { kept := kept + [paths[i]]; }
    }
    assert paths[..|paths|] == paths;
    result := CanonicalPaths(kept);
    forall p | !Covered(forbidden, p) ensures Covered(result, p) <==> Covered(paths, p) {
      assert Covered(result, p) <==> Covered(kept, p);
      if Covered(paths, p) {
        var a :| a in paths && Within(p, a);
        if Covered(forbidden, a) { CoveredByAncestor(forbidden, a, p); }
        assert a in kept;
      }
    }
    if result != [] {
      var a := result[0];
      assert a in kept && Within(a, a);
      assert Covered(paths, a) && !Covered(forbidden, a);
    }
    if p :| Covered(paths, p) && !Covered(forbidden, p) {
      assert Covered(result, p);
    }
  }
}

/** What containment of paths means: the components of the parent begin the components of the
    path. Stated for arbitrary strings, and then of what a contract authorises. */
module PathComponents {
  import opened Text
  import opened Paths
  import opened Policy

  /** The text up to the first "/". */
  function FirstSlash(p: string): (i: nat)
    ensures i <= |p| && '/' !in p[..i] && (i < |p| ==> p[i] == '/')
  {
    if p == [] || p[0] == '/' then 0
    else
      var i := 1 + FirstSlash(p[1..]);
      assert p[..i] == [p[0]] + p[1..][..i - 1];
      i
  }

  /** `strings.Split` on "/". */
  function Split(p: string): (c: seq<string>)
    ensures c != []
    decreases |p|
  {
    var i := FirstSlash(p);
    if i == |p| then [p] else [p[..i]] + Split(p[i + 1..])
  }

  lemma {:induction false} FirstSlashIs(p: string, i: nat)
    requires i <= |p| && '/' !in p[..i] && (i < |p| ==> p[i] == '/')
    ensures FirstSlash(p) == i
  {
    if i > 0 {
      assert p[..i][0] == p[0];
      assert p[..i] == [p[0]] + p[1..][..i - 1];
      FirstSlashIs(p[1..], i - 1);
    }
  }

  lemma SlashIsFirst(a: string, b: string)
    requires '/' !in a
    ensures FirstSlash(a + "/" + b) == |a|
  {
    var p := a + "/" + b;
    assert p[..|a|] == a;
    FirstSlashIs(p, |a|);
  }

  lemma NoSlash(a: string)
    requires '/' !in a
    ensures Split(a) == [a]
  {
    assert a[..|a|] == a;
    FirstSlashIs(a, |a|);
  }

  /** Splitting distributes over "/". */
  lemma {:induction false} SplitJoin(q: string, r: string)
    ensures Split(q + "/" + r) == Split(q) + Split(r)
    decreases |q|
  {
    var i := FirstSlash(q);
    var p := q + "/" + r;
    if i == |q| {
      assert q[..i] == q;
      SlashIsFirst(q, r);
      assert p[..|q|] == q && p[|q| + 1..] == r;
    } else {
      var a, b := q[..i], q[i + 1..];
      assert q == a + "/" + b;
      assert p == a + "/" + (b + "/" + r);
      SlashIsFirst(a, b + "/" + r);
      assert p[..i] == a && p[i + 1..] == b + "/" + r;
      SplitJoin(b, r);
    }
  }

  function Join(c: seq<string>): string
    requires c != []
  {
    if |c| == 1 then c[0] else c[0] + "/" + Join(c[1..])
  }

  /** Joining the components gives the path back. */
  lemma {:induction false} SplitThenJoin(p: string)
    ensures Join(Split(p)) == p
    decreases |p|
  {
    var i := FirstSlash(p);
    if i == |p| {
      assert p[..i] == p;
    } else {
      var rest := p[i + 1..];
      SplitThenJoin(rest);
      assert Split(p)[1..] == Split(rest);
      assert p == p[..i] + "/" + rest;
    }
  }

  /** Different paths have different components. */
  lemma {:induction false} SplitInjective(p: string, q: string)
    requires Split(p) == Split(q)
    ensures p == q
  {
    SplitThenJoin(p);
    SplitThenJoin(q);
  }

  lemma {:induction false} JoinSplit(c: seq<string>)
    requires c != [] && forall i | 0 <= i < |c| :: '/' !in c[i]
    ensures Split(Join(c)) == c
  {
    NoSlash(c[0]);
    if |c| > 1 {
      JoinSplit(c[1..]);
      SplitJoin(c[0], Join(c[1..]));
    }
  }

  lemma {:induction false} ComponentsArePlain(p: string, k: nat)
    requires k < |Split(p)|
    ensures '/' !in Split(p)[k]
    decreases |p|
  {
    var i := FirstSlash(p);
    if i < |p| && k > 0 { ComponentsArePlain(p[i + 1..], k - 1); } else { assert i == |p| ==> p[..i] == p; }
  }

  /** Beginning with "q/" is having the components of `q` before one's own. */
  lemma {:induction false} DirectoryMeans(p: string, q: string)
    ensures HasPrefix(p, q + "/") <==> Split(q) < Split(p)
  {
    if HasPrefix(p, q + "/") {
      var r := p[|q| + 1..];
      assert p == q + "/" + r;
      SplitJoin(q, r);
    }
    if Split(q) < Split(p) {
      var rest := Split(p)[|Split(q)|..];
      forall i | 0 <= i < |rest| ensures '/' !in rest[i] { ComponentsArePlain(p, |Split(q)| + i); }
      JoinSplit(rest);
      SplitJoin(q, Join(rest));
      assert Split(p) == Split(q) + rest;
      SplitInjective(p, q + "/" + Join(rest));
      assert p[..|q| + 1] == q + "/";
    }
  }

  predicate EndsInSlash(q: string) { q != [] && q[|q| - 1] == '/' }

  /** The components of `q` begin those of `p`; a trailing "/" demands something below it. */
  predicate Under(p: string, q: string) {
    if EndsInSlash(q) then p == q || Split(q[..|q| - 1]) < Split(p) else q == "." || Split(q) <= Split(p)
  }

  /** That is what containment is, for all strings. */
  lemma {:induction false} WithinMeans(p: string, q: string)
    ensures Within(p, q) <==> Under(p, q)
  {
    if EndsInSlash(q) {
      assert q == q[..|q| - 1] + "/";
      DirectoryMeans(p, q[..|q| - 1]);
    } else {
      DirectoryMeans(p, q);
      if Split(p) == Split(q) { SplitInjective(p, q); }
    }
  }

  /** `p` is at or below one of the entries. */
  ghost predicate UnderOne(paths: seq<string>, p: string) { exists a :: a in paths && Under(p, a) }

  lemma {:induction false} CoveredMeans(paths: seq<string>, p: string)
    ensures Covered(paths, p) <==> UnderOne(paths, p)
  {
    forall a ensures Within(p, a) <==> Under(p, a) { WithinMeans(p, a); }
  }

  ghost predicate BarredBy(q: PolicyRequest, p: string) {
    UnderOne(q.scope.forbidden, p) || exists l :: l in q.layers && UnderOne(l.forbiddenPaths, p)
  }

  /** Writing is authorised exactly for valid paths whose components begin with those of an
      allowed entry and of a write path of every layer, and with those of no forbidden one. */
  lemma {:induction false} AuthorizedByComponents(valid: string -> bool, q: PolicyRequest, m: Permissions, p: string)
    requires Normal(q) && PermissionsMean(q, m)
    ensures Authorized(valid, m, WRITE, p) <==>
      && WRITE in q.capabilities && valid(p) && UnderOne(q.scope.allowed, p)
      && (forall l | l in q.layers :: UnderOne(l.writePaths, p)) && !BarredBy(q, p)
    ensures Authorized(valid, m, INSPECT, p) <==>
      && INSPECT in q.capabilities && valid(p) && (UnderOne(q.scope.allowed, p) || UnderOne(q.scope.inspect, p))
      && (forall l | l in q.layers :: UnderOne(l.inspectPaths, p)) && !BarredBy(q, p)
  {
    AuthorizedMeans(valid, q, m, p);
    CoveredMeans(q.scope.allowed, p);
    CoveredMeans(q.scope.inspect, p);
    CoveredMeans(q.scope.forbidden, p);
    forall l | l in q.layers
      ensures Covered(l.writePaths, p) <==> UnderOne(l.writePaths, p)
      ensures Covered(l.inspectPaths, p) <==> UnderOne(l.inspectPaths, p)
      ensures Covered(l.forbiddenPaths, p) <==> UnderOne(l.forbiddenPaths, p)
    {
      CoveredMeans(l.writePaths, p);
      CoveredMeans(l.inspectPaths, p);
      CoveredMeans(l.forbiddenPaths, p);
    }
  }

  /** A sibling whose name merely begins like an allowed entry is not authorised. */
  lemma {:induction false} SiblingIsRefused(valid: string -> bool, q: PolicyRequest, m: Permissions, entry: string,
                                            x: string)
    requires Normal(q) && PermissionsMean(q, m) && q.scope.allowed == [entry] && q.scope.inspect == []
    requires entry != "." && !EndsInSlash(entry) && x != [] && x[0] != '/'
    ensures !Authorized(valid, m, WRITE, entry + x) && !Authorized(valid, m, INSPECT, entry + x)
  {
    var p := entry + x;
    AuthorizedMeans(valid, q, m, p);
    assert p[..|entry| + 1][|entry|] == x[0];
    assert (entry + "/")[|entry|] == '/';
    assert !Covered(q.scope.allowed, p);
  }
}

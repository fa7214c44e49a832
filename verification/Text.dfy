/** Go strings: byte-wise lexicographic order, prefixes, decimal rendering. */
module Text {
  import opened Sorting

  predicate Less(a: string, b: string) {
    if b == [] then false
    else if a == [] then true
    else a[0] < b[0] || (a[0] == b[0] && Less(a[1..], b[1..]))
  }

  lemma {:induction false} LessTrichotomy(a: string, b: string)
    ensures a == b || Less(a, b) || Less(b, a)
    ensures Less(a, b) ==> !Less(b, a)
    ensures !Less(a, a)
  {
    if a != [] && b != [] {
      LessTrichotomy(a[1..], b[1..]);
      assert a == [a[0]] + a[1..] && b == [b[0]] + b[1..];
    }
    if a != [] { LessTrichotomy(a[1..], a[1..]); }
  }

  /** Byte by byte: where they first differ `a` is smaller, or it ends there. */
  lemma {:induction false} LessMeans(a: string, b: string)
    ensures Less(a, b) <==> exists n :: 0 <= n <= |a| && n < |b| && a[..n] == b[..n] && (n == |a| || a[n] < b[n])
  {
    if Less(a, b) {
      var n := FirstDifference(a, b);
    }
    if n :| 0 <= n <= |a| && n < |b| && a[..n] == b[..n] && (n == |a| || a[n] < b[n]) {
      LessAt(a, b, n);
    }
  }

  lemma {:induction false} FirstDifference(a: string, b: string) returns (n: nat)
    requires Less(a, b)
    ensures n <= |a| && n < |b| && a[..n] == b[..n] && (n == |a| || a[n] < b[n])
  {
    n := 0;
    if a != [] && a[0] == b[0] {
      var m := FirstDifference(a[1..], b[1..]);
      n := m + 1;
      assert a[..n] == [a[0]] + a[1..][..m] && b[..n] == [b[0]] + b[1..][..m];
    }
  }

  lemma {:induction false} LessAt(a: string, b: string, n: nat)
    requires n <= |a| && n < |b| && a[..n] == b[..n] && (n == |a| || a[n] < b[n])
    ensures Less(a, b)
  {
    if n > 0 {
      assert a[0] == a[..n][0] && b[0] == b[..n][0];
      assert a[1..][..n - 1] == a[..n][1..] && b[1..][..n - 1] == b[..n][1..];
      LessAt(a[1..], b[1..], n - 1);
    }
  }

  lemma {:induction false} NotLessTransitive(a: string, b: string, c: string)
    requires !Less(b, a) && !Less(c, b)
    ensures !Less(c, a)
  {
    if a != [] && b != [] && c != [] && a[0] == b[0] == c[0] {
      NotLessTransitive(a[1..], b[1..], c[1..]);
    }
  }

  lemma {:induction false} LessIsStrictWeak()
    ensures StrictWeak(Less)
  {
    forall a, b ensures Less(a, b) ==> !Less(b, a) { LessTrichotomy(a, b); }
    forall a, b, c | !Less(b, a) && !Less(c, b) ensures !Less(c, a) { NotLessTransitive(a, b, c); }
  }

  lemma LessDiscriminates(s: seq<string>)
    ensures Discriminates(Less, s)
  {
    forall a, b | a in s && b in s ensures a == b || Less(a, b) || Less(b, a) { LessTrichotomy(a, b); }
  }

  /** `sort.Strings`. */
  function SortStrings(s: seq<string>): (r: seq<string>)
    ensures multiset(r) == multiset(s)
  {
    SortBy(Less, s)
  }

  predicate HasPrefix(s: string, prefix: string) {
    |prefix| <= |s| && s[..|prefix|] == prefix
  }

  /** An identifier of a kind: the prefix with something after it, at most 128 characters. */
  predicate Namespaced(value: string, prefix: string) {
    HasPrefix(value, prefix) && |prefix| < |value| <= 128
  }

  predicate Contains(s: string, part: string) {
    HasPrefix(s, part) || (s != [] && Contains(s[1..], part))
  }

  /** A SHA-256 digest in lower-case hexadecimal. */
  predicate ValidDigest(d: string) {
    |d| == 64 && forall i | 0 <= i < |d| :: '0' <= d[i] <= '9' || 'a' <= d[i] <= 'f'
  }
}

/** How much executions overlap: the pairwise total the insights report, and what it counts. */
module Overlap {
  import opened Sorting

  /** From `start` up to, not including, `end`, in nanoseconds. */
  datatype Interval = Interval(start: int, end: int)

  const MILLISECOND := 1_000_000

  function Max(a: int, b: int): int { if a < b then b else a }
  function Min(a: int, b: int): int { if b < a then b else a }

  /** The time both intervals cover. */
  function Shared(a: Interval, b: Interval): nat {
    Max(0, Min(a.end, b.end) - Max(a.start, b.start))
  }

  function SharedMilliseconds(a: Interval, b: Interval): nat { Shared(a, b) / MILLISECOND }

  /** One interval against each of the others. */
  function Against(x: Interval, s: seq<Interval>): nat {
    if s == [] then 0 else SharedMilliseconds(x, s[0]) + Against(x, s[1..])
  }

  function PairTotal(s: seq<Interval>): nat {
    if s == [] then 0 else Against(s[0], s[1..]) + PairTotal(s[1..])
  }

  /** The nested loops of `overlapValue`. */
  method TotalOverlap(intervals: seq<Interval>) returns (total: nat)
    ensures total == PairTotal(intervals)
  {
    total := 0;
    for left := 0 to |intervals|
      invariant total + PairTotal(intervals[left..]) == PairTotal(intervals)
    {
      ghost var before := total;
      assert intervals[left..][1..] == intervals[left + 1..];
      for right := left + 1 to |intervals|
        invariant total + Against(intervals[left], intervals[right..])
            == before + Against(intervals[left], intervals[left + 1..])
      {
        assert intervals[right..][1..] == intervals[right + 1..];
        var start, end := intervals[left].start, intervals[left].end;
        if intervals[right].start > start { start := intervals[right].start; }
        if intervals[right].end < end { end := intervals[right].end; }
        if end > start { total := total + (end - start) / MILLISECOND; }
      }
    }
  }

  // ---------------------------------------------------------------- order does not matter

  lemma {:induction false} AgainstSplit(x: Interval, a: seq<Interval>, b: seq<Interval>)
    ensures Against(x, a + b) == Against(x, a) + Against(x, b)
  {
    if a == [] {
      assert a + b == b;
    } else {
      assert (a + b)[0] == a[0] && (a + b)[1..] == a[1..] + b;
      AgainstSplit(x, a[1..], b);
    }
  }

  lemma AgainstRemoved(x: Interval, s: seq<Interval>, i: nat)
    requires i < |s|
    ensures Against(x, s) == SharedMilliseconds(x, s[i]) + Against(x, s[..i] + s[i + 1..])
  {
    assert s == s[..i] + s[i..] && s[i..][1..] == s[i + 1..];
    AgainstSplit(x, s[..i], s[i..]);
    AgainstSplit(x, s[..i], s[i + 1..]);
  }

  lemma {:induction false} AgainstPermutes(x: Interval, a: seq<Interval>, b: seq<Interval>)
    requires multiset(a) == multiset(b)
    ensures Against(x, a) == Against(x, b)
  {
    SameElements(a, b);
    if a != [] {
      var i := FindFirst(a, b);
      AgainstRemoved(x, b, i);
      AgainstPermutes(x, a[1..], b[..i] + b[i + 1..]);
    }
  }

  /** Any interval may be taken out first. */
  lemma {:induction false} PairTotalRemoved(s: seq<Interval>, i: nat)
    requires i < |s|
    ensures PairTotal(s) == Against(s[i], s[..i] + s[i + 1..]) + PairTotal(s[..i] + s[i + 1..])
  {
    var rest := s[..i] + s[i + 1..];
    if i == 0 {
      assert rest == s[1..];
    } else {
      var tail := s[1..];
      var tailRest := tail[..i - 1] + tail[i..];
      assert tail[i - 1] == s[i] && rest[0] == s[0] && rest[1..] == tailRest;
      PairTotalRemoved(tail, i - 1);
      AgainstRemoved(s[0], tail, i - 1);
      assert SharedMilliseconds(s[0], s[i]) == SharedMilliseconds(s[i], s[0]);
    }
  }

  lemma {:induction false} PairTotalPermutes(a: seq<Interval>, b: seq<Interval>)
    requires multiset(a) == multiset(b)
    ensures PairTotal(a) == PairTotal(b)
  {
    SameElements(a, b);
    if a != [] {
      var i := FindFirst(a, b);
      PairTotalRemoved(b, i);
      AgainstPermutes(a[0], a[1..], b[..i] + b[i + 1..]);
      PairTotalPermutes(a[1..], b[..i] + b[i + 1..]);
    }
  }

  // ---------------------------------------------------------------- counting by the instant

  function SumRange(f: int -> int, lo: int, hi: int): int
    decreases hi - lo
  {
    if hi <= lo then 0 else f(hi - 1) + SumRange(f, lo, hi - 1)
  }

  lemma {:induction false} SumRangeAdds(f: int -> int, g: int -> int, h: int -> int, lo: int, hi: int)
    requires forall t | lo <= t < hi :: h(t) == f(t) + g(t)
    ensures SumRange(h, lo, hi) == SumRange(f, lo, hi) + SumRange(g, lo, hi)
    decreases hi - lo
  {
    if lo < hi { SumRangeAdds(f, g, h, lo, hi - 1); }
  }

  lemma {:induction false} SumRangeZero(f: int -> int, lo: int, hi: int)
    requires forall t | lo <= t < hi :: f(t) == 0
    ensures SumRange(f, lo, hi) == 0
    decreases hi - lo
  {
    if lo < hi { SumRangeZero(f, lo, hi - 1); }
  }

  predicate At(i: Interval, t: int) { i.start <= t < i.end }

  function Both(a: Interval, b: Interval): int -> int { t => if At(a, t) && At(b, t) then 1 else 0 }

  /** Instants in both intervals, counted one by one. */
  lemma {:induction false} CountShared(a: Interval, b: Interval, lo: int, hi: int)
    requires lo <= hi
    ensures SumRange(Both(a, b), lo, hi) == Max(0, Min(hi, Min(a.end, b.end)) - Max(lo, Max(a.start, b.start)))
    decreases hi - lo
  {
    if lo < hi { CountShared(a, b, lo, hi - 1); }
  }

  /** How many of the intervals contain `t`. */
  function ActiveAt(s: seq<Interval>, t: int): nat {
    if s == [] then 0 else (if At(s[0], t) then 1 else 0) + ActiveAt(s[1..], t)
  }

  function Pairs(n: nat): nat { n * (n - 1) / 2 }

  lemma PairsGrow(n: nat)
    ensures Pairs(n + 1) == n + Pairs(n)
  {
    assert (n + 1) * n == 2 * n + n * (n - 1);
  }

  function With(x: Interval, s: seq<Interval>): int -> int { t => if At(x, t) then ActiveAt(s, t) else 0 }
  function PairsActive(s: seq<Interval>): int -> int { t => Pairs(ActiveAt(s, t)) }

  ghost predicate Within(s: seq<Interval>, lo: int, hi: int) {
    lo <= hi && forall i | 0 <= i < |s| :: lo <= s[i].start && s[i].end <= hi
  }

  /** The exact time shared, before any of it is rounded. */
  function SharedAgainst(x: Interval, s: seq<Interval>): nat {
    if s == [] then 0 else Shared(x, s[0]) + SharedAgainst(x, s[1..])
  }

  function SharedTotal(s: seq<Interval>): nat {
    if s == [] then 0 else SharedAgainst(s[0], s[1..]) + SharedTotal(s[1..])
  }

  lemma {:induction false} AgainstCounts(x: Interval, s: seq<Interval>, lo: int, hi: int)
    requires Within([x], lo, hi) && Within(s, lo, hi)
    ensures SharedAgainst(x, s) == SumRange(With(x, s), lo, hi)
  {
    if s == [] {
      SumRangeZero(With(x, s), lo, hi);
    } else {
      assert [x][0] == x;
      AgainstCounts(x, s[1..], lo, hi);
      CountShared(x, s[0], lo, hi);
      SumRangeAdds(Both(x, s[0]), With(x, s[1..]), With(x, s), lo, hi);
    }
  }

  /** Whatever the unit of time, the exact total is the number of pairs running at the same
      time, summed over every instant. */
  lemma {:induction false} SharedCountsPairs(s: seq<Interval>, lo: int, hi: int)
    requires Within(s, lo, hi)
    ensures SharedTotal(s) == SumRange(PairsActive(s), lo, hi)
  {
    if s == [] {
      SumRangeZero(PairsActive(s), lo, hi);
    } else {
      var tail := s[1..];
      SharedCountsPairs(tail, lo, hi);
      assert Within([s[0]], lo, hi);
      AgainstCounts(s[0], tail, lo, hi);
      forall t | lo <= t < hi ensures PairsActive(s)(t) == With(s[0], tail)(t) + PairsActive(tail)(t) {
        PairsGrow(ActiveAt(tail, t));
      }
      SumRangeAdds(With(s[0], tail), PairsActive(tail), PairsActive(s), lo, hi);
    }
  }

  // ---------------------------------------------------------------- what rounding loses

  predicate WholeAgainst(x: Interval, s: seq<Interval>) {
    forall i | 0 <= i < |s| :: Shared(x, s[i]) % MILLISECOND == 0
  }

  /** Every two executions share a whole number of milliseconds. */
  predicate Whole(s: seq<Interval>) {
    forall i, j | 0 <= i < j < |s| :: Shared(s[i], s[j]) % MILLISECOND == 0
  }

  lemma {:induction false} AgainstRounds(x: Interval, s: seq<Interval>)
    ensures Against(x, s) * MILLISECOND <= SharedAgainst(x, s) <= Against(x, s) * MILLISECOND + |s| * (MILLISECOND - 1)
    ensures Against(x, s) * MILLISECOND == SharedAgainst(x, s) <==> WholeAgainst(x, s)
  {
    if s != [] {
      AgainstRounds(x, s[1..]);
      assert WholeAgainst(x, s) <==> Shared(x, s[0]) % MILLISECOND == 0 && WholeAgainst(x, s[1..]) by {
        assert forall i | 1 <= i < |s| :: s[i] == s[1..][i - 1];
        assert forall i | 0 <= i < |s[1..]| :: s[1..][i] == s[i + 1];
      }
    }
  }

  lemma {:induction false} TotalRounds(s: seq<Interval>)
    ensures PairTotal(s) * MILLISECOND <= SharedTotal(s) <= PairTotal(s) * MILLISECOND + Pairs(|s|) * (MILLISECOND - 1)
    ensures PairTotal(s) * MILLISECOND == SharedTotal(s) <==> Whole(s)
  {
    if s != [] {
      AgainstRounds(s[0], s[1..]);
      TotalRounds(s[1..]);
      PairsGrow(|s| - 1);
      assert Whole(s) <==> WholeAgainst(s[0], s[1..]) && Whole(s[1..]) by {
        assert forall i | 1 <= i < |s| :: s[i] == s[1..][i - 1];
        assert forall i | 0 <= i < |s[1..]| :: s[1..][i] == s[i + 1];
      }
    }
  }

  /** The reported milliseconds fall short of the pairs running together, summed over every
      nanosecond, by less than a millisecond for each pair of executions, and by nothing
      exactly when every two share a whole number of milliseconds. */
  lemma {:induction false} OverlapCountsPairs(s: seq<Interval>, lo: int, hi: int)
    requires Within(s, lo, hi)
    ensures var exact := SumRange(PairsActive(s), lo, hi);
            && PairTotal(s) * MILLISECOND <= exact <= PairTotal(s) * MILLISECOND + Pairs(|s|) * (MILLISECOND - 1)
            && (PairTotal(s) * MILLISECOND == exact <==> Whole(s))
  {
    SharedCountsPairs(s, lo, hi);
    TotalRounds(s);
  }

  /** The same times in milliseconds, as nanoseconds. */
  function Scale(i: Interval): Interval { Interval(i.start * MILLISECOND, i.end * MILLISECOND) }

  lemma SharedScaled(a: Interval, b: Interval)
    ensures Shared(Scale(a), Scale(b)) == Shared(a, b) * MILLISECOND
    ensures SharedMilliseconds(Scale(a), Scale(b)) == Shared(a, b)
  {
    var d := Min(a.end, b.end) - Max(a.start, b.start);
    assert Min(Scale(a).end, Scale(b).end) - Max(Scale(a).start, Scale(b).start) == d * MILLISECOND;
    assert Shared(Scale(a), Scale(b)) == Max(0, d) * MILLISECOND;
  }

  lemma {:induction false} AgainstScaled(x: Interval, s: seq<Interval>)
    ensures Against(Scale(x), Map(Scale, s)) == SharedAgainst(x, s)
  {
    if s != [] {
      assert Map(Scale, s)[1..] == Map(Scale, s[1..]);
      SharedScaled(x, s[0]);
      AgainstScaled(x, s[1..]);
    }
  }

  lemma {:induction false} TotalScaled(s: seq<Interval>)
    ensures PairTotal(Map(Scale, s)) == SharedTotal(s)
  {
    if s != [] {
      assert Map(Scale, s)[1..] == Map(Scale, s[1..]);
      AgainstScaled(s[0], s[1..]);
      TotalScaled(s[1..]);
    }
  }

  /** For times that fall on whole milliseconds, the reported total is the number of pairs
      running at the same time, summed over every millisecond. */
  lemma {:induction false} MillisecondsCountPairs(s: seq<Interval>, lo: int, hi: int)
    requires Within(s, lo, hi)
    ensures PairTotal(Map(Scale, s)) == SumRange(PairsActive(s), lo, hi)
  {
    TotalScaled(s);
    SharedCountsPairs(s, lo, hi);
  }

  // ---------------------------------------------------------------- when nothing is reported

  lemma {:induction false} AgainstZero(x: Interval, s: seq<Interval>)
    ensures Against(x, s) == 0 <==> forall i | 0 <= i < |s| :: Shared(x, s[i]) < MILLISECOND
  {
    if s != [] {
      AgainstZero(x, s[1..]);
      assert forall i | 1 <= i < |s| :: s[i] == s[1..][i - 1];
      assert forall i | 0 <= i < |s[1..]| :: s[1..][i] == s[i + 1];
      assert SharedMilliseconds(x, s[0]) == 0 <==> Shared(x, s[0]) < MILLISECOND;
    }
  }

  /** Whatever the times, the total is zero exactly when no two executions share as much as
      a millisecond. */
  lemma {:induction false} ZeroMeansApart(s: seq<Interval>)
    ensures PairTotal(s) == 0 <==> forall i, j | 0 <= i < j < |s| :: Shared(s[i], s[j]) < MILLISECOND
  {
    if s != [] {
      AgainstZero(s[0], s[1..]);
      ZeroMeansApart(s[1..]);
      assert forall i | 1 <= i < |s| :: s[i] == s[1..][i - 1];
      assert forall i | 0 <= i < |s[1..]| :: s[1..][i] == s[i + 1];
    }
  }

  lemma SharedInstant(a: Interval, b: Interval)
    ensures Shared(a, b) == 0 <==> forall t :: !(At(a, t) && At(b, t))
  {
    if Shared(a, b) > 0 {
      assert At(a, Max(a.start, b.start)) && At(b, Max(a.start, b.start));
    }
  }

  /** On whole milliseconds that is: exactly when no two executions ever run together. */
  lemma {:induction false} ZeroMeansDisjoint(s: seq<Interval>)
    ensures PairTotal(Map(Scale, s)) == 0 <==> forall i, j, t | 0 <= i < j < |s| :: !(At(s[i], t) && At(s[j], t))
  {
    var scaled := Map(Scale, s);
    ZeroMeansApart(scaled);
    forall i, j | 0 <= i < j < |s| ensures Shared(scaled[i], scaled[j]) < MILLISECOND <==> Shared(s[i], s[j]) == 0 {
      SharedScaled(s[i], s[j]);
      assert SharedMilliseconds(scaled[i], scaled[j]) == 0 <==> Shared(scaled[i], scaled[j]) < MILLISECOND;
    }
    forall i, j | 0 <= i < j < |s| ensures Shared(s[i], s[j]) == 0 <==> forall t :: !(At(s[i], t) && At(s[j], t)) {
      SharedInstant(s[i], s[j]);
    }
  }
}

/** What the figures count: events of each kind, packages and executions in each state, and the time
    each package took; and what the quality of a metric promises. */
module InsightCounts {
  import opened Sorting
  import opened Options
  import opened Project
  import opened Overlap
  import opened Insights

  // ---------------------------------------------------------------- events

  datatype Kind = PassedTest | FailedTest | SkippedTest | Artifact | Handoff | Summary

  predicate OfKind(k: Kind, body: Body) {
    match k
    case PassedTest => body == TestRecorded(Some(TestPassed))
    case FailedTest => body == TestRecorded(Some(TestFailed))
    case SkippedTest => body == TestRecorded(Some(TestSkipped))
    case Artifact => body == ArtifactRecorded
    case Handoff => body == HandoffCreated
    case Summary => body.TelemetryRecorded? && body.telemetry.Some?
  }

  function TallyOf(t: Tallies, k: Kind): int {
    match k
    case PassedTest => t.passed
    case FailedTest => t.failed
    case SkippedTest => t.skipped
    case Artifact => t.artifacts
    case Handoff => t.handoffs
    case Summary => t.telemetry
  }

  function KindIs(k: Kind): Entry -> bool { (e: Entry) => OfKind(k, e.body) }

  function CountIn(counts: map<string, int>, key: string): int { if key in counts then counts[key] else 0 }

  lemma {:induction false} TalliesCount(events: seq<Entry>, k: Kind)
    ensures TallyOf(Fold(START, events).tallies, k) == |Filter(KindIs(k), events)|
  {
    if events != [] {
      var init, last := events[..|events| - 1], events[|events| - 1];
      TalliesCount(init, k);
      assert events == init + [last];
      FilterSnoc(KindIs(k), init, last);
      TallyStep(Fold(START, init), last, k);
    }
  }

  lemma TallyStep(l: Ledger, e: Entry, k: Kind)
    ensures TallyOf(Apply(l, e).tallies, k) == TallyOf(l.tallies, k) + if OfKind(k, e.body) then 1 else 0
  {
  }

  datatype Role = Worker | Model | Provider | Device

  function NameIn(role: Role, e: Entry): string {
    match role
    case Worker => e.worker
    case Model => e.model
    case Provider => e.provider
    case Device => e.device
  }

  function CountsOf(p: Producers, role: Role): map<string, int> {
    match role
    case Worker => p.workers
    case Model => p.models
    case Provider => p.providers
    case Device => p.devices
  }

  function By(role: Role, name: string): Entry -> bool { (e: Entry) => NameIn(role, e) == name }

  lemma {:induction false} ProducersCount(events: seq<Entry>, role: Role, name: string)
    requires name != ""
    ensures CountIn(CountsOf(Fold(START, events).producers, role), name) == |Filter(By(role, name), events)|
  {
    if events != [] {
      var init, last := events[..|events| - 1], events[|events| - 1];
      ProducersCount(init, role, name);
      assert events == init + [last];
      FilterSnoc(By(role, name), init, last);
      ProducerStep(Fold(START, init), last, role, name);
    }
  }

  lemma ProducerStep(l: Ledger, e: Entry, role: Role, name: string)
    requires name != ""
    ensures CountIn(CountsOf(Apply(l, e).producers, role), name)
         == CountIn(CountsOf(l.producers, role), name) + if NameIn(role, e) == name then 1 else 0
  {
  }

  function Accepts(p: Entry -> bool): Entry -> bool { (e: Entry) => e.accepted && p(e) }

  /** Counting among the sorted accepted events is counting the accepted events. */
  lemma {:induction false} CountAccepted(all: seq<Entry>, p: Entry -> bool)
    ensures |Filter(p, SortBy(EarlierEntry, Filter(IsAccepted, all)))| == |Filter(Accepts(p), all)|
  {
    var kept := Filter(IsAccepted, all);
    FilterPermutes(p, SortBy(EarlierEntry, kept), kept);
    assert |Filter(p, SortBy(EarlierEntry, kept))| == |multiset(Filter(p, kept))|;
    FilterBoth(all, p);
  }

  lemma {:induction false} FilterBoth(all: seq<Entry>, p: Entry -> bool)
    ensures Filter(p, Filter(IsAccepted, all)) == Filter(Accepts(p), all)
  {
    if all != [] {
      FilterBoth(all[1..], p);
      if all[0].accepted {
        var rest := Filter(IsAccepted, all[1..]);
        assert Filter(IsAccepted, all) == [all[0]] + rest && ([all[0]] + rest)[1..] == rest;
      }
    }
  }

  /** The figures count the accepted events of each kind, and those of each producer. */
  lemma {:induction false} EventFigures(watermark: seq<Entry> -> string, all: seq<Entry>, k: Kind, role: Role,
                                        name: string)
    ensures var f := FiguresOf(watermark, all);
            && TallyOf(f.tallies, k) == |Filter(Accepts(KindIs(k)), all)|
            && (name != "" ==> CountIn(CountsOf(f.producers, role), name) == |Filter(Accepts(By(role, name)), all)|)
            && f.acceptedEvents == |Filter(IsAccepted, all)| && f.acceptedEvents + f.pendingEvents == |all|
  {
    var accepted := SortBy(EarlierEntry, Filter(IsAccepted, all));
    TalliesCount(accepted, k);
    CountAccepted(all, KindIs(k));
    SameElements(accepted, Filter(IsAccepted, all));
    if name != "" {
      ProducersCount(accepted, role, name);
      CountAccepted(all, By(role, name));
    }
  }

  // ---------------------------------------------------------------- packages and executions

  datatype Figure =
    | InState(state: WorkPackageState)
    | FirstPass
    | Completed
    | Untimed

  const COUNTED_STATES := {InProgress, Blocked, Failed, Accepted, Canceled}

  function FigureOf(t: Totals, f: Figure): int {
    match f
    case InState(InProgress) => t.active
    case InState(Blocked) => t.blocked
    case InState(Failed) => t.failed
    case InState(Accepted) => t.accepted
    case InState(Canceled) => t.canceled
    case InState(_) => 0
    case FirstPass => t.firstPass
    case Completed => t.completed
    case Untimed => t.untimed
  }

  lemma FigureAdds(a: Totals, b: Totals, f: Figure)
    ensures FigureOf(Add(a, b), f) == FigureOf(a, f) + FigureOf(b, f)
  {
  }

  function Among(keys: seq<string>, p: string -> bool): set<string> { set k | k in keys && p(k) }

  lemma OneMoreAmong(keys: seq<string>, p: string -> bool)
    requires Distinct(keys) && keys != []
    ensures |Among(keys, p)| == |Among(keys[1..], p)| + if p(keys[0]) then 1 else 0
  {
    assert keys[0] !in Among(keys[1..], p);
    assert Among(keys, p) == if p(keys[0]) then Among(keys[1..], p) + {keys[0]} else Among(keys[1..], p);
  }

  /** Where each entry adds 1 or nothing, the sum counts the entries that add 1. */
  lemma {:induction false} SumCounts(share: string -> Totals, f: Figure, p: string -> bool, keys: seq<string>)
    requires Distinct(keys) && forall k | k in keys :: FigureOf(share(k), f) == if p(k) then 1 else 0
    ensures FigureOf(Sum(Map(share, keys)), f) == |Among(keys, p)|
  {
    if keys == [] {
      assert Among(keys, p) == {};
    } else {
      var rest := keys[1..];
      SumCounts(share, f, p, rest);
      OneMoreAmong(keys, p);
      assert Map(share, keys)[1..] == Map(share, rest);
      FigureAdds(share(keys[0]), Sum(Map(share, rest)), f);
    }
  }

  /** The entry under `k` adds 1 to the figure if `p` holds of it, and otherwise nothing. */
  ghost predicate AddsOne<T>(m: map<string, T>, share: T -> Totals, f: Figure, p: T -> bool, k: string)
    requires k in m
  {
    FigureOf(share(m[k]), f) == if p(m[k]) then 1 else 0
  }

  /** The keys whose entries have the property. */
  function Having<T>(m: map<string, T>, p: T -> bool): set<string> { set k | k in m && p(m[k]) }

  /** Counting the entries of a map by summing over it. */
  lemma {:induction false} CountOver<T>(m: map<string, T>, share: T -> Totals, f: Figure, p: T -> bool)
    requires forall k {:trigger AddsOne(m, share, f, p, k)} | k in m :: AddsOne(m, share, f, p, k)
    ensures FigureOf(SumOver(m, share), f) == |Having(m, p)|
  {
    var keys, here := Listing(m.Keys), (k: string) => k in m && p(m[k]);
    forall k | k in keys ensures FigureOf(ShareOf(m, share)(k), f) == if here(k) then 1 else 0 {
      assert AddsOne(m, share, f, p, k);
    }
    SumCounts(ShareOf(m, share), f, here, keys);
    assert Among(keys, here) == Having(m, p);
  }

  predicate PackageCounts(p: PackageRecord, f: Figure) {
    match f
    case InState(state) => p.state == state
    case FirstPass => p.state == Accepted && p.rework == 0
    case _ => false
  }

  function Counting(f: Figure): PackageRecord -> bool { (p: PackageRecord) => PackageCounts(p, f) }

  /** The packages are counted by the state each is in, and those accepted without rework. */
  lemma {:induction false} PackageFigures(packages: map<string, PackageRecord>, f: Figure)
    requires f.InState? ==> f.state in COUNTED_STATES
    ensures FigureOf(SumOver(packages, PackageShare), f) == |Having(packages, Counting(f))|
  {
    forall k | k in packages ensures AddsOne(packages, PackageShare, f, Counting(f), k) {
      PackageAdds(packages[k], f);
    }
    CountOver(packages, PackageShare, f, Counting(f));
  }

  lemma PackageAdds(p: PackageRecord, f: Figure)
    requires f.InState? ==> f.state in COUNTED_STATES
    ensures FigureOf(PackageShare(p), f) == if PackageCounts(p, f) then 1 else 0
  {
  }

  predicate ExecutionCounts(x: Execution, f: Figure) {
    match f
    case Completed => x.terminal
    case Untimed => x.terminal && x.started == 0
    case _ => false
  }

  function CountingEnds(f: Figure): Execution -> bool { (x: Execution) => ExecutionCounts(x, f) }

  /** So are the executions that ended, and those of them that never started. */
  lemma {:induction false} ExecutionFigures(executions: map<string, Execution>, f: Figure)
    ensures FigureOf(SumOver(executions, ExecutionShare), f) == |Having(executions, CountingEnds(f))|
  {
    forall k | k in executions ensures AddsOne(executions, ExecutionShare, f, CountingEnds(f), k) {
      ExecutionAdds(executions[k], f);
    }
    CountOver(executions, ExecutionShare, f, CountingEnds(f));
  }

  lemma ExecutionAdds(x: Execution, f: Figure)
    ensures FigureOf(ExecutionShare(x), f) == if ExecutionCounts(x, f) then 1 else 0
  {
  }

  // ---------------------------------------------------------------- one package

  predicate IsMove(e: Entry, from: WorkPackageState, to: WorkPackageState) {
    e.body == PackageChanged(Some((from, to)))
  }

  function Moves(from: WorkPackageState, to: WorkPackageState): Entry -> bool { (e: Entry) => IsMove(e, from, to) }

  function Marks(p: PackageRecord, again: bool): int { if again then p.retries else p.rework }
  function Marked(again: bool): Entry -> bool { if again then Moves(Failed, Ready) else Moves(Review, InProgress) }

  /** Retries are the moves from Failed to Ready, rework those from Review to InProgress. */
  lemma {:induction false} RetriesAndRework(events: seq<Entry>, again: bool)
    ensures Marks(FoldPackage(FRESH, events), again) == |Filter(Marked(again), events)|
  {
    if events != [] {
      var init, last := events[..|events| - 1], events[|events| - 1];
      RetriesAndRework(init, again);
      assert events == init + [last];
      FilterSnoc(Marked(again), init, last);
      MarkStep(FoldPackage(FRESH, init), last, again);
    }
  }

  lemma MarkStep(p: PackageRecord, e: Entry, again: bool)
    ensures Marks(ApplyToPackage(p, e), again) == Marks(p, again) + if Marked(again)(e) then 1 else 0
  {
  }

  /** The state an event puts its package in, if any. */
  function PutsIn(body: Body): Option<WorkPackageState> {
    match body
    case PackageCreated => Some(Planned)
    case PackageChanged(Some((_, to))) => Some(to)
    case PackageAccepted => Some(Accepted)
    case _ => None
  }

  /** The package is in the state the last such event put it in. */
  lemma {:induction false} StateIsLast(events: seq<Entry>, n: nat)
    requires n < |events| && PutsIn(events[n].body).Some?
    requires forall j | n < j < |events| :: PutsIn(events[j].body).None?
    ensures Some(FoldPackage(FRESH, events).state) == PutsIn(events[n].body)
  {
    if n < |events| - 1 {
      var init := events[..|events| - 1];
      StateIsLast(init, n);
      assert PutsIn(events[|events| - 1].body).None?;
    }
  }

  datatype Instant = CreatedAt | AcceptedAt | ReadyAt | ReviewAt | StartedAt | EndedAt

  function InstantOf(p: PackageRecord, i: Instant): int {
    match i
    case CreatedAt => p.created
    case AcceptedAt => p.accepted
    case ReadyAt => p.ready
    case ReviewAt => p.review
    case StartedAt => p.started
    case EndedAt => p.terminal
  }

  /** The events that mark an instant in a package's life. */
  predicate Sets(i: Instant, body: Body) {
    match i
    case CreatedAt => body.PackageCreated?
    case AcceptedAt => body.PackageAccepted?
    case ReadyAt => body.PackageChanged? && body.change.Some? && body.change.value.1 == Ready
    case ReviewAt => body.PackageChanged? && body.change.Some? && body.change.value.1 == Review
    case StartedAt => body.ExecutionStarted?
    case EndedAt => body.ExecutionEnded?
  }

  predicate Lasting(i: Instant) { i.CreatedAt? || i.AcceptedAt? }

  lemma InstantStep(p: PackageRecord, e: Entry, i: Instant)
    ensures InstantOf(ApplyToPackage(p, e), i)
         == if Sets(i, e.body) && (Lasting(i) || InstantOf(p, i) == 0) then e.occurredAt else InstantOf(p, i)
  {
  }

  /** Creation and acceptance are dated by the last such event. */
  lemma {:induction false} DatedByLast(events: seq<Entry>, n: nat, i: Instant)
    requires Lasting(i) && n < |events| && Sets(i, events[n].body)
    requires forall j | n < j < |events| :: !Sets(i, events[j].body)
    ensures InstantOf(FoldPackage(FRESH, events), i) == events[n].occurredAt
  {
    var init := events[..|events| - 1];
    InstantStep(FoldPackage(FRESH, init), events[|events| - 1], i);
    if n < |events| - 1 { DatedByLast(init, n, i); }
  }

  /** Readiness, review, start and end are dated by the first. */
  lemma {:induction false} DatedByFirst(events: seq<Entry>, n: nat, i: Instant)
    requires !Lasting(i) && n < |events| && Sets(i, events[n].body) && events[n].occurredAt != 0
    requires forall j | 0 <= j < n :: !Sets(i, events[j].body)
    ensures InstantOf(FoldPackage(FRESH, events), i) == events[n].occurredAt
  {
    var init := events[..|events| - 1];
    InstantStep(FoldPackage(FRESH, init), events[|events| - 1], i);
    if n < |events| - 1 { DatedByFirst(init, n, i); } else { NotYetDated(init, i); }
  }

  lemma {:induction false} NotYetDated(events: seq<Entry>, i: Instant)
    requires forall j | 0 <= j < |events| :: !Sets(i, events[j].body)
    ensures InstantOf(FoldPackage(FRESH, events), i) == 0
  {
    if events != [] {
      var init := events[..|events| - 1];
      NotYetDated(init, i);
      InstantStep(FoldPackage(FRESH, init), events[|events| - 1], i);
    }
  }

  /** Whole milliseconds between two instants. */
  predicate Spans(s: Span, start: int, end: int) {
    if start != 0 && end != 0 && start <= end
    then s.count == 1 && s.total * MILLISECOND <= end - start < (s.total + 1) * MILLISECOND
    else s.count == 0 && s.total == 0
  }

  /** What a package took: to get ready, to execute, in review, from its end to its acceptance. */
  lemma {:induction false} TimesTaken(p: PackageRecord)
    ensures var t := PackageShare(p);
            && Spans(t.queue, p.created, p.ready) && Spans(t.execution, p.started, p.terminal)
            && Spans(t.review, p.review, p.accepted) && Spans(t.acceptance, p.terminal, p.accepted)
            && (0 < p.created <= p.accepted ==> Spans(t.toAcceptance, p.created, p.accepted))
            && t.blockedTime.total == (if p.blockedMilliseconds > 0 then p.blockedMilliseconds else 0)
  {
    SpansRound(p.created, p.ready);
    SpansRound(p.started, p.terminal);
    SpansRound(p.review, p.accepted);
    SpansRound(p.terminal, p.accepted);
    SpansRound(p.created, p.accepted);
  }

  lemma SpansRound(start: int, end: int)
    ensures Spans(SpanBetween(start, end), start, end)
  {
  }

  /** What an execution that started and ended in that order took. */
  lemma ExecutionTime(x: Execution)
    ensures x.terminal && 0 < x.started <= x.ended ==> Spans(ExecutionShare(x).duration, x.started, x.ended)
    ensures !x.terminal || x.started == 0 ==> ExecutionShare(x).duration.count == 0
  {
  }

  // ---------------------------------------------------------------- telemetry

  predicate EndsIn(e: Entry, outcome: string) { OfKind(Summary, e.body) && e.body.telemetry.value.outcome == outcome }

  function Ending(outcome: string): Entry -> bool { (e: Entry) => EndsIn(e, outcome) }

  /** Each outcome is counted once per summary that reports it. */
  lemma {:induction false} OutcomesCount(events: seq<Entry>, outcome: string)
    ensures CountIn(Fold(START, events).outcomes, outcome) == |Filter(Ending(outcome), events)|
  {
    if events != [] {
      var init, last := events[..|events| - 1], events[|events| - 1];
      OutcomesCount(init, outcome);
      assert events == init + [last];
      FilterSnoc(Ending(outcome), init, last);
      OutcomeStep(Fold(START, init), last, outcome);
    }
  }

  lemma OutcomeStep(l: Ledger, e: Entry, outcome: string)
    ensures CountIn(Apply(l, e).outcomes, outcome) == CountIn(l.outcomes, outcome) + if EndsIn(e, outcome) then 1 else 0
  {
  }

  /** A group is shown exactly when at least three accepted summaries carry its versions, and says
      how many; so do the outcomes. */
  lemma {:induction false} TelemetryFigures(watermark: seq<Entry> -> string, all: seq<Entry>, group: string,
                                            outcome: string)
    ensures var f, n := FiguresOf(watermark, all), |Filter(Accepts(InGroup(group)), all)|;
            && (group in f.groups <==> n >= 3) && (group in f.groups ==> f.groups[group].count == n)
            && CountIn(f.outcomes, outcome) == |Filter(Accepts(Ending(outcome)), all)|
  {
    var accepted := SortBy(EarlierEntry, Filter(IsAccepted, all));
    GroupsCountSummaries(accepted, group);
    CountAccepted(all, InGroup(group));
    OutcomesCount(accepted, outcome);
    CountAccepted(all, Ending(outcome));
  }

  /** A summary of values counts those known and those not; its average is the mean cut off
      towards zero. */
  lemma {:induction false} AggregateMeans(values: seq<int>, total: int)
    ensures var a := AggregateOf(values, total);
            && a.knownCount == |values| && a.knownCount + a.unknownCount == total && a.total == SumValues(values)
            && (values != [] && a.total >= 0 ==> 0 <= a.total - a.average * |values| < |values|)
            && (values != [] && a.total <= 0 ==> 0 <= a.average * |values| - a.total < |values|)
  {
    if values != [] { Quotient(SumValues(values), |values|); }
  }

  lemma Quotient(n: int, d: nat)
    requires d > 0
    ensures n >= 0 ==> 0 <= n - Truncated(n, d) * d < d
    ensures n <= 0 ==> 0 <= Truncated(n, d) * d - n < d
  {
    if n < 0 { assert (-n) / d * d == -(Truncated(n, d) * d); }
  }

  /** The figures are as recent as the latest accepted event. */
  lemma {:induction false} LatestIsGreatest(watermark: seq<Entry> -> string, all: seq<Entry>, e: Entry)
    requires e in all && e.accepted
    ensures var latest := FiguresOf(watermark, all).latest;
            && e.occurredAt <= latest
            && (latest == 0 || exists x :: x in all && x.accepted && x.occurredAt == latest)
  {
    var byID := SortBy(EntryIDLess, SortBy(EarlierEntry, Filter(IsAccepted, all)));
    SortedTwice(all, e);
    LatestAmong(byID, e);
    if Latest(byID) != 0 {
      var x :| x in byID && x.occurredAt == Latest(byID);
      SortedTwice(all, x);
    }
  }

  lemma SortedTwice(all: seq<Entry>, e: Entry)
    ensures e in SortBy(EntryIDLess, SortBy(EarlierEntry, Filter(IsAccepted, all))) <==> e in all && e.accepted
  {
    var accepted := SortBy(EarlierEntry, Filter(IsAccepted, all));
    SameElements(accepted, Filter(IsAccepted, all));
    SameElements(SortBy(EntryIDLess, accepted), accepted);
  }

  lemma {:induction false} LatestAmong(events: seq<Entry>, e: Entry)
    ensures e in events ==> e.occurredAt <= Latest(events)
    ensures Latest(events) == 0 || exists x :: x in events && x.occurredAt == Latest(events)
  {
    if events != [] { LatestAmong(events[..|events| - 1], e); }
  }

  // ---------------------------------------------------------------- quality

  /** Nothing is labelled complete on fewer than three accepted events or while any are pending, and
      everything is labelled insufficient exactly without any. */
  lemma {:induction false} LabelsPromise(f: Figures, l: Label)
    requires l in Labels(f)
    ensures l.quality == CompleteQuality ==> f.acceptedEvents >= 3 && f.pendingEvents <= 0
    ensures l.quality == Insufficient <==> f.acceptedEvents == 0
  {
  }

  /** The completion rate is the accepted among the accepted and failed, the other those of the accepted
      that needed no rework; the rates are unknown exactly where there is nothing to divide by. */
  lemma RatesMean(f: Figures)
    ensures var m, ended := Report(f), f.package.accepted + f.package.failed;
            && (m.completion.UnknownRate? <==> ended == 0)
            && (ended != 0 ==> m.completion.value * ended as real == f.package.accepted as real)
            && (m.firstPass.UnknownRate? <==> f.package.accepted == 0)
            && (f.package.accepted != 0 ==>
                  m.firstPass.value * f.package.accepted as real == f.package.firstPass as real)
  {
    var ended := f.package.accepted + f.package.failed;
    if ended != 0 { DividesBack(f.package.accepted, ended); }
    if f.package.accepted != 0 { DividesBack(f.package.firstPass, f.package.accepted); }
  }

  lemma DividesBack(n: int, d: int)
    requires d != 0
    ensures n as real / d as real * d as real == n as real
  {
  }
}

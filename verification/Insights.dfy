/** Work insights: the fold over accepted history in canonical order, and the metrics drawn
    from the maps it leaves behind. Instants are nanoseconds and 0 is the unset instant. */
module Insights {
  import opened Sorting
  import opened Text
  import opened Options
  import opened Project
  import opened Overlap

  datatype TestOutcome = TestPassed | TestFailed | TestSkipped | TestUnknown
  datatype Telemetry = Telemetry(group: string, outcome: string, observations: seq<(string, Option<int>)>)

  // An event type with its decoded payload; `None` is a payload that does not decode.
  datatype Body =
    | PackageCreated
    | PackageChanged(change: Option<(WorkPackageState, WorkPackageState)>)
    | PackageAccepted
    | ExecutionStarted
    | ExecutionEnded
    | TestRecorded(outcome: Option<TestOutcome>)
    | ArtifactRecorded
    | HandoffCreated
    | TelemetryRecorded(telemetry: Option<Telemetry>)
    | OtherBody

  datatype Entry = Entry(
    eventID: string, recordHash: string, accepted: bool, occurredAt: int, workPackageID: string, executionID: string,
    worker: string, model: string, provider: string, device: string, body: Body)

  datatype PackageRecord = PackageRecord(
    state: WorkPackageState, created: int, ready: int, started: int, terminal: int, review: int, accepted: int,
    blockedAt: int, blockedMilliseconds: int, retries: int, rework: int)

  datatype Execution = Execution(started: int, ended: int, terminal: bool)
  datatype Group = Group(count: int, outcomes: map<string, int>, values: map<string, seq<int>>)
  datatype Producers = Producers(
    workers: map<string, int>, models: map<string, int>, providers: map<string, int>, devices: map<string, int>)
  datatype Tallies = Tallies(passed: int, failed: int, skipped: int, artifacts: int, handoffs: int, telemetry: int)

  datatype Ledger = Ledger(
    packages: map<string, PackageRecord>, executions: map<string, Execution>, tallies: Tallies, producers: Producers,
    outcomes: map<string, int>, known: map<string, seq<int>>, groups: map<string, Group>)

  const FRESH := PackageRecord(NotCreated, 0, 0, 0, 0, 0, 0, 0, 0, 0, 0)

  // ---------------------------------------------------------------- the fold

  /** Go's integer division, which truncates towards zero. */
  function Truncated(a: int, b: int): int
    requires b > 0
  {
    if a >= 0 then a / b else -((-a) / b)
  }

  function Milliseconds(d: int): int { Truncated(d, MILLISECOND) }

  function FirstTime(known: int, now: int): int { if known == 0 then now else known }

  function ChangePackage(p: PackageRecord, from: WorkPackageState, to: WorkPackageState, now: int): PackageRecord {
    var moved := p.(
      state := to,
      retries := p.retries + (if from.Failed? && to.Ready? then 1 else 0),
      rework := p.rework + (if from.Review? && to.InProgress? then 1 else 0),
      ready := if to.Ready? then FirstTime(p.ready, now) else p.ready,
      review := if to.Review? then FirstTime(p.review, now) else p.review,
      blockedAt := if to.Blocked? then FirstTime(p.blockedAt, now) else p.blockedAt);
    if from.Blocked? && moved.blockedAt != 0
    then moved.(blockedMilliseconds := p.blockedMilliseconds + Milliseconds(now - moved.blockedAt), blockedAt := 0)
    else moved
  }

  /** What an event that names a package does to it. */
  function ApplyToPackage(p: PackageRecord, e: Entry): PackageRecord {
    match e.body
    case PackageCreated => p.(state := Planned, created := e.occurredAt)
    case PackageChanged(Some((from, to))) => ChangePackage(p, from, to, e.occurredAt)
    case PackageAccepted => p.(state := Accepted, accepted := e.occurredAt)
    case ExecutionStarted => p.(started := FirstTime(p.started, e.occurredAt))
    case ExecutionEnded => p.(terminal := FirstTime(p.terminal, e.occurredAt))
    case _ => p
  }

  function PackageIn(packages: map<string, PackageRecord>, id: string): PackageRecord {
    if id in packages then packages[id] else FRESH
  }

  function ApplyToExecutions(executions: map<string, Execution>, e: Entry): map<string, Execution> {
    var x := if e.executionID in executions then executions[e.executionID] else Execution(0, 0, false);
    match e.body
    case ExecutionStarted => executions[e.executionID := x.(started := e.occurredAt)]
    case ExecutionEnded => executions[e.executionID := x.(ended := e.occurredAt, terminal := true)]
    case _ => executions
  }

  function ApplyToTallies(t: Tallies, body: Body): Tallies {
    match body
    case TestRecorded(Some(TestPassed)) => t.(passed := t.passed + 1)
    case TestRecorded(Some(TestFailed)) => t.(failed := t.failed + 1)
    case TestRecorded(Some(TestSkipped)) => t.(skipped := t.skipped + 1)
    case ArtifactRecorded => t.(artifacts := t.artifacts + 1)
    case HandoffCreated => t.(handoffs := t.handoffs + 1)
    case TelemetryRecorded(Some(_)) => t.(telemetry := t.telemetry + 1)
    case _ => t
  }

  function CountUp(counts: map<string, int>, key: string): map<string, int> {
    counts[key := (if key in counts then counts[key] else 0) + 1]
  }

  function AddGroup(counts: map<string, int>, key: string): map<string, int> {
    if key == "" then counts else CountUp(counts, key)
  }

  function ApplyToProducers(p: Producers, e: Entry): Producers {
    Producers(AddGroup(p.workers, e.worker), AddGroup(p.models, e.model), AddGroup(p.providers, e.provider),
              AddGroup(p.devices, e.device))
  }

  /** Appends the values observed, each under its name; `any` admits names not seen before. */
  function Observe(values: map<string, seq<int>>, observations: seq<(string, Option<int>)>,
                   any: bool): map<string, seq<int>>
    decreases |observations|
  {
    if observations == [] then values else
      var (name, value) := observations[0];
      var prior := if name in values then values[name] else [];
      Observe(if value.Some? && (any || name in values) then values[name := prior + [value.value]] else values,
              observations[1..], any)
  }

  function AddTelemetry(groups: map<string, Group>, t: Telemetry): map<string, Group> {
    var g := if t.group in groups then groups[t.group] else Group(0, map[], map[]);
    groups[t.group := Group(g.count + 1, CountUp(g.outcomes, t.outcome), Observe(g.values, t.observations, true))]
  }

  /** Creation, change and acceptance events name their package. */
  predicate Placed(e: Entry) {
    e.body.PackageCreated? || (e.body.PackageChanged? && e.body.change.Some?) || e.body.PackageAccepted? ==>
      e.workPackageID != ""
  }

  function Apply(l: Ledger, e: Entry): Ledger {
    var read := e.body.TelemetryRecorded? && e.body.telemetry.Some?;
    Ledger(
      if e.workPackageID == "" then l.packages
      else l.packages[e.workPackageID := ApplyToPackage(PackageIn(l.packages, e.workPackageID), e)],
      ApplyToExecutions(l.executions, e), ApplyToTallies(l.tallies, e.body), ApplyToProducers(l.producers, e),
      if read then CountUp(l.outcomes, e.body.telemetry.value.outcome) else l.outcomes,
      if read then Observe(l.known, e.body.telemetry.value.observations, false) else l.known,
      if read then AddTelemetry(l.groups, e.body.telemetry.value) else l.groups)
  }

  const START := Ledger(
    map[], map[], Tallies(0, 0, 0, 0, 0, 0), Producers(map[], map[], map[], map[]),
    map["succeeded" := 0, "failed" := 0, "canceled" := 0, "partial" := 0],
    map["duration_milliseconds" := [], "input_tokens" := [], "output_tokens" := [], "provider_cost_micros" := [],
        "tool_calls" := []],
    map[])

  function Fold(l: Ledger, events: seq<Entry>): Ledger {
    if events == [] then l else Apply(Fold(l, events[..|events| - 1]), events[|events| - 1])
  }

  // ---------------------------------------------------------------- what the fold keeps apart

  function About(id: string): Entry -> bool { (e: Entry) => e.workPackageID == id }

  function FoldPackage(p: PackageRecord, events: seq<Entry>): PackageRecord {
    if events == [] then p else ApplyToPackage(FoldPackage(p, events[..|events| - 1]), events[|events| - 1])
  }

  /** A package's record depends only on the events that name it, in their order. */
  lemma {:induction false} PackagesAreSeparate(events: seq<Entry>, id: string)
    requires id != ""
    ensures PackageIn(Fold(START, events).packages, id) == FoldPackage(FRESH, Filter(About(id), events))
  {
    if events != [] {
      var init, last := events[..|events| - 1], events[|events| - 1];
      PackagesAreSeparate(init, id);
      assert events == init + [last];
      FilterSnoc(About(id), init, last);
      if last.workPackageID == id { FoldOne(Filter(About(id), init), last); }
      PackageStep(Fold(START, init), last, id);
    }
  }

  lemma FoldOne(events: seq<Entry>, e: Entry)
    ensures FoldPackage(FRESH, events + [e]) == ApplyToPackage(FoldPackage(FRESH, events), e)
  {
    assert (events + [e])[..|events|] == events;
  }

  lemma PackageStep(l: Ledger, e: Entry, id: string)
    requires id != ""
    ensures PackageIn(Apply(l, e).packages, id)
         == if e.workPackageID == id then ApplyToPackage(PackageIn(l.packages, id), e) else PackageIn(l.packages, id)
  {
  }

  predicate HasTelemetry(e: Entry, group: string) {
    e.body.TelemetryRecorded? && e.body.telemetry.Some? && e.body.telemetry.value.group == group
  }

  function InGroup(group: string): Entry -> bool { (e: Entry) => HasTelemetry(e, group) }

  /** A telemetry group counts exactly the summaries that carry its versions. */
  lemma {:induction false} GroupsCountSummaries(events: seq<Entry>, group: string)
    ensures var g := Fold(START, events).groups;
            (if group in g then g[group].count else 0) == |Filter(InGroup(group), events)|
  {
    if events != [] {
      var init, last := events[..|events| - 1], events[|events| - 1];
      GroupsCountSummaries(init, group);
      assert events == init + [last];
      FilterSnoc(InGroup(group), init, last);
    }
  }

  // ---------------------------------------------------------------- totals over unordered maps

  /** A list of durations, as far as it is used: how many, and their sum. */
  datatype Span = Span(count: int, total: int)

  datatype Totals = Totals(
    active: int, blocked: int, failed: int, accepted: int, canceled: int, firstPass: int, retries: int, rework: int,
    toAcceptance: Span, queue: Span, execution: Span, review: Span, acceptance: Span, blockedTime: Span,
    completed: int, duration: Span, untimed: int)

  const NO_SPAN := Span(0, 0)
  const ZERO := Totals(0, 0, 0, 0, 0, 0, 0, 0, NO_SPAN, NO_SPAN, NO_SPAN, NO_SPAN, NO_SPAN, NO_SPAN, 0, NO_SPAN, 0)

  function Join(a: Span, b: Span): Span { Span(a.count + b.count, a.total + b.total) }

  function Add(a: Totals, b: Totals): Totals {
    Totals(a.active + b.active, a.blocked + b.blocked, a.failed + b.failed, a.accepted + b.accepted,
           a.canceled + b.canceled,
           a.firstPass + b.firstPass, a.retries + b.retries, a.rework + b.rework,
           Join(a.toAcceptance, b.toAcceptance), Join(a.queue, b.queue), Join(a.execution, b.execution),
           Join(a.review, b.review),
           Join(a.acceptance, b.acceptance), Join(a.blockedTime, b.blockedTime),
           a.completed + b.completed, Join(a.duration, b.duration), a.untimed + b.untimed)
  }

  lemma AddSwaps(a: Totals, b: Totals, c: Totals)
    ensures Add(a, Add(b, c)) == Add(b, Add(a, c)) && Add(a, b) == Add(b, a)
  {
  }

  function Sum(s: seq<Totals>): Totals {
    if s == [] then ZERO else Add(s[0], Sum(s[1..]))
  }

  lemma {:induction false} SumRemoved(s: seq<Totals>, i: nat)
    requires i < |s|
    ensures Sum(s) == Add(s[i], Sum(s[..i] + s[i + 1..]))
  {
    var rest := s[..i] + s[i + 1..];
    if i == 0 {
      assert rest == s[1..];
    } else {
      assert rest[0] == s[0] && rest[1..] == s[1..][..i - 1] + s[1..][i..];
      SumRemoved(s[1..], i - 1);
      AddSwaps(s[0], s[i], Sum(rest[1..]));
    }
  }

  lemma {:induction false} SumPermutes(a: seq<Totals>, b: seq<Totals>)
    requires multiset(a) == multiset(b)
    ensures Sum(a) == Sum(b)
  {
    if a == [] {
      SameElements(a, b);
    } else {
      var i := FindFirst(a, b);
      SumRemoved(b, i);
      SumPermutes(a[1..], b[..i] + b[i + 1..]);
    }
  }

  function SpanBetween(start: int, end: int): Span {
    if start != 0 && end != 0 && start <= end then Span(1, Milliseconds(end - start)) else NO_SPAN
  }

  /** What one package adds to the totals. */
  function PackageShare(p: PackageRecord): Totals {
    ZERO.(
      active := if p.state.InProgress? then 1 else 0,
      blocked := if p.state.Blocked? then 1 else 0,
      failed := if p.state.Failed? then 1 else 0,
      accepted := if p.state.Accepted? then 1 else 0,
      canceled := if p.state.Canceled? then 1 else 0,
      firstPass := if p.state.Accepted? && p.rework == 0 then 1 else 0,
      retries := p.retries, rework := p.rework,
      toAcceptance :=
        if p.created != 0 && p.accepted != 0 then Span(1, Milliseconds(p.accepted - p.created)) else NO_SPAN,
      queue := SpanBetween(p.created, p.ready),
      execution := SpanBetween(p.started, p.terminal),
      review := SpanBetween(p.review, p.accepted),
      acceptance := SpanBetween(p.terminal, p.accepted),
      blockedTime := if p.blockedMilliseconds > 0 then Span(1, p.blockedMilliseconds) else NO_SPAN)
  }

  function ExecutionShare(x: Execution): Totals {
    ZERO.(
      completed := if x.terminal then 1 else 0,
      duration := if x.terminal && x.started != 0 then Span(1, Milliseconds(x.ended - x.started)) else NO_SPAN,
      untimed := if x.terminal && x.started == 0 then 1 else 0)
  }

  function ShareOf<T>(m: map<string, T>, share: T -> Totals): string -> Totals {
    k => if k in m then share(m[k]) else ZERO
  }

  /** The sum over a map's entries, in some order. */
  ghost function SumOver<T>(m: map<string, T>, share: T -> Totals): Totals {
    Sum(Map(ShareOf(m, share), Listing(m.Keys)))
  }

  lemma SumExtend(f: string -> Totals, k: string, visited: seq<string>)
    ensures Sum(Map(f, [k] + visited)) == Add(Sum(Map(f, visited)), f(k))
  {
    assert Map(f, [k] + visited)[1..] == Map(f, visited);
    AddSwaps(f(k), Sum(Map(f, visited)), ZERO);
  }

  lemma SumAnyOrder(f: string -> Totals, visited: seq<string>, keys: set<string>)
    requires Distinct(visited) && forall k :: k in visited <==> k in keys
    ensures Sum(Map(f, visited)) == Sum(Map(f, Listing(keys)))
  {
    DistinctSameElements(visited, Listing(keys));
    MapPermutes(f, visited, Listing(keys));
    SumPermutes(Map(f, visited), Map(f, Listing(keys)));
  }

  /** Ranging over a map visits its entries in any order whatever; the sum is always the same. */
  method Total<T>(m: map<string, T>, share: T -> Totals) returns (t: Totals)
    ensures t == SumOver(m, share)
  {
    t := ZERO;
    var pending := m.Keys;
    ghost var visited: seq<string> := [];
    ghost var f := ShareOf(m, share);
    while pending != {}
      invariant pending <= m.Keys && Distinct(visited)
      invariant forall k :: k in visited <==> k in m && k !in pending
      invariant t == Sum(Map(f, visited))
      decreases |pending|
    {
      var k :| k in pending;
      pending := pending - {k};
      SumExtend(f, k, visited);
      t := Add(t, share(m[k]));
      visited := [k] + visited;
    }
    SumAnyOrder(f, visited, m.Keys);
  }

  predicate Timed(x: Execution) { x.started != 0 && x.ended != 0 && x.started <= x.ended }

  function IntervalOf(m: map<string, Execution>): string -> Interval {
    k => if k in m then Interval(m[k].started, m[k].ended) else Interval(0, 0)
  }

  ghost function Intervals(m: map<string, Execution>): seq<Interval> {
    Map(IntervalOf(m), Listing(set k | k in m && Timed(m[k])))
  }

  /** Two executions can run together and none of it be reported. */
  lemma {:induction false} FineOverlapIsLost()
    ensures var m := map["first" := Execution(1, 10, true), "second" := Execution(9, 20, true)];
            && PairTotal(Intervals(m)) == 0 && Timed(m["first"]) && Timed(m["second"])
            && At(IntervalOf(m)("first"), 9) && At(IntervalOf(m)("second"), 9)
  {
    var m := map["first" := Execution(1, 10, true), "second" := Execution(9, 20, true)];
    assert "first" != "second" by { assert |"first"| != |"second"|; }
    var intervals := Intervals(m);
    forall i, j | 0 <= i < j < |intervals| ensures Shared(intervals[i], intervals[j]) < MILLISECOND {
      ShortIsNotReported(intervals[i], intervals[j]);
    }
    ZeroMeansApart(intervals);
  }

  lemma ShortIsNotReported(a: Interval, b: Interval)
    requires 0 <= a.start && a.end <= 20
    ensures Shared(a, b) < MILLISECOND
  {
  }

  /** Collects the timed executions, again in any order. */
  method CollectIntervals(m: map<string, Execution>) returns (intervals: seq<Interval>)
    ensures multiset(intervals) == multiset(Intervals(m))
  {
    intervals := [];
    var pending := m.Keys;
    ghost var visited: seq<string> := [];
    while pending != {}
      invariant pending <= m.Keys && Distinct(visited)
      invariant forall k :: k in visited <==> k in m && Timed(m[k]) && k !in pending
      invariant intervals == Map(IntervalOf(m), visited)
      decreases |pending|
    {
      var k :| k in pending;
      pending := pending - {k};
      if Timed(m[k]) {
        intervals := intervals + [Interval(m[k].started, m[k].ended)];
        visited := visited + [k];
      }
    }
    ghost var listed := Listing(set k | k in m && Timed(m[k]));
    DistinctSameElements(visited, listed);
    MapPermutes(IntervalOf(m), visited, listed);
  }

  // ---------------------------------------------------------------- the metrics

  datatype Aggregate = Aggregate(knownCount: int, unknownCount: int, total: int, average: int)
  datatype GroupSummary = GroupSummary(count: int, outcomes: map<string, int>, observations: map<string, Aggregate>)

  /** What is counted. */
  datatype Figures = Figures(
    packages: int, attempts: int, package: Totals, execution: Totals, overlapping: int, overlapMilliseconds: int,
    tallies: Tallies, producers: Producers, outcomes: map<string, int>, resources: map<string, Aggregate>,
    groups: map<string, GroupSummary>, suppressed: int,
    acceptedEvents: int, pendingEvents: int, latest: int, watermark: string)

  function SumValues(values: seq<int>): int {
    if values == [] then 0 else SumValues(values[..|values| - 1]) + values[|values| - 1]
  }

  function AggregateOf(values: seq<int>, total: int): Aggregate {
    if values == [] then Aggregate(0, total, 0, 0)
    else Aggregate(|values|, total - |values|, SumValues(values), Truncated(SumValues(values), |values|))
  }

  function Aggregates(values: map<string, seq<int>>, total: int): map<string, Aggregate> {
    map name | name in values :: AggregateOf(values[name], total)
  }

  const MINIMUM_SAMPLE := 3

  function VisibleGroups(groups: map<string, Group>): map<string, GroupSummary> {
    map k | k in groups && groups[k].count >= MINIMUM_SAMPLE ::
      GroupSummary(groups[k].count, groups[k].outcomes, Aggregates(groups[k].values, groups[k].count))
  }

  predicate EarlierEntry(a: Entry, b: Entry) {
    if a.occurredAt == b.occurredAt then Less(a.eventID, b.eventID) else a.occurredAt < b.occurredAt
  }

  predicate EntryIDLess(a: Entry, b: Entry) { Less(a.eventID, b.eventID) }

  const IsAccepted := (e: Entry) => e.accepted

  function Latest(events: seq<Entry>): int {
    if events == [] then 0 else Max(Latest(events[..|events| - 1]), events[|events| - 1].occurredAt)
  }

  datatype Rate = UnknownRate | Rate(numerator: int, denominator: int, value: real)
  datatype Duration = UnknownDuration | Duration(count: int, total: int, average: int)
  datatype Quality = Insufficient | PartialQuality | CompleteQuality
  datatype Label = Label(metric: string, sample: int, quality: Quality)

  function RatioOf(n: int, d: int): Rate {
    if d == 0 then UnknownRate else Rate(n, d, n as real / d as real)
  }

  function DurationOf(s: Span): Duration {
    if s.count <= 0 then UnknownDuration else Duration(s.count, s.total, Truncated(s.total, s.count))
  }

  function QualityOf(accepted: int, pending: int): Quality {
    if accepted == 0 then Insufficient
    else if accepted < MINIMUM_SAMPLE || pending > 0 then PartialQuality
    else CompleteQuality
  }

  /** A metric that is itself partial is labelled no better than that. */
  function LabelOf(f: Figures, metric: string, sample: int, partial: bool): Label {
    var q := QualityOf(f.acceptedEvents, f.pendingEvents);
    Label(metric, sample, if partial && q == CompleteQuality then PartialQuality else q)
  }

  predicate FewSamples(f: Figures) {
    || f.tallies.telemetry < MINIMUM_SAMPLE
    || exists name | name in f.resources ::
         f.resources[name].knownCount != f.tallies.telemetry || f.resources[name].knownCount < MINIMUM_SAMPLE
  }

  function Labels(f: Figures): seq<Label> {
    var ended, tests := f.package.accepted + f.package.failed, f.tallies.passed + f.tallies.failed + f.tallies.skipped;
    [LabelOf(f, "work_package_state_counts", f.packages, false),
     LabelOf(f, "completion_rate", ended, ended == 0),
     LabelOf(f, "first_pass_acceptance_rate", f.package.accepted, f.package.accepted == 0),
     LabelOf(f, "execution_duration", f.execution.duration.count, f.execution.untimed > 0),
     LabelOf(f, "creation_to_acceptance_duration", f.package.toAcceptance.count,
             f.package.accepted != f.package.toAcceptance.count),
     LabelOf(f, "test_outcomes", tests, false),
     LabelOf(f, "retry_and_rework", f.packages, false),
     LabelOf(f, "work_by_producer", f.acceptedEvents, false),
     LabelOf(f, "artifact_and_handoff_counts", f.tallies.artifacts + f.tallies.handoffs, false),
     LabelOf(f, "telemetry_outcomes", f.tallies.telemetry, f.tallies.telemetry < MINIMUM_SAMPLE),
     LabelOf(f, "telemetry_resource_observations", f.tallies.telemetry, FewSamples(f)),
     LabelOf(f, "orchestration_duration_breakdown", f.packages, true),
     LabelOf(f, "orchestration_outcomes", f.packages, false),
     LabelOf(f, "telemetry_versioned_groups", f.tallies.telemetry, f.suppressed > 0),
     LabelOf(f, "projection_freshness", f.acceptedEvents, f.pendingEvents > 0)]
  }

  /** The figures with the rates, durations and labels drawn from them. */
  datatype Metrics = Metrics(
    figures: Figures, completion: Rate, firstPass: Rate, execution: Duration, toAcceptance: Duration,
    queued: Duration, executing: Duration, reviewing: Duration, accepting: Duration, blocked: Duration,
    labels: seq<Label>)

  function Report(f: Figures): Metrics {
    Metrics(f, RatioOf(f.package.accepted, f.package.accepted + f.package.failed),
            RatioOf(f.package.firstPass, f.package.accepted),
            DurationOf(f.execution.duration), DurationOf(f.package.toAcceptance), DurationOf(f.package.queue),
            DurationOf(f.package.execution), DurationOf(f.package.review), DurationOf(f.package.acceptance),
            DurationOf(f.package.blockedTime), Labels(f))
  }

  /** The metrics of a history; `watermark` digests the accepted events in ID order. */
  ghost function MetricsOf(watermark: seq<Entry> -> string, all: seq<Entry>): Metrics {
    Report(FiguresOf(watermark, all))
  }

  ghost function FiguresOf(watermark: seq<Entry> -> string, all: seq<Entry>): Figures {
    var accepted := SortBy(EarlierEntry, Filter(IsAccepted, all));
    var byID := SortBy(EntryIDLess, accepted);
    var l := Fold(START, accepted);
    Figures(
      |l.packages|, |l.executions|, SumOver(l.packages, PackageShare), SumOver(l.executions, ExecutionShare),
      |Intervals(l.executions)|, PairTotal(Intervals(l.executions)), l.tallies, l.producers, l.outcomes,
      Aggregates(l.known, l.tallies.telemetry), VisibleGroups(l.groups), |l.groups| - |VisibleGroups(l.groups)|,
      |accepted|, |all| - |accepted|, Latest(byID), watermark(byID))
  }

  method Replay(accepted: seq<Entry>) returns (l: Ledger)
    ensures l == Fold(START, accepted)
  {
    l := START;
    for i := 0 to |accepted|
      invariant l == Fold(START, accepted[..i])
    {
      assert accepted[..i + 1][..i] == accepted[..i];
      l := Apply(l, accepted[i]);
    }
    assert accepted[..|accepted|] == accepted;
  }

  method Sift(all: seq<Entry>) returns (accepted: seq<Entry>, pending: nat)
    ensures accepted == Filter(IsAccepted, all) && pending == |all| - |accepted|
  {
    accepted, pending := [], 0;
    for i := 0 to |all|
      invariant accepted == Filter(IsAccepted, all[..i]) && pending == i - |accepted|
    {
      assert all[..i + 1] == all[..i] + [all[i]];
      FilterSnoc(IsAccepted, all[..i], all[i]);
      if all[i].accepted { accepted := accepted + [all[i]]; } else { pending := pending + 1; }
    }
    assert all[..|all|] == all;
  }

  method CountUpAll(watermark: seq<Entry> -> string, all: seq<Entry>) returns (figures: Figures)
    ensures figures == FiguresOf(watermark, all)
  {
    var kept, pending := Sift(all);
    var accepted := SortBy(EarlierEntry, kept);
    SameElements(kept, accepted);
    var l := Replay(accepted);
    var byID := SortBy(EntryIDLess, accepted);
    var package := Total(l.packages, PackageShare);
    var execution := Total(l.executions, ExecutionShare);
    var intervals := CollectIntervals(l.executions);
    SameElements(intervals, Intervals(l.executions));
    PairTotalPermutes(intervals, Intervals(l.executions));
    var overlap := TotalOverlap(intervals);
    var visible := VisibleGroups(l.groups);
    figures := Figures(
      |l.packages|, |l.executions|, package, execution, |intervals|, overlap, l.tallies, l.producers, l.outcomes,
      Aggregates(l.known, l.tallies.telemetry), visible, |l.groups| - |visible|,
      |accepted|, pending, Latest(byID), watermark(byID));
  }

  /** However the maps are ranged over, the metrics are those of the history. */
  method Calculate(watermark: seq<Entry> -> string, all: seq<Entry>) returns (m: Metrics)
    requires forall i | 0 <= i < |all| && all[i].accepted :: Placed(all[i])
    ensures m == MetricsOf(watermark, all)
  {
    var figures := CountUpAll(watermark, all);
    m := Report(figures);
  }

  predicate SaneShare(t: Totals) { 0 <= t.firstPass <= t.accepted && 0 <= t.failed }

  lemma {:induction false} SumIsSane(s: seq<Totals>)
    requires forall i | 0 <= i < |s| :: SaneShare(s[i])
    ensures SaneShare(Sum(s))
  {
    if s != [] { SumIsSane(s[1..]); }
  }

  lemma FractionOf(n: int, d: int)
    requires 0 <= n <= d && d != 0
    ensures 0.0 <= n as real / d as real <= 1.0
  {
    var x := n as real / d as real;
    assert x * (d as real) == n as real;
  }

  lemma FiguresAreSane(watermark: seq<Entry> -> string, all: seq<Entry>)
    ensures SaneShare(FiguresOf(watermark, all).package)
  {
    var l := Fold(START, SortBy(EarlierEntry, Filter(IsAccepted, all)));
    SharesAreSane(l.packages);
  }

  lemma ShareIsSane(p: PackageRecord)
    ensures SaneShare(PackageShare(p))
  {
  }

  lemma SharesAreSane(packages: map<string, PackageRecord>)
    ensures SaneShare(SumOver(packages, PackageShare))
  {
    var share, order := ShareOf(packages, PackageShare), Listing(packages.Keys);
    forall i | 0 <= i < |order| ensures SaneShare(Map(share, order)[i]) {
      ShareIsSane(packages[order[i]]);
      assert Map(share, order)[i] == PackageShare(packages[order[i]]);
    }
    SumIsSane(Map(share, order));
  }

  lemma RatesOf(f: Figures)
    requires SaneShare(f.package)
    ensures Report(f).completion.Rate? ==> 0.0 <= Report(f).completion.value <= 1.0
    ensures Report(f).firstPass.Rate? ==> 0.0 <= Report(f).firstPass.value <= 1.0
  {
    if f.package.accepted + f.package.failed != 0 {
      FractionOf(f.package.accepted, f.package.accepted + f.package.failed);
    }
    if f.package.accepted != 0 { FractionOf(f.package.firstPass, f.package.accepted); }
  }

  /** Of every history, the completion and first-pass rates that are known are fractions. */
  lemma {:induction false} RatesAreFractions(watermark: seq<Entry> -> string, all: seq<Entry>)
    ensures var m := MetricsOf(watermark, all);
            && (m.completion.Rate? ==> 0.0 <= m.completion.value <= 1.0)
            && (m.firstPass.Rate? ==> 0.0 <= m.firstPass.value <= 1.0)
  {
    FiguresAreSane(watermark, all);
    RatesOf(FiguresOf(watermark, all));
  }

  lemma {:induction false} EntryOrder()
    ensures StrictWeak(EarlierEntry)
  {
    forall a, b ensures EarlierEntry(a, b) ==> !EarlierEntry(b, a) { LessTrichotomy(a.eventID, b.eventID); }
    forall a, b, c | !EarlierEntry(b, a) && !EarlierEntry(c, b) ensures !EarlierEntry(c, a) {
      if a.occurredAt == b.occurredAt == c.occurredAt { NotLessTransitive(a.eventID, b.eventID, c.eventID); }
    }
  }

  /** An event ID stands for one event. */
  ghost predicate IDsAgree(all: seq<Entry>) {
    forall a, b | a in all && b in all && a.eventID == b.eventID :: a == b
  }

  /** The order in which a history is read does not reach the metrics. */
  lemma {:induction false} OrderIsIrrelevant(watermark: seq<Entry> -> string, a: seq<Entry>, b: seq<Entry>)
    requires multiset(a) == multiset(b) && IDsAgree(a)
    ensures MetricsOf(watermark, a) == MetricsOf(watermark, b)
  {
    FiguresForgetOrder(watermark, a, b);
  }

  lemma FiguresForgetOrder(watermark: seq<Entry> -> string, a: seq<Entry>, b: seq<Entry>)
    requires multiset(a) == multiset(b) && IDsAgree(a)
    ensures FiguresOf(watermark, a) == FiguresOf(watermark, b)
  {
    EntryOrder();
    FilterPermutes(IsAccepted, a, b);
    var kept := Filter(IsAccepted, a);
    forall x, y | x in kept && y in kept ensures x == y || EarlierEntry(x, y) || EarlierEntry(y, x) {
      LessTrichotomy(x.eventID, y.eventID);
    }
    SortForgetsOrder(EarlierEntry, kept, Filter(IsAccepted, b));
    SameElements(a, b);
  }
}

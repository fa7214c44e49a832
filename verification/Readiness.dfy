/** Readiness of the packages in a task graph (`ReduceReadiness`): history events are put
    in canonical order, replayed into canonical package states, and the dependency
    equation is solved by sweeping until every member is resolved. */
module Readiness {
  import opened Sorting
  import opened Text
  import opened Options
  import opened Project
  import opened TaskGraph

  // ---------------------------------------------------------------- canonical event order

  function Precedence(body: EventBody): int {
    match body
    case WorkPackageCreated => 0
    case StateChanged(_) => 1
    case ReviewRecorded(_) => 2
    case WorkAccepted => 3
    case OtherEvent(_) => 4
  }

  predicate Earlier(a: Event, b: Event) {
    if a.occurredAt != b.occurredAt then a.occurredAt < b.occurredAt
    else if Precedence(a.body) != Precedence(b.body) then Precedence(a.body) < Precedence(b.body)
    else Less(a.recordID, b.recordID)
  }

  lemma {:induction false} EarlierIsStrictWeak()
    ensures StrictWeak(Earlier)
  {
    forall a, b ensures Earlier(a, b) ==> !Earlier(b, a) { LessTrichotomy(a.recordID, b.recordID); }
    forall a, b, c | !Earlier(b, a) && !Earlier(c, b) ensures !Earlier(c, a) {
      if !Less(b.recordID, a.recordID) && !Less(c.recordID, b.recordID) {
        NotLessTransitive(a.recordID, b.recordID, c.recordID);
      }
    }
  }

  /** A record ID names one event. */
  ghost predicate RecordsAgree(events: seq<Event>) {
    forall a, b | a in events && b in events && a.recordID == b.recordID :: a == b
  }

  lemma EarlierDiscriminates(events: seq<Event>)
    requires RecordsAgree(events)
    ensures Discriminates(Earlier, events)
  {
    forall a, b | a in events && b in events ensures a == b || Earlier(a, b) || Earlier(b, a) {
      LessTrichotomy(a.recordID, b.recordID);
    }
  }

  // ---------------------------------------------------------------- replay

  datatype Ledger = Ledger(states: map<string, WorkPackageState>, approved: map<string, bool>)

  function StateIn(l: Ledger, id: string): WorkPackageState {
    if id in l.states then l.states[id] else NotCreated
  }

  function ApprovedIn(l: Ledger, id: string): bool {
    id in l.approved && l.approved[id]
  }

  function ApplyEvent(l: Ledger, e: Event): Ledger {
    var id := e.workPackageID;
    match e.body
    case WorkPackageCreated =>
      if id in l.states then l else l.(states := l.states[id := Planned])
    case StateChanged(Some((from, to))) =>
      if StateIn(l, id) == from && ValidWorkPackageTransition(from, to) then
        Ledger(l.states[id := to], if to != Review then l.approved[id := false] else l.approved)
      else l
    case ReviewRecorded(Some(outcome)) =>
      if StateIn(l, id) == Review then l.(approved := l.approved[id := outcome == ReviewApproved]) else l
    case WorkAccepted =>
      if StateIn(l, id) == Review && ApprovedIn(l, id) then l.(states := l.states[id := Accepted]) else l
    case _ => l
  }

  function Replay(events: seq<Event>): Ledger {
    if events == [] then Ledger(map[], map[])
    else ApplyEvent(Replay(events[..|events| - 1]), events[|events| - 1])
  }

  predicate Considered(g: Graph, e: Event) {
    e.workPackageID in g.definitions || e.workPackageID == ""
  }

  function Keep(g: Graph): Event -> bool {
    (e: Event) => Considered(g, e)
  }

  /** The events that count, in the order they count. */
  function Canonical(g: Graph, events: seq<Event>): seq<Event> {
    Filter(Keep(g), SortBy(Earlier, events))
  }

  function WatermarkInput(g: Graph, events: seq<Event>): string {
    if events == [] then g.revision.dependencySetDigest + [0 as char]
    else
      var e := events[|events| - 1];
      WatermarkInput(g, events[..|events| - 1]) + (e.recordID + [0 as char] + e.recordDigest + [0xff as char])
  }

  /** Reordering the events changes nothing. */
  lemma {:induction false} CanonicalForgetsOrder(g: Graph, a: seq<Event>, b: seq<Event>)
    requires multiset(a) == multiset(b) && RecordsAgree(a)
    ensures Canonical(g, a) == Canonical(g, b)
  {
    EarlierIsStrictWeak();
    EarlierDiscriminates(a);
    SortForgetsOrder(Earlier, a, b);
  }

  /** Events of packages outside the graph change nothing. */
  lemma {:induction false} CanonicalIgnoresForeign(g: Graph, events: seq<Event>)
    requires RecordsAgree(events)
    ensures Canonical(g, events) == Canonical(g, Filter(Keep(g), events))
  {
    EarlierIsStrictWeak();
    EarlierDiscriminates(events);
    var kept := Filter(Keep(g), events);
    SortFilterCommute(Keep(g), Earlier, events);
    SameElements(kept, SortBy(Earlier, kept));
    FilterAll(Keep(g), SortBy(Earlier, kept));
  }

  lemma {:induction false} FilterAll<T(!new)>(keep: T -> bool, s: seq<T>)
    requires forall x | x in s :: keep(x)
    ensures Filter(keep, s) == s
  {
    if s != [] { FilterAll(keep, s[1..]); }
  }

  // ---------------------------------------------------------------- one package's history

  datatype PackageState = PackageState(state: WorkPackageState, approved: bool)

  function StepPackage(p: PackageState, body: EventBody): PackageState {
    match body
    case WorkPackageCreated => if p.state == NotCreated then p.(state := Planned) else p
    case StateChanged(Some((from, to))) =>
      if p.state == from && ValidWorkPackageTransition(from, to)
      then PackageState(to, p.approved && to == Review) else p
    case ReviewRecorded(Some(outcome)) =>
      if p.state == Review then p.(approved := outcome == ReviewApproved) else p
    case WorkAccepted => if p.state == Review && p.approved then p.(state := Accepted) else p
    case _ => p
  }

  function History(bodies: seq<EventBody>): PackageState {
    if bodies == [] then PackageState(NotCreated, false)
    else StepPackage(History(bodies[..|bodies| - 1]), bodies[|bodies| - 1])
  }

  /** The event bodies of package `id`, in order. */
  function BodiesOf(id: string, events: seq<Event>): seq<EventBody> {
    if events == [] then []
    else
      var e := events[|events| - 1];
      BodiesOf(id, events[..|events| - 1]) + (if e.workPackageID == id then [e.body] else [])
  }

  function PackageIn(l: Ledger, id: string): PackageState {
    PackageState(StateIn(l, id), ApprovedIn(l, id))
  }

  /** A recorded state is never the not-created one. */
  predicate NoBlankStates(l: Ledger) {
    forall id | id in l.states :: l.states[id] != NotCreated
  }

  lemma ApplyIsPerPackage(l: Ledger, e: Event, id: string)
    requires NoBlankStates(l)
    ensures NoBlankStates(ApplyEvent(l, e))
    ensures PackageIn(ApplyEvent(l, e), id)
         == if e.workPackageID == id then StepPackage(PackageIn(l, id), e.body) else PackageIn(l, id)
  {
  }

  /** The shared maps keep packages apart: a package's state is that of its own events. */
  lemma {:induction false} ReplayIsPerPackage(events: seq<Event>, id: string)
    ensures PackageIn(Replay(events), id) == History(BodiesOf(id, events)) && NoBlankStates(Replay(events))
  {
    if events != [] {
      var init, e := events[..|events| - 1], events[|events| - 1];
      ReplayIsPerPackage(init, id);
      ApplyIsPerPackage(Replay(init), e, id);
      if e.workPackageID == id {
        assert BodiesOf(id, events)[..|BodiesOf(id, init)|] == BodiesOf(id, init);
      } else {
        assert BodiesOf(id, events) == BodiesOf(id, init);
      }
    }
  }

  /** `r` is an approval, given in Review; the package has stayed in Review since and no
      later readable review precedes position `n`. */
  ghost predicate StandingApproval(bodies: seq<EventBody>, r: nat, n: nat)
    requires n <= |bodies|
  {
    && r < n && bodies[r] == ReviewRecorded(Some(ReviewApproved))
    && (forall k | r <= k <= n :: History(bodies[..k]).state == Review)
    && (forall k | r < k < n :: !(bodies[k].ReviewRecorded? && bodies[k].outcome.Some?))
  }

  lemma {:induction false} ApprovedIsStanding(bodies: seq<EventBody>, n: nat)
    requires n <= |bodies|
    ensures var p := History(bodies[..n]);
            && (p.approved ==> p.state == Review || p.state == Accepted)
            && (p.state == Review && p.approved <==> exists r: nat :: StandingApproval(bodies, r, n))
  {
    if n > 0 {
      ApprovedIsStanding(bodies, n - 1);
      var q, p := History(bodies[..n - 1]), History(bodies[..n]);
      assert bodies[..n][..n - 1] == bodies[..n - 1];
      assert p == StepPackage(q, bodies[n - 1]);
      if p.state == Review && p.approved {
        if q.state == Review && bodies[n - 1] == ReviewRecorded(Some(ReviewApproved)) {
          assert StandingApproval(bodies, n - 1, n);
        } else {
          assert q.state == Review && q.approved;
          var r: nat :| StandingApproval(bodies, r, n - 1);
          assert StandingApproval(bodies, r, n);
        }
      }
      if r: nat :| StandingApproval(bodies, r, n) {
        assert History(bodies[..n - 1]).state == Review;
        if r < n - 1 { assert StandingApproval(bodies, r, n - 1); }
      }
    }
  }

  /** A package becomes Accepted exactly at an acceptance event backed by an approval that
      is the latest review of the current review period. */
  lemma {:induction false} AcceptanceNeedsStandingApproval(bodies: seq<EventBody>, n: nat)
    requires n < |bodies|
    ensures History(bodies[..n]).state != Accepted && History(bodies[..n + 1]).state == Accepted
       <==> bodies[n] == WorkAccepted && exists r: nat :: StandingApproval(bodies, r, n)
  {
    ApprovedIsStanding(bodies, n);
    assert bodies[..n + 1][..n] == bodies[..n];
    if r: nat :| StandingApproval(bodies, r, n) { assert History(bodies[..n]).state == Review; }
  }

  /** Accepted is final. */
  lemma {:induction false} AcceptedIsFinal(bodies: seq<EventBody>, n: nat)
    requires n <= |bodies| && History(bodies[..n]).state == Accepted
    ensures History(bodies).state == Accepted
    decreases |bodies|
  {
    if n == |bodies| {
      assert bodies[..n] == bodies;
    } else {
      assert bodies[..|bodies| - 1][..n] == bodies[..n];
      AcceptedIsFinal(bodies[..|bodies| - 1], n);
    }
  }

  // ---------------------------------------------------------------- the readiness equation

  datatype ReadinessState =
    | ReadinessPlanned | ReadinessWaiting | ReadinessReady | ReadinessBlocked
    | ReadinessReview | ReadinessAccepted | ReadinessFailed | ReadinessCanceled

  datatype Reason =
    | WorkPackageNotCreated | DependencyWaiting | DependencyFailed | DependenciesSatisfied
    | ExecutionInProgress | CanonicalBlocked | ReviewRequired | WorkIsAccepted | WorkFailed | WorkCanceled

  datatype Node = Node(
    workPackageID: string, canonical: WorkPackageState, state: ReadinessState, reason: Reason,
    dependencies: seq<string>, barrier: bool)

  function NodeState(nodes: map<string, Node>, id: string): Option<ReadinessState> {
    if id in nodes then Some(nodes[id].state) else None
  }

  /** The first dependency that is not accepted decides. */
  function DependencyVerdict(deps: seq<string>, nodes: map<string, Node>): (ReadinessState, Reason) {
    if deps == [] then (ReadinessReady, DependenciesSatisfied)
    else
      var s := NodeState(nodes, deps[0]);
      if s == Some(ReadinessFailed) || s == Some(ReadinessCanceled) || s == Some(ReadinessBlocked)
      then (ReadinessBlocked, DependencyFailed)
      else if s != Some(ReadinessAccepted) then (ReadinessWaiting, DependencyWaiting)
      else DependencyVerdict(deps[1..], nodes)
  }

  function Verdict(state: WorkPackageState, deps: seq<string>, nodes: map<string, Node>): (ReadinessState, Reason) {
    match state
    case NotCreated => (ReadinessPlanned, WorkPackageNotCreated)
    case InProgress => (ReadinessWaiting, ExecutionInProgress)
    case Blocked => (ReadinessBlocked, CanonicalBlocked)
    case Review => (ReadinessReview, ReviewRequired)
    case Accepted => (ReadinessAccepted, WorkIsAccepted)
    case Failed => (ReadinessFailed, WorkFailed)
    case Canceled => (ReadinessCanceled, WorkCanceled)
    case _ => DependencyVerdict(deps, nodes)
  }

  function ReduceNode(g: Graph, l: Ledger, id: string, nodes: map<string, Node>): Node {
    var v := Verdict(StateIn(l, id), Deps(g, id), nodes);
    Node(id, StateIn(l, id), v.0, v.1, Deps(g, id), id in g.revision.barriers)
  }

  /** `nodes` assigns every member the readiness its dependencies' readiness dictates. */
  ghost predicate Solves(g: Graph, l: Ledger, nodes: map<string, Node>) {
    nodes.Keys == MemberIDs(g)
    && forall id {:trigger ReduceNode(g, l, id, nodes)} | id in nodes :: nodes[id] == ReduceNode(g, l, id, nodes)
  }

  lemma {:induction false} VerdictDependsOnDeps(deps: seq<string>, m1: map<string, Node>, m2: map<string, Node>)
    requires forall d | d in deps :: NodeState(m1, d) == NodeState(m2, d)
    ensures DependencyVerdict(deps, m1) == DependencyVerdict(deps, m2)
  {
    if deps != [] { VerdictDependsOnDeps(deps[1..], m1, m2); }
  }

  lemma {:induction false} SolutionsAgree(g: Graph, l: Ledger, order: seq<string>, n: nat,
                                          m1: map<string, Node>, m2: map<string, Node>)
    requires IsTopologicalOrder(g, order) && n <= |order| && Solves(g, l, m1) && Solves(g, l, m2)
    ensures forall x | x in order[..n] :: x in m1 && x in m2 && m1[x] == m2[x]
  {
    if n > 0 {
      SolutionsAgree(g, l, order, n - 1, m1, m2);
      var x := order[n - 1];
      assert m1[x] == ReduceNode(g, l, x, m1) && m2[x] == ReduceNode(g, l, x, m2);
      assert forall d | d in Deps(g, x) :: d in order[..n - 1];
      VerdictDependsOnDeps(Deps(g, x), m1, m2);
      assert order[..n] == order[..n - 1] + [x];
    }
  }

  /** An acyclic graph has at most one readiness assignment. */
  lemma {:induction false} SolutionUnique(g: Graph, l: Ledger, m1: map<string, Node>, m2: map<string, Node>)
    requires HasTopologicalOrder(g) && Solves(g, l, m1) && Solves(g, l, m2)
    ensures m1 == m2
  {
    var order: seq<string> :| IsTopologicalOrder(g, order);
    SolutionsAgree(g, l, order, |order|, m1, m2);
    assert order[..|order|] == order;
  }

  lemma {:induction false} VerdictReady(deps: seq<string>, nodes: map<string, Node>)
    ensures DependencyVerdict(deps, nodes).0 == ReadinessReady
       <==> forall d | d in deps :: NodeState(nodes, d) == Some(ReadinessAccepted)
    ensures DependencyVerdict(deps, nodes).0 !in {ReadinessAccepted, ReadinessFailed, ReadinessCanceled}
  {
    if deps != [] {
      VerdictReady(deps[1..], nodes);
      assert deps == [deps[0]] + deps[1..];
    }
  }

  /** Ready means: created, neither active nor finished, and every direct dependency
      canonically accepted. */
  lemma {:induction false} ReadyMeans(g: Graph, l: Ledger, nodes: map<string, Node>, id: string)
    requires CleanEdges(g) && Solves(g, l, nodes) && id in MemberIDs(g)
    ensures nodes[id].state == ReadinessReady <==>
      && (StateIn(l, id) == Planned || StateIn(l, id) == Ready)
      && forall d | d in Deps(g, id) :: StateIn(l, d) == Accepted
    ensures nodes[id].state == ReadinessAccepted <==> StateIn(l, id) == Accepted
  {
    VerdictReady(Deps(g, id), nodes);
    assert CleanNode(g, id);
    assert nodes[id] == ReduceNode(g, l, id, nodes);
    forall d | d in Deps(g, id)
      ensures NodeState(nodes, d) == Some(ReadinessAccepted) <==> StateIn(l, d) == Accepted
    {
      assert nodes[d] == ReduceNode(g, l, d, nodes);
      VerdictReady(Deps(g, d), nodes);
    }
  }

  // ---------------------------------------------------------------- the sweep

  /** What the sweep keeps: resolved nodes satisfy the equation among themselves. */
  ghost predicate Swept(g: Graph, l: Ledger, nodes: map<string, Node>, remaining: set<string>) {
    && nodes.Keys !! remaining && nodes.Keys + remaining == MemberIDs(g)
    && (forall id {:trigger ReduceNode(g, l, id, nodes)} | id in nodes :: nodes[id] == ReduceNode(g, l, id, nodes))
    && (forall id {:trigger Resolved(Deps(g, id), nodes)} | id in nodes :: Resolved(Deps(g, id), nodes))
  }

  lemma ResolveOne(g: Graph, l: Ledger, nodes: map<string, Node>, remaining: set<string>, id: string)
    requires Swept(g, l, nodes, remaining) && id in remaining
    requires Resolved(Deps(g, id), nodes)
    ensures Swept(g, l, nodes[id := ReduceNode(g, l, id, nodes)], remaining - {id})
  {
    var nodes' := nodes[id := ReduceNode(g, l, id, nodes)];
    assert nodes'.Keys == nodes.Keys + {id};
    forall x | x in nodes' ensures nodes'[x] == ReduceNode(g, l, x, nodes') && Resolved(Deps(g, x), nodes') {
      assert Resolved(Deps(g, x), nodes);
      assert nodes'[x] == ReduceNode(g, l, x, nodes);
      VerdictDependsOnDeps(Deps(g, x), nodes, nodes');
    }
  }

  predicate Resolved(deps: seq<string>, nodes: map<string, Node>) {
    forall d | d in deps :: d in nodes
  }

  method DependenciesReady(deps: seq<string>, nodes: map<string, Node>) returns (ready: bool)
    ensures ready == Resolved(deps, nodes)
  {
    for k := 0 to |deps|
      invariant forall j | 0 <= j < k :: deps[j] in nodes
    {
      if deps[k] !in nodes { return false; }
    }
    ready := true;
  }

  ghost predicate Stuck(g: Graph, nodes: map<string, Node>, remaining: set<string>) {
    forall id {:trigger Deps(g, id)} | id in remaining :: !Resolved(Deps(g, id), nodes)
  }

  lemma VisitedStep(ids: seq<string>, k: nat)
    requires k < |ids| && Distinct(ids)
    ensures ids[k] in ids && ids[k] !in Visited(ids[..k]) && Visited(ids[..k + 1]) == Visited(ids[..k]) + {ids[k]}
  {
    assert ids[..k + 1] == ids[..k] + [ids[k]];
  }

  method TryResolve(g: Graph, l: Ledger, nodes0: map<string, Node>, remaining0: set<string>, id: string)
    returns (nodes: map<string, Node>, remaining: set<string>, resolved: bool)
    requires Swept(g, l, nodes0, remaining0) && id in remaining0
    ensures Swept(g, l, nodes, remaining)
    ensures resolved == Resolved(Deps(g, id), nodes0)
    ensures remaining == if resolved then remaining0 - {id} else remaining0
    ensures !resolved ==> nodes == nodes0
  {
    nodes, remaining := nodes0, remaining0;
    resolved := DependenciesReady(Deps(g, id), nodes);
    if resolved {
      ResolveOne(g, l, nodes, remaining, id);
      nodes := nodes[id := ReduceNode(g, l, id, nodes)];
      remaining := remaining - {id};
    }
  }

  /** One pass over the unresolved members. */
  method SweepOnce(g: Graph, l: Ledger, nodes0: map<string, Node>, remaining0: set<string>)
    returns (nodes: map<string, Node>, remaining: set<string>, progress: bool)
    requires Swept(g, l, nodes0, remaining0)
    ensures Swept(g, l, nodes, remaining)
    ensures progress ==> remaining < remaining0
    ensures !progress ==> Stuck(g, nodes0, remaining0)
  {
    nodes, remaining, progress := nodes0, remaining0, false;
    var listed := ListSet(remaining0);
    var ids := SortStrings(listed);
    SameElements(listed, ids);
    DistinctPermutes(listed, ids);
    ghost var tried: set<string> := {};
    for k := 0 to |ids|
      invariant Swept(g, l, nodes, remaining) && remaining0 - tried <= remaining <= remaining0
      invariant tried == Visited(ids[..k])
      invariant if progress then remaining < remaining0
                else nodes == nodes0 && remaining == remaining0 && Stuck(g, nodes0, tried)
    {
      var id := ids[k];
      VisitedStep(ids, k);
      var resolved;
      nodes, remaining, resolved := TryResolve(g, l, nodes, remaining, id);
      progress := progress || resolved;
      tried := tried + {id};
    }
    assert ids[..|ids|] == ids;
    assert tried == remaining0;
  }

  method ListSet(s: set<string>) returns (ids: seq<string>)
    ensures Distinct(ids) && forall id :: id in ids <==> id in s
  {
    ids := ListKeys(map id | id in s :: true);
  }

  /** The sweep solves the equation, and gives up only on a graph with no order. */
  method Sweep(g: Graph, l: Ledger) returns (solved: bool, nodes: map<string, Node>)
    requires CleanEdges(g)
    ensures solved ==> Solves(g, l, nodes)
    ensures HasTopologicalOrder(g) ==> solved
  {
    nodes := map[];
    var remaining := MemberIDs(g);
    while remaining != {}
      invariant Swept(g, l, nodes, remaining)
      decreases remaining
    {
      var progress;
      ghost var before := nodes;
      nodes, remaining, progress := SweepOnce(g, l, nodes, remaining);
      if !progress {
        StuckHasNoOrder(g, l, before, MemberIDs(g) - before.Keys);
        return false, nodes;
      }
    }
    solved := true;
  }

  lemma StuckHasNoOrder(g: Graph, l: Ledger, nodes: map<string, Node>, remaining: set<string>)
    requires CleanEdges(g) && Swept(g, l, nodes, remaining) && remaining != {}
    requires Stuck(g, nodes, remaining)
    ensures !HasTopologicalOrder(g)
  {
    forall x | x in remaining ensures DependsInto(g, x, remaining) {
      assert CleanNode(g, x) && !Resolved(Deps(g, x), nodes);
      var d :| d in Deps(g, x) && d !in nodes;
      assert d in remaining;
    }
    var c := NoEscapeHasCycle(g, remaining);
    forall order: seq<string> ensures !IsTopologicalOrder(g, order) {
      if IsTopologicalOrder(g, order) { CycleRefutesOrder(g, c, order, 0); }
    }
  }

  // ---------------------------------------------------------------- the snapshot

  datatype TaskReason =
    | TaskAccepted | TaskCanceled | TaskFailed | TaskBlocked | TaskInReview | TaskHasReadyWork
    | TaskWaiting | TaskPlanned

  ghost predicate AnyIn(nodes: seq<Node>, state: ReadinessState) {
    exists i | 0 <= i < |nodes| :: nodes[i].state == state
  }

  ghost predicate AllIn(nodes: seq<Node>, state: ReadinessState) {
    forall i | 0 <= i < |nodes| :: nodes[i].state == state
  }

  /** A whole task: finished when every package is, else its most urgent state. */
  ghost function TaskSummary(nodes: seq<Node>): (ReadinessState, TaskReason) {
    if AllIn(nodes, ReadinessAccepted) then (ReadinessAccepted, TaskAccepted)
    else if AllIn(nodes, ReadinessCanceled) then (ReadinessCanceled, TaskCanceled)
    else if AnyIn(nodes, ReadinessFailed) then (ReadinessFailed, TaskFailed)
    else if AnyIn(nodes, ReadinessBlocked) then (ReadinessBlocked, TaskBlocked)
    else if AnyIn(nodes, ReadinessReview) then (ReadinessReview, TaskInReview)
    else if AnyIn(nodes, ReadinessReady) then (ReadinessReady, TaskHasReadyWork)
    else if AnyIn(nodes, ReadinessWaiting) then (ReadinessWaiting, TaskWaiting)
    else (ReadinessPlanned, TaskPlanned)
  }

  function Tally(counts: map<ReadinessState, nat>, s: ReadinessState): nat {
    if s in counts then counts[s] else 0
  }

  method CountStates(nodes: seq<Node>) returns (counts: map<ReadinessState, nat>)
    ensures forall s :: Tally(counts, s) <= |nodes|
    ensures forall s :: Tally(counts, s) > 0 <==> AnyIn(nodes, s)
    ensures forall s :: Tally(counts, s) == |nodes| <==> AllIn(nodes, s)
  {
    counts := map[];
    for k := 0 to |nodes|
      invariant forall s :: Tally(counts, s) <= k
      invariant forall s :: Tally(counts, s) > 0 <==> AnyIn(nodes[..k], s)
      invariant forall s :: Tally(counts, s) == k <==> AllIn(nodes[..k], s)
    {
      var node := nodes[k];
      forall s
        ensures AnyIn(nodes[..k + 1], s) <==> AnyIn(nodes[..k], s) || node.state == s
        ensures AllIn(nodes[..k + 1], s) <==> AllIn(nodes[..k], s) && node.state == s
      {
        assert nodes[..k + 1] == nodes[..k] + [node];
        assert nodes[..k + 1][k] == node;
        if i :| 0 <= i < k && nodes[..k][i].state == s { assert nodes[..k + 1][i].state == s; }
      }
      ghost var before := counts;
      counts := counts[node.state := Tally(counts, node.state) + 1];
      assert forall s :: Tally(counts, s) == Tally(before, s) + if s == node.state then 1 else 0;
    }
    assert nodes[..|nodes|] == nodes;
  }

  method SummarizeTask(nodes: seq<Node>) returns (state: ReadinessState, reason: TaskReason)
    ensures (state, reason) == TaskSummary(nodes)
  {
    var counts := CountStates(nodes);
    if Tally(counts, ReadinessAccepted) == |nodes| { return ReadinessAccepted, TaskAccepted; }
    if Tally(counts, ReadinessCanceled) == |nodes| { return ReadinessCanceled, TaskCanceled; }
    if Tally(counts, ReadinessFailed) > 0 { return ReadinessFailed, TaskFailed; }
    if Tally(counts, ReadinessBlocked) > 0 { return ReadinessBlocked, TaskBlocked; }
    if Tally(counts, ReadinessReview) > 0 { return ReadinessReview, TaskInReview; }
    if Tally(counts, ReadinessReady) > 0 { return ReadinessReady, TaskHasReadyWork; }
    if Tally(counts, ReadinessWaiting) > 0 { return ReadinessWaiting, TaskWaiting; }
    return ReadinessPlanned, TaskPlanned;
  }

  datatype Snapshot = Snapshot(
    projectID: string, taskID: string, taskRevision: int, graphRevision: int,
    state: ReadinessState, reason: TaskReason,
    nodes: seq<Node>, parallelReady: seq<string>, eventWatermark: string)

  datatype Outcome = Refused(error: GraphError) | Unresolved | Reduced(snapshot: Snapshot)

  function MemberNodes(g: Graph, nodes: map<string, Node>): seq<Node>
    requires nodes.Keys == MemberIDs(g)
  {
    seq(|g.revision.members|, i requires 0 <= i < |g.revision.members| => nodes[MemberID(g, i)])
  }

  function ReadyIDs(nodes: seq<Node>): seq<string> {
    if nodes == [] then []
    else
      var last := nodes[|nodes| - 1];
      ReadyIDs(nodes[..|nodes| - 1]) + (if last.state == ReadinessReady then [last.workPackageID] else [])
  }

  ghost function SnapshotFrom(sha: string -> string, g: Graph, canonical: seq<Event>,
                              nodes: map<string, Node>): Snapshot
    requires nodes.Keys == MemberIDs(g)
  {
    var list := MemberNodes(g, nodes);
    var summary := TaskSummary(list);
    Snapshot(g.task.projectID, g.task.taskID, g.task.revision, g.revision.revision, summary.0, summary.1,
             list, SortStrings(ReadyIDs(list)), sha(WatermarkInput(g, canonical)))
  }

  /** `snap` is what the graph and events mean. */
  ghost predicate IsSnapshot(sha: string -> string, g: Graph, events: seq<Event>, snap: Snapshot) {
    var canonical := Canonical(g, events);
    exists nodes :: Solves(g, Replay(canonical), nodes) && snap == SnapshotFrom(sha, g, canonical, nodes)
  }

  method ReplayEvents(g: Graph, events: seq<Event>) returns (ledger: Ledger, written: string)
    ensures ledger == Replay(Canonical(g, events))
    ensures written == WatermarkInput(g, Canonical(g, events))
  {
    var sorted := SortBy(Earlier, events);
    ledger, written := Ledger(map[], map[]), g.revision.dependencySetDigest + [0 as char];
    for i := 0 to |sorted|
      invariant ledger == Replay(Filter(Keep(g), sorted[..i]))
      invariant written == WatermarkInput(g, Filter(Keep(g), sorted[..i]))
    {
      var e := sorted[i];
      KeepStep(g, sorted, i);
      if Considered(g, e) {
        AppendEvent(g, Filter(Keep(g), sorted[..i]), e);
        written := written + (e.recordID + [0 as char] + e.recordDigest + [0xff as char]);
        ledger := ApplyEvent(ledger, e);
      }
    }
    assert sorted[..|sorted|] == sorted;
  }

  lemma KeepStep(g: Graph, events: seq<Event>, i: nat)
    requires i < |events|
    ensures Filter(Keep(g), events[..i + 1])
         == if Considered(g, events[i]) then Filter(Keep(g), events[..i]) + [events[i]]
            else Filter(Keep(g), events[..i])
  {
    assert events[..i + 1] == events[..i] + [events[i]];
    FilterSnoc(Keep(g), events[..i], events[i]);
  }

  lemma AppendEvent(g: Graph, events: seq<Event>, e: Event)
    ensures Replay(events + [e]) == ApplyEvent(Replay(events), e)
    ensures WatermarkInput(g, events + [e])
        == WatermarkInput(g, events) + (e.recordID + [0 as char] + e.recordDigest + [0xff as char])
  {
    assert (events + [e])[..|events|] == events;
  }

  lemma ReadyIDsAppend(nodes: seq<Node>, node: Node)
    ensures ReadyIDs(nodes + [node])
        == ReadyIDs(nodes) + (if node.state == ReadinessReady then [node.workPackageID] else [])
  {
    assert (nodes + [node])[..|nodes|] == nodes;
  }

  method Assemble(g: Graph, nodes: map<string, Node>) returns (list: seq<Node>, ready: seq<string>)
    requires nodes.Keys == MemberIDs(g)
    ensures list == MemberNodes(g, nodes) && ready == SortStrings(ReadyIDs(list))
  {
    list, ready := [], [];
    for i := 0 to |g.revision.members|
      invariant list == MemberNodes(g, nodes)[..i] && ready == ReadyIDs(list)
    {
      var node := nodes[MemberID(g, i)];
      ReadyIDsAppend(list, node);
      list := list + [node];
      if node.state == ReadinessReady { ready := ready + [node.workPackageID]; }
    }
    ready := SortStrings(ready);
  }

  /** Either the graph is refused for a reason `ValidateGraph` gives, or the snapshot is
      returned: the traversal never fails to resolve a graph that was accepted. */
  method ReduceReadiness(sha: string -> string, g: Graph, events: seq<Event>) returns (r: Outcome)
    ensures r.Refused? <==> !AcceptedGraph(sha, g)
    ensures !r.Unresolved?
    ensures r.Reduced? ==> IsSnapshot(sha, g, events, r.snapshot)
  {
    var err := ValidateGraph(sha, g);
    if err.Some? { return Refused(err.value); }
    var ledger, written := ReplayEvents(g, events);
    EdgesOkAreClean(g);
    var solved, nodes := Sweep(g, ledger);
    if !solved { return Unresolved; }
    var list, ready := Assemble(g, nodes);
    var state, reason := SummarizeTask(list);
    r := Reduced(Snapshot(g.task.projectID, g.task.taskID, g.task.revision, g.revision.revision,
                          state, reason, list, ready, sha(written)));
    assert r.snapshot == SnapshotFrom(sha, g, Canonical(g, events), nodes);
  }

  /** The snapshot and its watermark do not depend on the order events are supplied in,
      nor on events about packages outside the graph. */
  lemma {:induction false} SnapshotDeterminate(sha: string -> string, g: Graph, a: seq<Event>, b: seq<Event>,
                                               s: Snapshot, t: Snapshot)
    requires AcceptedGraph(sha, g) && RecordsAgree(a) && RecordsAgree(b)
    requires multiset(Filter(Keep(g), a)) == multiset(Filter(Keep(g), b))
    requires IsSnapshot(sha, g, a, s) && IsSnapshot(sha, g, b, t)
    ensures s == t
  {
    CanonicalIgnoresForeign(g, a);
    CanonicalIgnoresForeign(g, b);
    CanonicalForgetsOrder(g, Filter(Keep(g), a), Filter(Keep(g), b));
    var c := Canonical(g, a);
    var m :| Solves(g, Replay(c), m) && s == SnapshotFrom(sha, g, c, m);
    var n :| Solves(g, Replay(c), n) && t == SnapshotFrom(sha, g, c, n);
    SolutionUnique(g, Replay(c), m, n);
  }

  lemma {:induction false} ReadyIDsAre(nodes: seq<Node>, id: string)
    ensures id in ReadyIDs(nodes) <==>
      exists i | 0 <= i < |nodes| :: nodes[i].workPackageID == id && nodes[i].state == ReadinessReady
  {
    if nodes != [] {
      var init := nodes[..|nodes| - 1];
      ReadyIDsAre(init, id);
      if i :| 0 <= i < |init| && init[i].workPackageID == id && init[i].state == ReadinessReady {
        assert nodes[i] == init[i];
      }
      if i :| 0 <= i < |nodes| && nodes[i].workPackageID == id && nodes[i].state == ReadinessReady {
        if i < |init| { assert init[i] == nodes[i]; }
      }
    }
  }

  /** `ParallelReady` is exactly the packages that may start: created and idle by their own
      events, with every direct dependency accepted by its own events. */
  lemma {:induction false} ParallelReadyMeans(sha: string -> string, g: Graph, events: seq<Event>, snap: Snapshot,
                                              id: string)
    requires AcceptedGraph(sha, g) && IsSnapshot(sha, g, events, snap)
    ensures id in snap.parallelReady <==>
      && id in MemberIDs(g)
      && History(BodiesOf(id, Canonical(g, events))).state in {Planned, Ready}
      && forall d | d in Deps(g, id) :: History(BodiesOf(d, Canonical(g, events))).state == Accepted
  {
    var c := Canonical(g, events);
    var nodes :| Solves(g, Replay(c), nodes) && snap == SnapshotFrom(sha, g, c, nodes);
    var list := MemberNodes(g, nodes);
    EdgesOkAreClean(g);
    SameElements(ReadyIDs(list), SortStrings(ReadyIDs(list)));
    ReadyIDsAre(list, id);
    ListHolds(g, Replay(c), nodes, id);
    if id in MemberIDs(g) {
      ReadyMeans(g, Replay(c), nodes, id);
      ReplayIsPerPackage(c, id);
      forall d | d in Deps(g, id) ensures StateIn(Replay(c), d) == History(BodiesOf(d, c)).state {
        ReplayIsPerPackage(c, d);
      }
    }
  }

  lemma ListHolds(g: Graph, l: Ledger, nodes: map<string, Node>, id: string)
    requires Solves(g, l, nodes)
    ensures (exists i | 0 <= i < |MemberNodes(g, nodes)| ::
               MemberNodes(g, nodes)[i].workPackageID == id && MemberNodes(g, nodes)[i].state == ReadinessReady)
       <==> id in MemberIDs(g) && nodes[id].state == ReadinessReady
  {
    var list := MemberNodes(g, nodes);
    forall i | 0 <= i < |list| ensures list[i] == nodes[MemberID(g, i)] && list[i].workPackageID == MemberID(g, i) {
      assert nodes[MemberID(g, i)] == ReduceNode(g, l, MemberID(g, i), nodes);
    }
    if id in MemberIDs(g) && nodes[id].state == ReadinessReady {
      var i :| 0 <= i < |g.revision.members| && MemberID(g, i) == id;
      assert list[i].workPackageID == id;
    }
  }

  /** No package in `ParallelReady` depends directly on another one there. */
  lemma {:induction false} ParallelReadyIndependent(sha: string -> string, g: Graph, events: seq<Event>, snap: Snapshot,
                                                    a: string, b: string)
    requires AcceptedGraph(sha, g) && IsSnapshot(sha, g, events, snap)
    requires a in snap.parallelReady && b in snap.parallelReady
    ensures a !in Deps(g, b)
  {
    ParallelReadyMeans(sha, g, events, snap, a);
    ParallelReadyMeans(sha, g, events, snap, b);
  }
}

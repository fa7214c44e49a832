/** What a readiness snapshot says, in terms of each package's own history: every state and
    reason, and the state of the task. */
module ReadinessMeaning {
  import opened Sorting
  import opened Options
  import opened Project
  import opened TaskGraph
  import opened Readiness

  // ---------------------------------------------------------------- blocking

  predicate Idle(s: WorkPackageState) { s == Planned || s == Ready }
  predicate Stopped(s: WorkPackageState) { s == Failed || s == Canceled || s == Blocked }

  /** `d` is the first direct dependency of `id` that is not accepted. */
  ghost predicate FirstPending(g: Graph, l: Ledger, id: string, d: string) {
    exists k | 0 <= k < |Deps(g, id)| ::
      && Deps(g, id)[k] == d && StateIn(l, d) != Accepted
      && forall j | 0 <= j < k :: StateIn(l, Deps(g, id)[j]) == Accepted
  }

  /** A chain of idle packages, each waiting first for the next, that ends at a package which
      has failed, was canceled or is blocked. */
  ghost predicate Stalled(g: Graph, l: Ledger, chain: seq<string>)
    decreases |chain|
  {
    && |chain| >= 2 && Idle(StateIn(l, chain[0])) && FirstPending(g, l, chain[0], chain[1])
    && (if |chain| == 2 then Stopped(StateIn(l, chain[1])) else Stalled(g, l, chain[1..]))
  }

  ghost predicate StalledFrom(g: Graph, l: Ledger, id: string) {
    exists chain :: Stalled(g, l, chain) && chain[0] == id
  }

  ghost predicate AllAccepted(g: Graph, l: Ledger, id: string) {
    forall d | d in Deps(g, id) :: StateIn(l, d) == Accepted
  }

  lemma {:induction false} VerdictAt(deps: seq<string>, nodes: map<string, Node>, k: nat)
    requires k < |deps| && NodeState(nodes, deps[k]) != Some(ReadinessAccepted)
    requires forall j | 0 <= j < k :: NodeState(nodes, deps[j]) == Some(ReadinessAccepted)
    ensures DependencyVerdict(deps, nodes)
         == if NodeState(nodes, deps[k]) in {Some(ReadinessFailed), Some(ReadinessCanceled), Some(ReadinessBlocked)}
            then (ReadinessBlocked, DependencyFailed) else (ReadinessWaiting, DependencyWaiting)
  {
    if k > 0 { VerdictAt(deps[1..], nodes, k - 1); }
  }

  lemma {:induction false} VerdictSatisfied(deps: seq<string>, nodes: map<string, Node>)
    requires forall j | 0 <= j < |deps| :: NodeState(nodes, deps[j]) == Some(ReadinessAccepted)
    ensures DependencyVerdict(deps, nodes) == (ReadinessReady, DependenciesSatisfied)
  {
    if deps != [] { VerdictSatisfied(deps[1..], nodes); }
  }

  /** Of the dependencies that are not accepted there is a first. */
  lemma {:induction false} PendingExists(g: Graph, l: Ledger, id: string, n: nat)
    requires n <= |Deps(g, id)|
    ensures (exists d :: FirstPending(g, l, id, d)) || forall j | 0 <= j < n :: StateIn(l, Deps(g, id)[j]) == Accepted
  {
    if n > 0 {
      PendingExists(g, l, id, n - 1);
      if !(exists d :: FirstPending(g, l, id, d)) && StateIn(l, Deps(g, id)[n - 1]) != Accepted {
        assert FirstPending(g, l, id, Deps(g, id)[n - 1]);
      }
    }
  }

  /** An idle package reads its readiness off its first pending dependency. */
  lemma {:induction false} IdleReads(g: Graph, l: Ledger, nodes: map<string, Node>, id: string, d: string)
    requires CleanEdges(g) && Solves(g, l, nodes) && id in nodes && Idle(StateIn(l, id)) && FirstPending(g, l, id, d)
    ensures d in nodes
    ensures (nodes[id].state, nodes[id].reason)
         == if nodes[d].state in {ReadinessFailed, ReadinessCanceled, ReadinessBlocked}
            then (ReadinessBlocked, DependencyFailed) else (ReadinessWaiting, DependencyWaiting)
  {
    var deps := Deps(g, id);
    var k :| 0 <= k < |deps| && deps[k] == d && StateIn(l, d) != Accepted
             && forall j | 0 <= j < k :: StateIn(l, deps[j]) == Accepted;
    assert CleanNode(g, id);
    assert nodes[id] == ReduceNode(g, l, id, nodes);
    forall j | 0 <= j <= k
      ensures deps[j] in nodes && (nodes[deps[j]].state == ReadinessAccepted <==> StateIn(l, deps[j]) == Accepted)
    {
      assert deps[j] in deps;
      ReadyMeans(g, l, nodes, deps[j]);
    }
    VerdictAt(deps, nodes, k);
  }

  lemma {:induction false} IdleReady(g: Graph, l: Ledger, nodes: map<string, Node>, id: string)
    requires CleanEdges(g) && Solves(g, l, nodes) && id in nodes && Idle(StateIn(l, id)) && AllAccepted(g, l, id)
    ensures (nodes[id].state, nodes[id].reason) == (ReadinessReady, DependenciesSatisfied)
  {
    var deps := Deps(g, id);
    assert CleanNode(g, id);
    assert nodes[id] == ReduceNode(g, l, id, nodes);
    forall j | 0 <= j < |deps| ensures NodeState(nodes, deps[j]) == Some(ReadinessAccepted) {
      assert deps[j] in deps;
      ReadyMeans(g, l, nodes, deps[j]);
    }
    VerdictSatisfied(deps, nodes);
  }

  /** What a package that is not idle is reported as. */
  function OwnVerdict(s: WorkPackageState): Option<(ReadinessState, Reason)> {
    match s
    case NotCreated => Some((ReadinessPlanned, WorkPackageNotCreated))
    case Planned => None
    case Ready => None
    case InProgress => Some((ReadinessWaiting, ExecutionInProgress))
    case Blocked => Some((ReadinessBlocked, CanonicalBlocked))
    case Review => Some((ReadinessReview, ReviewRequired))
    case Accepted => Some((ReadinessAccepted, WorkIsAccepted))
    case Failed => Some((ReadinessFailed, WorkFailed))
    case Canceled => Some((ReadinessCanceled, WorkCanceled))
  }

  lemma {:induction false} OwnReads(g: Graph, l: Ledger, nodes: map<string, Node>, id: string)
    requires Solves(g, l, nodes) && id in nodes && !Idle(StateIn(l, id))
    ensures Some((nodes[id].state, nodes[id].reason)) == OwnVerdict(StateIn(l, id))
  {
    assert nodes[id] == ReduceNode(g, l, id, nodes);
  }

  lemma {:induction false} StalledIsBlocked(g: Graph, l: Ledger, nodes: map<string, Node>, chain: seq<string>)
    requires CleanEdges(g) && Solves(g, l, nodes) && Stalled(g, l, chain) && chain[0] in nodes
    ensures (nodes[chain[0]].state, nodes[chain[0]].reason) == (ReadinessBlocked, DependencyFailed)
    decreases |chain|
  {
    IdleReads(g, l, nodes, chain[0], chain[1]);
    if |chain| == 2 {
      OwnReads(g, l, nodes, chain[1]);
    } else {
      StalledIsBlocked(g, l, nodes, chain[1..]);
    }
  }

  lemma {:induction false} BlockedIsStalled(g: Graph, l: Ledger, nodes: map<string, Node>, order: seq<string>, i: nat)
    requires CleanEdges(g) && Solves(g, l, nodes) && IsTopologicalOrder(g, order) && i < |order|
    requires order[i] in nodes && Idle(StateIn(l, order[i])) && nodes[order[i]].state == ReadinessBlocked
    ensures StalledFrom(g, l, order[i])
    decreases i
  {
    var id := order[i];
    PendingExists(g, l, id, |Deps(g, id)|);
    if AllAccepted(g, l, id) { IdleReady(g, l, nodes, id); }
    var d :| FirstPending(g, l, id, d);
    IdleReads(g, l, nodes, id, d);
    var k :| 0 <= k < |Deps(g, id)| && Deps(g, id)[k] == d;
    assert d in Deps(g, id) && d in order[..i];
    if Idle(StateIn(l, d)) {
      var j :| 0 <= j < i && order[..i][j] == d;
      assert order[j] == d;
      IdleIsNeither(g, l, nodes, d);
      BlockedIsStalled(g, l, nodes, order, j);
      var rest :| Stalled(g, l, rest) && rest[0] == d;
      assert ([id] + rest)[1..] == rest;
      assert Stalled(g, l, [id] + rest);
    } else {
      OwnReads(g, l, nodes, d);
      assert Stalled(g, l, [id, d]);
    }
  }

  lemma IdleIsNeither(g: Graph, l: Ledger, nodes: map<string, Node>, id: string)
    requires Solves(g, l, nodes) && id in nodes && Idle(StateIn(l, id))
    ensures nodes[id].state != ReadinessFailed && nodes[id].state != ReadinessCanceled
  {
    assert nodes[id] == ReduceNode(g, l, id, nodes);
    VerdictReady(Deps(g, id), nodes);
  }

  // ---------------------------------------------------------------- every state and reason

  /** State and reason of a member, from the histories alone. */
  ghost function Meaning(g: Graph, l: Ledger, id: string): (ReadinessState, Reason) {
    if OwnVerdict(StateIn(l, id)).Some? then OwnVerdict(StateIn(l, id)).value
    else if AllAccepted(g, l, id) then (ReadinessReady, DependenciesSatisfied)
    else if StalledFrom(g, l, id) then (ReadinessBlocked, DependencyFailed)
    else (ReadinessWaiting, DependencyWaiting)
  }

  /** The solution of the node equation is what the histories say, chain by chain. */
  lemma {:induction false} NodeMeans(g: Graph, l: Ledger, nodes: map<string, Node>, id: string)
    requires CleanEdges(g) && HasTopologicalOrder(g) && Solves(g, l, nodes) && id in MemberIDs(g)
    ensures (nodes[id].state, nodes[id].reason) == Meaning(g, l, id)
    ensures nodes[id].workPackageID == id && nodes[id].canonical == StateIn(l, id)
    ensures nodes[id].dependencies == Deps(g, id) && (nodes[id].barrier <==> id in g.revision.barriers)
  {
    assert nodes[id] == ReduceNode(g, l, id, nodes);
    if !Idle(StateIn(l, id)) {
      OwnReads(g, l, nodes, id);
    } else if AllAccepted(g, l, id) {
      IdleReady(g, l, nodes, id);
    } else {
      WaitsOrStalls(g, l, nodes, id);
    }
  }

  lemma WaitsOrStalls(g: Graph, l: Ledger, nodes: map<string, Node>, id: string)
    requires CleanEdges(g) && HasTopologicalOrder(g) && Solves(g, l, nodes) && id in MemberIDs(g)
    requires Idle(StateIn(l, id)) && !AllAccepted(g, l, id)
    ensures (nodes[id].state, nodes[id].reason)
         == if StalledFrom(g, l, id) then (ReadinessBlocked, DependencyFailed)
            else (ReadinessWaiting, DependencyWaiting)
  {
    PendingExists(g, l, id, |Deps(g, id)|);
    var d :| FirstPending(g, l, id, d);
    IdleReads(g, l, nodes, id, d);
    if StalledFrom(g, l, id) {
      var chain :| Stalled(g, l, chain) && chain[0] == id;
      StalledIsBlocked(g, l, nodes, chain);
    } else if nodes[id].state == ReadinessBlocked {
      var order: seq<string> :| IsTopologicalOrder(g, order);
      var i :| 0 <= i < |order| && order[i] == id;
      BlockedIsStalled(g, l, nodes, order, i);
    }
  }

  function OwnState(g: Graph, events: seq<Event>, id: string): WorkPackageState {
    History(BodiesOf(id, Canonical(g, events))).state
  }

  ghost predicate SomeIn(snap: Snapshot, state: ReadinessState) { exists n :: n in snap.nodes && n.state == state }
  ghost predicate EveryIn(snap: Snapshot, state: ReadinessState) { forall n | n in snap.nodes :: n.state == state }

  /** The task is finished when every member is; otherwise it is as its most urgent member. */
  ghost predicate TaskStateIs(snap: Snapshot) {
    && (snap.state == ReadinessAccepted <==> EveryIn(snap, ReadinessAccepted))
    && (snap.state == ReadinessCanceled <==> EveryIn(snap, ReadinessCanceled))
    && (snap.state == ReadinessFailed <==> SomeIn(snap, ReadinessFailed))
    && (snap.state == ReadinessBlocked <==> SomeIn(snap, ReadinessBlocked) && !SomeIn(snap, ReadinessFailed))
    && (snap.state == ReadinessReview ==> SomeIn(snap, ReadinessReview))
    && (snap.state == ReadinessReady ==> SomeIn(snap, ReadinessReady) && !SomeIn(snap, ReadinessReview))
    && (snap.state == ReadinessWaiting ==>
          SomeIn(snap, ReadinessWaiting) && !SomeIn(snap, ReadinessReview) && !SomeIn(snap, ReadinessReady))
    && (snap.state == ReadinessPlanned ==>
          !SomeIn(snap, ReadinessReview) && !SomeIn(snap, ReadinessReady) && !SomeIn(snap, ReadinessWaiting))
  }

  function TaskReasonOf(s: ReadinessState): TaskReason {
    match s
    case ReadinessAccepted => TaskAccepted
    case ReadinessCanceled => TaskCanceled
    case ReadinessFailed => TaskFailed
    case ReadinessBlocked => TaskBlocked
    case ReadinessReview => TaskInReview
    case ReadinessReady => TaskHasReadyWork
    case ReadinessWaiting => TaskWaiting
    case ReadinessPlanned => TaskPlanned
  }

  /** A snapshot of an accepted graph lists its members in order, each with the state and the
      reason its own and its dependencies' histories give it, under the task's identity. */
  lemma {:induction false} SnapshotMeans(sha: string -> string, g: Graph, events: seq<Event>, snap: Snapshot, i: nat)
    requires AcceptedGraph(sha, g) && IsSnapshot(sha, g, events, snap) && i < |g.revision.members|
    ensures |snap.nodes| == |g.revision.members|
    ensures var l, id, n := Replay(Canonical(g, events)), MemberID(g, i), snap.nodes[i];
            && n.workPackageID == id && n.canonical == OwnState(g, events, id) && n.dependencies == Deps(g, id)
            && (n.barrier <==> id in g.revision.barriers) && (n.state, n.reason) == Meaning(g, l, id)
    ensures snap.projectID == g.task.projectID && snap.taskID == g.task.taskID
    ensures snap.taskRevision == g.task.revision && snap.graphRevision == g.task.graphRevision
  {
    var c := Canonical(g, events);
    var nodes :| Solves(g, Replay(c), nodes) && snap == SnapshotFrom(sha, g, c, nodes);
    EdgesOkAreClean(g);
    assert MemberID(g, i) in MemberIDs(g);
    NodeMeans(g, Replay(c), nodes, MemberID(g, i));
    ReplayIsPerPackage(c, MemberID(g, i));
  }

  /** The state in the ledger is that of the package's own history. */
  lemma {:induction false} LedgerIsHistory(g: Graph, events: seq<Event>, id: string)
    ensures StateIn(Replay(Canonical(g, events)), id) == OwnState(g, events, id)
  {
    ReplayIsPerPackage(Canonical(g, events), id);
  }

  /** Every node has one state, so some states exclude others. */
  lemma SummaryMeans(nodes: seq<Node>)
    requires nodes != []
    ensures var (state, reason) := TaskSummary(nodes);
            && reason == TaskReasonOf(state)
            && (state == ReadinessAccepted <==> AllIn(nodes, ReadinessAccepted))
            && (state == ReadinessCanceled <==> AllIn(nodes, ReadinessCanceled))
            && (state == ReadinessFailed <==> AnyIn(nodes, ReadinessFailed))
            && (state == ReadinessBlocked <==> AnyIn(nodes, ReadinessBlocked) && !AnyIn(nodes, ReadinessFailed))
            && (state == ReadinessReview ==> AnyIn(nodes, ReadinessReview))
            && (state == ReadinessReady ==> AnyIn(nodes, ReadinessReady) && !AnyIn(nodes, ReadinessReview))
            && (state == ReadinessWaiting ==>
                  AnyIn(nodes, ReadinessWaiting) && !AnyIn(nodes, ReadinessReview) && !AnyIn(nodes, ReadinessReady))
            && (state == ReadinessPlanned ==>
                  !AnyIn(nodes, ReadinessReview) && !AnyIn(nodes, ReadinessReady) && !AnyIn(nodes, ReadinessWaiting))
  {
    assert AllIn(nodes, ReadinessAccepted) ==> nodes[0].state == ReadinessAccepted;
    assert AllIn(nodes, ReadinessCanceled) ==> nodes[0].state == ReadinessCanceled;
  }

  lemma SnapshotSummary(snap: Snapshot, s: ReadinessState)
    ensures AnyIn(snap.nodes, s) <==> SomeIn(snap, s)
    ensures AllIn(snap.nodes, s) <==> EveryIn(snap, s)
  {
    if AnyIn(snap.nodes, s) {
      var k :| 0 <= k < |snap.nodes| && snap.nodes[k].state == s;
      assert snap.nodes[k] in snap.nodes;
    }
  }

  lemma {:induction false} TaskMeans(sha: string -> string, g: Graph, events: seq<Event>, snap: Snapshot)
    requires AcceptedGraph(sha, g) && IsSnapshot(sha, g, events, snap)
    ensures TaskStateIs(snap) && snap.reason == TaskReasonOf(snap.state)
  {
    var c := Canonical(g, events);
    var nodes :| Solves(g, Replay(c), nodes) && snap == SnapshotFrom(sha, g, c, nodes);
    assert snap.nodes == MemberNodes(g, nodes) && |snap.nodes| == |g.revision.members|;
    SummaryMeans(snap.nodes);
    forall s
      ensures AnyIn(snap.nodes, s) <==> SomeIn(snap, s)
      ensures AllIn(snap.nodes, s) <==> EveryIn(snap, s)
    {
      SnapshotSummary(snap, s);
    }
  }

  // ---------------------------------------------------------------- how a package moves

  /** The changes of state a package can be asked for. */
  const MOVES: set<(WorkPackageState, WorkPackageState)> := {
    (Planned, Ready), (Planned, Canceled), (Ready, InProgress), (Ready, Canceled),
    (InProgress, Blocked), (InProgress, Review), (InProgress, Failed), (InProgress, Canceled),
    (Blocked, InProgress), (Blocked, Failed), (Blocked, Canceled), (Review, InProgress), (Review, Failed),
    (Failed, Ready), (Failed, Canceled)}

  /** A package is created once, moves when asked from the state it is in along the table, and is
      accepted out of Review; nothing else changes its state. */
  lemma {:induction false} PackageMoves(bodies: seq<EventBody>, n: nat)
    requires n < |bodies|
    ensures var before, after := History(bodies[..n]).state, History(bodies[..n + 1]).state;
            && (bodies[n] == WorkPackageCreated ==> after == if before == NotCreated then Planned else before)
            && (forall from, to | bodies[n] == StateChanged(Some((from, to))) ::
                  after == if before == from && (from, to) in MOVES then to else before)
            && (bodies[n] == WorkAccepted ==> after in {before, Accepted} && (after != before ==> before == Review))
            && (!bodies[n].WorkPackageCreated? && !bodies[n].StateChanged? && !bodies[n].WorkAccepted? ==>
                  after == before)
  {
    assert bodies[..n + 1][..n] == bodies[..n];
  }

  // ---------------------------------------------------------------- one instant

  /** At one instant creation comes before changes, changes before reviews, reviews before
      acceptance, whatever the records are called and whatever order they are supplied in. */
  lemma {:induction false} InstantOrder(events: seq<Event>, a: Event, b: Event, i: nat, j: nat)
    requires i < |SortBy(Earlier, events)| && j < |SortBy(Earlier, events)|
    requires SortBy(Earlier, events)[i] == a && SortBy(Earlier, events)[j] == b && a.occurredAt == b.occurredAt
    requires || (a.body.WorkPackageCreated? && !b.body.WorkPackageCreated?)
             || (a.body.StateChanged? && (b.body.ReviewRecorded? || b.body.WorkAccepted?))
             || (a.body.ReviewRecorded? && b.body.WorkAccepted?)
    ensures i < j
  {
    EarlierIsStrictWeak();
    SortBySorts(Earlier, events);
    assert Earlier(a, b);
  }

  /** Earlier records come first. */
  lemma {:induction false} TimeOrder(events: seq<Event>, i: nat, j: nat)
    requires i < j < |SortBy(Earlier, events)|
    ensures SortBy(Earlier, events)[i].occurredAt <= SortBy(Earlier, events)[j].occurredAt
  {
    EarlierIsStrictWeak();
    SortBySorts(Earlier, events);
  }

  // ---------------------------------------------------------------- the watermark

  predicate PlainRecords(events: seq<Event>) {
    forall e | e in events :: Plain(e.recordID) && Plain(e.recordDigest)
  }

  predicate EndsInSeparator(u: string) { u != [] && !Plain([u[|u| - 1]]) }

  lemma NotLonger(u: string, x: string, v: string, y: string)
    requires u + x == v + y && Plain(x) && EndsInSeparator(v)
    ensures |v| <= |u|
  {
    assert forall k | |u| <= k < |u| + |x| :: (u + x)[k] in x;
    assert (v + y)[|v| - 1] == v[|v| - 1];
    assert [v[|v| - 1]] == [(u + x)[|v| - 1]];
  }

  /** A plain last field can be told from what comes before it. */
  lemma LastFieldSplits(u: string, x: string, v: string, y: string)
    requires u + x == v + y && Plain(x) && Plain(y) && EndsInSeparator(u) && EndsInSeparator(v)
    ensures u == v && x == y
  {
    NotLonger(u, x, v, y);
    NotLonger(v, y, u, x);
    assert u == (u + x)[..|u|] && x == (u + x)[|u|..];
    assert v == (v + y)[..|v|] && y == (v + y)[|v|..];
  }

  lemma WatermarkEnds(g: Graph, events: seq<Event>)
    ensures EndsInSeparator(WatermarkInput(g, events))
    ensures WatermarkInput(g, events)[|WatermarkInput(g, events)| - 1]
         == (if events == [] then 0 as char else 0xff as char)
  {
  }

  /** The text digested into the watermark tells histories apart: the record IDs and digests, in
      canonical order, can be read back from it. */
  lemma {:induction false} WatermarkBinds(g: Graph, a: seq<Event>, b: seq<Event>)
    requires PlainRecords(a) && PlainRecords(b) && WatermarkInput(g, a) == WatermarkInput(g, b)
    ensures |a| == |b|
    ensures forall i | 0 <= i < |a| :: a[i].recordID == b[i].recordID && a[i].recordDigest == b[i].recordDigest
  {
    WatermarkEnds(g, a);
    WatermarkEnds(g, b);
    if a != [] {
      LastRowBinds(g, a, b);
      WatermarkBinds(g, a[..|a| - 1], b[..|b| - 1]);
    }
  }

  lemma LastRowBinds(g: Graph, a: seq<Event>, b: seq<Event>)
    requires PlainRecords(a) && PlainRecords(b) && WatermarkInput(g, a) == WatermarkInput(g, b) && a != [] && b != []
    ensures WatermarkInput(g, a[..|a| - 1]) == WatermarkInput(g, b[..|b| - 1])
    ensures var e, f := a[|a| - 1], b[|b| - 1]; e.recordID == f.recordID && e.recordDigest == f.recordDigest
  {
    var n, m := |a| - 1, |b| - 1;
    assert PlainRecords([a[n]]) && PlainRecords([b[m]]);
    RowSplits(WatermarkInput(g, a[..n]), a[n], WatermarkInput(g, b[..m]), b[m], WatermarkInput(g, a));
    WatermarkEnds(g, a[..n]);
    WatermarkEnds(g, b[..m]);
    LastFieldSplits(WatermarkInput(g, a[..n]), a[n].recordID, WatermarkInput(g, b[..m]), b[m].recordID);
  }

  lemma RowSplits(u: string, e: Event, v: string, f: Event, whole: string)
    requires whole == u + (e.recordID + [0 as char] + e.recordDigest + [0xff as char])
    requires whole == v + (f.recordID + [0 as char] + f.recordDigest + [0xff as char])
    requires PlainRecords([e]) && PlainRecords([f])
    ensures u + e.recordID == v + f.recordID && e.recordDigest == f.recordDigest
  {
    var x, y := u + e.recordID + [0 as char], v + f.recordID + [0 as char];
    assert whole[..|whole| - 1] == x + e.recordDigest == y + f.recordDigest;
    assert e in [e] && f in [f];
    LastFieldSplits(x, e.recordDigest, y, f.recordDigest);
    assert x[..|x| - 1] == u + e.recordID && y[..|y| - 1] == v + f.recordID;
  }
}

/** Assignment control: the service decides from a snapshot it has read, the store commits
    only if what was read still holds. Transactions are functions on the tables. */
module Control {
  import opened Options

  datatype State =
    | Planned | Leased | Preparing | Running | Paused | Collecting | AwaitingGates
    | Accepted | Failed | Canceled | Expired

  /** `ReduceAssignmentState`. */
  predicate Allowed(current: State, target: State) {
    match current
    case Planned => target.Leased? || target.Canceled?
    case Leased => target.Preparing? || target.Expired? || target.Canceled?
    case Preparing =>
      target.Running? || target.Paused? || target.Collecting? || target.Failed? || target.Canceled? || target.Expired?
    case Running => target.Paused? || target.Collecting? || target.Failed? || target.Canceled? || target.Expired?
    case Paused => target.Running? || target.Collecting? || target.Failed? || target.Canceled? || target.Expired?
    case Collecting => target.AwaitingGates? || target.Failed? || target.Canceled?
    case AwaitingGates => target.Accepted? || target.Failed? || target.Canceled?
    case _ => false
  }

  predicate Terminal(s: State) { s.Accepted? || s.Failed? || s.Canceled? || s.Expired? }
  predicate Retryable(s: State) { s.Failed? || s.Canceled? || s.Expired? }

  /** The states in which the current attempt holds an active lease. */
  predicate Holding(s: State) { !s.Planned? && !Terminal(s) }

  datatype LeaseState = LeaseActive | LeaseReleased | LeaseExpired
  datatype Lease = Lease(leaseID: string, generation: int, fencingDigest: string, state: LeaseState, expiresAt: int)

  datatype Attempt = Attempt(
    assignmentID: string, number: int, state: State, leaseGeneration: int, idempotencyDigest: string)

  datatype Assignment = Assignment(
    workPackage: string, contractDigest: string, workerID: string, state: State,
    currentAttempt: string, currentNumber: int, idempotencyDigest: string)

  /** The tables. `trail` is the history of states each attempt has been in. */
  datatype Store = Store(
    assignments: map<string, Assignment>, attempts: map<string, Attempt>, leases: map<string, Lease>,
    leaseIDs: set<string>, resources: set<string>, operations: map<string, (string, string)>,
    trail: map<string, seq<State>>)

  datatype Outcome = Written | AlreadyPresent | StoreConflict | StaleFence | BadTransition | NotFound | Invalid

  // ---------------------------------------------------------------- store transactions

  /** A recorded operation replays; the same ID with another digest is a conflict. */
  function ReplayOf(s: Store, op: string, digest: string): Option<Outcome> {
    if op !in s.operations then None
    else if s.operations[op].0 != digest then Some(StoreConflict)
    else Some(AlreadyPresent)
  }

  function Record(s: Store, op: string, digest: string, id: string): Store {
    s.(operations := s.operations[op := (digest, id)])
  }

  function SetState(s: Store, id: string, tid: string, target: State, generation: int): Store
    requires id in s.assignments && tid in s.attempts && tid in s.trail
  {
    s.(attempts := s.attempts[tid := s.attempts[tid].(state := target, leaseGeneration := generation)],
       assignments := s.assignments[id := s.assignments[id].(state := target)],
       trail := s.trail[tid := s.trail[tid] + [target]])
  }

  /** The compare-and-set of `updateAttemptState`: both rows must still hold `expected`. */
  predicate CanSet(s: Store, id: string, tid: string, expected: State) {
    && id in s.assignments && tid in s.attempts && tid in s.trail
    && s.attempts[tid].assignmentID == id && s.attempts[tid].state == expected
    && s.assignments[id].currentAttempt == tid && s.assignments[id].state == expected
  }

  datatype PlanRequest = PlanRequest(
    id: string, tid: string, workPackage: string, contractDigest: string, workerID: string,
    idempotencyDigest: string, op: string, opDigest: string)

  /** UNIQUE (project_id, work_package_id) on assignments. */
  predicate WorkPackageTaken(s: Store, workPackage: string) {
    exists id | id in s.assignments :: s.assignments[id].workPackage == workPackage
  }

  /** UNIQUE (project_id, work_package_id, idempotency_digest) on attempts; the work package
      fixes the assignment. */
  predicate DigestTaken(s: Store, id: string, digest: string) {
    exists tid | tid in s.attempts :: s.attempts[tid].assignmentID == id && s.attempts[tid].idempotencyDigest == digest
  }

  /** `commit` says whether the remaining inserts and the commit itself succeed. */
  function PlanTx(s: Store, q: PlanRequest, commit: bool): (Store, Outcome) {
    var replay := ReplayOf(s, q.op, q.opDigest);
    if replay.Some? then (s, replay.value)
    else if q.id in s.assignments then
      var a := s.assignments[q.id];
      (s, if a.idempotencyDigest != q.idempotencyDigest || a.contractDigest != q.contractDigest
             || a.currentAttempt != q.tid
          then StoreConflict else AlreadyPresent)
    else if WorkPackageTaken(s, q.workPackage) || q.tid in s.attempts || !commit then (s, StoreConflict)
    else
      (Record(s.(assignments := s.assignments[q.id := Assignment(
                   q.workPackage, q.contractDigest, q.workerID, Planned, q.tid, 1, q.idempotencyDigest)],
                 attempts := s.attempts[q.tid := Attempt(q.id, 1, Planned, 0, q.idempotencyDigest)],
                 trail := s.trail[q.tid := [Planned]]), q.op, q.opDigest, q.id),
       Written)
  }

  datatype ClaimRequest = ClaimRequest(
    id: string, tid: string, leaseID: string, fencingDigest: string, op: string, opDigest: string)

  function ClaimTx(s: Store, q: ClaimRequest, expiresAt: int, commit: bool): (Store, Outcome) {
    var replay := ReplayOf(s, q.op, q.opDigest);
    if replay.Some? then (s, replay.value)
    else if q.id !in s.assignments then (s, NotFound)
    else if !CanSet(s, q.id, q.tid, Planned) || q.leaseID in s.leaseIDs || !commit then (s, StoreConflict)
    else
      var generation := s.attempts[q.tid].leaseGeneration + 1;
      var lease := Lease(q.leaseID, generation, q.fencingDigest, LeaseActive, expiresAt);
      (Record(SetState(s.(leases := s.leases[q.tid := lease],
                          leaseIDs := s.leaseIDs + {q.leaseID}), q.id, q.tid, Leased, generation),
              q.op, q.opDigest, q.id),
       Written)
  }

  /** `fencedSnapshot`: the caller still holds the attempt's live lease. */
  predicate Fenced(s: Store, id: string, tid: string, expected: State, generation: int, digest: string, now: int) {
    && CanSet(s, id, tid, expected) && s.attempts[tid].leaseGeneration == generation && tid in s.leases
    && var l := s.leases[tid];
       l.generation == generation && l.fencingDigest == digest && l.state == LeaseActive && l.expiresAt > now
  }

  datatype BindRequest = BindRequest(
    id: string, tid: string, generation: int, fencingDigest: string, op: string, opDigest: string)

  function BindTx(s: Store, q: BindRequest, now: int, commit: bool): (Store, Outcome) {
    var replay := ReplayOf(s, q.op, q.opDigest);
    if replay.Some? then (s, replay.value)
    else if !Fenced(s, q.id, q.tid, Leased, q.generation, q.fencingDigest, now) || q.tid in s.resources || !commit
    then (s, StaleFence)
    else
      (Record(SetState(s.(resources := s.resources + {q.tid}), q.id, q.tid, Preparing, q.generation), q.op, q.opDigest,
              q.id),
       Written)
  }

  datatype TransitionRequest = TransitionRequest(
    id: string, tid: string, target: State, generation: int, fencingDigest: string, op: string, opDigest: string)

  function Ended(l: Lease, target: State): Lease {
    if target.Expired? then l.(state := LeaseExpired) else if Terminal(target) then l.(state := LeaseReleased) else l
  }

  function TransitionTx(s: Store, q: TransitionRequest, expected: State, now: int, commit: bool): (Store, Outcome) {
    var replay := ReplayOf(s, q.op, q.opDigest);
    if replay.Some? then (s, replay.value)
    else if !Fenced(s, q.id, q.tid, expected, q.generation, q.fencingDigest, now) || !commit then (s, StaleFence)
    else
      (Record(SetState(s.(leases := s.leases[q.tid := Ended(s.leases[q.tid], q.target)]), q.id, q.tid, q.target,
                       q.generation),
              q.op, q.opDigest, q.id),
       Written)
  }

  datatype HeartbeatRequest = HeartbeatRequest(
    id: string, tid: string, leaseID: string, generation: int, fencingDigest: string)

  function HeartbeatTx(s: Store, q: HeartbeatRequest, now: int, extendBy: int): (Store, Outcome) {
    if q.id !in s.assignments || s.assignments[q.id].currentAttempt != q.tid || q.tid !in s.leases then (s, StaleFence)
    else
      var l := s.leases[q.tid];
      if l.leaseID != q.leaseID || l.generation != q.generation || l.fencingDigest != q.fencingDigest
         || l.state != LeaseActive || l.expiresAt <= now || extendBy <= 0
      then (s, StaleFence)
      else (s.(leases := s.leases[q.tid := l.(expiresAt := now + extendBy)]), Written)
  }

  datatype RetryRequest = RetryRequest(
    id: string, previous: string, tid: string, workerID: string, idempotencyDigest: string, op: string,
    opDigest: string)

  function RetryTx(s: Store, q: RetryRequest, number: int, workerID: string, commit: bool): (Store, Outcome) {
    var replay := ReplayOf(s, q.op, q.opDigest);
    if replay.Some? then (s, replay.value)
    else if q.id !in s.assignments then (s, NotFound)
    else
      var a := s.assignments[q.id];
      if a.currentAttempt != q.previous || q.previous !in s.attempts || !Retryable(s.attempts[q.previous].state)
         || number != s.attempts[q.previous].number + 1 || workerID == ""
         || q.tid in s.attempts || DigestTaken(s, q.id, q.idempotencyDigest) || !commit
      then (s, StoreConflict)
      else
        var renewed := a.(state := Planned, currentAttempt := q.tid, currentNumber := number,
                          workerID := workerID, idempotencyDigest := q.idempotencyDigest);
        (Record(s.(assignments := s.assignments[q.id := renewed],
                   attempts := s.attempts[q.tid := Attempt(q.id, number, Planned, 0, q.idempotencyDigest)],
                   trail := s.trail[q.tid := [Planned]]), q.op, q.opDigest, q.id),
         Written)
  }

  /** One assignment of `ReconcileAssignments`: an active lease past its expiry ends the attempt. */
  function ReconcileOne(s: Store, id: string, now: int): Store {
    if id !in s.assignments then s
    else
      var tid := s.assignments[id].currentAttempt;
      if tid !in s.attempts || tid !in s.leases then s
      else
        var from := s.attempts[tid].state;
        if Terminal(from) || s.leases[tid].state != LeaseActive || s.leases[tid].expiresAt > now
           || !CanSet(s, id, tid, from)
        then s
        else SetState(s.(leases := s.leases[tid := s.leases[tid].(state := LeaseExpired)]), id, tid, Expired,
                      s.attempts[tid].leaseGeneration)
  }

  function Reconcile(s: Store, ids: seq<string>, now: int): Store {
    if ids == [] then s else ReconcileOne(Reconcile(s, ids[..|ids| - 1], now), ids[|ids| - 1], now)
  }

  // ---------------------------------------------------------------- the service

  /** What `GetAssignment` returned, possibly some time ago. */
  datatype Snapshot = Snapshot(workerID: string, tid: string, attempt: Attempt)

  function Read(s: Store, id: string): Option<Snapshot> {
    if id in s.assignments && s.assignments[id].currentAttempt in s.attempts
    then Some(Snapshot(s.assignments[id].workerID, s.assignments[id].currentAttempt,
                       s.attempts[s.assignments[id].currentAttempt]))
    else None
  }

  /** `Transition`, from the snapshot `read`. */
  function Transition(s: Store, read: Option<Snapshot>, q: TransitionRequest, now: int, commit: bool): (Store, Outcome)
  {
    if q.generation < 1 then (s, Invalid)
    else if read.None? then (s, NotFound)
    else if read.value.tid != q.tid || read.value.attempt.leaseGeneration != q.generation then (s, StaleFence)
    else if !Allowed(read.value.attempt.state, q.target) then (s, BadTransition)
    else TransitionTx(s, q, read.value.attempt.state, now, commit)
  }

  /** `Retry`, from the snapshot `read`. */
  function Retry(s: Store, read: Option<Snapshot>, q: RetryRequest, commit: bool): (Store, Outcome) {
    if read.None? then (s, NotFound)
    else
      var replay := read.value.tid == q.tid;
      if !replay && (read.value.tid != q.previous || !Retryable(read.value.attempt.state)) then (s, BadTransition)
      else if !replay && read.value.attempt.idempotencyDigest == q.idempotencyDigest then (s, StoreConflict)
      else
        var workerID := if q.workerID == "" then read.value.workerID else q.workerID;
        var number := if replay then read.value.attempt.number else read.value.attempt.number + 1;
        RetryTx(s, q, number, workerID, commit)
  }

  /** One committed or refused call. `read` is whatever the caller last saw: nothing ties it
      to the present tables. */
  datatype Step =
    | DoPlan(plan: PlanRequest, commit: bool)
    | DoClaim(claim: ClaimRequest, expiresAt: int, commit: bool)
    | DoBind(bind: BindRequest, now: int, commit: bool)
    | DoTransition(read: Option<Snapshot>, transition: TransitionRequest, now: int, commit: bool)
    | DoHeartbeat(heartbeat: HeartbeatRequest, now: int, extendBy: int)
    | DoRetry(read: Option<Snapshot>, retry: RetryRequest, commit: bool)
    | DoReconcile(id: string, now: int)

  function Next(s: Store, step: Step): Store {
    match step
    case DoPlan(q, commit) => PlanTx(s, q, commit).0
    case DoClaim(q, expiresAt, commit) => ClaimTx(s, q, expiresAt, commit).0
    case DoBind(q, now, commit) => BindTx(s, q, now, commit).0
    case DoTransition(read, q, now, commit) => Transition(s, read, q, now, commit).0
    case DoHeartbeat(q, now, extendBy) => HeartbeatTx(s, q, now, extendBy).0
    case DoRetry(read, q, commit) => Retry(s, read, q, commit).0
    case DoReconcile(id, now) => ReconcileOne(s, id, now)
  }

  function Run(s: Store, steps: seq<Step>): Store {
    if steps == [] then s else Next(Run(s, steps[..|steps| - 1]), steps[|steps| - 1])
  }

  const EMPTY := Store(map[], map[], map[], {}, {}, map[], map[])

  // ---------------------------------------------------------------- what runs can do

  /** The moves an attempt really makes: Planned only to Leased, and a reconciled lease may
      expire in any holding state. */
  predicate Edge(from: State, to: State) {
    || (from.Planned? && to.Leased?)
    || (!from.Planned? && Allowed(from, to))
    || (Holding(from) && to.Expired?)
  }

  predicate IsTrail(t: seq<State>) {
    t != [] && t[0] == Planned && forall i, j | 0 <= i && j == i + 1 < |t| :: Edge(t[i], t[j])
  }

  predicate AttemptOk(s: Store, tid: string)
    requires tid in s.attempts
  {
    var t := s.attempts[tid];
    && t.assignmentID in s.assignments && t.number >= 1
    && tid in s.trail && IsTrail(s.trail[tid]) && s.trail[tid][|s.trail[tid]| - 1] == t.state
    && (if t.state.Planned? then t.leaseGeneration == 0 && tid !in s.leases
        else t.leaseGeneration == 1 && tid in s.leases && s.leases[tid].generation == 1
             && (Holding(t.state) <==> s.leases[tid].state == LeaseActive))
    && (var a := s.assignments[t.assignmentID];
        if a.currentAttempt == tid then a.state == t.state && a.currentNumber == t.number
        else Retryable(t.state) && t.number < a.currentNumber)
  }

  predicate AssignmentOk(s: Store, id: string)
    requires id in s.assignments
  {
    var tid := s.assignments[id].currentAttempt;
    tid in s.attempts && s.attempts[tid].assignmentID == id
  }

  ghost predicate Invariant(s: Store) {
    && (forall tid {:trigger AttemptOk(s, tid)} | tid in s.attempts :: AttemptOk(s, tid))
    && (forall id {:trigger AssignmentOk(s, id)} | id in s.assignments :: AssignmentOk(s, id))
    && (forall tid | tid in s.leases :: tid in s.attempts)
  }

  /** Moving one current attempt along an edge, with its lease, keeps everything. */
  lemma MoveKeeps(s: Store, s': Store, id: string, tid: string, target: State)
    requires Invariant(s) && id in s.assignments && s.assignments[id].currentAttempt == tid && tid in s.attempts
    requires s.attempts[tid].assignmentID == id && tid in s.trail
    requires Edge(s.attempts[tid].state, target)
    requires s'.attempts == s.attempts[tid := s.attempts[tid].(state := target, leaseGeneration := 1)]
    requires s'.assignments == s.assignments[id := s.assignments[id].(state := target)]
    requires s'.trail == s.trail[tid := s.trail[tid] + [target]]
    requires tid in s'.leases && s'.leases == s.leases[tid := s'.leases[tid]] && s'.leases[tid].generation == 1
    requires Holding(target) <==> s'.leases[tid].state == LeaseActive
    ensures Invariant(s')
  {
    assert AttemptOk(s, tid);
    assert !target.Planned?;
    forall x | x in s'.attempts ensures AttemptOk(s', x) {
      assert AttemptOk(s, x);
      if x == tid { TrailExtends(s.trail[tid], target); }
    }
    forall x | x in s'.assignments ensures AssignmentOk(s', x) { assert AssignmentOk(s, x); }
  }

  lemma TrailExtends(t: seq<State>, target: State)
    requires IsTrail(t) && Edge(t[|t| - 1], target)
    ensures IsTrail(t + [target])
  {
    var u := t + [target];
    forall i, j | 0 <= i && j == i + 1 < |u| ensures Edge(u[i], u[j]) {
      if j < |t| { assert Edge(t[i], t[j]); }
    }
  }

  lemma RecordKeeps(s: Store, op: string, digest: string, id: string)
    requires Invariant(s)
    ensures Invariant(Record(s, op, digest, id))
  {
    var s' := Record(s, op, digest, id);
    forall x | x in s'.attempts ensures AttemptOk(s', x) { assert AttemptOk(s, x); }
    forall x | x in s'.assignments ensures AssignmentOk(s', x) { assert AssignmentOk(s, x); }
  }

  lemma PlanKeeps(s: Store, q: PlanRequest, commit: bool)
    requires Invariant(s)
    ensures Invariant(PlanTx(s, q, commit).0)
  {
    var s' := PlanTx(s, q, commit).0;
    if s' != s {
      forall x | x in s'.attempts ensures AttemptOk(s', x) { if x != q.tid { assert AttemptOk(s, x); } }
      forall x | x in s'.assignments ensures AssignmentOk(s', x) { if x != q.id { assert AssignmentOk(s, x); } }
    }
  }

  lemma ClaimKeeps(s: Store, q: ClaimRequest, expiresAt: int, commit: bool)
    requires Invariant(s)
    ensures Invariant(ClaimTx(s, q, expiresAt, commit).0)
  {
    var s' := ClaimTx(s, q, expiresAt, commit).0;
    if s' != s {
      assert AttemptOk(s, q.tid);
      var m := s'.(operations := s.operations);
      MoveKeeps(s, m, q.id, q.tid, Leased);
      RecordKeeps(m, q.op, q.opDigest, q.id);
    }
  }

  lemma BindKeeps(s: Store, q: BindRequest, now: int, commit: bool)
    requires Invariant(s)
    ensures Invariant(BindTx(s, q, now, commit).0)
  {
    var s' := BindTx(s, q, now, commit).0;
    if s' != s {
      assert AttemptOk(s, q.tid);
      var m := s'.(operations := s.operations);
      MoveKeeps(s, m, q.id, q.tid, Preparing);
      RecordKeeps(m, q.op, q.opDigest, q.id);
    }
  }

  /** However stale the snapshot, a committed transition is a legal move of the present attempt. */
  lemma TransitionKeeps(s: Store, read: Option<Snapshot>, q: TransitionRequest, now: int, commit: bool)
    requires Invariant(s)
    ensures Invariant(Transition(s, read, q, now, commit).0)
  {
    var s' := Transition(s, read, q, now, commit).0;
    if s' != s {
      assert AttemptOk(s, q.tid);
      var m := s'.(operations := s.operations);
      MoveKeeps(s, m, q.id, q.tid, q.target);
      RecordKeeps(m, q.op, q.opDigest, q.id);
    }
  }

  lemma HeartbeatKeeps(s: Store, q: HeartbeatRequest, now: int, extendBy: int)
    requires Invariant(s)
    ensures Invariant(HeartbeatTx(s, q, now, extendBy).0)
  {
    var s' := HeartbeatTx(s, q, now, extendBy).0;
    forall x | x in s'.attempts ensures AttemptOk(s', x) { assert AttemptOk(s, x); }
    forall x | x in s'.assignments ensures AssignmentOk(s', x) { assert AssignmentOk(s, x); }
  }

  lemma RetryKeeps(s: Store, q: RetryRequest, number: int, workerID: string, commit: bool)
    requires Invariant(s)
    ensures Invariant(RetryTx(s, q, number, workerID, commit).0)
  {
    var s' := RetryTx(s, q, number, workerID, commit).0;
    if s' != s {
      assert AttemptOk(s, q.previous) && AssignmentOk(s, q.id);
      forall x | x in s'.attempts ensures AttemptOk(s', x) { if x != q.tid { assert AttemptOk(s, x); } }
      forall x | x in s'.assignments ensures AssignmentOk(s', x) { assert AssignmentOk(s, x); }
    }
  }

  lemma ReconcileKeeps(s: Store, id: string, now: int)
    requires Invariant(s)
    ensures Invariant(ReconcileOne(s, id, now))
  {
    var s' := ReconcileOne(s, id, now);
    if s' != s {
      var tid := s.assignments[id].currentAttempt;
      assert AttemptOk(s, tid);
      MoveKeeps(s, s', id, tid, Expired);
    }
  }

  lemma NextKeeps(s: Store, step: Step)
    requires Invariant(s)
    ensures Invariant(Next(s, step))
  {
    match step
    case DoPlan(q, commit) => PlanKeeps(s, q, commit);
    case DoClaim(q, expiresAt, commit) => ClaimKeeps(s, q, expiresAt, commit);
    case DoBind(q, now, commit) => BindKeeps(s, q, now, commit);
    case DoTransition(read, q, now, commit) => TransitionKeeps(s, read, q, now, commit);
    case DoHeartbeat(q, now, extendBy) => HeartbeatKeeps(s, q, now, extendBy);
    case DoRetry(read, q, commit) =>
      if read.Some? {
        var replay := read.value.tid == q.tid;
        RetryKeeps(s, q, if replay then read.value.attempt.number else read.value.attempt.number + 1,
                   if q.workerID == "" then read.value.workerID else q.workerID, commit);
      }
    case DoReconcile(id, now) => ReconcileKeeps(s, id, now);
  }

  lemma {:induction false} RunKeeps(s: Store, steps: seq<Step>)
    requires Invariant(s)
    ensures Invariant(Run(s, steps))
  {
    if steps != [] {
      RunKeeps(s, steps[..|steps| - 1]);
      NextKeeps(Run(s, steps[..|steps| - 1]), steps[|steps| - 1]);
    }
  }

  // ---------------------------------------------------------------- the road to acceptance

  /** Planned, Leased, Preparing, then only Running and Paused. */
  predicate Working(t: seq<State>) {
    |t| >= 3 && t[..3] == [Planned, Leased, Preparing] && forall i | 3 <= i < |t| :: t[i].Running? || t[i].Paused?
  }

  /** How an attempt that has not ended got where it is. */
  predicate Shaped(t: seq<State>) {
    t != [] &&
    match t[|t| - 1]
    case Planned => t == [Planned]
    case Leased => t == [Planned, Leased]
    case Preparing => t == [Planned, Leased, Preparing]
    case Running => Working(t)
    case Paused => Working(t)
    case Collecting => Working(t[..|t| - 1])
    case AwaitingGates => |t| >= 2 && t[|t| - 2] == Collecting && Working(t[..|t| - 2])
    case Accepted => |t| >= 3 && t[|t| - 3..|t| - 1] == [Collecting, AwaitingGates] && Working(t[..|t| - 3])
    case _ => true
  }

  lemma {:induction false} TrailIsShaped(t: seq<State>)
    requires IsTrail(t)
    ensures Shaped(t)
  {
    if |t| > 1 {
      var init := t[..|t| - 1];
      assert Edge(t[|t| - 2], t[|t| - 1]);
      forall i, j | 0 <= i && j == i + 1 < |init| ensures Edge(init[i], init[j]) { assert Edge(t[i], t[j]); }
      TrailIsShaped(init);
      assert t == init + [t[|t| - 1]];
      if t[|t| - 1].AwaitingGates? || t[|t| - 1].Accepted? {
        assert t[..|t| - 2] == init[..|init| - 1];
      }
      if t[|t| - 1].Accepted? {
        assert t[..|t| - 3] == init[..|init| - 2];
      }
    }
  }

  /** In every run, an attempt is Accepted only after Leased, Preparing, Collecting and
      AwaitingGates, in that order, with nothing but running and pausing in between. */
  lemma {:induction false} AcceptedRoad(steps: seq<Step>, tid: string)
    requires var s := Run(EMPTY, steps); tid in s.attempts && s.attempts[tid].state == Accepted
    ensures tid in Run(EMPTY, steps).trail
    ensures var t := Run(EMPTY, steps).trail[tid];
            |t| >= 6 && Working(t[..|t| - 3]) && t[|t| - 3..] == [Collecting, AwaitingGates, Accepted]
  {
    RunKeeps(EMPTY, steps);
    var s := Run(EMPTY, steps);
    assert AttemptOk(s, tid);
    TrailIsShaped(s.trail[tid]);
  }

  // ---------------------------------------------------------------- what one step can change

  /** The assignment keeps its attempt and moves along an edge or not at all, or a retry
      from a failed, canceled or expired attempt starts the next one. */
  predicate MovesTo(s: Store, a: Assignment, a': Assignment, step: Step) {
    || (a'.currentAttempt == a.currentAttempt && a'.currentNumber == a.currentNumber
        && (a'.state == a.state || Edge(a.state, a'.state))
        && (a.state.Planned? && !a'.state.Planned? ==> step.DoClaim?))
    || (step.DoRetry? && Retryable(a.state) && a'.state.Planned? && a'.currentNumber == a.currentNumber + 1
        && a'.currentAttempt == step.retry.tid && a'.currentAttempt !in s.attempts)
  }

  lemma {:induction false} StepMoves(s: Store, step: Step, id: string)
    requires Invariant(s) && id in s.assignments
    ensures id in Next(s, step).assignments && MovesTo(s, s.assignments[id], Next(s, step).assignments[id], step)
  {
    assert AssignmentOk(s, id);
    assert AttemptOk(s, s.assignments[id].currentAttempt);
    if step.DoRetry? {
      RetryMoves(s, step.read, step.retry, step.commit, id);
    }
  }

  lemma RetryMoves(s: Store, read: Option<Snapshot>, q: RetryRequest, commit: bool, id: string)
    requires Invariant(s) && id in s.assignments && AssignmentOk(s, id)
    requires AttemptOk(s, s.assignments[id].currentAttempt)
    ensures var s' := Retry(s, read, q, commit).0;
            id in s'.assignments && MovesTo(s, s.assignments[id], s'.assignments[id], DoRetry(read, q, commit))
  {
  }

  predicate Superseded(s: Store, tid: string) {
    && tid in s.attempts && tid in s.trail && s.attempts[tid].assignmentID in s.assignments
    && s.assignments[s.attempts[tid].assignmentID].currentAttempt != tid
  }

  /** Superseded attempts are never touched again. */
  lemma SupersededFixed(s: Store, step: Step, tid: string)
    requires Invariant(s) && Superseded(s, tid)
    ensures var s' := Next(s, step);
            Superseded(s', tid) && s'.attempts[tid] == s.attempts[tid] && s'.trail[tid] == s.trail[tid]
  {
  }

  /** An attempt that a retry has replaced never changes again. */
  lemma {:induction false} SupersededForever(s: Store, tid: string, steps: seq<Step>)
    requires Invariant(s) && Superseded(s, tid)
    ensures var s' := Run(s, steps);
            Superseded(s', tid) && s'.attempts[tid] == s.attempts[tid] && s'.trail[tid] == s.trail[tid]
  {
    if steps != [] {
      var init := steps[..|steps| - 1];
      SupersededForever(s, tid, init);
      RunKeeps(s, init);
      SupersededFixed(Run(s, init), steps[|steps| - 1], tid);
    }
  }

  /** An accepted assignment stays accepted, on the same attempt. */
  lemma {:induction false} AcceptedForever(s: Store, id: string, steps: seq<Step>)
    requires Invariant(s) && id in s.assignments && s.assignments[id].state == Accepted
    ensures var s' := Run(s, steps);
            id in s'.assignments && s'.assignments[id].state == Accepted
            && s'.assignments[id].currentAttempt == s.assignments[id].currentAttempt
  {
    if steps != [] {
      var init := steps[..|steps| - 1];
      AcceptedForever(s, id, init);
      RunKeeps(s, init);
      StepMoves(Run(s, init), steps[|steps| - 1], id);
    }
  }

  /** Attempt numbers only rise, one retry at a time. */
  lemma {:induction false} NumbersCountRetries(s: Store, id: string, steps: seq<Step>)
    requires Invariant(s) && id in s.assignments
    ensures id in Run(s, steps).assignments
    ensures var before, after := s.assignments[id].currentNumber, Run(s, steps).assignments[id].currentNumber;
            before <= after <= before + Retries(steps)
  {
    if steps != [] {
      var init := steps[..|steps| - 1];
      NumbersCountRetries(s, id, init);
      RunKeeps(s, init);
      StepMoves(Run(s, init), steps[|steps| - 1], id);
    }
  }

  function Retries(steps: seq<Step>): nat {
    if steps == [] then 0 else Retries(steps[..|steps| - 1]) + if steps[|steps| - 1].DoRetry? then 1 else 0
  }

  /** The lease of `tid` has been released or has expired. */
  predicate LeaseOver(s: Store, tid: string) {
    tid in s.leases && s.leases[tid].state != LeaseActive
  }

  lemma OverNext(s: Store, step: Step, tid: string)
    requires Invariant(s) && LeaseOver(s, tid)
    ensures LeaseOver(Next(s, step), tid) && Next(s, step).leases[tid] == s.leases[tid]
  {
    assert AttemptOk(s, tid);
  }

  lemma {:induction false} OverForever(s: Store, tid: string, steps: seq<Step>)
    requires Invariant(s) && LeaseOver(s, tid)
    ensures LeaseOver(Run(s, steps), tid) && Run(s, steps).leases[tid] == s.leases[tid]
  {
    if steps != [] {
      var init := steps[..|steps| - 1];
      OverForever(s, tid, init);
      RunKeeps(s, init);
      OverNext(Run(s, init), steps[|steps| - 1], tid);
    }
  }

  /** The call is made in the name of attempt `tid`. */
  predicate ActsFor(step: Step, tid: string) {
    || (step.DoBind? && step.bind.tid == tid)
    || (step.DoTransition? && step.transition.tid == tid)
    || (step.DoHeartbeat? && step.heartbeat.tid == tid)
  }

  /** The call is for the current attempt of its assignment, at a time when the lease is active
      and with its fencing digest. */
  predicate UnderFence(s: Store, step: Step, tid: string)
    requires ActsFor(step, tid)
  {
    var (id, digest) :=
      if step.DoBind? then (step.bind.id, step.bind.fencingDigest)
      else if step.DoTransition? then (step.transition.id, step.transition.fencingDigest)
      else (step.heartbeat.id, step.heartbeat.fencingDigest);
    && id in s.assignments && s.assignments[id].currentAttempt == tid && tid in s.leases
    && s.leases[tid].state == LeaseActive && s.leases[tid].fencingDigest == digest && s.leases[tid].expiresAt > step.now
  }

  /** At the end of any run a bind, transition or heartbeat changes the store only under its
      fence, and once its lease has ended or a retry has replaced it, an attempt can change
      nothing any more, whatever happened meanwhile. */
  lemma {:induction false} LostLeaseIsPowerless(s: Store, tid: string, steps: seq<Step>, step: Step)
    requires Invariant(s) && ActsFor(step, tid)
    ensures Next(Run(s, steps), step) != Run(s, steps) ==> UnderFence(Run(s, steps), step, tid)
    ensures LeaseOver(s, tid) || Superseded(s, tid) ==> Next(Run(s, steps), step) == Run(s, steps)
  {
    RunKeeps(s, steps);
    if Superseded(s, tid) { assert AttemptOk(s, tid); }
    if LeaseOver(s, tid) { OverForever(s, tid, steps); }
  }

  /** Assignments of different work packages. */
  ghost predicate WorkPackagesApart(s: Store) {
    forall a, b | a in s.assignments && b in s.assignments ::
      s.assignments[a].workPackage == s.assignments[b].workPackage ==> a == b
  }

  lemma ApartNext(s: Store, step: Step)
    requires WorkPackagesApart(s)
    ensures WorkPackagesApart(Next(s, step))
  {
    if step.DoPlan? { PlanApart(s, step.plan, step.commit); }
    else {
      assert forall id | id in Next(s, step).assignments ::
          id in s.assignments && Next(s, step).assignments[id].workPackage == s.assignments[id].workPackage;
    }
  }

  lemma PlanApart(s: Store, q: PlanRequest, commit: bool)
    requires WorkPackagesApart(s)
    ensures WorkPackagesApart(PlanTx(s, q, commit).0)
  {
  }

  /** In every run a work package has one assignment. */
  lemma {:induction false} OneAssignmentEach(steps: seq<Step>)
    ensures WorkPackagesApart(Run(EMPTY, steps))
  {
    if steps != [] {
      OneAssignmentEach(steps[..|steps| - 1]);
      ApartNext(Run(EMPTY, steps[..|steps| - 1]), steps[|steps| - 1]);
    }
  }

  // ---------------------------------------------------------------- reconciling

  /** The attempt is the current one of a listed assignment, and its active lease has run out. */
  predicate Due(s: Store, ids: seq<string>, tid: string, now: int) {
    && tid in s.attempts && s.attempts[tid].assignmentID in ids && s.attempts[tid].assignmentID in s.assignments
    && s.assignments[s.attempts[tid].assignmentID].currentAttempt == tid
    && tid in s.leases && s.leases[tid].state == LeaseActive && s.leases[tid].expiresAt <= now
  }

  predicate DueAssignment(s: Store, ids: seq<string>, id: string, now: int) {
    id in s.assignments && Due(s, ids, s.assignments[id].currentAttempt, now)
    && s.attempts[s.assignments[id].currentAttempt].assignmentID == id
  }

  ghost predicate AttemptReconciled(s: Store, t: Store, ids: seq<string>, tid: string, now: int)
    requires tid in s.attempts
  {
    && tid in t.attempts
    && t.attempts[tid] == (if Due(s, ids, tid, now) then s.attempts[tid].(state := Expired) else s.attempts[tid])
    && (tid in s.leases <==> tid in t.leases)
    && (tid in s.leases ==>
          t.leases[tid] == if Due(s, ids, tid, now) then s.leases[tid].(state := LeaseExpired) else s.leases[tid])
  }

  ghost predicate AssignmentReconciled(s: Store, t: Store, ids: seq<string>, id: string, now: int)
    requires id in s.assignments
  {
    && id in t.assignments
    && t.assignments[id]
       == if DueAssignment(s, ids, id, now) then s.assignments[id].(state := Expired) else s.assignments[id]
  }

  /** Exactly what is due has expired. */
  ghost predicate Reconciled(s: Store, t: Store, ids: seq<string>, now: int) {
    && t.assignments.Keys == s.assignments.Keys && t.attempts.Keys == s.attempts.Keys && t.leases.Keys == s.leases.Keys
    && (forall tid {:trigger AttemptReconciled(s, t, ids, tid, now)} | tid in s.attempts ::
          AttemptReconciled(s, t, ids, tid, now))
    && (forall id {:trigger AssignmentReconciled(s, t, ids, id, now)} | id in s.assignments ::
          AssignmentReconciled(s, t, ids, id, now))
    && t.leaseIDs == s.leaseIDs && t.resources == s.resources && t.operations == s.operations
  }

  /** Under the invariant a lapsed lease of a current attempt can always be ended. */
  lemma CanExpire(s: Store, tid: string)
    requires Invariant(s) && tid in s.attempts && tid in s.leases && s.leases[tid].state == LeaseActive
    requires s.attempts[tid].assignmentID in s.assignments
    requires s.assignments[s.attempts[tid].assignmentID].currentAttempt == tid
    ensures !Terminal(s.attempts[tid].state) && CanSet(s, s.attempts[tid].assignmentID, tid, s.attempts[tid].state)
  {
    assert AttemptOk(s, tid);
  }

  lemma {:induction false} OneIsReconciled(s: Store, id: string, now: int)
    requires Invariant(s)
    ensures Reconciled(s, ReconcileOne(s, id, now), [id], now)
  {
    var t := ReconcileOne(s, id, now);
    if id in s.assignments {
      assert AssignmentOk(s, id);
      var tid := s.assignments[id].currentAttempt;
      if tid in s.leases && s.leases[tid].state == LeaseActive { CanExpire(s, tid); }
    }
    forall tid | tid in s.attempts ensures AttemptReconciled(s, t, [id], tid, now) { assert AttemptOk(s, tid); }
    forall x | x in s.assignments ensures AssignmentReconciled(s, t, [id], x, now) { assert AssignmentOk(s, x); }
  }

  lemma Compose(s: Store, u: Store, t: Store, done: seq<string>, id: string, now: int)
    requires Invariant(s) && Reconciled(s, u, done, now) && Reconciled(u, t, [id], now)
    ensures Reconciled(s, t, done + [id], now)
  {
    forall tid | tid in s.attempts ensures AttemptReconciled(s, t, done + [id], tid, now) {
      AttemptComposes(s, u, t, done, id, tid, now);
    }
    forall x | x in s.assignments ensures AssignmentReconciled(s, t, done + [id], x, now) {
      assert AssignmentReconciled(s, u, done, x, now) && AssignmentReconciled(u, t, [id], x, now);
      assert AssignmentOk(s, x);
      AttemptComposes(s, u, t, done, id, s.assignments[x].currentAttempt, now);
    }
  }

  lemma AttemptComposes(s: Store, u: Store, t: Store, done: seq<string>, id: string, tid: string, now: int)
    requires Invariant(s) && Reconciled(s, u, done, now) && Reconciled(u, t, [id], now) && tid in s.attempts
    ensures AttemptReconciled(s, t, done + [id], tid, now)
    ensures Due(s, done + [id], tid, now) <==> Due(s, done, tid, now) || Due(u, [id], tid, now)
  {
    assert AttemptReconciled(s, u, done, tid, now) && AttemptReconciled(u, t, [id], tid, now);
    assert AttemptOk(s, tid);
    assert AssignmentReconciled(s, u, done, s.attempts[tid].assignmentID, now);
  }

  /** Reconciling a list expires exactly the listed current attempts whose active lease has run out,
      their leases with them, and leaves everything else as it was. */
  lemma {:induction false} ReconcileMeans(s: Store, ids: seq<string>, now: int)
    requires Invariant(s)
    ensures Reconciled(s, Reconcile(s, ids, now), ids, now) && Invariant(Reconcile(s, ids, now))
  {
    if ids == [] {
      forall tid | tid in s.attempts ensures AttemptReconciled(s, s, ids, tid, now) { }
      forall x | x in s.assignments ensures AssignmentReconciled(s, s, ids, x, now) { }
    } else {
      var init, last := ids[..|ids| - 1], ids[|ids| - 1];
      ReconcileMeans(s, init, now);
      var u := Reconcile(s, init, now);
      OneIsReconciled(u, last, now);
      ReconcileKeeps(u, last, now);
      Compose(s, u, ReconcileOne(u, last, now), init, last, now);
      assert ids == init + [last];
    }
  }

  /** Afterwards no listed assignment is held under a lease that has run out. */
  lemma {:induction false} NothingLapsedRemains(s: Store, ids: seq<string>, now: int, tid: string)
    requires Invariant(s)
    ensures !Due(Reconcile(s, ids, now), ids, tid, now)
  {
    ReconcileMeans(s, ids, now);
    var t := Reconcile(s, ids, now);
    if tid in s.attempts {
      assert AttemptReconciled(s, t, ids, tid, now);
      assert AttemptOk(s, tid);
      assert AssignmentReconciled(s, t, ids, s.attempts[tid].assignmentID, now);
    }
  }

  // ---------------------------------------------------------------- the service object

  /** Service calls against one store, each reading before it writes. */
  class ControlService {
    var store: Store

    constructor ()
      ensures store == EMPTY && Invariant(store)
    {
      store := EMPTY;
    }

    method Plan(q: PlanRequest, commit: bool) returns (r: Outcome)
      requires Invariant(store)
      modifies this
      ensures (store, r) == PlanTx(old(store), q, commit) && Invariant(store)
      ensures r == Written ==>
        && q.id !in old(store).assignments && q.tid !in old(store).attempts
        && !WorkPackageTaken(old(store), q.workPackage)
        && store.assignments.Keys == old(store).assignments.Keys + {q.id}
        && store.assignments[q.id].workPackage == q.workPackage
        && store.assignments[q.id].state == Planned && store.assignments[q.id].currentAttempt == q.tid
        && store.assignments[q.id].currentNumber == 1 && store.attempts[q.tid].state == Planned
        && q.tid !in store.leases
      ensures r != Written ==> store == old(store)
    {
      PlanKeeps(store, q, commit);
      var result := PlanTx(store, q, commit);
      store, r := result.0, result.1;
      if r == Written { assert AttemptOk(store, q.tid); }
    }

    method Claim(q: ClaimRequest, now: int, duration: int, commit: bool) returns (r: Outcome)
      requires Invariant(store)
      modifies this
      ensures (store, r) == ClaimTx(old(store), q, now + duration, commit) && Invariant(store)
      ensures r == Written ==>
        && CanSet(old(store), q.id, q.tid, Planned) && q.leaseID !in old(store).leaseIDs
        && store.assignments[q.id].state == Leased && store.attempts[q.tid].state == Leased
        && q.tid in store.leases
        && store.leases[q.tid] == Lease(q.leaseID, 1, q.fencingDigest, LeaseActive, now + duration)
      ensures r != Written ==> store == old(store)
    {
      ClaimKeeps(store, q, now + duration, commit);
      if q.tid in store.attempts { assert AttemptOk(store, q.tid); }
      var result := ClaimTx(store, q, now + duration, commit);
      store, r := result.0, result.1;
    }

    method TransitionNow(q: TransitionRequest, now: int, commit: bool) returns (r: Outcome)
      requires Invariant(store)
      modifies this
      ensures (store, r) == Transition(old(store), Read(old(store), q.id), q, now, commit) && Invariant(store)
      ensures r == Written ==>
        && Edge(old(store).assignments[q.id].state, q.target) && store.assignments[q.id].state == q.target
        && store.attempts[q.tid].state == q.target
    {
      TransitionKeeps(store, Read(store, q.id), q, now, commit);
      if q.generation < 1 { return Invalid; }
      var current := Read(store, q.id);
      if current.None? { return NotFound; }
      if current.value.tid != q.tid || current.value.attempt.leaseGeneration != q.generation { return StaleFence; }
      if !Allowed(current.value.attempt.state, q.target) { return BadTransition; }
      assert AttemptOk(store, q.tid);
      var result := TransitionTx(store, q, current.value.attempt.state, now, commit);
      store, r := result.0, result.1;
    }

    method RetryNow(q: RetryRequest, commit: bool) returns (r: Outcome)
      requires Invariant(store)
      modifies this
      ensures (store, r) == Retry(old(store), Read(old(store), q.id), q, commit) && Invariant(store)
      ensures r == Written ==>
        && Retryable(old(store).assignments[q.id].state) && q.tid !in old(store).attempts
        && store.assignments[q.id].currentAttempt == q.tid && store.assignments[q.id].state == Planned
        && store.assignments[q.id].currentNumber == old(store).assignments[q.id].currentNumber + 1
    {
      NextKeeps(store, DoRetry(Read(store, q.id), q, commit));
      var current := Read(store, q.id);
      if current.None? { return NotFound; }
      assert AssignmentOk(store, q.id) && AttemptOk(store, current.value.tid);
      var replay := current.value.tid == q.tid;
      if !replay && (current.value.tid != q.previous || !Retryable(current.value.attempt.state)) {
        return BadTransition;
      }
      if !replay && current.value.attempt.idempotencyDigest == q.idempotencyDigest { return StoreConflict; }
      var workerID := if q.workerID == "" then current.value.workerID else q.workerID;
      var number := if replay then current.value.attempt.number else current.value.attempt.number + 1;
      var result := RetryTx(store, q, number, workerID, commit);
      store, r := result.0, result.1;
    }

    /** `Reconcile`: every listed assignment in turn. */
    method ReconcileAll(ids: seq<string>, now: int)
      requires Invariant(store)
      modifies this
      ensures store == Reconcile(old(store), ids, now) && Invariant(store)
      ensures Reconciled(old(store), store, ids, now)
      ensures forall tid :: !Due(store, ids, tid, now)
    {
      for i := 0 to |ids|
        invariant store == Reconcile(old(store), ids[..i], now) && Invariant(store)
      {
        ReconcileKeeps(store, ids[i], now);
        assert ids[..i + 1][..i] == ids[..i];
        store := ReconcileOne(store, ids[i], now);
      }
      assert ids[..|ids|] == ids;
      ReconcileMeans(old(store), ids, now);
      forall tid ensures !Due(store, ids, tid, now) { NothingLapsedRemains(old(store), ids, now, tid); }
    }
  }
}

/** When each control call is written, what it then changes, and that nothing else changes. */
module ControlOutcomes {
  import opened Control

  // ---------------------------------------------------------------- the state table

  /** The moves a transition may ask for. */
  const MOVES: set<(State, State)> := {
    (Planned, Leased), (Planned, Canceled), (Leased, Preparing), (Leased, Expired), (Leased, Canceled),
    (Preparing, Running), (Preparing, Paused), (Preparing, Collecting), (Preparing, Failed), (Preparing, Canceled),
    (Preparing, Expired), (Running, Paused), (Running, Collecting), (Running, Failed), (Running, Canceled),
    (Running, Expired), (Paused, Running), (Paused, Collecting), (Paused, Failed), (Paused, Canceled),
    (Paused, Expired), (Collecting, AwaitingGates), (Collecting, Failed), (Collecting, Canceled),
    (AwaitingGates, Accepted), (AwaitingGates, Failed), (AwaitingGates, Canceled)}

  lemma {:induction false} TableIs(a: State, b: State)
    ensures Allowed(a, b) <==> (a, b) in MOVES
  {
  }

  // ---------------------------------------------------------------- what a call leaves alone

  /** Everything but this assignment, this attempt and its lease is as it was. */
  ghost predicate OthersStand(s: Store, t: Store, id: string, tid: string) {
    && t.assignments.Keys == s.assignments.Keys + {id} && t.attempts.Keys == s.attempts.Keys + {tid}
    && (forall x | x in s.assignments && x != id :: t.assignments[x] == s.assignments[x])
    && (forall x | x in s.attempts && x != tid :: t.attempts[x] == s.attempts[x])
    && (forall x | x != tid :: (x in s.leases <==> x in t.leases) && (x in s.leases ==> t.leases[x] == s.leases[x]))
  }

  /** The call is on record under its operation. */
  predicate OnRecord(s: Store, t: Store, op: string, digest: string, id: string) {
    t.operations == s.operations[op := (digest, id)]
  }

  // ---------------------------------------------------------------- operations replay

  lemma OperationsNext(s: Store, step: Step, op: string)
    requires op in s.operations
    ensures op in Next(s, step).operations && Next(s, step).operations[op] == s.operations[op]
  {
  }

  lemma {:induction false} OperationsStay(s: Store, steps: seq<Step>, op: string)
    requires op in s.operations
    ensures op in Run(s, steps).operations && Run(s, steps).operations[op] == s.operations[op]
  {
    if steps != [] {
      OperationsStay(s, steps[..|steps| - 1], op);
      OperationsNext(Run(s, steps[..|steps| - 1]), steps[|steps| - 1], op);
    }
  }

  predicate AsksFor(step: Step, op: string) {
    || (step.DoPlan? && step.plan.op == op) || (step.DoClaim? && step.claim.op == op)
    || (step.DoBind? && step.bind.op == op) || (step.DoTransition? && step.transition.op == op)
    || (step.DoRetry? && step.retry.op == op)
  }

  /** An operation is carried out once: after any run, asking for it again changes nothing. */
  lemma {:induction false} OperationsAreOnce(s: Store, steps: seq<Step>, op: string, step: Step)
    requires op in s.operations && AsksFor(step, op)
    ensures Next(Run(s, steps), step) == Run(s, steps)
  {
    OperationsStay(s, steps, op);
  }

  /** A recorded operation is answered as present to its own digest, and as a conflict to any other. */
  lemma {:induction false} ReplayAnswers(s: Store, steps: seq<Step>, q: ClaimRequest, p: PlanRequest, b: BindRequest,
                                         expiresAt: int, now: int, commit: bool)
    ensures var t := Run(s, steps);
            && (q.op in s.operations ==>
                  ClaimTx(t, q, expiresAt, commit).1 ==
                    if s.operations[q.op].0 == q.opDigest then AlreadyPresent else StoreConflict)
            && (p.op in s.operations ==>
                  PlanTx(t, p, commit).1 ==
                    if s.operations[p.op].0 == p.opDigest then AlreadyPresent else StoreConflict)
            && (b.op in s.operations ==>
                  BindTx(t, b, now, commit).1 ==
                    if s.operations[b.op].0 == b.opDigest then AlreadyPresent else StoreConflict)
  {
    if q.op in s.operations { OperationsStay(s, steps, q.op); }
    if p.op in s.operations { OperationsStay(s, steps, p.op); }
    if b.op in s.operations { OperationsStay(s, steps, b.op); }
  }

  // ---------------------------------------------------------------- plan and claim

  /** A new operation plans exactly a new assignment of a free work package, under a new attempt. */
  lemma {:induction false} PlanOutcome(s: Store, q: PlanRequest, commit: bool)
    requires q.op !in s.operations
    ensures var (t, r) := PlanTx(s, q, commit);
            && (r == Written <==>
                  q.id !in s.assignments && !WorkPackageTaken(s, q.workPackage) && q.tid !in s.attempts && commit)
            && (r == Written ==>
                  && OthersStand(s, t, q.id, q.tid) && OnRecord(s, t, q.op, q.opDigest, q.id)
                  && t.assignments[q.id].workPackage == q.workPackage && t.assignments[q.id].workerID == q.workerID
                  && t.assignments[q.id].contractDigest == q.contractDigest && t.assignments[q.id].state == Planned
                  && t.assignments[q.id].currentAttempt == q.tid && t.assignments[q.id].currentNumber == 1
                  && t.assignments[q.id].idempotencyDigest == q.idempotencyDigest
                  && t.attempts[q.tid].assignmentID == q.id && t.attempts[q.tid].number == 1
                  && t.attempts[q.tid].state == Planned && t.attempts[q.tid].idempotencyDigest == q.idempotencyDigest)
            && (r != Written ==> t == s)
            && (r == AlreadyPresent <==>
                  && q.id in s.assignments && s.assignments[q.id].currentAttempt == q.tid
                  && s.assignments[q.id].idempotencyDigest == q.idempotencyDigest
                  && s.assignments[q.id].contractDigest == q.contractDigest)
  {
  }

  /** A new operation leases exactly a planned current attempt under a new lease. */
  lemma {:induction false} ClaimOutcome(s: Store, q: ClaimRequest, expiresAt: int, commit: bool)
    requires Invariant(s) && q.op !in s.operations
    ensures var (t, r) := ClaimTx(s, q, expiresAt, commit);
            && (r == Written <==>
                  && q.id in s.assignments && s.assignments[q.id].currentAttempt == q.tid
                  && s.assignments[q.id].state == Planned && q.leaseID !in s.leaseIDs && commit)
            && (r == Written ==>
                  && OthersStand(s, t, q.id, q.tid) && OnRecord(s, t, q.op, q.opDigest, q.id)
                  && t.assignments[q.id] == s.assignments[q.id].(state := Leased) && t.attempts[q.tid].state == Leased
                  && q.tid in t.leases && t.leases[q.tid].leaseID == q.leaseID && t.leases[q.tid].generation == 1
                  && t.leases[q.tid].fencingDigest == q.fencingDigest && t.leases[q.tid].state == LeaseActive
                  && t.leases[q.tid].expiresAt == expiresAt && t.leaseIDs == s.leaseIDs + {q.leaseID})
            && (r != Written ==> t == s && r == if q.id in s.assignments then StoreConflict else NotFound)
  {
    if q.id in s.assignments {
      assert AssignmentOk(s, q.id);
      assert AttemptOk(s, s.assignments[q.id].currentAttempt);
    }
    if q.tid in s.attempts { assert AttemptOk(s, q.tid); }
  }

  // ---------------------------------------------------------------- under the fence

  /** The caller presents the fence of the current attempt while its lease is active. */
  predicate Presents(s: Store, id: string, tid: string, generation: int, digest: string, now: int) {
    && id in s.assignments && s.assignments[id].currentAttempt == tid && tid in s.leases
    && s.leases[tid].state == LeaseActive && s.leases[tid].generation == generation
    && s.leases[tid].fencingDigest == digest && now < s.leases[tid].expiresAt
  }

  lemma FenceIsPresented(s: Store, id: string, tid: string, expected: State, generation: int, digest: string, now: int)
    requires Invariant(s)
    ensures Fenced(s, id, tid, expected, generation, digest, now) <==>
      Presents(s, id, tid, generation, digest, now) && s.assignments[id].state == expected
  {
    if id in s.assignments {
      assert AssignmentOk(s, id);
      assert AttemptOk(s, s.assignments[id].currentAttempt);
    }
  }

  /** A new operation binds resources exactly once, to a leased attempt, under its fence. */
  lemma {:induction false} BindOutcome(s: Store, q: BindRequest, now: int, commit: bool)
    requires Invariant(s) && q.op !in s.operations
    ensures var (t, r) := BindTx(s, q, now, commit);
            && (r == Written <==>
                  && Presents(s, q.id, q.tid, q.generation, q.fencingDigest, now) && s.assignments[q.id].state == Leased
                  && q.tid !in s.resources && commit)
            && (r == Written ==>
                  && OthersStand(s, t, q.id, q.tid) && OnRecord(s, t, q.op, q.opDigest, q.id) && t.leases == s.leases
                  && t.assignments[q.id] == s.assignments[q.id].(state := Preparing)
                  && t.attempts[q.tid].state == Preparing && t.resources == s.resources + {q.tid})
            && (r != Written ==> t == s && r == StaleFence)
  {
    FenceIsPresented(s, q.id, q.tid, Leased, q.generation, q.fencingDigest, now);
    if q.tid in s.attempts { assert AttemptOk(s, q.tid); }
  }

  /** What happens to the lease of an attempt that moves. */
  function LeaseAfter(l: Lease, target: State): Lease {
    match target
    case Accepted => l.(state := LeaseReleased)
    case Failed => l.(state := LeaseReleased)
    case Canceled => l.(state := LeaseReleased)
    case Expired => l.(state := LeaseExpired)
    case _ => l
  }

  /** On what the service has just read, a new operation moves the attempt exactly along the table
      and under its fence, and ends its lease exactly when it ends. */
  lemma {:induction false} TransitionOutcome(s: Store, q: TransitionRequest, now: int, commit: bool)
    requires Invariant(s) && q.op !in s.operations
    ensures var (t, r) := Transition(s, Read(s, q.id), q, now, commit);
            && (r == Written <==>
                  && Presents(s, q.id, q.tid, q.generation, q.fencingDigest, now)
                  && (s.assignments[q.id].state, q.target) in MOVES && commit)
            && (r == Written ==>
                  && OthersStand(s, t, q.id, q.tid) && OnRecord(s, t, q.op, q.opDigest, q.id)
                  && t.assignments[q.id] == s.assignments[q.id].(state := q.target)
                  && t.attempts[q.tid].state == q.target && t.leases[q.tid] == LeaseAfter(s.leases[q.tid], q.target)
                  && t.resources == s.resources)
            && (r != Written ==> t == s)
  {
    if q.id in s.assignments {
      var state := s.assignments[q.id].state;
      assert AssignmentOk(s, q.id);
      assert AttemptOk(s, s.assignments[q.id].currentAttempt);
      TableIs(state, q.target);
      FenceIsPresented(s, q.id, q.tid, state, q.generation, q.fencingDigest, now);
    }
  }

  /** A heartbeat extends exactly a lease presented by its ID and fence while it is active. */
  lemma {:induction false} HeartbeatOutcome(s: Store, q: HeartbeatRequest, now: int, extendBy: int)
    ensures var (t, r) := HeartbeatTx(s, q, now, extendBy);
            && (r == Written <==>
                  && Presents(s, q.id, q.tid, q.generation, q.fencingDigest, now)
                  && s.leases[q.tid].leaseID == q.leaseID && extendBy > 0)
            && (r == Written ==> t == s.(leases := s.leases[q.tid := s.leases[q.tid].(expiresAt := now + extendBy)]))
            && (r != Written ==> t == s && r == StaleFence)
  {
  }

  /** A live lease that is renewed in time does not lapse: until the new time it is not due. */
  lemma {:induction false} HeartbeatHolds(s: Store, q: HeartbeatRequest, now: int, extendBy: int,
                                          ids: seq<string>, later: int)
    requires HeartbeatTx(s, q, now, extendBy).1 == Written && later < now + extendBy
    ensures !Due(HeartbeatTx(s, q, now, extendBy).0, ids, q.tid, later)
  {
  }

  // ---------------------------------------------------------------- retry

  /** On what the service has just read, a new operation retries exactly an attempt that has failed,
      was canceled or expired, under a new attempt and a new digest; the next number is its own, the
      worker is the one named or else the one before. */
  lemma {:induction false} RetryOutcome(s: Store, q: RetryRequest, commit: bool)
    requires Invariant(s) && q.op !in s.operations
    requires q.id in s.assignments && q.tid != s.assignments[q.id].currentAttempt
    ensures var (t, r) := Retry(s, Read(s, q.id), q, commit);
            var a := s.assignments[q.id];
            var worker := if q.workerID == "" then a.workerID else q.workerID;
            && (r == Written <==>
                  && a.currentAttempt == q.previous && a.state in {Failed, Canceled, Expired} && worker != ""
                  && q.tid !in s.attempts && !DigestTaken(s, q.id, q.idempotencyDigest) && commit)
            && (r == Written ==>
                  && OthersStand(s, t, q.id, q.tid) && OnRecord(s, t, q.op, q.opDigest, q.id) && t.leases == s.leases
                  && t.assignments[q.id] == a.(state := Planned, currentAttempt := q.tid, workerID := worker,
                                               currentNumber := a.currentNumber + 1,
                                               idempotencyDigest := q.idempotencyDigest)
                  && t.attempts[q.tid].assignmentID == q.id && t.attempts[q.tid].number == a.currentNumber + 1
                  && t.attempts[q.tid].state == Planned && t.attempts[q.tid].idempotencyDigest == q.idempotencyDigest)
            && (r != Written ==> t == s)
  {
    assert AssignmentOk(s, q.id);
    assert AttemptOk(s, s.assignments[q.id].currentAttempt);
    var current := s.attempts[s.assignments[q.id].currentAttempt];
    assert current.idempotencyDigest == q.idempotencyDigest ==> DigestTaken(s, q.id, q.idempotencyDigest);
  }
}

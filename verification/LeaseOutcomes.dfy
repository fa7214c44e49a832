/** What holding a node lease is worth: when it is granted, how long it lasts, and what ends it. */
module LeaseOutcomes {
  import opened Text
  import opened Leases

  /** A new valid key is granted exactly when there is room; the lease is then held, at its first
      generation, for the time asked for. */
  lemma {:induction false} AcquireOutcome(p: Rules, s: State, r: AcquireRequest, clock: Clock)
    requires AcquireValid(p, r) && r.key !in s.acquisitions
    ensures var (t, reply) := Acquire(p, s, r, clock);
            var live := Live(s.leases, clock.expiry);
            if p.room(|live|, clock.check) then
              && reply.Granted? && reply.lease.leaseID in t.leases && t.leases[reply.lease.leaseID] == reply.lease
              && reply.lease.owner == r.owner && reply.lease.node == r.node && reply.lease.generation == 1
              && reply.lease.acquiredAt == clock.stamp && reply.lease.expiresAt - reply.lease.acquiredAt == r.duration
              && (forall id | id != reply.lease.leaseID ::
                    (id in t.leases <==> id in live) && (id in live ==> t.leases[id] == live[id]))
            else reply == NodeUnavailable && t == s.(leases := live)
  {
  }

  /** What a request must be: for this node, by an assignment, for some time, under a digest. */
  lemma {:induction false} InvalidIsRefused(p: Rules, s: State, r: AcquireRequest, clock: Clock)
    ensures Acquire(p, s, r, clock).1 == InvalidNode <==>
      r.node != p.node || !p.named(r.owner, "assignment:") || r.duration <= 0 || !ValidDigest(r.key)
    ensures Acquire(p, s, r, clock).1 == InvalidNode ==> Acquire(p, s, r, clock).0 == s
  {
  }

  /** A lease is live exactly before the time it runs out, and is kept as it is. */
  lemma {:induction false} LiveMeans(leases: map<string, Lease>, now: int, id: string)
    ensures id in Live(leases, now) <==> id in leases && now < leases[id].expiresAt
    ensures id in Live(leases, now) ==> Live(leases, now)[id] == leases[id]
  {
  }

  /** The call concerns this lease by name: it renews or releases it, or acquires it anew. */
  predicate Concerns(p: Rules, op: Op, id: string) {
    match op
    case AcquireOp(r) => p.name(r.owner, r.key) == id
    case RenewOp(r) => r.leaseID == id
    case ReleaseOp(leaseID, _, _) => leaseID == id
    case ObserveOp => false
  }

  /** No call concerns the lease, and none expires what is over at a time when the lease is. */
  predicate LeftAlone(p: Rules, calls: seq<Call>, lease: Lease) {
    forall i | 0 <= i < |calls| :: !Concerns(p, calls[i].op, lease.leaseID) && calls[i].clock.expiry < lease.expiresAt
  }

  lemma LastsNext(p: Rules, s: State, call: Call, lease: Lease)
    requires lease.leaseID in s.leases && s.leases[lease.leaseID] == lease
    requires !Concerns(p, call.op, lease.leaseID) && call.clock.expiry < lease.expiresAt
    ensures var t := Step(p, s, call.op, call.clock).0; lease.leaseID in t.leases && t.leases[lease.leaseID] == lease
  {
  }

  /** A lease lasts: while its time has not run out, whatever others do leaves it held unchanged. */
  lemma {:induction false} LeaseLasts(p: Rules, s: State, calls: seq<Call>, lease: Lease)
    requires lease.leaseID in s.leases && s.leases[lease.leaseID] == lease && LeftAlone(p, calls, lease)
    ensures lease.leaseID in Run(p, s, calls).leases && Run(p, s, calls).leases[lease.leaseID] == lease
    decreases |calls|
  {
    if calls != [] {
      LastsNext(p, s, calls[0], lease);
      LeaseLasts(p, Step(p, s, calls[0].op, calls[0].clock).0, calls[1..], lease);
    }
  }

  /** A call that expires what is over at or after the lease's time takes it out, unless it is a
      replay or is refused for its form. */
  lemma {:induction false} LeaseRunsOut(p: Rules, s: State, id: string, clock: Clock)
    requires id in s.leases && s.leases[id].expiresAt <= clock.expiry
    ensures id !in Step(p, s, ObserveOp, clock).0.leases
    ensures forall owner, generation :: id !in Release(s, id, owner, generation, clock).0.leases
    ensures forall owner, generation :: Release(s, id, owner, generation, clock).1 == LeaseNotFound
  {
  }

  /** A release takes effect exactly for the owner at the current generation of a live lease, which is
      then gone, and no other with it. */
  lemma {:induction false} ReleaseOutcome(s: State, id: string, owner: string, generation: int, clock: Clock)
    ensures var (t, reply) := Release(s, id, owner, generation, clock);
            var live := Live(s.leases, clock.expiry);
            && (reply == Released <==>
                  && id in s.leases && clock.expiry < s.leases[id].expiresAt && s.leases[id].owner == owner
                  && s.leases[id].generation == generation)
            && (reply == Released ==> id !in t.leases && t.leases == map x | x in live && x != id :: live[x])
            && (reply == LeaseNotFound <==> id !in s.leases || s.leases[id].expiresAt <= clock.expiry)
            && (reply != Released ==> t.leases == live)
            && t.acquisitions == s.acquisitions && t.renewals == s.renewals
  {
  }

  /** Once released it is never held again, in any later run. */
  lemma {:induction false} ReleasedForGood(p: Rules, s: State, id: string, owner: string, generation: int, clock: Clock,
                                           calls: seq<Call>)
    requires Sound(p, s) && NamesDiffer(p) && Release(s, id, owner, generation, clock).1 == Released
    ensures id !in Run(p, Release(s, id, owner, generation, clock).0, calls).leases
  {
    var t := Release(s, id, owner, generation, clock).0;
    assert Step(p, s, ReleaseOp(id, owner, generation), clock).0 == t;
    StepKeeps(p, s, ReleaseOp(id, owner, generation), clock);
    assert Issued(s, id);
    var k :| k in s.acquisitions && s.acquisitions[k].lease.leaseID == id;
    assert k in t.acquisitions;
    RetiredForever(p, t, calls, id);
  }

  /** A renewed lease keeps its name, node, owner and date, and lasts as long as was asked for from the
      time it is stamped. */
  lemma {:induction false} RenewKeepsIdentity(p: Rules, s: State, r: RenewRequest, clock: Clock)
    requires Sound(p, s) && r.key !in s.renewals && Renew(p, s, r, clock).1.Granted?
    ensures var (t, reply) := Renew(p, s, r, clock);
            && r.leaseID in s.leases && r.leaseID in t.leases && t.leases[r.leaseID] == reply.lease
            && reply.lease == s.leases[r.leaseID].(generation := r.generation + 1,
                                                    expiresAt := clock.stamp + r.duration)
  {
    RenewTakesEffect(p, s, r, clock);
  }
}

/** The two lease providers as the objects they are: maps changed in place under a lock, so
    each method is one atomic step. Clock readings are parameters, in the order they are taken. */
module LeaseProviders {
  import opened Text
  import opened ComputeNode
  import opened Leases

  /** `expireLocked` and `expire`: walk the map in any order and delete what is over. */
  method Expire(leases: map<string, Lease>, now: int) returns (live: map<string, Lease>)
    ensures live == Live(leases, now)
  {
    live := leases;
    var pending := leases.Keys;
    while pending != {}
      invariant pending <= leases.Keys
      invariant live == map id | id in leases && (id in pending || now < leases[id].expiresAt) :: leases[id]
      decreases |pending|
    {
      var id :| id in pending;
      pending := pending - {id};
      if !(now < leases[id].expiresAt) { live := live - {id}; }
    }
  }

  class LocalNodeProvider {
    const node: Binding
    const max: int
    const short: string -> string
    var leases: map<string, Lease>
    var acquisitions: map<string, Replay<AcquireRequest>>
    var renewals: map<string, Replay<RenewRequest>>

    /** The source refuses to construct a provider outside these bounds. */
    constructor (node: Binding, max: int, short: string -> string)
      requires 1 <= max <= 2
      ensures Now() == EMPTY && this.node == node && this.max == max && this.short == short
    {
      this.node, this.max, this.short := node, max, short;
      leases, acquisitions, renewals := map[], map[], map[];
    }

    ghost function Now(): State reads this { State(leases, acquisitions, renewals) }
    ghost function Protocol(): Rules { LocalRules(node, max, short) }

    method Grant(r: AcquireRequest, stamp: int) returns (lease: Lease)
      modifies this
      ensures lease == NewLease(Protocol(), r, stamp)
      ensures Now() == State(old(leases)[lease.leaseID := lease], old(acquisitions)[r.key := Replay(r, lease)],
                             old(renewals))
    {
      lease := Lease(LEASE + short(LocalText(r.owner, r.key)), node, r.owner, 1, stamp, stamp + r.duration);
      leases := leases[lease.leaseID := lease];
      acquisitions := acquisitions[r.key := Replay(r, lease)];
    }

    method AcquireLease(r: AcquireRequest, expiry: int, stamp: int) returns (reply: Reply)
      modifies this
      ensures forall check :: (Now(), reply) == Acquire(Protocol(), old(Now()), r, Clock(expiry, check, stamp))
    {
      if r.node != node || !HasPrefix(r.owner, "assignment:") || r.duration <= 0 || !ValidDigest(r.key) {
        return InvalidNode;
      }
      if r.key in acquisitions {
        var replay := acquisitions[r.key];
        return if replay.request != r then LeaseConflict else Granted(replay.lease);
      }
      leases := Expire(leases, expiry);
      if |leases| >= max { return NodeUnavailable; }
      var lease := Grant(r, stamp);
      reply := Granted(lease);
    }

    method RenewLease(r: RenewRequest, expiry: int, stamp: int) returns (reply: Reply)
      modifies this
      ensures forall check :: (Now(), reply) == Renew(Protocol(), old(Now()), r, Clock(expiry, check, stamp))
    {
      if !HasPrefix(r.leaseID, "lease:") || !HasPrefix(r.owner, "assignment:") || r.generation < 1 || r.duration <= 0
         || !ValidDigest(r.key) {
        return InvalidNode;
      }
      if r.key in renewals {
        var replay := renewals[r.key];
        return if replay.request != r then LeaseConflict else Granted(replay.lease);
      }
      leases := Expire(leases, expiry);
      if r.leaseID !in leases { return LeaseNotFound; }
      var lease := leases[r.leaseID];
      if lease.owner != r.owner || lease.generation != r.generation { return LeaseConflict; }
      lease := lease.(generation := lease.generation + 1, expiresAt := stamp + r.duration);
      leases := leases[r.leaseID := lease];
      renewals := renewals[r.key := Replay(r, lease)];
      reply := Granted(lease);
    }

    method ReleaseLease(leaseID: string, owner: string, generation: int, expiry: int) returns (reply: Reply)
      modifies this
      ensures forall check, stamp ::
        (Now(), reply) == Release(old(Now()), leaseID, owner, generation, Clock(expiry, check, stamp))
    {
      leases := Expire(leases, expiry);
      if leaseID !in leases { return LeaseNotFound; }
      var lease := leases[leaseID];
      if lease.owner != owner || lease.generation != generation { return LeaseConflict; }
      leases := leases - {leaseID};
      reply := Released;
    }

    /** `Observe` reports the number of live leases. */
    method ActiveLeases(expiry: int) returns (count: nat)
      modifies this
      ensures Now() == old(Now()).(leases := Live(old(leases), expiry)) && count == |leases|
    {
      leases := Expire(leases, expiry);
      count := |leases|;
    }
  }

  class DeterministicFake {
    const hash: Definition -> string
    const definition: Definition
    const observation: Observation
    const short: string -> string
    var leases: map<string, Lease>
    var acquisitions: map<string, Replay<AcquireRequest>>
    var renewals: map<string, Replay<RenewRequest>>

    constructor (hash: Definition -> string, definition: Definition, observation: Observation, short: string -> string)
      requires FakeAccepts(hash, definition, observation)
      ensures Now() == EMPTY && FakeAccepts(this.hash, this.definition, this.observation)
      ensures this.definition == definition && this.observation == observation && this.hash == hash
      ensures this.short == short
    {
      this.hash, this.definition, this.observation, this.short := hash, definition, observation, short;
      leases, acquisitions, renewals := map[], map[], map[];
    }

    ghost function Now(): State reads this { State(leases, acquisitions, renewals) }
    ghost function Protocol(): Rules { FakeRules(hash, definition, observation, short) }

    /** The node as observed, with the number of live leases filled in, is eligible. */
    method HasRoom(count: nat, now: int) returns (room: bool)
      ensures room == Protocol().room(count, now)
    {
      var eligible, _ := Evaluate(hash, definition, observation.(activeLeases := count), NO_REQUIREMENTS, now);
      return eligible;
    }

    method Grant(r: AcquireRequest, stamp: int) returns (lease: Lease)
      requires r.node == NodeOf(definition)
      modifies this
      ensures lease == NewLease(Protocol(), r, stamp)
      ensures Now() == State(old(leases)[lease.leaseID := lease], old(acquisitions)[r.key := Replay(r, lease)],
                             old(renewals))
    {
      lease := Lease(LEASE + short(r.owner + r.key), r.node, r.owner, 1, stamp, stamp + r.duration);
      leases := leases[lease.leaseID := lease];
      acquisitions := acquisitions[r.key := Replay(r, lease)];
    }

    method AcquireLease(r: AcquireRequest, clock: Clock) returns (reply: Reply)
      modifies this
      ensures (Now(), reply) == Acquire(Protocol(), old(Now()), r, clock)
    {
      if r.node != NodeOf(definition) || !Namespaced(r.owner, "assignment:") || r.duration <= 0 || !ValidDigest(r.key) {
        return InvalidNode;
      }
      if r.key in acquisitions {
        var prior := acquisitions[r.key];
        return if prior.request != r then LeaseConflict else Granted(prior.lease);
      }
      leases := Expire(leases, clock.expiry);
      var room := HasRoom(|leases|, clock.check);
      if !room { return NodeUnavailable; }
      var lease := Grant(r, clock.stamp);
      reply := Granted(lease);
    }

    method RenewLease(r: RenewRequest, clock: Clock) returns (reply: Reply)
      modifies this
      ensures (Now(), reply) == Renew(Protocol(), old(Now()), r, clock)
    {
      if !Namespaced(r.leaseID, "lease:") || !Namespaced(r.owner, "assignment:") || r.generation < 1 || r.duration <= 0
         || !ValidDigest(r.key) {
        return InvalidNode;
      }
      if r.key in renewals {
        var prior := renewals[r.key];
        return if prior.request != r then LeaseConflict else Granted(prior.lease);
      }
      leases := Expire(leases, clock.expiry);
      if r.leaseID !in leases { return LeaseNotFound; }
      var lease := leases[r.leaseID];
      if lease.owner != r.owner || lease.generation != r.generation { return LeaseConflict; }
      lease := lease.(generation := lease.generation + 1, expiresAt := clock.stamp + r.duration);
      leases := leases[r.leaseID := lease];
      renewals := renewals[r.key := Replay(r, lease)];
      reply := Granted(lease);
    }

    method ReleaseLease(leaseID: string, owner: string, generation: int, clock: Clock) returns (reply: Reply)
      modifies this
      ensures (Now(), reply) == Release(old(Now()), leaseID, owner, generation, clock)
    {
      leases := Expire(leases, clock.expiry);
      if leaseID !in leases { return LeaseNotFound; }
      var lease := leases[leaseID];
      if lease.owner != owner || lease.generation != generation { return LeaseConflict; }
      leases := leases - {leaseID};
      reply := Released;
    }
  }
}

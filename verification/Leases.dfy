/** Node leases: the protocol the desktop's local provider and the deterministic fake both
    follow, with idempotent acquisition and renewal, generations as fences, and expiry.
    A request stands for its own fingerprint (the digest of a request tells requests apart).
    A call reads the clock afresh each time it needs it, so every reading is arbitrary. */
module Leases {
  import opened Sorting
  import opened Text
  import opened ComputeNode

  datatype Lease = Lease(
    leaseID: string, node: Binding, owner: string, generation: int, acquiredAt: int, expiresAt: int)
  datatype AcquireRequest = AcquireRequest(node: Binding, owner: string, duration: int, key: string)
  datatype RenewRequest = RenewRequest(leaseID: string, owner: string, generation: int, duration: int, key: string)
  datatype Replay<R> = Replay(request: R, lease: Lease)

  datatype State = State(
    leases: map<string, Lease>,
    acquisitions: map<string, Replay<AcquireRequest>>,
    renewals: map<string, Replay<RenewRequest>>)

  datatype Reply =
    | Granted(lease: Lease) | Released | Observed | InvalidNode | NodeUnavailable | LeaseConflict
    | LeaseNotFound

  /** The readings of the clock during one call: to expire, to judge eligibility, to stamp. */
  datatype Clock = Clock(expiry: int, check: int, stamp: int)

  /** Where providers differ: the node they serve, how they name a lease after its owner and
      key, what they accept as a name, and when they have room for one more lease. */
  datatype Rules = Rules(
    node: Binding, name: (string, string) -> string, named: (string, string) -> bool, room: (nat, int) -> bool)

  // ---------------------------------------------------------------- the protocol

  function Live(leases: map<string, Lease>, now: int): map<string, Lease> {
    map id | id in leases && now < leases[id].expiresAt :: leases[id]
  }

  predicate AcquireValid(p: Rules, r: AcquireRequest) {
    r.node == p.node && p.named(r.owner, "assignment:") && r.duration > 0 && ValidDigest(r.key)
  }

  function NewLease(p: Rules, r: AcquireRequest, now: int): Lease {
    Lease(p.name(r.owner, r.key), p.node, r.owner, 1, now, now + r.duration)
  }

  function Acquire(p: Rules, s: State, r: AcquireRequest, clock: Clock): (State, Reply) {
    if !AcquireValid(p, r) then (s, InvalidNode)
    else if r.key in s.acquisitions then
      (s, if s.acquisitions[r.key].request == r then Granted(s.acquisitions[r.key].lease) else LeaseConflict)
    else
      var live := Live(s.leases, clock.expiry);
      if !p.room(|live|, clock.check) then (s.(leases := live), NodeUnavailable)
      else
        var lease := NewLease(p, r, clock.stamp);
        (State(live[lease.leaseID := lease], s.acquisitions[r.key := Replay(r, lease)], s.renewals), Granted(lease))
  }

  predicate RenewValid(p: Rules, r: RenewRequest) {
    p.named(r.leaseID, "lease:") && p.named(r.owner, "assignment:") && r.generation >= 1 && r.duration > 0
    && ValidDigest(r.key)
  }

  predicate Holds(leases: map<string, Lease>, leaseID: string, owner: string, generation: int) {
    leaseID in leases && leases[leaseID].owner == owner && leases[leaseID].generation == generation
  }

  function Renewal(lease: Lease, r: RenewRequest, now: int): Lease {
    lease.(generation := lease.generation + 1, expiresAt := now + r.duration)
  }

  function Renew(p: Rules, s: State, r: RenewRequest, clock: Clock): (State, Reply) {
    if !RenewValid(p, r) then (s, InvalidNode)
    else if r.key in s.renewals then
      (s, if s.renewals[r.key].request == r then Granted(s.renewals[r.key].lease) else LeaseConflict)
    else
      var live := Live(s.leases, clock.expiry);
      if r.leaseID !in live then (s.(leases := live), LeaseNotFound)
      else if !Holds(live, r.leaseID, r.owner, r.generation) then (s.(leases := live), LeaseConflict)
      else
        var lease := Renewal(live[r.leaseID], r, clock.stamp);
        (State(live[r.leaseID := lease], s.acquisitions, s.renewals[r.key := Replay(r, lease)]), Granted(lease))
  }

  function Release(s: State, leaseID: string, owner: string, generation: int, clock: Clock): (State, Reply) {
    var live := Live(s.leases, clock.expiry);
    if leaseID !in live then (s.(leases := live), LeaseNotFound)
    else if !Holds(live, leaseID, owner, generation) then (s.(leases := live), LeaseConflict)
    else (s.(leases := live - {leaseID}), Released)
  }

  datatype Op =
    | AcquireOp(acquire: AcquireRequest)
    | RenewOp(renew: RenewRequest)
    | ReleaseOp(leaseID: string, owner: string, generation: int)
    | ObserveOp

  function Step(p: Rules, s: State, op: Op, clock: Clock): (State, Reply) {
    match op
    case AcquireOp(r) => Acquire(p, s, r, clock)
    case RenewOp(r) => Renew(p, s, r, clock)
    case ReleaseOp(id, owner, generation) => Release(s, id, owner, generation, clock)
    case ObserveOp => (s.(leases := Live(s.leases, clock.expiry)), Observed)
  }

  datatype Call = Call(op: Op, clock: Clock)

  function Run(p: Rules, s: State, calls: seq<Call>): State
    decreases |calls|
  {
    if calls == [] then s else Run(p, Step(p, s, calls[0].op, calls[0].clock).0, calls[1..])
  }

  const EMPTY := State(map[], map[], map[])

  // ---------------------------------------------------------------- what every run keeps

  /** Leases under different owners or keys have different names. */
  ghost predicate NamesDiffer(p: Rules) {
    forall o, k, o', k' {:trigger p.name(o, k), p.name(o', k')} ::
      ValidDigest(k) && ValidDigest(k') && p.name(o, k) == p.name(o', k') ==> o == o' && k == k'
  }

  ghost predicate Issued(s: State, id: string) {
    exists k :: k in s.acquisitions && s.acquisitions[k].lease.leaseID == id
  }

  predicate RenewedBy(s: State, k: string, id: string, generation: int) {
    k in s.renewals && s.renewals[k].request.leaseID == id && s.renewals[k].request.generation == generation
  }

  ghost predicate Renewed(s: State, id: string, generation: int) {
    exists k :: RenewedBy(s, k, id, generation)
  }

  ghost predicate AcquisitionsOk(p: Rules, s: State) {
    forall k | k in s.acquisitions ::
      var e := s.acquisitions[k];
      && ValidDigest(k) && e.request.key == k
      && e.lease == NewLease(p, e.request, e.lease.acquiredAt)
  }

  ghost predicate LeasesOk(s: State) {
    forall id | id in s.leases :: s.leases[id].leaseID == id && s.leases[id].generation >= 1 && Issued(s, id)
  }

  ghost predicate RenewalsOk(s: State) {
    forall k | k in s.renewals ::
      var e := s.renewals[k];
      && e.request.key == k && e.lease.leaseID == e.request.leaseID
      && e.lease.generation == e.request.generation + 1 && Issued(s, e.request.leaseID)
  }

  /** A generation is renewed at most once, and only generations a live lease has left. */
  ghost predicate OneRenewalEach(s: State) {
    && (forall k, k', id, g {:trigger RenewedBy(s, k, id, g), RenewedBy(s, k', id, g)} ::
          RenewedBy(s, k, id, g) && RenewedBy(s, k', id, g) ==> k == k')
    && (forall k, id, g | RenewedBy(s, k, id, g) && id in s.leases :: g < s.leases[id].generation)
  }

  /** Every generation a live lease has left was left by a renewal of its own. */
  ghost predicate NoGenerationSkipped(s: State) {
    forall id, g | id in s.leases && 1 <= g < s.leases[id].generation :: Renewed(s, id, g)
  }

  ghost predicate Sound(p: Rules, s: State) {
    AcquisitionsOk(p, s) && LeasesOk(s) && RenewalsOk(s) && OneRenewalEach(s) && NoGenerationSkipped(s)
  }

  lemma FreshName(p: Rules, s: State, r: AcquireRequest)
    requires NamesDiffer(p) && AcquisitionsOk(p, s) && ValidDigest(r.key) && r.key !in s.acquisitions
    ensures !Issued(s, p.name(r.owner, r.key))
  {
    forall k | k in s.acquisitions ensures s.acquisitions[k].lease.leaseID != p.name(r.owner, r.key) {
      assert s.acquisitions[k].lease.leaseID == p.name(s.acquisitions[k].request.owner, k);
    }
  }

  lemma ExpiryKeeps(p: Rules, s: State, now: int)
    requires Sound(p, s)
    ensures Sound(p, s.(leases := Live(s.leases, now)))
  {
    var t := s.(leases := Live(s.leases, now));
    assert forall id :: Issued(t, id) <==> Issued(s, id);
    assert forall k, id, g :: RenewedBy(t, k, id, g) <==> RenewedBy(s, k, id, g);
    forall id, g | id in t.leases && 1 <= g < t.leases[id].generation ensures Renewed(t, id, g) {
      assert Renewed(s, id, g);
      var k :| RenewedBy(s, k, id, g);
      assert RenewedBy(t, k, id, g);
    }
  }

  lemma InsertKeeps(p: Rules, s: State, r: AcquireRequest, now: int)
    requires Sound(p, s) && NamesDiffer(p) && ValidDigest(r.key) && r.key !in s.acquisitions
    ensures var lease := NewLease(p, r, now);
            Sound(p, State(s.leases[lease.leaseID := lease], s.acquisitions[r.key := Replay(r, lease)], s.renewals))
  {
    var lease := NewLease(p, r, now);
    var t := State(s.leases[lease.leaseID := lease], s.acquisitions[r.key := Replay(r, lease)], s.renewals);
    FreshName(p, s, r);
    forall id | Issued(s, id) || id == lease.leaseID ensures Issued(t, id) {
      if id == lease.leaseID { assert r.key in t.acquisitions && t.acquisitions[r.key].lease.leaseID == id; }
      else {
        var k :| k in s.acquisitions && s.acquisitions[k].lease.leaseID == id;
        assert k in t.acquisitions && t.acquisitions[k].lease.leaseID == id;
      }
    }
    forall k, id, g ensures RenewedBy(t, k, id, g) <==> RenewedBy(s, k, id, g) { }
    forall k | k in t.renewals ensures t.renewals[k].request.leaseID != lease.leaseID { }
    forall id, g | id in t.leases && 1 <= g < t.leases[id].generation ensures Renewed(t, id, g) {
      assert Renewed(s, id, g);
      var k :| RenewedBy(s, k, id, g);
      assert RenewedBy(t, k, id, g);
    }
  }

  lemma RenewalKeeps(p: Rules, s: State, r: RenewRequest, now: int)
    requires Sound(p, s) && r.key !in s.renewals && Holds(s.leases, r.leaseID, r.owner, r.generation)
    ensures var lease := Renewal(s.leases[r.leaseID], r, now);
            Sound(p, State(s.leases[r.leaseID := lease], s.acquisitions, s.renewals[r.key := Replay(r, lease)]))
  {
    var lease := Renewal(s.leases[r.leaseID], r, now);
    var t := State(s.leases[r.leaseID := lease], s.acquisitions, s.renewals[r.key := Replay(r, lease)]);
    assert forall id :: Issued(t, id) <==> Issued(s, id);
    forall k, id, g
      ensures RenewedBy(t, k, id, g) <==>
        RenewedBy(s, k, id, g) || (k == r.key && id == r.leaseID && g == r.generation)
    {
    }
    assert RenewedBy(t, r.key, r.leaseID, r.generation);
    forall id, g | id in t.leases && 1 <= g < t.leases[id].generation ensures Renewed(t, id, g) {
      if id == r.leaseID && g == r.generation {
      } else {
        assert Renewed(s, id, g);
        var k :| RenewedBy(s, k, id, g);
        assert RenewedBy(t, k, id, g);
      }
    }
  }

  lemma DropKeeps(p: Rules, s: State, id: string)
    requires Sound(p, s)
    ensures Sound(p, s.(leases := s.leases - {id}))
  {
    var t := s.(leases := s.leases - {id});
    assert forall x :: Issued(t, x) <==> Issued(s, x);
    forall k, x, g ensures RenewedBy(t, k, x, g) <==> RenewedBy(s, k, x, g) { }
    forall x, g | x in t.leases && 1 <= g < t.leases[x].generation ensures Renewed(t, x, g) {
      assert Renewed(s, x, g);
      var k :| RenewedBy(s, k, x, g);
      assert RenewedBy(t, k, x, g);
    }
  }

  lemma StepKeeps(p: Rules, s: State, op: Op, clock: Clock)
    requires Sound(p, s) && NamesDiffer(p)
    ensures Sound(p, Step(p, s, op, clock).0)
  {
    ExpiryKeeps(p, s, clock.expiry);
    var live := s.(leases := Live(s.leases, clock.expiry));
    match op
    case AcquireOp(r) =>
      if AcquireValid(p, r) && r.key !in s.acquisitions { InsertKeeps(p, live, r, clock.stamp); }
    case RenewOp(r) =>
      if RenewValid(p, r) && r.key !in s.renewals && Holds(live.leases, r.leaseID, r.owner, r.generation) {
        RenewalKeeps(p, live, r, clock.stamp);
      }
    case ReleaseOp(id, owner, generation) => DropKeeps(p, live, id);
    case ObserveOp =>
  }

  /** Every reachable state is sound: in particular a generation of a lease is renewed at most
      once, and generations rise one at a time. */
  lemma {:induction false} RunSound(p: Rules, s: State, calls: seq<Call>)
    requires Sound(p, s) && NamesDiffer(p)
    ensures Sound(p, Run(p, s, calls))
    decreases |calls|
  {
    if calls != [] {
      StepKeeps(p, s, calls[0].op, calls[0].clock);
      RunSound(p, Step(p, s, calls[0].op, calls[0].clock).0, calls[1..]);
    }
  }

  // ---------------------------------------------------------------- bounded, fenced, replayed

  lemma LiveIsFewer(leases: map<string, Lease>, now: int)
    ensures |Live(leases, now)| <= |leases|
  {
    SubsetSize(Live(leases, now).Keys, leases.Keys);
  }

  lemma StepBounded(p: Rules, max: nat, s: State, op: Op, clock: Clock)
    requires forall n: nat, now :: p.room(n, now) ==> n < max
    requires |s.leases| <= max
    ensures |Step(p, s, op, clock).0.leases| <= max
  {
    LiveIsFewer(s.leases, clock.expiry);
    var live := Live(s.leases, clock.expiry);
    match op
    case AcquireOp(r) =>
      var id := p.name(r.owner, r.key);
      assert live[id := NewLease(p, r, clock.stamp)].Keys == live.Keys + {id};
    case RenewOp(r) =>
      if r.leaseID in live {
        assert live[r.leaseID := Renewal(live[r.leaseID], r, clock.stamp)].Keys == live.Keys;
      }
    case ReleaseOp(id, owner, generation) =>
      SubsetSize((live - {id}).Keys, live.Keys);
    case ObserveOp =>
  }

  /** Under any clock, a provider that only has room below `max` never holds more. */
  lemma {:induction false} RunBounded(p: Rules, max: nat, s: State, calls: seq<Call>)
    requires forall n: nat, now :: p.room(n, now) ==> n < max
    requires |s.leases| <= max
    ensures |Run(p, s, calls).leases| <= max
    decreases |calls|
  {
    if calls != [] {
      StepBounded(p, max, s, calls[0].op, calls[0].clock);
      RunBounded(p, max, Step(p, s, calls[0].op, calls[0].clock).0, calls[1..]);
    }
  }

  /** Generation `g` of lease `id` is spent: the lease has moved past it, or is gone. */
  ghost predicate Fenced(s: State, id: string, g: int) {
    Issued(s, id) && (id in s.leases ==> g < s.leases[id].generation)
  }

  lemma StepIssued(p: Rules, s: State, op: Op, clock: Clock, id: string)
    requires Issued(s, id)
    ensures Issued(Step(p, s, op, clock).0, id)
  {
    var t := Step(p, s, op, clock).0;
    var k :| k in s.acquisitions && s.acquisitions[k].lease.leaseID == id;
    assert k in t.acquisitions && t.acquisitions[k] == s.acquisitions[k];
  }

  /** A lease held after a call was held before at no later generation, or is newly acquired. */
  lemma StepLease(p: Rules, s: State, op: Op, clock: Clock, id: string)
    requires id in Step(p, s, op, clock).0.leases
    ensures || (id in s.leases && s.leases[id].generation <= Step(p, s, op, clock).0.leases[id].generation)
            || (op.AcquireOp? && ValidDigest(op.acquire.key) && op.acquire.key !in s.acquisitions
                && id == p.name(op.acquire.owner, op.acquire.key))
  {
  }

  lemma StepFenced(p: Rules, s: State, op: Op, clock: Clock, id: string, g: int)
    requires Sound(p, s) && NamesDiffer(p) && Fenced(s, id, g)
    ensures Fenced(Step(p, s, op, clock).0, id, g)
    ensures id !in s.leases ==> id !in Step(p, s, op, clock).0.leases
  {
    var t := Step(p, s, op, clock).0;
    StepIssued(p, s, op, clock, id);
    if id in t.leases {
      StepLease(p, s, op, clock, id);
      if op.AcquireOp? && ValidDigest(op.acquire.key) && op.acquire.key !in s.acquisitions {
        FreshName(p, s, op.acquire);
      }
    }
  }

  lemma {:induction false} RunFenced(p: Rules, s: State, calls: seq<Call>, id: string, g: int)
    requires Sound(p, s) && NamesDiffer(p) && Fenced(s, id, g)
    ensures Fenced(Run(p, s, calls), id, g)
    ensures id !in s.leases ==> id !in Run(p, s, calls).leases
    decreases |calls|
  {
    if calls != [] {
      StepKeeps(p, s, calls[0].op, calls[0].clock);
      StepFenced(p, s, calls[0].op, calls[0].clock, id, g);
      RunFenced(p, Step(p, s, calls[0].op, calls[0].clock).0, calls[1..], id, g);
    }
  }

  /** The call presents generation `g` of `id` or an earlier one, and is no replay. */
  predicate Presents(s: State, op: Op, id: string, g: int) {
    || (op.RenewOp? && op.renew.leaseID == id && op.renew.generation <= g && op.renew.key !in s.renewals)
    || (op.ReleaseOp? && op.leaseID == id && op.generation <= g)
  }

  /** Once spent, a generation stays spent: no call that presents it, whenever it comes,
      renews or releases the lease. All such a call can do is let leases expire. */
  lemma {:induction false} FencedForever(p: Rules, s: State, calls: seq<Call>, id: string, g: int, op: Op, clock: Clock)
    requires Sound(p, s) && NamesDiffer(p) && Fenced(s, id, g)
    requires Presents(Run(p, s, calls), op, id, g)
    ensures var now := Run(p, s, calls);
            var (t, reply) := Step(p, now, op, clock);
            && !reply.Granted? && !reply.Released?
            && (t == now || t == now.(leases := Live(now.leases, clock.expiry)))
  {
    RunFenced(p, s, calls, id, g);
  }

  /** Exactly what a renewal under a new key needs, and that it spends the generation. */
  lemma {:induction false} RenewTakesEffect(p: Rules, s: State, r: RenewRequest, clock: Clock)
    requires Sound(p, s) && RenewValid(p, r) && r.key !in s.renewals
    ensures var (t, reply) := Renew(p, s, r, clock);
            && (reply.Granted? <==> Holds(Live(s.leases, clock.expiry), r.leaseID, r.owner, r.generation))
            && (reply.Granted? ==>
                  && reply.lease.generation == r.generation + 1 && reply.lease.expiresAt == clock.stamp + r.duration
                  && t.leases == Live(s.leases, clock.expiry)[r.leaseID := reply.lease]
                  && Fenced(t, r.leaseID, r.generation))
            && (!reply.Granted? ==> t == s.(leases := Live(s.leases, clock.expiry)))
  {
    var (t, reply) := Renew(p, s, r, clock);
    if reply.Granted? {
      assert r.leaseID in s.leases && Issued(s, r.leaseID);
      var k :| k in s.acquisitions && s.acquisitions[k].lease.leaseID == r.leaseID;
      assert k in t.acquisitions;
    }
  }

  /** A released or expired lease never comes back: no later state holds a lease of that ID,
      whatever the clock does. */
  lemma {:induction false} RetiredForever(p: Rules, s: State, calls: seq<Call>, id: string)
    requires Sound(p, s) && NamesDiffer(p) && Issued(s, id) && id !in s.leases
    ensures id !in Run(p, s, calls).leases
  {
    RunFenced(p, s, calls, id, 0);
  }

  /** The replay tables only grow. */
  lemma {:induction false} TablesGrow(p: Rules, s: State, calls: seq<Call>)
    ensures forall k | k in s.acquisitions ::
              k in Run(p, s, calls).acquisitions && Run(p, s, calls).acquisitions[k] == s.acquisitions[k]
    ensures forall k | k in s.renewals ::
              k in Run(p, s, calls).renewals && Run(p, s, calls).renewals[k] == s.renewals[k]
    decreases |calls|
  {
    if calls != [] {
      TablesGrow(p, Step(p, s, calls[0].op, calls[0].clock).0, calls[1..]);
    }
  }

  /** Repeating a request that was granted, at any later time, returns the lease it was
      granted then and changes nothing. */
  lemma {:induction false} GrantIsRepeatable(p: Rules, s: State, op: Op, clock: Clock, calls: seq<Call>, later: Clock)
    requires op.AcquireOp? || op.RenewOp?
    requires Step(p, s, op, clock).1.Granted?
    ensures var now := Run(p, Step(p, s, op, clock).0, calls);
            Step(p, now, op, later) == (now, Step(p, s, op, clock).1)
  {
    TablesGrow(p, Step(p, s, op, clock).0, calls);
  }

  // ---------------------------------------------------------------- the two providers

  const LEASE := "lease:"

  function LocalText(owner: string, key: string): string { owner + "\0" + key + "\0" }

  function LocalRules(node: Binding, max: int, short: string -> string): Rules {
    Rules(node, (owner, key) => LEASE + short(LocalText(owner, key)), HasPrefix, (count, now) => count < max)
  }

  const NO_REQUIREMENTS := Requirements("", "", Capacity(0, 0, 0), [], UnknownAccess, Binding("", 0, ""))

  function FakeRules(hash: Definition -> string, d: Definition, o: Observation, short: string -> string): Rules {
    Rules(NodeOf(d), (owner, key) => LEASE + short(owner + key), Namespaced,
          (count, now) => Fit(hash, d, o.(activeLeases := count), NO_REQUIREMENTS, now))
  }

  ghost predicate Injective(short: string -> string) {
    forall x, y :: short(x) == short(y) ==> x == y
  }

  lemma SameSplit(a: string, b: string, c: string, d: string)
    requires a + b == c + d && |b| == |d|
    ensures a == c && b == d
  {
    assert |a| == |c|;
    assert a == (a + b)[..|a|] && c == (c + d)[..|c|];
    assert b == (a + b)[|a|..] && d == (c + d)[|c|..];
  }

  /** The local provider separates owner and key by a NUL; keys all have one length anyway. */
  lemma {:induction false} LocalNames(node: Binding, max: int, short: string -> string)
    requires Injective(short)
    ensures NamesDiffer(LocalRules(node, max, short))
  {
    var p := LocalRules(node, max, short);
    forall o, k, o', k' | ValidDigest(k) && ValidDigest(k') && p.name(o, k) == p.name(o', k')
      ensures o == o' && k == k'
    {
      SameSplit(LEASE, short(LocalText(o, k)), LEASE, short(LocalText(o', k'))) by {
        assert |LEASE + short(LocalText(o, k))| == |LEASE + short(LocalText(o', k'))|;
      }
      assert LocalText(o, k) == o + ("\0" + k + "\0") && LocalText(o', k') == o' + ("\0" + k' + "\0");
      SameSplit(o, "\0" + k + "\0", o', "\0" + k' + "\0");
      SameSplit("\0" + k, "\0", "\0" + k', "\0");
      SameSplit("\0", k, "\0", k');
    }
  }

  /** The fake runs owner and key together; that is still one name each, because a key has
      64 characters. */
  lemma {:induction false} FakeNames(hash: Definition -> string, d: Definition, o: Observation, short: string -> string)
    requires Injective(short)
    ensures NamesDiffer(FakeRules(hash, d, o, short))
  {
    var p := FakeRules(hash, d, o, short);
    forall w, k, w', k' | ValidDigest(k) && ValidDigest(k') && p.name(w, k) == p.name(w', k')
      ensures w == w' && k == k'
    {
      SameSplit(LEASE, short(w + k), LEASE, short(w' + k')) by {
        assert |LEASE + short(w + k)| == |LEASE + short(w' + k')|;
      }
      SameSplit(w, k, w', k');
    }
  }

  /** What the fake's constructor insists on. */
  predicate FakeAccepts(hash: Definition -> string, d: Definition, o: Observation) {
    && VerifyDefinition(hash, d) && o.node == NodeOf(d) && o.activeLeases >= 0 && ValidCapacity(o.available)
    && o.observedAt != 0 && o.expiresAt != 0 && o.observedAt < o.expiresAt
    && (forall t | t in o.tools :: t in d.tools) && (forall r | r in o.runtimes :: r in d.runtimes)
  }

  /** The node is up: what the fake asks for beyond a free place. */
  predicate Up(d: Definition, o: Observation, now: int) {
    && d.lifecycle.ActiveNode? && o.health.Healthy? && now != 0 && o.observedAt <= now < o.expiresAt
    && o.available.cpuMillis <= d.capacity.cpuMillis && o.available.memoryBytes <= d.capacity.memoryBytes
    && o.available.diskBytes <= d.capacity.diskBytes
  }

  /** The fake has room exactly when the node is up and a place is free. */
  lemma {:induction false} FakeRoom(hash: Definition -> string, d: Definition, o: Observation, short: string -> string,
                                    count: nat, now: int)
    requires FakeAccepts(hash, d, o)
    ensures FakeRules(hash, d, o, short).room(count, now) <==> Up(d, o, now) && count < d.maxActiveLeases
  {
    assert AccessRank(d.access) >= 0 by {
      assert NormalDefinition(d.(digest := "")).access == d.access;
    }
  }
}

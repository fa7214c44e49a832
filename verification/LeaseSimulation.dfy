/** The deterministic fake and the local provider answer alike, up to the names they give to
    leases, as long as the fake's node is up. */
module LeaseSimulation {
  import opened Text
  import opened ComputeNode
  import opened Leases

  ghost predicate IsName(p: Rules, id: string) {
    exists o, k :: ValidDigest(k) && p.name(o, k) == id
  }

  /** `ren` takes each name of `l` to the name `f` gives under the same owner and key, and
      confuses no name of `l` with any other text. */
  ghost predicate Apt(ren: string -> string, l: Rules, f: Rules) {
    && (forall o, k :: ValidDigest(k) ==> ren(l.name(o, k)) == f.name(o, k))
    && (forall id, id' {:trigger ren(id), ren(id')} :: IsName(l, id) && ren(id) == ren(id') ==> id == id')
  }

  /** The fake's name for the lease the local provider calls `id`; texts that name no lease
      all go to one that names none for the fake either. */
  ghost function Rename(l: Rules, f: Rules, unissued: string, id: string): string {
    if IsName(l, id) then
      var o, k :| ValidDigest(k) && l.name(o, k) == id;
      f.name(o, k)
    else unissued
  }

  lemma RenameName(l: Rules, f: Rules, unissued: string, o: string, k: string)
    requires NamesDiffer(l) && ValidDigest(k)
    ensures Rename(l, f, unissued, l.name(o, k)) == f.name(o, k)
  {
    assert IsName(l, l.name(o, k));
  }

  lemma RenameSeparates(l: Rules, f: Rules, unissued: string, id: string, id': string)
    requires NamesDiffer(l) && NamesDiffer(f) && !IsName(f, unissued)
    requires IsName(l, id) && Rename(l, f, unissued, id) == Rename(l, f, unissued, id')
    ensures id == id'
  {
    var o, k :| ValidDigest(k) && l.name(o, k) == id;
    RenameName(l, f, unissued, o, k);
    assert IsName(f, f.name(o, k));
    if IsName(l, id') {
      var o', k' :| ValidDigest(k') && l.name(o', k') == id';
      RenameName(l, f, unissued, o', k');
    }
  }

  lemma RenameIsApt(l: Rules, f: Rules, unissued: string)
    requires NamesDiffer(l) && NamesDiffer(f) && !IsName(f, unissued)
    ensures Apt(id => Rename(l, f, unissued, id), l, f)
  {
    forall o, k | ValidDigest(k) ensures Rename(l, f, unissued, l.name(o, k)) == f.name(o, k) {
      RenameName(l, f, unissued, o, k);
    }
    forall id, id' | IsName(l, id) && Rename(l, f, unissued, id) == Rename(l, f, unissued, id') ensures id == id' {
      RenameSeparates(l, f, unissued, id, id');
    }
  }

  // ---------------------------------------------------------------- related states

  function Carry(ren: string -> string, lease: Lease): Lease { lease.(leaseID := ren(lease.leaseID)) }

  function CarryOp(ren: string -> string, op: Op): Op {
    match op
    case AcquireOp(r) => op
    case RenewOp(r) => RenewOp(r.(leaseID := ren(r.leaseID)))
    case ReleaseOp(id, owner, generation) => ReleaseOp(ren(id), owner, generation)
    case ObserveOp => op
  }

  function CarryReply(ren: string -> string, reply: Reply): Reply {
    if reply.Granted? then Granted(Carry(ren, reply.lease)) else reply
  }

  /** The lease `a` knows as `id`, carried over, is the one `b` knows by the carried name. */
  predicate Carried(ren: string -> string, a: map<string, Lease>, b: map<string, Lease>, id: string) {
    id in a ==> ren(id) in b && b[ren(id)] == Carry(ren, a[id])
  }

  ghost predicate ComesFrom(ren: string -> string, a: map<string, Lease>, x: string) {
    exists id :: id in a && ren(id) == x
  }

  ghost predicate SameLeases(ren: string -> string, a: map<string, Lease>, b: map<string, Lease>) {
    && (forall id {:trigger Carried(ren, a, b, id)} :: Carried(ren, a, b, id))
    && (forall x {:trigger ComesFrom(ren, a, x)} | x in b :: ComesFrom(ren, a, x))
  }

  ghost predicate SameAcquisitions(ren: string -> string, a: map<string, Replay<AcquireRequest>>,
                                   b: map<string, Replay<AcquireRequest>>)
  {
    && a.Keys == b.Keys
    && forall k | k in a :: b[k] == Replay(a[k].request, Carry(ren, a[k].lease))
  }

  ghost predicate SameRenewals(ren: string -> string, a: map<string, Replay<RenewRequest>>,
                               b: map<string, Replay<RenewRequest>>)
  {
    && a.Keys == b.Keys
    && forall k | k in a ::
         b[k] == Replay(a[k].request.(leaseID := ren(a[k].request.leaseID)), Carry(ren, a[k].lease))
  }

  ghost predicate Same(ren: string -> string, a: State, b: State) {
    && SameLeases(ren, a.leases, b.leases) && SameAcquisitions(ren, a.acquisitions, b.acquisitions)
    && SameRenewals(ren, a.renewals, b.renewals)
  }

  /** All keys are names, so `ren` is one-to-one on them. */
  ghost predicate Named(l: Rules, leases: map<string, Lease>) {
    forall id | id in leases :: IsName(l, id) && leases[id].leaseID == id
  }

  lemma IssuedIsName(l: Rules, s: State, id: string)
    requires AcquisitionsOk(l, s) && Issued(s, id)
    ensures IsName(l, id)
  {
    var k :| k in s.acquisitions && s.acquisitions[k].lease.leaseID == id;
    assert ValidDigest(k) && l.name(s.acquisitions[k].request.owner, k) == id;
  }

  ghost predicate AllNamed(l: Rules, s: State) {
    Named(l, s.leases) && forall k | k in s.renewals :: IsName(l, s.renewals[k].request.leaseID)
  }

  lemma SoundIsNamed(l: Rules, s: State)
    requires Sound(l, s)
    ensures AllNamed(l, s)
  {
    forall id | id in s.leases ensures IsName(l, id) { IssuedIsName(l, s, id); }
    forall k | k in s.renewals ensures IsName(l, s.renewals[k].request.leaseID) {
      IssuedIsName(l, s, s.renewals[k].request.leaseID);
    }
  }

  lemma LookupAgrees(ren: string -> string, l: Rules, f: Rules, a: map<string, Lease>, b: map<string, Lease>,
                     id: string)
    requires Apt(ren, l, f) && Named(l, a) && SameLeases(ren, a, b)
    ensures id in a <==> ren(id) in b
  {
    assert Carried(ren, a, b, id);
    if ren(id) in b {
      assert ComesFrom(ren, a, ren(id));
      var x :| x in a && ren(x) == ren(id);
      assert IsName(l, x);
    }
  }

  lemma {:induction false} ImageSize(ren: string -> string, keys: set<string>)
    requires forall x, y | x in keys && y in keys && ren(x) == ren(y) :: x == y
    ensures |set x | x in keys :: ren(x)| == |keys|
  {
    var image := set x | x in keys :: ren(x);
    if keys == {} {
      assert image == {};
    } else {
      var x :| x in keys;
      ImageSize(ren, keys - {x});
      assert image == (set y | y in keys - {x} :: ren(y)) + {ren(x)};
    }
  }

  lemma SizeAgrees(ren: string -> string, l: Rules, f: Rules, a: map<string, Lease>, b: map<string, Lease>)
    requires Apt(ren, l, f) && Named(l, a) && SameLeases(ren, a, b)
    ensures |a| == |b|
  {
    forall x, y | x in a.Keys && y in a.Keys && ren(x) == ren(y) ensures x == y { assert IsName(l, x); }
    ImageSize(ren, a.Keys);
    forall y ensures y in b.Keys <==> y in (set x | x in a.Keys :: ren(x)) {
      if y in b { assert ComesFrom(ren, a, y); }
      forall x | x in a.Keys && ren(x) == y ensures y in b { assert Carried(ren, a, b, x); }
    }
    assert b.Keys == (set x | x in a.Keys :: ren(x));
    assert |a| == |a.Keys| && |b| == |b.Keys|;
  }

  lemma LiveAgrees(ren: string -> string, a: map<string, Lease>, b: map<string, Lease>, now: int)
    requires SameLeases(ren, a, b)
    ensures SameLeases(ren, Live(a, now), Live(b, now))
  {
    var a', b' := Live(a, now), Live(b, now);
    forall id ensures Carried(ren, a', b', id) { assert Carried(ren, a, b, id); }
    forall x | x in b' ensures ComesFrom(ren, a', x) {
      assert ComesFrom(ren, a, x);
      var id :| id in a && ren(id) == x;
      assert Carried(ren, a, b, id);
      assert id in a';
    }
  }

  lemma PutAgrees(ren: string -> string, l: Rules, f: Rules, a: map<string, Lease>, b: map<string, Lease>, id: string,
                  lease: Lease)
    requires Apt(ren, l, f) && IsName(l, id) && SameLeases(ren, a, b) && lease.leaseID == id
    ensures SameLeases(ren, a[id := lease], b[ren(id) := Carry(ren, lease)])
  {
    var a', b' := a[id := lease], b[ren(id) := Carry(ren, lease)];
    forall x ensures Carried(ren, a', b', x) { assert Carried(ren, a, b, x); }
    forall x | x in b' ensures ComesFrom(ren, a', x) {
      if x == ren(id) { assert id in a'; }
      else {
        assert ComesFrom(ren, a, x);
        var y :| y in a && ren(y) == x;
        assert y in a';
      }
    }
  }

  lemma DropAgrees(ren: string -> string, l: Rules, f: Rules, a: map<string, Lease>, b: map<string, Lease>, id: string)
    requires Apt(ren, l, f) && IsName(l, id) && SameLeases(ren, a, b) && id in a
    ensures SameLeases(ren, a - {id}, b - {ren(id)})
  {
    var a', b' := a - {id}, b - {ren(id)};
    forall x ensures Carried(ren, a', b', x) { assert Carried(ren, a, b, x); }
    forall x | x in b' ensures ComesFrom(ren, a', x) {
      assert ComesFrom(ren, a, x);
      var y :| y in a && ren(y) == x;
      assert y in a';
    }
  }

  lemma HoldsAgrees(ren: string -> string, l: Rules, f: Rules, a: map<string, Lease>, b: map<string, Lease>, id: string,
                    owner: string, generation: int)
    requires Apt(ren, l, f) && Named(l, a) && SameLeases(ren, a, b)
    ensures id in a <==> ren(id) in b
    ensures Holds(a, id, owner, generation) <==> Holds(b, ren(id), owner, generation)
    ensures id in a ==> IsName(l, id) && b[ren(id)] == Carry(ren, a[id])
  {
    LookupAgrees(ren, l, f, a, b, id);
    assert Carried(ren, a, b, id);
  }

  // ---------------------------------------------------------------- one call

  predicate ValidFor(p: Rules, op: Op) {
    (op.AcquireOp? ==> AcquireValid(p, op.acquire)) && (op.RenewOp? ==> RenewValid(p, op.renew))
  }

  predicate RoomAgrees(l: Rules, f: Rules, s: State, op: Op, clock: Clock) {
    op.AcquireOp? && op.acquire.key !in s.acquisitions ==>
      var count := |Live(s.leases, clock.expiry)|;
      l.room(count, clock.check) == f.room(count, clock.check)
  }

  ghost predicate Matches(ren: string -> string, after: (State, Reply), after': (State, Reply)) {
    Same(ren, after.0, after'.0) && after'.1 == CarryReply(ren, after.1)
  }

  lemma AcquisitionRecorded(ren: string -> string, a: map<string, Replay<AcquireRequest>>,
                            b: map<string, Replay<AcquireRequest>>,
                            r: AcquireRequest, lease: Lease)
    requires SameAcquisitions(ren, a, b)
    ensures SameAcquisitions(ren, a[r.key := Replay(r, lease)], b[r.key := Replay(r, Carry(ren, lease))])
  {
  }

  lemma RenewalRecorded(ren: string -> string, a: map<string, Replay<RenewRequest>>,
                        b: map<string, Replay<RenewRequest>>,
                        r: RenewRequest, lease: Lease)
    requires SameRenewals(ren, a, b)
    ensures SameRenewals(ren, a[r.key := Replay(r, lease)],
                         b[r.key := Replay(r.(leaseID := ren(r.leaseID)), Carry(ren, lease))])
  {
  }

  lemma {:induction false} AcquireMatches(ren: string -> string, l: Rules, f: Rules, a: State, b: State,
                                          r: AcquireRequest, clock: Clock)
    requires Apt(ren, l, f) && AllNamed(l, a) && Same(ren, a, b) && l.node == f.node
    requires AcquireValid(l, r) && AcquireValid(f, r) && RoomAgrees(l, f, a, AcquireOp(r), clock)
    ensures Matches(ren, Acquire(l, a, r, clock), Acquire(f, b, r, clock))
  {
    if r.key !in a.acquisitions {
      var live, live' := Live(a.leases, clock.expiry), Live(b.leases, clock.expiry);
      LiveAgrees(ren, a.leases, b.leases, clock.expiry);
      SizeAgrees(ren, l, f, live, live');
      if l.room(|live|, clock.check) {
        var lease := NewLease(l, r, clock.stamp);
        assert NewLease(f, r, clock.stamp) == Carry(ren, lease);
        assert IsName(l, lease.leaseID);
        PutAgrees(ren, l, f, live, live', lease.leaseID, lease);
        AcquisitionRecorded(ren, a.acquisitions, b.acquisitions, r, lease);
      }
    }
  }

  lemma {:induction false} RenewReplays(ren: string -> string, l: Rules, f: Rules, a: State, b: State, r: RenewRequest,
                                        clock: Clock)
    requires Apt(ren, l, f) && AllNamed(l, a) && Same(ren, a, b) && r.key in a.renewals
    requires RenewValid(l, r) && RenewValid(f, r.(leaseID := ren(r.leaseID)))
    ensures Matches(ren, Renew(l, a, r, clock), Renew(f, b, r.(leaseID := ren(r.leaseID)), clock))
  {
    var prior := a.renewals[r.key].request;
    assert IsName(l, prior.leaseID);
    assert prior == r <==> prior.(leaseID := ren(prior.leaseID)) == r.(leaseID := ren(r.leaseID));
  }

  lemma RenewMatches(ren: string -> string, l: Rules, f: Rules, a: State, b: State, r: RenewRequest, clock: Clock)
    requires Apt(ren, l, f) && AllNamed(l, a) && Same(ren, a, b)
    requires RenewValid(l, r) && RenewValid(f, r.(leaseID := ren(r.leaseID)))
    ensures Matches(ren, Renew(l, a, r, clock), Renew(f, b, r.(leaseID := ren(r.leaseID)), clock))
  {
    if r.key in a.renewals {
      RenewReplays(ren, l, f, a, b, r, clock);
    } else {
      var r' := r.(leaseID := ren(r.leaseID));
      var live, live' := Live(a.leases, clock.expiry), Live(b.leases, clock.expiry);
      LiveAgrees(ren, a.leases, b.leases, clock.expiry);
      HoldsAgrees(ren, l, f, live, live', r.leaseID, r.owner, r.generation);
      if Holds(live, r.leaseID, r.owner, r.generation) {
        var lease := Renewal(live[r.leaseID], r, clock.stamp);
        assert Renewal(live'[r'.leaseID], r', clock.stamp) == Carry(ren, lease);
        PutAgrees(ren, l, f, live, live', r.leaseID, lease);
        RenewalRecorded(ren, a.renewals, b.renewals, r, lease);
      }
    }
  }

  lemma ReleaseMatches(ren: string -> string, l: Rules, f: Rules, a: State, b: State, id: string, owner: string,
                       generation: int, clock: Clock)
    requires Apt(ren, l, f) && AllNamed(l, a) && Same(ren, a, b)
    ensures Matches(ren, Release(a, id, owner, generation, clock), Release(b, ren(id), owner, generation, clock))
  {
    var live, live' := Live(a.leases, clock.expiry), Live(b.leases, clock.expiry);
    LiveAgrees(ren, a.leases, b.leases, clock.expiry);
    HoldsAgrees(ren, l, f, live, live', id, owner, generation);
    if id in live { DropAgrees(ren, l, f, live, live', id); }
  }

  lemma {:induction false} StepMatches(ren: string -> string, l: Rules, f: Rules, a: State, b: State, op: Op,
                                       clock: Clock)
    requires Apt(ren, l, f) && AllNamed(l, a) && Same(ren, a, b) && l.node == f.node
    requires ValidFor(l, op) && ValidFor(f, CarryOp(ren, op)) && RoomAgrees(l, f, a, op, clock)
    ensures Matches(ren, Step(l, a, op, clock), Step(f, b, CarryOp(ren, op), clock))
  {
    match op
    case AcquireOp(r) => AcquireMatches(ren, l, f, a, b, r, clock);
    case RenewOp(r) => RenewMatches(ren, l, f, a, b, r, clock);
    case ReleaseOp(id, owner, generation) => ReleaseMatches(ren, l, f, a, b, id, owner, generation, clock);
    case ObserveOp => LiveAgrees(ren, a.leases, b.leases, clock.expiry);
  }

  // ---------------------------------------------------------------- whole runs

  function Replies(p: Rules, s: State, calls: seq<Call>): seq<Reply>
    decreases |calls|
  {
    if calls == [] then [] else
      var (t, reply) := Step(p, s, calls[0].op, calls[0].clock);
      [reply] + Replies(p, t, calls[1..])
  }

  function CarryCalls(ren: string -> string, calls: seq<Call>): seq<Call> {
    seq(|calls|, i requires 0 <= i < |calls| => Call(CarryOp(ren, calls[i].op), calls[i].clock))
  }

  function CarryReplies(ren: string -> string, replies: seq<Reply>): seq<Reply> {
    seq(|replies|, i requires 0 <= i < |replies| => CarryReply(ren, replies[i]))
  }

  /** A call both accept as well formed, made when both have room or neither has. */
  ghost predicate Fair(ren: string -> string, l: Rules, f: Rules, call: Call) {
    && ValidFor(l, call.op) && ValidFor(f, CarryOp(ren, call.op))
    && (call.op.AcquireOp? ==> forall n: nat :: l.room(n, call.clock.check) == f.room(n, call.clock.check))
  }

  lemma {:induction false} RunMatches(ren: string -> string, l: Rules, f: Rules, a: State, b: State, calls: seq<Call>)
    requires Apt(ren, l, f) && NamesDiffer(l) && Sound(l, a) && Same(ren, a, b) && l.node == f.node
    requires forall i | 0 <= i < |calls| :: Fair(ren, l, f, calls[i])
    ensures Same(ren, Run(l, a, calls), Run(f, b, CarryCalls(ren, calls)))
    ensures Replies(f, b, CarryCalls(ren, calls)) == CarryReplies(ren, Replies(l, a, calls))
    decreases |calls|
  {
    if calls != [] {
      var op, clock := calls[0].op, calls[0].clock;
      assert Fair(ren, l, f, calls[0]);
      SoundIsNamed(l, a);
      StepMatches(ren, l, f, a, b, op, clock);
      StepKeeps(l, a, op, clock);
      var a', b' := Step(l, a, op, clock).0, Step(f, b, CarryOp(ren, op), clock).0;
      RunMatches(ren, l, f, a', b', calls[1..]);
      assert CarryCalls(ren, calls)[1..] == CarryCalls(ren, calls[1..]);
      RepliesHead(l, a, calls);
      RepliesHead(f, b, CarryCalls(ren, calls));
      CarryHead(ren, Step(l, a, op, clock).1, Replies(l, a', calls[1..]));
    }
  }

  lemma RepliesHead(p: Rules, s: State, calls: seq<Call>)
    requires calls != []
    ensures var (t, reply) := Step(p, s, calls[0].op, calls[0].clock);
            Replies(p, s, calls) == [reply] + Replies(p, t, calls[1..])
  {
  }

  lemma CarryHead(ren: string -> string, reply: Reply, rest: seq<Reply>)
    ensures CarryReplies(ren, [reply] + rest) == [CarryReply(ren, reply)] + CarryReplies(ren, rest)
  {
  }

  // ---------------------------------------------------------------- the two providers

  /** The fake over `d` and `o`, and a local provider of the same node and lease limit. */
  datatype Pair = Pair(
    hash: Definition -> string, d: Definition, o: Observation, localShort: string -> string,
    fakeShort: string -> string)

  function Local(q: Pair): Rules { LocalRules(NodeOf(q.d), q.d.maxActiveLeases, q.localShort) }
  function Fake(q: Pair): Rules { FakeRules(q.hash, q.d, q.o, q.fakeShort) }

  ghost predicate PairOk(q: Pair) {
    FakeAccepts(q.hash, q.d, q.o) && Injective(q.localShort) && Injective(q.fakeShort)
  }

  ghost function Renaming(q: Pair, unissued: string): string -> string {
    id => Rename(Local(q), Fake(q), unissued, id)
  }

  lemma PairIsApt(q: Pair, unissued: string)
    requires PairOk(q) && !IsName(Fake(q), unissued)
    ensures Apt(Renaming(q, unissued), Local(q), Fake(q)) && NamesDiffer(Local(q))
  {
    LocalNames(NodeOf(q.d), q.d.maxActiveLeases, q.localShort);
    FakeNames(q.hash, q.d, q.o, q.fakeShort);
    RenameIsApt(Local(q), Fake(q), unissued);
  }

  /** A new acquisition valid for both is answered alike exactly when the node is up or the
      local provider has no place left either. */
  lemma {:induction false} AcquireAgreesExactlyWhenUp(q: Pair, unissued: string, a: State, b: State, r: AcquireRequest,
                                                      clock: Clock)
    requires PairOk(q) && !IsName(Fake(q), unissued)
    requires Sound(Local(q), a) && Same(Renaming(q, unissued), a, b)
    requires AcquireValid(Local(q), r) && AcquireValid(Fake(q), r) && r.key !in a.acquisitions
    ensures Acquire(Fake(q), b, r, clock).1 == CarryReply(Renaming(q, unissued), Acquire(Local(q), a, r, clock).1)
       <==> (Up(q.d, q.o, clock.check) || |Live(a.leases, clock.expiry)| >= q.d.maxActiveLeases)
  {
    var ren, count := Renaming(q, unissued), |Live(a.leases, clock.expiry)|;
    PairIsApt(q, unissued);
    SoundIsNamed(Local(q), a);
    FakeRoom(q.hash, q.d, q.o, q.fakeShort, count, clock.check);
    if Up(q.d, q.o, clock.check) || count >= q.d.maxActiveLeases {
      AcquireMatches(ren, Local(q), Fake(q), a, b, r, clock);
    } else {
      LiveAgrees(ren, a.leases, b.leases, clock.expiry);
      SizeAgrees(ren, Local(q), Fake(q), Live(a.leases, clock.expiry), Live(b.leases, clock.expiry));
    }
  }

  /** What the fake takes as well formed the local provider does too, once lease names are carried over. */
  lemma FakeValidIsLocalValid(q: Pair, unissued: string, op: Op)
    requires ValidFor(Fake(q), op) && HasPrefix(unissued, LEASE)
    ensures ValidFor(Local(q), CarryOp(Homing(q, unissued), op))
  {
    if op.RenewOp? { HomeNamed(q, unissued, op.renew.leaseID); }
  }

  lemma HomeNamed(q: Pair, unissued: string, id: string)
    requires HasPrefix(unissued, LEASE)
    ensures HasPrefix(Rename(Fake(q), Local(q), unissued, id), LEASE)
  {
    if IsName(Fake(q), id) {
      var o, k :| ValidDigest(k) && Fake(q).name(o, k) == id
                  && Rename(Fake(q), Local(q), unissued, id) == Local(q).name(o, k);
      assert (LEASE + q.localShort(LocalText(o, k)))[..|LEASE|] == LEASE;
    }
  }

  /** The local provider's name for the lease the fake calls `id`. */
  ghost function Homing(q: Pair, unissued: string): string -> string {
    id => Rename(Fake(q), Local(q), unissued, id)
  }

  lemma UpIsFairBack(q: Pair, unissued: string, call: Call)
    requires PairOk(q) && ValidFor(Fake(q), call.op) && HasPrefix(unissued, LEASE)
    requires call.op.AcquireOp? ==> Up(q.d, q.o, call.clock.check)
    ensures Fair(Homing(q, unissued), Fake(q), Local(q), call)
  {
    FakeValidIsLocalValid(q, unissued, call.op);
    forall n: nat
      ensures Up(q.d, q.o, call.clock.check) ==> Local(q).room(n, call.clock.check) == Fake(q).room(n, call.clock.check)
    {
      FakeRoom(q.hash, q.d, q.o, q.fakeShort, n, call.clock.check);
    }
  }

  /** Every sequence of requests valid for the fake, whatever lease IDs it mentions, is answered
      alike by the local provider, up to lease names, while the fake's node is up; and the
      leases they hold at the end are the same ones. `unissued` is any text the local provider
      never gives as a name. */
  lemma {:induction false} LocalFollowsFake(q: Pair, unissued: string, calls: seq<Call>)
    requires PairOk(q) && !IsName(Local(q), unissued) && HasPrefix(unissued, LEASE)
    requires forall i | 0 <= i < |calls| :: ValidFor(Fake(q), calls[i].op)
    requires forall i | 0 <= i < |calls| && calls[i].op.AcquireOp? :: Up(q.d, q.o, calls[i].clock.check)
    ensures var ren := Homing(q, unissued);
            && Replies(Local(q), EMPTY, CarryCalls(ren, calls)) == CarryReplies(ren, Replies(Fake(q), EMPTY, calls))
            && Same(ren, Run(Fake(q), EMPTY, calls), Run(Local(q), EMPTY, CarryCalls(ren, calls)))
  {
    LocalNames(NodeOf(q.d), q.d.maxActiveLeases, q.localShort);
    FakeNames(q.hash, q.d, q.o, q.fakeShort);
    RenameIsApt(Fake(q), Local(q), unissued);
    forall i | 0 <= i < |calls| ensures Fair(Homing(q, unissued), Fake(q), Local(q), calls[i]) {
      UpIsFairBack(q, unissued, calls[i]);
    }
    RunMatches(Homing(q, unissued), Fake(q), Local(q), EMPTY, EMPTY, calls);
  }

  /** The other way round: every sequence of local requests that, with lease names carried over,
      is valid for the fake is answered alike by the fake. */
  lemma {:induction false} FakeFollowsLocal(q: Pair, unissued: string, calls: seq<Call>)
    requires PairOk(q) && !IsName(Fake(q), unissued)
    requires forall i | 0 <= i < |calls| :: ValidFor(Fake(q), CarryOp(Renaming(q, unissued), calls[i].op))
    requires forall i | 0 <= i < |calls| && calls[i].op.RenewOp? :: HasPrefix(calls[i].op.renew.leaseID, LEASE)
    requires forall i | 0 <= i < |calls| && calls[i].op.AcquireOp? :: Up(q.d, q.o, calls[i].clock.check)
    ensures var ren := Renaming(q, unissued);
            && Replies(Fake(q), EMPTY, CarryCalls(ren, calls)) == CarryReplies(ren, Replies(Local(q), EMPTY, calls))
            && Same(ren, Run(Local(q), EMPTY, calls), Run(Fake(q), EMPTY, CarryCalls(ren, calls)))
  {
    PairIsApt(q, unissued);
    forall i | 0 <= i < |calls| ensures Fair(Renaming(q, unissued), Local(q), Fake(q), calls[i]) {
      UpIsFair(q, unissued, calls[i]);
    }
    RunMatches(Renaming(q, unissued), Local(q), Fake(q), EMPTY, EMPTY, calls);
  }

  lemma UpIsFair(q: Pair, unissued: string, call: Call)
    requires PairOk(q) && ValidFor(Fake(q), CarryOp(Renaming(q, unissued), call.op))
    requires call.op.RenewOp? ==> HasPrefix(call.op.renew.leaseID, LEASE)
    requires call.op.AcquireOp? ==> Up(q.d, q.o, call.clock.check)
    ensures Fair(Renaming(q, unissued), Local(q), Fake(q), call)
  {
    forall n: nat
      ensures Up(q.d, q.o, call.clock.check) ==> Local(q).room(n, call.clock.check) == Fake(q).room(n, call.clock.check)
    {
      FakeRoom(q.hash, q.d, q.o, q.fakeShort, n, call.clock.check);
    }
  }
}

/** Immutable execution contracts: building one from its request, and the chain of
    amendments an insert-only store accumulates. */
module Contracts {
  import opened Text
  import opened Options
  import opened Paths
  import opened Policy
  import opened Gates

  /** The fields an amendment may not change, besides the contract ID itself. */
  datatype ExecutionIdentity = ExecutionIdentity(
    projectID: string, projectRevision: string, taskID: string, taskRecordID: string, taskRevision: int,
    taskDigest: string, graphRecordID: string, graphRevision: int, graphDigest: string,
    workPackageID: string, workPackageRecordID: string, workPackageDigest: string, executionID: string)

  datatype Reference = Reference(contractID: string, version: int, digest: string)

  datatype Contract = Contract(
    contractID: string, version: int, predecessor: Option<Reference>, identity: ExecutionIdentity,
    permissions: Permissions, budget: BudgetLimits, notBefore: int, deadline: int,
    requiredGates: seq<GateRequirement>, digest: string)

  datatype BuildRequest = BuildRequest(
    contractID: string, version: int, predecessor: Option<Reference>, identity: ExecutionIdentity,
    policy: PolicyRequest, qualityGates: seq<QualityGate>, risks: seq<Risk>, reviewRequired: bool,
    notBefore: int, deadline: int)

  predicate ValidVersion(version: int, predecessor: Option<Reference>, contractID: string) {
    if version == 1 then predecessor.None?
    else
      && predecessor.Some? && predecessor.value.contractID == contractID
      && predecessor.value.version == version - 1 && ValidDigest(predecessor.value.digest)
  }

  const SECOND := 1_000_000_000

  function Unsigned(c: Contract): Contract { c.(digest := "") }

  predicate VerifiesDigest(sha: Contract -> string, c: Contract) {
    ValidDigest(c.digest) && sha(Unsigned(c)) == c.digest
  }

  /** What the built permissions and gates must be, in terms of the request as given. */
  ghost predicate Honours(valid: string -> bool, builtin: string -> string, q: BuildRequest, c: Contract) {
    && (forall p :: Authorized(valid, c.permissions, WRITE, p) <==>
          WRITE in q.policy.capabilities && valid(p) && Writable(q.policy, p))
    && (forall p :: Authorized(valid, c.permissions, INSPECT, p) <==>
          INSPECT in q.policy.capabilities && valid(p) && Inspectable(q.policy, p))
    && (forall k :: k in c.permissions.capabilities <==> k in q.policy.capabilities)
    && (forall k | k in c.permissions.capabilities :: GrantedByAll(q.policy.layers, k))
    && IsEffectiveBudget(q.policy, c.budget)
    && c.notBefore <= c.deadline <= c.notBefore + c.budget.maxWallClockSeconds * SECOND
    && IsGateList(c.requiredGates, Demands(builtin, GateRequest(
         q.qualityGates, q.risks, q.reviewRequired, c.permissions.capabilities)))
  }

  predicate Bound(named: bool, bindingsOk: bool, q: BuildRequest) {
    named && bindingsOk && q.version >= 1 && ValidVersion(q.version, q.predecessor, q.contractID)
  }

  /** The layers pass as given, grant what is asked, and set valid budgets. */
  ghost predicate Grantable(valid: string -> bool, q: BuildRequest) {
    LayersPass(valid, q.policy.layers) && Privileged(q.policy) && BudgetsValid(q.policy)
  }

  /** The time asked for is within the requested wall clock and every ceiling. */
  ghost predicate WindowFits(q: BuildRequest) {
    var window := q.deadline - q.notBefore;
    && 0 <= window <= q.policy.budget.maxWallClockSeconds * SECOND
    && forall l | l in q.policy.layers :: window <= l.budgetCeiling.maxWallClockSeconds * SECOND
  }

  function GatesAsked(q: BuildRequest): GateRequest {
    GateRequest(q.qualityGates, q.risks, q.reviewRequired, q.policy.capabilities)
  }

  ghost predicate GatesAgree(builtin: string -> string, q: BuildRequest) {
    Consistent(Demands(builtin, GatesAsked(q)))
  }

  /** A window fits all the limits exactly when it fits the smallest. */
  lemma WindowWithin(q: BuildRequest, b: BudgetLimits)
    requires IsEffectiveBudget(q.policy, b)
    ensures WindowFits(q) <==> 0 <= q.deadline - q.notBefore <= b.maxWallClockSeconds * SECOND
  {
    if WindowFits(q) {
      var seconds := (q.deadline - q.notBefore + SECOND - 1) / SECOND;
      var longer := if b.maxWallClockSeconds < seconds then seconds else b.maxWallClockSeconds;
      var enough := b.(maxWallClockSeconds := longer);
      forall l | l in q.policy.layers ensures Below(enough, l.budgetCeiling) { assert Below(b, l.budgetCeiling); }
      assert Below(enough, b);
    }
  }

  /** `Build`. `named` and `bindingsOk` stand for the checks of `validateBindings` before and
      after the version check: the names of contract, execution and author, and then the
      identity, digest-format and registry checks. */
  method Build(valid: string -> bool, builtin: string -> string, sha: Contract -> string,
               named: bool, bindingsOk: bool, q: BuildRequest) returns (r: Result<Contract>)
    ensures r.Ok? ==>
      var c := r.value;
      && named && bindingsOk && q.version >= 1 && ValidVersion(q.version, q.predecessor, q.contractID)
      && c.contractID == q.contractID && c.version == q.version && c.predecessor == q.predecessor
      && c.identity == q.identity && c.notBefore == q.notBefore && c.deadline == q.deadline
      && c.digest == sha(Unsigned(c))
    ensures r.Ok? ==> Honours(valid, builtin, q, r.value)
    ensures r.Ok? <==> Bound(named, bindingsOk, q) && Grantable(valid, q) && WindowFits(q) && GatesAgree(builtin, q)
    ensures r == Err(AmendmentConflict) <==>
      named && q.version >= 1 && !ValidVersion(q.version, q.predecessor, q.contractID)
    ensures r == Err(PrivilegeEscalation) <==>
      Bound(named, bindingsOk, q) && LayersPass(valid, q.policy.layers) && !Privileged(q.policy)
    ensures r == Err(RequiredGatesConflict) <==>
      Bound(named, bindingsOk, q) && Grantable(valid, q) && WindowFits(q) && !GatesAgree(builtin, q)
  {
    var n := NormalizeRequest(q.policy);
    SamePrivileges(n, q.policy);
    ConsistencyForgetsListing(builtin, GatesAsked(q), n.capabilities);
    if !named || q.version < 1 { return Err(InvalidContract); }
    if !ValidVersion(q.version, q.predecessor, q.contractID) { return Err(AmendmentConflict); }
    if !bindingsOk { return Err(InvalidContract); }
    var evaluated := EvaluatePolicy(valid, n);
    if evaluated.Err? { return Err(evaluated.error); }
    var permissions, budget := evaluated.value.0, evaluated.value.1;
    BudgetCarriesOver(n, q.policy, budget);
    WindowWithin(q, budget);
    if q.deadline < q.notBefore || q.deadline - q.notBefore > budget.maxWallClockSeconds * SECOND {
      return Err(InvalidContract);
    }
    var gates := RequiredGates(builtin,
                               GateRequest(q.qualityGates, q.risks, q.reviewRequired, permissions.capabilities));
    if gates.Err? { return Err(gates.error); }
    var c := Contract(q.contractID, q.version, q.predecessor, q.identity, permissions, budget,
                      q.notBefore, q.deadline, gates.value, "");
    c := c.(digest := sha(c));
    NormalizationHonoured(valid, q.policy, n, c);
    r := Ok(c);
  }

  lemma PrivilegesCarryOver(n: PolicyRequest, q: PolicyRequest)
    requires SameLayers(n.layers, q.layers) && n.scope == q.scope && n.budget == q.budget
    requires SameMembers(n.capabilities, q.capabilities) && SameMembers(n.secretIDs, q.secretIDs)
    ensures Privileged(n) ==> Privileged(q)
    ensures BudgetsValid(n) ==> BudgetsValid(q)
  {
    forall l | l in q.layers
      ensures exists m ::
        m in n.layers && m.budgetCeiling == l.budgetCeiling && SameMembers(m.allowedSecretIDs, l.allowedSecretIDs)
    {
      assert Matched(l, n.layers);
      var m :| m in n.layers && SameLayer(l, m);
    }
    if Privileged(n) {
      forall c | c in q.capabilities ensures KnownCapability(c) && GrantedByAll(q.layers, c) {
        GrantsCarryOver(n, q, c);
      }
      assert SecretsGranted(q) by {
        if q.secretIDs != [] { assert q.secretIDs[0] in n.secretIDs; }
      }
      if p :| Inspectable(n, p) { SameLayersSameMeaning(n, q, p); }
      if p :| Writable(n, p) { SameLayersSameMeaning(n, q, p); }
    }
  }

  /** Normalising a request changes nothing about whether it may be granted. */
  lemma {:induction false} SamePrivileges(n: PolicyRequest, q: PolicyRequest)
    requires SameLayers(n.layers, q.layers) && n.scope == q.scope && n.budget == q.budget
    requires SameMembers(n.capabilities, q.capabilities) && SameMembers(n.secretIDs, q.secretIDs)
    ensures (Privileged(n) <==> Privileged(q)) && (BudgetsValid(n) <==> BudgetsValid(q))
  {
    PrivilegesCarryOver(n, q);
    PrivilegesCarryOver(q, n);
  }

  lemma NormalizationHonoured(valid: string -> bool, q: PolicyRequest, n: PolicyRequest, c: Contract)
    requires Normal(n) && SameLayers(n.layers, q.layers) && n.scope == q.scope && n.budget == q.budget
    requires SameMembers(n.capabilities, q.capabilities) && CapabilitiesGranted(n)
    requires PermissionsMean(n, c.permissions) && IsEffectiveBudget(n, c.budget)
    ensures forall p :: Authorized(valid, c.permissions, WRITE, p) <==>
              WRITE in q.capabilities && valid(p) && Writable(q, p)
    ensures forall p :: Authorized(valid, c.permissions, INSPECT, p) <==>
              INSPECT in q.capabilities && valid(p) && Inspectable(q, p)
    ensures forall k | k in c.permissions.capabilities :: GrantedByAll(q.layers, k)
    ensures IsEffectiveBudget(q, c.budget)
  {
    forall p
      ensures Authorized(valid, c.permissions, WRITE, p) <==> WRITE in q.capabilities && valid(p) && Writable(q, p)
      ensures Authorized(valid, c.permissions, INSPECT, p) <==>
        INSPECT in q.capabilities && valid(p) && Inspectable(q, p)
    {
      AuthorizedMeans(valid, n, c.permissions, p);
      SameLayersSameMeaning(n, q, p);
    }
    forall k | k in c.permissions.capabilities ensures GrantedByAll(q.layers, k) { GrantsCarryOver(n, q, k); }
    BudgetCarriesOver(n, q, c.budget);
  }

  lemma GrantsCarryOver(n: PolicyRequest, q: PolicyRequest, k: string)
    requires SameLayers(n.layers, q.layers) && GrantedByAll(n.layers, k)
    ensures GrantedByAll(q.layers, k)
  {
    forall l | l in q.layers ensures k in l.allowedCapabilities && k !in l.deniedCapabilities {
      assert Matched(l, n.layers);
      var m :| m in n.layers && SameLayer(l, m);
    }
  }

  lemma CeilingsAgree(a: seq<PolicyLayer>, b: seq<PolicyLayer>, c: BudgetLimits)
    requires forall l {:trigger Matched(l, b)} | l in a :: Matched(l, b)
    requires forall l | l in b :: Below(c, l.budgetCeiling)
    ensures forall l | l in a :: Below(c, l.budgetCeiling)
  {
    forall l | l in a ensures Below(c, l.budgetCeiling) {
      assert Matched(l, b);
      var m :| m in b && SameLayer(l, m);
    }
  }

  lemma BudgetCarriesOver(n: PolicyRequest, q: PolicyRequest, c: BudgetLimits)
    requires SameLayers(n.layers, q.layers) && n.budget == q.budget && IsEffectiveBudget(n, c)
    ensures IsEffectiveBudget(q, c)
  {
    CeilingsAgree(q.layers, n.layers, c);
    forall d | Below(d, q.budget) && (forall l | l in q.layers :: Below(d, l.budgetCeiling)) ensures Below(d, c) {
      CeilingsAgree(n.layers, q.layers, d);
    }
  }

  // ---------------------------------------------------------------- the store

  type Key = (string, int)
  type Rows = map<Key, Contract>

  predicate SameExecution(a: Contract, b: Contract) {
    a.contractID == b.contractID && a.identity == b.identity
  }

  /** The prior-version check of `Create`, against the rows read at that moment. */
  predicate AmendmentOk(sha: Contract -> string, rows: Rows, c: Contract) {
    c.version > 1 ==>
      && (c.contractID, c.version - 1) in rows && c.predecessor.Some?
      && var prior := rows[(c.contractID, c.version - 1)];
         && prior.digest == c.predecessor.value.digest && VerifiesDigest(sha, prior) && SameExecution(prior, c)
  }

  /** UNIQUE (project_id, execution_id, version), for rows other than `c`'s own. */
  predicate ExecutionTaken(rows: Rows, c: Contract) {
    exists k | k in rows ::
      && k != (c.contractID, c.version) && rows[k].version == c.version
      && rows[k].identity.projectID == c.identity.projectID && rows[k].identity.executionID == c.identity.executionID
  }

  datatype SaveResult = Inserted | AlreadyPresent | SaveConflict

  /** INSERT OR IGNORE, then the digest comparison. */
  function SaveOutcome(rows: Rows, c: Contract): SaveResult {
    var key := (c.contractID, c.version);
    if key in rows then (if rows[key].digest == c.digest then AlreadyPresent else SaveConflict)
    else if ExecutionTaken(rows, c) then SaveConflict
    else Inserted
  }

  function SaveRows(rows: Rows, c: Contract): Rows {
    if SaveOutcome(rows, c).Inserted? then rows[(c.contractID, c.version) := c] else rows
  }

  /** What `Build` guarantees of a contract handed to the store. */
  predicate Built(sha: Contract -> string, c: Contract) {
    c.version >= 1 && ValidVersion(c.version, c.predecessor, c.contractID) && c.digest == sha(Unsigned(c))
  }

  predicate Linked(sha: Contract -> string, rows: Rows, k: Key)
    requires k in rows
  {
    var c := rows[k];
    && c.contractID == k.0 && c.version == k.1 && Built(sha, c)
    && (c.version > 1 ==>
          && (k.0, k.1 - 1) in rows && c.predecessor == Some(Reference(k.0, k.1 - 1, rows[(k.0, k.1 - 1)].digest))
          && SameExecution(rows[(k.0, k.1 - 1)], c))
  }

  /** Every stored version extends the one before it, and no two rows share an execution slot. */
  ghost predicate Chained(sha: Contract -> string, rows: Rows) {
    && (forall k {:trigger Linked(sha, rows, k)} | k in rows :: Linked(sha, rows, k))
    && (forall j, k | j in rows && k in rows && SameSlot(rows[j], rows[k]) :: j == k)
  }

  predicate SameSlot(a: Contract, b: Contract) {
    && a.version == b.version && a.identity.projectID == b.identity.projectID
    && a.identity.executionID == b.identity.executionID
  }

  ghost predicate Extends(older: Rows, newer: Rows) {
    forall k | k in older :: k in newer && newer[k] == older[k]
  }

  /** The check may be made against any earlier state of the store: whatever other calls
      inserted in between, saving afterwards still extends the chain. */
  lemma {:induction false} SaveKeepsChain(sha: Contract -> string, read: Rows, rows: Rows, c: Contract)
    requires Chained(sha, rows) && Extends(read, rows) && Built(sha, c) && AmendmentOk(sha, read, c)
    ensures Chained(sha, SaveRows(rows, c)) && Extends(rows, SaveRows(rows, c))
  {
    if SaveOutcome(rows, c).Inserted? {
      var key := (c.contractID, c.version);
      var after := rows[key := c];
      forall k | k in after ensures Linked(sha, after, k) {
        if k != key { assert Linked(sha, rows, k); }
      }
    }
  }

  /** Versions run from 1 without a gap, and all share one execution identity. */
  lemma {:induction false} ChainReachesFirst(sha: Contract -> string, rows: Rows, id: string, version: int, v: int)
    requires Chained(sha, rows) && (id, version) in rows && 1 <= v <= version
    ensures (id, v) in rows && SameExecution(rows[(id, v)], rows[(id, version)])
    decreases version - v
  {
    assert Linked(sha, rows, (id, version));
    if v < version {
      ChainReachesFirst(sha, rows, id, version, v + 1);
      assert Linked(sha, rows, (id, v + 1));
    }
  }

  /** Each link names its predecessor's digest, so a chain is fixed by its newest row
      wherever digests identify contracts. */
  lemma {:induction false} NewestFixesChain(sha: Contract -> string, a: Rows, b: Rows, id: string, version: int, v: int)
    requires Chained(sha, a) && Chained(sha, b) && (id, version) in a && (id, version) in b
    requires forall x, y :: sha(x) == sha(y) ==> x == y
    requires a[(id, version)].digest == b[(id, version)].digest && 1 <= v <= version
    ensures (id, v) in a && (id, v) in b && a[(id, v)] == b[(id, v)]
    decreases version - v
  {
    assert Linked(sha, a, (id, version)) && Linked(sha, b, (id, version));
    if v == version {
      SameDigestSameContract(sha, a[(id, v)], b[(id, v)]);
    } else {
      NewestFixesChain(sha, a, b, id, version, v + 1);
      assert Linked(sha, a, (id, v + 1)) && Linked(sha, b, (id, v + 1));
      assert Linked(sha, a, (id, v)) && Linked(sha, b, (id, v));
      SameDigestSameContract(sha, a[(id, v)], b[(id, v)]);
    }
  }

  lemma SameDigestSameContract(sha: Contract -> string, x: Contract, y: Contract)
    requires x.digest == y.digest && x.digest == sha(Unsigned(x)) && y.digest == sha(Unsigned(y))
    requires forall x, y :: sha(x) == sha(y) ==> x == y
    ensures x == y
  {
    assert Unsigned(x) == Unsigned(y);
    assert x == Unsigned(x).(digest := x.digest) && y == Unsigned(y).(digest := y.digest);
  }

  /** An execution is governed by one contract: two stored contracts for it share their ID. */
  lemma {:induction false} OneContractPerExecution(sha: Contract -> string, rows: Rows, j: Key, k: Key)
    requires Chained(sha, rows) && j in rows && k in rows
    requires rows[j].identity.projectID == rows[k].identity.projectID
    requires rows[j].identity.executionID == rows[k].identity.executionID
    ensures j.0 == k.0
  {
    assert Linked(sha, rows, j) && Linked(sha, rows, k);
    ChainReachesFirst(sha, rows, j.0, j.1, 1);
    ChainReachesFirst(sha, rows, k.0, k.1, 1);
    assert Linked(sha, rows, (j.0, 1)) && Linked(sha, rows, (k.0, 1));
    assert SameSlot(rows[(j.0, 1)], rows[(k.0, 1)]);
  }

  /** A version after the first names the digest of the one before it on record, for the same
      execution. */
  predicate Follows(rows: Rows, id: string, version: int, predecessor: Option<Reference>,
                    identity: ExecutionIdentity)
  {
    version > 1 ==>
      && (id, version - 1) in rows && predecessor.Some?
      && predecessor.value.digest == rows[(id, version - 1)].digest && rows[(id, version - 1)].identity == identity
  }

  /** No other contract has this version for the execution. */
  predicate SlotFree(rows: Rows, id: string, version: int, identity: ExecutionIdentity) {
    forall k | k in rows && k != (id, version) && rows[k].version == version ::
      rows[k].identity.projectID != identity.projectID || rows[k].identity.executionID != identity.executionID
  }

  /** On a chained store nothing else is asked of the version before. */
  lemma {:induction false} FollowsIsAmendment(sha: Contract -> string, rows: Rows, c: Contract)
    requires Chained(sha, rows) && Built(sha, c)
    ensures AmendmentOk(sha, rows, c) <==> Follows(rows, c.contractID, c.version, c.predecessor, c.identity)
  {
    var before := (c.contractID, c.version - 1);
    if before in rows { assert Linked(sha, rows, before); }
  }

  /** The store as it persists: rows are only ever added. */
  class ContractStore {
    var rows: Rows

    constructor ()
      ensures rows == map[]
    {
      rows := map[];
    }

    method Save(c: Contract) returns (r: SaveResult)
      modifies this
      ensures r == SaveOutcome(old(rows), c) && rows == SaveRows(old(rows), c)
    {
      var key := (c.contractID, c.version);
      if key in rows {
        r := if rows[key].digest == c.digest then AlreadyPresent else SaveConflict;
      } else if ExecutionTaken(rows, c) {
        r := SaveConflict;
      } else {
        rows := rows[key := c];
        r := Inserted;
      }
    }

    /** `Create`: build, check against the prior version, save. */
    method Create(valid: string -> bool, builtin: string -> string, sha: Contract -> string,
                  named: bool, bindingsOk: bool, q: BuildRequest) returns (r: Result<Contract>)
      requires Chained(sha, rows)
      modifies this
      ensures Chained(sha, rows) && Extends(old(rows), rows)
      ensures r.Ok? ==>
        && Built(sha, r.value) && Honours(valid, builtin, q, r.value)
        && (q.contractID, q.version) in rows && rows[(q.contractID, q.version)].digest == r.value.digest
        && AmendmentOk(sha, old(rows), r.value)
      ensures r.Err? ==> rows == old(rows)
      ensures rows == old(rows) || (r.Ok? && rows == old(rows)[(q.contractID, q.version) := r.value])
      ensures (q.contractID, q.version) !in old(rows) ==>
        (r.Ok? <==>
          && Bound(named, bindingsOk, q) && Grantable(valid, q) && WindowFits(q) && GatesAgree(builtin, q)
          && Follows(old(rows), q.contractID, q.version, q.predecessor, q.identity)
          && SlotFree(old(rows), q.contractID, q.version, q.identity))
    {
      var built := Build(valid, builtin, sha, named, bindingsOk, q);
      if built.Err? { return built; }
      r := Keep(sha, built.value);
    }

    /** Check a built contract against its predecessor on record, and store it. */
    method Keep(sha: Contract -> string, c: Contract) returns (r: Result<Contract>)
      requires Chained(sha, rows) && Built(sha, c)
      modifies this
      ensures Chained(sha, rows) && Extends(old(rows), rows)
      ensures r.Ok? ==>
        && r.value == c && AmendmentOk(sha, old(rows), c)
        && (c.contractID, c.version) in rows && rows[(c.contractID, c.version)].digest == c.digest
      ensures r.Err? ==> rows == old(rows)
      ensures rows == old(rows) || (r.Ok? && rows == old(rows)[(c.contractID, c.version) := c])
      ensures r == Err(AmendmentConflict) <==>
        !Follows(old(rows), c.contractID, c.version, c.predecessor, c.identity)
      ensures r.Ok? <==>
        && Follows(old(rows), c.contractID, c.version, c.predecessor, c.identity)
        && (if (c.contractID, c.version) in old(rows) then old(rows)[(c.contractID, c.version)].digest == c.digest
            else SlotFree(old(rows), c.contractID, c.version, c.identity))
    {
      FollowsIsAmendment(sha, rows, c);
      if !AmendmentOk(sha, rows, c) { return Err(AmendmentConflict); }
      SaveKeepsChain(sha, rows, rows, c);
      var saved := Save(c);
      if saved.SaveConflict? { return Err(StoreConflict); }
      r := Ok(c);
    }
  }
}

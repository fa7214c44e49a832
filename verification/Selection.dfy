/** Dispatch selection: every candidate is explained, the eligible ones are ordered by
    preference and then identity, and the first one, or the operator's choice among them, wins. */
module Selection {
  import opened Sorting
  import opened Text
  import opened Options
  import opened ComputeNode
  import Policy

  datatype RegistryLifecycle = Active | Deprecated | Disabled | UnknownRegistry
  datatype Trade = Trade(
    id: string, version: int, contentHash: string, lifecycle: RegistryLifecycle, required: seq<string>)
  datatype Worker = Worker(
    id: string, version: int, lifecycle: RegistryLifecycle, tradeID: string, tradeVersion: int, tags: seq<string>,
    runtimeID: string, runtimeVersion: int, provider: string, model: string, modelVersion: string)
  datatype Candidate = Candidate(
    worker: Worker, trade: Trade, runtime: Binding, runtimeAvailable: bool, runtimeCapabilities: seq<string>,
    node: Definition, observation: Observation)
  datatype Identity = Identity(
    workerID: string, workerVersion: int, nodeID: string, nodeVersion: int, runtimeID: string, runtimeVersion: int,
    provider: string, model: string, modelVersion: string)

  datatype TaskView = TaskView(projectID: string, taskID: string, taskRevision: int, graphRevision: int, state: string)
  datatype NodeView = NodeView(
    projectID: string, taskID: string, taskRevision: int, graphRevision: int, workPackageID: string, recordID: string,
    definitionHash: string, readiness: string)
  datatype WorkView = WorkView(
    projectID: string, taskID: string, taskRevision: int, graphRevision: int, workPackageID: string, recordID: string,
    trade: Option<Binding>)
  datatype Adaptation = Adaptation(
    projectID: string, adaptationID: string, version: int, lifecycle: RegistryLifecycle, tradeID: string,
    tradeVersion: int,
    required: seq<string>)
  datatype Risk = Low | Moderate | High | Critical | UnknownRisk
  datatype Budget = Budget(tokens: int, costMicros: int, wallClock: int, concurrent: int)
  datatype Gate = Gate(id: string, version: int, digest: string)
  datatype Evidence = Evidence(gate: Gate, evidenceID: string, evidenceDigest: string)
  datatype Preference = Preference(workerID: string, nodeID: string)
  datatype Override = Override(workerID: string, nodeID: string, actorID: string, reasonCode: string)
  datatype SelectionPolicy = SelectionPolicy(
    allowed: seq<string>, maximumRisk: Risk, maximumBudget: Budget, activeAssignments: int, evidence: seq<Evidence>,
    preferred: seq<Preference>)

  /** A request, apart from its candidates. */
  datatype Terms = Terms(
    task: TaskView, node: NodeView, work: WorkView, workDigest: string, adaptation: Option<Adaptation>, risk: Risk,
    budget: Budget, capabilities: seq<string>, gates: seq<Gate>, policy: SelectionPolicy, override: Option<Override>,
    now: int)

  datatype Explanation = Explanation(candidate: Identity, accepted: bool, reasons: seq<string>)
  datatype Outcome =
    | Rejected
    | Answer(selected: Option<Identity>, explanations: seq<Explanation>, blocked: bool, blockReasons: seq<string>,
             override: Option<Override>, auditReason: string)

  /** What the surroundings fix: digests of definitions and the decimal form of numbers. */
  datatype World = World(hash: Definition -> string, show: int -> string)

  // ---------------------------------------------------------------- identities and their order

  function IdentityOf(c: Candidate): Identity {
    Identity(c.worker.id, c.worker.version, c.node.nodeID, c.node.version, c.runtime.id, c.runtime.version,
             c.worker.provider, c.worker.model, c.worker.modelVersion)
  }

  predicate IdentityLess(a: Identity, b: Identity) {
    if a.workerID != b.workerID then Less(a.workerID, b.workerID)
    else if a.workerVersion != b.workerVersion then a.workerVersion < b.workerVersion
    else if a.nodeID != b.nodeID then Less(a.nodeID, b.nodeID)
    else if a.nodeVersion != b.nodeVersion then a.nodeVersion < b.nodeVersion
    else if a.runtimeID != b.runtimeID then Less(a.runtimeID, b.runtimeID)
    else a.runtimeVersion < b.runtimeVersion
  }

  /** The index of the first preference for this worker on this node; past the end if none. */
  function PreferenceRank(id: Identity, preferred: seq<Preference>): (r: nat)
    ensures r <= |preferred|
    ensures r < |preferred| ==> preferred[r] == Preference(id.workerID, id.nodeID)
    ensures forall i | 0 <= i < r :: preferred[i] != Preference(id.workerID, id.nodeID)
  {
    if preferred == [] then 0
    else if preferred[0] == Preference(id.workerID, id.nodeID) then 0
    else 1 + PreferenceRank(id, preferred[1..])
  }

  predicate PreferredLess(preferred: seq<Preference>, a: Identity, b: Identity) {
    var ra, rb := PreferenceRank(a, preferred), PreferenceRank(b, preferred);
    if ra != rb then ra < rb else IdentityLess(a, b)
  }

  /** The six fields that tell candidates apart. */
  predicate SameSlot(a: Identity, b: Identity) {
    && a.workerID == b.workerID && a.workerVersion == b.workerVersion && a.nodeID == b.nodeID
    && a.nodeVersion == b.nodeVersion && a.runtimeID == b.runtimeID && a.runtimeVersion == b.runtimeVersion
  }

  lemma {:induction false} IdentityOrder(a: Identity, b: Identity, c: Identity)
    ensures IdentityLess(a, b) ==> !IdentityLess(b, a)
    ensures SameSlot(a, b) || IdentityLess(a, b) || IdentityLess(b, a)
    ensures !IdentityLess(b, a) && !IdentityLess(c, b) ==> !IdentityLess(c, a)
  {
    CompareAll(a.workerID, b.workerID, c.workerID);
    CompareAll(a.nodeID, b.nodeID, c.nodeID);
    CompareAll(a.runtimeID, b.runtimeID, c.runtimeID);
  }

  lemma {:induction false} PreferredOrder(preferred: seq<Preference>, a: Identity, b: Identity, c: Identity)
    ensures PreferredLess(preferred, a, b) ==> !PreferredLess(preferred, b, a)
    ensures SameSlot(a, b) || PreferredLess(preferred, a, b) || PreferredLess(preferred, b, a)
    ensures !PreferredLess(preferred, b, a) && !PreferredLess(preferred, c, b) ==> !PreferredLess(preferred, c, a)
  {
    IdentityOrder(a, b, c);
  }

  // ---------------------------------------------------------------- what a request must be

  /** The trade the work package names; a valid request has one. */
  function TradeOf(t: Terms): Binding { if t.work.trade.Some? then t.work.trade.value else Binding("", 0, "") }

  predicate Letter(c: char) { 'A' <= c <= 'Z' || 'a' <= c <= 'z' || '0' <= c <= '9' }

  predicate ValidID(s: string) {
    && 1 <= |s| <= 128 && Letter(s[0])
    && forall i | 0 <= i < |s| :: Letter(s[i]) || s[i] == '.' || s[i] == '_' || s[i] == ':' || s[i] == '-'
  }

  predicate ValidBudget(b: Budget) { b.tokens > 0 && b.costMicros > 0 && b.wallClock > 0 && b.concurrent > 0 }
  predicate ValidGate(g: Gate) { ValidID(g.id) && g.version >= 1 && ValidDigest(g.digest) }
  predicate ValidReference(b: Binding) { ValidID(b.id) && b.version > 0 && ValidDigest(b.digest) }

  function GateKey(w: World, g: Gate): string { g.id + "\0" + w.show(g.version) + "\0" + g.digest }
  function PreferenceKey(p: Preference): string { p.workerID + "\0" + p.nodeID }

  function SlotKey(w: World, id: Identity): string {
    id.workerID + "\0" + w.show(id.workerVersion) + "\0" + id.nodeID + "\0" + w.show(id.nodeVersion) + "\0"
    + id.runtimeID + "\0" + w.show(id.runtimeVersion)
  }

  predicate ValidAdaptation(a: Adaptation) {
    && ValidID(a.projectID) && ValidID(a.adaptationID) && a.version >= 1 && !a.lifecycle.UnknownRegistry?
    && ValidID(a.tradeID) && a.tradeVersion >= 1 && forall i | 0 <= i < |a.required| :: ValidID(a.required[i])
  }

  predicate ValidEvidence(e: Evidence) { ValidGate(e.gate) && ValidID(e.evidenceID) && ValidDigest(e.evidenceDigest) }
  predicate ValidPreference(p: Preference) { ValidID(p.workerID) && ValidID(p.nodeID) }
  predicate ValidOverride(o: Override) {
    ValidID(o.workerID) && ValidID(o.nodeID) && ValidID(o.actorID) && ValidID(o.reasonCode)
  }

  predicate ValidScalars(t: Terms) {
    && t.now != 0 && !t.risk.UnknownRisk? && !t.policy.maximumRisk.UnknownRisk?
    && ValidBudget(t.budget) && ValidBudget(t.policy.maximumBudget)
    && t.policy.maximumBudget.concurrent <= 2 && t.policy.activeAssignments >= 0
    && (forall i | 0 <= i < |t.capabilities| :: Policy.KnownCapability(t.capabilities[i]))
    && (forall i | 0 <= i < |t.policy.allowed| :: Policy.KnownCapability(t.policy.allowed[i]))
    && t.work.trade.Some? && ValidReference(TradeOf(t)) && ValidDigest(t.workDigest)
    && (t.adaptation.Some? ==> ValidAdaptation(t.adaptation.value))
    && (t.override.Some? ==> ValidOverride(t.override.value))
  }

  function GateKeyOf(w: World): Gate -> string { (g: Gate) => GateKey(w, g) }
  function EvidenceKeyOf(w: World): Evidence -> string { (e: Evidence) => GateKey(w, e.gate) }
  function SlotKeyOf(w: World): Candidate -> string { (c: Candidate) => SlotKey(w, IdentityOf(c)) }

  predicate ValidTerms(w: World, t: Terms) {
    && ValidScalars(t)
    && (forall i | 0 <= i < |t.gates| :: ValidGate(t.gates[i])) && Distinct(Map(GateKeyOf(w), t.gates))
    && (forall i | 0 <= i < |t.policy.evidence| :: ValidEvidence(t.policy.evidence[i]))
    && Distinct(Map(EvidenceKeyOf(w), t.policy.evidence))
    && (forall i | 0 <= i < |t.policy.preferred| :: ValidPreference(t.policy.preferred[i]))
    && Distinct(Map(PreferenceKey, t.policy.preferred))
  }

  const MAX_CANDIDATES := 256

  predicate ValidRequest(w: World, t: Terms, candidates: seq<Candidate>) {
    ValidTerms(w, t) && |candidates| <= MAX_CANDIDATES && Distinct(Map(SlotKeyOf(w), candidates))
  }

  /** The `seen` loops of the source. */
  method NoneTwice(keys: seq<string>) returns (ok: bool)
    ensures ok <==> Distinct(keys)
  {
    var seen: set<string> := {};
    for i := 0 to |keys|
      invariant forall k :: k in seen <==> k in keys[..i]
      invariant Distinct(keys[..i])
    {
      assert keys[..i + 1] == keys[..i] + [keys[i]];
      if keys[i] in seen {
        var j :| 0 <= j < i && keys[..i][j] == keys[i];
        assert keys[j] == keys[i];
        return false;
      }
      seen := seen + {keys[i]};
    }
    assert keys[..|keys|] == keys;
    return true;
  }

  // ---------------------------------------------------------------- why a candidate is not eligible

  predicate SameAuthority(t: Terms) {
    && t.task.projectID == t.work.projectID && t.node.projectID == t.work.projectID
    && t.task.taskID == t.work.taskID && t.node.taskID == t.work.taskID
    && t.task.taskRevision == t.work.taskRevision && t.node.taskRevision == t.work.taskRevision
    && t.task.graphRevision == t.work.graphRevision && t.node.graphRevision == t.work.graphRevision
    && t.node.workPackageID == t.work.workPackageID && t.node.recordID == t.work.recordID
    && t.node.definitionHash == t.workDigest
  }

  predicate AdaptationFits(t: Terms) {
    t.adaptation.Some? ==>
      var a := t.adaptation.value;
      && a.projectID == t.work.projectID && a.tradeID == TradeOf(t).id
      && a.tradeVersion == TradeOf(t).version && a.lifecycle.Active?
  }

  function AuthorityReasons(t: Terms): (r: seq<string>)
    ensures r == [] <==> SameAuthority(t) && t.node.readiness == "ready" && t.task.state == "ready" && AdaptationFits(t)
  {
    if !SameAuthority(t) then ["work_package_authority_mismatch"]
    else if t.node.readiness != "ready" then ["work_package_not_ready"]
    else if t.task.state != "ready" then ["task_not_dispatchable"]
    else if !AdaptationFits(t) then ["project_trade_authority_mismatch"]
    else []
  }

  function RequiredTags(t: Terms, c: Candidate): seq<string> {
    c.trade.required + (if t.adaptation.Some? then t.adaptation.value.required else [])
  }

  const MissingCapability := (tag: string) => "missing_capability:" + tag

  predicate TradeFits(ref: Binding, c: Candidate) {
    && c.trade.id == ref.id && c.trade.version == ref.version && c.trade.contentHash == ref.digest
    && c.trade.lifecycle.Active?
    && c.worker.lifecycle.Active? && c.worker.tradeID == ref.id && c.worker.tradeVersion == ref.version
  }

  function TradeReasons(t: Terms, c: Candidate): (r: seq<string>)
    ensures r == [] <==> TradeFits(TradeOf(t), c) && forall tag | tag in RequiredTags(t, c) :: tag in c.worker.tags
  {
    var ref := TradeOf(t);
    if c.trade.id != ref.id || c.trade.version != ref.version || c.trade.contentHash != ref.digest
    then ["trade_authority_mismatch"]
    else if !c.trade.lifecycle.Active? then ["trade_unavailable"]
    else if !c.worker.lifecycle.Active? then ["worker_unavailable"]
    else if c.worker.tradeID != ref.id || c.worker.tradeVersion != ref.version then ["worker_trade_mismatch"]
    else
      var tags := SortStrings(RequiredTags(t, c));
      SameElements(tags, RequiredTags(t, c));
      Strays(tags, c.worker.tags, MissingCapability)
  }

  function NeededAccess(t: Terms): Access {
    if Policy.WRITE in t.capabilities || "branch" in t.capabilities then WriteAccess else ReadAccess
  }

  function NodeNeeds(t: Terms, c: Candidate): Requirements {
    Requirements("", "", Capacity(0, 0, 0), [], NeededAccess(t), c.runtime)
  }

  predicate RuntimeBound(c: Candidate) {
    && c.worker.runtimeID == c.runtime.id && c.worker.runtimeVersion == c.runtime.version
    && ValidReference(c.runtime) && HasPrefix(c.runtime.id, "runtime:")
  }

  function RuntimeReasons(w: World, t: Terms, c: Candidate): (r: seq<string>)
    ensures r == [] <==>
      RuntimeBound(c) && c.runtimeAvailable && Fit(w.hash, c.node, c.observation, NodeNeeds(t, c), t.now)
  {
    if !RuntimeBound(c) then ["runtime_worker_mismatch"]
    else if !c.runtimeAvailable then ["runtime_unavailable"]
    else
      var all := Complaints(w.hash, c.node, c.observation, NodeNeeds(t, c), t.now);
      NormalEmpty(all);
      NormalForm(Less, all)
  }

  function PermissionReasons(capabilities: seq<string>, allowed: seq<string>, offered: seq<string>): (r: seq<string>)
    ensures r == [] <==> forall c | c in capabilities :: c in allowed && c in offered
  {
    if capabilities == [] then [] else
      assert forall c :: c in capabilities <==> c == capabilities[0] || c in capabilities[1..];
      When(capabilities[0] !in allowed, "capability_denied_by_policy:" + capabilities[0])
      + When(capabilities[0] !in offered, "runtime_capability_unavailable:" + capabilities[0])
      + PermissionReasons(capabilities[1..], allowed, offered)
  }

  function RiskRank(r: Risk): int {
    match r
    case Low => 0
    case Moderate => 1
    case High => 2
    case Critical => 3
    case UnknownRisk => -1
  }

  predicate HasEvidence(g: Gate, evidence: seq<Evidence>) {
    exists i | 0 <= i < |evidence| :: evidence[i].gate == g
  }

  /** The first gate without evidence. */
  function GateReasons(gates: seq<Gate>, evidence: seq<Evidence>): (r: seq<string>)
    ensures r == [] <==> forall i | 0 <= i < |gates| :: HasEvidence(gates[i], evidence)
  {
    if gates == [] then []
    else if !HasEvidence(gates[0], evidence) then ["missing_gate_evidence:" + gates[0].id]
    else
      assert forall i | 1 <= i < |gates| :: gates[i] == gates[1..][i - 1];
      assert forall i | 0 <= i < |gates[1..]| :: gates[1..][i] == gates[i + 1];
      GateReasons(gates[1..], evidence)
  }

  predicate WithinBudget(t: Terms) {
    var m := t.policy.maximumBudget;
    && t.budget.tokens <= m.tokens && t.budget.costMicros <= m.costMicros && t.budget.wallClock <= m.wallClock
    && t.budget.concurrent <= m.concurrent && t.policy.activeAssignments < m.concurrent
  }

  function BudgetReasons(t: Terms): (r: seq<string>)
    ensures r == [] <==> WithinBudget(t)
  {
    var m := t.policy.maximumBudget;
    if t.budget.tokens > m.tokens then ["budget_tokens_exceeded"]
    else if t.budget.costMicros > m.costMicros then ["budget_cost_exceeded"]
    else if t.budget.wallClock > m.wallClock then ["budget_timeout_exceeded"]
    else if t.budget.concurrent > m.concurrent then ["budget_concurrency_exceeded"]
    else if t.policy.activeAssignments >= m.concurrent then ["concurrency_limit_reached"]
    else []
  }

  /** The candidate can be given the work: authority, trade, runtime and node, permissions,
      risk, gates and budget all allow it. */
  predicate Eligible(w: World, t: Terms, c: Candidate) {
    && SameAuthority(t) && t.node.readiness == "ready" && t.task.state == "ready" && AdaptationFits(t)
    && TradeFits(TradeOf(t), c) && (forall tag | tag in RequiredTags(t, c) :: tag in c.worker.tags)
    && RuntimeBound(c) && c.runtimeAvailable && Fit(w.hash, c.node, c.observation, NodeNeeds(t, c), t.now)
    && (forall p | p in t.capabilities :: p in t.policy.allowed && p in c.runtimeCapabilities)
    && RiskRank(t.risk) <= RiskRank(t.policy.maximumRisk)
    && (forall i | 0 <= i < |t.gates| :: HasEvidence(t.gates[i], t.policy.evidence))
    && WithinBudget(t)
  }

  function PolicyReasons(t: Terms, c: Candidate): (r: seq<string>)
    ensures r == [] <==>
      && (forall p | p in t.capabilities :: p in t.policy.allowed && p in c.runtimeCapabilities)
      && RiskRank(t.risk) <= RiskRank(t.policy.maximumRisk)
      && (forall i | 0 <= i < |t.gates| :: HasEvidence(t.gates[i], t.policy.evidence)) && WithinBudget(t)
  {
    SameElements(SortStrings(t.capabilities), t.capabilities);
    var permission := PermissionReasons(SortStrings(t.capabilities), t.policy.allowed, c.runtimeCapabilities);
    if permission != [] then permission
    else if RiskRank(t.risk) > RiskRank(t.policy.maximumRisk) then ["risk_limit_exceeded"]
    else
      var gates := GateReasons(t.gates, t.policy.evidence);
      if gates != [] then gates else BudgetReasons(t)
  }

  /** The reasons against a candidate: those of the first check that has any. */
  function Reasons(w: World, t: Terms, c: Candidate): (r: seq<string>)
    ensures r == [] <==> Eligible(w, t, c)
  {
    var authority := AuthorityReasons(t);
    if authority != [] then authority else
      var trade := TradeReasons(t, c);
      if trade != [] then trade else
        var runtime := RuntimeReasons(w, t, c);
        if runtime != [] then runtime else PolicyReasons(t, c)
  }
}

/** Compute-node inventory: definitions in normal form under a digest, and the eligibility of
    a node from its definition and its latest observation. Instants are integers and 0 is the
    unset instant. */
module ComputeNode {
  import opened Sorting
  import opened Text
  import opened Options

  datatype Binding = Binding(id: string, version: int, digest: string)
  datatype Tool = Tool(name: string, version: string, digest: string)
  datatype Capacity = Capacity(cpuMillis: int, memoryBytes: int, diskBytes: int)
  datatype Lifecycle = ActiveNode | DisabledNode | UnknownLifecycle
  datatype Access = NoAccess | ReadAccess | WriteAccess | UnknownAccess
  datatype Health = UnknownHealth | Healthy | Degraded | Unhealthy

  datatype Definition = Definition(
    schema: string, nodeID: string, version: int, lifecycle: Lifecycle, os: string, architecture: string,
    capacity: Capacity, tools: seq<Tool>, access: Access, runtimes: seq<Binding>, maxActiveLeases: int, digest: string)

  datatype Observation = Observation(
    node: Binding, health: Health, available: Capacity, tools: seq<Tool>, runtimes: seq<Binding>,
    activeLeases: int, observedAt: int, expiresAt: int)

  datatype Requirements = Requirements(
    os: string, architecture: string, minimum: Capacity, tools: seq<Tool>, access: Access, runtime: Binding)

  const SCHEMA := "syncgate.compute-node.v1"

  // ---------------------------------------------------------------- normal forms

  predicate ToolLess(a: Tool, b: Tool) {
    if a.name != b.name then Less(a.name, b.name)
    else if a.version != b.version then Less(a.version, b.version)
    else Less(a.digest, b.digest)
  }

  predicate BindingLess(a: Binding, b: Binding) {
    if a.id != b.id then Less(a.id, b.id)
    else if a.version != b.version then a.version < b.version
    else Less(a.digest, b.digest)
  }

  lemma LessTransitive(a: string, b: string, c: string)
    requires Less(a, b) && Less(b, c)
    ensures Less(a, c)
  {
    LessTrichotomy(a, b);
    LessTrichotomy(b, c);
    NotLessTransitive(a, b, c);
    LessTrichotomy(a, c);
  }

  /** `Less` totally orders these three strings. */
  lemma Compare(a: string, b: string, c: string)
    ensures a == b || Less(a, b) || Less(b, a)
    ensures !(Less(a, b) && Less(b, a))
    ensures Less(a, b) && Less(b, c) ==> Less(a, c) && a != c
  {
    LessTrichotomy(a, b);
    if Less(a, b) && Less(b, c) {
      LessTransitive(a, b, c);
      LessTrichotomy(a, c);
    }
  }

  lemma {:induction false} CompareAll(a: string, b: string, c: string)
    ensures Less(a, b) && Less(b, c) ==> Less(a, c)
    ensures a == b || Less(a, b) || Less(b, a)
    ensures b == c || Less(b, c) || Less(c, b)
    ensures a == c || Less(a, c) || Less(c, a)
    ensures !(Less(a, b) && Less(b, a)) && !(Less(b, c) && Less(c, b)) && !(Less(a, c) && Less(c, a))
    ensures !Less(a, a)
    ensures Less(c, a) && Less(a, b) ==> Less(c, b)
    ensures Less(b, c) && Less(c, a) ==> Less(b, a)
    ensures Less(c, b) && Less(b, a) ==> Less(c, a)
  {
    Compare(a, b, c);
    Compare(b, c, a);
    Compare(c, a, b);
    Compare(c, b, a);
    LessTrichotomy(a, a);
  }

  lemma ToolOrder()
    ensures StrictWeak(ToolLess) && forall s :: Discriminates(ToolLess, s)
  {
    forall a: Tool, b: Tool, c: Tool
      ensures ToolLess(a, b) ==> !ToolLess(b, a)
      ensures a == b || ToolLess(a, b) || ToolLess(b, a)
      ensures !ToolLess(b, a) && !ToolLess(c, b) ==> !ToolLess(c, a)
    {
      CompareAll(a.name, b.name, c.name);
      CompareAll(a.version, b.version, c.version);
      CompareAll(a.digest, b.digest, c.digest);
    }
  }

  lemma BindingOrder()
    ensures StrictWeak(BindingLess) && forall s :: Discriminates(BindingLess, s)
  {
    forall a: Binding, b: Binding, c: Binding
      ensures BindingLess(a, b) ==> !BindingLess(b, a)
      ensures a == b || BindingLess(a, b) || BindingLess(b, a)
      ensures !BindingLess(b, a) && !BindingLess(c, b) ==> !BindingLess(c, a)
    {
      CompareAll(a.id, b.id, c.id);
      CompareAll(a.digest, b.digest, c.digest);
    }
  }

  /** `normalizeTools` and `normalizeBindings`: sort a copy, then drop adjacent duplicates. */
  method Normalize<T(==,!new)>(less: (T, T) -> bool, values: seq<T>) returns (unique: seq<T>)
    ensures unique == NormalForm(less, values)
  {
    var result := SortBy(less, values);
    unique := [];
    for i := 0 to |result|
      invariant unique == Dedupe(result[..i])
    {
      assert result[..i + 1][..i] == result[..i];
      if |unique| == 0 || unique[|unique| - 1] != result[i] {
        unique := unique + [result[i]];
      }
    }
    assert result[..|result|] == result;
  }

  // ---------------------------------------------------------------- definitions

  predicate Space(c: char) {
    || '\t' <= c <= '\r' || c == ' ' || c == '\U{85}' || c == '\U{a0}' || c == '\U{1680}'
    || '\U{2000}' <= c <= '\U{200a}'
    || c == '\U{2028}' || c == '\U{2029}' || c == '\U{202f}' || c == '\U{205f}' || c == '\U{3000}'
  }

  /** `strings.TrimSpace` leaves nothing. */
  predicate Blank(s: string) { forall i | 0 <= i < |s| :: Space(s[i]) }

  predicate ValidCapacity(c: Capacity) { c.cpuMillis >= 0 && c.memoryBytes >= 0 && c.diskBytes >= 0 }

  function AccessRank(a: Access): int {
    match a
    case NoAccess => 0
    case ReadAccess => 1
    case WriteAccess => 2
    case UnknownAccess => -1
  }

  predicate ValidTools(tools: seq<Tool>) {
    && |tools| <= 256
    && (forall i | 0 <= i < |tools| ::
         !Blank(tools[i].name) && !Blank(tools[i].version) && ValidDigest(tools[i].digest))
    && (forall i | 1 <= i < |tools| :: tools[i - 1].name != tools[i].name)
  }

  predicate ValidRuntimes(runtimes: seq<Binding>) {
    && 0 < |runtimes| <= 256
    && forall i | 0 <= i < |runtimes| ::
         Namespaced(runtimes[i].id, "runtime:") && runtimes[i].version > 0 && ValidDigest(runtimes[i].digest)
  }

  predicate ValidDefinition(d: Definition) {
    && d.schema == SCHEMA && Namespaced(d.nodeID, "node:") && d.version >= 1 && !d.lifecycle.UnknownLifecycle?
    && !Blank(d.os) && !Blank(d.architecture) && ValidCapacity(d.capacity) && d.maxActiveLeases >= 1
    && AccessRank(d.access) >= 0 && ValidTools(d.tools) && ValidRuntimes(d.runtimes)
  }

  function NormalDefinition(d: Definition): Definition {
    d.(schema := SCHEMA, tools := NormalForm(ToolLess, d.tools), runtimes := NormalForm(BindingLess, d.runtimes),
       digest := "")
  }

  function BuildDefinition(hash: Definition -> string, d: Definition): Option<Definition> {
    var n := NormalDefinition(d);
    if ValidDefinition(n) then Some(n.(digest := hash(n))) else None
  }

  predicate VerifyDefinition(hash: Definition -> string, d: Definition) {
    && ValidDigest(d.digest)
    && var built := BuildDefinition(hash, d.(digest := "")); built.Some? && built.value.digest == d.digest
  }

  lemma NormalIdempotent(d: Definition)
    ensures NormalDefinition(NormalDefinition(d)) == NormalDefinition(d)
  {
    ToolOrder();
    BindingOrder();
    NormalIsCanonical(ToolLess, d.tools, NormalForm(ToolLess, d.tools));
    NormalIsCanonical(BindingLess, d.runtimes, NormalForm(BindingLess, d.runtimes));
  }

  /** What is built verifies, and building it again changes nothing. */
  lemma {:induction false} BuiltVerifies(hash: Definition -> string, d: Definition)
    requires forall x :: ValidDigest(hash(x))
    requires BuildDefinition(hash, d).Some?
    ensures var b := BuildDefinition(hash, d).value;
            VerifyDefinition(hash, b) && BuildDefinition(hash, b) == Some(b)
  {
    var b := BuildDefinition(hash, d).value;
    NormalIdempotent(d);
    assert NormalDefinition(b) == NormalDefinition(NormalDefinition(d));
    assert NormalDefinition(b.(digest := "")) == NormalDefinition(b);
  }

  /** Which values occur, and how often or in what order they are listed, in a definition. */
  ghost predicate SameInventory(a: Definition, b: Definition) {
    && a.(schema := "", tools := [], runtimes := [], digest := "")
        == b.(schema := "", tools := [], runtimes := [], digest := "")
    && (forall t :: t in a.tools <==> t in b.tools)
    && (forall r :: r in a.runtimes <==> r in b.runtimes)
  }

  /** A digest stands for one inventory: verified definitions carry the same digest exactly
      when they say the same thing. */
  lemma {:induction false} DigestBindsInventory(hash: Definition -> string, a: Definition, b: Definition)
    requires forall x, y :: hash(x) == hash(y) ==> x == y
    requires VerifyDefinition(hash, a) && VerifyDefinition(hash, b)
    ensures a.digest == b.digest <==> SameInventory(a, b)
  {
    assert NormalDefinition(a.(digest := "")) == NormalDefinition(a);
    assert NormalDefinition(b.(digest := "")) == NormalDefinition(b);
    assert a.digest == hash(NormalDefinition(a)) && b.digest == hash(NormalDefinition(b));
    if a.digest == b.digest {
      SameNormalSameInventory(a, b);
    }
    if SameInventory(a, b) {
      ToolOrder();
      BindingOrder();
      NormalIsCanonical(ToolLess, a.tools, b.tools);
      NormalIsCanonical(BindingLess, a.runtimes, b.runtimes);
    }
  }

  lemma {:induction false} SameNormalSameInventory(a: Definition, b: Definition)
    requires NormalDefinition(a) == NormalDefinition(b)
    ensures SameInventory(a, b)
  {
    var n := NormalDefinition(a);
    assert forall t :: t in a.tools <==> t in n.tools;
    assert forall t :: t in b.tools <==> t in n.tools;
    assert forall t :: t in a.runtimes <==> t in n.runtimes;
    assert forall t :: t in b.runtimes <==> t in n.runtimes;
  }

  // ---------------------------------------------------------------- eligibility

  function NodeOf(d: Definition): Binding { Binding(d.nodeID, d.version, d.digest) }

  predicate CapacityWithin(o: Capacity, d: Capacity) {
    ValidCapacity(o) && o.cpuMillis <= d.cpuMillis && o.memoryBytes <= d.memoryBytes && o.diskBytes <= d.diskBytes
  }

  predicate Enough(o: Capacity, m: Capacity) {
    m.cpuMillis <= o.cpuMillis && m.memoryBytes <= o.memoryBytes && m.diskBytes <= o.diskBytes
  }

  predicate FreshAt(o: Observation, now: int) {
    now != 0 && o.observedAt != 0 && o.expiresAt != 0 && o.observedAt <= now < o.expiresAt
  }

  /** The definition stands, and the observation is of it and current. */
  predicate Trustworthy(hash: Definition -> string, d: Definition, o: Observation, now: int) {
    && VerifyDefinition(hash, d) && d.lifecycle.ActiveNode?
    && o.node == NodeOf(d) && CapacityWithin(o.available, d.capacity)
    && (forall t | t in o.tools :: t in d.tools) && (forall r | r in o.runtimes :: r in d.runtimes)
    && o.health.Healthy? && FreshAt(o, now)
  }

  /** Everything required is there. */
  predicate Satisfies(d: Definition, o: Observation, q: Requirements) {
    && (q.os == "" || d.os == q.os) && (q.architecture == "" || d.architecture == q.architecture)
    && Enough(o.available, q.minimum) && (forall t | t in q.tools :: t in o.tools)
    && AccessRank(q.access) <= AccessRank(d.access)
    && (q.runtime.id == "" || q.runtime in o.runtimes)
    && o.activeLeases < d.maxActiveLeases
  }

  /** The node may take work. */
  predicate Fit(hash: Definition -> string, d: Definition, o: Observation, q: Requirements, now: int) {
    Trustworthy(hash, d, o, now) && Satisfies(d, o, q)
  }

  function When(c: bool, reason: string): seq<string> { if c then [reason] else [] }

  /** One `reason` for each value that is not among `known`. */
  function Strays<T(==,!new)>(values: seq<T>, known: seq<T>, reason: T -> string): (r: seq<string>)
    ensures r == [] <==> forall v | v in values :: v in known
  {
    if values == [] then [] else
      var init, last := values[..|values| - 1], values[|values| - 1];
      assert forall v :: v in values <==> v in init || v == last;
      Strays(init, known, reason) + When(last !in known, reason(last))
  }

  const ToolDrift := (t: Tool) => "node_observation_tool_drift"
  const RuntimeDrift := (r: Binding) => "node_observation_runtime_drift"
  const ToolMissing := (t: Tool) => "tool_unavailable:" + t.name

  function ObservationComplaints(hash: Definition -> string, d: Definition, o: Observation, now: int): (r: seq<string>)
    ensures r == [] <==> Trustworthy(hash, d, o, now)
  {
    When(!VerifyDefinition(hash, d) || !d.lifecycle.ActiveNode?, "node_definition_unavailable")
    + When(o.node != NodeOf(d), "node_observation_identity_mismatch")
    + When(!CapacityWithin(o.available, d.capacity), "node_observation_capacity_invalid")
    + Strays(o.tools, d.tools, ToolDrift) + Strays(o.runtimes, d.runtimes, RuntimeDrift)
    + When(!o.health.Healthy?, "node_health_unavailable") + When(!FreshAt(o, now), "node_observation_stale")
  }

  function RequirementComplaints(d: Definition, o: Observation, q: Requirements): (r: seq<string>)
    ensures r == [] <==> Satisfies(d, o, q)
  {
    When(q.os != "" && d.os != q.os, "os_mismatch")
    + When(q.architecture != "" && d.architecture != q.architecture, "architecture_mismatch")
    + When(!Enough(o.available, q.minimum), "capacity_unavailable")
    + Strays(NormalForm(ToolLess, q.tools), o.tools, ToolMissing)
    + When(AccessRank(d.access) < AccessRank(q.access), "repository_access_unavailable")
    + When(q.runtime.id != "" && q.runtime !in o.runtimes, "runtime_unavailable")
    + When(o.activeLeases >= d.maxActiveLeases, "lease_limit_reached")
  }

  function Complaints(hash: Definition -> string, d: Definition, o: Observation, q: Requirements,
                      now: int): (r: seq<string>)
    ensures r == [] <==> Fit(hash, d, o, q, now)
  {
    ObservationComplaints(hash, d, o, now) + RequirementComplaints(d, o, q)
  }

  /** Appends one reason for each stray value, as the loops of `Evaluate` do. */
  method AddStrays<T(==,!new)>(before: seq<string>, values: seq<T>, known: seq<T>, reason: T -> string)
    returns (reasons: seq<string>)
    ensures reasons == before + Strays(values, known, reason)
  {
    reasons := before;
    for i := 0 to |values|
      invariant reasons == before + Strays(values[..i], known, reason)
    {
      assert values[..i + 1][..i] == values[..i];
      if values[i] !in known { reasons := reasons + [reason(values[i])]; }
    }
    assert values[..|values|] == values;
  }

  method CollectObservation(hash: Definition -> string, d: Definition, o: Observation, now: int)
    returns (all: seq<string>)
    ensures all == ObservationComplaints(hash, d, o, now)
  {
    all := When(!VerifyDefinition(hash, d) || !d.lifecycle.ActiveNode?, "node_definition_unavailable")
      + When(o.node != NodeOf(d), "node_observation_identity_mismatch")
      + When(!CapacityWithin(o.available, d.capacity), "node_observation_capacity_invalid");
    all := AddStrays(all, o.tools, d.tools, ToolDrift);
    all := AddStrays(all, o.runtimes, d.runtimes, RuntimeDrift);
    all := all + When(!o.health.Healthy?, "node_health_unavailable") + When(!FreshAt(o, now), "node_observation_stale");
  }

  method CollectRequirements(d: Definition, o: Observation, q: Requirements) returns (all: seq<string>)
    ensures all == RequirementComplaints(d, o, q)
  {
    all := When(q.os != "" && d.os != q.os, "os_mismatch")
      + When(q.architecture != "" && d.architecture != q.architecture, "architecture_mismatch")
      + When(!Enough(o.available, q.minimum), "capacity_unavailable");
    var tools := Normalize(ToolLess, q.tools);
    all := AddStrays(all, tools, o.tools, ToolMissing);
    all := all + When(AccessRank(d.access) < AccessRank(q.access), "repository_access_unavailable")
      + When(q.runtime.id != "" && q.runtime !in o.runtimes, "runtime_unavailable")
      + When(o.activeLeases >= d.maxActiveLeases, "lease_limit_reached");
  }

  /** Every complaint once, in order. */
  method Evaluate(hash: Definition -> string, d: Definition, o: Observation, q: Requirements, now: int)
    returns (eligible: bool, reasons: seq<string>)
    ensures reasons == NormalForm(Less, Complaints(hash, d, o, q, now))
    ensures eligible <==> Fit(hash, d, o, q, now)
    ensures eligible <==> reasons == []
  {
    var observed := CollectObservation(hash, d, o, now);
    var required := CollectRequirements(d, o, q);
    reasons := Normalize(Less, observed + required);
    eligible := reasons == [];
    NormalEmpty(observed + required);
  }

  lemma NormalEmpty(s: seq<string>)
    ensures NormalForm(Less, s) == [] <==> s == []
  {
    var n := NormalForm(Less, s);
    if s != [] { assert s[0] in n; }
    if n != [] { assert n[0] in s; }
  }
}

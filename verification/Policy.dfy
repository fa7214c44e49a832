/** Effective permissions of an execution contract: policy layers are normalised,
    intersected and pruned into path lists that `AuthorizePath` queries. */
module Policy {
  import opened Sorting
  import opened Text
  import opened Paths

  const INSPECT := "inspect"
  const WRITE := "write"
  const SECRET := "secret"
  const MERGE := "merge"
  const DEPLOYMENT := "deployment"
  const INFRASTRUCTURE := "infrastructure"

  predicate KnownCapability(c: string) {
    c in {INSPECT, WRITE, "shell", "test", "dependency_install", "network", SECRET, "database", "branch",
          MERGE, DEPLOYMENT, INFRASTRUCTURE}
  }

  const LAYER_NAMES: seq<string> := ["project", "runtime", "task", "trade", "user", "work_package", "worker"]

  datatype BudgetLimits = BudgetLimits(
    maxTokens: int, maxCostMicros: int, maxWallClockSeconds: int, maxRetries: int, maxToolCalls: int,
    maxConcurrentWorkers: int)

  datatype PolicyLayer = PolicyLayer(
    name: string, allowedCapabilities: seq<string>, deniedCapabilities: seq<string>,
    inspectPaths: seq<string>, writePaths: seq<string>, forbiddenPaths: seq<string>,
    allowedSecretIDs: seq<string>, budgetCeiling: BudgetLimits)

  datatype WorkScope = WorkScope(allowed: seq<string>, inspect: seq<string>, forbidden: seq<string>)

  datatype PolicyRequest = PolicyRequest(
    scope: WorkScope, capabilities: seq<string>, secretIDs: seq<string>, layers: seq<PolicyLayer>,
    budget: BudgetLimits)

  datatype Permissions = Permissions(
    capabilities: seq<string>, inspectPaths: seq<string>, writePaths: seq<string>, forbidden: seq<string>,
    secretIDs: seq<string>)

  datatype PolicyError =
    | InvalidContract | PrivilegeEscalation | RequiredGatesConflict | AmendmentConflict | StoreConflict
  datatype Result<+T> = Ok(value: T) | Err(error: PolicyError)

  // ---------------------------------------------------------------- what the layers mean

  ghost predicate Forbidden(q: PolicyRequest, p: string) {
    Covered(q.scope.forbidden, p) || exists l :: l in q.layers && Covered(l.forbiddenPaths, p)
  }

  /** Allowed by the work package, by every layer, and forbidden by none. */
  ghost predicate Writable(q: PolicyRequest, p: string) {
    && Covered(q.scope.allowed, p) && (forall l | l in q.layers :: Covered(l.writePaths, p))
    && !Forbidden(q, p)
  }

  ghost predicate Inspectable(q: PolicyRequest, p: string) {
    && (Covered(q.scope.allowed, p) || Covered(q.scope.inspect, p))
    && (forall l | l in q.layers :: Covered(l.inspectPaths, p)) && !Forbidden(q, p)
  }

  // ---------------------------------------------------------------- binary search

  /** `sort.Search` for the first entry not below `value`. */
  function SearchFrom(values: seq<string>, value: string, lo: nat, hi: nat): (i: nat)
    requires lo <= hi <= |values|
    ensures lo <= i <= hi
    decreases hi - lo
  {
    if lo == hi then lo
    else
      var mid := (lo + hi) / 2;
      if Less(values[mid], value) then SearchFrom(values, value, mid + 1, hi)
      else SearchFrom(values, value, lo, mid)
  }

  predicate Has(values: seq<string>, value: string) {
    var i := SearchFrom(values, value, 0, |values|);
    i < |values| && values[i] == value
  }

  lemma {:induction false} SearchFinds(values: seq<string>, value: string, lo: nat, hi: nat, k: nat)
    requires lo <= hi <= |values| && Sorted(Less, values) && Distinct(values)
    requires lo <= k < hi && values[k] == value
    ensures SearchFrom(values, value, lo, hi) == k
    decreases hi - lo
  {
    var mid := (lo + hi) / 2;
    BelowMeansBefore(values, mid, k);
    if mid < k {
      SearchFinds(values, value, mid + 1, hi, k);
    } else if k < mid {
      SearchFinds(values, value, lo, mid, k);
    } else {
      SearchBelow(values, value, lo, mid);
    }
  }

  lemma {:induction false} BelowMeansBefore(values: seq<string>, i: nat, k: nat)
    requires i < |values| && k < |values| && Sorted(Less, values) && Distinct(values)
    ensures Less(values[i], values[k]) <==> i < k
  {
    LessTrichotomy(values[i], values[k]);
    if i < k { assert values[i] != values[k] && !Less(values[k], values[i]); }
  }

  lemma {:induction false} SearchBelow(values: seq<string>, value: string, lo: nat, hi: nat)
    requires lo <= hi < |values| && Sorted(Less, values) && Distinct(values) && values[hi] == value
    ensures SearchFrom(values, value, lo, hi) == hi
    decreases hi - lo
  {
    if lo < hi {
      var mid := (lo + hi) / 2;
      BelowMeansBefore(values, mid, hi);
      SearchBelow(values, value, mid + 1, hi);
    }
  }

  /** On a sorted list the search decides membership. */
  lemma {:induction false} HasIsMember(values: seq<string>, value: string)
    requires Sorted(Less, values) && Distinct(values)
    ensures Has(values, value) <==> value in values
  {
    if value in values {
      var k :| 0 <= k < |values| && values[k] == value;
      SearchFinds(values, value, 0, |values|, k);
    }
  }

  // ---------------------------------------------------------------- normalisation

  predicate Strict(values: seq<string>) {
    (forall i, j | 0 <= i < j < |values| :: !Less(values[j], values[i])) && Distinct(values)
  }

  predicate NormalLayer(l: PolicyLayer) {
    Strict(l.allowedCapabilities) && Strict(l.deniedCapabilities) && Strict(l.allowedSecretIDs)
  }

  predicate Normal(q: PolicyRequest) {
    Strict(q.capabilities) && Strict(q.secretIDs) && forall l | l in q.layers :: NormalLayer(l)
  }

  /** The two layers grant and deny the same things. */
  ghost predicate SameLayer(a: PolicyLayer, b: PolicyLayer) {
    && a.name == b.name && a.budgetCeiling == b.budgetCeiling
    && SameMembers(a.allowedCapabilities, b.allowedCapabilities)
    && SameMembers(a.deniedCapabilities, b.deniedCapabilities)
    && SameMembers(a.allowedSecretIDs, b.allowedSecretIDs)
    && SameCoverage(a.inspectPaths, b.inspectPaths) && SameCoverage(a.writePaths, b.writePaths)
    && SameCoverage(a.forbiddenPaths, b.forbiddenPaths)
  }

  ghost predicate Matched(a: PolicyLayer, b: seq<PolicyLayer>) {
    exists m :: m in b && SameLayer(a, m)
  }

  ghost predicate SameLayers(a: seq<PolicyLayer>, b: seq<PolicyLayer>) {
    && |a| == |b|
    && (forall l {:trigger Matched(l, b)} | l in a :: Matched(l, b))
    && (forall l {:trigger Matched(l, a)} | l in b :: Matched(l, a))
  }

  /** `kept` holds the listed paths that are not shadowed. */
  ghost predicate KeepsUnshadowed(kept: seq<string>, paths: seq<string>) {
    forall x :: x in kept <==> x in paths && !Shadowed(paths, x)
  }

  /** `n` is `l` as normalised: the same grants, its lists sorted, its shadowed paths dropped. */
  ghost predicate NormalizedLayer(n: PolicyLayer, l: PolicyLayer) {
    && NormalLayer(n) && SameLayer(n, l) && KeepsUnshadowed(n.inspectPaths, l.inspectPaths)
    && KeepsUnshadowed(n.writePaths, l.writePaths) && KeepsUnshadowed(n.forbiddenPaths, l.forbiddenPaths)
  }

  method NormalizePolicyLayer(l: PolicyLayer) returns (n: PolicyLayer)
    ensures NormalizedLayer(n, l)
  {
    var allowed := SortedUnique(l.allowedCapabilities);
    var denied := SortedUnique(l.deniedCapabilities);
    var inspect := CanonicalPaths(l.inspectPaths);
    var write := CanonicalPaths(l.writePaths);
    var forbidden := CanonicalPaths(l.forbiddenPaths);
    var secrets := SortedUnique(l.allowedSecretIDs);
    n := PolicyLayer(l.name, allowed, denied, inspect, write, forbidden, secrets, l.budgetCeiling);
  }

  predicate NameLess(a: PolicyLayer, b: PolicyLayer) { Less(a.name, b.name) }

  ghost predicate Pointwise(a: seq<PolicyLayer>, b: seq<PolicyLayer>) {
    |a| == |b| && forall j | 0 <= j < |a| :: NormalizedLayer(a[j], b[j])
  }

  method NormalizeLayers(given: seq<PolicyLayer>) returns (layers: seq<PolicyLayer>)
    ensures Pointwise(layers, given)
  {
    layers := [];
    for i := 0 to |given|
      invariant Pointwise(layers, given[..i])
    {
      var layer := NormalizePolicyLayer(given[i]);
      layers := layers + [layer];
    }
    assert given[..|given|] == given;
  }

  lemma SameLayerSymmetric(a: PolicyLayer, b: PolicyLayer)
    requires SameLayer(a, b)
    ensures SameLayer(b, a)
  {
  }

  lemma MatchForth(layers: seq<PolicyLayer>, given: seq<PolicyLayer>, l: PolicyLayer)
    requires Pointwise(layers, given) && l in layers
    ensures NormalLayer(l) && Matched(l, given)
  {
    var j :| 0 <= j < |layers| && layers[j] == l;
    assert given[j] in given && SameLayer(l, given[j]);
  }

  lemma MatchBack(layers: seq<PolicyLayer>, given: seq<PolicyLayer>, m: PolicyLayer)
    requires Pointwise(layers, given) && m in given
    ensures Matched(m, layers)
  {
    var j :| 0 <= j < |given| && given[j] == m;
    SameLayerSymmetric(layers[j], m);
    assert layers[j] in layers && SameLayer(m, layers[j]);
  }

  lemma MatchedElsewhere(m: PolicyLayer, a: seq<PolicyLayer>, b: seq<PolicyLayer>)
    requires Matched(m, a) && forall l :: l in a <==> l in b
    ensures Matched(m, b)
  {
    var l :| l in a && SameLayer(m, l);
    assert l in b;
  }

  lemma PointwiseSorted(layers: seq<PolicyLayer>, given: seq<PolicyLayer>, sorted: seq<PolicyLayer>)
    requires Pointwise(layers, given) && multiset(sorted) == multiset(layers)
    ensures SameLayers(sorted, given) && forall l | l in sorted :: NormalLayer(l)
  {
    SameElements(layers, sorted);
    forall l | l in sorted ensures NormalLayer(l) && Matched(l, given) { MatchForth(layers, given, l); }
    forall m | m in given ensures Matched(m, sorted) {
      MatchBack(layers, given, m);
      MatchedElsewhere(m, layers, sorted);
    }
  }

  method NormalizeRequest(q: PolicyRequest) returns (n: PolicyRequest)
    ensures Normal(n) && SameLayers(n.layers, q.layers)
    ensures forall valid: string -> bool :: ValidLayers(valid, n.layers) <==> LayersPass(valid, q.layers)
    ensures n.scope == q.scope && n.budget == q.budget
    ensures SameMembers(n.capabilities, q.capabilities) && SameMembers(n.secretIDs, q.secretIDs)
  {
    var capabilities := SortedUnique(q.capabilities);
    var secrets := SortedUnique(q.secretIDs);
    var layers := NormalizeLayers(q.layers);
    PointwiseSorted(layers, q.layers, SortBy(NameLess, layers));
    forall valid: string -> bool ensures ValidLayers(valid, SortBy(NameLess, layers)) <==> LayersPass(valid, q.layers) {
      NormalLayersPass(valid, layers, q.layers);
    }
    n := PolicyRequest(q.scope, capabilities, secrets, SortBy(NameLess, layers), q.budget);
  }

  lemma MatchedCovers(n: PolicyRequest, q: PolicyRequest, p: string)
    requires n.scope == q.scope && forall l {:trigger Matched(l, q.layers)} | l in n.layers :: Matched(l, q.layers)
    ensures Forbidden(n, p) ==> Forbidden(q, p)
    ensures (forall m | m in q.layers :: Covered(m.writePaths, p)) ==>
      forall l | l in n.layers :: Covered(l.writePaths, p)
    ensures (forall m | m in q.layers :: Covered(m.inspectPaths, p)) ==>
      forall l | l in n.layers :: Covered(l.inspectPaths, p)
  {
    forall l | l in n.layers
      ensures exists m :: m in q.layers && (Covered(m.forbiddenPaths, p) <==> Covered(l.forbiddenPaths, p))
                          && (Covered(m.writePaths, p) <==> Covered(l.writePaths, p))
                          && (Covered(m.inspectPaths, p) <==> Covered(l.inspectPaths, p))
    {
      assert Matched(l, q.layers);
      var m :| m in q.layers && SameLayer(l, m);
    }
  }

  /** Normalising changes nothing about which paths may be used. */
  lemma {:induction false} SameLayersSameMeaning(n: PolicyRequest, q: PolicyRequest, p: string)
    requires n.scope == q.scope && SameLayers(n.layers, q.layers)
    ensures Writable(n, p) <==> Writable(q, p)
    ensures Inspectable(n, p) <==> Inspectable(q, p)
  {
    MatchedCovers(n, q, p);
    MatchedCovers(q, n, p);
  }

  // ---------------------------------------------------------------- checks

  const MAX_DURATION_SECONDS := 9223372036 // (2^63 - 1) nanoseconds, in whole seconds

  predicate ValidBudget(b: BudgetLimits) {
    && b.maxTokens >= 1 && b.maxCostMicros >= 1 && 1 <= b.maxWallClockSeconds <= MAX_DURATION_SECONDS
    && b.maxRetries >= 0 && b.maxToolCalls >= 1 && b.maxConcurrentWorkers >= 1
  }

  predicate ValidPolicyPath(valid: string -> bool, p: string) { p == "." || valid(p) }

  predicate ValidLayer(valid: string -> bool, l: PolicyLayer) {
    && (forall c | c in l.allowedCapabilities :: KnownCapability(c))
    && (forall c | c in l.deniedCapabilities :: KnownCapability(c))
    && (forall p | p in l.inspectPaths :: ValidPolicyPath(valid, p))
    && (forall p | p in l.writePaths :: ValidPolicyPath(valid, p))
    && (forall p | p in l.forbiddenPaths :: ValidPolicyPath(valid, p))
  }

  predicate NamedInOrder(layers: seq<PolicyLayer>, names: seq<string>) {
    |layers| == |names| && forall i | 0 <= i < |layers| :: layers[i].name == names[i]
  }

  /** Exactly the seven named layers, each well formed. */
  predicate ValidLayers(valid: string -> bool, layers: seq<PolicyLayer>) {
    NamedInOrder(layers, LAYER_NAMES) && forall i | 0 <= i < |layers| :: ValidLayer(valid, layers[i])
  }

  // ---------------------------------------------------------------- what normalising lets through

  /** Checked once the shadowed paths are gone, a list passes when every path in it is valid
      or shadowed. */
  ghost predicate PathsPass(valid: string -> bool, paths: seq<string>) {
    forall p | p in paths :: ValidPolicyPath(valid, p) || Shadowed(paths, p)
  }

  ghost predicate LayerPasses(valid: string -> bool, l: PolicyLayer) {
    && (forall c | c in l.allowedCapabilities :: KnownCapability(c))
    && (forall c | c in l.deniedCapabilities :: KnownCapability(c))
    && PathsPass(valid, l.inspectPaths) && PathsPass(valid, l.writePaths) && PathsPass(valid, l.forbiddenPaths)
  }

  const NameOf := (l: PolicyLayer) => l.name

  function NamesOf(layers: seq<PolicyLayer>): seq<string> { Map(NameOf, layers) }

  /** The layers as given pass: the seven names, each once and in any order, and each layer's
      capabilities and paths. */
  ghost predicate LayersPass(valid: string -> bool, layers: seq<PolicyLayer>) {
    multiset(NamesOf(layers)) == multiset(LAYER_NAMES) && forall l | l in layers :: LayerPasses(valid, l)
  }

  lemma NormalLayerPasses(valid: string -> bool, n: PolicyLayer, l: PolicyLayer)
    requires NormalizedLayer(n, l)
    ensures ValidLayer(valid, n) <==> LayerPasses(valid, l)
  {
  }

  lemma LayerNamesSorted()
    ensures Sorted(Less, LAYER_NAMES)
  {
    assert Less("task"[1..], "trade"[1..]);
    assert "work_package"[1..][1..][1..][1..] == "_package" && "worker"[1..][1..][1..][1..] == "er";
    assert Less("work_package"[1..][1..][1..][1..], "worker"[1..][1..][1..][1..]);
    assert Less("work_package"[1..][1..][1..], "worker"[1..][1..][1..]);
    assert Less("work_package"[1..][1..], "worker"[1..][1..]);
    assert Less("work_package"[1..], "worker"[1..]);
    assert Less("work_package", "worker") && Less("task", "trade");
    forall i, j | 0 <= i < j < |LAYER_NAMES| ensures !Less(LAYER_NAMES[j], LAYER_NAMES[i]) {
      LessTrichotomy(LAYER_NAMES[i], LAYER_NAMES[j]);
    }
  }

  /** Sorting by name puts a sorted list of names in its places. */
  lemma SortedNames(layers: seq<PolicyLayer>, names: seq<string>)
    requires Sorted(Less, names)
    ensures multiset(NamesOf(layers)) == multiset(names) <==> NamedInOrder(SortBy(NameLess, layers), names)
  {
    var sorted := SortBy(NameLess, layers);
    MapPermutes(NameOf, sorted, layers);
    if multiset(NamesOf(layers)) == multiset(names) {
      LessIsStrictWeak();
      NameLessIsStrictWeak();
      SortBySorts(NameLess, layers);
      LessDiscriminates(names);
      SortedPermutationUnique(Less, names, NamesOf(sorted));
    }
    if NamedInOrder(sorted, names) { assert NamesOf(sorted) == names; }
  }

  lemma NameLessIsStrictWeak()
    ensures StrictWeak(NameLess)
  {
    LessIsStrictWeak();
  }

  lemma OrderedLayersPass(valid: string -> bool, layers: seq<PolicyLayer>, given: seq<PolicyLayer>, names: seq<string>)
    requires Pointwise(layers, given) && Sorted(Less, names)
    ensures var sorted := SortBy(NameLess, layers);
            NamedInOrder(sorted, names) && (forall i | 0 <= i < |sorted| :: ValidLayer(valid, sorted[i]))
            <==> multiset(NamesOf(given)) == multiset(names) && forall l | l in given :: LayerPasses(valid, l)
  {
    var sorted := SortBy(NameLess, layers);
    SortedNames(layers, names);
    assert NamesOf(layers) == NamesOf(given);
    SameElements(sorted, layers);
    forall j | 0 <= j < |layers| ensures ValidLayer(valid, layers[j]) <==> LayerPasses(valid, given[j]) {
      NormalLayerPasses(valid, layers[j], given[j]);
    }
    EachPasses(valid, layers, given, sorted);
  }

  lemma {:induction false} NormalLayersPass(valid: string -> bool, layers: seq<PolicyLayer>, given: seq<PolicyLayer>)
    requires Pointwise(layers, given)
    ensures ValidLayers(valid, SortBy(NameLess, layers)) <==> LayersPass(valid, given)
  {
    LayerNamesSorted();
    OrderedLayersPass(valid, layers, given, LAYER_NAMES);
  }

  lemma EachPasses(valid: string -> bool, layers: seq<PolicyLayer>, given: seq<PolicyLayer>, sorted: seq<PolicyLayer>)
    requires |layers| == |given| && forall l :: l in sorted <==> l in layers
    requires forall j | 0 <= j < |layers| :: ValidLayer(valid, layers[j]) <==> LayerPasses(valid, given[j])
    ensures (forall i | 0 <= i < |sorted| :: ValidLayer(valid, sorted[i])) <==>
      (forall l | l in given :: LayerPasses(valid, l))
  {
    if forall i | 0 <= i < |sorted| :: ValidLayer(valid, sorted[i]) {
      forall l | l in given ensures LayerPasses(valid, l) {
        var j :| 0 <= j < |given| && given[j] == l;
        assert layers[j] in layers;
        var i :| 0 <= i < |sorted| && sorted[i] == layers[j];
      }
    }
    if forall l | l in given :: LayerPasses(valid, l) {
      forall i | 0 <= i < |sorted| ensures ValidLayer(valid, sorted[i]) {
        assert sorted[i] in layers;
        var j :| 0 <= j < |layers| && layers[j] == sorted[i];
        assert given[j] in given;
      }
    }
  }

  /** A malformed path passes unnoticed beside one that contains it; one that sorts before "."
      is refused even beside ".". */
  lemma {:induction false} MalformedPathCanPass()
    ensures var onlyA := (p: string) => p == "a";
            && PathsPass(onlyA, ["a", "a/../b"]) && !ValidPolicyPath(onlyA, "a/../b")
            && !PathsPass(onlyA, ["", "."])
  {
    assert Dir("a") == "a/" && "a/../b"[..2] == "a/";
    assert Less("a", "a/../b") by { assert "a"[1..] == [] && "a/../b"[1..] == "/../b"; }
    assert Shadowed(["a", "a/../b"], "a/../b");
    assert "" in ["", "."] && !Shadowed(["", "."], "");
  }

  ghost predicate GrantedByAll(layers: seq<PolicyLayer>, c: string) {
    forall l | l in layers :: c in l.allowedCapabilities && c !in l.deniedCapabilities
  }

  ghost predicate CapabilitiesGranted(q: PolicyRequest) {
    forall c | c in q.capabilities :: KnownCapability(c) && GrantedByAll(q.layers, c)
  }

  ghost predicate SecretsGranted(q: PolicyRequest) {
    q.secretIDs != [] ==>
      && SECRET in q.capabilities
      && forall s | s in q.secretIDs :: Namespaced(s, "secret:") && forall l | l in q.layers :: s in l.allowedSecretIDs
  }

  /** Nothing is requested beyond what every layer grants, and no requested path right is void. */
  ghost predicate Privileged(q: PolicyRequest) {
    && CapabilitiesGranted(q) && SecretsGranted(q)
    && (INSPECT in q.capabilities ==> exists p :: Inspectable(q, p))
    && (WRITE in q.capabilities ==> exists p :: Writable(q, p))
  }

  ghost predicate BudgetsValid(q: PolicyRequest) {
    ValidBudget(q.budget) && forall l | l in q.layers :: ValidBudget(l.budgetCeiling)
  }

  predicate Below(a: BudgetLimits, b: BudgetLimits) {
    && a.maxTokens <= b.maxTokens && a.maxCostMicros <= b.maxCostMicros
    && a.maxWallClockSeconds <= b.maxWallClockSeconds && a.maxRetries <= b.maxRetries
    && a.maxToolCalls <= b.maxToolCalls && a.maxConcurrentWorkers <= b.maxConcurrentWorkers
  }

  /** `b` is the most generous budget no larger than the request and every ceiling. */
  ghost predicate IsEffectiveBudget(q: PolicyRequest, b: BudgetLimits) {
    && Below(b, q.budget) && (forall l | l in q.layers :: Below(b, l.budgetCeiling))
    && forall c | Below(c, q.budget) && (forall l | l in q.layers :: Below(c, l.budgetCeiling)) :: Below(c, b)
  }

  function Min(a: int, b: int): int { if a < b then a else b }

  method EffectiveBudget(q: PolicyRequest) returns (r: Result<BudgetLimits>)
    ensures r.Ok? <==> BudgetsValid(q)
    ensures r.Ok? ==> IsEffectiveBudget(q, r.value) && ValidBudget(r.value)
    ensures r.Err? ==> r.error == InvalidContract
  {
    if !ValidBudget(q.budget) { return Err(InvalidContract); }
    var b := q.budget;
    for i := 0 to |q.layers|
      invariant ValidBudget(b)
      invariant forall j | 0 <= j < i :: ValidBudget(q.layers[j].budgetCeiling)
      invariant Below(b, q.budget) && forall j | 0 <= j < i :: Below(b, q.layers[j].budgetCeiling)
      invariant forall c | Below(c, q.budget) && (forall l | l in q.layers :: Below(c, l.budgetCeiling)) :: Below(c, b)
    {
      var ceiling := q.layers[i].budgetCeiling;
      if !ValidBudget(ceiling) {
        assert q.layers[i] in q.layers;
        return Err(InvalidContract);
      }
      forall c | Below(c, q.budget) && (forall l | l in q.layers :: Below(c, l.budgetCeiling))
        ensures Below(c, ceiling)
      {
        assert q.layers[i] in q.layers;
      }
      b := BudgetLimits(Min(b.maxTokens, ceiling.maxTokens), Min(b.maxCostMicros, ceiling.maxCostMicros),
                        Min(b.maxWallClockSeconds, ceiling.maxWallClockSeconds), Min(b.maxRetries, ceiling.maxRetries),
                        Min(b.maxToolCalls, ceiling.maxToolCalls),
                        Min(b.maxConcurrentWorkers, ceiling.maxConcurrentWorkers));
    }
    r := Ok(b);
  }

  // ---------------------------------------------------------------- evaluation

  ghost predicate PermissionsMean(q: PolicyRequest, m: Permissions) {
    && m.capabilities == q.capabilities && m.secretIDs == q.secretIDs
    && (forall p {:trigger Covered(m.forbidden, p)} :: Covered(m.forbidden, p) <==> Forbidden(q, p))
    && (if WRITE in q.capabilities
        then forall p | !Forbidden(q, p) :: Covered(m.writePaths, p) <==> Writable(q, p)
        else m.writePaths == [])
    && (if INSPECT in q.capabilities
        then forall p | !Forbidden(q, p) :: Covered(m.inspectPaths, p) <==> Inspectable(q, p)
        else m.inspectPaths == [])
  }

  method CheckCapabilities(q: PolicyRequest) returns (ok: bool)
    requires Normal(q)
    ensures ok <==> CapabilitiesGranted(q)
  {
    for i := 0 to |q.capabilities|
      invariant forall k | 0 <= k < i :: KnownCapability(q.capabilities[k]) && GrantedByAll(q.layers, q.capabilities[k])
    {
      var c := q.capabilities[i];
      if !KnownCapability(c) { return false; }
      for j := 0 to |q.layers|
        invariant forall k | 0 <= k < j :: c in q.layers[k].allowedCapabilities && c !in q.layers[k].deniedCapabilities
      {
        var l := q.layers[j];
        assert l in q.layers;
        HasIsMember(l.allowedCapabilities, c);
        HasIsMember(l.deniedCapabilities, c);
        if Has(l.deniedCapabilities, c) || !Has(l.allowedCapabilities, c) {
          assert c in q.capabilities && !GrantedByAll(q.layers, c);
          return false;
        }
      }
    }
    ok := true;
  }

  method CheckSecrets(q: PolicyRequest) returns (ok: bool)
    requires Normal(q)
    ensures ok <==> SecretsGranted(q)
  {
    if |q.secretIDs| == 0 { return true; }
    HasIsMember(q.capabilities, SECRET);
    if !Has(q.capabilities, SECRET) { return false; }
    for i := 0 to |q.secretIDs|
      invariant forall k | 0 <= k < i :: Namespaced(q.secretIDs[k], "secret:")
      invariant forall k, l | 0 <= k < i && l in q.layers :: q.secretIDs[k] in l.allowedSecretIDs
    {
      var s := q.secretIDs[i];
      if !Namespaced(s, "secret:") { return false; }
      for j := 0 to |q.layers|
        invariant forall k | 0 <= k < j :: s in q.layers[k].allowedSecretIDs
      {
        assert q.layers[j] in q.layers;
        HasIsMember(q.layers[j].allowedSecretIDs, s);
        if !Has(q.layers[j].allowedSecretIDs, s) { return false; }
      }
    }
    ok := true;
  }

  method CollectForbidden(q: PolicyRequest) returns (forbidden: seq<string>)
    ensures forall p {:trigger Covered(forbidden, p)} :: Covered(forbidden, p) <==> Forbidden(q, p)
  {
    var all := q.scope.forbidden;
    for i := 0 to |q.layers|
      invariant forall p :: Covered(all, p) <==>
        Covered(q.scope.forbidden, p) || exists k | 0 <= k < i :: Covered(q.layers[k].forbiddenPaths, p)
    {
      forall p
        ensures Covered(all + q.layers[i].forbiddenPaths, p) <==>
          Covered(all, p) || Covered(q.layers[i].forbiddenPaths, p)
      {
        CoveredConcat(all, q.layers[i].forbiddenPaths, p);
      }
      all := all + q.layers[i].forbiddenPaths;
    }
    forbidden := CanonicalPaths(all);
    forall p ensures Covered(forbidden, p) <==> Forbidden(q, p) {
      assert Covered(forbidden, p) <==> Covered(all, p);
      if Forbidden(q, p) && !Covered(q.scope.forbidden, p) {
        var l :| l in q.layers && Covered(l.forbiddenPaths, p);
        var k :| 0 <= k < |q.layers| && q.layers[k] == l;
      }
    }
  }

  function PathsOf(l: PolicyLayer, write: bool): seq<string> {
    if write then l.writePaths else l.inspectPaths
  }

  ghost predicate InEveryLayer(q: PolicyRequest, write: bool, p: string) {
    forall l | l in q.layers :: Covered(PathsOf(l, write), p)
  }

  lemma PathRights(q: PolicyRequest, p: string)
    ensures Writable(q, p) <==> Covered(q.scope.allowed, p) && InEveryLayer(q, true, p) && !Forbidden(q, p)
    ensures Inspectable(q, p) <==>
      Covered(q.scope.allowed + q.scope.inspect, p) && InEveryLayer(q, false, p) && !Forbidden(q, p)
  {
    CoveredConcat(q.scope.allowed, q.scope.inspect, p);
    if InEveryLayer(q, true, p) {
      forall l | l in q.layers ensures Covered(l.writePaths, p) { assert Covered(PathsOf(l, true), p); }
    }
    if InEveryLayer(q, false, p) {
      forall l | l in q.layers ensures Covered(l.inspectPaths, p) { assert Covered(PathsOf(l, false), p); }
    }
  }

  /** Intersect a starting list with every layer, then drop what is wholly forbidden. */
  method NarrowPaths(start: seq<string>, q: PolicyRequest, write: bool, forbidden: seq<string>)
    returns (result: seq<string>)
    requires forall p {:trigger Covered(forbidden, p)} :: Covered(forbidden, p) <==> Forbidden(q, p)
    ensures forall p | !Forbidden(q, p) :: Covered(result, p) <==> Covered(start, p) && InEveryLayer(q, write, p)
    ensures result != [] <==> exists p :: Covered(start, p) && InEveryLayer(q, write, p) && !Forbidden(q, p)
  {
    var paths := start;
    for i := 0 to |q.layers|
      invariant forall p :: Covered(paths, p) <==>
        Covered(start, p) && forall k | 0 <= k < i :: Covered(PathsOf(q.layers[k], write), p)
    {
      paths := IntersectPaths(paths, PathsOf(q.layers[i], write));
    }
    forall p ensures Covered(paths, p) <==> Covered(start, p) && InEveryLayer(q, write, p) {
      if Covered(paths, p) {
        forall l | l in q.layers ensures Covered(PathsOf(l, write), p) {
          var k :| 0 <= k < |q.layers| && q.layers[k] == l;
        }
      }
    }
    result := RemoveFullyForbidden(paths, forbidden);
  }

  method NarrowInspect(q: PolicyRequest, forbidden: seq<string>) returns (result: seq<string>)
    requires forall p {:trigger Covered(forbidden, p)} :: Covered(forbidden, p) <==> Forbidden(q, p)
    ensures forall p | !Forbidden(q, p) :: Covered(result, p) <==> Inspectable(q, p)
    ensures result != [] <==> exists p :: Inspectable(q, p)
  {
    forall p
      ensures Inspectable(q, p) <==>
        Covered(q.scope.allowed + q.scope.inspect, p) && InEveryLayer(q, false, p) && !Forbidden(q, p)
    {
      PathRights(q, p);
    }
    result := NarrowPaths(q.scope.allowed + q.scope.inspect, q, false, forbidden);
  }

  method NarrowWrite(q: PolicyRequest, forbidden: seq<string>) returns (result: seq<string>)
    requires forall p {:trigger Covered(forbidden, p)} :: Covered(forbidden, p) <==> Forbidden(q, p)
    ensures forall p | !Forbidden(q, p) :: Covered(result, p) <==> Writable(q, p)
    ensures result != [] <==> exists p :: Writable(q, p)
  {
    forall p ensures Writable(q, p) <==>
        Covered(q.scope.allowed, p) && InEveryLayer(q, true, p) && !Forbidden(q, p) {
      PathRights(q, p);
    }
    result := NarrowPaths(q.scope.allowed, q, true, forbidden);
  }

  method EvaluatePolicy(valid: string -> bool, q: PolicyRequest) returns (r: Result<(Permissions, BudgetLimits)>)
    requires Normal(q)
    ensures r.Ok? <==> ValidLayers(valid, q.layers) && Privileged(q) && BudgetsValid(q)
    ensures r == Err(PrivilegeEscalation) <==> ValidLayers(valid, q.layers) && !Privileged(q)
    ensures r.Ok? ==> PermissionsMean(q, r.value.0) && IsEffectiveBudget(q, r.value.1) && ValidBudget(r.value.1)
    ensures r.Err? ==> r.error in {InvalidContract, PrivilegeEscalation}
  {
    if !ValidLayers(valid, q.layers) { return Err(InvalidContract); }
    var granted := CheckCapabilities(q);
    if !granted { return Err(PrivilegeEscalation); }
    var forbidden := CollectForbidden(q);
    var inspect, write: seq<string> := [], [];
    HasIsMember(q.capabilities, INSPECT);
    HasIsMember(q.capabilities, WRITE);
    if Has(q.capabilities, INSPECT) {
      inspect := NarrowInspect(q, forbidden);
      if |inspect| == 0 { return Err(PrivilegeEscalation); }
    }
    if Has(q.capabilities, WRITE) {
      write := NarrowWrite(q, forbidden);
      if |write| == 0 { return Err(PrivilegeEscalation); }
    }
    var secrets := CheckSecrets(q);
    if !secrets { return Err(PrivilegeEscalation); }
    var budget := EffectiveBudget(q);
    if budget.Err? { return Err(budget.error); }
    r := Ok((Permissions(q.capabilities, inspect, write, forbidden, q.secretIDs), budget.value));
  }

  // ---------------------------------------------------------------- the query

  method AuthorizePath(valid: string -> bool, m: Permissions, capability: string, path: string) returns (ok: bool)
    ensures ok <==> Authorized(valid, m, capability, path)
  {
    if !Has(m.capabilities, capability) { return false; }
    if !valid(path) { return false; }
    var forbidden := IsCovered(m.forbidden, path);
    if forbidden { return false; }
    var paths := m.inspectPaths;
    if capability == WRITE {
      paths := m.writePaths;
    } else if capability != INSPECT {
      return false;
    }
    ok := IsCovered(paths, path);
  }

  ghost predicate Authorized(valid: string -> bool, m: Permissions, capability: string, path: string) {
    && Has(m.capabilities, capability) && valid(path) && !Covered(m.forbidden, path)
    && (|| (capability == WRITE && Covered(m.writePaths, path))
        || (capability == INSPECT && Covered(m.inspectPaths, path)))
  }

  /** The optimised lists answer exactly the naive question. */
  lemma {:induction false} AuthorizedMeans(valid: string -> bool, q: PolicyRequest, m: Permissions, path: string)
    requires Normal(q) && PermissionsMean(q, m)
    ensures Authorized(valid, m, WRITE, path) <==> WRITE in q.capabilities && valid(path) && Writable(q, path)
    ensures Authorized(valid, m, INSPECT, path) <==> INSPECT in q.capabilities && valid(path) && Inspectable(q, path)
    ensures forall c | c != WRITE && c != INSPECT :: !Authorized(valid, m, c, path)
  {
    HasIsMember(q.capabilities, WRITE);
    HasIsMember(q.capabilities, INSPECT);
    if WRITE !in q.capabilities { assert !Covered(m.writePaths, path); }
    if INSPECT !in q.capabilities { assert !Covered(m.inspectPaths, path); }
  }
}

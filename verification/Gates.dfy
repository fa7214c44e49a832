/** Quality gates a contract demands, and the evidence that completes it. */
module Gates {
  import opened Sorting
  import opened Text
  import opened Options
  import opened TaskGraph
  import opened Policy

  const HUMAN_REVIEW := "gate:human-review"
  const SECURITY_REVIEW := "gate:security-review"
  const DATA_REVIEW := "gate:data-review"
  const OPERATIONS_APPROVAL := "gate:operations-approval"

  datatype QualityGate = QualityGate(gateID: string, version: int, digest: string, required: bool)
  datatype RiskLevel = RiskLow | RiskMedium | RiskHigh | RiskCritical
  datatype Risk = Risk(name: string, level: RiskLevel)

  datatype GateRequirement = GateRequirement(gateID: string, version: int, digest: string, rationale: string)

  datatype GateRequest = GateRequest(
    qualityGates: seq<QualityGate>, risks: seq<Risk>, reviewRequired: bool, capabilities: seq<string>)

  // ---------------------------------------------------------------- demands

  function Builtin(digest: string -> string, id: string, rationale: string): GateRequirement {
    GateRequirement(id, 1, digest(id + ":v1"), rationale)
  }

  function ReferenceDemand(g: QualityGate): seq<GateRequirement> {
    if g.required then [GateRequirement(g.gateID, g.version, g.digest, "work_package")] else []
  }

  predicate Elevated(r: Risk) { r.level.RiskHigh? || r.level.RiskCritical? }

  function RiskDemand(digest: string -> string, r: Risk): seq<GateRequirement> {
    if !Elevated(r) then []
    else
      [Builtin(digest, HUMAN_REVIEW, "high_risk")] +
      (if r.name == "security" || r.name == "secret" then [Builtin(digest, SECURITY_REVIEW, "security_risk")]
       else if r.name == "data" || r.name == "database" then [Builtin(digest, DATA_REVIEW, "data_risk")]
       else if r.name == "deployment" || r.name == "infrastructure"
       then [Builtin(digest, OPERATIONS_APPROVAL, "operations_risk")]
       else [])
  }

  function CapabilityDemand(digest: string -> string, c: string): seq<GateRequirement> {
    if c == SECRET then [Builtin(digest, SECURITY_REVIEW, "secret_capability")]
    else if c == MERGE then [Builtin(digest, HUMAN_REVIEW, "merge_capability")]
    else if c == DEPLOYMENT || c == INFRASTRUCTURE
    then [Builtin(digest, OPERATIONS_APPROVAL, "operations_capability")]
    else []
  }

  function ByRisk(digest: string -> string): Risk -> seq<GateRequirement> { (r: Risk) => RiskDemand(digest, r) }

  function ByCapability(digest: string -> string): string -> seq<GateRequirement> {
    (c: string) => CapabilityDemand(digest, c)
  }

  function Flatten<S, T>(f: S -> seq<T>, s: seq<S>): seq<T> {
    if s == [] then [] else Flatten(f, s[..|s| - 1]) + f(s[|s| - 1])
  }

  /** Everything the request asks to be gated on, in the order it is considered. */
  function Demands(digest: string -> string, q: GateRequest): seq<GateRequirement> {
    Flatten(ReferenceDemand, q.qualityGates)
    + (if q.reviewRequired then [Builtin(digest, HUMAN_REVIEW, "work_package_review")] else [])
    + Flatten(ByRisk(digest), q.risks) + Flatten(ByCapability(digest), q.capabilities)
  }

  predicate Agree(a: GateRequirement, b: GateRequirement) {
    a.gateID == b.gateID ==> a.version == b.version && a.digest == b.digest
  }

  predicate Consistent(demands: seq<GateRequirement>) {
    forall i, j | 0 <= i < j < |demands| :: Agree(demands[i], demands[j])
  }

  /** `gates` records each demanded gate once, under the smallest rationale given for it. */
  ghost predicate Records(gates: map<string, GateRequirement>, demands: seq<GateRequirement>) {
    && (forall i | 0 <= i < |demands| :: Recorded(gates, demands[i]))
    && (forall id | id in gates :: gates[id].gateID == id && gates[id] in demands)
  }

  predicate Recorded(gates: map<string, GateRequirement>, d: GateRequirement) {
    d.gateID in gates && gates[d.gateID].gateID == d.gateID && Answers(gates[d.gateID], d)
  }

  /** One demand: refuse a conflict, otherwise keep the smaller rationale. */
  method AddGate(gates: map<string, GateRequirement>, ghost before: seq<GateRequirement>, d: GateRequirement)
    returns (ok: bool, after: map<string, GateRequirement>)
    requires Records(gates, before)
    ensures ok <==> forall i | 0 <= i < |before| :: Agree(before[i], d)
    ensures ok ==> Records(after, before + [d])
  {
    if d.gateID in gates {
      var existing := gates[d.gateID];
      if existing.version != d.version || existing.digest != d.digest {
        ghost var k :| 0 <= k < |before| && before[k] == existing;
        return false, gates;
      }
      forall i | 0 <= i < |before| ensures Agree(before[i], d) { assert Recorded(gates, before[i]); }
      after := if Less(d.rationale, existing.rationale) then gates[d.gateID := d] else gates;
      SmallerRationale(gates, before, d);
    } else {
      forall i | 0 <= i < |before| ensures before[i].gateID != d.gateID { assert Recorded(gates, before[i]); }
      after := gates[d.gateID := d];
      LessTrichotomy(d.rationale, d.rationale);
      forall i | 0 <= i < |before| ensures Recorded(after, before[i]) { assert Recorded(gates, before[i]); }
    }
    ok := true;
  }

  lemma SmallerRationale(gates: map<string, GateRequirement>, before: seq<GateRequirement>, d: GateRequirement)
    requires Records(gates, before) && d.gateID in gates
    requires gates[d.gateID].version == d.version && gates[d.gateID].digest == d.digest
    ensures Records(if Less(d.rationale, gates[d.gateID].rationale) then gates[d.gateID := d] else gates, before + [d])
  {
    var existing := gates[d.gateID];
    var after := if Less(d.rationale, existing.rationale) then gates[d.gateID := d] else gates;
    LessTrichotomy(d.rationale, existing.rationale);
    LessTrichotomy(d.rationale, d.rationale);
    forall i | 0 <= i <= |before| ensures Recorded(after, (before + [d])[i]) {
      if i < |before| {
        assert Recorded(gates, before[i]);
        if before[i].gateID == d.gateID && Less(d.rationale, existing.rationale) {
          LessTrichotomy(d.rationale, existing.rationale);
          NotLessTransitive(d.rationale, existing.rationale, before[i].rationale);
        }
      }
    }
  }

  predicate GateLess(a: GateRequirement, b: GateRequirement) { Less(a.gateID, b.gateID) }

  /** `result` is the demanded gates, one per identifier, sorted. */
  ghost predicate IsGateList(result: seq<GateRequirement>, demands: seq<GateRequirement>) {
    && Sorted(GateLess, result)
    && (forall i, j | 0 <= i < j < |result| :: result[i].gateID != result[j].gateID)
    && (forall g | g in result :: g in demands)
    && (forall d {:trigger Answered(result, d)} | d in demands :: Answered(result, d))
  }

  ghost predicate Answered(result: seq<GateRequirement>, d: GateRequirement) {
    exists g :: g in result && Answers(g, d)
  }

  predicate Answers(g: GateRequirement, d: GateRequirement) {
    g.gateID == d.gateID && g.version == d.version && g.digest == d.digest && !Less(d.rationale, g.rationale)
  }

  lemma ConflictFound(demands: seq<GateRequirement>, i: nat)
    requires i < |demands| && exists k | 0 <= k < i :: !Agree(demands[..i][k], demands[i])
    ensures !Consistent(demands)
  {
    var k :| 0 <= k < i && !Agree(demands[..i][k], demands[i]);
    assert !Agree(demands[k], demands[i]);
  }

  method Collect(demands: seq<GateRequirement>) returns (ok: bool, gates: map<string, GateRequirement>)
    ensures ok <==> Consistent(demands)
    ensures ok ==> Records(gates, demands)
  {
    gates := map[];
    for i := 0 to |demands|
      invariant Records(gates, demands[..i]) && Consistent(demands[..i])
    {
      assert demands[..i + 1] == demands[..i] + [demands[i]];
      ok, gates := AddGate(gates, demands[..i], demands[i]);
      if !ok {
        ConflictFound(demands, i);
        return;
      }
    }
    assert demands[..|demands|] == demands;
    ok := true;
  }

  method RequiredGates(digest: string -> string, q: GateRequest) returns (r: Result<seq<GateRequirement>>)
    ensures r.Ok? <==> Consistent(Demands(digest, q))
    ensures r.Ok? ==> IsGateList(r.value, Demands(digest, q))
    ensures r.Err? ==> r.error == RequiredGatesConflict
  {
    var demands := Demands(digest, q);
    var ok, gates := Collect(demands);
    if !ok { return Err(RequiredGatesConflict); }
    var list := GatesOf(gates, demands);
    r := Ok(list);
  }

  method GatesOf(gates: map<string, GateRequirement>, ghost demands: seq<GateRequirement>)
    returns (result: seq<GateRequirement>)
    requires Records(gates, demands)
    ensures IsGateList(result, demands)
  {
    var ids := ListKeys(gates);
    var list := seq(|ids|, i requires 0 <= i < |ids| && (forall id :: id in ids <==> id in gates) => gates[ids[i]]);
    ListedAnswer(gates, demands, ids, list);
    result := SortBy(GateLess, list);
    SortedAnswer(list, demands);
  }

  lemma {:induction false} SortedAnswer(list: seq<GateRequirement>, demands: seq<GateRequirement>)
    requires forall i, j | 0 <= i < j < |list| :: list[i].gateID != list[j].gateID
    requires forall d | d in demands :: Answered(list, d)
    requires forall g | g in list :: g in demands
    ensures IsGateList(SortBy(GateLess, list), demands)
  {
    var result := SortBy(GateLess, list);
    GateLessIsStrictWeak();
    SortBySorts(GateLess, list);
    SameElements(list, result);
    KeysStayDistinct(list, result);
    forall d | d in demands ensures Answered(result, d) {
      var g :| g in list && Answers(g, d);
      assert g in result;
    }
  }

  /** Listing the recorded gates answers every demand, each gate once. */
  lemma ListedAnswer(gates: map<string, GateRequirement>, demands: seq<GateRequirement>, ids: seq<string>,
                     list: seq<GateRequirement>)
    requires Records(gates, demands) && Distinct(ids) && |list| == |ids|
    requires forall id :: id in ids <==> id in gates
    requires forall i | 0 <= i < |ids| :: list[i] == gates[ids[i]]
    ensures forall i, j | 0 <= i < j < |list| :: list[i].gateID != list[j].gateID
    ensures forall d | d in demands :: Answered(list, d)
    ensures forall g | g in list :: g in demands
  {
    forall d | d in demands ensures Answered(list, d) {
      assert Recorded(gates, d);
      assert d.gateID in ids;
      var k :| 0 <= k < |ids| && ids[k] == d.gateID;
      assert list[k] in list;
    }
  }

  lemma {:induction false} GateLessIsStrictWeak()
    ensures StrictWeak(GateLess)
  {
    LessIsStrictWeak();
  }

  lemma KeysStayDistinct(list: seq<GateRequirement>, result: seq<GateRequirement>)
    requires forall i, j | 0 <= i < j < |list| :: list[i].gateID != list[j].gateID
    requires multiset(list) == multiset(result)
    ensures forall i, j | 0 <= i < j < |result| :: result[i].gateID != result[j].gateID
  {
    SameElements(list, result);
    DistinctPermutes(list, result);
    forall i, j | 0 <= i < j < |result| ensures result[i].gateID != result[j].gateID {
      assert result[i] in list && result[j] in list && result[i] != result[j];
    }
  }

  // ---------------------------------------------------------------- completion

  datatype GateEvidence = GateEvidence(gateID: string, version: int, digest: string, satisfied: bool)
  datatype CompletionDecision = CompletionDecision(accepted: bool, missing: seq<string>)

  /** The last satisfied item for a gate is the one that counts. */
  function LastSatisfied(evidence: seq<GateEvidence>, id: string): Option<GateEvidence> {
    if evidence == [] then None
    else
      var last := evidence[|evidence| - 1];
      if last.satisfied && last.gateID == id then Some(last) else LastSatisfied(evidence[..|evidence| - 1], id)
  }

  predicate Satisfies(evidence: seq<GateEvidence>, g: GateRequirement) {
    var e := LastSatisfied(evidence, g.gateID);
    e.Some? && e.value.version == g.version && e.value.digest == g.digest
  }

  method EvaluateCompletion(required: seq<GateRequirement>, evidence: seq<GateEvidence>) returns (d: CompletionDecision)
    ensures d.accepted <==> forall g | g in required :: Satisfies(evidence, g)
    ensures d.accepted <==> d.missing == []
    ensures forall id :: id in d.missing <==> exists g :: g in required && g.gateID == id && !Satisfies(evidence, g)
  {
    var satisfied: map<string, GateEvidence> := map[];
    for i := 0 to |evidence|
      invariant forall id :: LastSatisfied(evidence[..i], id) == if id in satisfied then Some(satisfied[id]) else None
    {
      assert evidence[..i + 1][..i] == evidence[..i];
      if evidence[i].satisfied { satisfied := satisfied[evidence[i].gateID := evidence[i]]; }
    }
    assert evidence[..|evidence|] == evidence;
    var missing: seq<string> := [];
    for i := 0 to |required|
      invariant forall id :: id in missing <==>
                  exists k | 0 <= k < i :: required[k].gateID == id && !Satisfies(evidence, required[k])
      invariant missing == [] <==> forall k | 0 <= k < i :: Satisfies(evidence, required[k])
    {
      var g := required[i];
      if g.gateID !in satisfied || satisfied[g.gateID].version != g.version || satisfied[g.gateID].digest != g.digest {
        assert !Satisfies(evidence, g);
        missing := missing + [g.gateID];
      }
    }
    SameElements(missing, SortStrings(missing));
    d := CompletionDecision(missing == [], SortStrings(missing));
    forall id ensures id in d.missing <==> exists g :: g in required && g.gateID == id && !Satisfies(evidence, g) {
      if g :| g in required && g.gateID == id && !Satisfies(evidence, g) {
        var k :| 0 <= k < |required| && required[k] == g;
      }
    }
  }

  lemma {:induction false} LastSatisfiedIsEvidence(evidence: seq<GateEvidence>, id: string)
    ensures LastSatisfied(evidence, id).Some? ==>
      var e := LastSatisfied(evidence, id).value; e in evidence && e.satisfied && e.gateID == id
  {
    if evidence != [] { LastSatisfiedIsEvidence(evidence[..|evidence| - 1], id); }
  }

  /** Satisfied evidence at another version or digest, coming later, undoes a match. */
  lemma {:induction false} LaterEvidenceDecides(evidence: seq<GateEvidence>, g: GateRequirement, e: GateEvidence)
    requires e.satisfied && e.gateID == g.gateID
    ensures Satisfies(evidence + [e], g) <==> e.version == g.version && e.digest == g.digest
  {
    assert (evidence + [e])[..|evidence|] == evidence;
  }

  /** So a gate can have matching evidence and completion still be refused. */
  lemma {:induction false} MatchCanBeHidden(g: GateRequirement)
    ensures var exact := GateEvidence(g.gateID, g.version, g.digest, true);
            var other := exact.(version := g.version + 1);
            exact in [exact, other] && Satisfies([exact], g) && !Satisfies([exact, other], g)
  {
    var exact := GateEvidence(g.gateID, g.version, g.digest, true);
    var other := exact.(version := g.version + 1);
    assert [] + [exact] == [exact] && [exact] + [other] == [exact, other];
    LaterEvidenceDecides([], g, exact);
    LaterEvidenceDecides([exact], g, other);
  }

  lemma {:induction false} FlattenFrom<S, T>(f: S -> seq<T>, s: seq<S>, y: T)
    requires y in Flatten(f, s)
    ensures exists x :: x in s && y in f(x)
  {
    var init, last := s[..|s| - 1], s[|s| - 1];
    if y !in f(last) {
      FlattenFrom(f, init, y);
      var x :| x in init && y in f(x);
      assert x in s;
    }
  }

  /** What is demanded does not depend on how the capabilities are listed. */
  lemma DemandsForgetListing(digest: string -> string, q: GateRequest, capabilities: seq<string>)
    requires forall c :: c in q.capabilities <==> c in capabilities
    ensures forall d | d in Demands(digest, q) :: d in Demands(digest, q.(capabilities := capabilities))
  {
    forall d | d in Flatten(ByCapability(digest), q.capabilities)
      ensures d in Flatten(ByCapability(digest), capabilities)
    {
      FlattenFrom(ByCapability(digest), q.capabilities, d);
      var c :| c in q.capabilities && d in ByCapability(digest)(c);
      FlattenHas(ByCapability(digest), capabilities, c, d);
    }
  }

  lemma ConsistentPart(a: seq<GateRequirement>, b: seq<GateRequirement>)
    requires Consistent(b) && forall d | d in a :: d in b
    ensures Consistent(a)
  {
    forall i, j | 0 <= i < j < |a| ensures Agree(a[i], a[j]) {
      assert a[i] in b && a[j] in b;
      var m :| 0 <= m < |b| && b[m] == a[i];
      var n :| 0 <= n < |b| && b[n] == a[j];
      assert m < n ==> Agree(b[m], b[n]);
      assert n < m ==> Agree(b[n], b[m]);
    }
  }

  /** Nor does whether the demands agree. */
  lemma ConsistencyForgetsListing(digest: string -> string, q: GateRequest, capabilities: seq<string>)
    requires forall c :: c in q.capabilities <==> c in capabilities
    ensures Consistent(Demands(digest, q)) <==> Consistent(Demands(digest, q.(capabilities := capabilities)))
  {
    var q' := q.(capabilities := capabilities);
    DemandsForgetListing(digest, q, capabilities);
    DemandsForgetListing(digest, q', q.capabilities);
    assert q'.(capabilities := q.capabilities) == q;
    if Consistent(Demands(digest, q)) { ConsistentPart(Demands(digest, q'), Demands(digest, q)); }
    if Consistent(Demands(digest, q')) { ConsistentPart(Demands(digest, q), Demands(digest, q')); }
  }

  lemma {:induction false} FlattenHas<S, T>(f: S -> seq<T>, s: seq<S>, x: S, y: T)
    requires x in s && y in f(x)
    ensures y in Flatten(f, s)
  {
    if s[|s| - 1] != x { FlattenHas(f, s[..|s| - 1], x, y); }
  }

  /** Work that is risky, is to be reviewed, or may merge cannot complete without satisfied
      evidence for the built-in human review at its exact version and digest. */
  lemma {:induction false} HumanReviewUnavoidable(digest: string -> string, q: GateRequest, gates: seq<GateRequirement>,
                                                  evidence: seq<GateEvidence>)
    requires IsGateList(gates, Demands(digest, q)) && (forall g | g in gates :: Satisfies(evidence, g))
    requires q.reviewRequired || MERGE in q.capabilities || exists r :: r in q.risks && Elevated(r)
    ensures GateEvidence(HUMAN_REVIEW, 1, digest(HUMAN_REVIEW + ":v1"), true) in evidence
  {
    var d := HumanDemand(digest, q);
    assert Answered(gates, d);
    var g :| g in gates && Answers(g, d);
    assert Satisfies(evidence, g);
    LastSatisfiedIsEvidence(evidence, HUMAN_REVIEW);
  }

  lemma HumanDemand(digest: string -> string, q: GateRequest) returns (d: GateRequirement)
    requires q.reviewRequired || MERGE in q.capabilities || exists r :: r in q.risks && Elevated(r)
    ensures d in Demands(digest, q)
    ensures d.gateID == HUMAN_REVIEW && d.version == 1 && d.digest == digest(HUMAN_REVIEW + ":v1")
  {
    if q.reviewRequired {
      d := Builtin(digest, HUMAN_REVIEW, "work_package_review");
    } else if MERGE in q.capabilities {
      d := Builtin(digest, HUMAN_REVIEW, "merge_capability");
      FlattenHas(ByCapability(digest), q.capabilities, MERGE, d);
    } else {
      var r :| r in q.risks && Elevated(r);
      d := Builtin(digest, HUMAN_REVIEW, "high_risk");
      FlattenHas(ByRisk(digest), q.risks, r, d);
    }
  }
}

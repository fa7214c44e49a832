/** Choosing among explained candidates, and what the choice depends on. */
module Dispatch {
  import opened Sorting
  import opened Text
  import opened Options
  import opened ComputeNode
  import opened Selection

  // ---------------------------------------------------------------- what an answer must say

  function Explain(w: World, t: Terms, c: Candidate): Explanation {
    var reasons := Reasons(w, t, c);
    Explanation(IdentityOf(c), reasons == [], reasons)
  }

  function Explainer(w: World, t: Terms): Candidate -> Explanation { (c: Candidate) => Explain(w, t, c) }

  function Explained(w: World, t: Terms, candidates: seq<Candidate>): seq<Explanation> {
    Map(Explainer(w, t), candidates)
  }

  predicate ExplanationLess(a: Explanation, b: Explanation) { IdentityLess(a.candidate, b.candidate) }

  predicate Wanted(override: Option<Override>, id: Identity) {
    override.None? || (id.workerID == override.value.workerID && id.nodeID == override.value.nodeID)
  }

  /** `id` belongs to an eligible candidate, and to one the operator asked for if they did. */
  ghost predicate Choice(w: World, t: Terms, candidates: seq<Candidate>, id: Identity) {
    Wanted(t.override, id) && exists c :: c in candidates && IdentityOf(c) == id && Eligible(w, t, c)
  }

  ghost predicate SomeEligible(w: World, t: Terms, candidates: seq<Candidate>) {
    exists c :: c in candidates && Eligible(w, t, c)
  }

  function AllReasons(explanations: seq<Explanation>): seq<string> {
    if explanations == [] then []
    else AllReasons(explanations[..|explanations| - 1]) + explanations[|explanations| - 1].reasons
  }

  function BlockReasons(global: seq<string>, explanations: seq<Explanation>): seq<string> {
    if global != [] then global
    else if AllReasons(explanations) == [] then ["no_registered_candidates"]
    else NormalForm(Less, AllReasons(explanations))
  }

  /** The best choice: every other choice comes after it. */
  ghost predicate Best(w: World, t: Terms, candidates: seq<Candidate>, id: Identity) {
    && Choice(w, t, candidates, id)
    && forall other | Choice(w, t, candidates, other) :: other == id || PreferredLess(t.policy.preferred, id, other)
  }

  /** What is decided, given the explanations. */
  ghost predicate Decides(w: World, t: Terms, candidates: seq<Candidate>, r: Outcome)
    requires r.Answer?
  {
    && (r.blocked <==> !exists id :: Choice(w, t, candidates, id))
    && (if r.blocked then
          && r.selected.None? && r.override.None? && r.auditReason == "deterministic_selection"
          && r.blockReasons == (if SomeEligible(w, t, candidates) then ["operator_override_not_eligible"]
                                else BlockReasons(AuthorityReasons(t), r.explanations))
        else
          && r.selected.Some? && Best(w, t, candidates, r.selected.value) && r.blockReasons == []
          && r.override == t.override
          && r.auditReason == (if t.override.Some? then "operator_override" else "deterministic_selection"))
  }

  ghost predicate Answers(w: World, t: Terms, candidates: seq<Candidate>, r: Outcome) {
    if !ValidRequest(w, t, candidates) then r.Rejected? else
      && r.Answer?
      && Sorted(ExplanationLess, r.explanations) && multiset(r.explanations) == multiset(Explained(w, t, candidates))
      && Decides(w, t, candidates, r)
  }

  // ---------------------------------------------------------------- candidates are told apart

  lemma SlotsDiffer(w: World, candidates: seq<Candidate>, a: Candidate, b: Candidate)
    requires Distinct(Map(SlotKeyOf(w), candidates))
    requires a in candidates && b in candidates && SameSlot(IdentityOf(a), IdentityOf(b))
    ensures a == b
  {
    var i :| 0 <= i < |candidates| && candidates[i] == a;
    var j :| 0 <= j < |candidates| && candidates[j] == b;
    var keys := Map(SlotKeyOf(w), candidates);
    assert keys[i] == SlotKey(w, IdentityOf(a)) && keys[j] == SlotKey(w, IdentityOf(b));
    assert SlotKey(w, IdentityOf(a)) == SlotKey(w, IdentityOf(b));
  }

  lemma {:induction false} ExplanationsDiffer(w: World, t: Terms, candidates: seq<Candidate>)
    requires ValidRequest(w, t, candidates)
    ensures StrictWeak(ExplanationLess) && Discriminates(ExplanationLess, Explained(w, t, candidates))
  {
    forall a: Explanation, b: Explanation, c: Explanation
      ensures ExplanationLess(a, b) ==> !ExplanationLess(b, a)
      ensures !ExplanationLess(b, a) && !ExplanationLess(c, b) ==> !ExplanationLess(c, a)
    {
      IdentityOrder(a.candidate, b.candidate, c.candidate);
    }
    var all := Explained(w, t, candidates);
    forall a, b | a in all && b in all ensures a == b || ExplanationLess(a, b) || ExplanationLess(b, a) {
      MapMember(Explainer(w, t), candidates, a);
      MapMember(Explainer(w, t), candidates, b);
      var x :| x in candidates && Explainer(w, t)(x) == a;
      var y :| y in candidates && Explainer(w, t)(y) == b;
      IdentityOrder(a.candidate, b.candidate, a.candidate);
      if SameSlot(a.candidate, b.candidate) { SlotsDiffer(w, candidates, x, y); }
    }
  }

  // ---------------------------------------------------------------- order does not matter

  lemma ValidPermutes(w: World, t: Terms, a: seq<Candidate>, b: seq<Candidate>)
    requires multiset(a) == multiset(b) && ValidRequest(w, t, a)
    ensures ValidRequest(w, t, b)
  {
    SameElements(a, b);
    var ka, kb := Map(SlotKeyOf(w), a), Map(SlotKeyOf(w), b);
    forall i, j | 0 <= i < j < |b| ensures kb[i] != kb[j] {
      if kb[i] == kb[j] { RepeatedSlot(w, a, b, i, j); }
    }
  }

  /** A repeated key in one order is a repeated key in any other. */
  lemma RepeatedSlot(w: World, a: seq<Candidate>, b: seq<Candidate>, i: nat, j: nat)
    requires multiset(a) == multiset(b) && i < j < |b|
    requires SlotKeyOf(w)(b[i]) == SlotKeyOf(w)(b[j])
    ensures !Distinct(Map(SlotKeyOf(w), a))
  {
    var keys := Map(SlotKeyOf(w), a);
    SameElements(a, b);
    assert b[i] in a && b[j] in a;
    if b[i] == b[j] {
      RepeatMultiplicity(b, i, j);
      if Distinct(a) { DistinctMultiplicity(a, b[i]); }
      var m, n :| 0 <= m < n < |a| && a[m] == a[n];
      assert keys[m] == keys[n];
    } else {
      var m :| 0 <= m < |a| && a[m] == b[i];
      var n :| 0 <= n < |a| && a[n] == b[j];
      assert keys[m] == keys[n];
    }
  }

  lemma SameChoices(w: World, t: Terms, a: seq<Candidate>, b: seq<Candidate>)
    requires forall c | Eligible(w, t, c) :: c in a <==> c in b
    ensures forall id :: Choice(w, t, a, id) <==> Choice(w, t, b, id)
    ensures SomeEligible(w, t, a) <==> SomeEligible(w, t, b)
  {
  }

  lemma {:induction false} BestUnique(w: World, t: Terms, a: seq<Candidate>, x: Identity, y: Identity)
    requires Best(w, t, a, x) && Best(w, t, a, y)
    ensures x == y
  {
    PreferredOrder(t.policy.preferred, x, y, x);
  }

  lemma {:induction false} SameDecision(w: World, t: Terms, a: seq<Candidate>, b: seq<Candidate>, r: Outcome,
                                        r': Outcome)
    requires r.Answer? && r'.Answer? && Decides(w, t, a, r) && Decides(w, t, b, r')
    requires forall id :: Choice(w, t, a, id) <==> Choice(w, t, b, id)
    requires SomeEligible(w, t, a) <==> SomeEligible(w, t, b)
    ensures r.selected == r'.selected && r.blocked == r'.blocked && r.override == r'.override
    ensures r.auditReason == r'.auditReason
    ensures SomeEligible(w, t, a) || r.explanations == r'.explanations ==> r.blockReasons == r'.blockReasons
  {
    if !r.blocked { BestUnique(w, t, a, r.selected.value, r'.selected.value); }
  }

  /** Candidates that are not eligible may come and go: who is selected, whether the request
      is blocked and what is audited stay the same. */
  lemma {:induction false} IneligibleAreIrrelevant(w: World, t: Terms, a: seq<Candidate>, b: seq<Candidate>, r: Outcome,
                                                   r': Outcome)
    requires ValidRequest(w, t, a) && ValidRequest(w, t, b)
    requires forall c | Eligible(w, t, c) :: c in a <==> c in b
    requires Answers(w, t, a, r) && Answers(w, t, b, r')
    ensures r.selected == r'.selected && r.blocked == r'.blocked && r.override == r'.override
    ensures r.auditReason == r'.auditReason
    ensures SomeEligible(w, t, a) ==> r.blockReasons == r'.blockReasons
  {
    SameChoices(w, t, a, b);
    SameDecision(w, t, a, b, r, r');
  }

  lemma SameExplanations(w: World, t: Terms, a: seq<Candidate>, b: seq<Candidate>, x: seq<Explanation>,
                         y: seq<Explanation>)
    requires multiset(a) == multiset(b) && ValidRequest(w, t, a)
    requires Sorted(ExplanationLess, x) && multiset(x) == multiset(Explained(w, t, a))
    requires Sorted(ExplanationLess, y) && multiset(y) == multiset(Explained(w, t, b))
    ensures x == y
  {
    MapPermutes(Explainer(w, t), a, b);
    ExplanationsDiffer(w, t, a);
    SameElements(x, Explained(w, t, a));
    SortedPermutationUnique(ExplanationLess, x, y);
  }

  /** The answer is a function of the set of candidates, not of the order they come in. */
  lemma {:induction false} OrderIsIrrelevant(w: World, t: Terms, a: seq<Candidate>, b: seq<Candidate>, r: Outcome,
                                             r': Outcome)
    requires multiset(a) == multiset(b) && Answers(w, t, a, r) && Answers(w, t, b, r')
    ensures r == r'
  {
    if ValidRequest(w, t, a) {
      ValidPermutes(w, t, a, b);
      SameExplanations(w, t, a, b, r.explanations, r'.explanations);
      SameElements(a, b);
      SameChoices(w, t, a, b);
      SameDecision(w, t, a, b, r, r');
    } else if ValidRequest(w, t, b) {
      ValidPermutes(w, t, b, a);
    }
  }

  // ---------------------------------------------------------------- the selection itself

  method Validate(w: World, t: Terms, candidates: seq<Candidate>) returns (ok: bool)
    ensures ok <==> ValidRequest(w, t, candidates)
  {
    if !ValidScalars(t) || |candidates| > MAX_CANDIDATES || (exists i | 0 <= i < |t.gates| :: !ValidGate(t.gates[i]))
       || (exists i | 0 <= i < |t.policy.evidence| :: !ValidEvidence(t.policy.evidence[i]))
       || (exists i | 0 <= i < |t.policy.preferred| :: !ValidPreference(t.policy.preferred[i])) {
      return false;
    }
    ok := NoneTwice(Map(GateKeyOf(w), t.gates));
    if !ok { return; }
    ok := NoneTwice(Map(EvidenceKeyOf(w), t.policy.evidence));
    if !ok { return; }
    ok := NoneTwice(Map(PreferenceKey, t.policy.preferred));
    if !ok { return; }
    ok := NoneTwice(Map(SlotKeyOf(w), candidates));
  }

  predicate CandidateLess(a: Candidate, b: Candidate) { IdentityLess(IdentityOf(a), IdentityOf(b)) }

  /** Explains the candidates in the order of their identities. */
  method ExplainAll(w: World, t: Terms, candidates: seq<Candidate>) returns (explanations: seq<Explanation>)
    ensures multiset(explanations) == multiset(Explained(w, t, candidates))
    ensures ValidRequest(w, t, candidates) ==> Sorted(ExplanationLess, explanations)
  {
    var sorted := SortBy(CandidateLess, candidates);
    explanations := [];
    for i := 0 to |sorted|
      invariant explanations == Map(Explainer(w, t), sorted[..i])
    {
      explanations := explanations + [Explain(w, t, sorted[i])];
      assert sorted[..i + 1] == sorted[..i] + [sorted[i]];
    }
    assert sorted[..|sorted|] == sorted;
    MapPermutes(Explainer(w, t), sorted, candidates);
    if ValidRequest(w, t, candidates) {
      ExplanationsDiffer(w, t, candidates);
      SortBySorts(ExplanationLess, explanations);
    }
    explanations := SortBy(ExplanationLess, explanations);
  }

  const IsAccepted := (e: Explanation) => e.accepted

  method AcceptedCandidates(explanations: seq<Explanation>) returns (accepted: seq<Explanation>)
    ensures accepted == Filter(IsAccepted, explanations)
  {
    accepted := [];
    for i := 0 to |explanations|
      invariant accepted == Filter(IsAccepted, explanations[..i])
    {
      assert explanations[..i + 1] == explanations[..i] + [explanations[i]];
      FilterSnoc(IsAccepted, explanations[..i], explanations[i]);
      if explanations[i].accepted { accepted := accepted + [explanations[i]]; }
    }
    assert explanations[..|explanations|] == explanations;
  }

  /** The accepted explanations are those of the eligible candidates. */
  lemma AcceptedAreEligible(w: World, t: Terms, candidates: seq<Candidate>, explanations: seq<Explanation>,
                            e: Explanation)
    requires multiset(explanations) == multiset(Explained(w, t, candidates))
    ensures e in Filter(IsAccepted, explanations) <==>
            exists c :: c in candidates && Eligible(w, t, c) && Explain(w, t, c) == e
  {
    SameElements(explanations, Explained(w, t, candidates));
    MapMember(Explainer(w, t), candidates, e);
    assert forall c :: Explainer(w, t)(c) == Explain(w, t, c);
    assert forall c :: Explain(w, t, c).accepted <==> Eligible(w, t, c);
  }

  method FindOverride(accepted: seq<Explanation>, override: Option<Override>) returns (at: nat)
    ensures at <= |accepted| && (at < |accepted| ==> Wanted(override, accepted[at].candidate))
    ensures forall j | 0 <= j < at :: !Wanted(override, accepted[j].candidate)
  {
    at := 0;
    while at < |accepted| && !Wanted(override, accepted[at].candidate)
      invariant at <= |accepted| && forall j | 0 <= j < at :: !Wanted(override, accepted[j].candidate)
    {
      at := at + 1;
    }
  }

  method CollectBlockReasons(global: seq<string>, explanations: seq<Explanation>) returns (reasons: seq<string>)
    ensures reasons == BlockReasons(global, explanations)
  {
    if global != [] { return global; }
    reasons := [];
    for i := 0 to |explanations|
      invariant reasons == AllReasons(explanations[..i])
    {
      assert explanations[..i + 1][..i] == explanations[..i];
      reasons := reasons + explanations[i].reasons;
    }
    assert explanations[..|explanations|] == explanations;
    if reasons == [] { return ["no_registered_candidates"]; }
    reasons := Normalize(Less, reasons);
  }

  function RankedLess(preferred: seq<Preference>): (Explanation, Explanation) -> bool {
    (a: Explanation, b: Explanation) => PreferredLess(preferred, a.candidate, b.candidate)
  }

  lemma {:induction false} RankedOrder(preferred: seq<Preference>)
    ensures StrictWeak(RankedLess(preferred))
  {
    forall a: Explanation, b: Explanation, c: Explanation
      ensures RankedLess(preferred)(a, b) ==> !RankedLess(preferred)(b, a)
      ensures !RankedLess(preferred)(b, a) && !RankedLess(preferred)(c, b) ==> !RankedLess(preferred)(c, a)
    {
      PreferredOrder(preferred, a.candidate, b.candidate, c.candidate);
    }
  }

  /** `ranked` lists the eligible candidates' explanations, best first. */
  ghost predicate Ranked(w: World, t: Terms, candidates: seq<Candidate>, ranked: seq<Explanation>) {
    && Sorted(RankedLess(t.policy.preferred), ranked)
    && forall e :: e in ranked <==> exists c :: c in candidates && Eligible(w, t, c) && Explain(w, t, c) == e
  }

  lemma ChoiceIsRanked(w: World, t: Terms, candidates: seq<Candidate>, ranked: seq<Explanation>, id: Identity)
    requires Ranked(w, t, candidates, ranked)
    ensures Choice(w, t, candidates, id) <==>
      Wanted(t.override, id) && exists i | 0 <= i < |ranked| :: ranked[i].candidate == id
  {
    if Choice(w, t, candidates, id) {
      var c :| c in candidates && IdentityOf(c) == id && Eligible(w, t, c);
      assert Explain(w, t, c) in ranked;
    }
    if i :| 0 <= i < |ranked| && ranked[i].candidate == id {
      assert ranked[i] in ranked;
    }
  }

  lemma RankedSlot(w: World, t: Terms, candidates: seq<Candidate>, ranked: seq<Explanation>, i: nat, j: nat)
    requires ValidRequest(w, t, candidates) && Ranked(w, t, candidates, ranked)
    requires i < |ranked| && j < |ranked| && SameSlot(ranked[i].candidate, ranked[j].candidate)
    ensures ranked[i].candidate == ranked[j].candidate
  {
    assert ranked[i] in ranked && ranked[j] in ranked;
    var c :| c in candidates && Eligible(w, t, c) && Explain(w, t, c) == ranked[i];
    var d :| d in candidates && Eligible(w, t, d) && Explain(w, t, d) == ranked[j];
    SlotsDiffer(w, candidates, c, d);
  }

  /** The first wanted one in the ranking is the best choice. */
  lemma {:induction false} FirstIsBest(w: World, t: Terms, candidates: seq<Candidate>, ranked: seq<Explanation>,
                                       at: nat)
    requires ValidRequest(w, t, candidates) && Ranked(w, t, candidates, ranked)
    requires at < |ranked| && Wanted(t.override, ranked[at].candidate)
    requires forall j | 0 <= j < at :: !Wanted(t.override, ranked[j].candidate)
    ensures Best(w, t, candidates, ranked[at].candidate)
  {
    var id := ranked[at].candidate;
    ChoiceIsRanked(w, t, candidates, ranked, id);
    forall other | Choice(w, t, candidates, other) ensures other == id || PreferredLess(t.policy.preferred, id, other) {
      ChoiceIsRanked(w, t, candidates, ranked, other);
      var j :| 0 <= j < |ranked| && ranked[j].candidate == other;
      if j > at {
        assert !RankedLess(t.policy.preferred)(ranked[j], ranked[at]);
        PreferredOrder(t.policy.preferred, id, other, id);
        if SameSlot(id, other) { RankedSlot(w, t, candidates, ranked, at, j); }
      }
    }
  }

  lemma NoneChosen(w: World, t: Terms, candidates: seq<Candidate>, ranked: seq<Explanation>)
    requires Ranked(w, t, candidates, ranked)
    requires forall j | 0 <= j < |ranked| :: !Wanted(t.override, ranked[j].candidate)
    ensures forall id :: !Choice(w, t, candidates, id)
  {
    forall id ensures !Choice(w, t, candidates, id) { ChoiceIsRanked(w, t, candidates, ranked, id); }
  }

  lemma SomeRanked(w: World, t: Terms, candidates: seq<Candidate>, ranked: seq<Explanation>)
    requires Ranked(w, t, candidates, ranked)
    ensures ranked == [] <==> !SomeEligible(w, t, candidates)
  {
    if ranked != [] { assert ranked[0] in ranked; }
    if c :| c in candidates && Eligible(w, t, c) { assert Explain(w, t, c) in ranked; }
  }

  /** Orders the accepted explanations by preference. */
  method Rank(w: World, t: Terms, candidates: seq<Candidate>, explanations: seq<Explanation>)
    returns (ranked: seq<Explanation>)
    requires multiset(explanations) == multiset(Explained(w, t, candidates))
    ensures Ranked(w, t, candidates, ranked)
  {
    var accepted := AcceptedCandidates(explanations);
    ranked := SortBy(RankedLess(t.policy.preferred), accepted);
    RankedOrder(t.policy.preferred);
    SortBySorts(RankedLess(t.policy.preferred), accepted);
    SameElements(ranked, accepted);
    forall e ensures e in ranked <==> exists c :: c in candidates && Eligible(w, t, c) && Explain(w, t, c) == e {
      AcceptedAreEligible(w, t, candidates, explanations, e);
    }
  }

  method Select(w: World, t: Terms, candidates: seq<Candidate>) returns (r: Outcome)
    ensures Answers(w, t, candidates, r)
  {
    var ok := Validate(w, t, candidates);
    if !ok { return Rejected; }
    var explanations := ExplainAll(w, t, candidates);
    var ranked := Rank(w, t, candidates, explanations);
    SomeRanked(w, t, candidates, ranked);
    var at := FindOverride(ranked, t.override);
    if at < |ranked| {
      FirstIsBest(w, t, candidates, ranked, at);
      return Answer(Some(ranked[at].candidate), explanations, false, [], t.override,
                    if t.override.Some? then "operator_override" else "deterministic_selection");
    }
    NoneChosen(w, t, candidates, ranked);
    var reasons := ["operator_override_not_eligible"];
    if ranked == [] { reasons := CollectBlockReasons(AuthorityReasons(t), explanations); }
    r := Answer(None, explanations, true, reasons, None, "deterministic_selection");
  }
}

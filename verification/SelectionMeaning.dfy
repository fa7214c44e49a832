/** What a selection means: which candidate wins, field by field, what an eligible candidate is
    bound to, where its limits lie, and what the reasons against the others say. */
module SelectionMeaning {
  import opened Sorting
  import opened Text
  import opened ComputeNode
  import opened Selection
  import opened Dispatch

  // ---------------------------------------------------------------- the winner

  predicate Matches(p: Preference, id: Identity) { p.workerID == id.workerID && p.nodeID == id.nodeID }

  /** `i` is where the preferences first name this worker on this node. */
  predicate ListedAt(preferred: seq<Preference>, id: Identity, i: nat) {
    i < |preferred| && Matches(preferred[i], id) && forall j | 0 <= j < i :: !Matches(preferred[j], id)
  }

  predicate Unlisted(preferred: seq<Preference>, id: Identity) {
    forall j | 0 <= j < |preferred| :: !Matches(preferred[j], id)
  }

  predicate SamePlace(preferred: seq<Preference>, a: Identity, b: Identity) {
    || (Unlisted(preferred, a) && Unlisted(preferred, b))
    || exists i: nat | i < |preferred| :: ListedAt(preferred, a, i) && ListedAt(preferred, b, i)
  }

  /** Worker, worker version, node, node version, runtime, runtime version: the first difference is
      in favour of `a`. */
  predicate ComesFirst(a: Identity, b: Identity) {
    || Less(a.workerID, b.workerID)
    || (a.workerID == b.workerID && a.workerVersion < b.workerVersion)
    || ((a.workerID, a.workerVersion) == (b.workerID, b.workerVersion) && Less(a.nodeID, b.nodeID))
    || ((a.workerID, a.workerVersion, a.nodeID) == (b.workerID, b.workerVersion, b.nodeID)
        && a.nodeVersion < b.nodeVersion)
    || ((a.workerID, a.workerVersion, a.nodeID, a.nodeVersion) == (b.workerID, b.workerVersion, b.nodeID, b.nodeVersion)
        && (Less(a.runtimeID, b.runtimeID) || (a.runtimeID == b.runtimeID && a.runtimeVersion < b.runtimeVersion)))
  }

  lemma RankIs(preferred: seq<Preference>, id: Identity)
    ensures Unlisted(preferred, id) ==> PreferenceRank(id, preferred) == |preferred|
    ensures forall i: nat | ListedAt(preferred, id, i) :: PreferenceRank(id, preferred) == i
    ensures PreferenceRank(id, preferred) < |preferred| ==> ListedAt(preferred, id, PreferenceRank(id, preferred))
  {
    var r := PreferenceRank(id, preferred);
    forall i: nat | ListedAt(preferred, id, i) ensures r == i {
      assert preferred[i] == Preference(id.workerID, id.nodeID);
    }
  }

  lemma IdentityComesFirst(a: Identity, b: Identity)
    requires IdentityLess(a, b)
    ensures ComesFirst(a, b)
  {
  }

  lemma {:induction false} FirstAmong(preferred: seq<Preference>, id: Identity, other: Identity)
    requires other == id || PreferredLess(preferred, id, other)
    ensures forall i: nat | i < |preferred| && Matches(preferred[i], other) ::
              exists k: nat | k <= i :: ListedAt(preferred, id, k)
    ensures SamePlace(preferred, id, other) ==> id == other || ComesFirst(id, other)
  {
    RankIs(preferred, id);
    var rank := PreferenceRank(id, preferred);
    forall i: nat | i < |preferred| && Matches(preferred[i], other)
      ensures exists k: nat | k <= i :: ListedAt(preferred, id, k)
    {
      assert preferred[i] == Preference(other.workerID, other.nodeID);
      assert rank <= PreferenceRank(other, preferred) <= i;
      assert ListedAt(preferred, id, rank);
    }
    if SamePlace(preferred, id, other) && id != other {
      SamePlaceSameRank(preferred, id, other);
      IdentityComesFirst(id, other);
    }
  }

  /** `id` bears the names and versions of a candidate. */
  predicate Bears(id: Identity, c: Candidate) {
    && (id.workerID, id.workerVersion) == (c.worker.id, c.worker.version)
    && (id.nodeID, id.nodeVersion) == (c.node.nodeID, c.node.version)
    && (id.runtimeID, id.runtimeVersion) == (c.runtime.id, c.runtime.version)
    && (id.provider, id.model, id.modelVersion) == (c.worker.provider, c.worker.model, c.worker.modelVersion)
  }

  /** The operator asked for nobody, or for this worker on this node. */
  predicate AskedFor(t: Terms, c: Candidate) {
    t.override.Some? ==> (c.worker.id, c.node.nodeID) == (t.override.value.workerID, t.override.value.nodeID)
  }

  lemma ChoiceIs(w: World, t: Terms, candidates: seq<Candidate>, id: Identity)
    ensures Choice(w, t, candidates, id) ==> exists c :: c in candidates && Eligible(w, t, c) && Bears(id, c)
    ensures Choice(w, t, candidates, id) ==> forall c | Bears(id, c) :: AskedFor(t, c)
  {
  }

  lemma ChoiceFrom(w: World, t: Terms, candidates: seq<Candidate>, c: Candidate)
    requires c in candidates && Eligible(w, t, c) && AskedFor(t, c)
    ensures Choice(w, t, candidates, IdentityOf(c))
  {
  }

  /** The answer selects an eligible candidate the operator may have asked for, and is blocked exactly
      when there is none. */
  lemma {:induction false} AnswerMeans(w: World, t: Terms, candidates: seq<Candidate>, r: Outcome)
    requires Answers(w, t, candidates, r) && r.Answer?
    ensures !r.blocked ==>
      && r.selected.Some?
      && exists c :: c in candidates && Eligible(w, t, c) && AskedFor(t, c) && Bears(r.selected.value, c)
    ensures r.blocked ==> forall c | c in candidates && AskedFor(t, c) :: !Eligible(w, t, c)
  {
    if r.blocked {
      forall c | c in candidates && AskedFor(t, c) ensures !Eligible(w, t, c) {
        BlockedHasNone(w, t, candidates, r, c);
      }
    } else {
      BestIsChosen(w, t, candidates, r);
      ChoiceIs(w, t, candidates, r.selected.value);
    }
  }

  lemma BlockedHasNone(w: World, t: Terms, candidates: seq<Candidate>, r: Outcome, c: Candidate)
    requires Answers(w, t, candidates, r) && r.Answer? && r.blocked && c in candidates && AskedFor(t, c)
    ensures !Eligible(w, t, c)
  {
    if Eligible(w, t, c) { ChoiceFrom(w, t, candidates, c); }
  }

  lemma BestIsChosen(w: World, t: Terms, candidates: seq<Candidate>, r: Outcome)
    requires Answers(w, t, candidates, r) && r.Answer? && !r.blocked
    ensures r.selected.Some? && Best(w, t, candidates, r.selected.value)
  {
  }

  /** Of the eligible candidates the operator may have asked for, the selected one is named first by
      the preferences; among those they name at the same place, or not at all, it is the least, field
      by field. */
  lemma {:induction false} SelectedIsFirst(w: World, t: Terms, candidates: seq<Candidate>, r: Outcome, other: Identity)
    requires Answers(w, t, candidates, r) && r.Answer? && !r.blocked && Choice(w, t, candidates, other)
    ensures r.selected.Some? && Choice(w, t, candidates, r.selected.value)
    ensures forall i: nat | i < |t.policy.preferred| && Matches(t.policy.preferred[i], other) ::
              exists k: nat | k <= i :: ListedAt(t.policy.preferred, r.selected.value, k)
    ensures SamePlace(t.policy.preferred, r.selected.value, other) ==>
              r.selected.value == other || ComesFirst(r.selected.value, other)
  {
    BestIsChosen(w, t, candidates, r);
    FirstAmong(t.policy.preferred, r.selected.value, other);
  }

  lemma SamePlaceSameRank(preferred: seq<Preference>, a: Identity, b: Identity)
    requires SamePlace(preferred, a, b)
    ensures PreferenceRank(a, preferred) == PreferenceRank(b, preferred)
  {
    RankIs(preferred, a);
    RankIs(preferred, b);
  }

  // ---------------------------------------------------------------- what an eligible candidate is bound to

  /** One work package admits one view of its task and of its node. */
  lemma {:induction false} WorkBindsViews(w: World, t: Terms, u: Terms, c: Candidate)
    requires Eligible(w, t, c) && Eligible(w, u, c) && t.work == u.work && t.workDigest == u.workDigest
    ensures t.task == u.task && t.node == u.node
  {
  }

  /** A task, a node and a trade admit one work package and one digest of it. */
  lemma {:induction false} ViewsBindWork(w: World, t: Terms, u: Terms, c: Candidate)
    requires Eligible(w, t, c) && Eligible(w, u, c) && t.node == u.node && t.work.trade == u.work.trade
    ensures t.work == u.work && t.workDigest == u.workDigest
  {
  }

  /** One request admits one trade, and workers of that trade; a node is known by its own
      observation. */
  lemma {:induction false} RequestBindsTrade(w: World, t: Terms, c: Candidate, d: Candidate)
    requires Eligible(w, t, c) && Eligible(w, t, d)
    ensures c.trade.id == d.trade.id == c.worker.tradeID == d.worker.tradeID
    ensures c.trade.version == d.trade.version == c.worker.tradeVersion == d.worker.tradeVersion
    ensures c.trade.contentHash == d.trade.contentHash
    ensures c.trade.lifecycle.Active? && c.worker.lifecycle.Active? && c.runtimeAvailable
    ensures (c.runtime.id, c.runtime.version) == (c.worker.runtimeID, c.worker.runtimeVersion)
    ensures c.observation.node == Binding(c.node.nodeID, c.node.version, c.node.digest)
    ensures t.adaptation.Some? ==>
      && t.adaptation.value.projectID == t.work.projectID && t.adaptation.value.tradeID == c.trade.id
      && t.adaptation.value.tradeVersion == c.trade.version && t.adaptation.value.lifecycle.Active?
  {
  }

  // ---------------------------------------------------------------- where the limits lie

  function WithMaximum(t: Terms, m: Budget): Terms { t.(policy := t.policy.(maximumBudget := m)) }

  /** Moving one limit of the budget leaves an eligible candidate eligible exactly down to what is
      asked for; the concurrency must also leave a place free. */
  lemma {:induction false} BudgetLimit(w: World, t: Terms, c: Candidate, x: int)
    requires Eligible(w, t, c)
    ensures var m := t.policy.maximumBudget;
            && (Eligible(w, WithMaximum(t, m.(tokens := x)), c) <==> t.budget.tokens <= x)
            && (Eligible(w, WithMaximum(t, m.(costMicros := x)), c) <==> t.budget.costMicros <= x)
            && (Eligible(w, WithMaximum(t, m.(wallClock := x)), c) <==> t.budget.wallClock <= x)
            && (Eligible(w, WithMaximum(t, m.(concurrent := x)), c) <==>
                  t.budget.concurrent <= x && t.policy.activeAssignments < x)
  {
    var m := t.policy.maximumBudget;
    NeedsStay(w, t, WithMaximum(t, m.(tokens := x)), c);
    NeedsStay(w, t, WithMaximum(t, m.(costMicros := x)), c);
    NeedsStay(w, t, WithMaximum(t, m.(wallClock := x)), c);
    NeedsStay(w, t, WithMaximum(t, m.(concurrent := x)), c);
  }

  /** Apart from its budget a request asks the same of a candidate. */
  lemma NeedsStay(w: World, t: Terms, u: Terms, c: Candidate)
    requires Eligible(w, t, c) && u == WithMaximum(t, u.policy.maximumBudget)
    ensures Eligible(w, u, c) <==> WithinBudget(u)
  {
    assert NodeNeeds(u, c) == NodeNeeds(t, c) && RequiredTags(u, c) == RequiredTags(t, c);
  }

  /** An eligible candidate stays eligible exactly while its observation is current. */
  lemma {:induction false} TimeLimit(w: World, t: Terms, c: Candidate, now: int)
    requires Eligible(w, t, c)
    ensures Eligible(w, t.(now := now), c) <==>
      now != 0 && c.observation.observedAt <= now < c.observation.expiresAt
  {
    var u := t.(now := now);
    assert NodeNeeds(u, c) == NodeNeeds(t, c) && RequiredTags(u, c) == RequiredTags(t, c);
    assert WithinBudget(u) == WithinBudget(t);
  }

  /** It stays eligible exactly up to its node's number of leases, and while the node is healthy. */
  lemma {:induction false} NodeLimit(w: World, t: Terms, c: Candidate, leases: int, health: Health)
    requires Eligible(w, t, c)
    ensures var d := c.(observation := c.observation.(activeLeases := leases, health := health));
            Eligible(w, t, d) <==> leases < c.node.maxActiveLeases && health == Healthy
  {
    var d := c.(observation := c.observation.(activeLeases := leases, health := health));
    assert NodeNeeds(t, c) == NodeNeeds(t, d) && RequiredTags(t, c) == RequiredTags(t, d);
  }

  /** It may be asked exactly for capabilities that policy and runtime both offer, and for writing or
      branching only on a node with write access. */
  lemma {:induction false} CapabilityLimit(w: World, t: Terms, c: Candidate, capabilities: seq<string>)
    requires Eligible(w, t, c)
    ensures Eligible(w, t.(capabilities := capabilities), c) <==>
      && (forall p | p in capabilities :: p in t.policy.allowed && p in c.runtimeCapabilities)
      && ("write" in capabilities || "branch" in capabilities ==> c.node.access == WriteAccess)
  {
    var u := t.(capabilities := capabilities);
    assert RequiredTags(u, c) == RequiredTags(t, c) && WithinBudget(u) == WithinBudget(t);
    assert NodeNeeds(u, c) == NodeNeeds(t, c).(access := NeededAccess(u));
  }

  /** Exactly the gates with evidence at their own version and digest may be demanded. */
  lemma {:induction false} GateLimit(w: World, t: Terms, c: Candidate, gates: seq<Gate>)
    requires Eligible(w, t, c)
    ensures Eligible(w, t.(gates := gates), c) <==>
      forall g | g in gates :: exists e :: e in t.policy.evidence && e.gate == Gate(g.id, g.version, g.digest)
  {
    var u := t.(gates := gates);
    assert NodeNeeds(u, c) == NodeNeeds(t, c) && RequiredTags(u, c) == RequiredTags(t, c);
    assert WithinBudget(u) == WithinBudget(t);
    forall g | g in gates
      ensures HasEvidence(g, t.policy.evidence)
         <==> exists e :: e in t.policy.evidence && e.gate == Gate(g.id, g.version, g.digest)
    {
      assert g == Gate(g.id, g.version, g.digest);
    }
  }

  /** Tolerated risks are those up to the maximum, in this order. */
  const RISKS: seq<Risk> := [Low, Moderate, High, Critical]

  lemma {:induction false} RiskLimit(w: World, t: Terms, c: Candidate, i: nat, j: nat)
    requires Eligible(w, t, c) && i < 4 && j < 4
    ensures Eligible(w, t.(risk := RISKS[i], policy := t.policy.(maximumRisk := RISKS[j])), c) <==> i <= j
  {
    var u := t.(risk := RISKS[i], policy := t.policy.(maximumRisk := RISKS[j]));
    assert NodeNeeds(u, c) == NodeNeeds(t, c) && RequiredTags(u, c) == RequiredTags(t, c);
    assert WithinBudget(u) == WithinBudget(t);
    RankIsPlace(i);
    RankIsPlace(j);
  }

  lemma RankIsPlace(i: nat)
    requires i < 4
    ensures RiskRank(RISKS[i]) == i
  {
  }

  // ---------------------------------------------------------------- what the reasons say

  /** A code reported says what is the matter. */
  lemma {:induction false} AuthorityCodes(t: Terms)
    ensures var r := AuthorityReasons(t);
            && ("work_package_authority_mismatch" in r <==> !SameAuthority(t))
            && ("work_package_not_ready" in r ==> t.node.readiness != "ready")
            && ("task_not_dispatchable" in r ==> t.task.state != "ready" && t.node.readiness == "ready")
            && ("project_trade_authority_mismatch" in r ==>
                  t.adaptation.Some? && t.task.state == "ready" && t.node.readiness == "ready")
  {
    assert |"work_package_authority_mismatch"| == 31 && |"work_package_not_ready"| == 22;
    assert |"task_not_dispatchable"| == 21 && |"project_trade_authority_mismatch"| == 32;
  }

  lemma {:induction false} MissingCodes(values: seq<string>, known: seq<string>, code: string)
    requires code in Strays(values, known, MissingCapability)
    ensures exists tag :: tag in values && tag !in known && code == "missing_capability:" + tag
  {
    var init, last := values[..|values| - 1], values[|values| - 1];
    if code in Strays(init, known, MissingCapability) {
      MissingCodes(init, known, code);
      var tag :| tag in init && tag !in known && code == "missing_capability:" + tag;
      assert tag in values;
    } else {
      assert last in values && code == "missing_capability:" + last;
    }
  }

  ghost predicate NamesMissing(t: Terms, c: Candidate, code: string) {
    exists tag :: tag in RequiredTags(t, c) && tag !in c.worker.tags && code == "missing_capability:" + tag
  }

  lemma {:induction false} TradeCodes(t: Terms, c: Candidate)
    ensures var r, ref := TradeReasons(t, c), TradeOf(t);
            && ("trade_authority_mismatch" in r <==> Binding(c.trade.id, c.trade.version, c.trade.contentHash) != ref)
            && ("trade_unavailable" in r ==> !c.trade.lifecycle.Active?)
            && ("worker_unavailable" in r ==> !c.worker.lifecycle.Active?)
            && ("worker_trade_mismatch" in r ==> (c.worker.tradeID, c.worker.tradeVersion) != (ref.id, ref.version))
  {
    forall code | code in Strays(SortStrings(RequiredTags(t, c)), c.worker.tags, MissingCapability)
      ensures code != [] && code[0] == 'm'
    {
      TagCodes(t, c, code);
    }
    assert |"trade_authority_mismatch"| == 24 && |"trade_unavailable"| == 17;
    assert |"worker_unavailable"| == 18 && |"worker_trade_mismatch"| == 21;
  }

  /** Every other reason names a required tag that the worker does not have. */
  lemma {:induction false} TagCodes(t: Terms, c: Candidate, code: string)
    requires code in Strays(SortStrings(RequiredTags(t, c)), c.worker.tags, MissingCapability)
    ensures code != [] && code[0] == 'm' && NamesMissing(t, c, code)
  {
    var tags := SortStrings(RequiredTags(t, c));
    SameElements(tags, RequiredTags(t, c));
    MissingCodes(tags, c.worker.tags, code);
  }

  /** A worker of the right trade is refused only for such tags. */
  lemma TagsAreMissing(t: Terms, c: Candidate, code: string)
    requires TradeFits(TradeOf(t), c) && code in TradeReasons(t, c)
    ensures NamesMissing(t, c, code)
  {
    TagCodes(t, c, code);
  }

  lemma {:induction false} BudgetCodes(t: Terms)
    ensures var r, b, m := BudgetReasons(t), t.budget, t.policy.maximumBudget;
            && ("budget_tokens_exceeded" in r <==> b.tokens > m.tokens)
            && ("budget_cost_exceeded" in r ==> b.costMicros > m.costMicros)
            && ("budget_timeout_exceeded" in r ==> b.wallClock > m.wallClock)
            && ("budget_concurrency_exceeded" in r ==> b.concurrent > m.concurrent)
            && ("concurrency_limit_reached" in r ==> t.policy.activeAssignments >= m.concurrent)
  {
    assert |"budget_tokens_exceeded"| == 22 && |"budget_cost_exceeded"| == 20 && |"budget_timeout_exceeded"| == 23;
    assert |"budget_concurrency_exceeded"| == 27 && |"concurrency_limit_reached"| == 25;
  }
}

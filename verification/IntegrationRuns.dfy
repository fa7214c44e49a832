/** Whole runs of the integration gate: one evaluation and its decision, an evaluation repeated,
    and the one way a summary is accepted without having been offered. */
module IntegrationRuns {
  import opened Project
  import opened Gates
  import opened Integration
  import opened IntegrationHistory
  import Control

  // ---------------------------------------------------------------- the table after an evaluation

  /** No gate of this attempt is on record yet. */
  ghost predicate Untouched(gates: map<GateKey, GateRow>, attempt: string) {
    forall k | k in gates :: k.0 != attempt
  }

  predicate DemandedKey(required: seq<GateRequirement>, attempt: string, k: GateKey) {
    exists g :: g in required && KeyOf(attempt, g) == k
  }

  lemma {:induction false} TestedKeys(required: seq<GateRequirement>, gates: map<GateKey, GateRow>, attempt: string,
                                      tests: string -> TestResult, k: GateKey)
    requires k in Tested(required, gates, attempt, tests) && k !in gates
    ensures DemandedKey(required, attempt, k)
  {
    if required != [] {
      var init := required[..|required| - 1];
      if k in Tested(init, gates, attempt, tests) {
        TestedKeys(init, gates, attempt, tests, k);
        var g :| g in init && KeyOf(attempt, g) == k;
        assert g in required;
      }
    }
  }

  lemma {:induction false} ReviewedKeys(required: seq<GateRequirement>, gates: map<GateKey, GateRow>, attempt: string,
                                        status: GateStatus, note: Note, k: GateKey)
    requires k in Reviewed(required, gates, attempt, status, note) && k !in gates
    ensures DemandedKey(required, attempt, k)
  {
    if required != [] {
      var init := required[..|required| - 1];
      if k in Reviewed(init, gates, attempt, status, note) {
        ReviewedKeys(init, gates, attempt, status, note, k);
        var g :| g in init && KeyOf(attempt, g) == k;
        assert g in required;
      }
    }
  }

  /** An evaluation of a new attempt puts nothing on record but the gates the contract demands. */
  lemma {:induction false} OnlyDemanded(c: Terms, gates: map<GateKey, GateRow>, attempt: string, out: Outside,
                                        k: GateKey)
    requires Untouched(gates, attempt) && k in EvaluatedTable(c, gates, attempt, out) && k.0 == attempt
    ensures DemandedKey(c.required, attempt, k)
  {
    var tested := Tested(c.required, gates, attempt, out.tests);
    if k in tested {
      TestedKeys(c.required, gates, attempt, out.tests, k);
    } else {
      ReviewedKeys(c.required, tested, attempt, Pending, ReviewOutput, k);
    }
  }

  lemma {:induction false} OneDemand(required: seq<GateRequirement>, g: GateRequirement, h: GateRequirement)
    requires DemandedOnce(required) && g in required && h in required && g.gateID == h.gateID
    ensures g == h
  {
    var i, j :| 0 <= i < |required| && 0 <= j < |required| && required[i] == g && required[j] == h;
  }

  /** A demanded gate is on record on the attempt at its own version only. */
  lemma {:induction false} OnlyVersion(c: Terms, gates: map<GateKey, GateRow>, attempt: string, out: Outside,
                                       g: GateRequirement, v: int)
    requires DemandedOnce(c.required) && Untouched(gates, attempt) && g in c.required
    requires (attempt, g.gateID, v) in EvaluatedTable(c, gates, attempt, out)
    ensures v == g.version
  {
    OnlyDemanded(c, gates, attempt, out, (attempt, g.gateID, v));
    var h :| h in c.required && KeyOf(attempt, h) == (attempt, g.gateID, v);
    OneDemand(c.required, g, h);
  }

  lemma {:induction false} MachineGateStands(c: Terms, gates: map<GateKey, GateRow>, attempt: string, out: Outside,
                                             g: GateRequirement)
    requires DemandedOnce(c.required) && Untouched(gates, attempt) && g in c.required && !HumanGate(g.gateID)
    ensures LowestIs(EvaluatedTable(c, gates, attempt, out), attempt, g.gateID, g.version, g.digest, Satisfied)
  {
    var tested, table := Tested(c.required, gates, attempt, out.tests), EvaluatedTable(c, gates, attempt, out);
    TestedAt(c.required, gates, attempt, out.tests, g);
    ReviewedRows(c.required, tested, attempt, Pending, ReviewOutput, KeyOf(attempt, g));
    forall w: int | (attempt, g.gateID, w) in table ensures g.version <= w {
      OnlyVersion(c, gates, attempt, out, g, w);
    }
  }

  /** After the evaluation of a new attempt its machine gates stand, whatever the preview row says. */
  lemma {:induction false} MachineGatesStand(c: Terms, gates: map<GateKey, GateRow>, attempt: string, out: Outside,
                                             row: GateRow)
    requires DemandedOnce(c.required) && Untouched(gates, attempt) && HumanGate(c.preview)
    ensures MachineStands(c, EvaluatedTable(c, gates, attempt, out), attempt)
    ensures MachineStands(c, EvaluatedTable(c, gates, attempt, out)[(attempt, c.preview, 1) := row], attempt)
  {
    var table := EvaluatedTable(c, gates, attempt, out);
    forall g | g in c.required && !HumanGate(g.gateID)
      ensures LowestIs(table, attempt, g.gateID, g.version, g.digest, Satisfied)
      ensures LowestIs(table[(attempt, c.preview, 1) := row], attempt, g.gateID, g.version, g.digest, Satisfied)
    {
      MachineGateStands(c, gates, attempt, out, g);
      LowestElsewhere(table, attempt, g.gateID, g.version, g.digest, Satisfied, (attempt, c.preview, 1), row);
    }
  }

  lemma {:induction false} LowestElsewhere(gates: map<GateKey, GateRow>, attempt: string, id: string, v: int,
                                           digest: string,
                                           status: GateStatus, k: GateKey, row: GateRow)
    requires LowestIs(gates, attempt, id, v, digest, status) && k.1 != id
    ensures LowestIs(gates[k := row], attempt, id, v, digest, status)
  {
    assert forall w: int :: (attempt, id, w) in gates[k := row] <==> (attempt, id, w) in gates;
  }

  /** The table once the summary of an evaluation is on record. */
  function OfferedTable(c: Terms, gates: map<GateKey, GateRow>, attempt: string, out: Outside,
                        s: Summary): map<GateKey, GateRow>
  {
    EvaluatedTable(c, gates, attempt, out)[(attempt, c.preview, 1) := OfferRow(s)]
  }

  /** A human gate left pending by the evaluation can take the decision. */
  lemma {:induction false} PendingTakesDecision(c: Terms, gates: map<GateKey, GateRow>, attempt: string, out: Outside,
                                                d: Decision, g: GateRequirement)
    requires DemandedOnce(c.required) && g in c.required && HumanGate(g.gateID) && g.version >= 1
    requires d.choice == Approve || d.choice == Reject
    ensures CanRecord(EvaluatedTable(c, gates, attempt, out), KeyOf(attempt, g),
                      GateRow(g.digest, DecidedStatus(d), HumanDecision(d.reason)))
  {
    ReviewedAt(c.required, Tested(c.required, gates, attempt, out.tests), attempt, Pending, ReviewOutput, g);
  }

  /** What was offered on a new attempt can be decided. */
  lemma {:induction false} OfferedIsEnterable(c: Terms, gates: map<GateKey, GateRow>, attempt: string, out: Outside,
                                              d: Decision, s: Summary)
    requires DemandedOnce(c.required) && RowUnclaimed(c)
    requires HumanReady(c.required, gates, attempt, Pending, ReviewOutput)
    requires d.choice == Approve || d.choice == Reject
    ensures Enterable(c, OfferedTable(c, gates, attempt, out, s), attempt, d, s)
  {
    var table := EvaluatedTable(c, gates, attempt, out);
    var offered := OfferedTable(c, gates, attempt, out, s);
    forall g | g in c.required && HumanGate(g.gateID)
      ensures CanRecord(offered, KeyOf(attempt, g), GateRow(g.digest, DecidedStatus(d), HumanDecision(d.reason)))
    {
      assert !TakesDecisionRow(c, g);
      PendingTakesDecision(c, gates, attempt, out, d, g);
    }
  }

  lemma {:induction false} OfferedIsOnRecord(c: Terms, gates: map<GateKey, GateRow>, attempt: string, out: Outside,
                                             s: Summary)
    requires Untouched(gates, attempt) && HumanReady(c.required, gates, attempt, Pending, ReviewOutput)
    requires HumanGate(c.preview)
    ensures OnRecord(OfferedTable(c, gates, attempt, out, s), attempt, c.preview, s.digest, Pending)
  {
    var table := EvaluatedTable(c, gates, attempt, out);
    var offered := OfferedTable(c, gates, attempt, out, s);
    forall w: int | (attempt, c.preview, w) in offered ensures 1 <= w {
      if (attempt, c.preview, w) in table {
        OnlyDemanded(c, gates, attempt, out, (attempt, c.preview, w));
        var g :| g in c.required && KeyOf(attempt, g) == (attempt, c.preview, w);
        assert CanRecord(gates, KeyOf(attempt, g), GateRow(g.digest, Pending, ReviewOutput));
      }
    }
    assert LowestIs(offered, attempt, c.preview, 1, s.digest, Pending);
  }

  // ---------------------------------------------------------------- evaluate, then approve

  function Approval(s: Summary, reason: string, actor: string): Decision { Decision(Approve, s.digest, reason, actor) }

  /** The summary is complete, and still true, and nobody has decided otherwise. */
  predicate Approvable(s: Summary, second: Outside, decisions: set<Decision>, reason: string, actor: string) {
    && Unmoved(s, second) && actor != "" && s.digest != "" && s.evidenceAt != UNSET
    && Unopposed(decisions, Approval(s, reason, actor))
  }

  /** After the evaluation of a new attempt its summary is on record and can be decided. */
  lemma {:induction false} OfferedCanBeDecided(c: Terms, gates: map<GateKey, GateRow>, attempt: string, out: Outside,
                                               d: Decision, s: Summary)
    requires DemandedOnce(c.required) && Untouched(gates, attempt) && HumanGate(c.preview) && RowUnclaimed(c)
    requires HumanReady(c.required, gates, attempt, Pending, ReviewOutput)
    requires d.choice == Approve || d.choice == Reject
    ensures Ripe(c, OfferedTable(c, gates, attempt, out, s), attempt, d, s)
  {
    MachineGatesStand(c, gates, attempt, out, OfferRow(s));
    OfferedIsEnterable(c, gates, attempt, out, d, s);
    OfferedIsOnRecord(c, gates, attempt, out, s);
  }

  /** What the evaluation of a new attempt comes to. */
  method EvaluateNew(gate: IntegrationGate, attempt: string, fence: string, out: Outside) returns (r: Reply)
    requires gate.Valid()
    modifies gate`gates, gate`history, gate`passes, gate`offered, gate`state, gate`leaseActive
    ensures gate.Valid() && gate.accepted == old(gate.accepted)
    ensures r.Issued? ==>
      && old(gate.MayEvaluate(attempt, fence)) && gate.state == Control.AwaitingGates && gate.leaseActive
      && r.summary == SummaryOf(gate.terms, attempt, gate.RequiresReviewer(), out)
      && gate.gates == OfferedTable(gate.terms, old(gate.gates), attempt, out, r.summary)
      && gate.history == old(gate.history)
                         + EvaluateEvents(gate.rec, gate.RequiresReviewer(), out.evidenceAt, r.summary.tests, out)
    ensures AllUp(out) && DemandedOnce(gate.terms.required) && Untouched(old(gate.gates), attempt) ==>
      (r.Issued? <==>
        && old(gate.MayEvaluate(attempt, fence)) && RowUnclaimed(gate.terms)
        && Evaluable(gate.terms, old(gate.gates), attempt, gate.RequiresReviewer(), out))
  {
    r := gate.Evaluate(attempt, fence, out);
  }

  /** Approve what an evaluation that started from the table `before` has offered. */
  method ApproveOffered(gate: IntegrationGate, ghost before: map<GateKey, GateRow>, fence: string, reason: string,
                        actor: string,
                        s: Summary, ghost first: Outside, second: Outside) returns (done: bool)
    requires gate.Valid() && gate.accepted == {} && gate.MayEvaluate(s.attemptID, fence)
    requires gate.state == Control.AwaitingGates
    requires s == SummaryOf(gate.terms, s.attemptID, gate.RequiresReviewer(), first)
    requires gate.gates == OfferedTable(gate.terms, before, s.attemptID, first, s)
    modifies gate
    ensures gate.Valid() && (done <==> gate.accepted != {})
    ensures done ==>
      gate.state == Control.Accepted && gate.history == old(gate.history) + ApproveEvents(gate.rec, s.evidenceAt)
    ensures (AllUp(second) && DemandedOnce(gate.terms.required) && Untouched(before, s.attemptID)
             && RowUnclaimed(gate.terms)
             && HumanReady(gate.terms.required, before, s.attemptID, Pending, ReviewOutput)) ==>
      (done <==> gate.admits(Approve) && Approvable(s, second, old(gate.decisions), reason, actor))
  {
    if DemandedOnce(gate.terms.required) && Untouched(before, s.attemptID) && RowUnclaimed(gate.terms)
       && HumanReady(gate.terms.required, before, s.attemptID, Pending, ReviewOutput) {
      OfferedCanBeDecided(gate.terms, before, s.attemptID, first, Approval(s, reason, actor), s);
    }
    var reply := gate.Decide(s.attemptID, fence, Approval(s, reason, actor), s, second);
    done := gate.state == Control.Accepted;
    assert done ==> (s.attemptID, s) in gate.accepted;
  }

  /** Evaluate, and approve what was offered. */
  method EvaluateThenApprove(gate: IntegrationGate, attempt: string, fence: string, reason: string, actor: string,
                             first: Outside, second: Outside) returns (done: bool, ghost tests: seq<Evidence>)
    requires gate.Valid() && gate.accepted == {}
    modifies gate
    ensures gate.Valid() && (done <==> gate.accepted != {})
    ensures done ==>
      && gate.state == Control.Accepted
      && gate.history == old(gate.history) + EvaluateEvents(gate.rec, gate.RequiresReviewer(), first.evidenceAt, tests,
                                                            first)
                         + ApproveEvents(gate.rec, first.evidenceAt)
    ensures AllUp(first) && AllUp(second) && DemandedOnce(gate.terms.required)
            && Untouched(old(gate.gates), attempt) ==>
      (done <==>
        && old(gate.MayEvaluate(attempt, fence)) && gate.admits(Approve) && RowUnclaimed(gate.terms)
        && Evaluable(gate.terms, old(gate.gates), attempt, gate.RequiresReviewer(), first)
        && Approvable(SummaryOf(gate.terms, attempt, gate.RequiresReviewer(), first), second, old(gate.decisions),
                      reason, actor))
  {
    ghost var before := gate.gates;
    var offer := EvaluateNew(gate, attempt, fence, first);
    if offer.Refused? { return false, []; }
    tests := offer.summary.tests;
    done := ApproveOffered(gate, before, fence, reason, actor, offer.summary, first, second);
  }

  /** The protocol from end to end on one gate: an evaluation and an approval that is carried
      out leave a history the readiness reducer reads as accepted work; on a new attempt, with
      nothing failing, that is exactly when the result is clean and unmoved and the approval
      admitted. */
  method EvaluateAndApprove(gate: IntegrationGate, ghost id: string -> string, ghost wp: string, attempt: string,
                            fence: string,
                            reason: string, actor: string, first: Outside, second: Outside) returns (done: bool)
    requires gate.Valid() && gate.rec == StandardRecorder(id, wp) && gate.history == [] && gate.accepted == {}
    modifies gate
    ensures gate.Valid() && (done <==> gate.accepted != {})
    ensures done ==> gate.state == Control.Accepted && ReadAsAccepted(wp, first.evidenceAt, gate.history)
    ensures AllUp(first) && AllUp(second) && DemandedOnce(gate.terms.required)
            && Untouched(old(gate.gates), attempt) ==>
      (done <==>
        && old(gate.MayEvaluate(attempt, fence)) && gate.admits(Approve) && RowUnclaimed(gate.terms)
        && Evaluable(gate.terms, old(gate.gates), attempt, gate.RequiresReviewer(), first)
        && Approvable(SummaryOf(gate.terms, attempt, gate.RequiresReviewer(), first), second, old(gate.decisions),
                      reason, actor))
  {
    ghost var tests;
    done, tests := EvaluateThenApprove(gate, attempt, fence, reason, actor, first, second);
    if done {
      assert gate.history == EvaluateEvents(gate.rec, gate.RequiresReviewer(), first.evidenceAt, tests, first)
                             + ApproveEvents(gate.rec, first.evidenceAt);
      EmittedIsRead(id, wp, gate.rec, gate.RequiresReviewer(), tests, first, gate.history);
    }
  }

  // ---------------------------------------------------------------- evaluate twice

  /** An attempt is evaluated once: after a summary has been issued for a contract with a
      machine gate, evaluating the attempt again cannot issue another, and with nothing failing
      it fails the attempt. */
  method EvaluateTwice(gate: IntegrationGate, attempt: string, fence: string, first: Outside, second: Outside)
    returns (one: Reply, two: Reply)
    requires gate.Valid()
    requires exists g :: g in gate.terms.required && !HumanGate(g.gateID)
    modifies gate
    ensures gate.Valid()
    ensures one.Issued? ==> two.Refused?
    ensures one.Issued? && AllUp(second) ==> gate.state == Control.Failed
  {
    one := gate.Evaluate(attempt, fence, first);
    if one.Issued? {
      SettledIsNotReady(gate.terms, old(gate.gates), attempt, first, OfferRow(one.summary), second.tests);
    }
    two := gate.Evaluate(attempt, fence, second);
  }

  lemma {:induction false} SettledIsNotReady(c: Terms, gates: map<GateKey, GateRow>, attempt: string, out: Outside,
                                             row: GateRow,
                                             tests: string -> TestResult)
    requires HumanGate(c.preview)
    requires exists g :: g in c.required && !HumanGate(g.gateID)
    ensures !MachineReady(c, EvaluatedTable(c, gates, attempt, out)[(attempt, c.preview, 1) := row], attempt, tests)
  {
    var g :| g in c.required && !HumanGate(g.gateID);
    TestedIsSettled(c.required, gates, attempt, out.tests, g);
    ReviewedRows(c.required, Tested(c.required, gates, attempt, out.tests), attempt, Pending, ReviewOutput,
                 KeyOf(attempt, g));
    assert !Runnable(c, EvaluatedTable(c, gates, attempt, out)[(attempt, c.preview, 1) := row], attempt, g, tests);
  }

  // ---------------------------------------------------------------- accepted without an offer

  const PASSING: string -> TestResult := gateID => TestResult(true, TestPassed, 0, true, "evidence:run")
  const REFUSING_OFFERS: (Stage, nat) -> bool := (stage, k) => stage != Offering
  const WORKING: (Stage, nat) -> bool := (stage, k) => true

  /** A clean result, of which only the summary cannot be put on record. */
  const UNOFFERED := Outside(
    REFUSING_OFFERS, Manifest("", "", "", true), Preview("", "", false, false), PASSING, "result", 1, [], false,
    "reviewer", ReviewApproved)

  /** An inspection that finds what the summary describes. */
  function Finding(s: Summary): Outside {
    Outside(WORKING, s.manifest, s.preview.(staleBase := false, conflicts := false), PASSING, "", 1, [], false, "",
            ReviewApproved)
  }

  /** Every gate can be met: versions are recordable and machine gates have their command. */
  ghost predicate Attainable(c: Terms) {
    && DemandedOnce(c.required)
    && forall g | g in c.required ::
      g.version >= 1 && (!HumanGate(g.gateID) ==> Authorised(c, g.gateID, g.version, g.digest))
  }

  lemma {:induction false} AttainableIsEvaluable(c: Terms, gates: map<GateKey, GateRow>, attempt: string,
                                                 reviewed: bool)
    requires Attainable(c) && Untouched(gates, attempt)
    ensures Evaluable(c, gates, attempt, reviewed, UNOFFERED) && UpToOffer(UNOFFERED) && !UNOFFERED.up(Offering, 0)
  {
    forall g | g in c.required && !HumanGate(g.gateID) ensures Runnable(c, gates, attempt, g, UNOFFERED.tests) {
      assert KeyOf(attempt, g) !in gates;
    }
    forall g | g in c.required && HumanGate(g.gateID)
      ensures CanRecord(gates, KeyOf(attempt, g), GateRow(g.digest, Pending, ReviewOutput))
    {
      assert KeyOf(attempt, g) !in gates;
    }
  }

  lemma {:induction false} FindingIsUnmoved(s: Summary)
    ensures Unmoved(s, Finding(s)) && AllUp(Finding(s))
  {
  }

  lemma {:induction false} PinnedCanBeDecided(c: Terms, gates: map<GateKey, GateRow>, attempt: string, out: Outside,
                                              d: Decision, s: Summary)
    requires Attainable(c) && Untouched(gates, attempt) && HumanGate(c.preview) && PinnedByContract(c, s.digest)
    requires d.choice == Approve || d.choice == Reject
    ensures Ripe(c, EvaluatedTable(c, gates, attempt, out), attempt, d, s)
  {
    var table := EvaluatedTable(c, gates, attempt, out);
    var pin :| pin in c.required && pin.gateID == c.preview && pin.version != 1 && pin.digest == s.digest;
    forall g | g in c.required ensures !TakesDecisionRow(c, g) {
      if g.gateID == c.preview { OneDemand(c.required, pin, g); }
    }
    if (attempt, c.preview, 1) in table { OnlyVersion(c, gates, attempt, out, pin, 1); }
    forall g | g in c.required && HumanGate(g.gateID)
      ensures CanRecord(table, KeyOf(attempt, g), GateRow(g.digest, DecidedStatus(d), HumanDecision(d.reason)))
    {
      PendingTakesDecision(c, gates, attempt, out, d, g);
    }
    ReviewedAt(c.required, Tested(c.required, gates, attempt, out.tests), attempt, Pending, ReviewOutput, pin);
    forall w: int | (attempt, c.preview, w) in table ensures pin.version <= w {
      OnlyVersion(c, gates, attempt, out, pin, w);
    }
    assert LowestIs(table, attempt, c.preview, pin.version, s.digest, Pending);
    MachineGatesStand(c, gates, attempt, out, DecisionRow(d, s));
  }

  method EvaluateUnoffered(gate: IntegrationGate, fence: string)
    requires gate.Valid() && Attainable(gate.terms) && gate.MayEvaluate(gate.attemptID, fence)
    requires Untouched(gate.gates, gate.attemptID)
    modifies gate`gates, gate`history, gate`passes, gate`offered, gate`state, gate`leaseActive
    ensures gate.Valid() && gate.offered == old(gate.offered) && gate.accepted == old(gate.accepted)
    ensures gate.gates == EvaluatedTable(gate.terms, old(gate.gates), gate.attemptID, UNOFFERED)
    ensures gate.state == Control.AwaitingGates && gate.leaseActive
  {
    AttainableIsEvaluable(gate.terms, gate.gates, gate.attemptID, gate.RequiresReviewer());
    var offer := gate.Evaluate(gate.attemptID, fence, UNOFFERED);
  }

  method ApprovePinned(gate: IntegrationGate, ghost before: map<GateKey, GateRow>, fence: string, s: Summary)
    requires gate.Valid() && Attainable(gate.terms) && gate.MayEvaluate(s.attemptID, fence)
    requires gate.state == Control.AwaitingGates && gate.accepted == {} && gate.decisions == {} && gate.admits(Approve)
    requires Untouched(before, s.attemptID) && gate.gates == EvaluatedTable(gate.terms, before, s.attemptID, UNOFFERED)
    requires s.digest == gate.terms.sha(Unsigned(s)) && s.digest != "" && s.ready && s.evidenceAt != UNSET
    requires PinnedByContract(gate.terms, s.digest)
    modifies gate`gates, gate`history, gate`decisions, gate`accepted, gate`state, gate`leaseActive
    ensures gate.Valid() && gate.state == Control.Accepted && gate.accepted == {(s.attemptID, s)}
  {
    PinnedCanBeDecided(gate.terms, before, s.attemptID, UNOFFERED, Approval(s, "", "operator"), s);
    FindingIsUnmoved(s);
    var reply := gate.Decide(s.attemptID, fence, Approval(s, "", "operator"), s, Finding(s));
  }

  method AcceptUnoffered(gate: IntegrationGate, fence: string, s: Summary)
    requires gate.Valid() && Attainable(gate.terms) && gate.MayEvaluate(s.attemptID, fence)
    requires Untouched(gate.gates, s.attemptID) && gate.accepted == {} && gate.decisions == {} && gate.admits(Approve)
    requires s.digest == gate.terms.sha(Unsigned(s)) && s.digest != "" && s.ready && s.evidenceAt != UNSET
    requires PinnedByContract(gate.terms, s.digest)
    modifies gate
    ensures gate.Valid() && gate.state == Control.Accepted && gate.accepted == {(s.attemptID, s)}
    ensures gate.offered == old(gate.offered)
  {
    ghost var before := gate.gates;
    EvaluateUnoffered(gate, fence);
    ApprovePinned(gate, before, fence, s);
  }

  /** The exception in `AcceptedWasOffered` is real: whatever else an attainable contract demands,
      if it pins a summary there is a run that accepts it although nothing was ever offered. */
  method AcceptPinned(required: seq<GateRequirement>, plans: map<string, TestCommand>, sha: Summary -> string,
                      reviewRequired: bool, rec: Recorder, admits: Choice -> bool, fence: string, s: Summary)
    returns (gate: IntegrationGate)
    requires Attainable(Terms(required, plans, PREVIEW_GATE, sha)) && admits(Approve)
    requires s.digest == sha(Unsigned(s)) && s.digest != "" && s.ready && s.evidenceAt != UNSET
    requires PinnedByContract(Terms(required, plans, PREVIEW_GATE, sha), s.digest)
    ensures fresh(gate) && gate.Valid() && gate.terms == Terms(required, plans, PREVIEW_GATE, sha)
    ensures gate.state == Control.Accepted && gate.accepted == {(s.attemptID, s)} && gate.offered == {}
  {
    PreviewIsHuman();
    gate := new IntegrationGate(required, sha, reviewRequired, plans, rec, admits, s.attemptID, Control.Collecting,
                                fence);
    AcceptUnoffered(gate, fence, s);
  }

  /** The smallest such contract demands nothing but the reserved gate, at version 2. */
  method AcceptPinnedAlone(sha: Summary -> string, rec: Recorder, admits: Choice -> bool, fence: string, s: Summary)
    returns (gate: IntegrationGate)
    requires admits(Approve)
    requires s.digest == sha(Unsigned(s)) && s.digest != "" && s.ready && s.evidenceAt != UNSET
    ensures gate.Valid() && gate.accepted == {(s.attemptID, s)} && gate.offered == {}
  {
    PreviewIsHuman();
    var pin := GateRequirement(PREVIEW_GATE, 2, s.digest, "");
    assert pin in [pin];
    gate := AcceptPinned([pin], map[], sha, false, rec, admits, fence, s);
  }
}

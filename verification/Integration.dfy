/** The integration gate: `Evaluate` runs the required gates on a collected result and records
    a summary as pending; `Decide` accepts or rejects exactly that summary. Control, history,
    workspace, tests and reviewer are outside; every answer and every failure they may give
    is an input of the call. */
module Integration {
  import opened Options
  import opened Text
  import opened Project
  import opened Gates
  import Control

  const PREVIEW_GATE := "gate:integration-preview"

  /** `humanGate`: every gate whose name contains "review" is left to a person. */
  predicate HumanGate(id: string) { Contains(id, "review") }

  /** The reserved preview gate is itself one of those: "preview" contains "review". */
  lemma {:induction false} PreviewIsHuman()
    ensures HumanGate(PREVIEW_GATE)
  {
    assert PREVIEW_GATE[18..] == "review";
    SuffixContained(PREVIEW_GATE, 18, "review");
  }

  lemma {:induction false} SuffixContained(s: string, k: nat, part: string)
    requires k <= |s| && HasPrefix(s[k..], part)
    ensures Contains(s, part)
  {
    if k == 0 {
      assert s[0..] == s;
    } else {
      assert s[1..][k - 1..] == s[k..];
      SuffixContained(s[1..], k - 1, part);
    }
  }

  // ---------------------------------------------------------------- data

  datatype GateStatus = Pending | Satisfied | GateFailed | Waived
  // why a row has its status: the evidence and reason recorded with it
  datatype Note =
    | TestAwaited | TestRan(evidenceID: string) | ReviewOutput | PreviewAwaited
    | PreviewDecision(reason: string) | HumanDecision(reason: string)
  datatype GateRow = GateRow(digest: string, status: GateStatus, note: Note)
  const UNSET := 0 // the instant of an unset time

  type GateKey = (string, string, int) // attempt, gate, version

  datatype TestCommand = TestCommand(gateID: string, version: int, digest: string, usable: bool)
  datatype TestOutcome = TestPassed | TestFailed | TestSkipped | TestUnknown
  datatype TestResult = TestResult(ran: bool, outcome: TestOutcome, exitCode: int, wellFormed: bool, evidenceID: string)

  datatype Manifest = Manifest(digest: string, baseCommit: string, headCommit: string, allowed: bool)
  datatype Preview = Preview(digest: string, headCommit: string, staleBase: bool, conflicts: bool)
  datatype Evidence = Evidence(gateID: string, version: int, digest: string, exitCode: int, evidenceID: string)

  datatype Summary = Summary(
    attemptID: string, resultID: string, manifest: Manifest, preview: Preview, tests: seq<Evidence>,
    reviewedBy: Option<string>, evidenceAt: int, ready: bool, digest: string)

  datatype Choice = Approve | Reject | OtherChoice(name: string)

  function ChoiceText(c: Choice): string {
    match c case Approve => "approve" case Reject => "reject" case OtherChoice(name) => name
  }

  /** The decisions the concrete control service knows. */
  predicate ControlAdmits(c: Choice) {
    ChoiceText(c) in {"cancel", "retry", "accept", "gate_waive", "reconcile"}
  }

  /** Neither of the decisions the gate sends is among them. */
  lemma {:induction false} ControlAdmitsNeither()
    ensures !ControlAdmits(Approve) && !ControlAdmits(Reject)
  {
    assert "approve"[1] == 'p' && "reject"[2] == 'j';
  }

  datatype Decision = Decision(choice: Choice, summaryDigest: string, reason: string, actor: string)

  /** The kinds of effect a call has on the outside. */
  datatype Stage = Calling | Testing | Recording | Completing | Offering | Failing

  /** What the outside answers during one call; `up(stage, k)` is whether the `k`th effect of
      that kind succeeds. */
  datatype Outside = Outside(
    up: (Stage, nat) -> bool, manifest: Manifest, preview: Preview, tests: string -> TestResult,
    resultID: string, evidenceAt: int, artifacts: seq<string>, handoff: bool, reviewer: string, review: ReviewOutcome)

  datatype GateError = InvalidRequest | StaleResult | GateRejected | OutsideFailure
  datatype Reply = Issued(summary: Summary) | Refused(error: GateError)

  function Unsigned(s: Summary): Summary { s.(digest := "") }

  // ---------------------------------------------------------------- emitted history

  datatype Key =
    | ReadyKey | InProgressKey | ExecutionStartKey | TestKey(gateID: string) | ExecutionFailedKey(code: string)
    | ExecutionCompleteKey | WorkFailedKey(code: string) | ArtifactKey(artifactID: string) | HandoffKey | ReviewKey
    | AutomatedReviewKey | HumanReviewKey | AcceptKey

  /** How history records of one package are dated and identified. */
  datatype Recorder = Recorder(offset: Key -> int, id: Key -> string, wp: string)

  function Emit(rec: Recorder, base: int, key: Key, body: EventBody): Event {
    Event(rec.id(key), rec.wp, base + rec.offset(key), body, "")
  }

  function Change(from: WorkPackageState, to: WorkPackageState): EventBody { StateChanged(Some((from, to))) }

  function StartEvents(rec: Recorder, base: int): seq<Event> {
    [Emit(rec, base, ReadyKey, Change(Planned, Ready)),
     Emit(rec, base, InProgressKey, Change(Ready, InProgress)),
     Emit(rec, base, ExecutionStartKey, OtherEvent("execution_started"))]
  }

  function TestEvent(rec: Recorder, base: int, gateID: string): Event {
    Emit(rec, base, TestKey(gateID), OtherEvent("test_recorded"))
  }

  function TestEvents(rec: Recorder, base: int, tests: seq<Evidence>): seq<Event> {
    seq(|tests|, i requires 0 <= i < |tests| => TestEvent(rec, base, tests[i].gateID))
  }

  function ArtifactEvents(rec: Recorder, base: int, artifacts: seq<string>): seq<Event> {
    seq(|artifacts|, i requires 0 <= i < |artifacts| =>
      Emit(rec, base, ArtifactKey(artifacts[i]), OtherEvent("artifact_recorded")))
  }

  function CompleteEvents(rec: Recorder, base: int, artifacts: seq<string>, handoff: bool): seq<Event> {
    [Emit(rec, base, ExecutionCompleteKey, OtherEvent("execution_completed"))]
    + ArtifactEvents(rec, base, artifacts)
    + (if handoff then [Emit(rec, base, HandoffKey, OtherEvent("handoff_created"))] else [])
    + [Emit(rec, base, ReviewKey, Change(InProgress, Review))]
  }

  /** The two best-effort records of a failure, as far as they were taken. */
  function FailEvents(rec: Recorder, base: int, code: string, up: (Stage, nat) -> bool): seq<Event> {
    (if up(Failing, 0) then [Emit(rec, base, ExecutionFailedKey(code), OtherEvent("execution_failed"))] else [])
    + (if up(Failing, 1) then [Emit(rec, base, WorkFailedKey(code), Change(InProgress, Failed))] else [])
  }

  function ReviewEvent(rec: Recorder, base: int, key: Key, outcome: ReviewOutcome): Event {
    Emit(rec, base, key, ReviewRecorded(Some(outcome)))
  }

  /** What the machine's part of a successful evaluation records, in order. */
  function ExamineEvents(rec: Recorder, base: int, tests: seq<Evidence>, out: Outside): seq<Event> {
    StartEvents(rec, base) + TestEvents(rec, base, tests) + CompleteEvents(rec, base, out.artifacts, out.handoff)
  }

  /** Everything a successful evaluation records, in the order it records it. */
  function EvaluateEvents(rec: Recorder, reviewed: bool, base: int, tests: seq<Evidence>, out: Outside): seq<Event> {
    ExamineEvents(rec, base, tests, out)
    + (if reviewed then [ReviewEvent(rec, base, AutomatedReviewKey, ReviewApproved)] else [])
  }

  function ApproveEvents(rec: Recorder, base: int): seq<Event> {
    [ReviewEvent(rec, base, HumanReviewKey, ReviewApproved), Emit(rec, base, AcceptKey, WorkAccepted)]
  }

  // ---------------------------------------------------------------- what the books promise

  /** What is fixed for the assignment: its required gates, the commands planned to test them,
      the reserved gate, the digest. */
  datatype Terms = Terms(
    required: seq<GateRequirement>, plans: map<string, TestCommand>, preview: string, sha: Summary -> string)

  type PassKey = (string, string, int, string) // attempt, gate, version, digest

  /** The gate table with its evidence: the test results behind the passes booked on each
      attempt, summaries offered for decision, and acceptances issued. */
  datatype Book = Book(
    gates: map<GateKey, GateRow>, passes: map<PassKey, TestResult>,
    offered: set<(string, Summary)>, accepted: set<(string, Summary)>)

  /** The command planned for the gate is the one for this version and digest. */
  predicate Authorised(c: Terms, gateID: string, version: int, digest: string) {
    && gateID in c.plans && c.plans[gateID].gateID == gateID && c.plans[gateID].version == version
    && c.plans[gateID].digest == digest && c.plans[gateID].usable
  }

  predicate CleanPass(t: TestResult) { t.ran && t.wellFormed && t.outcome == TestPassed && t.exitCode == 0 }

  /** A booked pass is of a planned command that ran, passed and exited 0. */
  predicate PassOk(c: Terms, k: PassKey, t: TestResult) {
    Authorised(c, k.1, k.2, k.3) && CleanPass(t)
  }

  ghost predicate PassesOk(c: Terms, b: Book) {
    forall k {:trigger PassOk(c, k, b.passes[k])} | k in b.passes :: PassOk(c, k, b.passes[k])
  }

  function PassKeyOf(attempt: string, g: GateRequirement): PassKey { (attempt, g.gateID, g.version, g.digest) }

  /** The contract itself demands the reserved gate, above its first version, with this digest. */
  ghost predicate PinnedByContract(c: Terms, digest: string) {
    exists g :: g in c.required && g.gateID == c.preview && g.version != 1 && g.digest == digest
  }

  /** The contract demands the very row that a decision is recorded in. */
  predicate TakesDecisionRow(c: Terms, g: GateRequirement) { g.gateID == c.preview && g.version == 1 }

  ghost predicate RowUnclaimed(c: Terms) { forall g | g in c.required :: !TakesDecisionRow(c, g) }

  ghost predicate PinnedFirst(c: Terms, digest: string) {
    exists g :: g in c.required && TakesDecisionRow(c, g) && g.digest == digest
  }

  ghost predicate OfferedDigest(b: Book, attempt: string, digest: string) {
    exists s :: (attempt, s) in b.offered && s.digest == digest
  }

  ghost predicate Decidable(c: Terms, b: Book, attempt: string, digest: string) {
    OfferedDigest(b, attempt, digest) || PinnedByContract(c, digest)
  }

  /** A satisfied machine gate was passed; a preview row is an offered summary's, unless the
      contract itself put it there. */
  ghost predicate RowOk(c: Terms, b: Book, k: GateKey, row: GateRow) {
    && (!HumanGate(k.1) && row.status == Satisfied ==> (k.0, k.1, k.2, row.digest) in b.passes)
    && (k.1 == c.preview ==> Decidable(c, b, k.0, row.digest) || (k.2 == 1 && PinnedFirst(c, row.digest)))
  }

  /** On this attempt the planned command for `g`, at its exact version and digest, ran, passed
      and exited 0. */
  ghost predicate Passed(c: Terms, b: Book, attempt: string, g: GateRequirement) {
    PassKeyOf(attempt, g) in b.passes && PassOk(c, PassKeyOf(attempt, g), b.passes[PassKeyOf(attempt, g)])
  }

  /** All required machine gates were passed on the attempt. */
  ghost predicate GatesPassed(c: Terms, b: Book, attempt: string) {
    forall g | g in c.required && !HumanGate(g.gateID) :: Passed(c, b, attempt, g)
  }

  ghost predicate AcceptanceOk(c: Terms, b: Book, attempt: string, s: Summary) {
    s.digest == c.sha(Unsigned(s)) && GatesPassed(c, b, attempt) && Decidable(c, b, attempt, s.digest)
  }

  /** Every test a summary reports exited 0 and is booked as a pass on that attempt. */
  ghost predicate TestsBooked(b: Book, attempt: string, tests: seq<Evidence>) {
    forall e | e in tests :: e.exitCode == 0 && (attempt, e.gateID, e.version, e.digest) in b.passes
  }

  ghost predicate OfferOk(c: Terms, b: Book, attempt: string, s: Summary) {
    s.attemptID == attempt && s.digest == c.sha(Unsigned(s)) && TestsBooked(b, attempt, s.tests)
  }

  ghost predicate OffersOk(c: Terms, b: Book) {
    forall a, s {:trigger OfferOk(c, b, a, s)} | (a, s) in b.offered :: OfferOk(c, b, a, s)
  }

  ghost predicate BookOk(c: Terms, b: Book) {
    && HumanGate(c.preview) && OffersOk(c, b) && PassesOk(c, b)
    && (forall k {:trigger RowOk(c, b, k, b.gates[k])} | k in b.gates :: RowOk(c, b, k, b.gates[k]))
    && (forall a, s {:trigger AcceptanceOk(c, b, a, s)} | (a, s) in b.accepted :: AcceptanceOk(c, b, a, s))
  }

  /** The planned command for `g` ran cleanly during this call, and its result is the one booked. */
  predicate Ran(c: Terms, passes: map<PassKey, TestResult>, attempt: string, g: GateRequirement,
                tests: string -> TestResult)
  {
    && PassKeyOf(attempt, g) in passes && passes[PassKeyOf(attempt, g)] == tests(g.gateID)
    && Authorised(c, g.gateID, g.version, g.digest) && CleanPass(tests(g.gateID))
  }

  ghost predicate AllRan(c: Terms, passes: map<PassKey, TestResult>, attempt: string, tests: string -> TestResult) {
    forall g | g in c.required && !HumanGate(g.gateID) :: Ran(c, passes, attempt, g, tests)
  }

  /** What a successful run of the gates did to the table: every machine gate could be run, and
      was. */
  ghost predicate Examined(c: Terms, before: map<GateKey, GateRow>, after: map<GateKey, GateRow>,
                           passes: map<PassKey, TestResult>, attempt: string, tests: string -> TestResult)
  {
    && AllRan(c, passes, attempt, tests) && MachineReady(c, before, attempt, tests)
    && after == Tested(c.required, before, attempt, tests)
  }

  /** No pass is lost, and what was booked since is a result of this call on this attempt. */
  ghost predicate FromTests(before: map<PassKey, TestResult>, after: map<PassKey, TestResult>, attempt: string,
                            tests: string -> TestResult)
  {
    && before.Keys <= after.Keys
    && forall k | k in after :: (k in before && before[k] == after[k]) || (k.0 == attempt && after[k] == tests(k.1))
  }

  /** One more pass from this call's tests. */
  lemma PassAdded(before: map<PassKey, TestResult>, passes: map<PassKey, TestResult>, attempt: string,
                  g: GateRequirement, tests: string -> TestResult)
    requires FromTests(before, passes, attempt, tests)
    ensures FromTests(before, passes[PassKeyOf(attempt, g) := tests(g.gateID)], attempt, tests)
  {
  }

  /** The evidence of machine gates that ran is booked. */
  lemma {:induction false} EvidenceIsBooked(c: Terms, b: Book, attempt: string, required: seq<GateRequirement>,
                                            tests: string -> TestResult)
    requires forall g | g in required && !HumanGate(g.gateID) :: Ran(c, b.passes, attempt, g, tests)
    ensures TestsBooked(b, attempt, MachineEvidence(required, tests))
  {
    if required != [] {
      EvidenceIsBooked(c, b, attempt, required[..|required| - 1], tests);
    }
  }

  function EvidenceOf(g: GateRequirement, tests: string -> TestResult): Evidence {
    Evidence(g.gateID, g.version, g.digest, 0, tests(g.gateID).evidenceID)
  }

  /** One piece of evidence with exit code 0 for each machine gate, in order. */
  function MachineEvidence(required: seq<GateRequirement>, tests: string -> TestResult): seq<Evidence> {
    if required == [] then [] else
      var g := required[|required| - 1];
      MachineEvidence(required[..|required| - 1], tests) + (if HumanGate(g.gateID) then [] else [EvidenceOf(g, tests)])
  }

  /** One more machine gate adds its evidence and its record. */
  lemma {:induction false} EvidenceStep(rec: Recorder, base: int, required: seq<GateRequirement>, i: nat,
                                        tests: string -> TestResult)
    requires i < |required|
    ensures var g, before := required[i], MachineEvidence(required[..i], tests);
            var after := MachineEvidence(required[..i + 1], tests);
            if HumanGate(g.gateID) then after == before
            else after == before + [EvidenceOf(g, tests)]
                 && TestEvents(rec, base, after) == TestEvents(rec, base, before) + [TestEvent(rec, base, g.gateID)]
  {
    assert required[..i + 1][..i] == required[..i];
  }

  /** Evidence, offers and acceptances are never withdrawn. */
  ghost predicate Grown(b: Book, b': Book) {
    b.passes.Keys <= b'.passes.Keys && b.offered <= b'.offered && b.accepted <= b'.accepted
  }

  lemma OffersStand(c: Terms, b: Book, b': Book)
    requires OffersOk(c, b) && b.passes.Keys <= b'.passes.Keys && b'.offered == b.offered
    ensures OffersOk(c, b')
  {
    forall a, s | (a, s) in b'.offered ensures OfferOk(c, b', a, s) { assert OfferOk(c, b, a, s); }
  }

  lemma PassesStand(c: Terms, b: Book, b': Book)
    requires PassesOk(c, b) && b'.passes == b.passes
    ensures PassesOk(c, b')
  {
    forall k | k in b'.passes ensures PassOk(c, k, b'.passes[k]) { assert PassOk(c, k, b.passes[k]); }
  }

  /** Recording more evidence spoils nothing. */
  lemma EvidenceKeeps(c: Terms, b: Book, b': Book)
    requires BookOk(c, b) && Grown(b, b') && b'.gates == b.gates && b'.accepted == b.accepted && OffersOk(c, b')
    requires PassesOk(c, b')
    ensures BookOk(c, b')
  {
    forall k | k in b'.gates ensures RowOk(c, b', k, b'.gates[k]) { assert RowOk(c, b, k, b.gates[k]); }
    forall a, s | (a, s) in b'.accepted ensures AcceptanceOk(c, b', a, s) {
      assert AcceptanceOk(c, b, a, s);
      PassesCarryOver(c, b, b', a);
    }
  }

  lemma OfferKeeps(c: Terms, b: Book, attempt: string, s: Summary)
    requires BookOk(c, b) && OfferOk(c, b, attempt, s)
    ensures BookOk(c, b.(offered := b.offered + {(attempt, s)}))
  {
    var b' := b.(offered := b.offered + {(attempt, s)});
    forall a, t | (a, t) in b'.offered ensures OfferOk(c, b', a, t) {
      if (a, t) in b.offered { assert OfferOk(c, b, a, t); } else { assert OfferOk(c, b, attempt, s); }
    }
    PassesStand(c, b, b');
    EvidenceKeeps(c, b, b');
  }

  /** A newly booked pass keeps the book. */
  lemma PassKeeps(c: Terms, b: Book, k: PassKey, t: TestResult)
    requires BookOk(c, b) && PassOk(c, k, t)
    ensures BookOk(c, b.(passes := b.passes[k := t]))
  {
    var b' := b.(passes := b.passes[k := t]);
    forall x | x in b'.passes ensures PassOk(c, x, b'.passes[x]) {
      if x != k { assert PassOk(c, x, b.passes[x]); }
    }
    OffersStand(c, b, b');
    EvidenceKeeps(c, b, b');
  }

  lemma PassesCarryOver(c: Terms, b: Book, b': Book, attempt: string)
    requires PassesOk(c, b') && b.passes.Keys <= b'.passes.Keys && GatesPassed(c, b, attempt)
    ensures GatesPassed(c, b', attempt)
  {
    forall g | g in c.required && !HumanGate(g.gateID) ensures Passed(c, b', attempt, g) {
      assert Passed(c, b, attempt, g);
      assert PassKeyOf(attempt, g) in b'.passes;
    }
  }

  lemma RowKeeps(c: Terms, b: Book, k: GateKey, row: GateRow)
    requires BookOk(c, b) && RowOk(c, b, k, row)
    ensures BookOk(c, b.(gates := b.gates[k := row]))
  {
    var b' := b.(gates := b.gates[k := row]);
    forall x | x in b'.gates ensures RowOk(c, b', x, b'.gates[x]) {
      if x != k { assert RowOk(c, b, x, b.gates[x]); }
    }
    forall a, s | (a, s) in b'.accepted ensures AcceptanceOk(c, b', a, s) { assert AcceptanceOk(c, b, a, s); }
    OffersStand(c, b, b');
    PassesStand(c, b, b');
  }

  lemma AcceptKeeps(c: Terms, b: Book, attempt: string, s: Summary)
    requires BookOk(c, b) && AcceptanceOk(c, b, attempt, s)
    ensures BookOk(c, b.(accepted := b.accepted + {(attempt, s)}))
  {
    var b' := b.(accepted := b.accepted + {(attempt, s)});
    forall k | k in b'.gates ensures RowOk(c, b', k, b'.gates[k]) { assert RowOk(c, b, k, b.gates[k]); }
    forall a, t | (a, t) in b'.accepted ensures AcceptanceOk(c, b', a, t) {
      if (a, t) in b.accepted { assert AcceptanceOk(c, b, a, t); }
    }
    OffersStand(c, b, b');
    PassesStand(c, b, b');
  }

  /** Where digests identify summaries, the accepted summary is exactly one that was offered on
      that attempt, unless the contract itself pinned it. */
  lemma {:induction false} AcceptedWasOffered(c: Terms, b: Book, attempt: string, s: Summary)
    requires BookOk(c, b) && (attempt, s) in b.accepted
    requires forall x, y :: c.sha(x) == c.sha(y) ==> x == y
    ensures GatesPassed(c, b, attempt)
    ensures ((attempt, s) in b.offered && TestsBooked(b, attempt, s.tests)) || PinnedByContract(c, s.digest)
  {
    assert AcceptanceOk(c, b, attempt, s);
    if !PinnedByContract(c, s.digest) {
      var t :| (attempt, t) in b.offered && t.digest == s.digest;
      assert OfferOk(c, b, attempt, t);
      assert Unsigned(s) == Unsigned(t);
      assert s == Unsigned(s).(digest := s.digest) && t == Unsigned(t).(digest := t.digest);
    }
  }

  /** Behind every acceptance, each required machine gate has a result of the command planned for its
      version and digest: it ran, it passed and it exited 0. */
  lemma {:induction false} AcceptedWasTested(c: Terms, b: Book, attempt: string, s: Summary, g: GateRequirement)
    requires BookOk(c, b) && (attempt, s) in b.accepted && g in c.required && !Contains(g.gateID, "review")
    ensures (attempt, g.gateID, g.version, g.digest) in b.passes
    ensures var t := b.passes[(attempt, g.gateID, g.version, g.digest)];
            t.ran && t.wellFormed && t.outcome == TestPassed && t.exitCode == 0
    ensures g.gateID in c.plans && c.plans[g.gateID] == TestCommand(g.gateID, g.version, g.digest, true)
  {
    assert AcceptanceOk(c, b, attempt, s);
    assert Passed(c, b, attempt, g);
  }

  // ---------------------------------------------------------------- the gate table

  /** `RecordGateStatus`: insert, replay, or a legal change from pending. */
  predicate CanRecord(gates: map<GateKey, GateRow>, key: GateKey, row: GateRow) {
    && key.2 >= 1
    && (|| key !in gates || gates[key] == row
        || (gates[key].digest == row.digest && gates[key].status == Pending && row.status != Pending))
  }

  function AfterRecord(gates: map<GateKey, GateRow>, key: GateKey, row: GateRow): map<GateKey, GateRow> {
    if CanRecord(gates, key, row) then gates[key := row] else gates
  }

  /** Rows that had left pending are as they were. */
  ghost predicate Settled(before: map<GateKey, GateRow>, after: map<GateKey, GateRow>) {
    forall k | k in before && before[k].status != Pending :: k in after && after[k] == before[k]
  }

  function KeyOf(attempt: string, g: GateRequirement): GateKey { (attempt, g.gateID, g.version) }

  /** The row of `g` on this attempt has this status. */
  predicate Holds(gates: map<GateKey, GateRow>, attempt: string, g: GateRequirement, status: GateStatus, note: Note) {
    KeyOf(attempt, g) in gates && gates[KeyOf(attempt, g)] == GateRow(g.digest, status, note)
  }

  /** Contracts demand a gate once. */
  ghost predicate DemandedOnce(required: seq<GateRequirement>) {
    forall i, j | 0 <= i < j < |required| :: required[i].gateID != required[j].gateID
  }

  function PassedRow(g: GateRequirement, tests: string -> TestResult): GateRow {
    GateRow(g.digest, Satisfied, TestRan(tests(g.gateID).evidenceID))
  }

  /** The table once every machine gate has passed. */
  function Tested(required: seq<GateRequirement>, gates: map<GateKey, GateRow>, attempt: string,
                  tests: string -> TestResult): map<GateKey, GateRow>
  {
    if required == [] then gates else
      var g, before := required[|required| - 1], Tested(required[..|required| - 1], gates, attempt, tests);
      if HumanGate(g.gateID) then before else before[KeyOf(attempt, g) := PassedRow(g, tests)]
  }

  /** The table once every human gate has been given one status. */
  function Reviewed(required: seq<GateRequirement>, gates: map<GateKey, GateRow>, attempt: string,
                    status: GateStatus, note: Note): map<GateKey, GateRow>
  {
    if required == [] then gates else
      var g, before := required[|required| - 1], Reviewed(required[..|required| - 1], gates, attempt, status, note);
      if HumanGate(g.gateID) then before[KeyOf(attempt, g) := GateRow(g.digest, status, note)] else before
  }

  predicate SameAt(before: map<GateKey, GateRow>, after: map<GateKey, GateRow>, k: GateKey) {
    (k in before <==> k in after) && (k in before ==> before[k] == after[k])
  }

  /** Testing leaves a row satisfied or as it was, and touches only the gates it runs. */
  lemma {:induction false} TestedRows(required: seq<GateRequirement>, gates: map<GateKey, GateRow>, attempt: string,
                                      tests: string -> TestResult, k: GateKey)
    ensures var after := Tested(required, gates, attempt, tests);
            SameAt(gates, after, k) || (k in after && after[k].status == Satisfied)
    ensures (forall g | g in required && !HumanGate(g.gateID) :: KeyOf(attempt, g) != k) ==>
              SameAt(gates, Tested(required, gates, attempt, tests), k)
  {
    if required != [] { TestedRows(required[..|required| - 1], gates, attempt, tests, k); }
  }

  lemma {:induction false} ReviewedRows(required: seq<GateRequirement>, gates: map<GateKey, GateRow>, attempt: string,
                                        status: GateStatus, note: Note, k: GateKey)
    ensures (forall g | g in required && HumanGate(g.gateID) :: KeyOf(attempt, g) != k) ==>
              SameAt(gates, Reviewed(required, gates, attempt, status, note), k)
  {
    if required != [] { ReviewedRows(required[..|required| - 1], gates, attempt, status, note, k); }
  }

  /** Every demanded machine gate has passed, every demanded human gate has the status. */
  lemma {:induction false} TestedAt(required: seq<GateRequirement>, gates: map<GateKey, GateRow>, attempt: string,
                                    tests: string -> TestResult, g: GateRequirement)
    requires DemandedOnce(required) && g in required && !HumanGate(g.gateID)
    ensures var after := Tested(required, gates, attempt, tests);
            KeyOf(attempt, g) in after && after[KeyOf(attempt, g)] == PassedRow(g, tests)
  {
    var last := required[|required| - 1];
    if last != g { TestedAt(required[..|required| - 1], gates, attempt, tests, g); }
  }

  lemma {:induction false} TestedIsSettled(required: seq<GateRequirement>, gates: map<GateKey, GateRow>,
                                           attempt: string,
                                           tests: string -> TestResult, g: GateRequirement)
    requires g in required && !HumanGate(g.gateID)
    ensures var after := Tested(required, gates, attempt, tests);
            KeyOf(attempt, g) in after && after[KeyOf(attempt, g)].status == Satisfied
  {
    var last := required[|required| - 1];
    if last != g { TestedIsSettled(required[..|required| - 1], gates, attempt, tests, g); }
  }

  lemma {:induction false} ReviewedAt(required: seq<GateRequirement>, gates: map<GateKey, GateRow>, attempt: string,
                                      status: GateStatus, note: Note, g: GateRequirement)
    requires DemandedOnce(required) && g in required && HumanGate(g.gateID)
    ensures Holds(Reviewed(required, gates, attempt, status, note), attempt, g, status, note)
  {
    var last := required[|required| - 1];
    if last != g { ReviewedAt(required[..|required| - 1], gates, attempt, status, note, g); }
  }

  // ---------------------------------------------------------------- when a call succeeds

  /** Nothing outside fails. */
  ghost predicate AllUp(out: Outside) { forall stage, k: nat :: out.up(stage, k) }

  /** Nothing outside fails before the summary is put on record. */
  ghost predicate UpToOffer(out: Outside) { forall stage, k: nat | stage != Offering :: out.up(stage, k) }

  predicate CleanResult(out: Outside) {
    && out.manifest.allowed && !out.preview.staleBase && !out.preview.conflicts
    && out.preview.headCommit == out.manifest.headCommit
  }

  /** The planned command for `g` passes, and its row is still open for it. */
  predicate Runnable(c: Terms, gates: map<GateKey, GateRow>, attempt: string, g: GateRequirement,
                     tests: string -> TestResult)
  {
    && Authorised(c, g.gateID, g.version, g.digest) && CleanPass(tests(g.gateID))
    && CanRecord(gates, KeyOf(attempt, g), GateRow(g.digest, Pending, TestAwaited))
  }

  ghost predicate MachineReady(c: Terms, gates: map<GateKey, GateRow>, attempt: string, tests: string -> TestResult) {
    forall g | g in c.required && !HumanGate(g.gateID) :: Runnable(c, gates, attempt, g, tests)
  }

  /** Every human gate can be given the status. */
  ghost predicate HumanReady(required: seq<GateRequirement>, gates: map<GateKey, GateRow>, attempt: string,
                             status: GateStatus, note: Note)
  {
    forall g | g in required && HumanGate(g.gateID) ::
      CanRecord(gates, KeyOf(attempt, g), GateRow(g.digest, status, note))
  }

  /** The result stands up to inspection, to every test and to the reviewer, if there is one. */
  ghost predicate Evaluable(c: Terms, gates: map<GateKey, GateRow>, attempt: string, reviewed: bool, out: Outside) {
    && CleanResult(out) && MachineReady(c, gates, attempt, out.tests)
    && (reviewed ==> out.review == ReviewApproved) && HumanReady(c.required, gates, attempt, Pending, ReviewOutput)
  }

  /** The table an evaluation leaves before it puts its summary on record. */
  function EvaluatedTable(c: Terms, gates: map<GateKey, GateRow>, attempt: string, out: Outside): map<GateKey, GateRow>
  {
    Reviewed(c.required, Tested(c.required, gates, attempt, out.tests), attempt, Pending, ReviewOutput)
  }

  function SummaryOf(c: Terms, attempt: string, reviewed: bool, out: Outside): Summary {
    var draft := Summary(attempt, out.resultID, out.manifest, out.preview, MachineEvidence(c.required, out.tests),
                         if reviewed then Some(out.reviewer) else None, out.evidenceAt, true, "");
    draft.(digest := c.sha(draft))
  }

  function OfferRow(s: Summary): GateRow { GateRow(s.digest, Pending, PreviewAwaited) }

  /** The row for the summary is free, and the contract does not claim it. */
  ghost predicate Offerable(c: Terms, gates: map<GateKey, GateRow>, attempt: string, s: Summary) {
    && RowUnclaimed(c) && CanRecord(gates, (attempt, c.preview, 1), OfferRow(s))
  }

  /** Whether the summary can go on record can be told before the evaluation. */
  lemma {:induction false} OfferableBefore(c: Terms, gates: map<GateKey, GateRow>, attempt: string, out: Outside,
                                           s: Summary)
    requires DemandedOnce(c.required) && HumanGate(c.preview)
    ensures CanRecord(EvaluatedTable(c, gates, attempt, out), (attempt, c.preview, 1), OfferRow(s))
       <==> Offerable(c, gates, attempt, s)
  {
    var k, tested := (attempt, c.preview, 1), Tested(c.required, gates, attempt, out.tests);
    TestedRows(c.required, gates, attempt, out.tests, k);
    if g :| g in c.required && TakesDecisionRow(c, g) {
      ReviewedAt(c.required, tested, attempt, Pending, ReviewOutput, g);
    } else {
      ReviewedRows(c.required, tested, attempt, Pending, ReviewOutput, k);
    }
  }

  /** A gate's row is open for its test before a run of the gates exactly when it is on its turn. */
  lemma {:induction false} RunnableBefore(c: Terms, i: nat, gates: map<GateKey, GateRow>, attempt: string,
                                          tests: string -> TestResult)
    requires i < |c.required| && !HumanGate(c.required[i].gateID)
    ensures var now := Tested(c.required[..i], gates, attempt, tests);
            && (Runnable(c, now, attempt, c.required[i], tests) ==> Runnable(c, gates, attempt, c.required[i], tests))
            && (DemandedOnce(c.required) && Runnable(c, gates, attempt, c.required[i], tests) ==>
                  Runnable(c, now, attempt, c.required[i], tests))
  {
    TestedRows(c.required[..i], gates, attempt, tests, KeyOf(attempt, c.required[i]));
  }

  /** The first `i` gates have been run, from the table `before` to the table `now`. */
  ghost predicate TestedUpTo(c: Terms, i: nat, before: map<GateKey, GateRow>, now: map<GateKey, GateRow>,
                             booked: map<PassKey, TestResult>, passes: map<PassKey, TestResult>, attempt: string,
                             tests: string -> TestResult)
    requires i <= |c.required|
  {
    && FromTests(booked, passes, attempt, tests)
    && now == Tested(c.required[..i], before, attempt, tests)
    && forall g | g in c.required[..i] && !HumanGate(g.gateID) ::
         Ran(c, passes, attempt, g, tests) && Runnable(c, before, attempt, g, tests)
  }

  lemma {:induction false} TestSkip(c: Terms, i: nat, before: map<GateKey, GateRow>, now: map<GateKey, GateRow>,
                                    booked: map<PassKey, TestResult>, passes: map<PassKey, TestResult>,
                                    attempt: string, tests: string -> TestResult)
    requires i < |c.required| && TestedUpTo(c, i, before, now, booked, passes, attempt, tests)
    requires HumanGate(c.required[i].gateID)
    ensures TestedUpTo(c, i + 1, before, now, booked, passes, attempt, tests)
  {
    assert c.required[..i + 1] == c.required[..i] + [c.required[i]] && c.required[..i + 1][..i] == c.required[..i];
  }

  lemma {:induction false} TestStep(c: Terms, i: nat, before: map<GateKey, GateRow>, now: map<GateKey, GateRow>,
                                    booked: map<PassKey, TestResult>, passes: map<PassKey, TestResult>,
                                    attempt: string, tests: string -> TestResult)
    requires i < |c.required| && TestedUpTo(c, i, before, now, booked, passes, attempt, tests)
    requires !HumanGate(c.required[i].gateID)
    ensures var g := c.required[i];
            if Runnable(c, now, attempt, g, tests)
            then TestedUpTo(c, i + 1, before, now[KeyOf(attempt, g) := PassedRow(g, tests)], booked,
                            passes[PassKeyOf(attempt, g) := tests(g.gateID)], attempt, tests)
            else DemandedOnce(c.required) ==> !MachineReady(c, before, attempt, tests)
  {
    assert c.required[..i + 1] == c.required[..i] + [c.required[i]] && c.required[..i + 1][..i] == c.required[..i];
    RunnableBefore(c, i, before, attempt, tests);
    PassAdded(booked, passes, attempt, c.required[i], tests);
  }

  ghost predicate AllHold(required: seq<GateRequirement>, gates: map<GateKey, GateRow>, attempt: string,
                          status: GateStatus, note: Note)
  {
    forall g | g in required && HumanGate(g.gateID) :: Holds(gates, attempt, g, status, note)
  }

  /** The first `i` gates have been dealt with: `now` was `before`. */
  ghost predicate ReviewedUpTo(required: seq<GateRequirement>, i: nat, before: map<GateKey, GateRow>,
                               now: map<GateKey, GateRow>,
                               attempt: string, status: GateStatus, note: Note)
    requires i <= |required|
  {
    && now == Reviewed(required[..i], before, attempt, status, note) && Settled(before, now)
    && AllHold(required[..i], now, attempt, status, note)
    && (DemandedOnce(required) ==> HumanReady(required[..i], before, attempt, status, note))
  }

  /** One more row given the status takes it from no other. */
  lemma {:induction false} HoldStep(done: seq<GateRequirement>, g: GateRequirement, before: map<GateKey, GateRow>,
                                    now: map<GateKey, GateRow>, attempt: string, status: GateStatus, note: Note)
    requires AllHold(done, now, attempt, status, note) && Settled(before, now)
    requires CanRecord(now, KeyOf(attempt, g), GateRow(g.digest, status, note))
    ensures var next := now[KeyOf(attempt, g) := GateRow(g.digest, status, note)];
            AllHold(done + [g], next, attempt, status, note) && Settled(before, next)
  {
    var next := now[KeyOf(attempt, g) := GateRow(g.digest, status, note)];
    forall h | h in done + [g] && HumanGate(h.gateID) ensures Holds(next, attempt, h, status, note) {
      if h in done { assert Holds(now, attempt, h, status, note); }
    }
  }

  /** Whether a row can be given the status does not change before its turn. */
  lemma {:induction false} ReadyStep(required: seq<GateRequirement>, i: nat, before: map<GateKey, GateRow>,
                                     attempt: string,
                                     status: GateStatus, note: Note)
    requires i < |required| && HumanGate(required[i].gateID) && DemandedOnce(required)
    requires HumanReady(required[..i], before, attempt, status, note)
    ensures var k, row := KeyOf(attempt, required[i]), GateRow(required[i].digest, status, note);
            if CanRecord(Reviewed(required[..i], before, attempt, status, note), k, row)
            then HumanReady(required[..i] + [required[i]], before, attempt, status, note)
            else !HumanReady(required, before, attempt, status, note)
  {
    ReviewedRows(required[..i], before, attempt, status, note, KeyOf(attempt, required[i]));
  }

  lemma {:induction false} ReviewSkip(required: seq<GateRequirement>, i: nat, before: map<GateKey, GateRow>,
                                      now: map<GateKey, GateRow>, attempt: string, status: GateStatus, note: Note)
    requires i < |required| && ReviewedUpTo(required, i, before, now, attempt, status, note)
    requires !HumanGate(required[i].gateID)
    ensures ReviewedUpTo(required, i + 1, before, now, attempt, status, note)
  {
    assert required[..i + 1] == required[..i] + [required[i]] && required[..i + 1][..i] == required[..i];
  }

  lemma {:induction false} ReviewStep(required: seq<GateRequirement>, i: nat, before: map<GateKey, GateRow>,
                                      now: map<GateKey, GateRow>, attempt: string, status: GateStatus, note: Note)
    requires i < |required| && ReviewedUpTo(required, i, before, now, attempt, status, note)
    requires HumanGate(required[i].gateID)
    ensures var k, row := KeyOf(attempt, required[i]), GateRow(required[i].digest, status, note);
            if CanRecord(now, k, row) then ReviewedUpTo(required, i + 1, before, now[k := row], attempt, status, note)
            else DemandedOnce(required) ==> !HumanReady(required, before, attempt, status, note)
  {
    assert required[..i + 1] == required[..i] + [required[i]] && required[..i + 1][..i] == required[..i];
    if DemandedOnce(required) { ReadyStep(required, i, before, attempt, status, note); }
    if CanRecord(now, KeyOf(attempt, required[i]), GateRow(required[i].digest, status, note)) {
      HoldStep(required[..i], required[i], before, now, attempt, status, note);
    }
  }

  /** Testing does not touch the rows of human gates. */
  lemma {:induction false} HumanReadyStill(c: Terms, gates: map<GateKey, GateRow>, attempt: string,
                                           tests: string -> TestResult)
    ensures HumanReady(c.required, Tested(c.required, gates, attempt, tests), attempt, Pending, ReviewOutput)
       <==> HumanReady(c.required, gates, attempt, Pending, ReviewOutput)
  {
    forall g | g in c.required && HumanGate(g.gateID)
      ensures SameAt(gates, Tested(c.required, gates, attempt, tests), KeyOf(attempt, g))
    {
      TestedRows(c.required, gates, attempt, tests, KeyOf(attempt, g));
    }
  }

  /** Once the gates have run, their evidence is booked and the human gates are as they were. */
  lemma {:induction false} ReadyForReview(c: Terms, gates: map<GateKey, GateRow>, b: Book, attempt: string,
                                          tests: string -> TestResult)
    requires Examined(c, gates, b.gates, b.passes, attempt, tests)
    ensures TestsBooked(b, attempt, MachineEvidence(c.required, tests))
    ensures HumanReady(c.required, b.gates, attempt, Pending, ReviewOutput)
       <==> HumanReady(c.required, gates, attempt, Pending, ReviewOutput)
  {
    EvidenceIsBooked(c, b, attempt, c.required, tests);
    HumanReadyStill(c, gates, attempt, tests);
  }

  lemma {:induction false} NoHumanGates(required: seq<GateRequirement>, gates: map<GateKey, GateRow>, attempt: string,
                                        status: GateStatus, note: Note)
    requires forall i | 0 <= i < |required| :: !HumanGate(required[i].gateID)
    ensures Reviewed(required, gates, attempt, status, note) == gates
  {
    if required != [] { NoHumanGates(required[..|required| - 1], gates, attempt, status, note); }
  }

  /** The lowest version on record of a gate has this digest and status. */
  ghost predicate OnRecord(gates: map<GateKey, GateRow>, attempt: string, id: string, digest: string,
                           status: GateStatus)
  {
    exists v: int :: LowestIs(gates, attempt, id, v, digest, status)
  }

  ghost predicate LowestIs(gates: map<GateKey, GateRow>, attempt: string, id: string, v: int, digest: string,
                           status: GateStatus)
  {
    && (attempt, id, v) in gates && gates[(attempt, id, v)].digest == digest && gates[(attempt, id, v)].status == status
    && forall w: int {:trigger (attempt, id, w) in gates} | (attempt, id, w) in gates :: v <= w
  }

  /** Every required machine gate stands satisfied at its exact version and digest. */
  ghost predicate MachineStands(c: Terms, gates: map<GateKey, GateRow>, attempt: string) {
    forall g | g in c.required && !HumanGate(g.gateID) ::
      LowestIs(gates, attempt, g.gateID, g.version, g.digest, Satisfied)
  }

  /** What the summary describes has not moved. */
  predicate Unmoved(s: Summary, out: Outside) {
    && out.manifest.digest == s.manifest.digest && out.manifest.baseCommit == s.manifest.baseCommit
    && out.manifest.headCommit == s.manifest.headCommit && out.preview.digest == s.preview.digest
    && !out.preview.staleBase && !out.preview.conflicts
  }

  function DecidedStatus(d: Decision): GateStatus { if d.choice == Approve then Satisfied else GateFailed }

  function DecisionRow(d: Decision, s: Summary): GateRow {
    GateRow(s.digest, DecidedStatus(d), PreviewDecision(d.reason))
  }

  /** The decision can be entered in its own row and in those of all human gates. */
  ghost predicate Enterable(c: Terms, gates: map<GateKey, GateRow>, attempt: string, d: Decision, s: Summary) {
    && RowUnclaimed(c) && CanRecord(gates, (attempt, c.preview, 1), DecisionRow(d, s))
    && HumanReady(c.required, gates, attempt, DecidedStatus(d), HumanDecision(d.reason))
  }

  /** Entering the decision in its own row leaves the rows of human gates as they were, unless
      one of them is that row. */
  lemma {:induction false} EnterableAfter(c: Terms, gates: map<GateKey, GateRow>, attempt: string, d: Decision,
                                          s: Summary)
    requires CanRecord(gates, (attempt, c.preview, 1), DecisionRow(d, s)) && HumanGate(c.preview)
    ensures HumanReady(c.required, gates[(attempt, c.preview, 1) := DecisionRow(d, s)], attempt, DecidedStatus(d),
                       HumanDecision(d.reason))
       <==> Enterable(c, gates, attempt, d, s)
  {
    var after := gates[(attempt, c.preview, 1) := DecisionRow(d, s)];
    forall g | g in c.required && HumanGate(g.gateID)
      ensures if TakesDecisionRow(c, g)
              then !CanRecord(after, KeyOf(attempt, g), GateRow(g.digest, DecidedStatus(d), HumanDecision(d.reason)))
              else SameAt(gates, after, KeyOf(attempt, g))
    {
    }
  }

  lemma {:induction false} RowIsFree(c: Terms, gates: map<GateKey, GateRow>, attempt: string, d: Decision, s: Summary)
    requires (attempt, c.preview, 1) in gates && gates[(attempt, c.preview, 1)] == DecisionRow(d, s)
    requires HumanGate(c.preview)
    requires AllHold(c.required, gates, attempt, DecidedStatus(d), HumanDecision(d.reason))
    ensures RowUnclaimed(c)
  {
    forall g | g in c.required ensures !TakesDecisionRow(c, g) {
      assert TakesDecisionRow(c, g) ==> KeyOf(attempt, g) == (attempt, c.preview, 1);
    }
  }

  /** The summary is on record as pending, the machine gates stand, and the decision fits. */
  ghost predicate Ripe(c: Terms, gates: map<GateKey, GateRow>, attempt: string, d: Decision, s: Summary) {
    && OnRecord(gates, attempt, c.preview, s.digest, Pending) && MachineStands(c, gates, attempt)
    && Enterable(c, gates, attempt, d, s)
  }

  /** No other decision by the same person on the same summary. */
  predicate Unopposed(decisions: set<Decision>, d: Decision) {
    forall e | e in decisions :: e.summaryDigest == d.summaryDigest && e.actor == d.actor ==> e == d
  }

  /** The decision is a decision on a signed, ready summary. */
  predicate WellFormed(c: Terms, d: Decision, s: Summary) {
    && (d.choice == Approve || d.choice == Reject) && d.actor != "" && s.digest != "" && c.sha(Unsigned(s)) == s.digest
  }

  /** The first row for a gate: rows are listed by version. */
  method GateByID(gates: map<GateKey, GateRow>, attempt: string, id: string) returns (r: Option<(int, GateRow)>)
    ensures r.Some? ==> (attempt, id, r.value.0) in gates && gates[(attempt, id, r.value.0)] == r.value.1
    ensures r.None? <==> forall v: int {:trigger (attempt, id, v) in gates} :: (attempt, id, v) !in gates
    ensures r.Some? ==> forall v: int {:trigger (attempt, id, v) in gates} | (attempt, id, v) in gates :: r.value.0 <= v
  {
    var rest := gates.Keys;
    r := None;
    while rest != {}
      invariant rest <= gates.Keys
      invariant r.Some? ==> (attempt, id, r.value.0) in gates && gates[(attempt, id, r.value.0)] == r.value.1
      invariant forall v: int {:trigger (attempt, id, v) in gates} |
                  (attempt, id, v) in gates && (attempt, id, v) !in rest ::
                  r.Some? && r.value.0 <= v
      decreases rest
    {
      var k :| k in rest;
      if k.0 == attempt && k.1 == id && (r.None? || k.2 < r.value.0) { r := Some((k.2, gates[k])); }
      rest := rest - {k};
    }
  }

  // ---------------------------------------------------------------- the service

  class IntegrationGate {
    const terms: Terms
    const reviewRequired: bool
    const rec: Recorder
    const admits: Choice -> bool // which operator decisions control accepts

    var attemptID: string
    var state: Control.State
    var leaseActive: bool
    var fencing: string
    var hasResources: bool
    var gates: map<GateKey, GateRow>
    var decisions: set<Decision>
    var history: seq<Event>
    ghost var passes: map<PassKey, TestResult>
    ghost var offered: set<(string, Summary)>
    ghost var accepted: set<(string, Summary)>

    constructor (required: seq<GateRequirement>, sha: Summary -> string, reviewRequired: bool,
                 plans: map<string, TestCommand>, rec: Recorder, admits: Choice -> bool,
                 attemptID: string, state: Control.State, fencing: string)
      ensures Valid() && B() == Book(map[], map[], {}, {})
      ensures terms == Terms(required, plans, PREVIEW_GATE, sha) && this.reviewRequired == reviewRequired
      ensures this.rec == rec && this.admits == admits && history == [] && decisions == {}
      ensures this.attemptID == attemptID
      ensures this.state == state && leaseActive && this.fencing == fencing && hasResources
    {
      PreviewIsHuman();
      terms := Terms(required, plans, PREVIEW_GATE, sha);
      this.reviewRequired, this.rec, this.admits := reviewRequired, rec, admits;
      this.attemptID, this.state, this.leaseActive := attemptID, state, true;
      this.fencing, this.hasResources := fencing, true;
      gates, decisions, history := map[], {}, [];
      passes, offered, accepted := map[], {}, {};
    }

    ghost function B(): Book
      reads this
    {
      Book(gates, passes, offered, accepted)
    }

    ghost predicate Valid()
      reads this
    {
      BookOk(terms, B())
    }

    predicate RequiresReviewer() {
      reviewRequired || exists i | 0 <= i < |terms.required| :: HumanGate(terms.required[i].gateID)
    }

    // ------------------------------------------------------------ control and history

    method RecordGate(id: string, version: int, row: GateRow, up: bool) returns (ok: bool)
      modifies this`gates
      ensures gates == if up then AfterRecord(old(gates), (attemptID, id, version), row) else old(gates)
      ensures ok <==> up && CanRecord(old(gates), (attemptID, id, version), row)
      ensures ok ==> gates == old(gates)[(attemptID, id, version) := row]
      ensures !ok ==> gates == old(gates)
    {
      var key := (attemptID, id, version);
      ok := up && CanRecord(gates, key, row);
      if ok { gates := gates[key := row]; }
    }

    method MoveTo(target: Control.State, up: bool) returns (ok: bool)
      modifies this`state, this`leaseActive
      ensures ok <==> up && old(leaseActive) && Control.Allowed(old(state), target)
      ensures ok ==> state == target && leaseActive == !Control.Terminal(target)
      ensures !ok ==> state == old(state) && leaseActive == old(leaseActive)
    {
      ok := up && leaseActive && Control.Allowed(state, target);
      if ok {
        state := target;
        leaseActive := !Control.Terminal(target);
      }
    }

    /** Anything other control calls may do to the assignment between two calls here. */
    method Elsewhere(attempt: string, target: Control.State, active: bool, fence: string, resources: bool)
      modifies this`attemptID, this`state, this`leaseActive, this`fencing, this`hasResources
      ensures B() == old(B())
    {
      attemptID, state, leaseActive, fencing, hasResources := attempt, target, active, fence, resources;
    }

    /** Record events one at a time, stopping at the first that is refused. */
    method Append(events: seq<Event>, stage: Stage, first: nat, up: (Stage, nat) -> bool) returns (ok: bool)
      modifies this`history
      ensures ok ==> history == old(history) + events
      ensures ok <==> forall k: nat | first <= k < first + |events| :: up(stage, k)
      ensures !ok ==> exists i | 0 <= i < |events| :: !up(stage, first + i) && history == old(history) + events[..i]
    {
      for i := 0 to |events|
        invariant history == old(history) + events[..i]
        invariant forall k: nat | first <= k < first + i :: up(stage, k)
      {
        if !up(stage, first + i) { return false; }
        history := history + [events[i]];
      }
      ok := true;
    }

    /** `fail`: best-effort records, then the attempt is failed. */
    method Fail(base: int, code: string, up: (Stage, nat) -> bool)
      modifies this`history, this`state, this`leaseActive
      ensures history == old(history) + FailEvents(rec, base, code, up)
      ensures state ==
        if up(Failing, 2) && old(leaseActive) && Control.Allowed(old(state), Control.Failed) then Control.Failed
        else old(state)
      ensures leaseActive == (old(leaseActive) && !(up(Failing, 2) && Control.Allowed(old(state), Control.Failed)))
    {
      if up(Failing, 0) {
        history := history + [Emit(rec, base, ExecutionFailedKey(code), OtherEvent("execution_failed"))];
      }
      if up(Failing, 1) { history := history + [Emit(rec, base, WorkFailedKey(code), Change(InProgress, Failed))]; }
      var _ := MoveTo(Control.Failed, up(Failing, 2));
    }

    // ------------------------------------------------------------ evaluation

    /** One machine gate: pending, run, recorded, settled. A pass is booked only for a planned
        command that ran, passed and exited 0. */
    method RunGate(g: GateRequirement, base: int, out: Outside, k: nat) returns (r: Option<Evidence>)
      requires Valid() && !HumanGate(g.gateID)
      modifies this`gates, this`history, this`passes
      ensures Valid()
      ensures passes == old(passes) || passes == old(passes)[PassKeyOf(attemptID, g) := out.tests(g.gateID)]
      ensures r.Some? ==>
        && r.value == EvidenceOf(g, out.tests) && CleanPass(out.tests(g.gateID))
        && Authorised(terms, g.gateID, g.version, g.digest)
        && passes == old(passes)[PassKeyOf(attemptID, g) := out.tests(g.gateID)]
        && history == old(history) + [TestEvent(rec, base, g.gateID)]
        && gates == old(gates)[KeyOf(attemptID, g) := PassedRow(g, out.tests)]
      ensures r.Some? ==>
        && out.tests(g.gateID).ran && out.tests(g.gateID).outcome == TestPassed && out.tests(g.gateID).exitCode == 0
        && g.gateID in terms.plans && terms.plans[g.gateID].usable
        && (terms.plans[g.gateID].version, terms.plans[g.gateID].digest) == (g.version, g.digest)
        && r.value.exitCode == 0 && (r.value.gateID, r.value.version, r.value.digest) == (g.gateID, g.version, g.digest)
      ensures r.Some? <==> Runnable(terms, old(gates), attemptID, g, out.tests)
                           && out.up(Testing, k) && out.up(Testing, k + 1) && out.up(Testing, k + 2)
    {
      r := None;
      if Authorised(terms, g.gateID, g.version, g.digest) {
        ghost var key := (attemptID, g.gateID, g.version);
        RowKeeps(terms, B(), key, GateRow(g.digest, Pending, TestAwaited));
        var ok := RecordGate(g.gateID, g.version, GateRow(g.digest, Pending, TestAwaited), out.up(Testing, k));
        var test := out.tests(g.gateID);
        if ok && test.wellFormed && (test.ran ==> test.outcome != TestUnknown) && out.up(Testing, k + 1) {
          history := history + [TestEvent(rec, base, g.gateID)];
          if test.ran && test.outcome == TestPassed && test.exitCode == 0 {
            PassKeeps(terms, B(), PassKeyOf(attemptID, g), test);
            passes := passes[PassKeyOf(attemptID, g) := test];
            RowKeeps(terms, B(), key, GateRow(g.digest, Satisfied, TestRan(test.evidenceID)));
            ok := RecordGate(g.gateID, g.version, GateRow(g.digest, Satisfied, TestRan(test.evidenceID)),
                             out.up(Testing, k + 2));
            if ok { r := Some(Evidence(g.gateID, g.version, g.digest, test.exitCode, test.evidenceID)); }
          } else {
            RowKeeps(terms, B(), key, GateRow(g.digest, GateFailed, TestRan(test.evidenceID)));
            ok := RecordGate(g.gateID, g.version, GateRow(g.digest, GateFailed, TestRan(test.evidenceID)),
                             out.up(Testing, k + 2));
          }
        }
      }
    }

    method RunGates(base: int, out: Outside) returns (r: Option<seq<Evidence>>)
      requires Valid()
      modifies this`gates, this`history, this`passes
      ensures Valid() && FromTests(old(passes), passes, attemptID, out.tests)
      ensures r.Some? ==>
        && Examined(terms, old(gates), gates, passes, attemptID, out.tests)
        && r.value == MachineEvidence(terms.required, out.tests)
        && history == old(history) + TestEvents(rec, base, r.value)
      ensures (UpToOffer(out) && DemandedOnce(terms.required)
               && MachineReady(terms, old(gates), attemptID, out.tests)) ==> r.Some?
    {
      var result: seq<Evidence> := [];
      for i := 0 to |terms.required|
        invariant Valid() && TestedUpTo(terms, i, old(gates), gates, old(passes), passes, attemptID, out.tests)
        invariant result == MachineEvidence(terms.required[..i], out.tests)
        invariant history == old(history) + TestEvents(rec, base, result)
      {
        var g := terms.required[i];
        EvidenceStep(rec, base, terms.required, i, out.tests);
        if HumanGate(g.gateID) {
          TestSkip(terms, i, old(gates), gates, old(passes), passes, attemptID, out.tests);
        } else {
          PassAdded(old(passes), passes, attemptID, g, out.tests);
          TestStep(terms, i, old(gates), gates, old(passes), passes, attemptID, out.tests);
          var evidence := RunGate(g, base, out, 3 * i);
          if evidence.None? { return None; }
          result := result + [evidence.value];
        }
      }
      assert terms.required[..|terms.required|] == terms.required;
      r := Some(result);
    }

    /** Give every required human gate the same status. */
    method RecordReviewGates(status: GateStatus, note: Note, up: (Stage, nat) -> bool) returns (ok: bool)
      requires Valid()
      modifies this`gates
      ensures Valid() && Settled(old(gates), gates)
      ensures ok ==>
        && gates == Reviewed(terms.required, old(gates), attemptID, status, note)
        && AllHold(terms.required, gates, attemptID, status, note)
      ensures DemandedOnce(terms.required) && (forall k: nat :: up(Recording, k)) ==>
                (ok <==> HumanReady(terms.required, old(gates), attemptID, status, note))
    {
      for i := 0 to |terms.required|
        invariant Valid() && ReviewedUpTo(terms.required, i, old(gates), gates, attemptID, status, note)
      {
        var g := terms.required[i];
        if HumanGate(g.gateID) {
          ReviewStep(terms.required, i, old(gates), gates, attemptID, status, note);
          RowKeeps(terms, B(), KeyOf(attemptID, g), GateRow(g.digest, status, note));
          ok := RecordGate(g.gateID, g.version, GateRow(g.digest, status, note), up(Recording, i));
          if !ok { return; }
        } else {
          ReviewSkip(terms.required, i, old(gates), gates, attemptID, status, note);
        }
      }
      assert terms.required[..|terms.required|] == terms.required;
      ok := true;
    }

    /** The automated review within `Evaluate`. */
    method ReviewResult(out: Outside) returns (ok: bool)
      requires Valid()
      modifies this`gates, this`history, this`state, this`leaseActive
      ensures Valid()
      ensures ok ==>
        && state == old(state) && leaseActive == old(leaseActive) && out.review == ReviewApproved
        && history == old(history) + [ReviewEvent(rec, out.evidenceAt, AutomatedReviewKey, ReviewApproved)]
        && gates == Reviewed(terms.required, old(gates), attemptID, Pending, ReviewOutput)
      ensures UpToOffer(out) && DemandedOnce(terms.required) ==>
        (ok <==>
          && out.review == ReviewApproved
          && HumanReady(terms.required, old(gates), attemptID, Pending, ReviewOutput))
      ensures AllUp(out) && out.review != ReviewApproved && old(leaseActive)
              && Control.Allowed(old(state), Control.Failed)
              ==> state == Control.Failed
    {
      ok := false;
      if !out.up(Calling, 29) { // no reviewer is configured
        Fail(out.evidenceAt, "review_unavailable", out.up);
      } else if out.up(Calling, 30) && out.review == ReviewApproved {
        ok := Append([ReviewEvent(rec, out.evidenceAt, AutomatedReviewKey, ReviewApproved)], Calling, 31, out.up);
        if ok { ok := RecordReviewGates(Pending, ReviewOutput, out.up); }
      } else {
        if out.up(Calling, 30) {
          var _ := Append([ReviewEvent(rec, out.evidenceAt, AutomatedReviewKey, out.review)], Calling, 31, out.up);
        }
        var _ := RecordReviewGates(GateFailed, ReviewOutput, out.up);
        Fail(out.evidenceAt, "review_changes_requested", out.up);
      }
    }

    /** Run the gates; fail the attempt, or record that its execution is complete. */
    method TestAndComplete(out: Outside) returns (r: Option<seq<Evidence>>)
      requires Valid()
      modifies this`gates, this`history, this`passes, this`state, this`leaseActive
      ensures Valid() && FromTests(old(passes), passes, attemptID, out.tests)
      ensures r.Some? ==>
        && Examined(terms, old(gates), gates, passes, attemptID, out.tests)
        && r.value == MachineEvidence(terms.required, out.tests)
        && state == old(state) && leaseActive == old(leaseActive)
        && history == old(history) + TestEvents(rec, out.evidenceAt, r.value)
                      + CompleteEvents(rec, out.evidenceAt, out.artifacts, out.handoff)
      ensures (UpToOffer(out) && DemandedOnce(terms.required)
               && MachineReady(terms, old(gates), attemptID, out.tests)) ==> r.Some?
      ensures r.None? && AllUp(out) && old(leaseActive) && Control.Allowed(old(state), Control.Failed) ==>
        state == Control.Failed
    {
      r := RunGates(out.evidenceAt, out);
      if r.None? {
        Fail(out.evidenceAt, "deterministic_gate_failed", out.up);
      } else {
        var ok := Append(CompleteEvents(rec, out.evidenceAt, out.artifacts, out.handoff), Completing, 0, out.up);
        if !ok { r := None; }
      }
    }

    /** Inspect the change, its preview and its content before anything is run. */
    method InspectAndTest(out: Outside) returns (r: Option<seq<Evidence>>)
      requires Valid()
      modifies this`gates, this`history, this`passes, this`state, this`leaseActive
      ensures Valid() && FromTests(old(passes), passes, attemptID, out.tests)
      ensures r.Some? ==>
        && Examined(terms, old(gates), gates, passes, attemptID, out.tests)
        && r.value == MachineEvidence(terms.required, out.tests)
        && state == old(state) && leaseActive == old(leaseActive) && CleanResult(out)
        && history == old(history) + TestEvents(rec, out.evidenceAt, r.value)
                      + CompleteEvents(rec, out.evidenceAt, out.artifacts, out.handoff)
      ensures (UpToOffer(out) && DemandedOnce(terms.required) && CleanResult(out)
               && MachineReady(terms, old(gates), attemptID, out.tests)) ==> r.Some?
      ensures r.None? && AllUp(out) && old(leaseActive) && Control.Allowed(old(state), Control.Failed) ==>
        state == Control.Failed
    {
      r := None;
      if !out.up(Calling, 2) || !out.manifest.allowed {
        Fail(out.evidenceAt, "change_manifest_rejected", out.up);
      } else if !out.up(Calling, 3) || !CleanResult(out) {
        Fail(out.evidenceAt, "integration_preview_failed", out.up);
      } else if !out.up(Calling, 4) {
        Fail(out.evidenceAt, "content_reference_rejected", out.up);
      } else {
        r := TestAndComplete(out);
      }
    }

    /** The machine's part of `Evaluate`: inspect, run the gates, record the history. */
    method Examine(out: Outside) returns (r: Option<seq<Evidence>>)
      requires Valid()
      modifies this`gates, this`history, this`passes, this`state, this`leaseActive
      ensures Valid() && FromTests(old(passes), passes, attemptID, out.tests)
      ensures r.Some? ==>
        && Examined(terms, old(gates), gates, passes, attemptID, out.tests)
        && r.value == MachineEvidence(terms.required, out.tests)
        && state == old(state) && leaseActive == old(leaseActive) && CleanResult(out)
        && history == old(history) + ExamineEvents(rec, out.evidenceAt, r.value, out)
      ensures (UpToOffer(out) && DemandedOnce(terms.required) && CleanResult(out)
               && MachineReady(terms, old(gates), attemptID, out.tests)) ==> r.Some?
      ensures r.None? && AllUp(out) && old(leaseActive) && Control.Allowed(old(state), Control.Failed) ==>
        state == Control.Failed
    {
      r := None;
      var ok := Append(StartEvents(rec, out.evidenceAt), Calling, 10, out.up);
      if ok { r := InspectAndTest(out); }
    }

    /** The same, and a result still being collected moves on to its gates. */
    method ExamineAndAdvance(out: Outside) returns (r: Option<seq<Evidence>>)
      requires Valid() && state in {Control.Collecting, Control.AwaitingGates} && leaseActive
      modifies this`gates, this`history, this`passes, this`state, this`leaseActive
      ensures Valid() && FromTests(old(passes), passes, attemptID, out.tests)
      ensures r.Some? ==>
        && Examined(terms, old(gates), gates, passes, attemptID, out.tests)
        && r.value == MachineEvidence(terms.required, out.tests)
        && state == Control.AwaitingGates && leaseActive && CleanResult(out)
        && history == old(history) + ExamineEvents(rec, out.evidenceAt, r.value, out)
      ensures (UpToOffer(out) && DemandedOnce(terms.required) && CleanResult(out)
               && MachineReady(terms, old(gates), attemptID, out.tests)) ==> r.Some?
      ensures r.None? && AllUp(out) ==> state == Control.Failed
    {
      r := Examine(out);
      if r.Some? && state == Control.Collecting {
        var moved := MoveTo(Control.AwaitingGates, out.up(Calling, 5));
        if !moved { r := None; }
      }
    }

    /** Sign the summary and put it on record as awaiting a human decision. */
    method Offer(draft: Summary, up: bool) returns (r: Reply)
      requires Valid() && draft.attemptID == attemptID && draft.digest == "" && TestsBooked(B(), attemptID, draft.tests)
      modifies this`gates, this`offered
      ensures Valid()
      ensures r.Issued? <==>
        up && CanRecord(old(gates), (attemptID, terms.preview, 1), OfferRow(draft.(digest := terms.sha(draft))))
      ensures if r.Issued?
        then
          && r.summary == draft.(digest := terms.sha(draft)) && offered == old(offered) + {(attemptID, r.summary)}
          && gates == old(gates)[(attemptID, terms.preview, 1) := OfferRow(r.summary)]
        else offered == old(offered) && gates == old(gates)
    {
      var s := draft.(digest := terms.sha(draft));
      ghost var more := B().(offered := offered + {(attemptID, s)});
      OfferKeeps(terms, B(), attemptID, s);
      assert (attemptID, s) in more.offered;
      RowKeeps(terms, more, (attemptID, terms.preview, 1), OfferRow(s));
      var ok := RecordGate(terms.preview, 1, OfferRow(s), up);
      if ok {
        offered := offered + {(attemptID, s)};
        r := Issued(s);
      } else {
        r := Refused(OutsideFailure);
      }
    }

    /** The call is for the current attempt under its fence, which is still to be evaluated. */
    predicate MayEvaluate(attempt: string, fence: string)
      reads this
    {
      && attempt == attemptID && fence == fencing && leaseActive && hasResources
      && state in {Control.Collecting, Control.AwaitingGates}
    }

    /** `Evaluate`. A summary is issued only for a result whose manifest and preview were clean
        and whose machine gates all passed, and only once it is on record as pending. */
    method Evaluate(attempt: string, fence: string, out: Outside) returns (r: Reply)
      requires Valid()
      modifies this`gates, this`history, this`passes, this`offered, this`state, this`leaseActive
      ensures Valid() && FromTests(old(passes), passes, attemptID, out.tests) && accepted == old(accepted)
      ensures r.Refused? ==> offered == old(offered)
      ensures r.Issued? ==>
        && old(MayEvaluate(attempt, fence)) && state == Control.AwaitingGates && leaseActive
        && r.summary == SummaryOf(terms, attempt, RequiresReviewer(), out)
        && offered == old(offered) + {(attempt, r.summary)}
        && AllRan(terms, passes, attempt, out.tests) && GatesPassed(terms, B(), attempt) && CleanResult(out)
        && MachineReady(terms, old(gates), attempt, out.tests)
        && gates == EvaluatedTable(terms, old(gates), attempt, out)[(attempt, terms.preview, 1) := OfferRow(r.summary)]
      ensures r.Issued? ==>
        history == old(history) + EvaluateEvents(rec, RequiresReviewer(), out.evidenceAt, r.summary.tests, out)
      ensures r.Issued? ==>
        && out.manifest.allowed && !out.preview.staleBase && !out.preview.conflicts
        && out.preview.headCommit == out.manifest.headCommit && r.summary.attemptID == attempt && r.summary.ready
        && r.summary.manifest == out.manifest && r.summary.preview == out.preview
        && r.summary.resultID == out.resultID && r.summary.evidenceAt == out.evidenceAt
        && (RequiresReviewer() ==> out.review == ReviewApproved && r.summary.reviewedBy == Some(out.reviewer))
      ensures UpToOffer(out) && DemandedOnce(terms.required) ==>
        (r.Issued? <==>
          && old(MayEvaluate(attempt, fence)) && Evaluable(terms, old(gates), attempt, RequiresReviewer(), out)
          && out.up(Offering, 0)
          && Offerable(terms, old(gates), attempt, SummaryOf(terms, attempt, RequiresReviewer(), out)))
      ensures (UpToOffer(out) && DemandedOnce(terms.required) && old(MayEvaluate(attempt, fence)) && r.Refused?
               && Evaluable(terms, old(gates), attempt, RequiresReviewer(), out)) ==>
        state == Control.AwaitingGates && leaseActive && gates == EvaluatedTable(terms, old(gates), attempt, out)
      ensures (AllUp(out) && old(MayEvaluate(attempt, fence))
               && !(CleanResult(out) && MachineReady(terms, old(gates), attempt, out.tests)
                    && (RequiresReviewer() ==> out.review == ReviewApproved))) ==> state == Control.Failed
    {
      r := Refused(StaleResult);
      // collecting the result, decoding it and intake are one effect
      if DemandedOnce(terms.required) && HumanGate(terms.preview) {
        OfferableBefore(terms, gates, attempt, out, SummaryOf(terms, attempt, RequiresReviewer(), out));
      }
      if MayEvaluate(attempt, fence) && out.up(Calling, 0) && out.up(Calling, 1) { r := EvaluateCurrent(out); }
    }

    /** The evaluation proper, once it is known to be due. */
    method EvaluateCurrent(out: Outside) returns (r: Reply)
      requires Valid() && state in {Control.Collecting, Control.AwaitingGates} && leaseActive
      modifies this`gates, this`history, this`passes, this`offered, this`state, this`leaseActive
      ensures Valid() && FromTests(old(passes), passes, attemptID, out.tests)
      ensures r.Refused? ==> offered == old(offered)
      ensures var s := SummaryOf(terms, attemptID, RequiresReviewer(), out);
              var table := EvaluatedTable(terms, old(gates), attemptID, out);
        && (r.Issued? ==>
             && state == Control.AwaitingGates && leaseActive && r.summary == s
             && offered == old(offered) + {(attemptID, s)}
             && CleanResult(out) && (RequiresReviewer() ==> out.review == ReviewApproved)
             && Examined(terms, old(gates), Tested(terms.required, old(gates), attemptID, out.tests), passes,
                         attemptID, out.tests)
             && gates == table[(attemptID, terms.preview, 1) := OfferRow(s)]
             && history == old(history) + EvaluateEvents(rec, RequiresReviewer(), out.evidenceAt, s.tests, out))
        && (UpToOffer(out) && DemandedOnce(terms.required) ==>
             (r.Issued? <==>
               && Evaluable(terms, old(gates), attemptID, RequiresReviewer(), out) && out.up(Offering, 0)
               && CanRecord(table, (attemptID, terms.preview, 1), OfferRow(s))))
        && (UpToOffer(out) && DemandedOnce(terms.required) && r.Refused?
            && Evaluable(terms, old(gates), attemptID, RequiresReviewer(), out) ==>
             state == Control.AwaitingGates && leaseActive && gates == table)
      ensures (AllUp(out)
               && !(CleanResult(out) && MachineReady(terms, old(gates), attemptID, out.tests)
                    && (RequiresReviewer() ==> out.review == ReviewApproved))) ==> state == Control.Failed
    {
      r := Refused(GateRejected);
      var tests := ExamineAndAdvance(out);
      if tests.Some? {
        r := OfferExamined(old(gates), tests.value, out);
      }
    }

    /** What is left once the gates have run, in terms of the table `before` they ran. */
    method OfferExamined(ghost before: map<GateKey, GateRow>, tests: seq<Evidence>, out: Outside) returns (r: Reply)
      requires Valid() && Examined(terms, before, gates, passes, attemptID, out.tests) && CleanResult(out)
      requires tests == MachineEvidence(terms.required, out.tests)
      modifies this`gates, this`history, this`offered, this`state, this`leaseActive
      ensures Valid()
      ensures r.Refused? ==> offered == old(offered)
      ensures var s := SummaryOf(terms, attemptID, RequiresReviewer(), out);
              var table := EvaluatedTable(terms, before, attemptID, out);
        && (r.Issued? ==>
             && r.summary == s && state == old(state) && leaseActive == old(leaseActive)
             && (RequiresReviewer() ==> out.review == ReviewApproved)
             && offered == old(offered) + {(attemptID, s)}
             && gates == table[(attemptID, terms.preview, 1) := OfferRow(s)]
             && history == old(history)
                + (if !RequiresReviewer() then []
                   else [ReviewEvent(rec, out.evidenceAt, AutomatedReviewKey, ReviewApproved)]))
        && (UpToOffer(out) && DemandedOnce(terms.required) ==>
             (r.Issued? <==>
               && Evaluable(terms, before, attemptID, RequiresReviewer(), out) && out.up(Offering, 0)
               && CanRecord(table, (attemptID, terms.preview, 1), OfferRow(s))))
        && (UpToOffer(out) && DemandedOnce(terms.required) && r.Refused?
            && Evaluable(terms, before, attemptID, RequiresReviewer(), out) ==>
             gates == table && state == old(state) && leaseActive == old(leaseActive))
      ensures (AllUp(out) && RequiresReviewer() && out.review != ReviewApproved && old(leaseActive)
               && Control.Allowed(old(state), Control.Failed)) ==> state == Control.Failed
    {
      ReadyForReview(terms, before, B(), attemptID, out.tests);
      r := ReviewAndOffer(tests, out);
    }

    method ReviewAndOffer(tests: seq<Evidence>, out: Outside) returns (r: Reply)
      requires Valid() && TestsBooked(B(), attemptID, tests) && tests == MachineEvidence(terms.required, out.tests)
      modifies this`gates, this`history, this`offered, this`state, this`leaseActive
      ensures Valid()
      ensures r.Refused? ==> offered == old(offered)
      ensures var table := Reviewed(terms.required, old(gates), attemptID, Pending, ReviewOutput);
              var s := SummaryOf(terms, attemptID, RequiresReviewer(), out);
        && (r.Issued? ==>
             && r.summary == s && state == old(state) && leaseActive == old(leaseActive)
             && (RequiresReviewer() ==> out.review == ReviewApproved)
             && offered == old(offered) + {(attemptID, s)}
             && gates == table[(attemptID, terms.preview, 1) := OfferRow(s)]
             && history == old(history)
                + (if !RequiresReviewer() then []
                   else [ReviewEvent(rec, out.evidenceAt, AutomatedReviewKey, ReviewApproved)]))
        && (UpToOffer(out) && DemandedOnce(terms.required) ==>
             (r.Issued? <==>
               && (RequiresReviewer() ==> out.review == ReviewApproved)
               && HumanReady(terms.required, old(gates), attemptID, Pending, ReviewOutput)
               && out.up(Offering, 0) && CanRecord(table, (attemptID, terms.preview, 1), OfferRow(s))))
        && (UpToOffer(out) && DemandedOnce(terms.required) && r.Refused?
            && (RequiresReviewer() ==> out.review == ReviewApproved)
            && HumanReady(terms.required, old(gates), attemptID, Pending, ReviewOutput) ==>
             gates == table && state == old(state) && leaseActive == old(leaseActive))
      ensures (AllUp(out) && RequiresReviewer() && out.review != ReviewApproved && old(leaseActive)
               && Control.Allowed(old(state), Control.Failed)) ==> state == Control.Failed
    {
      r := Refused(GateRejected);
      var ok := true;
      if RequiresReviewer() { ok := ReviewResult(out); }
      else { NoHumanGates(terms.required, gates, attemptID, Pending, ReviewOutput); }
      if ok {
        var reviewer := if RequiresReviewer() then Some(out.reviewer) else None;
        r := Offer(Summary(attemptID, out.resultID, out.manifest, out.preview, tests, reviewer, out.evidenceAt, true,
                           ""), out.up(Offering, 0));
      }
    }

    // ------------------------------------------------------------ decision

    /** `RecordOperatorDecision`: refused kinds, and one decision per summary and actor. */
    method RecordDecision(d: Decision, up: bool) returns (ok: bool)
      modifies this`decisions
      ensures ok <==> up && admits(d.choice) && Unopposed(old(decisions), d)
      ensures decisions == if ok then old(decisions) + {d} else old(decisions)
    {
      ok := up && admits(d.choice) && Unopposed(decisions, d);
      if ok { decisions := decisions + {d}; }
    }

    method MachineGatesStand() returns (ok: bool)
      requires Valid()
      ensures ok <==> MachineStands(terms, gates, attemptID)
      ensures ok ==> GatesPassed(terms, B(), attemptID)
    {
      for i := 0 to |terms.required|
        invariant forall j | 0 <= j < i && !HumanGate(terms.required[j].gateID) ::
                    LowestIs(gates, attemptID, terms.required[j].gateID, terms.required[j].version,
                             terms.required[j].digest, Satisfied)
        invariant forall j | 0 <= j < i && !HumanGate(terms.required[j].gateID) ::
                  Passed(terms, B(), attemptID, terms.required[j])
      {
        var g := terms.required[i];
        if !HumanGate(g.gateID) {
          var row := GateByID(gates, attemptID, g.gateID);
          if row.None? || row.value.1.status != Satisfied || row.value.1.digest != g.digest
             || row.value.0 != g.version {
            assert !LowestIs(gates, attemptID, g.gateID, g.version, g.digest, Satisfied);
            return false;
          }
          assert RowOk(terms, B(), (attemptID, g.gateID, g.version), gates[(attemptID, g.gateID, g.version)]);
        }
      }
      ok := true;
    }

    /** The row the summary is on record in was put there by an offer or by the contract. */
    ghost predicate Traced(s: Summary)
      reads this
    {
      Decidable(terms, B(), attemptID, s.digest) || PinnedFirst(terms, s.digest)
    }

    /** The summary is the one on record as pending, and what it describes has not moved. */
    method StillCurrent(s: Summary, out: Outside) returns (ok: bool)
      requires Valid()
      ensures ok <==> OnRecord(gates, attemptID, terms.preview, s.digest, Pending) && Unmoved(s, out)
                      && out.up(Calling, 1) && out.up(Calling, 2)
      ensures ok ==> Traced(s)
    {
      var row := GateByID(gates, attemptID, terms.preview);
      ok := row.Some? && row.value.1.digest == s.digest && row.value.1.status == Pending
            && out.up(Calling, 1) && out.up(Calling, 2) && Unmoved(s, out);
      if row.Some? {
        assert RowOk(terms, B(), (attemptID, terms.preview, row.value.0), row.value.1);
        assert row.value.1.digest == s.digest && row.value.1.status == Pending ==>
            LowestIs(gates, attemptID, terms.preview, row.value.0, s.digest, Pending);
      }
    }

    /** The preview gate and every human gate of this attempt carry the decision on this summary:
        satisfied if it approves, failed if not. */
    ghost predicate DecisionEntered(d: Decision, s: Summary)
      reads this
    {
      var status := if d.choice == Approve then Satisfied else GateFailed;
      && (attemptID, terms.preview, 1) in gates
      && gates[(attemptID, terms.preview, 1)] == GateRow(s.digest, status, PreviewDecision(d.reason))
      && AllHold(terms.required, gates, attemptID, status, HumanDecision(d.reason))
    }

    /** Enter the decision in the gate table. Where the contract claims the decision's own row,
        the two entries in it disagree and the second is refused. */
    method Enter(d: Decision, s: Summary, out: Outside) returns (ok: bool)
      requires Valid() && Traced(s)
      modifies this`gates
      ensures Valid()
      ensures ok ==> DecisionEntered(d, s) && RowUnclaimed(terms) && Decidable(terms, B(), attemptID, s.digest)
      ensures DemandedOnce(terms.required) && AllUp(out) ==> (ok <==> Enterable(terms, old(gates), attemptID, d, s))
    {
      RowKeeps(terms, B(), (attemptID, terms.preview, 1), DecisionRow(d, s));
      ok := RecordGate(terms.preview, 1, DecisionRow(d, s), out.up(Calling, 5));
      if ok {
        EnterableAfter(terms, old(gates), attemptID, d, s);
        ok := RecordReviewGates(DecidedStatus(d), HumanDecision(d.reason), out.up);
        assert (attemptID, terms.preview, 1) in gates && gates[(attemptID, terms.preview, 1)] == DecisionRow(d, s);
        if ok { RowIsFree(terms, gates, attemptID, d, s); }
      }
    }

    /** The effects of a recorded decision. */
    method Settle(d: Decision, s: Summary, out: Outside) returns (r: Reply)
      requires Valid() && Traced(s) && GatesPassed(terms, B(), attemptID) && state == Control.AwaitingGates
      requires (d.choice == Approve || d.choice == Reject) && s.digest == terms.sha(Unsigned(s))
      modifies this`gates, this`history, this`accepted, this`state, this`leaseActive
      ensures Valid()
      ensures if state == Control.Accepted
        then
          && accepted == old(accepted) + {(attemptID, s)} && r == Issued(s) && d.choice == Approve
          && history == old(history) + ApproveEvents(rec, s.evidenceAt) && AcceptanceOk(terms, B(), attemptID, s)
        else accepted == old(accepted)
      ensures r.Issued? ==>
        r.summary == s && state == (if d.choice == Approve then Control.Accepted else Control.Failed)
      ensures r.Issued? ==> DecisionEntered(d, s) && RowUnclaimed(terms)
      ensures DemandedOnce(terms.required) && AllUp(out) ==>
        (r.Issued? <==> old(leaseActive) && Enterable(terms, old(gates), attemptID, d, s))
    {
      r := Refused(OutsideFailure);
      if out.up(Calling, 4) {
        var ok := Enter(d, s, out);
        if ok { r := Conclude(d, s, out); }
      }
    }

    /** Record the decision, and then give it its effects. */
    method CarryOut(d: Decision, s: Summary, out: Outside) returns (r: Reply)
      requires Valid() && Traced(s) && GatesPassed(terms, B(), attemptID) && state == Control.AwaitingGates
      requires WellFormed(terms, d, s)
      modifies this`gates, this`history, this`decisions, this`accepted, this`state, this`leaseActive
      ensures Valid()
      ensures !admits(d.choice) ==> accepted == old(accepted) && state == old(state) && gates == old(gates)
      ensures if state == Control.Accepted
        then
          && accepted == old(accepted) + {(attemptID, s)} && r == Issued(s) && d.choice == Approve
          && history == old(history) + ApproveEvents(rec, s.evidenceAt) && AcceptanceOk(terms, B(), attemptID, s)
        else accepted == old(accepted)
      ensures r.Issued? ==>
        r.summary == s && state == (if d.choice == Approve then Control.Accepted else Control.Failed)
      ensures r.Issued? ==> DecisionEntered(d, s) && d in decisions && RowUnclaimed(terms)
      ensures AllUp(out) && DemandedOnce(terms.required) ==>
        (r.Issued? <==>
          && old(leaseActive) && Enterable(terms, old(gates), attemptID, d, s)
          && admits(d.choice) && Unopposed(old(decisions), d))
    {
      r := Refused(OutsideFailure);
      var recorded := RecordDecision(d, out.up(Calling, 3));
      if recorded { r := Settle(d, s, out); }
    }

    method Conclude(d: Decision, s: Summary, out: Outside) returns (r: Reply)
      requires Valid() && AcceptanceOk(terms, B(), attemptID, s) && state == Control.AwaitingGates
      requires d.choice == Approve || d.choice == Reject
      modifies this`history, this`accepted, this`state, this`leaseActive
      ensures Valid()
      ensures if state == Control.Accepted
        then
          && accepted == old(accepted) + {(attemptID, s)} && r == Issued(s) && d.choice == Approve
          && history == old(history) + ApproveEvents(rec, s.evidenceAt)
        else accepted == old(accepted)
      ensures r.Issued? ==>
        r.summary == s && state == (if d.choice == Approve then Control.Accepted else Control.Failed)
      ensures AllUp(out) ==> (r.Issued? <==> old(leaseActive))
    {
      r := Refused(OutsideFailure);
      if d.choice == Reject {
        var _ := Append([ReviewEvent(rec, s.evidenceAt, HumanReviewKey, ReviewRejected)], Calling, 6, out.up);
        var failed := MoveTo(Control.Failed, out.up(Calling, 7));
        if failed { r := Issued(s); }
      } else {
        var ok := Append(ApproveEvents(rec, s.evidenceAt), Calling, 6, out.up);
        if ok { ok := MoveTo(Control.Accepted, out.up(Calling, 8)); }
        if ok {
          AcceptKeeps(terms, B(), attemptID, s);
          accepted := accepted + {(attemptID, s)};
          r := Issued(s);
        }
      }
    }

    /** The call is for the current attempt under its fence, on a decision of its own summary. */
    predicate MayDecide(attempt: string, fence: string, d: Decision, s: Summary)
      reads this
    {
      && WellFormed(terms, d, s) && attempt == attemptID == s.attemptID && fence == fencing && hasResources
      && s.ready && s.evidenceAt != UNSET
    }

    /** `Decide`. Acceptance is issued only for the summary on record as pending, re-inspected
        unchanged, with every machine gate passed on this attempt. */
    method Decide(attempt: string, fence: string, d: Decision, s: Summary, out: Outside) returns (r: Reply)
      requires Valid() && d.summaryDigest == s.digest
      modifies this`gates, this`history, this`decisions, this`accepted, this`state, this`leaseActive
      ensures Valid() && old(accepted) <= accepted
      ensures old(state) != Control.Accepted && state == Control.Accepted ==> accepted == old(accepted) + {(attempt, s)}
      ensures !admits(d.choice) ==> accepted == old(accepted) && state == old(state) && gates == old(gates)
      ensures accepted != old(accepted) ==>
        && accepted == old(accepted) + {(attempt, s)} && r == Issued(s) && state == Control.Accepted
        && old(MayDecide(attempt, fence, d, s)) && d.choice == Approve && admits(Approve)
        && old(state) == Control.AwaitingGates && AcceptanceOk(terms, B(), attempt, s) && Unmoved(s, out)
        && history == old(history) + ApproveEvents(rec, s.evidenceAt)
      ensures accepted != old(accepted) ==>
        && out.manifest.digest == s.manifest.digest && out.manifest.baseCommit == s.manifest.baseCommit
        && out.manifest.headCommit == s.manifest.headCommit && out.preview.digest == s.preview.digest
        && !out.preview.staleBase && !out.preview.conflicts && s.digest == terms.sha(s.(digest := ""))
        && s.ready && s.attemptID == attempt == attemptID && fence == fencing
      ensures r.Issued? ==>
        r.summary == s && d in decisions && state == (if d.choice == Approve then Control.Accepted else Control.Failed)
      ensures r.Issued? && old(state) == Control.AwaitingGates ==> DecisionEntered(d, s) && RowUnclaimed(terms)
      ensures AllUp(out) && DemandedOnce(terms.required) && old(state) == Control.AwaitingGates ==>
        (r.Issued? <==>
          && old(MayDecide(attempt, fence, d, s)) && old(leaseActive) && Unmoved(s, out)
          && Ripe(terms, old(gates), attempt, d, s) && admits(d.choice) && Unopposed(old(decisions), d))
      ensures AllUp(out) && old(state) == Control.Accepted ==>
        (r.Issued? <==>
          && WellFormed(terms, d, s) && d.choice == Approve && attempt == attemptID && fence == fencing
          && OnRecord(old(gates), attempt, terms.preview, s.digest, Satisfied) && d in old(decisions))
      ensures old(state) !in {Control.Accepted, Control.AwaitingGates} ==> r.Refused?
    {
      r := Refused(StaleResult);
      if !WellFormed(terms, d, s) {
        r := Refused(InvalidRequest);
      } else if attempt == attemptID && out.up(Calling, 0) && fencing == fence {
        if state == Control.Accepted && d.choice == Approve {
          var replayed := Replays(d, s);
          if replayed { r := Issued(s); }
        } else if state == Control.AwaitingGates && hasResources {
          if s.attemptID != attempt || s.evidenceAt == UNSET || !s.ready {
            r := Refused(InvalidRequest);
          } else {
            r := DecidePending(d, s, out);
          }
        }
      }
    }

    /** The same approval has been carried out before. */
    method Replays(d: Decision, s: Summary) returns (ok: bool)
      ensures ok <==> OnRecord(gates, attemptID, terms.preview, s.digest, Satisfied) && d in decisions
    {
      var row := GateByID(gates, attemptID, terms.preview);
      ok := row.Some? && row.value.1.status == Satisfied && row.value.1.digest == s.digest && d in decisions;
      assert ok ==> LowestIs(gates, attemptID, terms.preview, row.value.0, s.digest, Satisfied);
    }

    method DecidePending(d: Decision, s: Summary, out: Outside) returns (r: Reply)
      requires Valid() && state == Control.AwaitingGates && WellFormed(terms, d, s)
      modifies this`gates, this`history, this`decisions, this`accepted, this`state, this`leaseActive
      ensures Valid()
      ensures !admits(d.choice) ==> accepted == old(accepted) && state == old(state) && gates == old(gates)
      ensures if state == Control.Accepted
        then
          && accepted == old(accepted) + {(attemptID, s)} && r == Issued(s) && d.choice == Approve
          && history == old(history) + ApproveEvents(rec, s.evidenceAt) && AcceptanceOk(terms, B(), attemptID, s)
          && Unmoved(s, out)
        else accepted == old(accepted)
      ensures r.Issued? ==>
        r.summary == s && state == (if d.choice == Approve then Control.Accepted else Control.Failed)
      ensures r.Issued? ==> DecisionEntered(d, s) && d in decisions && RowUnclaimed(terms)
      ensures AllUp(out) && DemandedOnce(terms.required) ==>
        (r.Issued? <==>
          && old(leaseActive) && Unmoved(s, out)
          && Ripe(terms, old(gates), attemptID, d, s) && admits(d.choice) && Unopposed(old(decisions), d))
    {
      r := Refused(StaleResult);
      var current := StillCurrent(s, out);
      if current {
        r := Refused(GateRejected);
        var stand := MachineGatesStand();
        if stand { r := CarryOut(d, s, out); }
      }
    }
  }
}

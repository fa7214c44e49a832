/** The history the integration gate emits carries its own order: operation offsets date each
    record so that the readiness reducer, which sorts by date, replays it as intended. */
module IntegrationHistory {
  import opened Options
  import opened Sorting
  import opened Text
  import opened Project
  import opened TaskGraph
  import opened Readiness
  import opened Integration

  function KeyText(k: Key): string {
    match k
    case ReadyKey => "ready"
    case InProgressKey => "in-progress"
    case ExecutionStartKey => "execution-start"
    case TestKey(gateID) => "test-" + gateID
    case ExecutionFailedKey(code) => "execution-failed-" + code
    case ExecutionCompleteKey => "execution-complete"
    case WorkFailedKey(code) => "work-failed-" + code
    case ArtifactKey(artifactID) => "artifact-" + artifactID
    case HandoffKey => "handoff"
    case ReviewKey => "review"
    case AutomatedReviewKey => "automated-review"
    case HumanReviewKey => "human-review"
    case AcceptKey => "accept"
  }

  /** Seconds added to the evidence time. */
  function OperationOffset(key: string): int {
    if key == "ready" then 1
    else if key == "in-progress" then 2
    else if key == "execution-start" then 3
    else if HasPrefix(key, "test-") then 10
    else if HasPrefix(key, "execution-failed-") || key == "execution-complete" then 20
    else if HasPrefix(key, "work-failed-") then 21
    else if HasPrefix(key, "artifact-") then 22
    else if key == "handoff" then 23
    else if key == "review" then 30
    else if key == "automated-review" then 31
    else if key == "human-review" then 32
    else if key == "accept" then 40
    else 50
  }

  function StandardRecorder(id: string -> string, wp: string): Recorder {
    Recorder((k: Key) => OperationOffset(KeyText(k)), (k: Key) => id("integration-" + KeyText(k)), wp)
  }

  /** `s` belongs to none of the prefixed families. */
  predicate Literal(s: string) {
    !HasPrefix(s, "test-") && !HasPrefix(s, "execution-failed-") && !HasPrefix(s, "work-failed-")
    && !HasPrefix(s, "artifact-")
  }

  /** No literal key is mistaken for one of the prefixed families. */
  lemma ReviewIsLiteral()
    ensures Literal("review")
  {
    FirstCharDiffers("review", "test-");
    FirstCharDiffers("review", "execution-failed-");
    FirstCharDiffers("review", "work-failed-");
    FirstCharDiffers("review", "artifact-");
  }

  lemma AutomatedReviewIsLiteral()
    ensures Literal("automated-review")
  {
    FirstCharDiffers("automated-review", "test-");
    FirstCharDiffers("automated-review", "execution-failed-");
    FirstCharDiffers("automated-review", "work-failed-");
    assert "automated-review"[1] == 'u' && "artifact-"[1] == 'r';
  }

  lemma HumanReviewIsLiteral()
    ensures Literal("human-review")
  {
    FirstCharDiffers("human-review", "test-");
    FirstCharDiffers("human-review", "execution-failed-");
    FirstCharDiffers("human-review", "work-failed-");
    FirstCharDiffers("human-review", "artifact-");
  }

  lemma AcceptIsLiteral()
    ensures Literal("accept")
  {
    FirstCharDiffers("accept", "test-");
    FirstCharDiffers("accept", "execution-failed-");
    FirstCharDiffers("accept", "work-failed-");
    assert |"accept"| < |"artifact-"|;
  }

  lemma FirstCharDiffers(s: string, prefix: string)
    requires s != [] && prefix != [] && s[0] != prefix[0]
    ensures !HasPrefix(s, prefix) && s != prefix
  {
    if HasPrefix(s, prefix) { PrefixStarts(s, prefix); }
  }

  lemma PrefixStarts(s: string, prefix: string)
    requires HasPrefix(s, prefix) && prefix != []
    ensures s[0] == prefix[0]
  {
    assert s[..|prefix|][0] == prefix[0];
  }

  predicate About(wp: string, e: Event) { e.workPackageID == wp }

  function AboutOf(wp: string): Event -> bool { (e: Event) => About(wp, e) }

  /** Events of the package that can change its state. */
  predicate Matters(wp: string, e: Event) { e.workPackageID == wp && !e.body.OtherEvent? }

  function MattersTo(wp: string): Event -> bool { (e: Event) => Matters(wp, e) }

  /** Only events that matter decide a package's state. */
  lemma {:induction false} OthersChangeNothing(wp: string, events: seq<Event>)
    ensures History(BodiesOf(wp, events)) == History(BodiesOf(wp, Filter(MattersTo(wp), events)))
  {
    if events != [] {
      var init, e := events[..|events| - 1], events[|events| - 1];
      OthersChangeNothing(wp, init);
      assert events == init + [e];
      FilterSnoc(MattersTo(wp), init, e);
      if e.workPackageID == wp {
        ReplayOne(wp, init, e);
        if Matters(wp, e) { ReplayOne(wp, Filter(MattersTo(wp), init), e); }
      } else {
        BodiesAppend(wp, init, e);
      }
    }
  }

  lemma BodiesAppend(wp: string, events: seq<Event>, e: Event)
    ensures BodiesOf(wp, events + [e])
         == if e.workPackageID == wp then BodiesOf(wp, events) + [e.body] else BodiesOf(wp, events)
  {
    assert (events + [e])[..|events|] == events;
  }

  lemma HistoryAppend(bodies: seq<EventBody>, body: EventBody)
    ensures History(bodies + [body]) == StepPackage(History(bodies), body)
  {
    assert (bodies + [body])[..|bodies|] == bodies;
  }

  /** Seven events, the fifth of them optional. */
  ghost function Spine(c: Event, e1: Event, e2: Event, e3: Event, reviewed: bool, e4: Event, e5: Event,
                       e6: Event): seq<Event>
  {
    [c, e1, e2, e3] + (if reviewed then [e4] else []) + [e5, e6]
  }

  /** The events that matter among all the gate emits, in order. */
  ghost function Backbone(created: Event, rec: Recorder, reviewed: bool, base: int): seq<Event> {
    Spine(created, Emit(rec, base, ReadyKey, Change(Planned, Ready)),
          Emit(rec, base, InProgressKey, Change(Ready, InProgress)),
          Emit(rec, base, ReviewKey, Change(InProgress, Review)),
          reviewed, ReviewEvent(rec, base, AutomatedReviewKey, ReviewApproved),
          ReviewEvent(rec, base, HumanReviewKey, ReviewApproved), Emit(rec, base, AcceptKey, WorkAccepted))
  }

  ghost function AllEvents(created: Event, rec: Recorder, reviewed: bool, base: int, tests: seq<Evidence>,
                           out: Outside): seq<Event>
  {
    [created] + EvaluateEvents(rec, reviewed, base, tests, out) + ApproveEvents(rec, base)
  }

  lemma {:induction false} FilterNone<T(!new)>(keep: T -> bool, s: seq<T>)
    requires forall i | 0 <= i < |s| :: !keep(s[i])
    ensures Filter(keep, s) == []
  {
    if s != [] { FilterNone(keep, s[1..]); }
  }

  /** Filtering keeps both ends and drops the middle. */
  lemma {:induction false} KeepEnds(wp: string, a: seq<Event>, mid: seq<Event>, b: seq<Event>)
    requires (forall i | 0 <= i < |a| :: Matters(wp, a[i])) && (forall i | 0 <= i < |b| :: Matters(wp, b[i]))
    requires forall i | 0 <= i < |mid| :: mid[i].body.OtherEvent?
    ensures Filter(MattersTo(wp), a + (mid + b)) == a + b
  {
    var keep := MattersTo(wp);
    FilterConcat(keep, a, mid + b);
    FilterConcat(keep, mid, b);
    FilterNone(keep, mid);
    FilterAll(keep, a);
    FilterAll(keep, b);
    assert [] + b == b;
  }

  /** The records between the start of work and its review: none changes the package. */
  ghost function Interlude(rec: Recorder, base: int, tests: seq<Evidence>, out: Outside): seq<Event> {
    [Emit(rec, base, ExecutionStartKey, OtherEvent("execution_started"))] + TestEvents(rec, base, tests)
    + [Emit(rec, base, ExecutionCompleteKey, OtherEvent("execution_completed"))]
        + ArtifactEvents(rec, base, out.artifacts)
    + (if out.handoff then [Emit(rec, base, HandoffKey, OtherEvent("handoff_created"))] else [])
  }

  lemma InterludeIsQuiet(rec: Recorder, base: int, tests: seq<Evidence>, out: Outside)
    ensures forall i | 0 <= i < |Interlude(rec, base, tests, out)| ::
      Interlude(rec, base, tests, out)[i].body.OtherEvent?
  {
  }

  /** The list as three parts: before work, the interlude, and from review on. */
  lemma ThreeParts(created: Event, rec: Recorder, reviewed: bool, base: int, tests: seq<Evidence>, out: Outside)
    ensures AllEvents(created, rec, reviewed, base, tests, out)
         == Before(created, rec, base) + (Interlude(rec, base, tests, out) + After(rec, reviewed, base))
  {
    Regrouped(created, Emit(rec, base, ReadyKey, Change(Planned, Ready)),
              Emit(rec, base, InProgressKey, Change(Ready, InProgress)),
              Emit(rec, base, ExecutionStartKey, OtherEvent("execution_started")), TestEvents(rec, base, tests),
              [Emit(rec, base, ExecutionCompleteKey, OtherEvent("execution_completed"))],
              ArtifactEvents(rec, base, out.artifacts),
              if out.handoff then [Emit(rec, base, HandoffKey, OtherEvent("handoff_created"))] else [],
              [Emit(rec, base, ReviewKey, Change(InProgress, Review))],
              if reviewed then [ReviewEvent(rec, base, AutomatedReviewKey, ReviewApproved)] else [],
              ApproveEvents(rec, base));
  }

  lemma Regrouped(c: Event, e1: Event, e2: Event, e3: Event, t: seq<Event>, d: seq<Event>, a: seq<Event>, h: seq<Event>,
                  v: seq<Event>, r: seq<Event>, e: seq<Event>)
    ensures [c] + (([e1, e2, e3] + t + (d + a + h + v)) + r) + e == [c, e1, e2] + (([e3] + t + d + a + h) + (v + r + e))
  {
    assert [c] + [e1, e2, e3] == [c, e1, e2] + [e3];
    assert [c] + (([e1, e2, e3] + t + (d + a + h + v)) + r) + e
        == ([c] + [e1, e2, e3]) + ((t + d + a + h) + (v + r + e));
  }

  ghost function Before(created: Event, rec: Recorder, base: int): seq<Event> {
    [created, Emit(rec, base, ReadyKey, Change(Planned, Ready)),
     Emit(rec, base, InProgressKey, Change(Ready, InProgress))]
  }

  ghost function After(rec: Recorder, reviewed: bool, base: int): seq<Event> {
    [Emit(rec, base, ReviewKey, Change(InProgress, Review))]
    + (if reviewed then [ReviewEvent(rec, base, AutomatedReviewKey, ReviewApproved)] else []) + ApproveEvents(rec, base)
  }

  lemma EndsAreBackbone(created: Event, rec: Recorder, reviewed: bool, base: int)
    ensures Before(created, rec, base) + After(rec, reviewed, base) == Backbone(created, rec, reviewed, base)
  {
  }

  lemma EndsMatter(created: Event, rec: Recorder, reviewed: bool, base: int)
    requires Matters(rec.wp, created)
    ensures forall i | 0 <= i < |Before(created, rec, base)| :: Matters(rec.wp, Before(created, rec, base)[i])
    ensures forall i | 0 <= i < |After(rec, reviewed, base)| :: Matters(rec.wp, After(rec, reviewed, base)[i])
  {
  }

  lemma {:induction false} BackboneRemains(created: Event, rec: Recorder, reviewed: bool, base: int,
                                           tests: seq<Evidence>, out: Outside)
    requires Matters(rec.wp, created)
    ensures Filter(MattersTo(rec.wp), AllEvents(created, rec, reviewed, base, tests, out))
        == Backbone(created, rec, reviewed, base)
  {
    ThreeParts(created, rec, reviewed, base, tests, out);
    InterludeIsQuiet(rec, base, tests, out);
    EndsMatter(created, rec, reviewed, base);
    KeepEnds(rec.wp, Before(created, rec, base), Interlude(rec, base, tests, out), After(rec, reviewed, base));
    EndsAreBackbone(created, rec, reviewed, base);
  }

  lemma SpineSorted(c: Event, e1: Event, e2: Event, e3: Event, reviewed: bool, e4: Event, e5: Event, e6: Event)
    requires c.occurredAt < e1.occurredAt < e2.occurredAt < e3.occurredAt
    requires e3.occurredAt < e4.occurredAt < e5.occurredAt < e6.occurredAt
    ensures Sorted(Earlier, Spine(c, e1, e2, e3, reviewed, e4, e5, e6))
  {
    var s := Spine(c, e1, e2, e3, reviewed, e4, e5, e6);
    var rank := if reviewed then [c, e1, e2, e3, e4, e5, e6] else [c, e1, e2, e3, e5, e6];
    assert s == rank;
  }

  /** The offsets of the steps that matter follow the order of the steps. */
  predicate Ordered(rec: Recorder) {
    0 < rec.offset(ReadyKey) < rec.offset(InProgressKey) < rec.offset(ReviewKey) < rec.offset(AutomatedReviewKey)
      < rec.offset(HumanReviewKey) < rec.offset(AcceptKey)
  }

  lemma StandardOffset(id: string -> string, wp: string, k: Key)
    ensures StandardRecorder(id, wp).offset(k) == OperationOffset(KeyText(k))
  {
  }

  lemma ReadyAt(id: string -> string, wp: string)
    ensures StandardRecorder(id, wp).offset(ReadyKey) == 1
  {
    StandardOffset(id, wp, ReadyKey);
  }

  lemma InProgressAt(id: string -> string, wp: string)
    ensures StandardRecorder(id, wp).offset(InProgressKey) == 2
  {
    StandardOffset(id, wp, InProgressKey);
    assert "in-progress"[0] != "ready"[0];
  }

  lemma ReviewAt(id: string -> string, wp: string)
    ensures StandardRecorder(id, wp).offset(ReviewKey) == 30
  {
    StandardOffset(id, wp, ReviewKey);
    ReviewIsLiteral();
    assert "review"[0] == 'r' && "handoff"[0] == 'h' && |"review"| == 6;
  }

  lemma AutomatedReviewAt(id: string -> string, wp: string)
    ensures StandardRecorder(id, wp).offset(AutomatedReviewKey) == 31
  {
    StandardOffset(id, wp, AutomatedReviewKey);
    AutomatedReviewIsLiteral();
    assert "automated-review"[0] == 'a' && |"automated-review"| == 16;
  }

  lemma HumanReviewAt(id: string -> string, wp: string)
    ensures StandardRecorder(id, wp).offset(HumanReviewKey) == 32
  {
    StandardOffset(id, wp, HumanReviewKey);
    HumanReviewIsLiteral();
    assert "human-review"[0] == 'h' && |"human-review"| == 12;
  }

  lemma AcceptAt(id: string -> string, wp: string)
    ensures StandardRecorder(id, wp).offset(AcceptKey) == 40
  {
    StandardOffset(id, wp, AcceptKey);
    AcceptIsLiteral();
    assert "accept"[0] == 'a' && |"accept"| == 6;
  }

  lemma {:induction false} StandardIsOrdered(id: string -> string, wp: string)
    ensures Ordered(StandardRecorder(id, wp))
  {
    ReadyAt(id, wp);
    InProgressAt(id, wp);
    ReviewAt(id, wp);
    AutomatedReviewAt(id, wp);
    HumanReviewAt(id, wp);
    AcceptAt(id, wp);
  }

  lemma BackboneSorted(created: Event, rec: Recorder, reviewed: bool, base: int)
    requires created.occurredAt <= base && Ordered(rec)
    ensures Sorted(Earlier, Backbone(created, rec, reviewed, base))
  {
    SpineSorted(created, Emit(rec, base, ReadyKey, Change(Planned, Ready)),
                Emit(rec, base, InProgressKey, Change(Ready, InProgress)),
                Emit(rec, base, ReviewKey, Change(InProgress, Review)),
                reviewed, ReviewEvent(rec, base, AutomatedReviewKey, ReviewApproved),
                ReviewEvent(rec, base, HumanReviewKey, ReviewApproved), Emit(rec, base, AcceptKey, WorkAccepted));
  }

  lemma ReachesReview(wp: string, c: Event, e1: Event, e2: Event, e3: Event)
    requires c.workPackageID == e1.workPackageID == e2.workPackageID == e3.workPackageID == wp
    requires c.body == WorkPackageCreated && e1.body == Change(Planned, Ready) && e2.body == Change(Ready, InProgress)
    requires e3.body == Change(InProgress, Review)
    ensures History(BodiesOf(wp, [c] + [e1] + [e2] + [e3])).state == Review
  {
    ReplayOne(wp, [], c);
    assert [] + [c] == [c];
    ReplayOne(wp, [c], e1);
    ReplayOne(wp, [c] + [e1], e2);
    ReplayOne(wp, [c] + [e1] + [e2], e3);
  }

  lemma ReviewedIsAccepted(wp: string, before: seq<Event>, review: Event, accept: Event)
    requires History(BodiesOf(wp, before)).state == Review && review.workPackageID == accept.workPackageID == wp
    requires review.body == ReviewRecorded(Some(ReviewApproved)) && accept.body == WorkAccepted
    ensures History(BodiesOf(wp, before + [review])).state == Review
    ensures History(BodiesOf(wp, before + [review] + [accept])).state == Accepted
  {
    ReplayOne(wp, before, review);
    ReplayOne(wp, before + [review], accept);
  }

  lemma SpineAccepts(wp: string, c: Event, e1: Event, e2: Event, e3: Event, reviewed: bool, e4: Event, e5: Event,
                     e6: Event)
    requires c.workPackageID == e1.workPackageID == e2.workPackageID == e3.workPackageID == wp
    requires e4.workPackageID == e5.workPackageID == e6.workPackageID == wp
    requires c.body == WorkPackageCreated && e1.body == Change(Planned, Ready) && e2.body == Change(Ready, InProgress)
    requires e3.body == Change(InProgress, Review) && e6.body == WorkAccepted
    requires e4.body == e5.body == ReviewRecorded(Some(ReviewApproved))
    ensures History(BodiesOf(wp, Spine(c, e1, e2, e3, reviewed, e4, e5, e6))).state == Accepted
  {
    var s4 := [c] + [e1] + [e2] + [e3];
    ReachesReview(wp, c, e1, e2, e3);
    FinishReview(wp, s4, reviewed, e4, e5, e6);
    SpineShape(c, e1, e2, e3, reviewed, e4, e5, e6);
  }

  lemma FinishReview(wp: string, before: seq<Event>, reviewed: bool, e4: Event, e5: Event, e6: Event)
    requires History(BodiesOf(wp, before)).state == Review
    requires e4.workPackageID == e5.workPackageID == e6.workPackageID == wp && e6.body == WorkAccepted
    requires e4.body == e5.body == ReviewRecorded(Some(ReviewApproved))
    ensures History(BodiesOf(wp, (if reviewed then before + [e4] else before) + [e5] + [e6])).state == Accepted
  {
    if reviewed {
      ReviewedIsAccepted(wp, before, e4, e6);
      ReviewedIsAccepted(wp, before + [e4], e5, e6);
    } else {
      ReviewedIsAccepted(wp, before, e5, e6);
    }
  }

  lemma SpineShape(c: Event, e1: Event, e2: Event, e3: Event, reviewed: bool, e4: Event, e5: Event, e6: Event)
    ensures Spine(c, e1, e2, e3, reviewed, e4, e5, e6)
         == (if reviewed then [c] + [e1] + [e2] + [e3] + [e4] else [c] + [e1] + [e2] + [e3]) + [e5] + [e6]
  {
  }

  lemma BackboneAccepts(created: Event, rec: Recorder, reviewed: bool, base: int)
    requires created.workPackageID == rec.wp && created.body == WorkPackageCreated
    ensures History(BodiesOf(rec.wp, Backbone(created, rec, reviewed, base))).state == Accepted
  {
    SpineAccepts(rec.wp, created, Emit(rec, base, ReadyKey, Change(Planned, Ready)),
                 Emit(rec, base, InProgressKey, Change(Ready, InProgress)),
                 Emit(rec, base, ReviewKey, Change(InProgress, Review)),
                 reviewed, ReviewEvent(rec, base, AutomatedReviewKey, ReviewApproved),
                 ReviewEvent(rec, base, HumanReviewKey, ReviewApproved), Emit(rec, base, AcceptKey, WorkAccepted));
  }

  lemma ReplayOne(wp: string, events: seq<Event>, e: Event)
    requires e.workPackageID == wp
    ensures History(BodiesOf(wp, events + [e])) == StepPackage(History(BodiesOf(wp, events)), e.body)
  {
    BodiesAppend(wp, events, e);
    HistoryAppend(BodiesOf(wp, events), e.body);
  }

  /** Sorting recovers the order of the events that matter, from any supply. */
  lemma SortedSupply(wp: string, supplied: seq<Event>, spine: seq<Event>)
    requires RecordsAgree(supplied) && Sorted(Earlier, spine)
    requires multiset(Filter(MattersTo(wp), supplied)) == multiset(spine)
    ensures Filter(MattersTo(wp), SortBy(Earlier, supplied)) == spine
  {
    var kept := Filter(MattersTo(wp), supplied);
    EarlierIsStrictWeak();
    EarlierDiscriminates(supplied);
    SortFilterCommute(MattersTo(wp), Earlier, supplied);
    SortBySorts(Earlier, kept);
    SameElements(kept, SortBy(Earlier, kept));
    SortedPermutationUnique(Earlier, SortBy(Earlier, kept), spine);
  }

  lemma {:induction false} ApprovedInOrder(g: Graph, created: Event, rec: Recorder, reviewed: bool, base: int,
                        tests: seq<Evidence>, out: Outside, supplied: seq<Event>)
    requires rec.wp in g.definitions && RecordsAgree(supplied) && Ordered(rec)
    requires created.workPackageID == rec.wp && created.body == WorkPackageCreated && created.occurredAt <= base
    requires multiset(Filter(AboutOf(rec.wp), supplied))
        == multiset(AllEvents(created, rec, reviewed, base, tests, out))
    ensures History(BodiesOf(rec.wp, Canonical(g, supplied))).state == Accepted
  {
    SamePackageEvents(rec.wp, supplied, AllEvents(created, rec, reviewed, base, tests, out));
    BackboneRemains(created, rec, reviewed, base, tests, out);
    BackboneSorted(created, rec, reviewed, base);
    SortedSupply(rec.wp, supplied, Backbone(created, rec, reviewed, base));
    CanonicalKeepsPackage(g, rec.wp, supplied);
    OthersChangeNothing(rec.wp, Canonical(g, supplied));
    BackboneAccepts(created, rec, reviewed, base);
  }

  /** A package created no later than the evidence, evaluated and approved, is Accepted by
      the reducer, whatever order its history is supplied in and whatever else it contains
      about other packages. */
  lemma {:induction false} ApprovedWorkIsAccepted(g: Graph, created: Event, id: string -> string, wp: string,
                                                  reviewed: bool, base: int,
                               tests: seq<Evidence>, out: Outside, supplied: seq<Event>)
    requires wp in g.definitions && RecordsAgree(supplied)
    requires created.workPackageID == wp && created.body == WorkPackageCreated && created.occurredAt <= base
    requires multiset(Filter(AboutOf(wp), supplied))
          == multiset(AllEvents(created, StandardRecorder(id, wp), reviewed, base, tests, out))
    ensures StateIn(Replay(Canonical(g, supplied)), wp) == Accepted
  {
    StandardIsOrdered(id, wp);
    ApprovedInOrder(g, created, StandardRecorder(id, wp), reviewed, base, tests, out, supplied);
    ReplayIsPerPackage(Canonical(g, supplied), wp);
  }

  /** `supplied` holds, of package `wp`, its creation no later than `base` and this history,
      in any order and among anything else. */
  ghost predicate Supplies(g: Graph, supplied: seq<Event>, wp: string, created: Event, base: int, history: seq<Event>) {
    && wp in g.definitions && RecordsAgree(supplied)
    && created.workPackageID == wp && created.body == WorkPackageCreated && created.occurredAt <= base
    && multiset(Filter(AboutOf(wp), supplied)) == multiset([created] + history)
  }

  /** However this history is supplied, the readiness reducer accepts the package. */
  ghost predicate ReadAsAccepted(wp: string, base: int, history: seq<Event>) {
    forall g, supplied, created {:trigger Supplies(g, supplied, wp, created, base, history)} ::
      Supplies(g, supplied, wp, created, base, history) ==> StateIn(Replay(Canonical(g, supplied)), wp) == Accepted
  }

  lemma {:induction false} OneHistory(created: Event, rec: Recorder, reviewed: bool, base: int, tests: seq<Evidence>,
                                      out: Outside,
                                      evaluated: seq<Event>, approved: seq<Event>)
    requires evaluated == EvaluateEvents(rec, reviewed, base, tests, out) && approved == ApproveEvents(rec, base)
    ensures [created] + (evaluated + approved) == AllEvents(created, rec, reviewed, base, tests, out)
  {
    assert [created] + (evaluated + approved) == [created] + evaluated + approved;
  }

  lemma {:induction false} ApprovalIsRead(id: string -> string, wp: string, rec: Recorder, reviewed: bool,
                                          tests: seq<Evidence>,
                                          out: Outside, history: seq<Event>)
    requires rec == StandardRecorder(id, wp)
    requires forall created :: [created] + history == AllEvents(created, rec, reviewed, out.evidenceAt, tests, out)
    ensures ReadAsAccepted(wp, out.evidenceAt, history)
  {
    forall g, supplied, created | Supplies(g, supplied, wp, created, out.evidenceAt, history)
      ensures StateIn(Replay(Canonical(g, supplied)), wp) == Accepted
    {
      ApprovedWorkIsAccepted(g, created, id, wp, reviewed, out.evidenceAt, tests, out, supplied);
    }
  }

  /** What an evaluation and an approval emit is read as accepted work. */
  lemma {:induction false} EmittedIsRead(id: string -> string, wp: string, rec: Recorder, reviewed: bool,
                                         tests: seq<Evidence>,
                                         out: Outside, history: seq<Event>)
    requires rec == StandardRecorder(id, wp)
    requires history == EvaluateEvents(rec, reviewed, out.evidenceAt, tests, out) + ApproveEvents(rec, out.evidenceAt)
    ensures ReadAsAccepted(wp, out.evidenceAt, history)
  {
    var evaluated := EvaluateEvents(rec, reviewed, out.evidenceAt, tests, out);
    var approved := ApproveEvents(rec, out.evidenceAt);
    forall created ensures [created] + history == AllEvents(created, rec, reviewed, out.evidenceAt, tests, out) {
      OneHistory(created, rec, reviewed, out.evidenceAt, tests, out, evaluated, approved);
    }
    ApprovalIsRead(id, wp, rec, reviewed, tests, out, history);
  }

  lemma {:induction false} SamePackageEvents(wp: string, supplied: seq<Event>, emitted: seq<Event>)
    requires multiset(Filter(AboutOf(wp), supplied)) == multiset(emitted)
    ensures multiset(Filter(MattersTo(wp), supplied)) == multiset(Filter(MattersTo(wp), emitted))
  {
    forall x ensures multiset(Filter(MattersTo(wp), supplied))[x] == multiset(Filter(MattersTo(wp), emitted))[x] {
      FilterMultiplicity(MattersTo(wp), supplied, x);
      FilterMultiplicity(MattersTo(wp), emitted, x);
      FilterMultiplicity(AboutOf(wp), supplied, x);
    }
  }

  lemma CanonicalKeepsPackage(g: Graph, wp: string, supplied: seq<Event>)
    requires wp in g.definitions
    ensures Filter(MattersTo(wp), Canonical(g, supplied)) == Filter(MattersTo(wp), SortBy(Earlier, supplied))
  {
    FilterTwice(MattersTo(wp), Keep(g), SortBy(Earlier, supplied));
  }

  lemma {:induction false} FilterTwice<T(!new)>(fine: T -> bool, coarse: T -> bool, s: seq<T>)
    requires forall x | fine(x) :: coarse(x)
    ensures Filter(fine, Filter(coarse, s)) == Filter(fine, s)
  {
    if s != [] {
      FilterTwice(fine, coarse, s[1..]);
      if coarse(s[0]) {
        assert ([s[0]] + Filter(coarse, s[1..]))[1..] == Filter(coarse, s[1..]);
      }
    }
  }
}

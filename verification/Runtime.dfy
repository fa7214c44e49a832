/** The supervised runtime adapter as a state machine over its lock-protected steps, with
    persistence failures, crashes and reloads. */
module Runtime {
  import opened Sorting
  import opened Options

  datatype Status = Prepared | Running | Paused | Succeeded | Failed | Canceled | Closed

  /** What an execution was authorised for; compared as a whole on recovery. */
  datatype Binding = Binding(
    contractDigest: string, workspaceID: string, attemptID: string, leaseGeneration: int,
    fencingDigest: string, resumeKeyDigest: string)

  datatype Session = Session(id: string, binding: Binding, status: Status, sequence: nat, updatedAt: int)
  datatype Input = Input(context: string, instruction: string)
  datatype Window = Window(notBefore: int, deadline: int)

  // `result` None is the empty reference; Some is one that decoded and named this session.
  datatype SessionState = SessionState(
    session: Session, window: Window, input: Option<Input>, result: Option<string>, errorCode: string,
    retryable: bool, progress: string, cancelLive: bool, cancelRequested: bool)

  datatype Durable = Durable(
    session: Session, result: Option<string>, errorCode: string, retryable: bool, progress: string)

  datatype Observation = Observation(
    sessionID: string, status: Status, sequence: nat, updatedAt: int, errorCode: string, retryable: bool,
    progress: string)

  datatype ActionKind = StartAction | CancelAction | CloseAction
  type ActionKey = (ActionKind, string)

  datatype Fingerprint = Fingerprint(binding: Binding, contextDigest: string, instructionDigest: string)
  datatype Replay = Replay(fingerprint: Fingerprint, sessionID: string)

  datatype PrepareRequest = PrepareRequest(
    sessionID: string, key: string, fingerprint: Fingerprint, window: Window, input: Input)

  datatype Code =
    | InvalidTransition | NotFound | Conflict | Unavailable | TimedOut

  datatype Reply<T> = Done(value: T) | Denied(code: Code)

  /** Everything the process and its disk hold. `live` maps each launched execution that
      still holds its slot to whether it has finished; `launches` is the history of launches. */
  datatype World = World(
    up: bool, sessions: map<string, SessionState>, preparations: map<string, Replay>,
    actions: map<ActionKey, Observation>, slots: nat, live: map<string, bool>,
    durable: map<string, Durable>, launches: seq<string>)

  function Observe(s: SessionState): Observation {
    Observation(s.session.id, s.session.status, s.session.sequence, s.session.updatedAt, s.errorCode, s.retryable,
                s.progress)
  }

  function ToDisk(s: SessionState): Durable {
    Durable(s.session, s.result, s.errorCode, s.retryable, s.progress)
  }

  function Moved(s: SessionState, status: Status, now: int): SessionState {
    s.(session := s.session.(status := status, sequence := s.session.sequence + 1, updatedAt := now))
  }

  // ---------------------------------------------------------------- steps

  function Fresh(q: PrepareRequest, now: int): SessionState {
    SessionState(Session(q.sessionID, q.fingerprint.binding, Prepared, 1, now), q.window, Some(q.input), None, "",
                 false, "prepared", false, false)
  }

  /** `Prepare`, once the request itself has been admitted. */
  function PrepareStep(w: World, q: PrepareRequest, now: int, persisted: bool): (World, Reply<Session>) {
    if q.key in w.preparations then
      var prior := w.preparations[q.key];
      (w, if prior.fingerprint != q.fingerprint || prior.sessionID !in w.sessions then Denied(Conflict)
          else Done(w.sessions[prior.sessionID].session))
    else if q.sessionID in w.sessions then
      var existing := w.sessions[q.sessionID].session;
      if existing.binding != q.fingerprint.binding then (w, Denied(Conflict))
      else (w.(preparations := w.preparations[q.key := Replay(q.fingerprint, q.sessionID)]), Done(existing))
    else if !persisted then (w, Denied(Unavailable))
    else
      var s := Fresh(q, now);
      (w.(sessions := w.sessions[q.sessionID := s],
          preparations := w.preparations[q.key := Replay(q.fingerprint, q.sessionID)],
          durable := w.durable[q.sessionID := ToDisk(s)]),
       Done(s.session))
  }

  function Started(s: SessionState, now: int): SessionState {
    Moved(s, Running, now).(progress := "started", cancelLive := true)
  }

  /** `Start`: either launches the execution or changes nothing. */
  function StartStep(max: nat, w: World, id: string, key: string, now: int, persisted: bool)
    : (World, Reply<Observation>)
  {
    if (StartAction, key) in w.actions then
      var prior := w.actions[(StartAction, key)];
      (w, if prior.sessionID != id then Denied(Conflict) else Done(prior))
    else if id !in w.sessions then (w, Denied(NotFound))
    else
      var s := w.sessions[id];
      if s.session.status != Prepared || s.input.None? then (w, Denied(InvalidTransition))
      else if now < s.window.notBefore then (w, Denied(Unavailable))
      else if now >= s.window.deadline then (w, Denied(TimedOut))
      else if w.slots >= max || !persisted then (w, Denied(Unavailable))
      else
        var running := Started(s, now);
        (w.(sessions := w.sessions[id := running.(input := None)],
            actions := w.actions[(StartAction, key) := Observe(running)],
            slots := w.slots + 1, live := w.live[id := false],
            durable := w.durable[id := ToDisk(running)], launches := w.launches + [id]),
         Done(Observe(running)))
  }

  function CanceledState(s: SessionState, now: int): SessionState {
    Moved(s, Canceled, now).(cancelRequested := true, errorCode := "canceled", progress := "cancel_requested")
  }

  /** `Cancel` takes effect in memory even when it cannot be persisted. */
  function CancelStep(w: World, id: string, key: string, now: int, persisted: bool): (World, Reply<Observation>) {
    if (CancelAction, key) in w.actions then
      var prior := w.actions[(CancelAction, key)];
      (w, if prior.sessionID != id then Denied(Conflict) else Done(prior))
    else if id !in w.sessions then (w, Denied(NotFound))
    else if w.sessions[id].session.status != Running then (w, Denied(InvalidTransition))
    else
      var s := CanceledState(w.sessions[id], now);
      (w.(sessions := w.sessions[id := s], actions := w.actions[(CancelAction, key) := Observe(s)],
          durable := if persisted then w.durable[id := ToDisk(s)] else w.durable),
       if persisted then Done(Observe(s)) else Denied(Unavailable))
  }

  function CollectResult(w: World, id: string): Reply<string> {
    if id !in w.sessions then Denied(NotFound)
    else
      var s := w.sessions[id];
      if s.session.status != Succeeded && s.session.status != Failed && s.session.status != Canceled
      then Denied(InvalidTransition)
      else if s.result.None? then Denied(Unavailable)
      else Done(s.result.value)
  }

  function ClosedState(s: SessionState, now: int): SessionState {
    Moved(s, Closed, now).(input := None, progress := "closed")
  }

  function CloseStep(w: World, id: string, key: string, now: int, persisted: bool): (World, Reply<bool>) {
    if (CloseAction, key) in w.actions then
      (w, if w.actions[(CloseAction, key)].sessionID != id then Denied(Conflict) else Done(true))
    else if id !in w.sessions then (w, Denied(NotFound))
    else if w.sessions[id].cancelLive || w.sessions[id].session.status == Closed then (w, Denied(InvalidTransition))
    else if !persisted then (w, Denied(Unavailable))
    else
      var s := ClosedState(w.sessions[id], now);
      (w.(sessions := w.sessions[id := s], actions := w.actions[(CloseAction, key) := Observe(s)],
          durable := w.durable[id := ToDisk(s)]),
       Done(true))
  }

  /** How `execute` may end: no result on a failure of the run, one on a decoded answer. */
  datatype Ending = Ending(status: Status, code: string, retryable: bool, progress: string, result: Option<string>)

  predicate PossibleEnding(e: Ending) {
    e.status == Succeeded || e.status == Failed || (e.status == Canceled && e.result.None?)
  }

  function Finished(s: SessionState, e: Ending, now: int): SessionState {
    var e' := if s.cancelRequested then Ending(Canceled, "canceled", false, "canceled", None) else e;
    Moved(s, e'.status, now).(cancelLive := false, errorCode := e'.code, retryable := e'.retryable,
                              progress := e'.progress, result := e'.result)
  }

  /** `finish`, called once by a live execution. */
  function FinishStep(w: World, id: string, e: Ending, now: int, persisted: bool): World {
    if id !in w.live || w.live[id] || id !in w.sessions || !PossibleEnding(e) then w
    else
      var s := Finished(w.sessions[id], e, now);
      w.(sessions := w.sessions[id := s], live := w.live[id := true],
         durable := if persisted then w.durable[id := ToDisk(s)] else w.durable)
  }

  function ProgressStep(w: World, id: string, progress: string, persisted: bool): World {
    if id !in w.sessions || w.sessions[id].session.status != Running then w
    else
      var s := w.sessions[id].(progress := progress);
      w.(sessions := w.sessions[id := s],
         durable := if persisted then w.durable[id := ToDisk(s)] else w.durable)
  }

  /** The deferred slot release, after `finish`. */
  function ReleaseStep(w: World, id: string): World {
    if id in w.live && w.live[id] && w.slots > 0 then w.(live := w.live - {id}, slots := w.slots - 1) else w
  }

  /** The process dies: only the disk survives. */
  function CrashStep(w: World): World {
    World(false, map[], map[], map[], 0, map[], w.durable, w.launches)
  }

  predicate Unfinished(status: Status) { status == Prepared || status == Running || status == Paused }

  function Recovered(d: Durable, now: int): SessionState {
    var s := SessionState(d.session, Window(0, 0), None, d.result, d.errorCode, d.retryable, d.progress, false, false);
    if Unfinished(d.session.status)
    then Moved(s, Failed, now).(errorCode := "uncertain_termination", retryable := false,
                                progress := "restart_uncertain")
    else s
  }

  function Reloaded(durable: map<string, Durable>, visited: set<string>, now: int): map<string, Durable> {
    map id | id in durable :: if id in visited then ToDisk(Recovered(durable[id], now)) else durable[id]
  }

  function Loaded(durable: map<string, Durable>, visited: set<string>, now: int): map<string, SessionState> {
    map id | id in durable && id in visited :: Recovered(durable[id], now)
  }

  /** `New`: the records in `visited` were loaded before the first failure. The adapter
      exists only if that is all of them. */
  function ReloadStep(w: World, visited: set<string>, now: int): World {
    if w.up then w
    else if w.durable.Keys <= visited
    then w.(up := true, sessions := Loaded(w.durable, visited, now), durable := Reloaded(w.durable, visited, now))
    else w.(durable := Reloaded(w.durable, visited, now))
  }

  datatype Step =
    | DoPrepare(q: PrepareRequest, now: int, persisted: bool)
    | DoStart(id: string, key: string, now: int, persisted: bool)
    | DoCancel(id: string, key: string, now: int, persisted: bool)
    | DoClose(id: string, key: string, now: int, persisted: bool)
    | DoFinish(id: string, ending: Ending, now: int, persisted: bool)
    | DoProgress(id: string, progress: string, persisted: bool)
    | DoRelease(id: string)
    | DoCrash
    | DoReload(visited: set<string>, now: int)

  function Next(max: nat, w: World, step: Step): World {
    if !w.up then
      if step.DoReload? then ReloadStep(w, step.visited, step.now) else w
    else
      match step
      case DoPrepare(q, now, persisted) => PrepareStep(w, q, now, persisted).0
      case DoStart(id, key, now, persisted) => StartStep(max, w, id, key, now, persisted).0
      case DoCancel(id, key, now, persisted) => CancelStep(w, id, key, now, persisted).0
      case DoClose(id, key, now, persisted) => CloseStep(w, id, key, now, persisted).0
      case DoFinish(id, e, now, persisted) => FinishStep(w, id, e, now, persisted)
      case DoProgress(id, progress, persisted) => ProgressStep(w, id, progress, persisted)
      case DoRelease(id) => ReleaseStep(w, id)
      case DoCrash => CrashStep(w)
      case DoReload(_, _) => w
  }

  function Run(max: nat, w: World, steps: seq<Step>): World {
    if steps == [] then w else Next(max, Run(max, w, steps[..|steps| - 1]), steps[|steps| - 1])
  }

  const EMPTY := World(true, map[], map[], map[], 0, map[], map[], [])

  // ---------------------------------------------------------------- the invariant

  /** One session: its cancel handle is live exactly while its execution runs, Running means
      a live handle, a live handle means Running or a requested cancellation, unconsumed input
      means never launched, and a requested cancellation is final and yields no result. */
  predicate SessionOk(w: World, id: string)
    requires id in w.sessions
  {
    var s := w.sessions[id];
    && s.session.id == id && id in w.durable
    && (s.cancelLive <==> id in w.live && !w.live[id])
    && (s.session.status == Running ==> s.cancelLive)
    && (s.cancelLive ==> s.session.status == Running || (s.session.status == Canceled && s.cancelRequested))
    && (s.input.Some? ==> s.session.status == Prepared && id !in w.launches)
    && (s.cancelRequested ==> (s.session.status == Canceled || s.session.status == Closed) && s.result.None?)
    && (s.session.status == Running || s.session.status == Prepared ==> s.result.None? && !s.cancelRequested)
    && (s.session.status == Closed ==> w.durable[id].session == s.session)
  }

  /** What holds of one ID across the tables, a session or not. */
  predicate EntryOk(w: World, id: string) {
    && (id in w.launches ==> id in w.durable)
    && (id in w.live ==> id in w.launches && id in w.sessions)
    && (if w.up then id in w.sessions <==> id in w.durable else id !in w.sessions && id !in w.live)
    && (id in w.durable ==> w.durable[id].session.id == id)
    && (id in w.sessions ==> SessionOk(w, id))
  }

  predicate PreparationOk(w: World, key: string) {
    key in w.preparations ==> w.preparations[key].sessionID in w.sessions
  }

  ghost predicate Invariant(max: nat, w: World) {
    && Distinct(w.launches) && w.slots == |w.live| <= max
    && (forall id {:trigger EntryOk(w, id)} :: EntryOk(w, id))
    && (forall key {:trigger PreparationOk(w, key)} :: PreparationOk(w, key))
  }

  lemma SessionHolds(max: nat, w: World, id: string)
    requires Invariant(max, w) && id in w.sessions
    ensures SessionOk(w, id) && w.up && EntryOk(w, id)
  {
    assert EntryOk(w, id);
  }

  predicate SameEntry<T(==)>(m: map<string, T>, m': map<string, T>, id: string) {
    (id in m <==> id in m') && (id in m ==> m[id] == m'[id])
  }

  /** Nothing about `id` differs between the two worlds. */
  predicate SameAt(w: World, w': World, id: string) {
    && SameEntry(w.sessions, w'.sessions, id) && SameEntry(w.durable, w'.durable, id) && SameEntry(w.live, w'.live, id)
    && (id in w.launches <==> id in w'.launches)
  }

  /** A step that concerns one session keeps the invariant if it keeps it there. */
  lemma OneEntryKeeps(max: nat, w: World, w': World, id: string)
    requires Invariant(max, w) && w'.up == w.up && w'.preparations == w.preparations
    requires forall x {:trigger SameAt(w, w', x)} | x != id :: SameAt(w, w', x)
    requires EntryOk(w', id) && (id in w.sessions ==> id in w'.sessions)
    requires Distinct(w'.launches) && w'.slots == |w'.live| <= max
    ensures Invariant(max, w')
  {
    forall x ensures EntryOk(w', x) {
      assert EntryOk(w, x);
      if x != id { assert SameAt(w, w', x); }
    }
    forall key ensures PreparationOk(w', key) {
      assert PreparationOk(w, key);
      if key in w.preparations && w.preparations[key].sessionID != id {
        assert SameAt(w, w', w.preparations[key].sessionID);
      }
    }
  }

  /** As above, when the step also leaves alone who is live and what was launched. */
  lemma OneSessionKeeps(max: nat, w: World, w': World, id: string)
    requires Invariant(max, w) && w.up && w'.up && w'.preparations == w.preparations
    requires w'.live == w.live && w'.slots == w.slots && w'.launches == w.launches
    requires id in w.sessions && id in w'.sessions && w'.sessions == w.sessions[id := w'.sessions[id]]
    requires SessionOk(w', id)
    requires w'.durable == w.durable[id := w'.durable[id]] && w'.durable[id].session.id == id
    ensures Invariant(max, w')
  {
    assert EntryOk(w, id);
    forall x | x != id ensures SameAt(w, w', x) { }
    OneEntryKeeps(max, w, w', id);
  }

  ghost function WithFresh(w: World, q: PrepareRequest, now: int): World {
    var s := Fresh(q, now);
    w.(sessions := w.sessions[q.sessionID := s], durable := w.durable[q.sessionID := ToDisk(s)])
  }

  lemma FreshKeeps(max: nat, w: World, q: PrepareRequest, now: int)
    requires Invariant(max, w) && w.up && q.sessionID !in w.sessions
    ensures Invariant(max, WithFresh(w, q, now))
  {
    var w' := WithFresh(w, q, now);
    assert EntryOk(w, q.sessionID);
    forall x | x != q.sessionID ensures SameAt(w, w', x) { }
    OneEntryKeeps(max, w, w', q.sessionID);
  }

  lemma RememberKeeps(max: nat, w: World, key: string, r: Replay)
    requires Invariant(max, w) && w.up && r.sessionID in w.sessions
    ensures Invariant(max, w.(preparations := w.preparations[key := r]))
  {
    var w' := w.(preparations := w.preparations[key := r]);
    forall x ensures EntryOk(w', x) { assert EntryOk(w, x); }
    forall k ensures PreparationOk(w', k) { assert PreparationOk(w, k); }
  }

  lemma PrepareKeeps(max: nat, w: World, q: PrepareRequest, now: int, persisted: bool)
    requires Invariant(max, w) && w.up
    ensures Invariant(max, PrepareStep(w, q, now, persisted).0)
  {
    var w' := PrepareStep(w, q, now, persisted).0;
    if w' != w {
      var r := Replay(q.fingerprint, q.sessionID);
      if q.sessionID in w.sessions {
        RememberKeeps(max, w, q.key, r);
      } else {
        FreshKeeps(max, w, q, now);
        RememberKeeps(max, WithFresh(w, q, now), q.key, r);
      }
    }
  }

  lemma OneMore<T>(m: map<string, T>, id: string, v: T)
    ensures |m[id := v]| == if id in m then |m| else |m| + 1
  {
    assert m[id := v].Keys == m.Keys + {id};
    assert |m[id := v].Keys| == |m[id := v]| && |m.Keys| == |m|;
  }

  lemma OneFewer<T>(m: map<string, T>, id: string)
    requires id in m
    ensures |m - {id}| == |m| - 1
  {
    assert (m - {id}).Keys == m.Keys - {id};
    assert |(m - {id}).Keys| == |m - {id}| && |m.Keys| == |m|;
  }

  lemma StartKeeps(max: nat, w: World, id: string, key: string, now: int, persisted: bool)
    requires Invariant(max, w) && w.up
    ensures Invariant(max, StartStep(max, w, id, key, now, persisted).0)
  {
    var w' := StartStep(max, w, id, key, now, persisted).0;
    if w' != w {
      assert EntryOk(w, id);
      OneMore(w.live, id, false);
      forall x | x != id ensures SameAt(w, w', x) { }
      OneEntryKeeps(max, w, w', id);
    }
  }

  lemma CancelKeeps(max: nat, w: World, id: string, key: string, now: int, persisted: bool)
    requires Invariant(max, w) && w.up
    ensures Invariant(max, CancelStep(w, id, key, now, persisted).0)
  {
    var w' := CancelStep(w, id, key, now, persisted).0;
    if w' != w {
      SessionHolds(max, w, id);
      OneSessionKeeps(max, w, w', id);
    }
  }

  lemma CloseKeeps(max: nat, w: World, id: string, key: string, now: int, persisted: bool)
    requires Invariant(max, w) && w.up
    ensures Invariant(max, CloseStep(w, id, key, now, persisted).0)
  {
    var w' := CloseStep(w, id, key, now, persisted).0;
    if w' != w {
      SessionHolds(max, w, id);
      OneSessionKeeps(max, w, w', id);
    }
  }

  lemma FinishKeeps(max: nat, w: World, id: string, e: Ending, now: int, persisted: bool)
    requires Invariant(max, w) && w.up
    ensures Invariant(max, FinishStep(w, id, e, now, persisted))
  {
    var w' := FinishStep(w, id, e, now, persisted);
    if w' != w {
      assert EntryOk(w, id);
      OneMore(w.live, id, true);
      forall x | x != id ensures SameAt(w, w', x) { }
      OneEntryKeeps(max, w, w', id);
    }
  }

  lemma ProgressKeeps(max: nat, w: World, id: string, progress: string, persisted: bool)
    requires Invariant(max, w) && w.up
    ensures Invariant(max, ProgressStep(w, id, progress, persisted))
  {
    var w' := ProgressStep(w, id, progress, persisted);
    if w' != w {
      SessionHolds(max, w, id);
      OneSessionKeeps(max, w, w', id);
    }
  }

  lemma ReleaseKeeps(max: nat, w: World, id: string)
    requires Invariant(max, w) && w.up
    ensures Invariant(max, ReleaseStep(w, id))
  {
    var w' := ReleaseStep(w, id);
    if w' != w {
      assert EntryOk(w, id);
      OneFewer(w.live, id);
      forall x | x != id ensures SameAt(w, w', x) { }
      OneEntryKeeps(max, w, w', id);
    }
  }

  lemma CrashKeeps(max: nat, w: World)
    requires Invariant(max, w)
    ensures Invariant(max, CrashStep(w))
  {
    var w' := CrashStep(w);
    forall x ensures EntryOk(w', x) { assert EntryOk(w, x); }
    forall key ensures PreparationOk(w', key) { }
  }

  lemma ReloadKeeps(max: nat, w: World, visited: set<string>, now: int)
    requires Invariant(max, w) && !w.up
    ensures Invariant(max, ReloadStep(w, visited, now))
  {
    var w' := ReloadStep(w, visited, now);
    forall x ensures EntryOk(w', x) { assert EntryOk(w, x); }
    forall key ensures PreparationOk(w', key) {
      assert PreparationOk(w, key);
      if key in w.preparations { assert EntryOk(w, w.preparations[key].sessionID); }
    }
  }

  lemma NextKeeps(max: nat, w: World, step: Step)
    requires Invariant(max, w)
    ensures Invariant(max, Next(max, w, step))
  {
    if !w.up {
      if step.DoReload? { ReloadKeeps(max, w, step.visited, step.now); }
    } else {
      match step
      case DoPrepare(q, now, persisted) => PrepareKeeps(max, w, q, now, persisted);
      case DoStart(id, key, now, persisted) => StartKeeps(max, w, id, key, now, persisted);
      case DoCancel(id, key, now, persisted) => CancelKeeps(max, w, id, key, now, persisted);
      case DoClose(id, key, now, persisted) => CloseKeeps(max, w, id, key, now, persisted);
      case DoFinish(id, e, now, persisted) => FinishKeeps(max, w, id, e, now, persisted);
      case DoProgress(id, progress, persisted) => ProgressKeeps(max, w, id, progress, persisted);
      case DoRelease(id) => ReleaseKeeps(max, w, id);
      case DoCrash => CrashKeeps(max, w);
      case DoReload(_, _) =>
    }
  }

  // ---------------------------------------------------------------- whole runs

  lemma {:induction false} RunKeeps(max: nat, w: World, steps: seq<Step>)
    requires Invariant(max, w)
    ensures Invariant(max, Run(max, w, steps))
  {
    if steps != [] {
      RunKeeps(max, w, steps[..|steps| - 1]);
      NextKeeps(max, Run(max, w, steps[..|steps| - 1]), steps[|steps| - 1]);
    }
  }

  lemma EmptyHolds(max: nat)
    ensures Invariant(max, EMPTY)
  {
    forall x ensures EntryOk(EMPTY, x) { }
    forall key ensures PreparationOk(EMPTY, key) { }
  }

  /** However calls, persist failures, crashes and reloads interleave, no session is ever
      launched twice, and the slots held are the executions that have not released theirs. */
  lemma {:induction false} LaunchedAtMostOnce(max: nat, steps: seq<Step>)
    ensures Distinct(Run(max, EMPTY, steps).launches)
    ensures var w := Run(max, EMPTY, steps); w.slots == |w.live| <= max
  {
    EmptyHolds(max);
    RunKeeps(max, EMPTY, steps);
  }

  predicate InProcess(steps: seq<Step>) {
    forall i | 0 <= i < |steps| :: !steps[i].DoCrash? && !steps[i].DoReload?
  }

  predicate CancelStands(w: World, id: string) {
    w.up && id in w.sessions && w.sessions[id].cancelRequested
  }

  lemma CancelStandsNext(max: nat, w: World, step: Step, id: string)
    requires CancelStands(w, id) && SessionOk(w, id) && !step.DoCrash? && !step.DoReload?
    ensures CancelStands(Next(max, w, step), id)
  {
  }

  /** Within a process, cancellation wins every race: from then on the session is Canceled
      or Closed and nothing can be collected, whatever the execution reports. */
  lemma {:induction false} CancelWins(max: nat, w: World, id: string, steps: seq<Step>)
    requires Invariant(max, w) && CancelStands(w, id) && InProcess(steps)
    ensures var w' := Run(max, w, steps);
            && CancelStands(w', id) && w'.sessions[id].session.status in {Canceled, Closed}
            && CollectResult(w', id).Denied?
  {
    RunKeeps(max, w, steps);
    if steps != [] {
      var init := steps[..|steps| - 1];
      CancelWins(max, w, id, init);
      RunKeeps(max, w, init);
      SessionHolds(max, Run(max, w, init), id);
      CancelStandsNext(max, Run(max, w, init), steps[|steps| - 1], id);
    }
    SessionHolds(max, Run(max, w, steps), id);
  }

  /** An effective `Cancel` is what makes it stand, persisted or not. */
  lemma {:induction false} CancelTakesEffect(max: nat, w: World, id: string, key: string, now: int, persisted: bool)
    requires Invariant(max, w) && w.up && id in w.sessions && w.sessions[id].session.status == Running
    requires (CancelAction, key) !in w.actions
    ensures CancelStands(CancelStep(w, id, key, now, persisted).0, id)
  {
  }

  /** An effective `Cancel`, persisted or not, is for good: whatever else happens in the
      process, nothing can be collected from the session any more. */
  lemma {:induction false} CanceledForGood(max: nat, w: World, id: string, key: string, now: int, persisted: bool,
                                           steps: seq<Step>)
    requires Invariant(max, w) && w.up && id in w.sessions && w.sessions[id].session.status == Running
    requires (CancelAction, key) !in w.actions && InProcess(steps)
    ensures var w' := Run(max, CancelStep(w, id, key, now, persisted).0, steps);
            && w'.up && id in w'.sessions && w'.sessions[id].session.status in {Canceled, Closed}
            && CollectResult(w', id).Denied?
  {
    CancelKeeps(max, w, id, key, now, persisted);
    CancelTakesEffect(max, w, id, key, now, persisted);
    CancelWins(max, CancelStep(w, id, key, now, persisted).0, id, steps);
  }

  /** Within a process a session's sequence never falls and rises with every status change. */
  lemma {:induction false} SequenceRises(max: nat, w: World, step: Step, id: string)
    requires w.up && id in w.sessions && !step.DoCrash? && !step.DoReload?
    ensures var w' := Next(max, w, step);
            && w'.up && id in w'.sessions && w'.sessions[id].session.sequence >= w.sessions[id].session.sequence
            && (w'.sessions[id].session.status != w.sessions[id].session.status ==>
                  w'.sessions[id].session.sequence > w.sessions[id].session.sequence)
            && w'.sessions[id].session.binding == w.sessions[id].session.binding
  {
  }

  /** Over any stretch of one process the sequence never falls, and it has risen if the status
      is not what it was; the binding stays. */
  lemma {:induction false} SequenceNeverFalls(max: nat, w: World, id: string, steps: seq<Step>)
    requires w.up && id in w.sessions && InProcess(steps)
    ensures var w' := Run(max, w, steps);
            && w'.up && id in w'.sessions && w'.sessions[id].session.sequence >= w.sessions[id].session.sequence
            && (w'.sessions[id].session.status != w.sessions[id].session.status ==>
                  w'.sessions[id].session.sequence > w.sessions[id].session.sequence)
            && w'.sessions[id].session.binding == w.sessions[id].session.binding
  {
    if steps != [] {
      var init := steps[..|steps| - 1];
      SequenceNeverFalls(max, w, id, init);
      SequenceRises(max, Run(max, w, init), steps[|steps| - 1], id);
    }
  }

  predicate ClosedFor(w: World, id: string, s: Session) {
    && s.status == Closed && id in w.durable && w.durable[id].session == s
    && (w.up ==> id in w.sessions && w.sessions[id].session == s)
  }

  lemma ClosedReload(w: World, visited: set<string>, now: int, id: string, s: Session)
    requires ClosedFor(w, id, s) && !w.up
    ensures ClosedFor(ReloadStep(w, visited, now), id, s)
  {
  }

  lemma ClosedNext(max: nat, w: World, step: Step, id: string, s: Session)
    requires ClosedFor(w, id, s) && (w.up ==> SessionOk(w, id))
    ensures ClosedFor(Next(max, w, step), id, s)
  {
    if !w.up && step.DoReload? { ClosedReload(w, step.visited, step.now, id, s); }
  }

  /** A closed session is never touched again, not even by a finishing execution or a restart. */
  lemma {:induction false} ClosedForever(max: nat, w: World, id: string, steps: seq<Step>)
    requires Invariant(max, w) && w.up && id in w.sessions && w.sessions[id].session.status == Closed
    ensures ClosedFor(Run(max, w, steps), id, w.sessions[id].session)
  {
    SessionHolds(max, w, id);
    if steps != [] {
      var init := steps[..|steps| - 1];
      ClosedForever(max, w, id, init);
      RunKeeps(max, w, init);
      if Run(max, w, init).up { SessionHolds(max, Run(max, w, init), id); }
      ClosedNext(max, Run(max, w, init), steps[|steps| - 1], id, w.sessions[id].session);
    }
  }

  predicate Unstartable(w: World, id: string) {
    id in w.durable && (w.up ==> id in w.sessions && w.sessions[id].input.None?)
  }

  lemma UnstartableReload(w: World, visited: set<string>, now: int, id: string)
    requires Unstartable(w, id) && !w.up
    ensures var w' := ReloadStep(w, visited, now); Unstartable(w', id) && w'.launches == w.launches
  {
  }

  lemma UnstartableNext(max: nat, w: World, step: Step, id: string)
    requires Unstartable(w, id)
    ensures var w' := Next(max, w, step); Unstartable(w', id) && (id in w'.launches <==> id in w.launches)
  {
    if !w.up && step.DoReload? { UnstartableReload(w, step.visited, step.now, id); }
  }

  /** A session recovered from disk is never launched in any later life of the adapter. */
  lemma {:induction false} RecoveredNeverStarts(max: nat, w: World, id: string, steps: seq<Step>)
    requires !w.up && id in w.durable
    ensures Unstartable(Run(max, w, steps), id)
    ensures id in Run(max, w, steps).launches <==> id in w.launches
  {
    if steps != [] {
      var init := steps[..|steps| - 1];
      RecoveredNeverStarts(max, w, id, init);
      UnstartableNext(max, Run(max, w, init), steps[|steps| - 1], id);
    }
  }

  lemma ActionsNext(max: nat, w: World, step: Step, key: ActionKey)
    requires w.up && key in w.actions && !step.DoCrash? && !step.DoReload?
    ensures var w' := Next(max, w, step); w'.up && key in w'.actions && w'.actions[key] == w.actions[key]
  {
  }

  /** Recorded actions replay unchanged for the rest of the process. */
  lemma {:induction false} ActionsReplay(max: nat, w: World, key: ActionKey, steps: seq<Step>)
    requires w.up && key in w.actions && InProcess(steps)
    ensures var w' := Run(max, w, steps); w'.up && key in w'.actions && w'.actions[key] == w.actions[key]
  {
    if steps != [] {
      ActionsReplay(max, w, key, steps[..|steps| - 1]);
      ActionsNext(max, Run(max, w, steps[..|steps| - 1]), steps[|steps| - 1], key);
    }
  }
}

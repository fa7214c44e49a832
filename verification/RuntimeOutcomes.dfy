/** What a client of the runtime adapter can count on: when each call takes effect, what is seen
    of the session afterwards, and that nothing else changes. */
module RuntimeOutcomes {
  import opened Options
  import opened Runtime

  predicate Shows(w: World, id: string, status: Status, progress: string) {
    id in w.sessions && w.sessions[id].session.status == status && w.sessions[id].progress == progress
  }

  /** Every other session, its record on disk and its slot are as they were. */
  ghost predicate OthersStand(w: World, w': World, id: string) {
    forall x | x != id :: SameAt(w, w', x)
  }

  /** The disk holds what memory holds. */
  predicate Saved(w: World, id: string) {
    id in w.sessions && id in w.durable && w.durable[id] == ToDisk(w.sessions[id])
  }

  // ---------------------------------------------------------------- launches and their window

  predicate Prepares(step: Step, id: string, s: SessionState) {
    step.DoPrepare? && step.q.sessionID == id && s.window == step.q.window && s.input == Some(step.q.input)
    && s.session.binding == step.q.fingerprint.binding
  }

  ghost predicate PreparedBy(steps: seq<Step>, id: string, s: SessionState) {
    exists j | 0 <= j < |steps| :: Prepares(steps[j], id, s)
  }

  /** Whatever is still waiting to be launched is as some request asked for it. */
  ghost predicate AsRequested(steps: seq<Step>, w: World) {
    forall id {:trigger PreparedBy(steps, id, w.sessions[id])} | id in w.sessions && w.sessions[id].input.Some? ::
      PreparedBy(steps, id, w.sessions[id])
  }

  lemma InputComesFrom(max: nat, w: World, step: Step, id: string)
    requires var w' := Next(max, w, step); id in w'.sessions && w'.sessions[id].input.Some?
    ensures var s := Next(max, w, step).sessions[id];
            || (id in w.sessions && w.sessions[id].window == s.window && w.sessions[id].input == s.input
                && w.sessions[id].session.binding == s.session.binding)
            || Prepares(step, id, s)
  {
  }

  lemma {:induction false} RunAsRequested(max: nat, steps: seq<Step>)
    ensures AsRequested(steps, Run(max, EMPTY, steps))
  {
    if steps != [] {
      var init, last := steps[..|steps| - 1], steps[|steps| - 1];
      RunAsRequested(max, init);
      var w, w' := Run(max, EMPTY, init), Run(max, EMPTY, steps);
      forall id | id in w'.sessions && w'.sessions[id].input.Some? ensures PreparedBy(steps, id, w'.sessions[id]) {
        InputComesFrom(max, w, last, id);
        if Prepares(last, id, w'.sessions[id]) {
          assert steps[|steps| - 1] == last;
        } else {
          assert PreparedBy(init, id, w.sessions[id]);
          var j :| 0 <= j < |init| && Prepares(init[j], id, w.sessions[id]);
          assert steps[j] == init[j] && Prepares(steps[j], id, w'.sessions[id]);
        }
      }
    }
  }

  /** `step` starts `id` within the window the request asked for. */
  predicate StartsWithin(step: Step, window: Window) {
    step.DoStart? && window.notBefore <= step.now < window.deadline
  }

  /** In every run a launch is a start, made within the window of a request to prepare that very
      session. */
  lemma {:induction false} LaunchedInWindow(max: nat, steps: seq<Step>, n: nat)
    requires n < |steps|
    requires Run(max, EMPTY, steps[..n + 1]).launches != Run(max, EMPTY, steps[..n]).launches
    ensures steps[n].DoStart?
    ensures Run(max, EMPTY, steps[..n + 1]).launches == Run(max, EMPTY, steps[..n]).launches + [steps[n].id]
    ensures exists j | 0 <= j < n ::
              steps[j].DoPrepare? && steps[j].q.sessionID == steps[n].id && StartsWithin(steps[n], steps[j].q.window)
  {
    var w := Run(max, EMPTY, steps[..n]);
    assert steps[..n + 1][..n] == steps[..n];
    RunAsRequested(max, steps[..n]);
    LaunchIsStart(max, w, steps[n]);
    var id := steps[n].id;
    assert PreparedBy(steps[..n], id, w.sessions[id]);
    var j :| 0 <= j < n && Prepares(steps[..n][j], id, w.sessions[id]);
    assert steps[j] == steps[..n][j];
  }

  lemma LaunchIsStart(max: nat, w: World, step: Step)
    requires Next(max, w, step).launches != w.launches
    ensures step.DoStart? && Next(max, w, step).launches == w.launches + [step.id]
    ensures step.id in w.sessions && w.sessions[step.id].input.Some?
    ensures StartsWithin(step, w.sessions[step.id].window)
  {
  }

  /** The session can be launched now. */
  predicate Launchable(max: nat, w: World, id: string, now: int) {
    && id in w.sessions && w.sessions[id].session.status == Prepared && w.sessions[id].input.Some?
    && w.sessions[id].window.notBefore <= now < w.sessions[id].window.deadline && w.slots < max
  }

  /** A start under a new key launches exactly a launchable session that can be persisted; the
      session is then seen running, its slot taken, its input gone. Nothing else changes. */
  lemma {:induction false} StartOutcome(max: nat, w: World, id: string, key: string, now: int, persisted: bool)
    requires (StartAction, key) !in w.actions
    ensures var (w', r) := StartStep(max, w, id, key, now, persisted);
            if Launchable(max, w, id, now) && persisted then
              && w'.launches == w.launches + [id] && w'.slots == w.slots + 1 && id in w'.live && !w'.live[id]
              && r == Done(Observe(w'.sessions[id])) && Shows(w', id, Running, "started")
              && w'.sessions[id].session.sequence == w.sessions[id].session.sequence + 1
              && w'.sessions[id].session.updatedAt == now && w'.sessions[id].input.None? && Saved(w', id)
              && w'.actions == w.actions[(StartAction, key) := r.value] && OthersStand(w, w', id)
            else w' == w && r.Denied?
  {
  }

  /** Why it is refused says what is in the way. */
  lemma {:induction false} StartRefusal(max: nat, w: World, id: string, key: string, now: int, persisted: bool)
    requires (StartAction, key) !in w.actions
    ensures var r := StartStep(max, w, id, key, now, persisted).1;
            && (r == Denied(NotFound) <==> id !in w.sessions)
            && (r == Denied(InvalidTransition) <==>
                  id in w.sessions && (w.sessions[id].session.status != Prepared || w.sessions[id].input.None?))
            && (r == Denied(TimedOut) ==> now >= w.sessions[id].window.deadline)
            && (r == Denied(Unavailable) ==>
                  now < w.sessions[id].window.notBefore || w.slots >= max || !persisted)
            && r != Denied(Conflict)
  {
  }

  // ---------------------------------------------------------------- preparing

  /** A new request under a new key is prepared exactly when it can be persisted, and is then seen
      as prepared with the request's binding, window and input. */
  lemma {:induction false} PrepareOutcome(w: World, q: PrepareRequest, now: int, persisted: bool)
    requires q.key !in w.preparations && q.sessionID !in w.sessions
    ensures var (w', r) := PrepareStep(w, q, now, persisted);
            if persisted then
              && r.Done? && Shows(w', q.sessionID, Prepared, "prepared") && r.value == w'.sessions[q.sessionID].session
              && Prepares(DoPrepare(q, now, persisted), q.sessionID, w'.sessions[q.sessionID])
              && r.value.id == q.sessionID && r.value.sequence == 1 && r.value.updatedAt == now
              && w'.sessions[q.sessionID].result.None? && !w'.sessions[q.sessionID].cancelRequested
              && Saved(w', q.sessionID) && OthersStand(w, w', q.sessionID) && w'.launches == w.launches
              && q.key in w'.preparations && w'.preparations[q.key] == Replay(q.fingerprint, q.sessionID)
            else w' == w && r == Denied(Unavailable)
  {
  }

  /** A session that exists is returned to a new key that is authorised for the same thing, and to
      no other. */
  lemma {:induction false} PrepareAgain(w: World, q: PrepareRequest, now: int, persisted: bool)
    requires q.key !in w.preparations && q.sessionID in w.sessions
    ensures var (w', r) := PrepareStep(w, q, now, persisted);
            if w.sessions[q.sessionID].session.binding == q.fingerprint.binding then
              && r == Done(w.sessions[q.sessionID].session) && w'.sessions == w.sessions && w'.durable == w.durable
              && q.key in w'.preparations && w'.preparations[q.key].fingerprint == q.fingerprint
            else w' == w && r == Denied(Conflict)
  {
  }

  lemma PreparationsNext(max: nat, w: World, step: Step, key: string)
    requires w.up && key in w.preparations && !step.DoCrash? && !step.DoReload?
    ensures var w' := Next(max, w, step); w'.up && key in w'.preparations && w'.preparations[key] == w.preparations[key]
  {
  }

  lemma {:induction false} PreparationsStay(max: nat, w: World, key: string, steps: seq<Step>)
    requires w.up && key in w.preparations && InProcess(steps)
    ensures var w' := Run(max, w, steps); w'.up && key in w'.preparations && w'.preparations[key] == w.preparations[key]
  {
    if steps != [] {
      PreparationsStay(max, w, key, steps[..|steps| - 1]);
      PreparationsNext(max, Run(max, w, steps[..|steps| - 1]), steps[|steps| - 1], key);
    }
  }

  /** For the rest of the process a used key answers with its own session, as it then is, to the
      same request, and with a conflict to any other. */
  lemma {:induction false} PrepareReplays(max: nat, w: World, steps: seq<Step>, q: PrepareRequest, now: int,
                                          persisted: bool)
    requires Invariant(max, w) && w.up && InProcess(steps) && q.key in w.preparations
    ensures var w' := Run(max, w, steps);
            var (w'', r) := PrepareStep(w', q, now, persisted);
            && w'' == w'
            && (if w.preparations[q.key].fingerprint == q.fingerprint
                then r.Done? && r.value.id == w.preparations[q.key].sessionID
                     && r.value.id in w'.sessions && r.value == w'.sessions[r.value.id].session
                else r == Denied(Conflict))
  {
    PreparationsStay(max, w, q.key, steps);
    RunKeeps(max, w, steps);
    assert PreparationOk(Run(max, w, steps), q.key);
    SessionHolds(max, Run(max, w, steps), w.preparations[q.key].sessionID);
  }

  // ---------------------------------------------------------------- canceling, finishing, closing

  /** A cancellation under a new key takes effect exactly on a running session, whether or not it
      can be persisted; that decides only the answer and the disk. */
  lemma {:induction false} CancelOutcome(w: World, id: string, key: string, now: int, persisted: bool)
    requires (CancelAction, key) !in w.actions
    ensures var (w', r) := CancelStep(w, id, key, now, persisted);
            if id in w.sessions && w.sessions[id].session.status == Running then
              && Shows(w', id, Canceled, "cancel_requested") && w'.sessions[id].errorCode == "canceled"
              && w'.sessions[id].session.sequence == w.sessions[id].session.sequence + 1
              && w'.sessions[id].session.updatedAt == now && w'.sessions[id].cancelRequested
              && (if persisted then r == Done(Observe(w'.sessions[id])) && Saved(w', id)
                  else r == Denied(Unavailable) && w'.durable == w.durable)
              && OthersStand(w, w', id) && w'.slots == w.slots && w'.live == w.live && w'.launches == w.launches
            else w' == w && r == Denied(if id in w.sessions then InvalidTransition else NotFound)
  {
  }

  /** A live execution that ends without having been canceled leaves exactly what it reported. */
  lemma {:induction false} FinishOutcome(w: World, id: string, e: Ending, now: int, persisted: bool)
    requires id in w.live && !w.live[id] && id in w.sessions && PossibleEnding(e) && !w.sessions[id].cancelRequested
    ensures var w' := FinishStep(w, id, e, now, persisted);
            && Shows(w', id, e.status, e.progress) && w'.sessions[id].errorCode == e.code
            && w'.sessions[id].retryable == e.retryable
            && w'.sessions[id].session.sequence == w.sessions[id].session.sequence + 1
            && w'.sessions[id].session.updatedAt == now && !w'.sessions[id].cancelLive
            && CollectResult(w', id) == (if e.result.Some? then Done(e.result.value) else Denied(Unavailable))
            && (if persisted then Saved(w', id) else w'.durable == w.durable)
            && id in w'.live && w'.live[id] && w'.slots == w.slots && OthersStand(w, w', id)
  {
  }

  /** A result can be collected exactly from a session that ended with one. */
  lemma {:induction false} CollectOutcome(w: World, id: string)
    ensures CollectResult(w, id).Done? <==>
      && id in w.sessions && w.sessions[id].session.status in {Succeeded, Failed, Canceled}
      && w.sessions[id].result.Some?
    ensures CollectResult(w, id).Done? ==> Some(CollectResult(w, id).value) == w.sessions[id].result
    ensures CollectResult(w, id) == Denied(NotFound) <==> id !in w.sessions
    ensures CollectResult(w, id) == Denied(Unavailable) <==>
      id in w.sessions && w.sessions[id].session.status in {Succeeded, Failed, Canceled} && w.sessions[id].result.None?
  {
  }

  /** What a success reported can still be collected after anything else that happens in the
      process short of closing the session. */
  lemma {:induction false} ResultStays(max: nat, w: World, id: string, result: string, steps: seq<Step>)
    requires Invariant(max, w) && w.up && CollectResult(w, id) == Done(result) && !w.sessions[id].cancelLive
    requires InProcess(steps) && forall i | 0 <= i < |steps| :: !(steps[i].DoClose? && steps[i].id == id)
    ensures CollectResult(Run(max, w, steps), id) == Done(result)
    ensures id in Run(max, w, steps).sessions && !Run(max, w, steps).sessions[id].cancelLive && Run(max, w, steps).up
  {
    if steps != [] {
      var init := steps[..|steps| - 1];
      ResultStays(max, w, id, result, init);
      RunKeeps(max, w, init);
      SessionHolds(max, Run(max, w, init), id);
      ResultNext(max, Run(max, w, init), steps[|steps| - 1], id, result);
    }
  }

  lemma ResultNext(max: nat, w: World, step: Step, id: string, result: string)
    requires w.up && CollectResult(w, id) == Done(result) && !w.sessions[id].cancelLive && SessionOk(w, id)
    requires !step.DoCrash? && !step.DoReload? && !(step.DoClose? && step.id == id)
    ensures var w' := Next(max, w, step);
            CollectResult(w', id) == Done(result) && id in w'.sessions && !w'.sessions[id].cancelLive && w'.up
  {
  }

  /** A close under a new key takes effect exactly on a session that is over, is not closed and can
      be persisted. */
  lemma {:induction false} CloseOutcome(w: World, id: string, key: string, now: int, persisted: bool)
    requires (CloseAction, key) !in w.actions
    ensures var (w', r) := CloseStep(w, id, key, now, persisted);
            if id in w.sessions && !w.sessions[id].cancelLive && w.sessions[id].session.status != Closed && persisted
            then
              && r == Done(true) && Shows(w', id, Closed, "closed") && w'.sessions[id].input.None? && Saved(w', id)
              && w'.sessions[id].session.sequence == w.sessions[id].session.sequence + 1
              && w'.sessions[id].session.updatedAt == now && OthersStand(w, w', id)
            else
              && w' == w
              && r == Denied(if id !in w.sessions then NotFound
                             else if w.sessions[id].cancelLive || w.sessions[id].session.status == Closed
                             then InvalidTransition else Unavailable)
  {
  }

  /** A slot is given back exactly when its execution has finished. */
  lemma {:induction false} ReleaseOutcome(max: nat, w: World, id: string)
    requires Invariant(max, w)
    ensures var w' := ReleaseStep(w, id);
            if id in w.live && w.live[id] then
              && w'.slots == w.slots - 1 && w'.live == w.live - {id}
              && w'.sessions == w.sessions && w'.durable == w.durable
            else w' == w
  {
    if id in w.live { OneFewer(w.live, id); }
  }

  /** Progress touches the progress of a running session and nothing else. */
  lemma {:induction false} ProgressOutcome(w: World, id: string, progress: string, persisted: bool)
    ensures var w' := ProgressStep(w, id, progress, persisted);
            if id in w.sessions && w.sessions[id].session.status == Running then
              && w'.sessions == w.sessions[id := w.sessions[id].(progress := progress)] && OthersStand(w, w', id)
              && (if persisted then Saved(w', id) else w'.durable == w.durable)
            else w' == w
  {
  }

  // ---------------------------------------------------------------- restarting

  /** After a crash and a complete reload every session that was saved is back: an unfinished one as
      failed, beyond retrying; a finished one as it was, its result included. Keys, slots and
      executions are forgotten. */
  lemma {:induction false} RestartOutcome(w: World, now: int, id: string)
    requires id in w.durable
    ensures var d, w' := w.durable[id], ReloadStep(CrashStep(w), w.durable.Keys, now);
            && w'.up && w'.sessions.Keys == w.durable.Keys && w'.slots == 0 && w'.live == map[] && w'.actions == map[]
            && w'.preparations == map[] && w'.launches == w.launches && Saved(w', id)
            && w'.sessions[id].session.binding == d.session.binding
            && (if d.session.status in {Prepared, Running, Paused}
                then Shows(w', id, Failed, "restart_uncertain") && w'.sessions[id].errorCode == "uncertain_termination"
                     && !w'.sessions[id].retryable && w'.sessions[id].session.sequence == d.session.sequence + 1
                     && w'.sessions[id].session.updatedAt == now
                else ToDisk(w'.sessions[id]) == d)
  {
  }

  /** A result that was saved survives the restart. */
  lemma {:induction false} ResultSurvives(w: World, now: int, id: string, result: string)
    requires Saved(w, id) && CollectResult(w, id) == Done(result)
    ensures CollectResult(ReloadStep(CrashStep(w), w.durable.Keys, now), id) == Done(result)
  {
    RestartOutcome(w, now, id);
  }
}

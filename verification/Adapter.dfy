/** The adapter object itself: mutable tables updated under its mutex, with rollback when a
    record cannot be persisted. Each method is one critical section of `Runtime.Next`. */
module RuntimeAdapter {
  import opened Options
  import opened Runtime

  class Adapter {
    const max: nat
    var up: bool
    var sessions: map<string, SessionState>
    var preparations: map<string, Replay>
    var actions: map<ActionKey, Observation>
    var slots: nat
    var live: map<string, bool>
    var durable: map<string, Durable>
    ghost var launches: seq<string>

    ghost function W(): World
      reads this
    {
      World(up, sessions, preparations, actions, slots, live, durable, launches)
    }

    ghost predicate Valid()
      reads this
    {
      Invariant(max, W())
    }

    constructor (max: nat)
      ensures this.max == max && W() == EMPTY && Valid()
    {
      this.max := max;
      up, sessions, preparations, actions, slots, live, durable := true, map[], map[], map[], 0, map[], map[];
      launches := [];
    }

    /** Write the session's record, or fail and leave the old one. */
    method Persist(id: string, written: bool) returns (ok: bool)
      requires id in sessions
      modifies this`durable
      ensures ok == written
      ensures durable == if written then old(durable)[id := ToDisk(sessions[id])] else old(durable)
    {
      if written { durable := durable[id := ToDisk(sessions[id])]; }
      ok := written;
    }

    method Prepare(q: PrepareRequest, now: int, written: bool) returns (r: Reply<Session>)
      requires up && (q.key in preparations ==> preparations[q.key].sessionID in sessions)
      modifies this
      ensures (W(), r) == PrepareStep(old(W()), q, now, written)
    {
      if q.key in preparations {
        var prior := preparations[q.key];
        if prior.fingerprint != q.fingerprint { return Denied(Conflict); }
        return Done(sessions[prior.sessionID].session);
      }
      if q.sessionID in sessions {
        var existing := sessions[q.sessionID].session;
        if existing.binding != q.fingerprint.binding { return Denied(Conflict); }
        preparations := preparations[q.key := Replay(q.fingerprint, q.sessionID)];
        return Done(existing);
      }
      ghost var before := W();
      sessions := sessions[q.sessionID := Fresh(q, now)];
      preparations := preparations[q.key := Replay(q.fingerprint, q.sessionID)];
      var ok := Persist(q.sessionID, written);
      if !ok {
        sessions := sessions - {q.sessionID};
        preparations := preparations - {q.key};
        assert sessions == before.sessions && preparations == before.preparations;
        return Denied(Unavailable);
      }
      r := Done(sessions[q.sessionID].session);
    }

    /** The executor is launched: the prepared input is consumed and the slot is in use. */
    method Launch(id: string)
      requires id in sessions
      modifies this`sessions, this`live, this`launches
      ensures sessions == old(sessions)[id := old(sessions)[id].(input := None)]
      ensures live == old(live)[id := false] && launches == old(launches) + [id]
    {
      sessions := sessions[id := sessions[id].(input := None)];
      live := live[id := false];
      launches := launches + [id];
    }

    /** Takes a slot, marks the session running and persists it; launches, or undoes all that. */
    method Begin(id: string, key: string, now: int, written: bool) returns (r: Reply<Observation>)
      requires id in sessions && !sessions[id].cancelLive && (StartAction, key) !in actions
      modifies this
      ensures var running := Started(old(sessions)[id], now);
              if written then
                && W() == old(W()).(
                     sessions := old(sessions)[id := running.(input := None)],
                     actions := old(actions)[(StartAction, key) := Observe(running)], slots := old(slots) + 1,
                     live := old(live)[id := false], durable := old(durable)[id := ToDisk(running)],
                     launches := old(launches) + [id])
                && r == Done(Observe(running))
              else W() == old(W()) && r == Denied(Unavailable)
    {
      ghost var before := W();
      var previous := sessions[id];
      slots := slots + 1;
      sessions := sessions[id := Started(previous, now)];
      var observation := Observe(sessions[id]);
      actions := actions[(StartAction, key) := observation];
      var ok := Persist(id, written);
      if !ok {
        slots := slots - 1;
        sessions := sessions[id := sessions[id].(session := previous.session, progress := previous.progress,
                                                 cancelLive := false)];
        actions := actions - {(StartAction, key)};
        Undone(before.sessions, id, Started(previous, now));
        Withdrawn(before.actions, (StartAction, key), observation);
        return Denied(Unavailable);
      }
      Launch(id);
      Overwritten(before.sessions, id, Started(previous, now), Started(previous, now).(input := None));
      r := Done(observation);
    }

    method Start(id: string, key: string, now: int, written: bool) returns (r: Reply<Observation>)
      requires up && (id in sessions && sessions[id].session.status == Prepared ==> !sessions[id].cancelLive)
      modifies this
      ensures (W(), r) == StartStep(max, old(W()), id, key, now, written)
    {
      if (StartAction, key) in actions {
        var prior := actions[(StartAction, key)];
        return if prior.sessionID != id then Denied(Conflict) else Done(prior);
      }
      if id !in sessions { return Denied(NotFound); }
      var previous := sessions[id];
      if previous.session.status != Prepared || previous.input.None? { return Denied(InvalidTransition); }
      if now < previous.window.notBefore { return Denied(Unavailable); }
      if now >= previous.window.deadline { return Denied(TimedOut); }
      if slots >= max { return Denied(Unavailable); }
      r := Begin(id, key, now, written);
    }

    method Cancel(id: string, key: string, now: int, written: bool) returns (r: Reply<Observation>)
      requires up
      modifies this
      ensures (W(), r) == CancelStep(old(W()), id, key, now, written)
    {
      if (CancelAction, key) in actions {
        var prior := actions[(CancelAction, key)];
        return if prior.sessionID != id then Denied(Conflict) else Done(prior);
      }
      if id !in sessions { return Denied(NotFound); }
      if sessions[id].session.status != Running { return Denied(InvalidTransition); }
      sessions := sessions[id := CanceledState(sessions[id], now)];
      var observation := Observe(sessions[id]);
      actions := actions[(CancelAction, key) := observation];
      var ok := Persist(id, written);
      r := if ok then Done(observation) else Denied(Unavailable);
    }

    method Close(id: string, key: string, now: int, written: bool) returns (r: Reply<bool>)
      requires up
      modifies this
      ensures (W(), r) == CloseStep(old(W()), id, key, now, written)
    {
      if (CloseAction, key) in actions {
        return if actions[(CloseAction, key)].sessionID != id then Denied(Conflict) else Done(true);
      }
      if id !in sessions { return Denied(NotFound); }
      if sessions[id].cancelLive { return Denied(InvalidTransition); }
      if sessions[id].session.status == Closed { return Denied(InvalidTransition); }
      ghost var before := W();
      var previous := sessions[id];
      sessions := sessions[id := ClosedState(previous, now)];
      var ok := Persist(id, written);
      if !ok {
        sessions := sessions[id := sessions[id].(session := previous.session, input := previous.input,
                                                 progress := previous.progress)];
        assert sessions == before.sessions;
        return Denied(Unavailable);
      }
      actions := actions[(CloseAction, key) := Observe(sessions[id])];
      r := Done(true);
    }

    /** What a running execution reports at the end; the outcome of persisting is ignored. */
    method Finish(id: string, e: Ending, now: int, written: bool)
      requires up && id in live && !live[id] && id in sessions && PossibleEnding(e)
      modifies this
      ensures W() == FinishStep(old(W()), id, e, now, written)
    {
      var status, code, retryable, progress, result := e.status, e.code, e.retryable, e.progress, e.result;
      if sessions[id].cancelRequested {
        status, code, progress := Canceled, "canceled", "canceled";
        retryable := false;
        result := None;
      }
      sessions := sessions[id := Moved(sessions[id], status, now).(cancelLive := false, errorCode := code,
                                   retryable := retryable, progress := progress, result := result)];
      live := live[id := true];
      var _ := Persist(id, written);
    }

    method UpdateProgress(id: string, progress: string, written: bool)
      requires up
      modifies this
      ensures W() == ProgressStep(old(W()), id, progress, written)
    {
      if id !in sessions || sessions[id].session.status != Running { return; }
      sessions := sessions[id := sessions[id].(progress := progress)];
      var _ := Persist(id, written);
    }

    method ReleaseSlot(id: string)
      requires up && id in live && live[id] && slots > 0
      modifies this
      ensures W() == ReleaseStep(old(W()), id)
    {
      live := live - {id};
      slots := slots - 1;
    }

    method Crash()
      modifies this
      ensures W() == CrashStep(old(W()))
    {
      up, sessions, preparations, actions, slots, live := false, map[], map[], map[], 0, map[];
    }

    /** Load every record, in the order the directory lists them, until one cannot be read
        or rewritten. */
    method Reload(usable: string -> bool, now: int) returns (ok: bool, ghost visited: set<string>)
      requires !up
      modifies this
      ensures W() == ReloadStep(old(W()), visited, now)
      ensures ok == up && (ok <==> forall id | id in old(durable) :: usable(id))
    {
      visited := {};
      ghost var disk := durable;
      var rest := durable.Keys;
      var loaded: map<string, SessionState> := map[];
      while rest != {}
        invariant rest <= disk.Keys && visited == disk.Keys - rest
        invariant loaded == Loaded(disk, visited, now) && durable == Reloaded(disk, visited, now)
        invariant W() == old(W()).(durable := durable)
        invariant forall id | id in visited :: usable(id)
        decreases rest
      {
        var id :| id in rest;
        if !usable(id) { return false, visited; }
        ReloadOne(disk, visited, id, now);
        var state := Recovered(durable[id], now);
        loaded := loaded[id := state];
        if Unfinished(durable[id].session.status) { durable := durable[id := ToDisk(state)]; }
        rest := rest - {id};
        visited := visited + {id};
      }
      sessions, up := loaded, true;
      ok := true;
    }

    /** Any call, background step, crash or restart: the object moves as `Next` says, and
        its invariant is what discharges every precondition above. */
    method Serve(step: Step, usable: string -> bool) returns (ghost taken: Step)
      requires Valid()
      modifies this
      ensures Valid() && W() == Next(max, old(W()), taken)
      ensures !step.DoReload? ==> taken == step
    {
      taken := step;
      NextKeeps(max, W(), step);
      Prerequisites(max, W(), step);
      if !up {
        if step.DoReload? {
          ghost var before := W();
          var _, visited := Reload(usable, step.now);
          taken := DoReload(visited, step.now);
          NextKeeps(max, before, taken);
        }
        return;
      }
      match step
      case DoPrepare(q, now, persisted) => var _ := Prepare(q, now, persisted);
      case DoStart(id, key, now, persisted) => var _ := Start(id, key, now, persisted);
      case DoCancel(id, key, now, persisted) => var _ := Cancel(id, key, now, persisted);
      case DoClose(id, key, now, persisted) => var _ := Close(id, key, now, persisted);
      case DoFinish(id, e, now, persisted) =>
        if id in live && !live[id] && PossibleEnding(e) { Finish(id, e, now, persisted); }
      case DoProgress(id, progress, persisted) => UpdateProgress(id, progress, persisted);
      case DoRelease(id) => if id in live && live[id] { ReleaseSlot(id); }
      case DoCrash => Crash();
      case DoReload(_, _) =>
    }
  }

  lemma Undone<V>(m: map<string, V>, id: string, v: V)
    requires id in m
    ensures m[id := v][id := m[id]] == m
  {
  }

  lemma Withdrawn<K, V>(m: map<K, V>, k: K, v: V)
    requires k !in m
    ensures m[k := v] - {k} == m
  {
  }

  lemma Overwritten<V>(m: map<string, V>, id: string, v: V, u: V)
    ensures m[id := v][id := u] == m[id := u]
  {
  }

  lemma Prerequisites(max: nat, w: World, step: Step)
    requires Invariant(max, w)
    ensures step.DoPrepare? && step.q.key in w.preparations ==> w.preparations[step.q.key].sessionID in w.sessions
    ensures step.DoStart? && step.id in w.sessions && w.sessions[step.id].session.status == Prepared ==>
              !w.sessions[step.id].cancelLive
    ensures step.DoFinish? && step.id in w.live ==> step.id in w.sessions
    ensures step.DoRelease? && step.id in w.live ==> w.slots > 0
  {
    if step.DoPrepare? { assert PreparationOk(w, step.q.key); }
    if step.DoStart? || step.DoFinish? { assert EntryOk(w, step.id); }
    if step.DoRelease? && step.id in w.live { OneFewer(w.live, step.id); }
  }

  lemma ReloadOne(durable: map<string, Durable>, visited: set<string>, id: string, now: int)
    requires id in durable && id !in visited
    ensures Reloaded(durable, visited, now)[id] == durable[id]
    ensures Reloaded(durable, visited + {id}, now)
        == Reloaded(durable, visited, now)[id := ToDisk(Recovered(durable[id], now))]
    ensures !Unfinished(durable[id].session.status) ==>
              Reloaded(durable, visited + {id}, now) == Reloaded(durable, visited, now)
    ensures Loaded(durable, visited + {id}, now) == Loaded(durable, visited, now)[id := Recovered(durable[id], now)]
  {
  }

  function Sum(values: seq<int>): int {
    if values == [] then 0 else Sum(values[..|values| - 1]) + values[|values| - 1]
  }

  lemma {:induction false} SumGrows(values: seq<int>, i: nat)
    requires i <= |values| && forall k | 0 <= k < |values| :: values[k] >= 0
    ensures Sum(values[..i]) <= Sum(values)
    decreases |values|
  {
    if i < |values| {
      var init := values[..|values| - 1];
      SumGrows(init, i);
      assert init[..i] == values[..i];
    } else {
      assert values[..i] == values;
    }
  }

  /** Comparing against a shrinking remainder decides whether the total exceeds the limit
      without ever forming the total, which could overflow 64 bits. */
  method ExceedsTokenBudget(limit: int, values: seq<int>) returns (exceeded: bool)
    requires forall k | 0 <= k < |values| :: values[k] >= 0
    ensures exceeded <==> values != [] && Sum(values) > limit
  {
    var remaining := limit;
    for i := 0 to |values|
      invariant remaining == limit - Sum(values[..i])
      invariant i > 0 ==> 0 <= remaining <= limit
    {
      assert values[..i + 1][..i] == values[..i];
      if values[i] > remaining {
        SumGrows(values, i + 1);
        return true;
      }
      remaining := remaining - values[i];
    }
    assert values[..|values|] == values;
    exceeded := false;
  }
}

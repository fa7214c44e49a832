/** What a ticket and a session are worth: a ticket buys a session while it lasts and there is room,
    and a session answers while it lasts, with the CSRF digest last set. */
module SessionOutcomes {
  import opened Options
  import opened BrowserSessions

  /** The clock reading a step works on. */
  function TimeOf(s: State, step: Step): int
    requires Possible(s, step)
  {
    match step
    case IssueStep(_, now) => now
    case RedeemStep(_, _, now) => now
    case OpenStep(ref, _, _) => s.flights[ref].now
    case AbandonStep(ref) => s.flights[ref].now
    case LookStep(_, now) => now
    case RotateStep(_, _, now) => now
  }

  /** Every step of the run works on a reading before `deadline`. */
  predicate AllBefore(s: State, steps: seq<Step>, deadline: int)
    requires PossibleRun(s, steps)
    decreases |steps|
  {
    steps == [] || (TimeOf(s, steps[0]) < deadline && AllBefore(Next(s, steps[0]), steps[1..], deadline))
  }

  // ---------------------------------------------------------------- sessions

  /** The CSRF digest after the run: the one the last rotation of the session set, or the one before. */
  function LastSet(steps: seq<Step>, session: string, csrf: string): string {
    if steps == [] then csrf
    else
      var rest := steps[1..];
      LastSet(rest, session, if steps[0].RotateStep? && steps[0].session == session then steps[0].csrf else csrf)
  }

  predicate Lasts(s: State, session: string, csrf: string, expiresAt: int) {
    && session in s.origin && session in s.tables.sessions
    && s.tables.sessions[session].csrf == csrf && s.tables.sessions[session].expiresAt == expiresAt
  }

  lemma LastsNext(s: State, step: Step, session: string, csrf: string, expiresAt: int)
    requires Possible(s, step) && Lasts(s, session, csrf, expiresAt) && TimeOf(s, step) < expiresAt
    ensures var latest := if step.RotateStep? && step.session == session then step.csrf else csrf;
            Lasts(Next(s, step), session, latest, expiresAt)
  {
  }

  /** While it lasts a session is found, whatever else happens, with the digest last set. */
  lemma {:induction false} SessionAnswers(s: State, steps: seq<Step>, session: string, csrf: string, expiresAt: int,
                                          now: int)
    requires PossibleRun(s, steps) && Lasts(s, session, csrf, expiresAt) && AllBefore(s, steps, expiresAt)
    requires now < expiresAt
    ensures var found := Look(Run(s, steps).tables, session, now).1;
            found.Some? && found.value.csrf == LastSet(steps, session, csrf) && found.value.expiresAt == expiresAt
    decreases |steps|
  {
    if steps != [] {
      LastsNext(s, steps[0], session, csrf, expiresAt);
      var latest := if steps[0].RotateStep? && steps[0].session == session then steps[0].csrf else csrf;
      SessionAnswers(Next(s, steps[0]), steps[1..], session, latest, expiresAt, now);
    }
  }

  /** Sessions still running at `now`. */
  function Running(t: Tables, now: int): set<string> {
    set d | d in t.sessions && now < t.sessions[d].expiresAt
  }

  function Pending(t: Tables, now: int): set<string> { set d | d in t.tickets && now < t.tickets[d].expiresAt }

  lemma PrunedCounts(t: Tables, now: int)
    ensures |Pruned(t, now).sessions| == |Running(t, now)| && |Pruned(t, now).tickets| == |Pending(t, now)|
  {
    assert Pruned(t, now).sessions.Keys == Running(t, now);
    assert Pruned(t, now).tickets.Keys == Pending(t, now);
  }

  /** The second section opens the session exactly when fewer than eight are running; it then lasts
      eight hours from the first section, with the digest given. */
  lemma {:induction false} OpenOutcome(s: State, ref: nat, session: string, csrf: string)
    requires Possible(s, OpenStep(ref, session, csrf))
    ensures var now, t := s.flights[ref].now, Next(s, OpenStep(ref, session, csrf));
            if |Running(s.tables, now)| < 8 then Lasts(t, session, csrf, now + 8 * 60 * 60 * 1_000_000_000)
            else session !in t.origin && t.tables.sessions.Keys == Running(s.tables, now)
  {
    PrunedCounts(s.tables, s.flights[ref].now);
    assert Pruned(s.tables, s.flights[ref].now).sessions.Keys == Running(s.tables, s.flights[ref].now);
  }

  /** Rotation is refused exactly where there is no session to rotate. */
  lemma {:induction false} RotateOutcome(t: Tables, session: string, csrf: string, now: int)
    ensures Rotate(t, session, csrf, now).1 == (if session in Running(t, now) then NotRefused else Invalid)
    ensures session in Running(t, now) ==>
      Look(Rotate(t, session, csrf, now).0, session, now).1 == Some(t.sessions[session].(csrf := csrf))
    ensures forall d | d in Running(t, now) && d != session ::
      Look(Rotate(t, session, csrf, now).0, d, now).1 == Some(t.sessions[d])
  {
  }

  // ---------------------------------------------------------------- tickets

  predicate Redeemable(s: State, ticket: string, expiresAt: int) {
    ticket in s.issued && ticket in s.tables.tickets && s.tables.tickets[ticket].expiresAt == expiresAt
  }

  /** A ticket is issued exactly when fewer than sixteen are pending; it then lasts two minutes. */
  lemma {:induction false} IssueOutcome(s: State, ticket: string, now: int)
    requires Possible(s, IssueStep(ticket, now))
    ensures var t := Next(s, IssueStep(ticket, now));
            if |Pending(s.tables, now)| < 16 then Redeemable(t, ticket, now + 2 * 60 * 1_000_000_000)
            else ticket !in t.issued && Issue(s.tables, ticket, now).1 == AtCapacity
  {
    PrunedCounts(s.tables, now);
  }

  lemma RedeemableNext(s: State, step: Step, ticket: string, expiresAt: int)
    requires Possible(s, step) && Redeemable(s, ticket, expiresAt) && TimeOf(s, step) < expiresAt
    requires !(step.RedeemStep? && step.ticket == ticket)
    ensures Redeemable(Next(s, step), ticket, expiresAt)
  {
  }

  /** Until it runs out or is redeemed a ticket stays good: whatever else happens, it is then accepted
      exactly when there is room for a session. */
  lemma {:induction false} TicketStaysGood(s: State, steps: seq<Step>, ticket: string, expiresAt: int, now: int)
    requires PossibleRun(s, steps) && Redeemable(s, ticket, expiresAt) && AllBefore(s, steps, expiresAt)
    requires forall i | 0 <= i < |steps| :: !(steps[i].RedeemStep? && steps[i].ticket == ticket)
    requires now < expiresAt
    ensures var t := Run(s, steps).tables;
            Redeem(t, ticket, now).1 == if |Running(t, now)| < 8 then NotRefused else AtCapacity
    decreases |steps|
  {
    if steps == [] {
      PrunedCounts(s.tables, now);
    } else {
      RedeemableNext(s, steps[0], ticket, expiresAt);
      TicketStaysGood(Next(s, steps[0]), steps[1..], ticket, expiresAt, now);
    }
  }

  /** What has run out is refused. */
  lemma {:induction false} StaleTicketIsRefused(t: Tables, ticket: string, now: int)
    requires ticket in t.tickets ==> t.tickets[ticket].expiresAt <= now
    ensures Redeem(t, ticket, now).1 == Invalid
  {
  }
}

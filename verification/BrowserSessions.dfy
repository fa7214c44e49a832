/** Browser sessions: a one-time ticket is exchanged for a session in two critical sections,
    with random tokens drawn between them while the lock is free. Tables are keyed by token
    digests; random tokens never repeat. Instants are integers, in nanoseconds. */
module BrowserSessions {
  import opened Sorting
  import opened Options

  datatype Ticket = Ticket(createdAt: int, expiresAt: int)
  datatype Session = Session(csrf: string, createdAt: int, expiresAt: int)
  datatype Tables = Tables(tickets: map<string, Ticket>, sessions: map<string, Session>)

  const SECOND := 1_000_000_000
  const TICKET_TTL := 120 * SECOND
  const SESSION_TTL := 28_800 * SECOND
  const MAX_TICKETS := 16
  const MAX_SESSIONS := 8

  datatype Refusal = NotRefused | Invalid | AtCapacity

  // ---------------------------------------------------------------- the critical sections

  function Pruned(t: Tables, now: int): Tables {
    Tables(map d | d in t.tickets && now < t.tickets[d].expiresAt :: t.tickets[d],
           map d | d in t.sessions && now < t.sessions[d].expiresAt :: t.sessions[d])
  }

  function Issue(t: Tables, ticket: string, now: int): (Tables, Refusal) {
    var p := Pruned(t, now);
    if |p.tickets| >= MAX_TICKETS then (p, AtCapacity)
    else (p.(tickets := p.tickets[ticket := Ticket(now, now + TICKET_TTL)]), NotRefused)
  }

  /** The first section of an exchange: the ticket is used up. */
  function Redeem(t: Tables, ticket: string, now: int): (Tables, Refusal) {
    var p := Pruned(t, now);
    if ticket !in p.tickets || p.tickets[ticket].expiresAt <= now then (p, Invalid)
    else if |p.sessions| >= MAX_SESSIONS then (p, AtCapacity)
    else (p.(tickets := p.tickets - {ticket}), NotRefused)
  }

  /** The second section, still on the clock reading of the first. */
  function Open(t: Tables, session: string, csrf: string, now: int): (Tables, Refusal) {
    var p := Pruned(t, now);
    if |p.sessions| >= MAX_SESSIONS then (p, AtCapacity)
    else (p.(sessions := p.sessions[session := Session(csrf, now, now + SESSION_TTL)]), NotRefused)
  }

  /** Looking a session up, to authenticate or to check a CSRF token. */
  function Look(t: Tables, session: string, now: int): (Tables, Option<Session>) {
    var p := Pruned(t, now);
    (p, if session in p.sessions && now < p.sessions[session].expiresAt then Some(p.sessions[session]) else None)
  }

  function Rotate(t: Tables, session: string, csrf: string, now: int): (Tables, Refusal) {
    var p := Pruned(t, now);
    if session !in p.sessions || p.sessions[session].expiresAt <= now then (p, Invalid)
    else (p.(sessions := p.sessions[session := p.sessions[session].(csrf := csrf)]), NotRefused)
  }

  // ---------------------------------------------------------------- every interleaving

  /** An exchange between its two sections. */
  datatype Flight = Flight(ticket: string, now: int)

  /** The tables, with a record of what happened: tickets issued and when they run out,
      exchanges between their sections, and which exchange each session came from. */
  datatype State = State(
    tables: Tables, issued: map<string, int>, flights: map<nat, Flight>, origin: map<string, Flight>)

  datatype Step =
    | IssueStep(ticket: string, now: int)
    | RedeemStep(ref: nat, ticket: string, now: int)
    | OpenStep(ref: nat, session: string, csrf: string)
    | AbandonStep(ref: nat) // drawing a token failed
    | LookStep(session: string, now: int)
    | RotateStep(session: string, csrf: string, now: int)

  /** Tokens are new, and an exchange has its first section before its second. */
  predicate Possible(s: State, step: Step) {
    match step
    case IssueStep(ticket, now) => ticket !in s.issued
    case RedeemStep(ref, ticket, now) => ref !in s.flights
    case OpenStep(ref, session, csrf) => ref in s.flights && session !in s.origin
    case AbandonStep(ref) => ref in s.flights
    case _ => true
  }

  function Next(s: State, step: Step): State
    requires Possible(s, step)
  {
    match step
    case IssueStep(ticket, now) =>
      var (t, refusal) := Issue(s.tables, ticket, now);
      s.(tables := t, issued := if refusal.NotRefused? then s.issued[ticket := now + TICKET_TTL] else s.issued)
    case RedeemStep(ref, ticket, now) =>
      var (t, refusal) := Redeem(s.tables, ticket, now);
      s.(tables := t, flights := if refusal.NotRefused? then s.flights[ref := Flight(ticket, now)] else s.flights)
    case OpenStep(ref, session, csrf) =>
      var flight := s.flights[ref];
      var (t, refusal) := Open(s.tables, session, csrf, flight.now);
      s.(tables := t, flights := s.flights - {ref},
         origin := if refusal.NotRefused? then s.origin[session := flight] else s.origin)
    case AbandonStep(ref) => s.(flights := s.flights - {ref})
    case LookStep(session, now) => s.(tables := Look(s.tables, session, now).0)
    case RotateStep(session, csrf, now) => s.(tables := Rotate(s.tables, session, csrf, now).0)
  }

  predicate PossibleRun(s: State, steps: seq<Step>)
    decreases |steps|
  {
    steps == [] || (Possible(s, steps[0]) && PossibleRun(Next(s, steps[0]), steps[1..]))
  }

  function Run(s: State, steps: seq<Step>): State
    requires PossibleRun(s, steps)
    decreases |steps|
  {
    if steps == [] then s else Run(Next(s, steps[0]), steps[1..])
  }

  const START := State(Tables(map[], map[]), map[], map[], map[])

  ghost predicate Bounded(t: Tables) { |t.tickets| <= MAX_TICKETS && |t.sessions| <= MAX_SESSIONS }

  /** The flight used up a ticket that was issued, had not run out, and is gone. */
  ghost predicate Paid(s: State, f: Flight) {
    f.ticket in s.issued && f.now < s.issued[f.ticket] && f.ticket !in s.tables.tickets
  }

  predicate TicketRecorded(s: State, d: string) {
    d in s.tables.tickets ==> d in s.issued && s.tables.tickets[d].expiresAt == s.issued[d]
  }

  predicate SessionRecorded(s: State, d: string) {
    d in s.tables.sessions ==> d in s.origin && s.tables.sessions[d].expiresAt == s.origin[d].now + SESSION_TTL
  }

  ghost predicate TablesRecorded(s: State) {
    && (forall d {:trigger TicketRecorded(s, d)} :: TicketRecorded(s, d))
    && (forall d {:trigger SessionRecorded(s, d)} :: SessionRecorded(s, d))
  }

  /** Session `d` was opened by an exchange of ticket `k`. */
  predicate OpenedOn(s: State, d: string, k: string) { d in s.origin && s.origin[d].ticket == k }

  /** Exchange `r` of ticket `k` is between its sections. */
  predicate FlyingOn(s: State, r: nat, k: string) { r in s.flights && s.flights[r].ticket == k }

  /** No ticket pays twice: sessions ever opened and exchanges under way use different ones. */
  ghost predicate PaidApart(s: State) {
    && (forall d, k {:trigger OpenedOn(s, d, k)} | OpenedOn(s, d, k) :: Paid(s, s.origin[d]))
    && (forall r, k {:trigger FlyingOn(s, r, k)} | FlyingOn(s, r, k) :: Paid(s, s.flights[r]))
    && (forall d, e, k {:trigger OpenedOn(s, d, k), OpenedOn(s, e, k)} |
          OpenedOn(s, d, k) && OpenedOn(s, e, k) :: d == e)
    && (forall r, q, k {:trigger FlyingOn(s, r, k), FlyingOn(s, q, k)} |
          FlyingOn(s, r, k) && FlyingOn(s, q, k) :: r == q)
    && (forall d, r, k {:trigger OpenedOn(s, d, k), FlyingOn(s, r, k)} :: !(OpenedOn(s, d, k) && FlyingOn(s, r, k)))
  }

  ghost predicate Sound(s: State) { Bounded(s.tables) && TablesRecorded(s) && PaidApart(s) }

  lemma PrunedIsBounded(t: Tables, now: int)
    requires Bounded(t)
    ensures Bounded(Pruned(t, now))
  {
    SubsetSize(Pruned(t, now).tickets.Keys, t.tickets.Keys);
    SubsetSize(Pruned(t, now).sessions.Keys, t.sessions.Keys);
  }

  /** Payment stands as long as no used ticket reappears. */
  lemma ApartFrame(s: State, t: State)
    requires PaidApart(s) && t.flights == s.flights && t.origin == s.origin
    requires forall k | k in s.issued :: k in t.issued && t.issued[k] == s.issued[k]
    requires forall k | k in t.tables.tickets :: k in s.tables.tickets || k !in s.issued
    ensures PaidApart(t)
  {
    forall d, k ensures OpenedOn(t, d, k) <==> OpenedOn(s, d, k) { }
    forall r, k ensures FlyingOn(t, r, k) <==> FlyingOn(s, r, k) { }
  }

  lemma ApartRedeem(s: State, t: State, ref: nat, f: Flight)
    requires PaidApart(s) && ref !in s.flights && f.ticket in s.tables.tickets && f.ticket in s.issued
    requires f.now < s.issued[f.ticket]
    requires t.flights == s.flights[ref := f] && t.origin == s.origin && t.issued == s.issued
    requires t.tables.tickets == s.tables.tickets - {f.ticket}
    ensures PaidApart(t)
  {
    forall d, k ensures OpenedOn(t, d, k) <==> OpenedOn(s, d, k) { }
    forall r, k ensures FlyingOn(t, r, k) <==> FlyingOn(s, r, k) || (r == ref && k == f.ticket) { }
  }

  lemma ApartOpen(s: State, t: State, ref: nat, session: string)
    requires PaidApart(s) && ref in s.flights && session !in s.origin
    requires t.flights == s.flights - {ref} && t.issued == s.issued && t.tables.tickets == s.tables.tickets
    requires t.origin == s.origin[session := s.flights[ref]]
    ensures PaidApart(t)
  {
    var ticket := s.flights[ref].ticket;
    assert FlyingOn(s, ref, ticket);
    forall d, k ensures OpenedOn(t, d, k) <==> OpenedOn(s, d, k) || (d == session && k == ticket) { }
    forall r, k ensures FlyingOn(t, r, k) <==> FlyingOn(s, r, k) && r != ref { }
  }

  lemma ApartLanded(s: State, t: State, ref: nat)
    requires PaidApart(s) && t.flights == s.flights - {ref} && t.origin == s.origin && t.issued == s.issued
    requires t.tables.tickets == s.tables.tickets
    ensures PaidApart(t)
  {
    forall d, k ensures OpenedOn(t, d, k) <==> OpenedOn(s, d, k) { }
    forall r, k ensures FlyingOn(t, r, k) <==> FlyingOn(s, r, k) && r != ref { }
  }

  lemma PruneKeeps(s: State, now: int)
    requires Sound(s)
    ensures Sound(s.(tables := Pruned(s.tables, now)))
  {
    var t := s.(tables := Pruned(s.tables, now));
    PrunedIsBounded(s.tables, now);
    forall d ensures TicketRecorded(t, d) { assert TicketRecorded(s, d); }
    forall d ensures SessionRecorded(t, d) { assert SessionRecorded(s, d); }
    ApartFrame(s, t);
  }

  lemma PutTicket(s: State, t: State, ticket: string, now: int)
    requires Sound(s) && ticket !in s.issued && |s.tables.tickets| < MAX_TICKETS
    requires t == s.(tables := s.tables.(tickets := s.tables.tickets[ticket := Ticket(now, now + TICKET_TTL)]),
                     issued := s.issued[ticket := now + TICKET_TTL])
    ensures Sound(t)
  {
    assert t.tables.tickets.Keys == s.tables.tickets.Keys + {ticket};
    forall d ensures TicketRecorded(t, d) { assert TicketRecorded(s, d); }
    forall d ensures SessionRecorded(t, d) { assert SessionRecorded(s, d); }
    ApartFrame(s, t);
  }

  lemma {:induction false} TakeTicket(s: State, t: State, ref: nat, ticket: string, now: int)
    requires Sound(s) && ref !in s.flights && ticket in s.tables.tickets && now < s.tables.tickets[ticket].expiresAt
    requires t == s.(tables := s.tables.(tickets := s.tables.tickets - {ticket}),
                     flights := s.flights[ref := Flight(ticket, now)])
    ensures Sound(t)
  {
    SubsetSize(t.tables.tickets.Keys, s.tables.tickets.Keys);
    assert TicketRecorded(s, ticket);
    forall d ensures TicketRecorded(t, d) { assert TicketRecorded(s, d); }
    forall d ensures SessionRecorded(t, d) { assert SessionRecorded(s, d); }
    ApartRedeem(s, t, ref, Flight(ticket, now));
  }

  lemma PutSession(s: State, t: State, ref: nat, session: string, csrf: string)
    requires Sound(s) && ref in s.flights && session !in s.origin && |s.tables.sessions| < MAX_SESSIONS
    requires var f := s.flights[ref];
             var grown := s.tables.sessions[session := Session(csrf, f.now, f.now + SESSION_TTL)];
             t == s.(tables := s.tables.(sessions := grown),
                     flights := s.flights - {ref}, origin := s.origin[session := f])
    ensures Sound(t)
  {
    assert t.tables.sessions.Keys == s.tables.sessions.Keys + {session};
    forall d ensures TicketRecorded(t, d) { assert TicketRecorded(s, d); }
    forall d ensures SessionRecorded(t, d) { assert SessionRecorded(s, d); }
    ApartOpen(s, t, ref, session);
  }

  lemma Land(s: State, t: State, ref: nat)
    requires Sound(s) && t == s.(flights := s.flights - {ref})
    ensures Sound(t)
  {
    forall d ensures TicketRecorded(t, d) { assert TicketRecorded(s, d); }
    forall d ensures SessionRecorded(t, d) { assert SessionRecorded(s, d); }
    ApartLanded(s, t, ref);
  }

  lemma SetCSRF(s: State, t: State, session: string, csrf: string)
    requires Sound(s) && session in s.tables.sessions
    requires var rotated := s.tables.sessions[session := s.tables.sessions[session].(csrf := csrf)];
             t == s.(tables := s.tables.(sessions := rotated))
    ensures Sound(t)
  {
    assert t.tables.sessions.Keys == s.tables.sessions.Keys;
    forall d ensures TicketRecorded(t, d) { assert TicketRecorded(s, d); }
    forall d ensures SessionRecorded(t, d) { assert SessionRecorded(s, d); }
    ApartFrame(s, t);
  }

  lemma IssueKeeps(s: State, ticket: string, now: int)
    requires Sound(s) && ticket !in s.issued
    ensures Sound(Next(s, IssueStep(ticket, now)))
  {
    var p := s.(tables := Pruned(s.tables, now));
    PruneKeeps(s, now);
    if |p.tables.tickets| < MAX_TICKETS { PutTicket(p, Next(s, IssueStep(ticket, now)), ticket, now); }
  }

  lemma RedeemKeeps(s: State, ref: nat, ticket: string, now: int)
    requires Sound(s) && ref !in s.flights
    ensures Sound(Next(s, RedeemStep(ref, ticket, now)))
  {
    var p := s.(tables := Pruned(s.tables, now));
    PruneKeeps(s, now);
    if ticket in p.tables.tickets && |p.tables.sessions| < MAX_SESSIONS {
      TakeTicket(p, Next(s, RedeemStep(ref, ticket, now)), ref, ticket, now);
    }
  }

  lemma OpenKeeps(s: State, ref: nat, session: string, csrf: string)
    requires Sound(s) && ref in s.flights && session !in s.origin
    ensures Sound(Next(s, OpenStep(ref, session, csrf)))
  {
    var p, t := s.(tables := Pruned(s.tables, s.flights[ref].now)), Next(s, OpenStep(ref, session, csrf));
    PruneKeeps(s, s.flights[ref].now);
    if |p.tables.sessions| < MAX_SESSIONS { PutSession(p, t, ref, session, csrf); } else { Land(p, t, ref); }
  }

  lemma RotateKeeps(s: State, session: string, csrf: string, now: int)
    requires Sound(s)
    ensures Sound(Next(s, RotateStep(session, csrf, now)))
  {
    var p := s.(tables := Pruned(s.tables, now));
    PruneKeeps(s, now);
    if session in p.tables.sessions { SetCSRF(p, Next(s, RotateStep(session, csrf, now)), session, csrf); }
  }

  lemma NextKeeps(s: State, step: Step)
    requires Sound(s) && Possible(s, step)
    ensures Sound(Next(s, step))
  {
    match step
    case IssueStep(ticket, now) => IssueKeeps(s, ticket, now);
    case RedeemStep(ref, ticket, now) => RedeemKeeps(s, ref, ticket, now);
    case OpenStep(ref, session, csrf) => OpenKeeps(s, ref, session, csrf);
    case AbandonStep(ref) => Land(s, Next(s, step), ref);
    case LookStep(session, now) => PruneKeeps(s, now);
    case RotateStep(session, csrf, now) => RotateKeeps(s, session, csrf, now);
  }

  /** In every interleaving: at most 16 tickets and 8 sessions, and every session ever opened
      was paid for by a ticket of its own that was issued, unexpired, and is gone. */
  lemma {:induction false} RunKeeps(s: State, steps: seq<Step>)
    requires Sound(s) && PossibleRun(s, steps)
    ensures Sound(Run(s, steps))
    decreases |steps|
  {
    if steps != [] {
      NextKeeps(s, steps[0]);
      RunKeeps(Next(s, steps[0]), steps[1..]);
    }
  }

  lemma {:induction false} OneTicketEach(sessions: set<string>, origin: map<string, Flight>)
    requires forall d | d in sessions :: d in origin
    requires forall d, e | d in origin && e in origin && origin[d].ticket == origin[e].ticket :: d == e
    ensures |sessions| == |set d | d in sessions :: origin[d].ticket|
  {
    var tickets := set d | d in sessions :: origin[d].ticket;
    if sessions == {} {
      assert tickets == {};
    } else {
      var d :| d in sessions;
      OneTicketEach(sessions - {d}, origin);
      assert tickets == (set e | e in sessions - {d} :: origin[e].ticket) + {origin[d].ticket};
    }
  }

  /** There are never more sessions than tickets issued. */
  lemma {:induction false} SessionsWithinTickets(steps: seq<Step>)
    requires PossibleRun(START, steps)
    ensures |Run(START, steps).origin| <= |Run(START, steps).issued|
  {
    RunKeeps(START, steps);
    var s := Run(START, steps);
    forall d, e | d in s.origin && e in s.origin && s.origin[d].ticket == s.origin[e].ticket ensures d == e {
      assert OpenedOn(s, d, s.origin[d].ticket) && OpenedOn(s, e, s.origin[d].ticket);
    }
    forall d | d in s.origin ensures s.origin[d].ticket in s.issued { assert OpenedOn(s, d, s.origin[d].ticket); }
    OneTicketEach(s.origin.Keys, s.origin);
    var tickets := set d | d in s.origin.Keys :: s.origin[d].ticket;
    SubsetSize(tickets, s.issued.Keys);
  }

  /** Whatever the interleaving, a session answers only to one that was opened, and only
      within eight hours of the exchange that opened it. */
  lemma {:induction false} LiveSessionWasOpened(steps: seq<Step>, session: string, now: int)
    requires PossibleRun(START, steps)
    requires Look(Run(START, steps).tables, session, now).1.Some?
    ensures var s := Run(START, steps);
            session in s.origin && now < s.origin[session].now + SESSION_TTL
  {
    RunKeeps(START, steps);
    assert SessionRecorded(Run(START, steps), session);
  }

  lemma GoneNext(s: State, step: Step, ticket: string)
    requires Possible(s, step) && ticket in s.issued && ticket !in s.tables.tickets
    ensures ticket in Next(s, step).issued && ticket !in Next(s, step).tables.tickets
  {
  }

  /** A ticket that has left the table never comes back to it. */
  lemma {:induction false} GoneForever(s: State, steps: seq<Step>, ticket: string)
    requires PossibleRun(s, steps) && ticket in s.issued && ticket !in s.tables.tickets
    ensures ticket !in Run(s, steps).tables.tickets
    decreases |steps|
  {
    if steps != [] {
      GoneNext(s, steps[0], ticket);
      GoneForever(Next(s, steps[0]), steps[1..], ticket);
    }
  }

  /** A ticket that has been redeemed is never accepted again, in any later state: whether its
      exchange opened a session, was abandoned, was refused for want of room or is still under
      way. */
  lemma {:induction false} UsedTicketIsRefused(before: seq<Step>, ref: nat, ticket: string, now: int, after: seq<Step>,
                                               later: int)
    requires PossibleRun(START, before) && ref !in Run(START, before).flights
    requires Redeem(Run(START, before).tables, ticket, now).1.NotRefused?
    requires PossibleRun(Next(Run(START, before), RedeemStep(ref, ticket, now)), after)
    ensures Redeem(Run(Next(Run(START, before), RedeemStep(ref, ticket, now)), after).tables, ticket, later).1
        == Invalid
  {
    var s := Run(START, before);
    RunKeeps(START, before);
    assert TicketRecorded(s, ticket);
    GoneForever(Next(s, RedeemStep(ref, ticket, now)), after, ticket);
  }

  // ---------------------------------------------------------------- the manager

  /** The pruning loops delete in any order. */
  method PruneTickets(tickets: map<string, Ticket>, now: int) returns (kept: map<string, Ticket>)
    ensures kept == map d | d in tickets && now < tickets[d].expiresAt :: tickets[d]
  {
    kept := tickets;
    var pending := tickets.Keys;
    while pending != {}
      invariant pending <= tickets.Keys
      invariant kept == map d | d in tickets && (d in pending || now < tickets[d].expiresAt) :: tickets[d]
      decreases |pending|
    {
      var d :| d in pending;
      pending := pending - {d};
      if tickets[d].expiresAt <= now { kept := kept - {d}; }
    }
  }

  method PruneSessions(sessions: map<string, Session>, now: int) returns (kept: map<string, Session>)
    ensures kept == map d | d in sessions && now < sessions[d].expiresAt :: sessions[d]
  {
    kept := sessions;
    var pending := sessions.Keys;
    while pending != {}
      invariant pending <= sessions.Keys
      invariant kept == map d | d in sessions && (d in pending || now < sessions[d].expiresAt) :: sessions[d]
      decreases |pending|
    {
      var d :| d in pending;
      pending := pending - {d};
      if sessions[d].expiresAt <= now { kept := kept - {d}; }
    }
  }

  class BrowserSessionManager {
    var tickets: map<string, Ticket>
    var sessions: map<string, Session>

    constructor ()
      ensures Now() == START.tables
    {
      tickets, sessions := map[], map[];
    }

    ghost function Now(): Tables reads this { Tables(tickets, sessions) }

    method Prune(now: int)
      modifies this
      ensures Now() == Pruned(old(Now()), now)
    {
      tickets := PruneTickets(tickets, now);
      sessions := PruneSessions(sessions, now);
    }

    method IssueTicket(ticket: string, now: int) returns (refusal: Refusal)
      modifies this
      ensures (Now(), refusal) == Issue(old(Now()), ticket, now)
    {
      Prune(now);
      if |tickets| >= MAX_TICKETS { return AtCapacity; }
      tickets := tickets[ticket := Ticket(now, now + TICKET_TTL)];
      refusal := NotRefused;
    }

    method RedeemTicket(ticket: string, now: int) returns (refusal: Refusal)
      modifies this
      ensures (Now(), refusal) == Redeem(old(Now()), ticket, now)
    {
      Prune(now);
      if ticket !in tickets || tickets[ticket].expiresAt <= now { return Invalid; }
      if |sessions| >= MAX_SESSIONS { return AtCapacity; }
      tickets := tickets - {ticket};
      refusal := NotRefused;
    }

    method OpenSession(session: string, csrf: string, now: int) returns (refusal: Refusal)
      modifies this
      ensures (Now(), refusal) == Open(old(Now()), session, csrf, now)
    {
      Prune(now);
      if |sessions| >= MAX_SESSIONS { return AtCapacity; }
      sessions := sessions[session := Session(csrf, now, now + SESSION_TTL)];
      refusal := NotRefused;
    }

    method FindSession(session: string, now: int) returns (found: Option<Session>)
      modifies this
      ensures (Now(), found) == Look(old(Now()), session, now)
    {
      Prune(now);
      if session !in sessions || sessions[session].expiresAt <= now { return None; }
      found := Some(sessions[session]);
    }

    method RotateCSRF(session: string, csrf: string, now: int) returns (refusal: Refusal)
      modifies this
      ensures (Now(), refusal) == Rotate(old(Now()), session, csrf, now)
    {
      Prune(now);
      if session !in sessions || sessions[session].expiresAt <= now { return Invalid; }
      sessions := sessions[session := sessions[session].(csrf := csrf)];
      refusal := NotRefused;
    }
  }
}

/** Cast leases: bounded tables of stream tickets, and connection guards that may outlive their lease. */
module CastLeases {
  import opened Prelude

  const LEASE_MS: int := 86400000
  const MAX_PER_SESSION: nat := 8
  const MAX_LEASES: nat := 4096
  const MAX_CONNECTIONS: nat := 4

  type Token = string

  datatype Lease = Lease(session: string, track: string, expiresAt: int, active: nat)

  datatype Failure = Validation | Unauthorized | Forbidden | RateLimited

  datatype Result<+T> = Ok(value: T) | Err(failure: Failure)

  /** `guards` are the live connection guards with the ticket each was given for; `issued` remembers
      every ticket ever made, because a new one is fresh. */
  datatype State = State(leases: map<Token, Lease>, guards: map<nat, Token>, issued: set<Token>)

  datatype Event =
    | CreateTicket(session: string, track: string, acceptable: bool, token: Token, now: int)
    | Revoke(token: Token, wellFormed: bool, session: string)
    | Acquire(token: Token, wellFormed: bool, guardId: nat, now: int)
    | DropGuard(guardId: nat)
    | RevokeAll

  function Live(leases: map<Token, Lease>, now: int): map<Token, Lease> {
    map k | k in leases && leases[k].expiresAt > now :: leases[k]
  }

  function OfSession(leases: map<Token, Lease>, session: string): set<Token> {
    set k | k in leases && leases[k].session == session
  }

  function GuardsOf(guards: map<nat, Token>, token: Token): set<nat> {
    set g | g in guards && guards[g] == token
  }

  function CreateStep(s: State, session: string, track: string, acceptable: bool, token: Token, now: int): (State, Result<Token>) {
    if !acceptable then (s, Err(Validation))
    else
      var live := Live(s.leases, now);
      if |OfSession(live, session)| >= MAX_PER_SESSION || |live| >= MAX_LEASES then (s.(leases := live), Err(RateLimited))
      else (State(live[token := Lease(session, track, now + LEASE_MS, 0)], s.guards, s.issued + {token}), Ok(token))
  }

  function RevokeStep(s: State, token: Token, wellFormed: bool, session: string): (State, Result<()>) {
    if !wellFormed then (s, Err(Validation))
    else if token in s.leases && s.leases[token].session != session then (s, Err(Forbidden))
    else (s.(leases := s.leases - {token}), Ok(()))
  }

  function AcquireStep(s: State, token: Token, wellFormed: bool, guardId: nat, now: int): (State, Result<Lease>) {
    if !wellFormed || token !in s.leases then (s, Err(Unauthorized))
    else if s.leases[token].expiresAt <= now then (s.(leases := s.leases - {token}), Err(Unauthorized))
    else if s.leases[token].active >= MAX_CONNECTIONS then (s, Err(RateLimited))
    else
      var lease := s.leases[token].(active := s.leases[token].active + 1);
      (s.(leases := s.leases[token := lease], guards := s.guards[guardId := token]), Ok(lease))
  }

  function DropStep(s: State, guardId: nat): State {
    if guardId !in s.guards then s
    else
      var token := s.guards[guardId];
      State(if token in s.leases then s.leases[token := s.leases[token].(active := SaturatingDec(s.leases[token].active))] else s.leases,
            s.guards - {guardId}, s.issued)
  }

  /** An event with a used ticket or guard name does not occur. */
  function Step(s: State, e: Event): State {
    match e
    case CreateTicket(session, track, acceptable, token, now) =>
      if token in s.issued then s else CreateStep(s, session, track, acceptable, token, now).0
    case Revoke(token, wellFormed, session) => RevokeStep(s, token, wellFormed, session).0
    case Acquire(token, wellFormed, guardId, now) =>
      if guardId in s.guards then s else AcquireStep(s, token, wellFormed, guardId, now).0
    case DropGuard(guardId) => DropStep(s, guardId)
    case RevokeAll => s.(leases := map[])
  }

  const START: State := State(map[], map[], {})

  function Run(events: seq<Event>): State {
    if events == [] then START else Step(Run(events[..|events| - 1]), events[|events| - 1])
  }

  // ---------------------------------------------------------------- what every run keeps

  /** Every lease counts its live guards; no ticket comes back. */
  ghost predicate Counted(s: State) {
    && s.leases.Keys <= s.issued
    && (forall g :: g in s.guards ==> s.guards[g] in s.issued)
    && (forall k :: k in s.leases ==> s.leases[k].active == |GuardsOf(s.guards, k)| <= MAX_CONNECTIONS)
  }

  ghost predicate Bounded(leases: map<Token, Lease>) {
    && |leases| <= MAX_LEASES
    && (forall session :: |OfSession(leases, session)| <= MAX_PER_SESSION)
  }

  /** A table whose leases are among those of another, with the same sessions, is as small. */
  lemma FewerLeases(a: map<Token, Lease>, b: map<Token, Lease>)
    requires Bounded(a) && b.Keys <= a.Keys && forall k :: k in b ==> b[k].session == a[k].session
    ensures Bounded(b)
  {
    SubsetSize(b.Keys, a.Keys);
    forall session ensures |OfSession(b, session)| <= MAX_PER_SESSION {
      SubsetSize(OfSession(b, session), OfSession(a, session));
    }
  }

  lemma SessionGrows(live: map<Token, Lease>, token: Token, lease: Lease, session: string)
    requires token !in live
    ensures |OfSession(live[token := lease], session)| == |OfSession(live, session)| + (if session == lease.session then 1 else 0)
  {
    if session == lease.session {
      assert OfSession(live[token := lease], session) == OfSession(live, session) + {token};
    } else {
      assert OfSession(live[token := lease], session) == OfSession(live, session);
    }
  }

  lemma CreateBounded(live: map<Token, Lease>, token: Token, lease: Lease)
    requires Bounded(live) && token !in live && |live| < MAX_LEASES && |OfSession(live, lease.session)| < MAX_PER_SESSION
    ensures Bounded(live[token := lease])
  {
    var more := live[token := lease];
    assert more.Keys == live.Keys + {token};
    forall session ensures |OfSession(more, session)| <= MAX_PER_SESSION {
      SessionGrows(live, token, lease, session);
      hide OfSession;
    }
  }

  lemma GuardAdded(guards: map<nat, Token>, g: nat, token: Token, k: Token)
    requires g !in guards
    ensures |GuardsOf(guards[g := token], k)| == |GuardsOf(guards, k)| + (if k == token then 1 else 0)
  {
    if k == token {
      assert GuardsOf(guards[g := token], k) == GuardsOf(guards, k) + {g};
    } else {
      assert GuardsOf(guards[g := token], k) == GuardsOf(guards, k);
    }
  }

  lemma GuardRemoved(guards: map<nat, Token>, g: nat, k: Token)
    requires g in guards
    ensures |GuardsOf(guards - {g}, k)| == |GuardsOf(guards, k)| - (if k == guards[g] then 1 else 0)
  {
    if k == guards[g] {
      assert g in GuardsOf(guards, k);
      assert GuardsOf(guards - {g}, k) == GuardsOf(guards, k) - {g};
    } else {
      assert GuardsOf(guards - {g}, k) == GuardsOf(guards, k);
    }
  }

  lemma CreateCounted(s: State, session: string, track: string, acceptable: bool, token: Token, now: int)
    requires Counted(s) && token !in s.issued
    ensures Counted(CreateStep(s, session, track, acceptable, token, now).0)
  {
    assert GuardsOf(s.guards, token) == {};
    hide GuardsOf;
  }

  lemma AcquireCounted(s: State, token: Token, wellFormed: bool, guardId: nat, now: int)
    requires Counted(s) && guardId !in s.guards
    ensures Counted(AcquireStep(s, token, wellFormed, guardId, now).0)
  {
    forall k ensures
      |GuardsOf(s.guards[guardId := token], k)| == |GuardsOf(s.guards, k)| + (if k == token then 1 else 0) {
      GuardAdded(s.guards, guardId, token, k);
    }
    hide GuardsOf;
  }

  lemma DropCounted(s: State, guardId: nat)
    requires Counted(s) && guardId in s.guards
    ensures Counted(DropStep(s, guardId))
  {
    forall k ensures
      |GuardsOf(s.guards - {guardId}, k)| == |GuardsOf(s.guards, k)| - (if k == s.guards[guardId] then 1 else 0) {
      GuardRemoved(s.guards, guardId, k);
    }
    hide GuardsOf;
  }

  lemma StepCounted(s: State, e: Event)
    requires Counted(s)
    ensures Counted(Step(s, e))
  {
    match e {
      case CreateTicket(session, track, acceptable, token, now) =>
        if token !in s.issued {
          CreateCounted(s, session, track, acceptable, token, now);
        }
        hide Counted, CreateStep;
      case Acquire(token, wellFormed, guardId, now) =>
        if guardId !in s.guards {
          AcquireCounted(s, token, wellFormed, guardId, now);
        }
        hide Counted, AcquireStep;
      case DropGuard(guardId) =>
        if guardId in s.guards {
          DropCounted(s, guardId);
          hide Counted, DropStep;
        }
      case _ =>
        hide GuardsOf;
    }
  }

  /** Only a new ticket adds a lease; none changes its session. */
  lemma StepShrinks(s: State, e: Event)
    requires !e.CreateTicket?
    ensures var leases := Step(s, e).leases;
            leases.Keys <= s.leases.Keys && forall k :: k in leases ==> leases[k].session == s.leases[k].session
  {
  }

  lemma StepBounded(s: State, e: Event)
    requires Counted(s) && Bounded(s.leases)
    ensures Bounded(Step(s, e).leases)
  {
    if e.CreateTicket? {
      if e.token !in s.issued && e.acceptable {
        var live := Live(s.leases, e.now);
        FewerLeases(s.leases, live);
        assert e.token !in live;
        hide Bounded, OfSession, Live;
        if |OfSession(live, e.session)| < MAX_PER_SESSION && |live| < MAX_LEASES {
          CreateBounded(live, e.token, Lease(e.session, e.track, e.now + LEASE_MS, 0));
        }
      }
    } else {
      StepShrinks(s, e);
      FewerLeases(s.leases, Step(s, e).leases);
      hide Bounded, Step;
    }
  }

  lemma {:induction false} RunInv(events: seq<Event>)
    ensures Counted(Run(events)) && Bounded(Run(events).leases)
  {
    hide Counted, Bounded, Step;
    if events == [] {
      StartOk();
    } else {
      RunInv(events[..|events| - 1]);
      StepCounted(Run(events[..|events| - 1]), events[|events| - 1]);
      StepBounded(Run(events[..|events| - 1]), events[|events| - 1]);
    }
  }

  lemma StartOk()
    ensures Counted(START) && Bounded(START.leases)
  {
    forall session ensures OfSession(START.leases, session) == {} {
    }
  }

  /** In every run, every lease counts exactly its live guards, and the three limits hold. */
  lemma LeasesCountGuards(events: seq<Event>, token: Token, session: string)
    ensures var s := Run(events);
            && (token in s.leases ==> s.leases[token].active == |GuardsOf(s.guards, token)| <= MAX_CONNECTIONS)
            && |OfSession(s.leases, session)| <= MAX_PER_SESSION
            && |s.leases| <= MAX_LEASES
  {
    RunInv(events);
  }

  /** Dropping a guard never meets a counter of zero, takes one from its own lease if that is still
      there, and touches no other lease; a guard that outlived its lease changes none. */
  lemma DropIsExact(events: seq<Event>, guardId: nat)
    requires guardId in Run(events).guards
    ensures var s := Run(events);
            var token, after := s.guards[guardId], Step(s, DropGuard(guardId)).leases;
            && after.Keys == s.leases.Keys
            && (token in s.leases ==> s.leases[token].active > 0 && after[token].active == s.leases[token].active - 1)
            && (forall k :: k in s.leases && k != token ==> after[k] == s.leases[k])
            && (token !in s.leases ==> after == s.leases)
  {
    RunInv(events);
    var s := Run(events);
    assert guardId in GuardsOf(s.guards, s.guards[guardId]);
  }

  /** A ticket that was revoked stays revoked, whatever happens to the guards that outlive it. */
  lemma {:induction false} RevokedStaysRevoked(before: seq<Event>, after: seq<Event>, token: Token)
    requires token in Run(before).issued && token !in Run(before).leases
    ensures token !in Run(before + after).leases && token in Run(before + after).issued
  {
    if after == [] {
      assert before + after == before;
    } else {
      var n := |after| - 1;
      RevokedStaysRevoked(before, after[..n], token);
      assert (before + after)[..|before + after| - 1] == before + after[..n];
      StepKeepsGone(Run(before + after[..n]), after[n], token);
      hide Step;
    }
  }

  lemma StepKeepsGone(s: State, e: Event, token: Token)
    requires token in s.issued && token !in s.leases
    ensures token in Step(s, e).issued && token !in Step(s, e).leases
  {
    if !e.CreateTicket? {
      StepShrinks(s, e);
    }
  }

  // ---------------------------------------------------------------- how long a ticket lasts

  /** The tickets that have not expired at `now`, and those of one session among them. */
  function Unexpired(s: State, now: int): set<Token> {
    set k | k in s.leases && now < s.leases[k].expiresAt
  }

  function UnexpiredOf(s: State, session: string, now: int): set<Token> {
    set k | k in Unexpired(s, now) && s.leases[k].session == session
  }

  /** The event makes the ticket: the request is acceptable, and there is room beside the unexpired
      tickets of the session and of everybody. */
  predicate Makes(s: State, e: Event, k: Token) {
    && e.CreateTicket? && e.token == k && k !in s.issued && e.acceptable
    && |UnexpiredOf(s, e.session, e.now)| < 8 && |Unexpired(s, e.now)| < 4096
  }

  /** The event ends the ticket: its own session or the administrator revokes it, or it has expired when
      it is used or when an acceptable ticket is asked for. */
  predicate Ends(s: State, e: Event, k: Token)
    requires k in s.leases
  {
    match e
    case CreateTicket(_, _, acceptable, token, now) => acceptable && token !in s.issued && s.leases[k].expiresAt <= now
    case Revoke(token, wellFormed, session) => wellFormed && token == k && session == s.leases[k].session
    case Acquire(token, wellFormed, guardId, now) => wellFormed && token == k && guardId !in s.guards && s.leases[k].expiresAt <= now
    case DropGuard(_) => false
    case RevokeAll => true
  }

  /** A lease is there after an event exactly when the event made it or did not end it. */
  lemma LeaseAfter(s: State, e: Event, k: Token)
    requires s.leases.Keys <= s.issued
    ensures var s' := Step(s, e);
            && (k in s'.leases <==> Makes(s, e, k) || (k in s.leases && !Ends(s, e, k)))
            && (k in s.leases && k in s'.leases ==>
                  && s'.leases[k].session == s.leases[k].session && s'.leases[k].track == s.leases[k].track
                  && s'.leases[k].expiresAt == s.leases[k].expiresAt)
            && (Makes(s, e, k) ==> s'.leases[k] == Lease(e.session, e.track, e.now + 24 * 60 * 60 * 1000, 0))
            && s'.leases.Keys <= s'.issued
  {
    if e.CreateTicket? {
      assert Live(s.leases, e.now).Keys == Unexpired(s, e.now);
      assert OfSession(Live(s.leases, e.now), e.session) == UnexpiredOf(s, e.session, e.now);
    }
  }

  /** Event `i` of the run made the ticket, and none of the later ones ended it. */
  ghost predicate LivesSince(events: seq<Event>, i: int, k: Token) {
    && 0 <= i < |events| && Makes(Run(events[..i]), events[i], k)
    && forall j :: i < j < |events| ==> k in Run(events[..j]).leases && !Ends(Run(events[..j]), events[j], k)
  }

  /** In every run, the tickets with a lease are those that some event made and no later event ended; a
      lease is for the session and the track of that event and lasts for a day from it. */
  lemma {:induction false} LeaseHistory(events: seq<Event>, k: Token)
    ensures Run(events).leases.Keys <= Run(events).issued
    ensures k in Run(events).leases <==> exists i :: LivesSince(events, i, k)
    ensures forall i :: LivesSince(events, i, k) && k in Run(events).leases ==>
              && Run(events).leases[k].session == events[i].session && Run(events).leases[k].track == events[i].track
              && Run(events).leases[k].expiresAt == events[i].now + 24 * 60 * 60 * 1000
  {
    hide Step, Makes, Ends;
    if events != [] {
      var n := |events| - 1;
      LeaseHistory(events[..n], k);
      LeaseAfter(Run(events[..n]), events[n], k);
      MadeOnce(Run(events[..n]), events[n], k);
      forall i ensures LivesSince(events, i, k) <==>
        (i == n && Makes(Run(events[..n]), events[n], k))
        || (LivesSince(events[..n], i, k) && k in Run(events[..n]).leases && !Ends(Run(events[..n]), events[n], k))
      {
        LivesNext(events, i, k);
      }
      if Makes(Run(events[..n]), events[n], k) {
        assert LivesSince(events, n, k);
      } else if k in Run(events).leases {
        var i :| LivesSince(events[..n], i, k);
        assert LivesSince(events, i, k);
      }
    }
  }

  lemma MadeOnce(s: State, e: Event, k: Token)
    requires s.leases.Keys <= s.issued
    ensures Makes(s, e, k) ==> e.CreateTicket? && k !in s.leases
  {
  }

  lemma LivesNext(events: seq<Event>, i: int, k: Token)
    requires events != []
    ensures var n := |events| - 1;
            LivesSince(events, i, k) <==>
            (i == n && Makes(Run(events[..n]), events[n], k))
            || (LivesSince(events[..n], i, k) && k in Run(events[..n]).leases && !Ends(Run(events[..n]), events[n], k))
  {
    hide Run, Makes, Ends;
    var n := |events| - 1;
    forall j | 0 <= j < n ensures events[..n][..j] == events[..j] && events[..n][j] == events[j] {
    }
  }

  /** A stream is let in exactly when the ticket has a lease that has not expired and fewer than four
      streams are open on it; the answer tells a limit from a ticket that is no good. */
  lemma StreamAnswers(events: seq<Event>, token: Token, wellFormed: bool, guardId: nat, now: int)
    requires guardId !in Run(events).guards
    ensures var s, (after, r) := Run(events), AcquireStep(Run(events), token, wellFormed, guardId, now);
            var good := wellFormed && token in Unexpired(s, now);
            && (r.Ok? <==> good && |GuardsOf(s.guards, token)| < 4)
            && (r == Err(RateLimited) <==> good && |GuardsOf(s.guards, token)| == 4)
            && (r == Err(Unauthorized) <==> !good)
            && (r.Ok? ==> r.value.session == s.leases[token].session && r.value.track == s.leases[token].track
                          && after.guards == s.guards[guardId := token])
            && (!r.Ok? ==> after.guards == s.guards)
  {
    RunInv(events);
    hide GuardsOf;
  }

  /** A session may revoke its own tickets and those that are gone already, and is told so; those of
      another session stay. */
  lemma RevokeAnswers(s: State, token: Token, wellFormed: bool, session: string)
    ensures var (after, r) := RevokeStep(s, token, wellFormed, session);
            && (r == Err(Validation) <==> !wellFormed)
            && (r == Err(Forbidden) <==> wellFormed && exists k :: k in s.leases && k == token && s.leases[k].session != session)
            && (r.Ok? ==> token !in after.leases) && (!r.Ok? ==> after == s)
            && after.guards == s.guards && after.issued == s.issued
  {
  }

  /** A ticket is refused for its request, or for want of room; then no ticket is made. */
  lemma CreateAnswers(s: State, e: Event)
    requires e.CreateTicket? && e.token !in s.issued && s.leases.Keys <= s.issued
    ensures var (after, r) := CreateStep(s, e.session, e.track, e.acceptable, e.token, e.now);
            && (r == Ok(e.token) <==> Makes(s, e, e.token)) && (r == Err(Validation) <==> !e.acceptable)
            && (r.Err? <==> e.token !in after.issued) && after.guards == s.guards && (r == Err(Validation) || r == Err(RateLimited) || r.Ok?)
  {
    assert Live(s.leases, e.now).Keys == Unexpired(s, e.now);
    assert OfSession(Live(s.leases, e.now), e.session) == UnexpiredOf(s, e.session, e.now);
  }

  // ---------------------------------------------------------------- the gateway as it runs

  class Gateway {
    var leases: map<Token, Lease>
    ghost var guards: map<nat, Token>
    ghost var issued: set<Token>

    ghost function View(): State
      reads this
    {
      State(leases, guards, issued)
    }

    ghost predicate Valid()
      reads this
    {
      Counted(View()) && Bounded(leases)
    }

    constructor ()
      ensures Valid() && View() == START
    {
      leases, guards, issued := map[], map[], {};
      new;
      StartOk();
    }

    method Create(session: string, track: string, acceptable: bool, token: Token, now: int) returns (r: Result<Token>)
      requires Valid() && token !in issued
      modifies this
      ensures Valid() && (View(), r) == CreateStep(old(View()), session, track, acceptable, token, now)
    {
      hide Counted, Bounded, GuardsOf, RevokeStep, AcquireStep, DropStep;
      StepCounted(View(), CreateTicket(session, track, acceptable, token, now));
      StepBounded(View(), CreateTicket(session, track, acceptable, token, now));
      if !acceptable {
        return Err(Validation);
      }
      leases := map k | k in leases && leases[k].expiresAt > now :: leases[k];
      var count := |set k | k in leases && leases[k].session == session|;
      if count >= MAX_PER_SESSION || |leases| >= MAX_LEASES {
        return Err(RateLimited);
      }
      leases := leases[token := Lease(session, track, now + LEASE_MS, 0)];
      issued := issued + {token};
      return Ok(token);
    }

    method RevokeTicket(token: Token, wellFormed: bool, session: string) returns (r: Result<()>)
      requires Valid()
      modifies this
      ensures Valid() && (View(), r) == RevokeStep(old(View()), token, wellFormed, session)
    {
      hide Counted, Bounded, GuardsOf, OfSession, Live, CreateStep, AcquireStep, DropStep;
      StepCounted(View(), Revoke(token, wellFormed, session));
      StepBounded(View(), Revoke(token, wellFormed, session));
      if !wellFormed {
        return Err(Validation);
      }
      if token in leases && leases[token].session != session {
        return Err(Forbidden);
      }
      leases := leases - {token};
      return Ok(());
    }

    method AcquireStream(token: Token, wellFormed: bool, ghost guardId: nat, now: int) returns (r: Result<Lease>)
      requires Valid() && guardId !in guards
      modifies this
      ensures Valid() && (View(), r) == AcquireStep(old(View()), token, wellFormed, guardId, now)
    {
      hide Counted, Bounded, GuardsOf, OfSession, Live, CreateStep, RevokeStep, DropStep;
      StepCounted(View(), Acquire(token, wellFormed, guardId, now));
      StepBounded(View(), Acquire(token, wellFormed, guardId, now));
      if !wellFormed || token !in leases {
        return Err(Unauthorized);
      }
      var lease := leases[token];
      if lease.expiresAt <= now {
        leases := leases - {token};
        return Err(Unauthorized);
      }
      if lease.active >= MAX_CONNECTIONS {
        return Err(RateLimited);
      }
      lease := lease.(active := lease.active + 1);
      leases := leases[token := lease];
      guards := guards[guardId := token];
      return Ok(lease);
    }

    /** The end of a guard, which knows its ticket. */
    method Drop(ghost guardId: nat, token: Token)
      requires Valid() && guardId in guards && guards[guardId] == token
      modifies this
      ensures Valid() && View() == DropStep(old(View()), guardId)
    {
      hide Counted, Bounded, GuardsOf, OfSession, Live, CreateStep, RevokeStep, AcquireStep;
      StepCounted(View(), DropGuard(guardId));
      StepBounded(View(), DropGuard(guardId));
      if token in leases {
        leases := leases[token := leases[token].(active := SaturatingDec(leases[token].active))];
      }
      guards := guards - {guardId};
    }

    method Clear()
      requires Valid()
      modifies this
      ensures Valid() && View() == Step(old(View()), RevokeAll)
    {
      hide Counted, Bounded, GuardsOf, OfSession, Live, CreateStep, RevokeStep, AcquireStep, DropStep;
      StepCounted(View(), RevokeAll);
      StepBounded(View(), RevokeAll);
      leases := map[];
    }
  }
}

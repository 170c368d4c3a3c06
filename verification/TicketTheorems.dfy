/** What a client of the motion controller may rely on, over every interleaving. */
module TicketTheorems {
  import opened Options
  import opened OrderedTickets
  import opened TicketProtocol
  import opened TicketInvariant
  import opened TicketRuns

  // ----- conservation -----------------------------------------------------------

  /** A ticket is pending exactly while its completion is unresolved; a pending
      ticket has exactly one holder, except between a fault and the drain that
      follows it; a queued ticket is pending or invalidated, never both. */
  lemma TicketsAreConserved(es: seq<Event>)
    ensures var s := Run(es);
            && (forall t | t in s.seen.submitted :: t in s.book.pending <==> t !in s.book.completed)
            && (forall t | t in s.book.pending && !Clearing(s.todo) :: Holders(s.mail, s.slots, s.todo, t) == 1)
            && (forall t :: Holders(s.mail, s.slots, s.todo, t) <= 1)
            && (forall t | t in s.mail.queue :: t in s.book.pending <==> t !in s.mail.invalidated)
            && s.book.completed.Keys <= s.book.accepted.Keys <= s.seen.submitted
  {
    Reachable(es);
    var s := Run(es);
    assert forall t | t in s.mail.queue :: Waiting(s.mail, s.todo, t);
  }

  ghost predicate Extends(m: map<Ticket, CommandResult>, m': map<Ticket, CommandResult>) {
    forall t | t in m :: t in m' && m'[t] == m[t]
  }

  lemma FinishExtends(b: Book, t: Ticket, r: CommandResult)
    ensures Extends(b.accepted, FinishTicket(b, t, r).accepted)
    ensures Extends(b.completed, FinishTicket(b, t, r).completed)
  {}

  lemma FinishOptionExtends(b: Book, o: Option<Ticket>, r: CommandResult)
    ensures Extends(b.accepted, FinishOption(b, o, r).accepted)
    ensures Extends(b.completed, FinishOption(b, o, r).completed)
  {}

  lemma {:induction false} FinishAllExtends(b: Book, r: CommandResult)
    ensures Extends(b.accepted, FinishAll(b, r).accepted)
    ensures Extends(b.completed, FinishAll(b, r).completed)
    decreases |b.pending|
  {
    if b.pending != [] {
      FoundFirst(b.pending);
      FinishAllExtends(FinishTicket(b, b.pending[0], r), r);
    }
  }

  lemma DoExtends(s: State, m: Micro)
    ensures Extends(s.book.accepted, Do(s, m).book.accepted)
    ensures Extends(s.book.completed, Do(s, m).book.completed)
  {
    hide FinishTicket, FinishOption, FinishAll, AcceptTicket;
    match m
    case Clear(r) => FinishAllExtends(s.book, r);
    case Finish(t, r) => FinishExtends(s.book, t, r);
    case Settle(slot, r) => FinishOptionExtends(s.book, s.slots.At(slot), r);
    case Complete(slot, r) => FinishOptionExtends(s.book, s.slots.At(slot), r);
    case Accept(t) => AcceptExtends(s.book, t);
    case _ =>
  }

  lemma AcceptExtends(b: Book, t: Ticket)
    ensures Extends(b.accepted, AcceptTicket(b, t).accepted) && AcceptTicket(b, t).completed == b.completed
  {}

  lemma SectionExtends(s: State, e: Event)
    requires !TransportEvent(e) && !e.OwnerStep? && !e.Abort?
    ensures Extends(s.book.accepted, StartSection(s, e).book.accepted)
    ensures Extends(s.book.completed, StartSection(s, e).book.completed)
  {
    DoExtends(s, Clear(CommandResult(Cancelled, Disconnected)));
    assert Extends(s.book.accepted, s.book.accepted) && Extends(s.book.completed, s.book.completed);
    hide Extends, Do, TrackPlan;
  }

  lemma OwnerExtends(s: State, v: View)
    ensures Extends(s.book.accepted, OwnerMove(s, v).book.accepted)
    ensures Extends(s.book.completed, OwnerMove(s, v).book.completed)
  {
    if s.todo != [] { DoExtends(s.(todo := s.todo[1..]), s.todo[0]); }
    hide Plan, Do;
  }

  lemma DeliverExtends(fault: bool, stopped: bool, m: Mail, b: Book, t: Ticket)
    ensures Extends(b.accepted, Deliver(fault, stopped, m, b, t).0.accepted)
    ensures Extends(b.completed, Deliver(fault, stopped, m, b, t).0.completed)
  {
    FinishOptionExtends(b, m.point, CommandResult(Cancelled, Superseded));
    FinishOptionExtends(b, m.bearing, CommandResult(Cancelled, Superseded));
    hide FinishOption;
  }

  lemma SubmitExtends(s: State, request: Request, origin: Origin)
    ensures Extends(s.book.accepted, SubmitState(s, request, origin).book.accepted)
    ensures Extends(s.book.completed, SubmitState(s, request, origin).book.completed)
  {
    var t := NewTicket(s, request, origin);
    DeliverExtends(s.fault, s.stopped, s.mail, Enter(s.book, t), t);
    FinishExtends(s.book, t, CommandResult(Failed, RequestIdCollision));
    hide Deliver, FinishTicket;
  }

  lemma StepExtends(s: State, e: Event)
    ensures Extends(s.book.accepted, Step(s, e).book.accepted)
    ensures Extends(s.book.completed, Step(s, e).book.completed)
  {
    hide StartSection, OwnerMove, SubmitState;
    match e
    case Submit(request, origin) => SubmitExtends(s, request, origin);
    case RemoteDisconnected =>
    case Invalidate(_) =>
    case Stop =>
    case Abort(_) =>
    case OwnerStep(v) => OwnerExtends(s, v);
    case _ => SectionExtends(s, e);
  }

  /** A future resolved at some point of a run keeps that result for ever. */
  lemma {:induction false} ResolvedOnce(s: State, es: seq<Event>)
    ensures Extends(s.book.accepted, RunFrom(s, es).book.accepted)
    ensures Extends(s.book.completed, RunFrom(s, es).book.completed)
    decreases |es|
  {
    hide Step;
    if es != [] {
      StepExtends(s, es[0]);
      ResolvedOnce(Step(s, es[0]), es[1..]);
    }
  }

  // ----- begun or invalidated, never both ---------------------------------------

  /** The command types that local clients can get past the decoder are `kinds`. */
  predicate Decoded(e: Event, kinds: set<Kind>) {
    e.Submit? && e.origin == Local ==> e.request.kind in kinds
  }

  predicate AllDecoded(es: seq<Event>, kinds: set<Kind>) {
    forall e | e in es :: Decoded(e, kinds)
  }

  const LOCAL_KINDS: set<Kind> := {OrientationAcquire, OrientationReturn, OrientationStatus, Heartbeat}

  ghost predicate LocalsDecoded(s: State, kinds: set<Kind>) {
    forall t | t in s.seen.submitted && t.origin == Local :: t.request.kind in kinds
  }

  lemma DoSubmits(s: State, m: Micro)
    ensures Do(s, m).seen.submitted == s.seen.submitted
  {}

  lemma OwnerSubmits(s: State, v: View)
    ensures OwnerMove(s, v).seen.submitted == s.seen.submitted
  {
    if s.todo != [] { DoSubmits(s.(todo := s.todo[1..]), s.todo[0]); }
    hide Do, Plan;
  }

  lemma SectionSubmits(s: State, e: Event)
    requires !TransportEvent(e) && !e.OwnerStep? && !e.Abort?
    ensures StartSection(s, e).seen.submitted == s.seen.submitted
  {}

  lemma SubmitSubmits(s: State, request: Request, origin: Origin)
    ensures SubmitState(s, request, origin).seen.submitted <= s.seen.submitted + {NewTicket(s, request, origin)}
  {}

  lemma StepDecoded(s: State, e: Event, kinds: set<Kind>)
    requires LocalsDecoded(s, kinds) && Decoded(e, kinds)
    ensures LocalsDecoded(Step(s, e), kinds)
  {
    hide StartSection, OwnerMove, SubmitState, FinishTicket;
    match e
    case Submit(request, origin) => SubmitSubmits(s, request, origin);
    case RemoteDisconnected =>
    case Invalidate(_) =>
    case Stop =>
    case Abort(_) =>
    case OwnerStep(v) => OwnerSubmits(s, v);
    case _ => SectionSubmits(s, e);
  }

  lemma {:induction false} RunDecoded(s: State, es: seq<Event>, kinds: set<Kind>)
    requires LocalsDecoded(s, kinds) && AllDecoded(es, kinds)
    ensures LocalsDecoded(RunFrom(s, es), kinds)
    decreases |es|
  {
    hide Step;
    if es != [] {
      assert Decoded(es[0], kinds);
      assert forall e | e in es[1..] :: e in es;
      StepDecoded(s, es[0], kinds);
      RunDecoded(Step(s, es[0]), es[1..], kinds);
    }
  }

  /** In every run a ticket is begun or invalidated, never both, and an
      invalidated one commands the runtime only if it is a tracking entry. */
  lemma BegunOrInvalidated(es: seq<Event>)
    ensures var s := Run(es);
            && s.seen.begun !! s.seen.dropped
            && (forall t | t in s.seen.dropped :: t in s.book.completed && t.origin == Local)
            && (forall t | t in s.seen.touched && t in s.seen.dropped :: Tracking(t.request.kind))
  {
    Reachable(es);
  }

  // ----- a stopped controller drains and stays drained --------------------------

  /** Nothing is pending or held, and nothing will be. */
  ghost predicate Drained(s: State) {
    && s.stopped
    && (forall t | t in s.seen.submitted :: t in s.book.completed)
    && s.mail.queue == [] && s.mail.point.None? && s.mail.bearing.None?
    && s.slots == NoSlots
  }

  lemma DownStays(s: State, e: Event)
    requires s.seen.down
    ensures Step(s, e).seen.down
  {
    hide Plan, TrackPlan, Deliver, FinishTicket, FinishOption, FinishAll;
  }

  lemma {:induction false} DownStaysDown(s: State, es: seq<Event>)
    requires s.seen.down
    ensures RunFrom(s, es).seen.down
    decreases |es|
  {
    hide Step;
    if es != [] {
      DownStays(s, es[0]);
      DownStaysDown(Step(s, es[0]), es[1..]);
    }
  }

  lemma {:induction false} RunAppend(s: State, xs: seq<Event>, ys: seq<Event>)
    ensures RunFrom(s, xs + ys) == RunFrom(RunFrom(s, xs), ys)
    decreases |xs|
  {
    hide Step;
    if xs == [] { assert xs + ys == ys; } else {
      assert (xs + ys)[1..] == xs[1..] + ys;
      RunAppend(Step(s, xs[0]), xs[1..], ys);
    }
  }

  /** Once a shutdown has run, every ticket ever submitted is resolved, and that
      holds of every later state too, whatever anyone does. */
  lemma StopDrains(es: seq<Event>, later: seq<Event>)
    requires Run(es).seen.down
    ensures Drained(Run(es + later))
  {
    RunAppend(Initial, es, later);
    DownStaysDown(Run(es), later);
    Reachable(es + later);
  }

  lemma TransportTodo(s: State, e: Event)
    requires TransportEvent(e)
    ensures Step(s, e).todo == s.todo && (s.stopped ==> Step(s, e).stopped)
  {}

  lemma {:induction false} TransportsTodo(s: State, es: seq<Event>)
    requires forall e | e in es :: TransportEvent(e)
    ensures RunFrom(s, es).todo == s.todo && (s.stopped ==> RunFrom(s, es).stopped)
    decreases |es|
  {
    hide Step;
    if es != [] {
      assert es[0] in es;
      assert forall e | e in es[1..] :: e in es;
      TransportTodo(s, es[0]);
      TransportsTodo(Step(s, es[0]), es[1..]);
    }
  }

  lemma DrainMoves(s: State, v: View)
    requires s.todo != []
    ensures s.todo[0].Clear? ==> OwnerMove(s, v).todo == s.todo[1..] && OwnerMove(s, v).stopped == s.stopped
    ensures s.todo[0] == Forget ==> OwnerMove(s, v).seen.down
  {}

  /** A shutdown takes the owner two critical sections; clients cannot prevent it. */
  lemma ShutdownCompletes(s: State, xs: seq<Event>, ys: seq<Event>, v: View)
    requires s.stopped && s.todo == []
    requires forall e | e in xs + ys :: TransportEvent(e)
    ensures var s1 := RunFrom(Step(s, Shutdown), xs);
            var s2 := RunFrom(Step(s1, OwnerStep(v)), ys);
            Step(s2, OwnerStep(v)).seen.down
  {
    assert forall e | e in xs :: e in xs + ys;
    assert forall e | e in ys :: e in xs + ys;
    var s0 := Step(s, Shutdown);
    assert s0.todo == ShutdownPlan(s.fault);
    hide StartSection, RunFrom, OwnerMove, SubmitState, InvalidateState;
    TransportsTodo(s0, xs);
    var s1 := RunFrom(s0, xs);
    DrainMoves(s1, v);
    var s2 := Step(s1, OwnerStep(v));
    assert s2.todo == [Forget];
    TransportsTodo(s2, ys);
    DrainMoves(RunFrom(s2, ys), v);
  }

  /** A ticket submitted to a stopped controller is answered in the call itself. */
  lemma SubmitAfterStop(es: seq<Event>, request: Request, origin: Origin)
    requires Run(es).stopped && Cached(Run(es).book, request.id).None?
    ensures var s := Run(es);
            var t := SubmitTicket(s, request, origin);
            && t in SubmitState(s, request, origin).book.completed
            && SubmitState(s, request, origin).book.completed[t].state == Failed
  {
    var s := Run(es);
    Reachable(es);
    FreshTicket(s, NewTicket(s, request, origin));
  }

  // ----- one ticket per request in flight ---------------------------------------

  /** However many results have passed through the bounded cache, a request that
      is still in flight is answered with its own ticket. */
  lemma InFlightDeduplicated(es: seq<Event>, t: Ticket, request: Request)
    requires t in Run(es).book.pending && request.id == t.Rid()
    ensures SubmitTicket(Run(es), request, t.origin) == t
    ensures SubmitState(Run(es), request, t.origin).seen.submitted == Run(es).seen.submitted
    ensures |Run(es).book.recent| <= RECENT_SIZE
  {
    Reachable(es);
    FindIsMember(Run(es).book.pending, t);
  }

  /** A latest-wins entry that is replaced before the owner takes it is cancelled. */
  lemma LatestWins(es: seq<Event>, request: Request, origin: Origin, previous: Ticket)
    requires var s := Run(es);
             && !s.stopped && Cached(s.book, request.id).None?
             && previous in s.book.pending
             && ((request.kind == TrackPoint && s.mail.point == Some(previous))
                 || (request.kind == TrackBearing && s.mail.bearing == Some(previous)))
    ensures var s' := SubmitState(Run(es), request, origin);
            && previous in s'.book.completed
            && s'.book.completed[previous] == CommandResult(Cancelled, Superseded)
            && SubmitTicket(Run(es), request, origin) in s'.book.pending
  {
    var s := Run(es);
    Reachable(es);
    var t := NewTicket(s, request, origin);
    FreshTicket(s, t);
    EnterTables(s.book, t);
    FinishPending(Enter(s.book, t), previous, CommandResult(Cancelled, Superseded));
    LatestWinsStep(s, t, previous);
  }

  lemma LatestWinsStep(s: State, t: Ticket, previous: Ticket)
    requires Inv(s) && previous in s.book.pending && !s.stopped
    ensures previous !in s.book.completed && !s.fault
  {}

  // ----- how long results are remembered --------------------------------------------

  /** The cache holds a ticket with at most `n` later ones behind it. */
  ghost predicate Fresh(d: seq<Ticket>, t: Ticket, n: nat) {
    exists i: nat :: i < |d| && d[i] == t && |d| - 1 - i <= n
  }

  function RememberAll(d: seq<Ticket>, ts: seq<Ticket>): seq<Ticket> {
    if ts == [] then d else Remember(RememberAll(d, ts[..|ts| - 1]), ts[|ts| - 1])
  }

  lemma {:induction false} WithoutKeepsPlace(d: seq<Ticket>, t: Ticket, id: string, i: nat) returns (k: nat)
    requires i < |d| && d[i] == t && t.Rid() != id
    ensures k < |Without(d, id)| && Without(d, id)[k] == t && |Without(d, id)| - 1 - k <= |d| - 1 - i
  {
    WithoutNext(d, id);
    hide Without;
    if i == 0 { k := 0; } else {
      k := WithoutKeepsPlace(d[1..], t, id, i - 1);
      if d[0].Rid() != id { k := k + 1; }
    }
  }

  lemma WithoutNext(d: seq<Ticket>, id: string)
    requires d != []
    ensures Without(d, id) == (if d[0].Rid() == id then [] else [d[0]]) + Without(d[1..], id)
  {}

  lemma RememberAges(d: seq<Ticket>, t: Ticket, u: Ticket, n: nat)
    requires Fresh(d, t, n) && u.Rid() != t.Rid() && n + 1 < RECENT_SIZE
    ensures Fresh(Remember(d, u), t, n + 1)
  {
    var i: nat :| i < |d| && d[i] == t && |d| - 1 - i <= n;
    var k := WithoutKeepsPlace(d, t, u.Rid(), i);
    var w := Without(d, u.Rid()) + [u];
    assert w[k] == t && |w| - 1 - k <= n + 1;
    var r := Remember(d, u);
    var at := if |w| <= RECENT_SIZE then k else k - (|w| - RECENT_SIZE);
    assert r[at] == t;
  }

  /** A ticket whose result is remembered is still cached after any 255 others, so that a
      client that repeats its request within that many gets its answer. */
  lemma {:induction false} RecentIsRemembered(d: seq<Ticket>, t: Ticket, ts: seq<Ticket>)
    requires |ts| < RECENT_SIZE && forall u | u in ts :: u.Rid() != t.Rid()
    ensures Fresh(RememberAll(Remember(d, t), ts), t, |ts|)
    ensures t in RememberAll(Remember(d, t), ts)
  {
    if ts == [] {
      var r := Remember(d, t);
      assert r[|r| - 1] == t;
    } else {
      var n := |ts| - 1;
      RecentIsRemembered(d, t, ts[..n]);
      assert ts[n] in ts;
      RememberAges(RememberAll(Remember(d, t), ts[..n]), t, ts[n], n);
    }
    hide Remember;
  }

  /** A repeated request makes its ticket the latest, as remembering it again would. */
  lemma HitIsRemembering(d: seq<Ticket>, t: Ticket)
    requires Distinct(d) && |d| <= RECENT_SIZE && t in d
    ensures MoveToEnd(d, t.Rid()) == Remember(d, t)
  {
    FindIsMember(d, t);
  }
}

/** Invalidated tickets of local clients: where they are, and when it is certain
    that they never command the runtime. */
module LocalTickets {
  import opened Options
  import opened OrderedTickets
  import opened TicketProtocol
  import opened TicketInvariant
  import opened TicketRuns
  import opened TicketTheorems

  /** An unclaimed pending ticket and an invalidated one are both waiting. */
  ghost predicate Swept(pending: seq<Ticket>, m: Mail, todo: seq<Micro>, begun: set<Ticket>) {
    && (forall t | t in pending :: t in begun || Tracking(t.request.kind) || Waiting(m, todo, t))
    && (forall t | t in m.invalidated :: Waiting(m, todo, t))
  }

  ghost predicate Clean(s: State) {
    Swept(s.book.pending, s.mail, s.todo, s.seen.begun)
  }

  ghost predicate NoLocalTracking(s: State) {
    forall t | t in s.seen.submitted && t.origin == Local :: !Tracking(t.request.kind)
  }

  lemma FewerSwept(pending: seq<Ticket>, pending': seq<Ticket>, m: Mail, todo: seq<Micro>, begun: set<Ticket>)
    requires Swept(pending, m, todo, begun) && forall t | t in pending' :: t in pending
    ensures Swept(pending', m, todo, begun)
  {}

  lemma DeliverPending(s: State, t: Ticket, b: Book)
    requires Distinct(b.pending) && t in b.pending
    ensures forall u | u in Deliver(s.fault, s.stopped, s.mail, b, t).0.pending ::
              && u in b.pending
              && (u == t ==> Tracking(u.request.kind) || u in Deliver(s.fault, s.stopped, s.mail, b, t).1.queue)
  {
    FinishOptionPending(b, s.mail.point, CommandResult(Cancelled, Superseded));
    FinishOptionPending(b, s.mail.bearing, CommandResult(Cancelled, Superseded));
    hide FinishOption;
    if s.fault { FinishPending(b, t, CommandResult(Failed, Faulted)); }
    else if s.stopped { FinishPending(b, t, CommandResult(Failed, StoppedCode)); }
    else if !Tracking(t.request.kind) { FinishPending(b, t, CommandResult(Failed, QueueFull)); }
    hide FinishTicket;
  }

  lemma DeliverMail(s: State, t: Ticket, b: Book)
    ensures var m' := Deliver(s.fault, s.stopped, s.mail, b, t).1;
            (forall u | u in s.mail.queue :: u in m'.queue) && m'.invalidated == s.mail.invalidated
  {
    hide FinishTicket, FinishOption;
  }

  lemma FinishOptionPending(b: Book, o: Option<Ticket>, r: CommandResult)
    requires Distinct(b.pending)
    ensures forall u | u in FinishOption(b, o, r).pending :: u in b.pending
  {
    if o.Some? { FinishPending(b, o.value, r); }
  }

  lemma DeliverClean(s: State, t: Ticket)
    requires Inv(s) && Clean(s) && Find(s.book.pending, t.Rid()).None?
    ensures var (b', m') := Deliver(s.fault, s.stopped, s.mail, Enter(s.book, t), t);
            Swept(b'.pending, m', s.todo, s.seen.begun)
  {
    EnterTables(s.book, t);
    DeliverPending(s, t, Enter(s.book, t));
    DeliverMail(s, t, Enter(s.book, t));
    hide Deliver, Inv, Tables;
  }

  lemma SubmitClean(s: State, request: Request, origin: Origin)
    requires Inv(s) && Clean(s)
    ensures Clean(SubmitState(s, request, origin))
  {
    var t := NewTicket(s, request, origin);
    hide Deliver;
    match Cached(s.book, request.id)
    case None => DeliverClean(s, t);
    case Some(_) =>
      FinishPending(s.book, t, CommandResult(Failed, RequestIdCollision));
      hide FinishTicket, Inv;
  }

  lemma InvalidateClean(s: State, t: Ticket)
    requires Inv(s) && Clean(s) && NoLocalTracking(s)
    ensures Clean(InvalidateState(s, t))
  {
    if CanInvalidate(s.book, t) {
      FindIsMember(s.book.pending, t);
      FinishPending(s.book, t, CommandResult(Cancelled, LocalDisconnected));
      assert forall u :: Waiting(InvalidateState(s, t).mail, s.todo, u) == Waiting(s.mail, s.todo, u);
      hide FinishTicket;
    }
  }

  lemma DoPending(s: State, m: Micro)
    requires Tables(s.book) && !m.Begin? && !m.Clear?
    ensures forall u | u in Do(s, m).book.pending :: u in s.book.pending
    ensures Do(s, m).mail == s.mail && Do(s, m).seen.begun == s.seen.begun && Do(s, m).todo == s.todo
  {
    match m
    case Finish(t, r) => FinishPending(s.book, t, r);
    case Settle(slot, r) => FinishOptionPending(s.book, s.slots.At(slot), r);
    case Complete(slot, r) => FinishOptionPending(s.book, s.slots.At(slot), r);
    case _ =>
  }

  lemma BeginClean(s: State, t: Ticket, p: seq<Micro>)
    requires Inv(s) && Clean(s) && s.todo == [Begin(t)]
    ensures Clean(BeginState(s.(todo := []), t).(todo := p))
  {
    forall u | Waiting(s.mail, s.todo, u) ensures u == t || Waiting(s.mail, p, u) {}
    assert Waiting(s.mail, s.todo, t);
  }

  lemma ClearClean(s: State, r: CommandResult, todo: seq<Micro>)
    requires Inv(s) && Clean(s) && forall t :: Begin(t) !in s.todo
    ensures Clean(Cleared(s, r, todo))
  {
    FinishAllTables(s.book, r);
    hide FinishAll;
  }

  lemma RestClean(pending: seq<Ticket>, m: Mail, todo: seq<Micro>, todo': seq<Micro>, begun: set<Ticket>)
    requires Swept(pending, m, todo, begun) && forall t :: Begin(t) !in todo
    ensures Swept(pending, m, todo', begun)
  {
    assert forall t :: Waiting(m, todo, t) ==> Waiting(m, todo', t);
  }

  lemma BeginStepClean(s: State, v: View)
    requires Inv(s) && Clean(s) && s.todo != [] && s.todo[0].Begin?
    ensures Clean(OwnerMove(s, v))
  {
    assert s.todo == [s.todo[0]];
    hide Plan, Swept, Core, Down;
    BeginClean(s, s.todo[0].t, Plan(s.slots, s.todo[0].t, v) + []);
    BeginClean(s, s.todo[0].t, []);
  }

  lemma OtherStepClean(s: State, v: View)
    requires Inv(s) && Clean(s) && s.todo != [] && !s.todo[0].Begin? && !s.todo[0].Clear?
    ensures Clean(OwnerMove(s, v))
  {
    assert forall t :: Begin(t) !in s.todo;
    var s1 := s.(todo := s.todo[1..]);
    hide Swept, Down, Do;
    RestClean(s.book.pending, s.mail, s.todo, s1.todo, s.seen.begun);
    DoPending(s1, s.todo[0]);
    FewerSwept(s.book.pending, Do(s1, s.todo[0]).book.pending, s.mail, s1.todo, s.seen.begun);
    hide Core;
  }

  lemma ClearStepClean(s: State, v: View)
    requires Inv(s) && Clean(s) && s.todo != [] && s.todo[0].Clear?
    ensures Clean(OwnerMove(s, v))
  {
    assert forall t :: Begin(t) !in s.todo;
    hide Swept, FinishAll, Core, Down;
    ClearClean(s, s.todo[0].r, s.todo[1..]);
  }

  lemma OwnerClean(s: State, v: View)
    requires Inv(s) && Clean(s)
    ensures Clean(OwnerMove(s, v))
  {
    hide Swept, Inv, Plan, Do;
    if s.todo != [] {
      if s.todo[0].Begin? { BeginStepClean(s, v); }
      else if s.todo[0].Clear? { ClearStepClean(s, v); }
      else { OtherStepClean(s, v); }
    }
  }

  lemma TakenClean(s: State, m': Mail, todo': seq<Micro>)
    requires Clean(s) && s.todo == [] && m'.invalidated == s.mail.invalidated
    requires forall t | t in s.mail.queue :: t in m'.queue || Begin(t) in todo'
    ensures Swept(s.book.pending, m', todo', s.seen.begun)
  {
    assert forall t :: Waiting(s.mail, s.todo, t) ==> Waiting(m', todo', t);
  }

  lemma SectionClean(s: State, e: Event)
    requires Inv(s) && Clean(s) && !TransportEvent(e) && !e.OwnerStep? && !e.Abort?
    ensures Clean(StartSection(s, e))
  {
    hide Inv, Swept, TrackPlan, FinishAll;
    var todo' := StartSection(s, e).todo;
    if s.todo == [] {
      match e
      case HandleDisconnect =>
        ClearClean(s, CommandResult(Cancelled, Disconnected), CancelAll(Disconnected));
      case TakeCommand =>
        if s.mail.queue != [] {
          assert s.mail.queue == [s.mail.queue[0]] + s.mail.queue[1..];
          TakenClean(s, s.mail.(queue := s.mail.queue[1..]), [Begin(s.mail.queue[0])]);
        }
      case TakeTracking(_, _, _) =>
        TakenClean(s, s.mail.(point := None, bearing := None), todo');
      case _ =>
        RestClean(s.book.pending, s.mail, s.todo, todo', s.seen.begun);
    }
  }

  lemma AbortClean(s: State, raised: bool)
    requires Clean(s)
    ensures Clean(AbortState(s, raised))
  {
    if !exists m | m in s.todo :: m.Begin? {
      RestClean(s.book.pending, s.mail, s.todo, ShutdownPlan(s.fault || raised), s.seen.begun);
      hide Swept;
    }
  }

  lemma StepClean(s: State, e: Event)
    requires Inv(s) && Clean(s) && NoLocalTracking(s)
    ensures Clean(Step(s, e))
  {
    hide Inv, Swept, StartSection, OwnerMove, SubmitState, InvalidateState, AbortState;
    match e
    case Submit(request, origin) => SubmitClean(s, request, origin);
    case Invalidate(t) => InvalidateClean(s, t);
    case RemoteDisconnected =>
    case Stop =>
    case OwnerStep(v) => OwnerClean(s, v);
    case Abort(raised) => AbortClean(s, raised);
    case _ => SectionClean(s, e);
  }

  lemma DecodedNoTracking(s: State, kinds: set<Kind>)
    requires LocalsDecoded(s, kinds) && TrackPoint !in kinds && TrackBearing !in kinds
    ensures NoLocalTracking(s)
  {}

  lemma {:induction false} RunClean(s: State, es: seq<Event>, kinds: set<Kind>)
    requires Inv(s) && Clean(s) && LocalsDecoded(s, kinds) && AllDecoded(es, kinds)
    requires TrackPoint !in kinds && TrackBearing !in kinds
    ensures Clean(RunFrom(s, es))
    decreases |es|
  {
    if es != [] {
      assert Decoded(es[0], kinds);
      assert AllDecoded(es[1..], kinds) by { assert forall e | e in es[1..] :: e in es; }
      DecodedNoTracking(s, kinds);
      hide Inv, Swept, Step, LocalsDecoded, NoLocalTracking, AllDecoded, Decoded;
      StepClean(s, es[0]);
      StepKeeps(s, es[0]);
      StepDecoded(s, es[0], kinds);
      RunClean(Step(s, es[0]), es[1..], kinds);
    }
  }

  /** With the command types that the local decoder lets through, no invalidated
      ticket ever commands the runtime; the invalidated set names only tickets
      still queued or just taken off the queue; and an unclaimed local ticket is
      one of those, so that invalidating it always prevents its execution. */
  lemma InvalidatedNeverRuns(es: seq<Event>)
    requires AllDecoded(es, LOCAL_KINDS)
    ensures var s := Run(es);
            && s.seen.touched !! s.seen.dropped
            && (forall t | t in s.mail.invalidated :: Waiting(s.mail, s.todo, t))
            && (forall t | t in s.book.pending && t.origin == Local && t !in s.seen.begun ::
                  Waiting(s.mail, s.todo, t))
  {
    hide Run, RunFrom;
    InvalidatedIsClean(es);
    BegunOrInvalidated(es);
  }

  lemma InvalidatedIsClean(es: seq<Event>)
    requires AllDecoded(es, LOCAL_KINDS)
    ensures Clean(Run(es)) && NoLocalTracking(Run(es)) && MadeSeen(Run(es).seen, Run(es).next)
    ensures MadeBook(Run(es).book, Run(es).seen.submitted)
  {
    Reachable(es);
    Reachable([]);
    hide Inv, Swept;
    RunDecoded(Initial, es, LOCAL_KINDS);
    InitialClean();
    RunClean(Initial, es, LOCAL_KINDS);
    DecodedNoTracking(Run(es), LOCAL_KINDS);
    InvMade(Run(es));
  }

  lemma InitialClean()
    ensures Clean(Initial)
  {}

  lemma InvMade(s: State)
    requires Inv(s)
    ensures MadeSeen(s.seen, s.next) && MadeBook(s.book, s.seen.submitted)
  {}

  // ----- exactly when -----------------------------------------------------------

  ghost predicate NeverRuns(kinds: set<Kind>) {
    forall es | AllDecoded(es, kinds) :: Run(es).seen.touched !! Run(es).seen.dropped
  }

  function AnyView(): View {
    View(false, false, false, false, false, false, false, false, Blocked, false, false, Busy,
         false, Busy, false, false, false)
  }

  function LooseTicket(kind: Kind): Ticket { Ticket(0, Local, Request("r", kind, false, "")) }

  /** A local tracking entry: submitted, invalidated by its client, executed. */
  function LooseRun(kind: Kind): seq<Event> {
    [Submit(LooseTicket(kind).request, Local), Invalidate(LooseTicket(kind)),
     TakeTracking(false, false, false), OwnerStep(AnyView())]
  }

  lemma LooseSubmitted(t: Ticket)
    requires t.key == 0 && t.origin == Local && Tracking(t.request.kind)
    ensures var s := Step(Initial, Submit(t.request, Local));
            && s.book.pending == [t] && s.book.started == {} && t !in s.book.accepted && s.todo == []
            && (s.mail.point == Some(t) || s.mail.bearing == Some(t))
            && s.mail.point in {None, Some(t)} && s.mail.bearing in {None, Some(t)}
  {}

  lemma LooseInvalidated(s: State, t: Ticket)
    requires s.book.pending == [t] && t.Rid() !in s.book.started && t !in s.book.accepted && t.origin == Local
    ensures t in Step(s, Invalidate(t)).seen.dropped
    ensures Step(s, Invalidate(t)).todo == s.todo
    ensures Step(s, Invalidate(t)).mail == s.mail.(invalidated := s.mail.invalidated + {t})
  {
    assert Find(s.book.pending, t.Rid()) == Some(t);
    hide FinishTicket;
  }

  lemma LooseTaken(s: State, t: Ticket)
    requires s.todo == [] && (s.mail.point == Some(t) || s.mail.bearing == Some(t))
    requires s.mail.point in {None, Some(t)} && s.mail.bearing in {None, Some(t)}
    ensures var s' := Step(Step(s, TakeTracking(false, false, false)), OwnerStep(AnyView()));
            t in s'.seen.touched && s'.seen.dropped == s.seen.dropped
  {
    assert Step(s, TakeTracking(false, false, false)).todo[0] == Touch(t);
    hide Plan;
  }

  lemma RunOfFour(s: State, a: Event, b: Event, c: Event, d: Event)
    ensures RunFrom(s, [a, b, c, d]) == Step(Step(Step(Step(s, a), b), c), d)
  {
    hide Step;
    assert [a, b, c, d][1..] == [b, c, d] && [b, c, d][1..] == [c, d] && [c, d][1..] == [d] && [d][1..] == [];
    var s1 := Step(s, a);
    var s2 := Step(s1, b);
    var s3 := Step(s2, c);
    assert RunFrom(s, [a, b, c, d]) == RunFrom(s1, [b, c, d]) == RunFrom(s2, [c, d]);
    assert RunFrom(s2, [c, d]) == RunFrom(s3, [d]) == Step(s3, d);
  }

  lemma LooseSteps(kind: Kind)
    requires Tracking(kind)
    ensures var s := Run(LooseRun(kind)); LooseTicket(kind) in s.seen.touched * s.seen.dropped
  {
    var t := LooseTicket(kind);
    hide Step, RunFrom;
    RunOfFour(Initial, Submit(t.request, Local), Invalidate(t), TakeTracking(false, false, false),
              OwnerStep(AnyView()));
    LooseSubmitted(t);
    var s1 := Step(Initial, Submit(t.request, Local));
    LooseInvalidated(s1, t);
    LooseTaken(Step(s1, Invalidate(t)), t);
  }

  /** The guarantee rests on the decoder: it holds for exactly those sets of local
      command types that contain no tracking command. */
  lemma NeverRunsIff(kinds: set<Kind>)
    ensures NeverRuns(kinds) <==> TrackPoint !in kinds && TrackBearing !in kinds
  {
    forall kind: Kind | Tracking(kind) && kind in kinds ensures !NeverRuns(kinds) {
      LooseSteps(kind);
      assert AllDecoded(LooseRun(kind), kinds);
    }
    if TrackPoint !in kinds && TrackBearing !in kinds {
      forall es | AllDecoded(es, kinds) ensures Run(es).seen.touched !! Run(es).seen.dropped {
        BegunOrInvalidated(es);
        Reachable(es);
        RunDecoded(Initial, es, kinds);
      }
    }
  }
}

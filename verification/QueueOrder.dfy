/** Queued commands are claimed in the order in which they were submitted. */
module QueueOrder {
  import opened Options
  import opened OrderedTickets
  import opened TicketProtocol
  import opened TicketInvariant
  import opened TicketRuns
  import MotionController
  import PlanFacts

  ghost predicate Rising(queue: seq<Ticket>) { forall i, k | 0 <= i < k < |queue| :: queue[i].key < queue[k].key }

  /** The queue is in the order of submission, and everything claimed so far came before
      everything that still waits. */
  ghost predicate InOrder(queue: seq<Ticket>, todo: seq<Micro>, begun: set<Ticket>) {
    && Rising(queue)
    && (forall t, u | Begin(t) in todo && u in queue :: t.key < u.key)
    && (forall t, u | t in begun && (u in queue || Begin(u) in todo) :: t.key < u.key)
  }

  ghost predicate Ordered(s: State) { InOrder(s.mail.queue, s.todo, s.seen.begun) }

  lemma SubmitOrdered(s: State, request: Request, origin: Origin)
    requires Inv(s) && Ordered(s)
    ensures Ordered(SubmitState(s, request, origin))
  {
    var t := NewTicket(s, request, origin);
    KeysBelow(s);
    QueuedLast(s, t);
    SubmitMail(s, request, origin);
    hide Deliver, Inv, InOrder, Enter, SubmitState;
  }

  lemma SubmitMail(s: State, request: Request, origin: Origin)
    ensures var s', t := SubmitState(s, request, origin), NewTicket(s, request, origin);
            && s'.todo == s.todo && s'.seen.begun == s.seen.begun
            && (s'.mail == s.mail || s'.mail == Deliver(s.fault, s.stopped, s.mail, Enter(s.book, t), t).1)
  {
    hide Deliver, FinishTicket, Enter, MoveToEnd, Cached;
  }

  lemma KeysBelow(s: State)
    requires Inv(s)
    ensures forall u | u in s.mail.queue || Begin(u) in s.todo || u in s.seen.begun :: u.key < s.next
  {
    forall u | u in s.mail.queue || Begin(u) in s.todo ensures u in s.seen.submitted {
      if u in s.mail.queue { assert Holders(s.mail, s.slots, s.todo, u) > 0; }
      else { assert About(Begin(u), u); }
    }
  }

  lemma QueuedLast(s: State, t: Ticket)
    requires InOrder(s.mail.queue, s.todo, s.seen.begun)
    requires forall u | u in s.mail.queue || Begin(u) in s.todo || u in s.seen.begun :: u.key < t.key
    ensures var m := Deliver(s.fault, s.stopped, s.mail, Enter(s.book, t), t).1;
            InOrder(m.queue, s.todo, s.seen.begun)
  {
    hide FinishTicket, FinishOption, Enter;
    var q := s.mail.queue + [t];
    forall i, k | 0 <= i < k < |q| ensures q[i].key < q[k].key {
      if k == |q| - 1 { assert q[i] in s.mail.queue; }
    }
  }

  lemma DoOrdered(s: State, m: Micro)
    requires !m.Begin? && !m.Clear?
    ensures Do(s, m).mail == s.mail && Do(s, m).seen.begun == s.seen.begun && Do(s, m).todo == s.todo
  {
    hide FinishTicket, FinishOption;
  }

  lemma FewerOrdered(queue: seq<Ticket>, todo: seq<Micro>, begun: set<Ticket>, queue': seq<Ticket>, todo': seq<Micro>)
    requires InOrder(queue, todo, begun) && (queue' == queue || queue' == [])
    requires forall t | Begin(t) in todo' :: Begin(t) in todo
    ensures InOrder(queue', todo', begun)
  {}

  lemma ClaimOrdered(s: State, t: Ticket, p: seq<Micro>, begun': set<Ticket>)
    requires Ordered(s) && Begin(t) in s.todo && forall u :: Begin(u) !in p
    requires begun' == s.seen.begun || begun' == s.seen.begun + {t}
    ensures InOrder(s.mail.queue, p, begun')
  {}

  lemma OwnerOrdered(s: State, v: View)
    requires Inv(s) && Ordered(s)
    ensures Ordered(OwnerMove(s, v))
  {
    if s.todo != [] {
      var m := s.todo[0];
      var rest := s.(todo := s.todo[1..]);
      assert forall t | Begin(t) in s.todo[1..] :: Begin(t) in s.todo;
      if m.Begin? {
        assert s.todo == [m] by { assert s.todo[0].Begin?; }
        var p := Plan(s.slots, m.t, v);
        PlanFacts.PlanHasShape(s.slots, m.t, v);
        PlanFacts.ShapeFacts(p, m.t);
        ClaimOrdered(s, m.t, [], s.seen.begun);
        ClaimOrdered(s, m.t, p, s.seen.begun + {m.t});
        assert p + [] == p;
        hide Plan, InOrder, Inv, PlanFacts.PlanShape;
      } else {
        FewerOrdered(s.mail.queue, s.todo, s.seen.begun, s.mail.queue, s.todo[1..]);
        FewerOrdered(s.mail.queue, s.todo, s.seen.begun, [], s.todo[1..]);
        if !m.Clear? { DoOrdered(rest, m); hide Do; }
        hide InOrder, Inv, Plan, FinishAll;
      }
    }
  }

  lemma TakeOrdered(s: State)
    requires Ordered(s) && s.todo == [] && s.mail.queue != []
    ensures InOrder(s.mail.queue[1..], [Begin(s.mail.queue[0])], s.seen.begun)
  {
    assert forall u | u in s.mail.queue[1..] :: u in s.mail.queue;
  }

  lemma SectionOrdered(s: State, e: Event)
    requires Ordered(s) && !TransportEvent(e) && !e.OwnerStep? && !e.Abort?
    ensures Ordered(StartSection(s, e))
  {
    if s.todo == [] {
      if e == TakeCommand {
        if s.mail.queue != [] { TakeOrdered(s); }
      } else {
        var s' := StartSection(s, e);
        NoClaims(s, e);
        FewerOrdered(s.mail.queue, s.todo, s.seen.begun, s'.mail.queue, s'.todo);
        hide StartSection;
      }
      hide InOrder;
    }
  }

  lemma NoClaims(s: State, e: Event)
    requires s.todo == [] && !TransportEvent(e) && !e.OwnerStep? && !e.Abort? && e != TakeCommand
    ensures var s' := StartSection(s, e);
            && (forall t :: Begin(t) !in s'.todo) && s'.seen.begun == s.seen.begun
            && (s'.mail.queue == s.mail.queue || s'.mail.queue == [])
  {
    MotionController.SectionClaimsNothing(s, e);
    hide FinishAll, TrackPlan, SettleIf, CompleteIf, CancelAll, ShutdownPlan;
  }

  lemma AbortOrdered(s: State, raised: bool)
    requires Ordered(s)
    ensures Ordered(AbortState(s, raised))
  {
    if !exists m | m in s.todo :: m.Begin? {
      FewerOrdered(s.mail.queue, s.todo, s.seen.begun, s.mail.queue, ShutdownPlan(s.fault || raised));
      hide InOrder;
    }
  }

  lemma StepOrdered(s: State, e: Event)
    requires Inv(s) && Ordered(s)
    ensures Ordered(Step(s, e))
  {
    hide Inv, InOrder, StartSection, OwnerMove, SubmitState, AbortState, FinishTicket;
    match e
    case Submit(request, origin) => SubmitOrdered(s, request, origin);
    case OwnerStep(v) => OwnerOrdered(s, v);
    case Abort(raised) => AbortOrdered(s, raised);
    case RemoteDisconnected =>
    case Invalidate(_) =>
    case Stop =>
    case _ => SectionOrdered(s, e);
  }

  lemma {:induction false} RunOrdered(s: State, es: seq<Event>)
    requires Inv(s) && Ordered(s)
    ensures Ordered(RunFrom(s, es))
    decreases |es|
  {
    hide Inv, Ordered, Step;
    if es != [] {
      StepOrdered(s, es[0]);
      StepKeeps(s, es[0]);
      RunOrdered(Step(s, es[0]), es[1..]);
    }
  }

  /** In every run: whatever was claimed was submitted before whatever is still queued, and
      the ticket that the owner is about to claim comes between the two. */
  lemma ClaimedInOrder(es: seq<Event>)
    ensures var s := Run(es);
            && (forall t, u | t in s.seen.begun && u in s.mail.queue :: t.key < u.key)
            && (forall t, u | Begin(t) in s.todo && u in s.mail.queue :: t.key < u.key)
            && (forall t, u | t in s.seen.begun && Begin(u) in s.todo :: t.key < u.key)
  {
    Reachable([]);
    InitialOrdered();
    RunOrdered(Initial, es);
  }

  lemma InitialOrdered()
    ensures Ordered(Initial)
  {}

  /** Keys count submissions: a new ticket's key is greater than that of every ticket made
      before it. */
  lemma KeysCountSubmissions(es: seq<Event>, request: Request, origin: Origin)
    ensures forall t | t in Run(es).seen.submitted :: t.key < NewTicket(Run(es), request, origin).key
  {
    Reachable(es);
  }
}

/** The invariant holds along every run, and what that means for tickets. */
module TicketRuns {
  import opened Options
  import opened OrderedTickets
  import opened TicketProtocol
  import opened TicketInvariant
  import opened PlanFacts

  // ----- claiming ---------------------------------------------------------------

  lemma HandOfOne(m: Micro, u: Ticket)
    ensures Hand([m], u) == Is(InHand(m), u)
  {}

  lemma BeginCounts(pending: seq<Ticket>, m: Mail, s: Slots, t: Ticket)
    requires Conserved(pending, m, s, [Begin(t)], None)
    ensures forall u :: Holders(m, s, [Begin(t)], u) == Holders(m, s, [], u) + Is(Some(t), u)
    ensures Holders(m, s, [], t) == 0 && t !in m.queue
  {
    assert Holders(m, s, [Begin(t)], t) <= 1;
    forall u ensures Hand([Begin(t)], u) == Is(Some(t), u) { HandOfOne(Begin(t), u); }
  }

  lemma ThrowAwayHeld(pending: seq<Ticket>, m: Mail, s: Slots, t: Ticket, seen: History)
    requires Conserved(pending, m, s, [Begin(t)], None) && MadeHeld(m, s, [Begin(t)], seen.submitted)
    requires Waits(pending, m, [Begin(t)], seen.begun) && Touches(m, [Begin(t)], seen)
    requires t in m.invalidated
    ensures var m' := m.(invalidated := m.invalidated - {t});
            && Conserved(pending, m', s, [], None) && MadeHeld(m', s, [], seen.submitted)
            && Waits(pending, m', [], seen.begun) && Touches(m', [], seen) && Places(pending, s, [])
  {
    var m' := m.(invalidated := m.invalidated - {t});
    BeginCounts(pending, m, s, t);
    assert Waiting(m, [Begin(t)], t);
    forall u ensures Holders(m', s, [], u) == Holders(m, s, [], u) && Holders(m, s, [Begin(t)], u) <= 1 {}
    forall u | Waiting(m', [], u) ensures Waiting(m, [Begin(t)], u) && u != t {}
  }

  lemma ThrowAwayKeeps(s: State, t: Ticket)
    requires Inv(s) && s.todo == [Begin(t)] && t in s.mail.invalidated
    ensures Inv(BeginState(s.(todo := []), t))
  {
    ThrowAwayHeld(s.book.pending, s.mail, s.slots, t, s.seen);
    assert Exclusive(s.book.completed, s.mail.(invalidated := s.mail.invalidated - {t}), s.seen);
    hide Tables, Conserved, Futures, MadeBook, MadeHeld, MadeSeen, Waits, Started, Exclusive, Touches, Places;
  }

  lemma ClaimBook(b: Book, begun: set<Ticket>, t: Ticket, submitted: set<Ticket>)
    requires Tables(b) && Started(b, begun) && t in b.pending && Futures(b, submitted) && MadeBook(b, submitted)
    ensures var b' := b.(started := b.started + {t.Rid()});
            Tables(b') && Started(b', begun + {t}) && Futures(b', submitted) && MadeBook(b', submitted)
  {}

  lemma ClaimHeld(b: Book, m: Mail, s: Slots, t: Ticket, p: seq<Micro>, seen: History, next: nat)
    requires Conserved(b.pending, m, s, [Begin(t)], None) && MadeHeld(m, s, [Begin(t)], seen.submitted)
    requires Waits(b.pending, m, [Begin(t)], seen.begun) && Touches(m, [Begin(t)], seen)
    requires Futures(b, seen.submitted) && Exclusive(b.completed, m, seen) && MadeSeen(seen, next)
    requires PlanShape(p, t) && t in b.pending && t in seen.submitted
    ensures var seen' := seen.(begun := seen.begun + {t});
            && Conserved(b.pending, m, s, p, None) && MadeHeld(m, s, p, seen'.submitted)
            && Waits(b.pending, m, p, seen'.begun) && Touches(m, p, seen')
            && Exclusive(b.completed, m, seen') && MadeSeen(seen', next)
            && Shaped(p) && Places(b.pending, s, p)
  {
    ShapeFacts(p, t);
    BeginCounts(b.pending, m, s, t);
    forall u ensures Holders(m, s, p, u) == Holders(m, s, [Begin(t)], u) {}
    forall u | Touch(u) in p ensures u == t { assert About(Touch(u), u); }
  }

  ghost function Claimed(s: State, t: Ticket, p: seq<Micro>): State {
    s.(book := s.book.(started := s.book.started + {t.Rid()}),
       seen := s.seen.(begun := s.seen.begun + {t}), todo := p)
  }

  lemma ClaimedTicket(s: State, t: Ticket)
    requires Inv(s) && s.todo == [Begin(t)] && t !in s.mail.invalidated
    ensures t in s.book.pending && t in s.seen.submitted
  {}

  lemma ClaimKeeps(s: State, t: Ticket, p: seq<Micro>)
    requires Inv(s) && s.todo == [Begin(t)] && PlanShape(p, t) && t !in s.mail.invalidated
    ensures Inv(Claimed(s, t, p))
  {
    ClaimedTicket(s, t);
    ClaimBook(s.book, s.seen.begun, t, s.seen.submitted);
    ClaimHeld(s.book, s.mail, s.slots, t, p, s.seen, s.next);
    ShapeFacts(p, t);
    hide Tables, Conserved, Futures, MadeBook, MadeHeld, MadeSeen, Waits, Started, Exclusive, Touches, Shaped, Places;
  }

  lemma BeginStepKeeps(s: State, t: Ticket, v: View)
    requires Inv(s) && s.todo != [] && s.todo[0] == Begin(t)
    ensures Inv(OwnerMove(s, v))
  {
    assert s.todo == [Begin(t)];
    hide Core, Down;
    if t in s.mail.invalidated { ThrowAwayKeeps(s, t); } else {
      var p := Plan(s.slots, t, v);
      PlanHasShape(s.slots, t, v);
      ClaimKeeps(s, t, p);
      assert p + [] == p;
      hide Plan;
    }
  }

  lemma OwnerMoveKeeps(s: State, v: View)
    requires Inv(s)
    ensures Inv(OwnerMove(s, v))
  {
    hide Inv;
    if s.todo != [] {
      match s.todo[0]
      case Begin(t) => BeginStepKeeps(s, t, v);
      case Touch(t) => TouchStepKeeps(s, t);
      case Accept(t) => AcceptStepKeeps(s, t);
      case Finish(t, r) => FinishStepKeeps(s, t, r);
      case Settle(slot, r) => SettleKeeps(s, slot, r);
      case Complete(slot, r) => CompleteKeeps(s, slot, r);
      case Place(slot, t) => PlaceStepKeeps(s, slot, t);
      case Clear(r) => ClearStepKeeps(s, r);
      case Forget => ForgetStepKeeps(s);
    }
  }

  // ----- starting a section -----------------------------------------------------

  lemma SlotSectionHeld(pending: seq<Ticket>, m: Mail, s: Slots, todo: seq<Micro>, seen: History)
    requires Conserved(pending, m, s, [], None) && MadeHeld(m, s, [], seen.submitted)
    requires Waits(pending, m, [], seen.begun) && Touches(m, [], seen)
    requires forall a | a in todo :: a.Settle? || a.Complete?
    ensures Conserved(pending, m, s, todo, None) && MadeHeld(m, s, todo, seen.submitted)
    ensures Waits(pending, m, todo, seen.begun) && Touches(m, todo, seen)
    ensures Shaped(todo) && Places(pending, s, todo) && !Clearing(todo)
  {
    forall u ensures Holders(m, s, todo, u) == Holders(m, s, [], u) { NoHand(todo, u); }
    assert forall i | 0 <= i < |todo| :: todo[i] in todo;
    assert forall t :: Touch(t) !in todo && Begin(t) !in todo;
  }

  /** Work that touches nothing but the slots' tickets. */
  lemma SlotSectionKeeps(s: State, todo: seq<Micro>)
    requires Inv(s) && s.todo == [] && forall a | a in todo :: a.Settle? || a.Complete?
    ensures Inv(s.(todo := todo))
  {
    SlotSectionHeld(s.book.pending, s.mail, s.slots, todo, s.seen);
    hide Tables, Conserved, Futures, MadeBook, MadeHeld, MadeSeen, Waits, Started, Exclusive, Touches, Shaped, Places;
  }

  lemma ShutdownHeld(pending: seq<Ticket>, m: Mail, s: Slots, todo: seq<Micro>, todo': seq<Micro>, seen: History)
    requires Conserved(pending, m, s, todo, None) && MadeHeld(m, s, todo, seen.submitted)
    requires |todo'| == 2 && todo'[0].Clear? && todo'[1] == Forget
    ensures Conserved(pending, m, s, todo', None) && MadeHeld(m, s, todo', seen.submitted) && Clearing(todo')
  {
    forall u ensures Holders(m, s, todo', u) <= Holders(m, s, todo, u) { NoHand(todo', u); }
  }

  lemma ShutdownShape(pending: seq<Ticket>, m: Mail, s: Slots, todo: seq<Micro>, todo': seq<Micro>, seen: History)
    requires Waits(pending, m, todo, seen.begun) && Touches(m, todo, seen)
    requires |todo'| == 2 && todo'[0].Clear? && todo'[1] == Forget
    ensures Waits(pending, m, todo', seen.begun) && Touches(m, todo', seen)
    ensures Shaped(todo') && Places(pending, s, todo')
  {
    assert forall u :: Waiting(m, todo', u) ==> Waiting(m, todo, u);
  }

  lemma ShutdownKeeps(s: State, fault: bool)
    requires Inv(s) && s.stopped
    ensures Inv(s.(fault := fault, todo := ShutdownPlan(fault)))
  {
    ShutdownHeld(s.book.pending, s.mail, s.slots, s.todo, ShutdownPlan(fault), s.seen);
    ShutdownShape(s.book.pending, s.mail, s.slots, s.todo, ShutdownPlan(fault), s.seen);
    hide Tables, Conserved, Futures, MadeBook, MadeHeld, MadeSeen, Waits, Started, Exclusive, Touches, Shaped, Places;
  }

  lemma TakeCommandHeld(pending: seq<Ticket>, m: Mail, s: Slots, seen: History)
    requires Conserved(pending, m, s, [], None) && MadeHeld(m, s, [], seen.submitted) && m.queue != []
    requires Waits(pending, m, [], seen.begun) && Touches(m, [], seen)
    ensures var m' := m.(queue := m.queue[1..]);
            var todo := [Begin(m.queue[0])];
            && Conserved(pending, m', s, todo, None) && MadeHeld(m', s, todo, seen.submitted)
            && Waits(pending, m', todo, seen.begun) && Touches(m', todo, seen)
            && Shaped(todo) && Places(pending, s, todo)
  {
    var m' := m.(queue := m.queue[1..]);
    var t := m.queue[0];
    assert m.queue == [t] + m.queue[1..];
    forall u ensures Holders(m', s, [Begin(t)], u) == Holders(m, s, [], u) { HandOfOne(Begin(t), u); }
    assert Holders(m, s, [], t) > 0;
    assert forall u :: Waiting(m', [Begin(t)], u) ==> Waiting(m, [], u);
  }

  lemma TakeCommandKeeps(s: State)
    requires Inv(s) && s.todo == [] && s.mail.queue != []
    ensures Inv(StartSection(s, TakeCommand))
  {
    TakeCommandHeld(s.book.pending, s.mail, s.slots, s.seen);
    assert Exclusive(s.book.completed, s.mail.(queue := s.mail.queue[1..]), s.seen);
    hide Tables, Conserved, Futures, MadeBook, MadeHeld, MadeSeen, Waits, Started, Exclusive, Touches, Shaped, Places;
  }

  ghost predicate Tracks(a: Micro, o: Option<Ticket>) {
    (a.Touch? || a.Accept? || a.Finish?) && o == Some(a.t)
  }

  lemma TrackPlanFacts(o: Option<Ticket>, alert: bool, expired: bool)
    ensures forall u :: Hand(TrackPlan(o, alert, expired), u) == Is(o, u)
    ensures forall a | a in TrackPlan(o, alert, expired) :: Tracks(a, o)
  {
    var p := TrackPlan(o, alert, expired);
    if o.Some? {
      if !alert && !expired {
        assert p == [Touch(o.value), Accept(o.value), Finish(o.value, CommandResult(Completed, CompletedCode))];
      }
      assert OneDisposal(p, |p| - 1, o.value);
      forall u ensures Hand(p, u) == Is(o, u) { HandOne(p, |p| - 1, o.value, u); }
    }
  }

  lemma {:induction false} HandAppend(p: seq<Micro>, q: seq<Micro>, t: Ticket)
    ensures Hand(p + q, t) == Hand(p, t) + Hand(q, t)
  {
    if p == [] { assert p + q == q; } else {
      assert (p + q)[1..] == p[1..] + q;
      HandAppend(p[1..], q, t);
    }
  }

  lemma TakenCounts(m: Mail, s: Slots, todo: seq<Micro>)
    requires forall u :: Hand(todo, u) == Is(m.point, u) + Is(m.bearing, u)
    ensures forall u :: Holders(m.(point := None, bearing := None), s, todo, u) == Holders(m, s, [], u)
  {}

  lemma TakenTodo(m: Mail, s: Slots, todo: seq<Micro>, pending: seq<Ticket>, seen: History)
    requires Waits(pending, m, [], seen.begun) && Touches(m, [], seen)
    requires forall a | a in todo :: Tracks(a, m.point) || Tracks(a, m.bearing)
    ensures var m' := m.(point := None, bearing := None);
            Waits(pending, m', todo, seen.begun) && Touches(m', todo, seen)
  {
    assert forall u :: Waiting(m.(point := None, bearing := None), todo, u) ==> Waiting(m, [], u);
  }

  lemma TakenShape(m: Mail, s: Slots, todo: seq<Micro>, pending: seq<Ticket>, seen: History)
    requires MadeHeld(m, s, [], seen.submitted)
    requires forall a | a in todo :: Tracks(a, m.point) || Tracks(a, m.bearing)
    ensures forall a, u :: a in todo && About(a, u) ==> u in seen.submitted
    ensures Shaped(todo) && Places(pending, s, todo) && !Clearing(todo)
  {
    assert forall i | 0 <= i < |todo| :: todo[i] in todo;
    forall a, u | a in todo && About(a, u) ensures u in seen.submitted { assert Holders(m, s, [], u) > 0; }
  }

  lemma TakenHeld(pending: seq<Ticket>, m: Mail, s: Slots, todo: seq<Micro>, seen: History)
    requires Conserved(pending, m, s, [], None) && MadeHeld(m, s, [], seen.submitted)
    requires forall a, u :: a in todo && About(a, u) ==> u in seen.submitted
    requires forall u :: Hand(todo, u) == Is(m.point, u) + Is(m.bearing, u)
    ensures var m' := m.(point := None, bearing := None);
            Conserved(pending, m', s, todo, None) && MadeHeld(m', s, todo, seen.submitted)
  {
    TakenCounts(m, s, todo);
    hide Holders;
  }

  lemma TakeTrackingKeeps(s: State, alert: bool, pointExpired: bool, bearingExpired: bool)
    requires Inv(s) && s.todo == []
    ensures Inv(StartSection(s, TakeTracking(alert, pointExpired, bearingExpired)))
  {
    var p, q := TrackPlan(s.mail.point, alert, pointExpired), TrackPlan(s.mail.bearing, alert, bearingExpired);
    TrackPlanFacts(s.mail.point, alert, pointExpired);
    TrackPlanFacts(s.mail.bearing, alert, bearingExpired);
    forall u ensures Hand(p + q, u) == Is(s.mail.point, u) + Is(s.mail.bearing, u) { HandAppend(p, q, u); }
    TakenTodo(s.mail, s.slots, p + q, s.book.pending, s.seen);
    TakenShape(s.mail, s.slots, p + q, s.book.pending, s.seen);
    TakenHeld(s.book.pending, s.mail, s.slots, p + q, s.seen);
    TakenDown(s, p + q);
    assert Exclusive(s.book.completed, s.mail.(point := None, bearing := None), s.seen);
    hide Tables, Conserved, Futures, MadeBook, MadeHeld, MadeSeen, Waits, Started, Exclusive, Touches, Shaped, Places;
    hide TrackPlan, Down;
  }

  lemma TakenDown(s: State, todo: seq<Micro>)
    requires Inv(s) && s.todo == []
    requires forall a | a in todo :: Tracks(a, s.mail.point) || Tracks(a, s.mail.bearing)
    ensures Downed(s.(mail := s.mail.(point := None, bearing := None), todo := todo))
  {}

  lemma FlagKeeps(s: State, disconnect: bool, stopped: bool)
    requires Inv(s) && (s.stopped ==> stopped)
    ensures Inv(s.(disconnect := disconnect, stopped := stopped))
  {}

  lemma HandleDisconnectKeeps(s: State)
    requires Inv(s) && s.todo == [] && s.disconnect
    ensures Inv(StartSection(s, HandleDisconnect))
  {
    var r := CommandResult(Cancelled, Disconnected);
    assert SlotWork(CancelAll(Disconnected), s.stopped);
    hide Core, Down;
    ClearKeeps(s, r, CancelAll(Disconnected));
    FlagKeeps(Cleared(s, r, CancelAll(Disconnected)), false, s.stopped);
  }

  lemma StartSectionKeeps(s: State, e: Event)
    requires Inv(s) && !TransportEvent(e) && !e.OwnerStep? && !e.Abort?
    ensures Inv(StartSection(s, e))
  {
    hide Inv;
    if s.todo == [] {
      match e
      case HandleDisconnect => if s.disconnect { HandleDisconnectKeeps(s); }
      case TakeTracking(alert, pointExpired, bearingExpired) =>
        TakeTrackingKeeps(s, alert, pointExpired, bearingExpired);
      case TakeCommand => if s.mail.queue != [] { TakeCommandKeeps(s); }
      case OverTemperature => SlotSectionKeeps(s, CancelAll(ShoulderOverTemperature));
      case ObserveOrientation(_, _, _) => SlotSectionKeeps(s, StartSection(s, e).todo);
      case UpdateActive(_, _) => SlotSectionKeeps(s, StartSection(s, e).todo);
      case Shutdown => if s.stopped { ShutdownKeeps(s, s.fault); }
    }
  }

  lemma AbortKeeps(s: State, raised: bool)
    requires Inv(s)
    ensures Inv(AbortState(s, raised))
  {
    hide Core, Down;
    FlagKeeps(s, s.disconnect, true);
    ShutdownKeeps(s.(stopped := true), s.fault || raised);
  }

  /** One step of anyone keeps the invariant. */
  lemma StepKeeps(s: State, e: Event)
    requires Inv(s)
    ensures Inv(Step(s, e))
  {
    hide Inv, StartSection, OwnerMove, SubmitState, InvalidateState, AbortState;
    match e
    case Submit(request, origin) => SubmitKeeps(s, request, origin);
    case RemoteDisconnected => FlagKeeps(s, true, s.stopped);
    case Invalidate(t) => InvalidateStepKeeps(s, t);
    case Stop => FlagKeeps(s, s.disconnect, true);
    case OwnerStep(v) => OwnerMoveKeeps(s, v);
    case Abort(raised) => AbortKeeps(s, raised);
    case _ => StartSectionKeeps(s, e);
  }

  lemma InvalidateStepKeeps(s: State, t: Ticket)
    requires Inv(s)
    ensures Inv(InvalidateState(s, t))
  {
    InvalidateKeeps(s, t);
    FinishDown(s, t, CommandResult(Cancelled, LocalDisconnected));
    hide Core;
  }

  lemma {:induction false} RunKeeps(s: State, es: seq<Event>)
    requires Inv(s)
    ensures Inv(RunFrom(s, es))
    decreases |es|
  {
    hide Inv, Step;
    if es != [] {
      StepKeeps(s, es[0]);
      RunKeeps(Step(s, es[0]), es[1..]);
    }
  }

  /** Every state of every interleaving satisfies the invariant. */
  lemma Reachable(es: seq<Event>)
    ensures Inv(Run(es))
  {
    RunKeeps(Initial, es);
  }
}

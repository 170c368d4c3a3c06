/** The local socket server: which connections still wait for a ticket, and who
    may invalidate it when they go away. */
module LocalControl {
  import opened Options
  import opened OrderedTickets
  import opened TicketProtocol
  import opened TicketInvariant
  import opened TicketRuns
  import opened TicketTheorems
  import opened MotionController

  /** One reply a connection is waiting for. */
  datatype Hold = Hold(connection: nat, number: nat)

  ghost function HoldsOf(held: map<Hold, Ticket>, t: Ticket): set<Hold> {
    set h | h in held && held[h] == t
  }

  /** The holder table counts the live holds of every ticket. */
  ghost predicate Counted(holders: map<Ticket, nat>, held: map<Hold, Ticket>) {
    forall t :: if t in holders then holders[t] == |HoldsOf(held, t)| && holders[t] > 0
                else HoldsOf(held, t) == {}
  }

  lemma HoldMore(held: map<Hold, Ticket>, h: Hold, t: Ticket)
    requires h !in held
    ensures HoldsOf(held[h := t], t) == HoldsOf(held, t) + {h}
    ensures forall u | u != t :: HoldsOf(held[h := t], u) == HoldsOf(held, u)
  {}

  lemma HoldLess(held: map<Hold, Ticket>, h: Hold)
    requires h in held
    ensures HoldsOf(held - {h}, held[h]) == HoldsOf(held, held[h]) - {h}
    ensures forall u | u != held[h] :: HoldsOf(held - {h}, u) == HoldsOf(held, u)
  {}

  class UnixServer {
    const controller: Controller
    var ticketHolders: map<Ticket, nat>
    var held: map<Hold, Ticket>

    ghost predicate Valid()
      reads this
    {
      Counted(ticketHolders, held) && forall h | h in held :: held[h].origin == Local
    }

    constructor (controller: Controller)
      ensures Valid() && this.controller == controller && held == map[]
    {
      this.controller := controller;
      ticketHolders, held := map[], map[];
    }

    method HoldTicket(h: Hold, t: Ticket)
      requires Valid() && h !in held && t.origin == Local
      modifies this`ticketHolders, this`held
      ensures Valid() && held == old(held)[h := t]
    {
      HoldMore(held, h, t);
      ticketHolders := ticketHolders[t := if t in ticketHolders then ticketHolders[t] + 1 else 1];
      held := held[h := t];
    }

    /** A decoded line: the request is submitted and its reply waited for. */
    method Receive(h: Hold, request: Request) returns (t: Ticket)
      requires Valid() && h !in held
      modifies this`ticketHolders, this`held, controller
      ensures Valid() && held == old(held)[h := t]
      ensures t == SubmitTicket(old(controller.Abs()), request, Local)
      ensures controller.Abs() == Step(old(controller.Abs()), Submit(request, Local))
      ensures old(Inv(controller.Abs())) ==> Inv(controller.Abs())
    {
      t := controller.Submit(request, Local);
      hide Step, Inv;
      HoldTicket(h, t);
    }

    /** Only the last holder of a ticket offers it for invalidation; while anyone
        else waits for it the controller is not touched. */
    method ReleaseHolder(h: Hold)
      requires Valid()
      modifies this`ticketHolders, this`held, controller
      ensures Valid() && held == old(held) - {h}
      ensures h !in old(held) || HoldsOf(held, old(held)[h]) != {} ==> controller.Abs() == old(controller.Abs())
      ensures h in old(held) && HoldsOf(held, old(held)[h]) == {} ==>
                controller.Abs() == Step(old(controller.Abs()), Invalidate(old(held)[h]))
      ensures old(Inv(controller.Abs())) ==> Inv(controller.Abs())
    {
      hide Step, Inv;
      if h !in held {
        assert held - {h} == held;
        return;
      }
      var t := held[h];
      assert h in HoldsOf(held, t);
      assert t in ticketHolders && ticketHolders[t] == |HoldsOf(held, t)|;
      HoldLess(held, h);
      held := held - {h};
      if ticketHolders[t] > 1 {
        ticketHolders := ticketHolders[t := ticketHolders[t] - 1];
      } else {
        ticketHolders := ticketHolders - {t};
        var _ := controller.InvalidateUnstarted(t);
      }
    }

    /** A connection ends: all its holds are released. No ticket that thereby lost
        its last holder can still be claimed by the owner. */
    method Close(connection: nat)
      requires Valid() && Inv(controller.Abs())
      modifies this`ticketHolders, this`held, controller
      ensures Valid() && Inv(controller.Abs())
      ensures forall h :: h in held <==> h in old(held) && h.connection != connection
      ensures forall h | h in held :: held[h] == old(held)[h]
      ensures forall h | h in old(held) && HoldsOf(held, old(held)[h]) == {} ::
                !CanInvalidate(controller.Abs().book, old(held)[h])
    {
      ghost var before := held;
      var mine := set h | h in held && h.connection == connection;
      hide Inv, Step, Counted, CanInvalidate;
      NoneReleased(before, ticketHolders, controller.Abs().book);
      while mine != {}
        invariant Valid() && Inv(controller.Abs())
        invariant mine == set h | h in held && h.connection == connection
        invariant forall h :: h in held <==> h in before && (h.connection != connection || h in mine)
        invariant forall h | h in held :: held[h] == before[h]
        invariant Released(before, held, controller.Abs().book)
        decreases mine
      {
        var h :| h in mine;
        ghost var held0, s0 := held, controller.Abs();
        ReleaseHolder(h);
        ReleaseKeeps(before, held0, h, s0, controller.Abs());
        mine := mine - {h};
      }
      hide HoldsOf;
    }
  }

  /** Tickets without a holder left are out of reach of the owner. */
  ghost predicate Released(before: map<Hold, Ticket>, held: map<Hold, Ticket>, b: Book) {
    forall h | h in before && HoldsOf(held, before[h]) == {} :: !CanInvalidate(b, before[h])
  }

  lemma NoneReleased(held: map<Hold, Ticket>, holders: map<Ticket, nat>, b: Book)
    ensures Released(held, held, b)
  {
    forall h | h in held ensures h in HoldsOf(held, held[h]) {}
  }

  /** Invalidating a ticket once leaves nothing to invalidate, and gives no other
      ticket the chance. */
  lemma InvalidateOnce(s: State, t: Ticket, u: Ticket)
    requires Inv(s) && !CanInvalidate(s.book, u)
    ensures !CanInvalidate(InvalidateState(s, t).book, u)
  {
    FinishPending(s.book, t, CommandResult(Cancelled, LocalDisconnected));
    FindIsMember(s.book.pending, u);
    FindIsMember(FinishTicket(s.book, t, CommandResult(Cancelled, LocalDisconnected)).pending, u);
    if t in s.book.pending && u in s.book.pending && t.Rid() == u.Rid() { SameRid(s.book.pending, t, u); }
  }

  lemma InvalidateDone(s: State, t: Ticket)
    requires Inv(s)
    ensures !CanInvalidate(InvalidateState(s, t).book, t)
  {}

  lemma ReleaseKeeps(before: map<Hold, Ticket>, held: map<Hold, Ticket>, h: Hold, s: State, s': State)
    requires Inv(s) && Released(before, held, s.book) && h in held && h in before && held[h] == before[h]
    requires HoldsOf(held - {h}, held[h]) != {} ==> s' == s
    requires HoldsOf(held - {h}, held[h]) == {} ==> s' == Step(s, Invalidate(held[h]))
    ensures Released(before, held - {h}, s'.book)
  {
    HoldLess(held, h);
    forall g | g in before && HoldsOf(held - {h}, before[g]) == {}
      ensures !CanInvalidate(s'.book, before[g])
    {
      if before[g] == held[h] { InvalidateDone(s, held[h]); } else { InvalidateOnceIf(s, held[h], before[g]); }
    }
  }

  lemma InvalidateOnceIf(s: State, t: Ticket, u: Ticket)
    requires Inv(s) && !CanInvalidate(s.book, u)
    ensures !CanInvalidate(Step(s, Invalidate(t)).book, u)
  {
    InvalidateOnce(s, t, u);
  }

  // ----- with the owner and other connections at work -------------------------------

  /** A ticket of a local client can be invalidated exactly while it was neither answered
      nor claimed. */
  lemma InvalidableIff(s: State, t: Ticket)
    requires Inv(s) && t in s.seen.submitted && t.origin == Local
    ensures CanInvalidate(s.book, t) <==> t !in s.book.accepted && t !in s.seen.begun
  {
    FindIsMember(s.book.pending, t);
  }

  ghost predicate SeenGrows(s: State, s': State) {
    s.seen.begun <= s'.seen.begun && s.seen.submitted <= s'.seen.submitted
  }

  lemma DoSees(s: State, m: Micro)
    ensures SeenGrows(s, Do(s, m))
  {}

  lemma OwnerSees(s: State, v: View)
    ensures SeenGrows(s, OwnerMove(s, v))
  {
    if s.todo != [] { DoSees(s.(todo := s.todo[1..]), s.todo[0]); }
    hide Do, Plan;
  }

  lemma SectionSees(s: State, e: Event)
    requires !TransportEvent(e) && !e.OwnerStep? && !e.Abort?
    ensures SeenGrows(s, StartSection(s, e))
  {
    DoSees(s, Clear(CommandResult(Cancelled, Disconnected)));
    hide Do, TrackPlan, SettleIf, CompleteIf;
  }

  lemma SubmitSees(s: State, request: Request, origin: Origin)
    ensures SeenGrows(s, SubmitState(s, request, origin))
  {
    hide Deliver, FinishTicket;
  }

  lemma StepSees(s: State, e: Event)
    ensures SeenGrows(s, Step(s, e))
  {
    hide StartSection, OwnerMove, SubmitState, FinishTicket;
    match e
    case Submit(request, origin) => SubmitSees(s, request, origin);
    case OwnerStep(v) => OwnerSees(s, v);
    case RemoteDisconnected =>
    case Invalidate(_) =>
    case Stop =>
    case Abort(_) =>
    case _ => SectionSees(s, e);
  }

  /** Once it cannot, it never can again, whatever any thread does: between the releases of
      a closing connection too. */
  lemma {:induction false} OutOfReachForEver(s: State, es: seq<Event>, t: Ticket)
    requires Inv(s) && t in s.seen.submitted && !CanInvalidate(s.book, t)
    ensures !CanInvalidate(RunFrom(s, es).book, t)
    decreases |es|
  {
    if es != [] && t.origin == Local {
      var s1 := Step(s, es[0]);
      InvalidableIff(s, t);
      StepExtends(s, es[0]);
      StepSees(s, es[0]);
      StepKeeps(s, es[0]);
      InvalidableIff(s1, t);
      hide Inv, Step, CanInvalidate;
      OutOfReachForEver(s1, es[1..], t);
    }
  }
}

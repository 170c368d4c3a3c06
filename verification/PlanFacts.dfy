/** The shape of the owner's plans: every plan disposes of its ticket exactly
    once, and empties a slot before it places a ticket there. */
module PlanFacts {
  import opened Options
  import opened OrderedTickets
  import opened TicketProtocol
  import opened TicketInvariant

  /** Only the k-th micro-action disposes of a ticket, and the ticket is `t`. */
  ghost predicate OneDisposal(p: seq<Micro>, k: nat, t: Ticket) {
    && k < |p|
    && InHand(p[k]) == Some(t) && !p[k].Begin?
    && (forall i | 0 <= i < |p| && i != k :: InHand(p[i]).None?)
  }

  lemma {:induction false} HandOne(p: seq<Micro>, k: nat, t: Ticket, u: Ticket)
    requires OneDisposal(p, k, t)
    ensures Hand(p, u) == Is(Some(t), u)
  {
    if k == 0 {
      forall m | m in p[1..] ensures InHand(m).None? {
        var i :| 0 <= i < |p| - 1 && p[1..][i] == m;
        assert p[i + 1] == m;
      }
      NoHand(p[1..], u);
    } else {
      assert InHand(p[0]).None?;
      HandOne(p[1..], k - 1, t, u);
    }
  }

  ghost predicate Names(m: Micro, t: Ticket) { forall u :: About(m, u) ==> u == t }

  /** Its slot work precedes the placing, which only `Accept` may follow. */
  ghost predicate PlanShape(p: seq<Micro>, t: Ticket) {
    && (exists k :: OneDisposal(p, k, t))
    && (forall i | 0 <= i < |p| :: !p[i].Begin? && !p[i].Clear? && !p[i].Forget? && Names(p[i], t))
    && (forall i | 0 <= i < |p| && p[i].Place? :: exists j | 0 <= j < i :: Settles(p[j], p[i].into))
  }

  /** Answering a ticket, after any work that disposes of none. */
  lemma FinishShape(p: seq<Micro>, t: Ticket)
    requires p != [] && p[|p| - 1].Finish? && p[|p| - 1].t == t
    requires forall i | 0 <= i < |p| - 1 :: p[i].Touch? || p[i].Accept? || p[i].Settle?
    requires forall i | 0 <= i < |p| - 1 :: Names(p[i], t)
    ensures PlanShape(p, t)
  {
    assert OneDisposal(p, |p| - 1, t);
  }

  lemma PlaceShape(p: seq<Micro>, k: nat, t: Ticket)
    requires k < |p| && p[k].Place? && p[k].t == t
    requires exists j | 0 <= j < k :: Settles(p[j], p[k].into)
    requires forall i | 0 <= i < |p| && i != k :: p[i].Touch? || p[i].Accept? || p[i].Settle?
    requires forall i | 0 <= i < |p| :: Names(p[i], t)
    ensures PlanShape(p, t)
  {
    assert OneDisposal(p, k, t);
  }

  lemma PlayShape(s: Slots, t: Ticket, v: View)
    ensures PlanShape(PlayPlan(s, t, v), t)
  {
    var p := PlayPlan(s, t, v);
    if |p| == 1 { FinishShape(p, t); } else {
      assert Settles(p[1], Active);
      PlaceShape(p, 2, t);
    }
  }

  lemma AcquireShape(t: Ticket, v: View)
    ensures PlanShape(AcquirePlan(t, v), t)
  {
    var p := AcquirePlan(t, v);
    if p[|p| - 1].Finish? { FinishShape(p, t); } else {
      assert Settles(p[2], Orientation);
      PlaceShape(p, 4, t);
    }
  }

  lemma ReturnShape(s: Slots, t: Ticket, v: View)
    ensures PlanShape(ReturnPlan(s, t, v), t)
  {
    var p := ReturnPlan(s, t, v);
    if p[|p| - 1].Finish? { FinishShape(p, t); } else {
      assert Settles(p[2], Returning);
      PlaceShape(p, 3, t);
    }
  }

  lemma TaskShape(s: Slots, t: Ticket, v: View)
    ensures PlanShape(TaskPlan(s, t, v), t)
  {
    var p := TaskPlan(s, t, v);
    if p[|p| - 1].Finish? { FinishShape(p, t); } else {
      assert Settles(p[1], Task);
      PlaceShape(p, 2, t);
    }
  }

  lemma PlanHasShape(s: Slots, t: Ticket, v: View)
    ensures PlanShape(Plan(s, t, v), t)
  {
    var p := Plan(s, t, v);
    hide PlayPlan, AcquirePlan, ReturnPlan, TaskPlan, PlanShape;
    if v.expired || (v.alert && !AllowedHot(t.request.kind)) {
      FinishShape(p, t);
    } else {
      match t.request.kind
      case MotionPlay => PlayShape(s, t, v);
      case OrientationAcquire => AcquireShape(t, v);
      case OrientationReturn => ReturnShape(s, t, v);
      case TaskPlace => TaskShape(s, t, v);
      case TaskCancel => TaskShape(s, t, v);
      case TaskClear => TaskShape(s, t, v);
      case MotionCancel => FinishShape(StopMotionPlan(s, t), t);
      case MotionInterrupt => FinishShape(StopMotionPlan(s, t), t);
      case FaceStep => FinishShape(FacePlan(s, t, v), t);
      case AwayHold => FinishShape(AwayPlan(s, t, v), t);
      case _ => FinishShape(p, t);
    }
  }

  lemma ShapeFacts(p: seq<Micro>, t: Ticket)
    requires PlanShape(p, t)
    ensures Shaped(p) && !Clearing(p)
    ensures forall u :: Hand(p, u) == Is(Some(t), u)
    ensures forall pending, slots: Slots :: Places(pending, slots, p)
    ensures forall m | m in p :: !m.Begin? && m != Forget && Names(m, t)
  {
    var k :| OneDisposal(p, k, t);
    forall u ensures Hand(p, u) == Is(Some(t), u) { HandOne(p, k, t, u); }
    forall i | 0 <= i < |p| && p[i].Place? ensures i == k { assert InHand(p[i]).Some?; }
  }
}

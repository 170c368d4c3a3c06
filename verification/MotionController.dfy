/** The motion controller's critical sections as imperative code, each proved to
    be the corresponding step of the ticket protocol. */
module MotionController {
  import opened Options
  import opened OrderedTickets
  import opened TicketProtocol
  import opened TicketInvariant
  import opened TicketRuns
  import PlanFacts

  class Controller {
    // Insertion-ordered dictionaries from request ID to ticket.
    var pending: seq<Ticket>
    var recent: seq<Ticket>
    // The bounded command queue and the two latest-wins slots.
    var queue: seq<Ticket>
    var latestPoint: Option<Ticket>
    var latestBearing: Option<Ticket>
    var started: set<string>
    var invalidated: set<Ticket>
    var disconnect: bool
    var stopEvent: bool
    var fault: bool
    // Owned by the owner thread.
    var active: Option<Ticket>
    var taskTicket: Option<Ticket>
    var orientationTicket: Option<Ticket>
    var returnTicket: Option<Ticket>
    // The futures of all tickets made so far, and the next ticket's identity.
    var accepted: map<Ticket, CommandResult>
    var completed: map<Ticket, CommandResult>
    var next: nat
    ghost var seen: History
    // What the owner still has to do: empty between two of its sections, anything when a
    // transport call finds it in the middle of one.
    ghost var work: seq<Micro>

    /** The protocol state. */
    ghost function Abs(): State
      reads this
    {
      State(Book(pending, recent, started, accepted, completed),
            Mail(queue, latestPoint, latestBearing, invalidated),
            Slots(active, taskTicket, orientationTicket, returnTicket),
            work, disconnect, stopEvent, fault, next, seen)
    }

    constructor ()
      ensures Abs() == Initial && Inv(Abs())
    {
      pending, recent, queue := [], [], [];
      latestPoint, latestBearing := None, None;
      started, invalidated := {}, {};
      disconnect, stopEvent, fault := false, false, false;
      active, taskTicket, orientationTicket, returnTicket := None, None, None, None;
      accepted, completed, next := map[], map[], 0;
      seen, work := History({}, {}, {}, {}, false), [];
      new;
      Reachable([]);
    }

    // ----- bookkeeping ----------------------------------------------------------

    method Remember(t: Ticket)
      modifies this`recent
      ensures recent == TicketProtocol.Remember(old(recent), t)
    {
      recent := Without(recent, t.Rid()) + [t];
      ghost var all := recent;
      while |recent| > RECENT_SIZE
        invariant |recent| <= |all| && recent == all[|all| - |recent|..]
        invariant |recent| >= RECENT_SIZE || recent == all
      {
        recent := recent[1..];
      }
    }

    method Accept(t: Ticket)
      modifies this`accepted
      ensures Abs() == old(Abs()).(book := AcceptTicket(old(Abs()).book, t))
      ensures Abs() == Do(old(Abs()), Micro.Accept(t))
    {
      if t !in accepted { accepted := accepted[t := CommandResult(Accepted, AcceptedCode)]; }
    }

    method Finish(t: Ticket, r: CommandResult)
      modifies this`pending, this`recent, this`started, this`accepted, this`completed
      ensures Abs() == old(Abs()).(book := FinishTicket(old(Abs()).book, t, r))
      ensures Abs() == Do(old(Abs()), Micro.Finish(t, r))
    {
      hide Without, Find, TicketProtocol.Remember, Resolve, Do;
      DoFinish(Abs(), t, r);
      Retire(t);
      ResolveBoth(t, r);
    }

    method ResolveBoth(t: Ticket, r: CommandResult)
      modifies this`accepted, this`completed
      ensures accepted == Resolve(old(accepted), t, r) && completed == Resolve(old(completed), t, r)
    {
      if t !in accepted { accepted := accepted[t := r]; }
      if t !in completed { completed := completed[t := r]; }
    }

    /** A pending ticket leaves the pending table and is remembered as recent. */
    method Retire(t: Ticket)
      modifies this`pending, this`recent, this`started
      ensures var mine := Find(old(pending), t.Rid()) == Some(t);
              && pending == (if mine then Without(old(pending), t.Rid()) else old(pending))
              && recent == (if mine then TicketProtocol.Remember(old(recent), t) else old(recent))
              && started == (if mine then old(started) - {t.Rid()} else old(started))
    {
      if Find(pending, t.Rid()) == Some(t) {
        started := started - {t.Rid()};
        pending := Without(pending, t.Rid());
        Remember(t);
      }
    }

    // ----- transport threads ----------------------------------------------------

    method Submit(request: Request, origin: Origin) returns (t: Ticket)
      modifies this
      ensures t == SubmitTicket(old(Abs()), request, origin)
      ensures Abs() == Step(old(Abs()), Event.Submit(request, origin))
      ensures old(Inv(Abs())) ==> Inv(Abs())
    {
      hide Without, TicketProtocol.Remember, FinishTicket, TicketProtocol.Deliver, Inv;
      hide StartSection, OwnerMove, InvalidateState;
      ghost var s := Abs();
      var cached := Find(pending, request.id);
      if cached.None? { cached := Find(recent, request.id); }
      if cached.None? {
        t := SubmitNew(request, origin);
      } else if cached.value.origin != origin {
        t := Create(request, origin);
        Finish(t, CommandResult(Failed, RequestIdCollision));
      } else {
        t := cached.value;
        recent := MoveToEnd(recent, request.id);
      }
      StepKeepsIf(s, Event.Submit(request, origin));
    }

    method SubmitNew(request: Request, origin: Origin) returns (t: Ticket)
      modifies this
      ensures t == NewTicket(old(Abs()), request, origin)
      ensures var s := old(Abs());
              var (book, mail) := TicketProtocol.Deliver(s.fault, s.stopped, s.mail, Enter(s.book, t), t);
              Abs() == s.(book := book, mail := mail, next := s.next + 1,
                          seen := s.seen.(submitted := s.seen.submitted + {t}))
    {
      hide TicketProtocol.Remember, TicketProtocol.Deliver;
      t := Create(request, origin);
      Remember(t);
      pending := pending + [t];
      Deliver(t);
    }

    method Create(request: Request, origin: Origin) returns (t: Ticket)
      modifies this`next, this`seen
      ensures t == NewTicket(old(Abs()), request, origin)
      ensures Abs() == old(Abs()).(next := old(next) + 1,
                                   seen := old(seen).(submitted := old(seen).submitted + {t}))
    {
      t := Ticket(next, origin, request);
      next := next + 1;
      seen := seen.(submitted := seen.submitted + {t});
    }

    /** Queue a new ticket, or answer it at once. */
    method Deliver(t: Ticket)
      modifies this`pending, this`recent, this`started, this`accepted, this`completed,
               this`latestPoint, this`latestBearing, this`queue
      ensures var s := old(Abs());
              var (book, mail) := TicketProtocol.Deliver(s.fault, s.stopped, s.mail, s.book, t);
              Abs() == s.(book := book, mail := mail)
    {
      if fault {
        Finish(t, CommandResult(Failed, Faulted));
      } else if stopEvent {
        Finish(t, CommandResult(Failed, StoppedCode));
      } else if Tracking(t.request.kind) {
        var previous;
        if t.request.kind == TrackPoint {
          previous := latestPoint;
          latestPoint := Some(t);
        } else {
          previous := latestBearing;
          latestBearing := Some(t);
        }
        if previous.Some? { Finish(previous.value, CommandResult(Cancelled, Superseded)); }
      } else if |queue| < QUEUE_SIZE {
        queue := queue + [t];
      } else {
        Finish(t, CommandResult(Failed, QueueFull));
      }
    }

    method RemoteDisconnected()
      modifies this`disconnect
      ensures Abs() == Step(old(Abs()), Event.RemoteDisconnected)
    {
      disconnect := true;
    }

    method Stop()
      modifies this`stopEvent
      ensures Abs() == Step(old(Abs()), Event.Stop)
    {
      if !stopEvent { stopEvent := true; }
    }

    /** True exactly if the ticket was cancelled before the owner began it. */
    method InvalidateUnstarted(t: Ticket) returns (done: bool)
      modifies this
      ensures done == CanInvalidate(old(Abs()).book, t)
      ensures Abs() == Step(old(Abs()), Event.Invalidate(t))
      ensures old(Inv(Abs())) ==> Inv(Abs())
    {
      hide StartSection, OwnerMove, SubmitState, AbortState, FinishTicket, Do, Inv;
      ghost var s := Abs();
      if t.origin != Local || Find(pending, t.Rid()) != Some(t) || t.Rid() in started || t in accepted {
        done := false;
      } else {
        invalidated := invalidated + {t};
        seen := seen.(dropped := seen.dropped + {t});
        Finish(t, CommandResult(Cancelled, LocalDisconnected));
        done := true;
      }
      StepKeepsIf(s, Event.Invalidate(t));
    }

    // ----- owner thread ---------------------------------------------------------

    method Begin(t: Ticket) returns (claimed: bool)
      modifies this`invalidated, this`started, this`seen
      ensures claimed == (t !in old(invalidated))
      ensures Abs() == BeginState(old(Abs()), t)
    {
      if t in invalidated {
        invalidated := invalidated - {t};
        return false;
      }
      started := started + {t.Rid()};
      seen := seen.(begun := seen.begun + {t});
      return true;
    }

    /** The runtime is commanded on behalf of a ticket. */
    ghost method Touch(t: Ticket)
      modifies this`seen
      ensures Abs() == Do(old(Abs()), Micro.Touch(t))
    {
      seen := seen.(touched := seen.touched + {t});
    }

    method ClearMailbox(r: CommandResult)
      modifies this
      ensures Abs() == Do(old(Abs()), Clear(r))
    {
      hide FinishAll, FinishTicket;
      ghost var s := Abs();
      latestPoint, latestBearing := None, None;
      DrainQueue();
      assert Abs() == s.(mail := ClearMail(s.mail));
      FinishPending(r);
    }

    method DrainQueue()
      modifies this`queue, this`invalidated
      ensures queue == [] && invalidated == old(invalidated) - set t | t in old(queue)
    {
      while queue != []
        invariant invalidated - (set t | t in queue) == old(invalidated) - set t | t in old(queue)
        decreases |queue|
      {
        var t := queue[0];
        assert queue == [t] + queue[1..];
        queue, invalidated := queue[1..], invalidated - {t};
      }
    }

    method FinishPending(r: CommandResult)
      modifies this`pending, this`recent, this`started, this`accepted, this`completed
      ensures Abs() == old(Abs()).(book := FinishAll(old(Abs()).book, r))
    {
      ghost var s := Abs();
      while pending != []
        invariant Abs() == s.(book := Abs().book)
        invariant FinishAll(Abs().book, r) == FinishAll(s.book, r)
        decreases |pending|
      {
        FoundFirst(pending);
        Finish(pending[0], r);
        hide FinishTicket;
      }
    }

    method Settle(slot: Slot, r: CommandResult)
      modifies this
      ensures Abs() == Do(old(Abs()), Micro.Settle(slot, r))
    {
      hide FinishOption;
      FinishHeld(Slots(active, taskTicket, orientationTicket, returnTicket).At(slot), r);
      match slot
      case Active => active := None;
      case Task => taskTicket := None;
      case Orientation => orientationTicket := None;
      case Returning => returnTicket := None;
    }

    method FinishHeld(o: Option<Ticket>, r: CommandResult)
      modifies this`pending, this`recent, this`started, this`accepted, this`completed
      ensures Abs() == old(Abs()).(book := FinishOption(old(Abs()).book, o, r))
    {
      hide FinishTicket;
      if o.Some? { Finish(o.value, r); }
    }

    method PutIn(slot: Slot, t: Ticket)
      modifies this`active, this`taskTicket, this`orientationTicket, this`returnTicket
      ensures Abs() == Do(old(Abs()), Micro.Place(slot, t))
    {
      match slot
      case Active => active := Some(t);
      case Task => taskTicket := Some(t);
      case Orientation => orientationTicket := Some(t);
      case Returning => returnTicket := Some(t);
    }

    method FailTicket(t: Ticket, code: Code)
      modifies this`pending, this`recent, this`started, this`accepted, this`completed
      ensures Abs() == DoAll(old(Abs()), FailWith(t, code))
    {
      Unroll(Abs(), FailWith(t, code));
      Finish(t, CommandResult(Failed, code));
    }

    /** Command the runtime, then answer success. */
    method Obey(t: Ticket)
      modifies this
      ensures Abs() == DoAll(old(Abs()), [Micro.Touch(t)] + AnswerWith(t))
    {
      Unroll(Abs(), [Micro.Touch(t)] + AnswerWith(t));
      hide Do;
      Touch(t);
      Accept(t);
      Finish(t, CommandResult(Completed, CompletedCode));
    }

    method Answer(t: Ticket)
      modifies this
      ensures Abs() == DoAll(old(Abs()), AnswerWith(t))
    {
      Unroll(Abs(), AnswerWith(t));
      hide Do;
      Accept(t);
      Finish(t, CommandResult(Completed, CompletedCode));
    }

    method Play(t: Ticket, v: View)
      modifies this
      ensures Abs() == DoAll(old(Abs()), PlayPlan(old(Abs()).slots, t, v))
    {
      Unroll(Abs(), PlayPlan(Abs().slots, t, v));
      hide DoAll, Do;
      if !v.known { FailTicket(t, UnknownMotion); return; }
      if (active.Some? || v.primitiveBusy) && !t.request.replaceCurrent { FailTicket(t, Busy); return; }
      Touch(t);
      Settle(Active, CommandResult(Cancelled, ReplacedCode));
      PutIn(Active, t);
      Accept(t);
    }

    method Acquire(t: Ticket, v: View)
      modifies this
      ensures Abs() == DoAll(old(Abs()), AcquirePlan(t, v))
    {
      Unroll(Abs(), AcquirePlan(t, v));
      hide DoAll, Do;
      if v.sameSpeech { Finish(t, CommandResult(Completed, Duplicate)); return; }
      if v.awayActive { FailTicket(t, AwayPoseActive); return; }
      if v.faceHolding { FailTicket(t, FaceFollowActive); return; }
      if v.userInView { FailTicket(t, UserInView); return; }
      Touch(t);
      if v.acquire.AcquireError? { Finish(t, CommandResult(Failed, v.acquire.code)); return; }
      if v.acquire.Blocked? { Finish(t, CommandResult(Failed, BlockedByTaskLight)); return; }
      Settle(Returning, CommandResult(Cancelled, ReplacedCode));
      Settle(Orientation, CommandResult(Cancelled, ReplacedCode));
      Accept(t);
      if v.acquire.Aligned? { Finish(t, CommandResult(Completed, AlignedCode)); }
      else { PutIn(Orientation, t); }
    }

    method ReturnCenter(t: Ticket, v: View)
      modifies this
      ensures Abs() == DoAll(old(Abs()), ReturnPlan(old(Abs()).slots, t, v))
    {
      Unroll(Abs(), ReturnPlan(Abs().slots, t, v));
      hide DoAll, Do;
      if active.Some? || v.primitiveBusy || v.taskBusy { FailTicket(t, Busy); return; }
      Touch(t);
      if v.returnRefused { Finish(t, CommandResult(Failed, v.returnCode)); return; }
      Settle(Orientation, CommandResult(Cancelled, ReplacedCode));
      Settle(Returning, CommandResult(Cancelled, ReplacedCode));
      PutIn(Returning, t);
      Accept(t);
    }

    method StopMotion(t: Ticket)
      modifies this
      ensures Abs() == DoAll(old(Abs()), StopMotionPlan(old(Abs()).slots, t))
    {
      Unroll(Abs(), StopMotionPlan(Abs().slots, t));
      hide DoAll, Do;
      var interrupt := t.request.kind == MotionInterrupt;
      if !interrupt && (active.None? || active.value.Rid() != t.request.targetId) {
        FailTicket(t, NotFound);
        return;
      }
      Touch(t);
      Settle(Active, CommandResult(Cancelled, if interrupt then Interrupted else CancelledCode));
      Settle(Task, CommandResult(Cancelled, Interrupted));
      Accept(t);
      Finish(t, CommandResult(Completed, CompletedCode));
    }

    method TaskLight(t: Ticket, v: View)
      modifies this
      ensures Abs() == DoAll(old(Abs()), TaskPlan(old(Abs()).slots, t, v))
    {
      hide DoAll;
      if t.request.kind == TaskPlace { PlaceLight(t, v); return; }
      if t.request.kind == TaskCancel && (taskTicket.None? || taskTicket.value.Rid() != t.request.targetId) {
        FailTicket(t, NotFound);
        return;
      }
      ClearLight(t);
    }

    /** A refused target also ends the hold that was there. */
    method PlaceLight(t: Ticket, v: View)
      modifies this
      ensures Abs() == DoAll(old(Abs()), PlaceLightPlan(t, v))
    {
      Unroll(Abs(), PlaceLightPlan(t, v));
      hide DoAll, Do;
      Touch(t);
      Settle(Task, CommandResult(Cancelled, if v.placed then ReplacedCode else UnsafeTarget));
      if v.placed { PutIn(Task, t); }
      Accept(t);
      if !v.placed { Finish(t, CommandResult(Failed, v.placeCode)); }
    }

    method ClearLight(t: Ticket)
      modifies this
      ensures Abs() == DoAll(old(Abs()), ClearLightPlan(t))
    {
      Unroll(Abs(), ClearLightPlan(t));
      hide DoAll, Do;
      Touch(t);
      Settle(Task, CommandResult(Cancelled, CancelledCode));
      Accept(t);
      Finish(t, CommandResult(Completed, CompletedCode));
    }

    method FaceStep(t: Ticket, v: View)
      modifies this
      ensures Abs() == DoAll(old(Abs()), FacePlan(old(Abs()).slots, t, v))
    {
      Unroll(Abs(), FacePlan(Abs().slots, t, v));
      hide DoAll, FinishTicket;
      if v.taskBusy || active.Some? { FailTicket(t, Busy); return; }
      if !v.faceUnsafe { Obey(t); return; }
      Touch(t);
      Finish(t, CommandResult(Failed, UnsafeFaceStep));
    }

    method AwayHold(t: Ticket, v: View)
      modifies this
      ensures Abs() == DoAll(old(Abs()), AwayPlan(old(Abs()).slots, t, v))
    {
      Unroll(Abs(), AwayPlan(Abs().slots, t, v));
      hide DoAll, FinishTicket;
      if v.shoulderWarm { FailTicket(t, ShoulderWarm); return; }
      if v.taskBusy || active.Some? { FailTicket(t, Busy); return; }
      if v.awayTorqueOk { Obey(t); return; }
      Touch(t);
      Finish(t, CommandResult(Failed, OverTorque));
    }

    /** Work off a ticket just claimed. */
    method Execute(t: Ticket, v: View)
      modifies this
      ensures Abs() == DoAll(old(Abs()), Plan(old(Abs()).slots, t, v))
    {
      hide DoAll, PlayPlan, AcquirePlan, ReturnPlan, StopMotionPlan, TaskPlan, FacePlan, AwayPlan;
      if v.expired { FailTicket(t, Expired); return; }
      if v.alert && !AllowedHot(t.request.kind) { FailTicket(t, ShoulderOverTemperature); return; }
      match t.request.kind
      case MotionPlay => Play(t, v);
      case OrientationAcquire => Acquire(t, v);
      case OrientationReturn => ReturnCenter(t, v);
      case MotionCancel => StopMotion(t);
      case MotionInterrupt => StopMotion(t);
      case TaskPlace => TaskLight(t, v);
      case TaskCancel => TaskLight(t, v);
      case TaskClear => TaskLight(t, v);
      case FaceStep => FaceStep(t, v);
      case AwayHold => AwayHold(t, v);
      case TrackClear => Obey(t);
      case FaceClear => Obey(t);
      case AwayClear => Obey(t);
      case OrientationHold => Answer(t);
      case OrientationStatus => Answer(t);
      case MotionList => Answer(t);
      case MotionStatus => Answer(t);
      case Heartbeat => Answer(t);
      case _ => FailTicket(t, UnknownType);
    }

    /** Claim and work off the oldest queued command. */
    method ApplyOneDiscreteCommand(v: View)
      requires work == []
      modifies this
      ensures Abs() == CommandDone(old(Abs()), v)
      ensures work == [] && (old(Inv(Abs())) ==> Inv(Abs()))
    {
      hide Plan, DoAll, Inv;
      CommandKeepsIf(Abs(), v);
      if queue == [] { return; }
      TakeAndExecute(v);
    }

    method TakeAndExecute(v: View)
      requires queue != []
      modifies this
      ensures Abs() == CommandDone(old(Abs()), v)
    {
      hide Plan, DoAll;
      var t := queue[0];
      queue := queue[1..];
      var claimed := Begin(t);
      if claimed { Execute(t, v); }
    }

    // The remaining sections of a tick, each worked off without interruption.

    method SafeDisconnect()
      requires work == []
      modifies this
      ensures Abs() == SectionDone(old(Abs()), HandleDisconnect)
      ensures work == [] && (old(Inv(Abs())) ==> Inv(Abs()))
    {
      SectionKeepsIf(Abs(), HandleDisconnect);
      hide Inv;
      Unroll(StartSection(Abs(), HandleDisconnect).(todo := []), StartSection(Abs(), HandleDisconnect).todo);
      hide DoAll, FinishAll, FinishTicket, FinishOption;
      if !disconnect { return; }
      ClearMailbox(CommandResult(Cancelled, Disconnected));
      disconnect := false;
      CancelSlots(Disconnected);
    }

    method CancelSlots(code: Code)
      modifies this
      ensures Abs() == DoAll(old(Abs()), CancelAll(code))
    {
      Unroll(Abs(), CancelAll(code));
      hide DoAll, Do;
      Settle(Active, CommandResult(Cancelled, code));
      Settle(Task, CommandResult(Cancelled, code));
      Settle(Orientation, CommandResult(Cancelled, code));
      Settle(Returning, CommandResult(Cancelled, code));
    }

    method CoolDown()
      requires work == []
      modifies this
      ensures Abs() == SectionDone(old(Abs()), OverTemperature)
      ensures work == [] && (old(Inv(Abs())) ==> Inv(Abs()))
    {
      SectionKeepsIf(Abs(), OverTemperature);
      hide Inv;
      hide DoAll, Do;
      CancelSlots(ShoulderOverTemperature);
    }

    method Track(o: Option<Ticket>, alert: bool, expired: bool)
      modifies this
      ensures Abs() == DoAll(old(Abs()), TrackPlan(o, alert, expired))
    {
      hide FinishTicket, AcceptTicket;
      if o.None? { return; }
      if alert { FailTicket(o.value, ShoulderOverTemperature); }
      else if expired { FailTicket(o.value, Expired); }
      else { Obey(o.value); }
    }

    method ApplyLatestTracking(alert: bool, pointExpired: bool, bearingExpired: bool)
      requires work == []
      modifies this
      ensures Abs() == SectionDone(old(Abs()), TakeTracking(alert, pointExpired, bearingExpired))
      ensures work == [] && (old(Inv(Abs())) ==> Inv(Abs()))
    {
      hide DoAll, TrackPlan, Inv;
      SectionKeepsIf(Abs(), TakeTracking(alert, pointExpired, bearingExpired));
      TrackingDone(Abs(), alert, pointExpired, bearingExpired);
      hide SectionDone;
      var point, bearing := latestPoint, latestBearing;
      latestPoint, latestBearing := None, None;
      Track(point, alert, pointExpired);
      Track(bearing, alert, bearingExpired);
    }

    method SettleWhen(b: bool, slot: Slot, code: Code)
      modifies this
      ensures Abs() == DoAll(old(Abs()), SettleIf(b, slot, old(Abs()).slots.At(slot), code))
      ensures forall other | other != slot :: Abs().slots.At(other) == old(Abs()).slots.At(other)
    {
      Unroll(Abs(), SettleIf(b, slot, Abs().slots.At(slot), code));
      hide DoAll, FinishOption;
      var holder := Slots(active, taskTicket, orientationTicket, returnTicket).At(slot);
      if b && holder.Some? { Settle(slot, CommandResult(Completed, code)); }
    }

    method ObserveOrientation(arrived: bool, centered: bool, code: Code)
      requires work == []
      modifies this
      ensures Abs() == SectionDone(old(Abs()), Event.ObserveOrientation(arrived, centered, code))
      ensures work == [] && (old(Inv(Abs())) ==> Inv(Abs()))
    {
      SectionKeepsIf(Abs(), Event.ObserveOrientation(arrived, centered, code));
      hide Inv;
      DoAllAppend(Abs(), SettleIf(arrived, Orientation, orientationTicket, code),
                  SettleIf(centered, Returning, returnTicket, code));
      hide DoAll, SettleIf;
      SettleWhen(arrived, Orientation, code);
      SettleWhen(centered, Returning, code);
    }

    method CompleteTask(due: bool)
      modifies this
      ensures Abs() == DoAll(old(Abs()), CompleteIf(due, old(Abs()).slots.task))
    {
      Unroll(Abs(), CompleteIf(due, taskTicket));
      hide DoAll, FinishTicket;
      if due && taskTicket.Some? { Finish(taskTicket.value, CommandResult(Completed, CompletedCode)); }
    }

    method UpdateActiveTicket(motionDone: bool, taskDone: bool)
      requires work == []
      modifies this
      ensures Abs() == SectionDone(old(Abs()), Event.UpdateActive(motionDone, taskDone))
      ensures work == [] && (old(Inv(Abs())) ==> Inv(Abs()))
    {
      hide DoAll, Do, SettleIf, CompleteIf, Inv;
      SectionKeepsIf(Abs(), Event.UpdateActive(motionDone, taskDone));
      UpdateDone(Abs(), motionDone, taskDone);
      hide SectionDone;
      var due := taskDone && taskTicket.Some? && taskTicket.value !in completed;
      assert due == TaskDue(Abs(), taskDone);
      SettleWhen(motionDone, Active, CompletedCode);
      assert taskTicket == old(taskTicket) by { assert Abs().slots.At(Task) == old(Abs()).slots.At(Task); }
      CompleteTask(due);
    }

    /** Drain the mailbox and forget the slots, whose tickets the drain has finished. */
    method ShutDown()
      requires stopEvent
      requires work == []
      modifies this
      ensures Abs() == SectionDone(old(Abs()), Shutdown)
      ensures work == [] && (old(Inv(Abs())) ==> Inv(Abs()))
    {
      hide DoAll, FinishAll, Inv;
      SectionKeepsIf(Abs(), Shutdown);
      ShutdownDone(Abs());
      hide SectionDone;
      hide Do;
      ClearMailbox(if fault then CommandResult(Failed, Faulted) else CommandResult(Cancelled, StoppedCode));
      ForgetSlots();
    }

    method ForgetSlots()
      modifies this`active, this`taskTicket, this`orientationTicket, this`returnTicket, this`seen
      ensures Abs() == Do(old(Abs()), Forget)
    {
      DoForget(Abs());
      hide Do;
      active, taskTicket, orientationTicket, returnTicket := None, None, None, None;
      seen := seen.(down := true);
    }
  }

  lemma {:induction false} DoAllAppend(s: State, p: seq<Micro>, q: seq<Micro>)
    ensures DoAll(s, p + q) == DoAll(DoAll(s, p), q)
    decreases |p|
  {
    hide Do;
    if p == [] { assert p + q == q; } else {
      assert (p + q)[1..] == p[1..] + q;
      DoAllAppend(Do(s, p[0]), p[1..], q);
    }
  }

  /** The whole of a discrete command, when nobody interrupts the owner. */
  ghost function CommandDone(s: State, v: View): State {
    if s.mail.queue == [] then s
    else
      var t := s.mail.queue[0];
      var s1 := BeginState(s.(mail := s.mail.(queue := s.mail.queue[1..])), t);
      if t in s.mail.invalidated then s1 else DoAll(s1, Plan(s.slots, t, v))
  }

  lemma {:induction false} Unroll(s: State, p: seq<Micro>)
    ensures p == [] ==> DoAll(s, p) == s
    ensures |p| == 1 ==> DoAll(s, p) == Do(s, p[0])
    ensures |p| == 2 ==> DoAll(s, p) == Do(Do(s, p[0]), p[1])
    ensures |p| == 3 ==> DoAll(s, p) == Do(Do(Do(s, p[0]), p[1]), p[2])
    ensures |p| == 4 ==> DoAll(s, p) == Do(Do(Do(Do(s, p[0]), p[1]), p[2]), p[3])
    ensures |p| == 5 ==> DoAll(s, p) == Do(Do(Do(Do(Do(s, p[0]), p[1]), p[2]), p[3]), p[4])
    decreases |p|
  {
    hide Do;
    if p != [] { Unroll(Do(s, p[0]), p[1..]); }
  }

  /** A section worked off without interruption. */
  ghost function SectionDone(s: State, e: Event): State
    requires !TransportEvent(e) && !e.OwnerStep? && !e.Abort?
  {
    var s1 := StartSection(s, e);
    DoAll(s1.(todo := []), s1.todo)
  }

  /** The three sections whose work has two parts, part by part. */
  lemma TrackingDone(s: State, alert: bool, pointExpired: bool, bearingExpired: bool)
    requires s.todo == []
    ensures SectionDone(s, TakeTracking(alert, pointExpired, bearingExpired))
         == DoAll(DoAll(s.(mail := s.mail.(point := None, bearing := None)),
                        TrackPlan(s.mail.point, alert, pointExpired)),
                  TrackPlan(s.mail.bearing, alert, bearingExpired))
  {
    hide DoAll, TrackPlan;
    DoAllAppend(s.(mail := s.mail.(point := None, bearing := None)), TrackPlan(s.mail.point, alert, pointExpired),
                TrackPlan(s.mail.bearing, alert, bearingExpired));
  }

  ghost predicate TaskDue(s: State, taskDone: bool) {
    taskDone && s.slots.task.Some? && s.slots.task.value !in s.book.completed
  }

  lemma UpdateDone(s: State, motionDone: bool, taskDone: bool)
    requires s.todo == []
    ensures SectionDone(s, Event.UpdateActive(motionDone, taskDone))
         == DoAll(DoAll(s, SettleIf(motionDone, Active, s.slots.active, CompletedCode)),
                  CompleteIf(TaskDue(s, taskDone), s.slots.task))
  {
    var due := TaskDue(s, taskDone);
    hide Do, DoAll, SettleIf, CompleteIf;
    DoAllAppend(s, SettleIf(motionDone, Active, s.slots.active, CompletedCode), CompleteIf(due, s.slots.task));
  }

  lemma ShutdownDone(s: State)
    requires s.todo == [] && s.stopped
    ensures SectionDone(s, Shutdown) == Do(Do(s, ShutdownPlan(s.fault)[0]), Forget)
  {
    Unroll(s, ShutdownPlan(s.fault));
    hide Do, DoAll;
  }

  lemma DoFinish(s: State, t: Ticket, r: CommandResult)
    ensures Do(s, Micro.Finish(t, r)) == s.(book := FinishTicket(s.book, t, r))
  {}

  lemma DoForget(s: State)
    ensures Do(s, Forget) == s.(slots := NoSlots, seen := s.seen.(down := true))
  {}

  lemma {:induction false} DoAllTodo(s: State, p: seq<Micro>)
    ensures DoAll(s, p).todo == s.todo
    decreases |p|
  {
    if p != [] {
      var s1 := Do(s, p[0]);
      DoTodo(s, p[0], s.todo);
      assert s.(todo := s.todo) == s;
      assert s1.todo == s.todo;
      hide Do;
      DoAllTodo(s1, p[1..]);
    }
  }

  lemma DoTodo(s: State, m: Micro, todo: seq<Micro>)
    ensures Do(s.(todo := todo), m) == Do(s, m).(todo := todo)
  {}

  ghost function OwnerSteps(v: View, n: nat): seq<Event> {
    if n == 0 then [] else [OwnerStep(v)] + OwnerSteps(v, n - 1)
  }

  /** Working off a section in one go is the run in which only the owner moves. */
  lemma {:induction false} DoAllIsARun(s: State, v: View)
    requires forall m | m in s.todo :: !m.Begin?
    ensures RunFrom(s, OwnerSteps(v, |s.todo|)) == DoAll(s.(todo := []), s.todo)
    decreases |s.todo|
  {
    if s.todo == [] { assert s.(todo := []) == s; } else {
      var s1 := OwnerMove(s, v);
      assert s.todo[0] in s.todo;
      assert forall m | m in s.todo[1..] :: m in s.todo;
      DoTodo(s, s.todo[0], s.todo[1..]);
      DoTodo(s, s.todo[0], []);
      hide Do, Plan;
      assert s1 == Do(s, s.todo[0]).(todo := s.todo[1..]);
      DoAllIsARun(s1, v);
      assert OwnerSteps(v, |s.todo|)[1..] == OwnerSteps(v, |s1.todo|);
    }
  }

  lemma RunOne(s: State, e: Event, es: seq<Event>)
    ensures RunFrom(s, [e] + es) == RunFrom(Step(s, e), es)
  {
    hide Step;
    assert ([e] + es)[1..] == es;
  }

  /** How many micro-actions a command takes the owner. */
  ghost function CommandLength(s: State, v: View): nat
    requires s.mail.queue != []
  {
    var t := s.mail.queue[0];
    if t in s.mail.invalidated then 1 else 1 + |Plan(s.slots, t, v)|
  }

  /** A whole discrete command is the run that takes it off the queue, claims it and works
      off its plan. */
  lemma CommandIsARun(s: State, v: View)
    requires s.todo == [] && s.mail.queue != []
    ensures RunFrom(s, [TakeCommand] + OwnerSteps(v, CommandLength(s, v))) == CommandDone(s, v)
  {
    var n := CommandLength(s, v);
    var s1 := Step(s, TakeCommand);
    var s2 := Step(s1, OwnerStep(v));
    TakeAndClaim(s, v);
    RunOne(s, TakeCommand, OwnerSteps(v, n));
    RunOne(s1, OwnerStep(v), OwnerSteps(v, n - 1));
    hide Step, Plan, DoAll, BeginState;
    if s.mail.queue[0] !in s.mail.invalidated { DoAllIsARun(s2, v); }
  }

  /** The first two sections of a command. */
  lemma TakeAndClaim(s: State, v: View)
    requires s.todo == [] && s.mail.queue != []
    ensures var t := s.mail.queue[0];
            var s1 := BeginState(s.(mail := s.mail.(queue := s.mail.queue[1..])), t);
            var s2 := Step(Step(s, TakeCommand), OwnerStep(v));
            && s1.todo == []
            && s2 == (if t in s.mail.invalidated then s1 else s1.(todo := Plan(s.slots, t, v)))
            && forall m | m in s2.todo :: !m.Begin?
  {
    var t := s.mail.queue[0];
    var p := Plan(s.slots, t, v);
    PlanFacts.PlanHasShape(s.slots, t, v);
    PlanFacts.ShapeFacts(p, t);
    assert p + [] == p;
    hide Plan, PlanFacts.PlanShape;
  }

  /** So is every other section: the run that starts it and works it off. */
  lemma SectionIsARun(s: State, e: Event, v: View)
    requires s.todo == [] && !TransportEvent(e) && !e.OwnerStep? && !e.Abort? && e != TakeCommand
    ensures RunFrom(s, [e] + OwnerSteps(v, |StartSection(s, e).todo|)) == SectionDone(s, e)
  {
    var s1 := StartSection(s, e);
    SectionClaimsNothing(s, e);
    DoAllIsARun(s1, v);
    RunOne(s, e, OwnerSteps(v, |s1.todo|));
    hide StartSection, DoAll, OwnerMove;
  }

  lemma SectionClaimsNothing(s: State, e: Event)
    requires s.todo == [] && !TransportEvent(e) && !e.OwnerStep? && !e.Abort? && e != TakeCommand
    ensures forall m | m in StartSection(s, e).todo :: !m.Begin?
  {
    PartsClaimNothing();
    hide Do, TrackPlan, SettleIf, CompleteIf, CancelAll, ShutdownPlan;
  }

  predicate ClaimsNothing(p: seq<Micro>) { forall m | m in p :: !m.Begin? }

  lemma PartsClaimNothing()
    ensures forall o, alert, expired :: ClaimsNothing(TrackPlan(o, alert, expired))
    ensures forall b, slot, o, code :: ClaimsNothing(SettleIf(b, slot, o, code))
    ensures forall b, o :: ClaimsNothing(CompleteIf(b, o))
    ensures forall code :: ClaimsNothing(CancelAll(code))
    ensures forall fault :: ClaimsNothing(ShutdownPlan(fault))
  {}

  /** What the owner sees makes no difference to a section that claims no command. */
  const SOME_VIEW := View(false, false, false, false, false, false, false, false, Blocked, false, false, Busy,
                          false, Busy, false, false, false)

  lemma SectionKeepsIf(s: State, e: Event)
    requires s.todo == [] && !TransportEvent(e) && !e.OwnerStep? && !e.Abort? && e != TakeCommand
    ensures SectionDone(s, e).todo == []
    ensures Inv(s) ==> Inv(SectionDone(s, e))
  {
    hide Inv, StartSection;
    var s1 := StartSection(s, e);
    DoAllTodo(s1.(todo := []), s1.todo);
    if Inv(s) {
      SectionIsARun(s, e, SOME_VIEW);
      RunKeeps(s, [e] + OwnerSteps(SOME_VIEW, |StartSection(s, e).todo|));
    }
  }

  lemma QueueEmpty(s: State, v: View)
    requires s.mail.queue == []
    ensures CommandDone(s, v) == s
  {}

  lemma CommandTodo(s: State, v: View)
    ensures CommandDone(s, v).todo == s.todo
  {
    hide Plan, DoAll;
    if s.mail.queue != [] {
      var t := s.mail.queue[0];
      DoAllTodo(BeginState(s.(mail := s.mail.(queue := s.mail.queue[1..])), t), Plan(s.slots, t, v));
    }
  }

  lemma CommandKeepsIf(s: State, v: View)
    requires s.todo == []
    ensures CommandDone(s, v).todo == []
    ensures Inv(s) ==> Inv(CommandDone(s, v))
  {
    CommandTodo(s, v);
    hide Inv, CommandDone;
    if s.mail.queue == [] { QueueEmpty(s, v); }
    if Inv(s) && s.mail.queue != [] {
      CommandIsARun(s, v);
      RunKeeps(s, [TakeCommand] + OwnerSteps(v, CommandLength(s, v)));
    }
  }

  lemma StepKeepsIf(s: State, e: Event)
    ensures Inv(s) ==> Inv(Step(s, e))
  {
    if Inv(s) { StepKeeps(s, e); }
  }
}

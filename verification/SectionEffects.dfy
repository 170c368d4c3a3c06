/** What the other sections of a tick do to the runtime, the four slots and the tickets'
    answers, and what the calls of the transport threads do to them. */
module SectionEffects {
  import opened Options
  import opened OrderedTickets
  import opened TicketProtocol
  import opened TicketInvariant
  import opened TicketTheorems
  import opened MotionController
  import opened CommandEffects

  // ----- draining -----------------------------------------------------------------

  /** Everything that was pending got this answer, and nobody else got one. */
  ghost predicate AllTold(s: State, s': State, r: CommandResult) {
    && s'.book.pending == []
    && (forall u | u in s.book.pending :: u in s'.book.completed && s'.book.completed[u] == r)
    && (forall u | u in s'.book.completed :: u in s.book.completed || u in s.book.pending)
    && (forall u | u in s.book.completed :: u in s'.book.completed && s'.book.completed[u] == s.book.completed[u])
  }

  lemma {:induction false} DrainTells(b: Book, r: CommandResult)
    requires Tables(b)
    ensures forall u | u in b.pending && u !in b.completed ::
              u in FinishAll(b, r).completed && FinishAll(b, r).completed[u] == r
    decreases |b.pending|
  {
    if b.pending != [] {
      var t := b.pending[0];
      FoundFirst(b.pending);
      FinishPending(b, t, r);
      FinishTables(b, t, r);
      var b' := FinishTicket(b, t, r);
      DrainTells(b', r);
      FinishAllExtends(b', r);
      TellsOne(b, t, r);
      hide FinishTicket, Tables;
    }
  }

  lemma TellsOne(b: Book, t: Ticket, r: CommandResult)
    ensures t !in b.completed ==> FinishTicket(b, t, r).completed == b.completed[t := r]
    ensures t in b.completed ==> FinishTicket(b, t, r).completed == b.completed
  {}

  lemma DrainedBook(s: State, r: CommandResult)
    requires Inv(s)
    ensures AllTold(s, s.(book := FinishAll(s.book, r)), r)
  {
    DrainTells(s.book, r);
    FinishAllTables(s.book, r);
    FinishAllFutures(s.book, r);
    FinishAllExtends(s.book, r);
    hide FinishAll;
  }

  /** Slots of tickets that were answered may be vacated without another word. */
  ghost predicate AllAnswered(x: Record) {
    forall slot | x.slots.At(slot).Some? :: x.slots.At(slot).value in x.completed
  }

  lemma VacateAll(x: Record, code: Code)
    requires AllAnswered(x)
    ensures var y := Effects(x, CancelAll(code));
            y.touched == x.touched && y.slots == NoSlots && y.completed == x.completed
  {
    UnrollEffects(x, CancelAll(code));
    var r := CommandResult(Cancelled, code);
    var x1 := Freed(x, Active, r);
    var x2 := Freed(x1, Task, r);
    var x3 := Freed(x2, Orientation, r);
    hide Effects;
    VacateOne(x, Active, r);
    VacateOne(x1, Task, r);
    VacateOne(x2, Orientation, r);
    VacateOne(x3, Returning, r);
    hide Freed;
  }

  lemma VacateOne(x: Record, slot: Slot, r: CommandResult)
    requires AllAnswered(x)
    ensures var y := Freed(x, slot, r);
            && y.touched == x.touched && y.completed == x.completed && y.slots == x.slots.With(slot, None)
            && AllAnswered(y)
  {
    FreedFacts(x, slot, r);
    var y := Freed(x, slot, r);
    hide Freed;
    forall a | y.slots.At(a).Some? ensures y.slots.At(a).value in y.completed {
      assert a != slot;
    }
  }

  lemma SlotTicketsMade(s: State)
    requires Inv(s)
    ensures forall slot | s.slots.At(slot).Some? :: s.slots.At(slot).value in s.seen.submitted
  {
    forall slot | s.slots.At(slot).Some? ensures s.slots.At(slot).value in s.seen.submitted {
      SlotTicket(s.book.pending, s.mail, s.slots, s.todo, slot, s.seen.submitted);
    }
  }

  // ----- the sections -------------------------------------------------------------

  /** A disconnection cancels everything: whatever was queued, waiting or at work. Without
      one the section does nothing. */
  lemma DisconnectEffect(s: State)
    requires Inv(s) && s.todo == []
    ensures var s' := SectionDone(s, HandleDisconnect);
            if !s.disconnect then s' == s
            else
              && AllTold(s, s', CommandResult(Cancelled, Disconnected))
              && !s'.disconnect && s'.slots == NoSlots && s'.seen.touched == s.seen.touched
              && s'.mail.queue == [] && s'.mail.point.None? && s'.mail.bearing.None?
  {
    if s.disconnect {
      var r := CommandResult(Cancelled, Disconnected);
      var s1 := s.(book := FinishAll(s.book, r), mail := ClearMail(s.mail), disconnect := false);
      DisconnectStarts(s);
      DrainedBook(s, r);
      SlotTicketsMade(s);
      SlotsAnswered(s, r);
      CancelsOnly(s1, Disconnected);
      hide FinishAll, Effects, Inv, StartSection, DoAll;
      assert AllAnswered(RecordOf(s1));
      VacateAll(RecordOf(s1), Disconnected);
    }
  }

  lemma DisconnectStarts(s: State)
    requires s.todo == [] && s.disconnect
    ensures StartSection(s, HandleDisconnect)
         == s.(book := FinishAll(s.book, CommandResult(Cancelled, Disconnected)), mail := ClearMail(s.mail),
               disconnect := false, todo := CancelAll(Disconnected))
  {
    hide FinishAll, ClearMail, CancelAll;
  }

  lemma SlotsAnswered(s: State, r: CommandResult)
    requires Inv(s) && forall slot | s.slots.At(slot).Some? :: s.slots.At(slot).value in s.seen.submitted
    ensures forall slot | s.slots.At(slot).Some? :: s.slots.At(slot).value in FinishAll(s.book, r).completed
  {
    FinishAllFutures(s.book, r);
    hide FinishAll;
  }

  /** Vacating the slots touches nothing else. */
  lemma CancelsOnly(s: State, code: Code)
    ensures var s' := DoAll(s, CancelAll(code));
            && RecordOf(s') == Effects(RecordOf(s), CancelAll(code))
            && s'.mail == s.mail && s'.disconnect == s.disconnect
            && (s.book.pending == [] ==> s'.book.pending == [])
  {
    Unroll(s, CancelAll(code));
    EffectOfAll(s, CancelAll(code));
    hide DoAll, Effects, RecordOf;
    SettleRest(s, Active, code);
    var s1 := Do(s, Cancel(Active, code));
    SettleRest(s1, Task, code);
    var s2 := Do(s1, Cancel(Task, code));
    SettleRest(s2, Orientation, code);
    SettleRest(Do(s2, Cancel(Orientation, code)), Returning, code);
    hide Do;
  }

  lemma SettleRest(s: State, slot: Slot, code: Code)
    ensures var s' := Do(s, Cancel(slot, code));
            && s'.mail == s.mail && s'.disconnect == s.disconnect
            && (s.book.pending == [] ==> s'.book.pending == [])
  {}

  /** A shutdown answers everything that is pending, for a fault as failed, and vacates the
      slots. */
  lemma ShutdownEffect(s: State)
    requires Inv(s) && s.todo == [] && s.stopped
    ensures var s' := SectionDone(s, Shutdown);
            && AllTold(s, s', if s.fault then CommandResult(Failed, Faulted) else CommandResult(Cancelled, StoppedCode))
            && s'.slots == NoSlots && s'.seen.touched == s.seen.touched
            && s'.mail.queue == [] && s'.mail.point.None? && s'.mail.bearing.None?
  {
    var r := if s.fault then CommandResult(Failed, Faulted) else CommandResult(Cancelled, StoppedCode);
    ShutdownDone(s);
    DrainedBook(s, r);
    ShutdownIs(s, r);
    hide FinishAll, SectionDone, Inv, AllTold, Do, ClearMail;
  }

  lemma ShutdownIs(s: State, r: CommandResult)
    ensures Do(Do(s, Clear(r)), Forget)
         == s.(mail := ClearMail(s.mail), book := FinishAll(s.book, r), slots := NoSlots, seen := s.seen.(down := true))
    ensures ClearMail(s.mail).queue == [] && ClearMail(s.mail).point.None? && ClearMail(s.mail).bearing.None?
  {
    hide FinishAll;
  }

  /** An exception or an interrupt answers nobody itself: what is left of the section gives way
      to a shutdown, for an exception one with a fault. */
  lemma AbortEffect(s: State, raised: bool)
    requires Inv(s) && forall t :: Begin(t) !in s.todo
    ensures var s' := AbortState(s, raised);
            && s'.stopped && (s'.fault <==> s.fault || raised)
            && RecordOf(s') == RecordOf(s) && s'.book == s.book && s'.mail == s.mail
            && var r := if s'.fault then CommandResult(Failed, Faulted) else CommandResult(Cancelled, StoppedCode);
               s'.todo == [Clear(r), Forget]
  {
    hide Inv;
  }

  /** An overheated shoulder ends all that moves the arm: motion, task light, turns. */
  lemma HotEffect(s: State)
    requires Inv(s) && s.todo == []
    ensures var x, y := RecordOf(s), RecordOf(SectionDone(s, OverTemperature));
            && y.slots == NoSlots && y.touched == x.touched
            && (forall slot :: Evicted(x, y, slot, ShoulderOverTemperature))
            && OnlyHolders(x, y)
  {
    CancelsOnly(s, ShoulderOverTemperature);
    SlotsDiffer(s);
    CancelsAll(RecordOf(s), ShoulderOverTemperature);
    hide CancelAll, DoAll, Effects, Inv, Evicted, OnlyHolders;
    assert StartSection(s, OverTemperature).(todo := []) == s;
  }

  /** Only tickets that held a slot got an answer. */
  ghost predicate OnlyHolders(x: Record, y: Record) {
    && (forall u | u in y.completed :: u in x.completed || exists slot :: x.slots.At(slot) == Some(u))
    && (forall u | u in x.completed :: u in y.completed && y.completed[u] == x.completed[u])
  }

  ghost predicate Differ(x: Record) {
    forall a, b | a != b && x.slots.At(a).Some? :: x.slots.At(a) != x.slots.At(b)
  }

  lemma SlotsDiffer(s: State)
    requires Inv(s)
    ensures Differ(RecordOf(s))
  {
    forall a, b | a != b && s.slots.At(a).Some? ensures s.slots.At(a) != s.slots.At(b) {
      if s.slots.At(a) == s.slots.At(b) { SlotsTwice(s.mail, s.slots, s.todo, s.slots.At(a).value, a, b); }
    }
  }

  /** In the middle of vacating: these slots are empty and their tickets told, the others
      are as they were. */
  ghost predicate Vacating(x: Record, y: Record, gone: set<Slot>, r: CommandResult) {
    && y.touched == x.touched && OnlyHolders(x, y)
    && (forall a | a in gone :: y.slots.At(a).None? && Heard(x, y, a, r))
    && (forall a | a !in gone :: y.slots.At(a) == x.slots.At(a) && Unheard(x, y, a))
  }

  /** The ticket that held the slot got this answer, or had one before. */
  ghost predicate Heard(x: Record, y: Record, a: Slot, r: CommandResult) {
    var u := x.slots.At(a);
    u.Some? && u.value !in x.completed ==> u.value in y.completed && y.completed[u.value] == r
  }

  ghost predicate Unheard(x: Record, y: Record, a: Slot) {
    var u := x.slots.At(a);
    u.Some? && u.value !in x.completed ==> u.value !in y.completed
  }

  lemma VacatesNext(x: Record, y: Record, gone: set<Slot>, slot: Slot, r: CommandResult)
    requires Differ(x) && Vacating(x, y, gone, r) && slot !in gone
    ensures Vacating(x, Freed(y, slot, r), gone + {slot}, r)
  {
    var z := Freed(y, slot, r);
    FreedFacts(y, slot, r);
    hide Freed;
    assert y.slots.At(slot) == x.slots.At(slot);
    forall a | a !in gone + {slot} ensures z.slots.At(a) == x.slots.At(a) && Unheard(x, z, a) {
      assert Unheard(x, y, a) && x.slots.At(a).Some? ==> x.slots.At(a) != x.slots.At(slot);
    }
    assert Unheard(x, y, slot);
    forall a | a in gone + {slot} ensures z.slots.At(a).None? && Heard(x, z, a, r) {
      assert a != slot ==> Heard(x, y, a, r);
    }
  }

  lemma CancelsAll(x: Record, code: Code)
    requires Differ(x)
    ensures var y := Effects(x, CancelAll(code));
            && y.slots == NoSlots && y.touched == x.touched
            && (forall slot :: Evicted(x, y, slot, code)) && OnlyHolders(x, y)
  {
    UnrollEffects(x, CancelAll(code));
    var r := CommandResult(Cancelled, code);
    var x1 := Freed(x, Active, r);
    var x2 := Freed(x1, Task, r);
    var x3 := Freed(x2, Orientation, r);
    hide Effects, Differ, Freed;
    assert Vacating(x, x, {}, r);
    VacatesNext(x, x, {}, Active, r);
    VacatesNext(x, x1, {} + {Active}, Task, r);
    VacatesNext(x, x2, {} + {Active} + {Task}, Orientation, r);
    VacatesNext(x, x3, {} + {Active} + {Task} + {Orientation}, Returning, r);
    AllVacated(x, Freed(x3, Returning, r), r);
  }

  lemma AllVacated(x: Record, y: Record, r: CommandResult)
    requires Vacating(x, y, {} + {Active} + {Task} + {Orientation} + {Returning}, r)
    ensures y.slots == NoSlots && forall slot :: Heard(x, y, slot, r)
  {
    forall slot: Slot ensures slot in {} + {Active} + {Task} + {Orientation} + {Returning} { match slot case _ => }
    assert y.slots.At(Active).None? && y.slots.At(Task).None?;
    assert y.slots.At(Orientation).None? && y.slots.At(Returning).None?;
  }

  // ----- tracking -----------------------------------------------------------------

  /** What a tracking entry is answered with. */
  ghost function TrackAnswer(alert: bool, expired: bool): CommandResult {
    if alert then CommandResult(Failed, ShoulderOverTemperature)
    else if expired then CommandResult(Failed, Expired)
    else CommandResult(Completed, CompletedCode)
  }

  ghost predicate EntryAnswered(x: Record, y: Record, o: Option<Ticket>, r: CommandResult) {
    o.Some? && o.value !in x.completed ==> o.value in y.completed && y.completed[o.value] == r
  }

  /** One entry after the other: those neither too late nor too hot command the runtime. */
  ghost function Obeyed(o: Option<Ticket>, alert: bool, expired: bool): set<Ticket> {
    if o.Some? && !alert && !expired then {o.value} else {}
  }

  lemma TrackWork(x: Record, o: Option<Ticket>, alert: bool, expired: bool)
    ensures var y := Effects(x, TrackPlan(o, alert, expired));
            && y.slots == x.slots && y.touched == x.touched + Obeyed(o, alert, expired)
            && EntryAnswered(x, y, o, TrackAnswer(alert, expired))
            && (forall u | u in x.completed :: u in y.completed && y.completed[u] == x.completed[u])
            && (forall u | u in y.completed :: u in x.completed || o == Some(u))
  {
    UnrollEffects(x, TrackPlan(o, alert, expired));
    if o.None? || alert || expired { hide Effects; }
  }

  lemma TrackPlanWorks(o: Option<Ticket>, alert: bool, expired: bool)
    ensures forall m | m in TrackPlan(o, alert, expired) :: !m.Clear? && !m.Forget?
  {}

  /** Both tracking entries are taken and answered, each on its own terms. */
  lemma TrackingEffect(s: State, alert: bool, pointExpired: bool, bearingExpired: bool)
    requires Inv(s) && s.todo == []
    ensures var point, bearing := s.mail.point, s.mail.bearing;
            var s' := SectionDone(s, TakeTracking(alert, pointExpired, bearingExpired));
            var x, y := RecordOf(s), RecordOf(s');
            && y.slots == x.slots
            && y.touched == x.touched + Obeyed(point, alert, pointExpired) + Obeyed(bearing, alert, bearingExpired)
            && EntryAnswered(x, y, point, TrackAnswer(alert, pointExpired))
            && EntryAnswered(x, y, bearing, TrackAnswer(alert, bearingExpired))
            && (forall u | u in x.completed :: u in y.completed && y.completed[u] == x.completed[u])
            && (forall u | u in y.completed :: u in x.completed || point == Some(u) || bearing == Some(u))
  {
    TrackingDone(s, alert, pointExpired, bearingExpired);
    EntriesDiffer(s);
    var s1 := s.(mail := s.mail.(point := None, bearing := None));
    var p, q := TrackPlan(s.mail.point, alert, pointExpired), TrackPlan(s.mail.bearing, alert, bearingExpired);
    TrackPlanWorks(s.mail.point, alert, pointExpired);
    TrackPlanWorks(s.mail.bearing, alert, bearingExpired);
    EffectOfAll(s1, p);
    EffectOfAll(DoAll(s1, p), q);
    TrackWork(RecordOf(s), s.mail.point, alert, pointExpired);
    TrackWork(Effects(RecordOf(s), p), s.mail.bearing, alert, bearingExpired);
    hide TrackPlan, DoAll, SectionDone, Effects, Inv, Obeyed, TrackAnswer;
    assert RecordOf(s1) == RecordOf(s);
  }

  lemma EntriesDiffer(s: State)
    requires Inv(s)
    ensures s.mail.point.Some? ==> s.mail.point != s.mail.bearing
  {
    if s.mail.point.Some? && s.mail.point == s.mail.bearing {
      EntryTwice(s.mail, s.slots, s.todo, s.mail.point.value);
    }
  }

  lemma EntryTwice(m: Mail, slots: Slots, todo: seq<Micro>, t: Ticket)
    requires m.point == m.bearing == Some(t)
    ensures Holders(m, slots, todo, t) >= 2
  {}

  // ----- what comes to its end ------------------------------------------------------

  /** Perhaps one slot is vacated, its ticket answered so. */
  ghost function FreedIf(x: Record, b: bool, slot: Slot, code: Code): Record {
    if b then Freed(x, slot, CommandResult(Completed, code)) else x
  }

  lemma SettleWork(x: Record, b: bool, slot: Slot, code: Code)
    ensures Effects(x, SettleIf(b, slot, x.slots.At(slot), code)) == FreedIf(x, b, slot, code)
  {
    UnrollEffects(x, SettleIf(b, slot, x.slots.At(slot), code));
    if !b || x.slots.At(slot).None? { NothingFreed(x, slot, CommandResult(Completed, code)); }
    hide Told;
  }

  lemma NothingFreed(x: Record, slot: Slot, r: CommandResult)
    ensures x.slots.At(slot).None? ==> Freed(x, slot, r) == x
  {}

  lemma SettleWorks(b: bool, slot: Slot, o: Option<Ticket>, code: Code)
    ensures forall m | m in SettleIf(b, slot, o, code) :: !m.Clear? && !m.Forget?
  {}

  /** A turn that arrived, or the way back that did, ends with the code of the coordinator;
      the other slots are as they were. */
  lemma ObserveEffect(s: State, arrived: bool, centered: bool, code: Code)
    requires Inv(s) && s.todo == []
    ensures var x, y := RecordOf(s), RecordOf(SectionDone(s, Event.ObserveOrientation(arrived, centered, code)));
            && y.touched == x.touched && OnlyHolders(x, y)
            && y.slots == Slots(x.slots.active, x.slots.task, if arrived then None else x.slots.orientation,
                                if centered then None else x.slots.returning)
            && (arrived ==> Heard(x, y, Orientation, CommandResult(Completed, code)))
            && (centered ==> Heard(x, y, Returning, CommandResult(Completed, code)))
            && (!arrived ==> Unheard(x, y, Orientation)) && (!centered ==> Unheard(x, y, Returning))
            && Unheard(x, y, Active) && Unheard(x, y, Task)
  {
    var x, r := RecordOf(s), CommandResult(Completed, code);
    var p := SettleIf(arrived, Orientation, s.slots.orientation, code);
    var q := SettleIf(centered, Returning, s.slots.returning, code);
    SlotsDiffer(s);
    ObserveStarts(s, arrived, centered, code);
    SettleWorks(arrived, Orientation, s.slots.orientation, code);
    SettleWorks(centered, Returning, s.slots.returning, code);
    EffectOfAll(s, p);
    EffectOfAll(DoAll(s, p), q);
    SettleWork(x, arrived, Orientation, code);
    var x1 := FreedIf(x, arrived, Orientation, code);
    hide DoAll, Effects, Inv, SettleIf, StartSection, SectionDone, Differ, Freed, Vacating;
    VacatesIf(x, x, arrived, Orientation, {}, r, code);
    assert x1.slots.returning == x.slots.returning by { FreedFacts(x, Orientation, r); }
    SettleWork(x1, centered, Returning, code);
    var gone := if arrived then {Orientation} else {};
    VacatesIf(x, x1, centered, Returning, gone, r, code);
    VacatedTwo(x, FreedIf(x1, centered, Returning, code), arrived, centered, r);
  }

  lemma VacatesIf(x: Record, y: Record, b: bool, slot: Slot, gone: set<Slot>, r: CommandResult, code: Code)
    requires Differ(x) && r == CommandResult(Completed, code) && slot !in gone
    requires Vacating(x, y, gone, r) || (gone == {} && y == x)
    ensures Vacating(x, FreedIf(y, b, slot, code), if b then gone + {slot} else gone, r)
  {
    assert Vacating(x, x, {}, r);
    if b { VacatesNext(x, y, gone, slot, r); }
    hide Vacating, Freed;
  }

  lemma VacatedTwo(x: Record, y: Record, arrived: bool, centered: bool, r: CommandResult)
    requires var gone := if arrived then {Orientation} else {};
             Vacating(x, y, if centered then gone + {Returning} else gone, r)
    ensures y.touched == x.touched && OnlyHolders(x, y)
    ensures y.slots == Slots(x.slots.active, x.slots.task, if arrived then None else x.slots.orientation,
                             if centered then None else x.slots.returning)
    ensures (arrived ==> Heard(x, y, Orientation, r)) && (centered ==> Heard(x, y, Returning, r))
    ensures (!arrived ==> Unheard(x, y, Orientation)) && (!centered ==> Unheard(x, y, Returning))
    ensures Unheard(x, y, Active) && Unheard(x, y, Task)
  {
    assert y.slots.At(Active) == x.slots.At(Active) && y.slots.At(Task) == x.slots.At(Task);
    assert y.slots.At(Orientation) == if arrived then None else x.slots.At(Orientation);
    assert y.slots.At(Returning) == if centered then None else x.slots.At(Returning);
  }

  lemma ObserveStarts(s: State, arrived: bool, centered: bool, code: Code)
    requires s.todo == []
    ensures SectionDone(s, Event.ObserveOrientation(arrived, centered, code))
         == DoAll(DoAll(s, SettleIf(arrived, Orientation, s.slots.orientation, code)),
                  SettleIf(centered, Returning, s.slots.returning, code))
  {
    hide Do, DoAll, SettleIf;
    DoAllAppend(s, SettleIf(arrived, Orientation, s.slots.orientation, code),
                SettleIf(centered, Returning, s.slots.returning, code));
  }

  /** A motion that is over leaves its slot; a task light that is reached keeps it, and its
      ticket is answered once. */
  lemma UpdateEffect(s: State, motionDone: bool, taskDone: bool)
    requires Inv(s) && s.todo == []
    ensures var x, y := RecordOf(s), RecordOf(SectionDone(s, Event.UpdateActive(motionDone, taskDone)));
            var r := CommandResult(Completed, CompletedCode);
            && y.touched == x.touched && OnlyHolders(x, y)
            && y.slots == x.slots.(active := if motionDone then None else x.slots.active)
            && (if motionDone then Heard(x, y, Active, r) else Unheard(x, y, Active))
            && (if taskDone then Heard(x, y, Task, r) else Unheard(x, y, Task))
  {
    var x := RecordOf(s);
    var due := TaskDue(s, taskDone);
    var p := SettleIf(motionDone, Active, s.slots.active, CompletedCode);
    UpdateDone(s, motionDone, taskDone);
    SlotsDiffer(s);
    SettleWorks(motionDone, Active, s.slots.active, CompletedCode);
    var x1 := FreedIf(x, motionDone, Active, CompletedCode);
    UpdateRecord(x, motionDone, taskDone);
    SettleWork(x, motionDone, Active, CompletedCode);
    CompleteWork(x1, due, s.slots.task);
    hide DoAll, Effects, Inv, SettleIf, CompleteIf, SectionDone, FreedIf, Heard, Unheard, OnlyHolders, Differ;
    EffectOfAll(s, p);
    EffectOfAll(DoAll(s, p), CompleteIf(due, s.slots.task));
  }

  lemma UpdateRecord(x: Record, motionDone: bool, taskDone: bool)
    requires Differ(x)
    ensures var r := CommandResult(Completed, CompletedCode);
            var x1 := FreedIf(x, motionDone, Active, CompletedCode);
            var due := taskDone && x.slots.task.Some? && x.slots.task.value !in x.completed;
            var y := if due && x.slots.task.Some? then Told(x1, x.slots.task.value, r) else x1;
            && x1.slots.task == x.slots.task
            && y.touched == x.touched && OnlyHolders(x, y)
            && y.slots == x.slots.(active := if motionDone then None else x.slots.active)
            && (if motionDone then Heard(x, y, Active, r) else Unheard(x, y, Active))
            && (if taskDone then Heard(x, y, Task, r) else Unheard(x, y, Task))
  {
    var r := CommandResult(Completed, CompletedCode);
    var x1 := FreedIf(x, motionDone, Active, CompletedCode);
    if motionDone { FreedFacts(x, Active, r); }
    assert x.slots.At(Active).Some? ==> x.slots.At(Active) != x.slots.At(Task);
    assert x.slots.At(Active) == x.slots.active && x.slots.At(Task) == x.slots.task;
    if x.slots.task.Some? { TellsRecord(x1, x.slots.task.value, r); }
    hide Told, Freed;
  }

  lemma TellsRecord(x: Record, t: Ticket, r: CommandResult)
    ensures Told(x, t, r).completed == if t in x.completed then x.completed else x.completed[t := r]
    ensures Told(x, t, r).slots == x.slots && Told(x, t, r).touched == x.touched
  {}

  lemma CompleteWork(x: Record, due: bool, o: Option<Ticket>)
    requires x.slots.task == o
    ensures Effects(x, CompleteIf(due, o))
         == if due && o.Some? then Told(x, o.value, CommandResult(Completed, CompletedCode)) else x
    ensures forall m | m in CompleteIf(due, o) :: !m.Clear? && !m.Forget?
  {
    UnrollEffects(x, CompleteIf(due, o));
  }

  // ----- transport threads ----------------------------------------------------------

  /** An invalidation that succeeds cancels its ticket; no other ticket hears of it. */
  lemma InvalidateEffect(s: State, t: Ticket)
    requires Inv(s)
    ensures var x, y := RecordOf(s), RecordOf(InvalidateState(s, t));
            && y.touched == x.touched && y.slots == x.slots
            && (if CanInvalidate(s.book, t) then
                  y.completed == x.completed[t := CommandResult(Cancelled, LocalDisconnected)]
                else InvalidateState(s, t) == s)
  {
    if CanInvalidate(s.book, t) {
      FindIsMember(s.book.pending, t);
      TellsOne(s.book, t, CommandResult(Cancelled, LocalDisconnected));
    }
    hide FinishTicket;
  }

  /** Why a new request is failed at once. */
  ghost function Failure(s: State, k: Kind): Option<Code> {
    if s.fault then Some(Faulted)
    else if s.stopped then Some(StoppedCode)
    else if !Tracking(k) && |s.mail.queue| >= QUEUE_SIZE then Some(QueueFull)
    else None
  }

  /** Whose latest-wins slot it takes. */
  ghost function Loser(m: Mail, k: Kind): Option<Ticket> {
    if k == TrackPoint then m.point else if k == TrackBearing then m.bearing else None
  }

  /** Where it waits: in its latest-wins slot, or in the queue behind all others. */
  ghost function Posted(m: Mail, t: Ticket): Mail {
    if t.request.kind == TrackPoint then m.(point := Some(t))
    else if t.request.kind == TrackBearing then m.(bearing := Some(t))
    else m.(queue := m.queue + [t])
  }

  ghost function ToldOf(m: map<Ticket, CommandResult>, t: Ticket, r: CommandResult): map<Ticket, CommandResult> {
    if t in m then m else m[t := r]
  }

  lemma DeliverEffect(s: State, b: Book, t: Ticket)
    ensures var (b', m') := Deliver(s.fault, s.stopped, s.mail, b, t);
            var failed, lost := Failure(s, t.request.kind), Loser(s.mail, t.request.kind);
            && m' == (if failed.Some? then s.mail else Posted(s.mail, t))
            && b'.completed == if failed.Some? then ToldOf(b.completed, t, CommandResult(Failed, failed.value))
                               else if lost.Some? then
                                 ToldOf(b.completed, lost.value, CommandResult(Cancelled, Superseded))
                               else b.completed
  {
    var failed, lost := Failure(s, t.request.kind), Loser(s.mail, t.request.kind);
    if failed.Some? { TellsOne(b, t, CommandResult(Failed, failed.value)); }
    else if lost.Some? { TellsOne(b, lost.value, CommandResult(Cancelled, Superseded)); }
    hide FinishTicket;
  }

  /** A request that is not cached is answered at once, or waits; then the ticket that it
      replaces in a latest-wins slot is told so, and no other ticket hears of it. */
  lemma SubmitEffect(s: State, request: Request, origin: Origin)
    requires Inv(s) && Cached(s.book, request.id).None?
    ensures var s', t := SubmitState(s, request, origin), NewTicket(s, request, origin);
            var failed := Failure(s, request.kind);
            var lost := if failed.Some? then None else Loser(s.mail, request.kind);
            && SubmitTicket(s, request, origin) == t && t !in s.seen.submitted && t in s'.seen.submitted
            && (failed.Some? ==> t in s'.book.completed && s'.book.completed[t] == CommandResult(Failed, failed.value))
            && (failed.None? ==> t !in s'.book.completed)
            && EntryAnswered(RecordOf(s), RecordOf(s'), lost, CommandResult(Cancelled, Superseded))
            && Extends(s.book.completed, s'.book.completed)
            && (forall u | u in s'.book.completed :: u in s.book.completed || u == t || lost == Some(u))
            && s'.mail == (if failed.Some? then s.mail else Posted(s.mail, t))
            && s'.slots == s.slots && s'.seen.touched == s.seen.touched
  {
    var t := NewTicket(s, request, origin);
    FreshTicket(s, t);
    DeliverEffect(s, Enter(s.book, t), t);
    assert Enter(s.book, t).completed == s.book.completed;
    EntriesMade(s);
    NewInvariant(s);
    hide Inv, Enter, Deliver, Posted, Failure;
  }

  lemma NewInvariant(s: State)
    requires Inv(s)
    ensures s.book.completed.Keys <= s.book.accepted.Keys
  {}

  lemma EntriesMade(s: State)
    requires Inv(s)
    ensures s.mail.point.Some? ==> s.mail.point.value in s.seen.submitted
    ensures s.mail.bearing.Some? ==> s.mail.bearing.value in s.seen.submitted
  {
    forall o | o == s.mail.point || o == s.mail.bearing ensures o.Some? ==> o.value in s.seen.submitted {
      if o.Some? { assert Holders(s.mail, s.slots, s.todo, o.value) > 0; }
    }
  }

  /** A request that is cached is answered with its own ticket and changes nothing but the
      order of the cache; under another client's ID it gets a ticket of its own, which fails. */
  lemma ResubmitEffect(s: State, request: Request, origin: Origin)
    requires Inv(s) && Cached(s.book, request.id).Some?
    ensures var s', known := SubmitState(s, request, origin), Cached(s.book, request.id).value;
            if known.origin == origin then
              && SubmitTicket(s, request, origin) == known
              && s' == s.(book := s.book.(recent := s'.book.recent))
              && (forall t :: t in s'.book.recent <==> t in s.book.recent)
            else
              var t := SubmitTicket(s, request, origin);
              && t !in s.seen.submitted && t.origin == origin && t.request == request
              && s'.book.completed == s.book.completed[t := CommandResult(Failed, RequestIdCollision)]
              && s'.book.pending == s.book.pending && s'.mail == s.mail && s'.slots == s.slots
              && s'.seen.touched == s.seen.touched
  {
    var t := NewTicket(s, request, origin);
    FreshTicket(s, t);
    MoveToEndFacts(s.book.recent, request.id);
    TellsOne(s.book, t, CommandResult(Failed, RequestIdCollision));
    FindIsMember(s.book.pending, t);
    NotPendingStays(s.book, t, CommandResult(Failed, RequestIdCollision));
    hide FinishTicket, MoveToEnd, Inv;
  }

  lemma NotPendingStays(b: Book, t: Ticket, r: CommandResult)
    requires Find(b.pending, t.Rid()) != Some(t)
    ensures FinishTicket(b, t, r).pending == b.pending
  {}
}

/** What working off one command does to the runtime, the four slots and the tickets'
    answers, kind by kind. Each lemma speaks of the states before and after the whole
    command, which `Controller.ApplyOneDiscreteCommand` is proved to reach. */
module CommandEffects {
  import opened Options
  import opened OrderedTickets
  import opened TicketProtocol
  import opened TicketInvariant
  import opened MotionController
  import PlanFacts

  // ----- what the runtime and the clients can tell ----------------------------------

  /** For whom the runtime was commanded, who holds the slots, and the answers given. */
  datatype Record = Record(
    touched: set<Ticket>, slots: Slots, accepted: map<Ticket, CommandResult>, completed: map<Ticket, CommandResult>)

  ghost function RecordOf(s: State): Record {
    Record(s.seen.touched, s.slots, s.book.accepted, s.book.completed)
  }

  /** The runtime was not commanded, and the slots are what they were. */
  ghost predicate Idle(x: Record, y: Record) {
    y.touched == x.touched && y.slots == x.slots
  }

  /** The runtime was commanded on behalf of this ticket and of no other. */
  ghost predicate Commanded(x: Record, y: Record, t: Ticket) {
    y.touched == x.touched + {t}
  }

  ghost predicate Answered(y: Record, t: Ticket, state: ResultState, code: Code) {
    t in y.completed && y.completed[t] == CommandResult(state, code)
  }

  /** Whoever held the slot is told so, unless it was answered before. */
  ghost predicate Evicted(x: Record, y: Record, slot: Slot, code: Code) {
    var u := x.slots.At(slot);
    u.Some? && u.value !in x.completed ==> Answered(y, u.value, Cancelled, code)
  }

  /** Only these slots may have changed hands, and nobody else got an answer. */
  ghost predicate Only(x: Record, y: Record, t: Ticket, slots: set<Slot>) {
    && (forall slot | slot !in slots :: y.slots.At(slot) == x.slots.At(slot))
    && (forall u | u in y.completed ::
          u in x.completed || u == t || exists slot | slot in slots :: x.slots.At(slot) == Some(u))
    && (forall u | u in x.completed :: u in y.completed && y.completed[u] == x.completed[u])
  }

  /** Refused: nothing happened but the answer. */
  ghost predicate Refused(x: Record, y: Record, t: Ticket, code: Code) {
    Idle(x, y) && Answered(y, t, Failed, code) && Only(x, y, t, {})
  }

  /** The ticket took a slot and is still at work. */
  ghost predicate Took(x: Record, y: Record, t: Ticket, slot: Slot) {
    y.slots.At(slot) == Some(t) && t !in y.completed && t in y.accepted
  }

  /** The ticket was carried out at once. */
  ghost predicate Done(x: Record, y: Record, t: Ticket) {
    Commanded(x, y, t) && y.slots == x.slots && Answered(y, t, Completed, CompletedCode) && Only(x, y, t, {})
  }

  // ----- the command at hand ------------------------------------------------------

  /** The owner is about to take a command that nobody invalidated. */
  ghost predicate Ready(s: State) {
    Inv(s) && s.todo == [] && s.mail.queue != [] && s.mail.queue[0] !in s.mail.invalidated
  }

  ghost function Head(s: State): Ticket
    requires s.mail.queue != []
  {
    s.mail.queue[0]
  }

  /** The commands that are obeyed while the shoulder is too hot. */
  ghost predicate ObeyedHot(k: Kind) {
    || k == MotionStatus || k == MotionList || k == Heartbeat
    || k == MotionInterrupt || k == TaskClear || k == TrackClear || k == FaceClear || k == AwayClear
  }

  /** Neither too late nor too hot for it. */
  ghost predicate Timely(s: State, v: View, k: Kind)
    requires s.mail.queue != []
  {
    Head(s).request.kind == k && !v.expired && (v.alert ==> ObeyedHot(k))
  }

  // ----- one command at a time ------------------------------------------------------

  ghost function Told(x: Record, t: Ticket, r: CommandResult): Record {
    x.(accepted := Resolve(x.accepted, t, r), completed := Resolve(x.completed, t, r))
  }

  ghost function Freed(x: Record, slot: Slot, r: CommandResult): Record {
    match x.slots.At(slot)
    case None => x.(slots := x.slots.With(slot, None))
    case Some(u) => Told(x, u, r).(slots := x.slots.With(slot, None))
  }

  /** One micro-action, on that part alone. */
  ghost function Effect(x: Record, m: Micro): Record {
    match m
    case Touch(t) => x.(touched := x.touched + {t})
    case Accept(t) => x.(accepted := Resolve(x.accepted, t, CommandResult(Accepted, AcceptedCode)))
    case Finish(t, r) => Told(x, t, r)
    case Settle(slot, r) => Freed(x, slot, r)
    case Place(slot, t) => x.(slots := x.slots.With(slot, Some(t)))
    case Complete(slot, r) => if x.slots.At(slot).Some? then Told(x, x.slots.At(slot).value, r) else x
    case _ => x
  }

  ghost function Effects(x: Record, p: seq<Micro>): Record
    decreases |p|
  {
    if p == [] then x else Effects(Effect(x, p[0]), p[1..])
  }

  lemma EffectOfOne(s: State, m: Micro)
    requires !m.Clear? && !m.Forget?
    ensures RecordOf(Do(s, m)) == Effect(RecordOf(s), m)
  {
    hide Without, Remember;
  }

  lemma {:induction false} EffectOfAll(s: State, p: seq<Micro>)
    requires forall m | m in p :: !m.Clear? && !m.Forget?
    ensures RecordOf(DoAll(s, p)) == Effects(RecordOf(s), p)
    decreases |p|
  {
    hide Do, Effect, RecordOf;
    if p != [] {
      assert p[0] in p;
      EffectOfOne(s, p[0]);
      assert forall m | m in p[1..] :: m in p;
      EffectOfAll(Do(s, p[0]), p[1..]);
    }
  }

  lemma {:induction false} UnrollEffects(x: Record, p: seq<Micro>)
    ensures |p| == 1 ==> Effects(x, p) == Effect(x, p[0])
    ensures |p| == 2 ==> Effects(x, p) == Effect(Effect(x, p[0]), p[1])
    ensures |p| == 3 ==> Effects(x, p) == Effect(Effect(Effect(x, p[0]), p[1]), p[2])
    ensures |p| == 4 ==> Effects(x, p) == Effect(Effect(Effect(Effect(x, p[0]), p[1]), p[2]), p[3])
    ensures |p| == 5 ==> Effects(x, p) == Effect(Effect(Effect(Effect(Effect(x, p[0]), p[1]), p[2]), p[3]), p[4])
    decreases |p|
  {
    hide Effect;
    if p != [] { UnrollEffects(Effect(x, p[0]), p[1..]); }
  }

  // ----- how plans build up ---------------------------------------------------------

  /** No ticket holds two slots, and this one holds none and is unanswered. */
  ghost predicate Separate(x: Record, t: Ticket) {
    && t !in x.completed
    && (forall slot :: x.slots.At(slot) != Some(t))
    && (forall a, b | a != b && x.slots.At(a).Some? :: x.slots.At(a) != x.slots.At(b))
  }

  /** In the middle of a plan that has commanded the runtime and vacated these slots. */
  ghost predicate Stage(x: Record, y: Record, t: Ticket, freed: set<Slot>) {
    && Separate(x, t) && Only(x, y, t, freed) && Commanded(x, y, t) && t !in y.completed
    && forall slot | slot in freed :: y.slots.At(slot).None?
  }

  lemma Begins(x: Record, t: Ticket)
    requires Separate(x, t)
    ensures Stage(x, Effect(x, Touch(t)), t, {})
  {}

  lemma Frees(x: Record, y: Record, t: Ticket, freed: set<Slot>, slot: Slot, code: Code)
    requires Stage(x, y, t, freed) && slot !in freed
    ensures var z := Effect(y, Cancel(slot, code));
            && Stage(x, z, t, freed + {slot}) && Evicted(x, z, slot, code)
            && forall a, c :: Evicted(x, y, a, c) ==> Evicted(x, z, a, c)
  {
    var z := Effect(y, Cancel(slot, code));
    FreedFacts(y, slot, CommandResult(Cancelled, code));
    assert y.slots.At(slot) == x.slots.At(slot);
    assert Only(x, z, t, freed + {slot}) by {
      forall u | u in z.completed && u !in x.completed && u != t
        ensures exists a | a in freed + {slot} :: x.slots.At(a) == Some(u)
      {
        if u in y.completed {
          var a :| a in freed && x.slots.At(a) == Some(u);
          assert a in freed + {slot};
        }
      }
    }
    hide Freed, Only;
  }

  lemma FreedFacts(y: Record, slot: Slot, r: CommandResult)
    ensures var z := Freed(y, slot, r);
            && z.touched == y.touched && z.slots == y.slots.With(slot, None) && z.slots.At(slot).None?
            && (forall a | a != slot :: z.slots.At(a) == y.slots.At(a))
            && (forall u | u in y.completed :: u in z.completed && z.completed[u] == y.completed[u])
            && (forall u | u in z.completed && u !in y.completed :: y.slots.At(slot) == Some(u) && z.completed[u] == r)
            && (y.slots.At(slot).Some? ==> y.slots.At(slot).value in z.completed)
  {}

  lemma Accepts(x: Record, y: Record, t: Ticket, freed: set<Slot>)
    requires Stage(x, y, t, freed)
    ensures var z := Effect(y, Micro.Accept(t));
            && Stage(x, z, t, freed) && t in z.accepted
            && forall a, c :: Evicted(x, y, a, c) ==> Evicted(x, z, a, c)
  {}

  lemma Finishes(x: Record, y: Record, t: Ticket, freed: set<Slot>, state: ResultState, code: Code)
    requires Stage(x, y, t, freed)
    ensures var z := Effect(y, Micro.Finish(t, CommandResult(state, code)));
            && Only(x, z, t, freed) && Commanded(x, z, t) && Answered(z, t, state, code)
            && z.slots == y.slots
            && forall a, c :: Evicted(x, y, a, c) ==> Evicted(x, z, a, c)
  {}

  lemma Takes(x: Record, y: Record, t: Ticket, freed: set<Slot>, slot: Slot)
    requires Stage(x, y, t, freed) && slot in freed
    ensures var z := Effect(y, Place(slot, t));
            && Only(x, z, t, freed) && Commanded(x, z, t) && t !in z.completed
            && z.slots == y.slots.With(slot, Some(t)) && z.accepted == y.accepted && z.completed == y.completed
  {}

  /** A plan that vacates one slot and takes it. */
  lemma ReplaceWork(x: Record, t: Ticket, slot: Slot, code: Code)
    requires Separate(x, t)
    ensures var y := Effects(x, [Touch(t), Cancel(slot, code), Place(slot, t), Micro.Accept(t)]);
            Commanded(x, y, t) && Took(x, y, t, slot) && Only(x, y, t, {slot}) && Evicted(x, y, slot, code)
  {
    var p := [Touch(t), Cancel(slot, code), Place(slot, t), Micro.Accept(t)];
    UnrollEffects(x, p);
    var x1 := Effect(x, p[0]);
    var x2 := Effect(x1, p[1]);
    Begins(x, t);
    Frees(x, x1, t, {}, slot, code);
    assert {} + {slot} == {slot};
    hide Effects, Only, Separate;
    Takes(x, x2, t, {slot}, slot);
    var x3 := Effect(x2, p[2]);
    AcceptsHolder(x, x3, t, {slot});
  }

  lemma AcceptsHolder(x: Record, y: Record, t: Ticket, slots: set<Slot>)
    ensures var z := Effect(y, Micro.Accept(t));
            && z.touched == y.touched && z.slots == y.slots && z.completed == y.completed && t in z.accepted
            && (Only(x, y, t, slots) ==> Only(x, z, t, slots))
  {}

  /** One that vacates a slot and answers. */
  lemma ClearWork(x: Record, t: Ticket, slot: Slot, code: Code, state: ResultState, answer: Code)
    requires Separate(x, t)
    ensures var p := [Touch(t), Cancel(slot, code), Micro.Accept(t), Micro.Finish(t, CommandResult(state, answer))];
            var y := Effects(x, p);
            && Commanded(x, y, t) && Only(x, y, t, {slot}) && Evicted(x, y, slot, code)
            && y.slots.At(slot).None? && Answered(y, t, state, answer)
  {
    var p := [Touch(t), Cancel(slot, code), Micro.Accept(t), Micro.Finish(t, CommandResult(state, answer))];
    UnrollEffects(x, p);
    var x1 := Effect(x, p[0]);
    var x2 := Effect(x1, p[1]);
    var x3 := Effect(x2, p[2]);
    Begins(x, t);
    Frees(x, x1, t, {}, slot, code);
    assert {} + {slot} == {slot};
    hide Effects, Only, Separate, Effect;
    Accepts(x, x2, t, {slot});
    Finishes(x, x3, t, {slot}, state, answer);
  }

  /** After two slots were vacated and the ticket accepted. */
  lemma TwoFreed(x: Record, t: Ticket, a: Slot, b: Slot, ca: Code, cb: Code)
    requires Separate(x, t) && a != b
    ensures var y := Effect(Effect(Effect(x, Touch(t)), Cancel(a, ca)), Cancel(b, cb));
            Stage(x, y, t, {a, b}) && Evicted(x, y, a, ca) && Evicted(x, y, b, cb)
  {
    var x1 := Effect(x, Touch(t));
    var x2 := Effect(x1, Cancel(a, ca));
    Begins(x, t);
    hide Effect, Only, Separate;
    Frees(x, x1, t, {}, a, ca);
    assert {} + {a} == {a} && {a} + {b} == {a, b};
    Frees(x, x2, t, {a}, b, cb);
  }

  /** A plan that vacates two slots and answers. */
  lemma ClearTwoWork(x: Record, t: Ticket, a: Slot, b: Slot, ca: Code, cb: Code, answer: Code)
    requires Separate(x, t) && a != b
    ensures var p := [Touch(t), Cancel(a, ca), Cancel(b, cb), Micro.Accept(t),
                      Micro.Finish(t, CommandResult(Completed, answer))];
            var y := Effects(x, p);
            && Commanded(x, y, t) && Only(x, y, t, {a, b}) && Evicted(x, y, a, ca) && Evicted(x, y, b, cb)
            && y.slots.At(a).None? && y.slots.At(b).None? && Answered(y, t, Completed, answer)
  {
    var p := [Touch(t), Cancel(a, ca), Cancel(b, cb), Micro.Accept(t),
              Micro.Finish(t, CommandResult(Completed, answer))];
    UnrollEffects(x, p);
    TwoFreed(x, t, a, b, ca, cb);
    var x3 := Effect(Effect(Effect(x, p[0]), p[1]), p[2]);
    hide Effects, Only, Separate, Effect;
    Accepts(x, x3, t, {a, b});
    Finishes(x, Effect(x3, p[3]), t, {a, b}, Completed, answer);
  }

  /** One that vacates two slots and takes the second, accepted before or after. */
  lemma ReplaceTwoWork(x: Record, t: Ticket, a: Slot, b: Slot, ca: Code, cb: Code, early: bool)
    requires Separate(x, t) && a != b
    ensures var p := [Touch(t), Cancel(a, ca), Cancel(b, cb)]
                   + if early then [Micro.Accept(t), Place(b, t)] else [Place(b, t), Micro.Accept(t)];
            var y := Effects(x, p);
            && Commanded(x, y, t) && Only(x, y, t, {a, b}) && Evicted(x, y, a, ca) && Evicted(x, y, b, cb)
            && y.slots.At(a).None? && Took(x, y, t, b)
  {
    var p := [Touch(t), Cancel(a, ca), Cancel(b, cb)]
           + if early then [Micro.Accept(t), Place(b, t)] else [Place(b, t), Micro.Accept(t)];
    UnrollEffects(x, p);
    TwoFreed(x, t, a, b, ca, cb);
    var x3 := Effect(Effect(Effect(x, Touch(t)), Cancel(a, ca)), Cancel(b, cb));
    hide Effects, Only, Separate;
    if early {
      Accepts(x, x3, t, {a, b});
      Takes(x, Effect(x3, Micro.Accept(t)), t, {a, b}, b);
    } else {
      Takes(x, x3, t, {a, b}, b);
      AcceptsHolder(x, Effect(x3, Place(b, t)), t, {a, b});
    }
  }

  // ----- kind by kind -------------------------------------------------------------

  /** The command's work, on the part at stake. */
  lemma Carried(s: State, v: View)
    requires Ready(s)
    ensures RecordOf(CommandDone(s, v)) == Effects(RecordOf(s), Plan(s.slots, Head(s), v))
    ensures Separate(RecordOf(s), Head(s))
  {
    var t := Head(s);
    var p := Plan(s.slots, t, v);
    var s1 := BeginState(s.(mail := s.mail.(queue := s.mail.queue[1..])), t);
    HeadIsFree(s);
    PlanFacts.PlanHasShape(s.slots, t, v);
    hide Plan, Effects, DoAll, Inv;
    PlanWork(p, t);
    EffectOfAll(s1, p);
  }

  lemma PlanWork(p: seq<Micro>, t: Ticket)
    requires PlanFacts.PlanShape(p, t)
    ensures forall m | m in p :: !m.Clear? && !m.Forget?
  {}

  lemma HeadIsFree(s: State)
    requires Ready(s)
    ensures Separate(RecordOf(s), Head(s))
  {
    var t := Head(s);
    assert Waiting(s.mail, s.todo, t);
    assert t in s.book.pending;
    forall slot ensures s.slots.At(slot) != Some(t) {
      if s.slots.At(slot) == Some(t) { HeldTwice(s.mail, s.slots, s.todo, t, slot); }
    }
    forall a, b | a != b && s.slots.At(a).Some? ensures s.slots.At(a) != s.slots.At(b) {
      if s.slots.At(a) == s.slots.At(b) { SlotsTwice(s.mail, s.slots, s.todo, s.slots.At(a).value, a, b); }
    }
  }

  lemma SlotsTwice(m: Mail, slots: Slots, todo: seq<Micro>, t: Ticket, a: Slot, b: Slot)
    requires a != b && slots.At(a) == slots.At(b) == Some(t)
    ensures Holders(m, slots, todo, t) >= 2
  {}

  lemma HeldTwice(m: Mail, slots: Slots, todo: seq<Micro>, t: Ticket, slot: Slot)
    requires m.queue != [] && m.queue[0] == t && slots.At(slot) == Some(t)
    ensures Holders(m, slots, todo, t) >= 2
  {}

  /** An expired ticket, of whatever kind, is failed and the runtime left alone. */
  lemma ExpiredIsRefused(s: State, v: View)
    requires Ready(s) && v.expired
    ensures Refused(RecordOf(s), RecordOf(CommandDone(s, v)), Head(s), Expired)
  {
    Carried(s, v);
    FailWork(RecordOf(s), Head(s), Expired);
    hide CommandDone, Effects, Inv, Separate, Refused;
  }

  /** So is one that would move an arm too hot to move. */
  lemma TooHotIsRefused(s: State, v: View)
    requires Ready(s) && !v.expired && v.alert && !ObeyedHot(Head(s).request.kind)
    ensures Refused(RecordOf(s), RecordOf(CommandDone(s, v)), Head(s), ShoulderOverTemperature)
  {
    Carried(s, v);
    FailWork(RecordOf(s), Head(s), ShoulderOverTemperature);
    hide CommandDone, Effects, Inv, Separate, Refused;
  }

  // The plans that leave the slots alone.

  lemma FailWork(x: Record, t: Ticket, code: Code)
    requires Separate(x, t)
    ensures Refused(x, Effects(x, FailWith(t, code)), t, code)
  {
    UnrollEffects(x, FailWith(t, code));
    hide Effects;
  }

  lemma DuplicateWork(x: Record, t: Ticket)
    requires Separate(x, t)
    ensures var y := Effects(x, [Micro.Finish(t, CommandResult(Completed, Duplicate))]);
            Idle(x, y) && Answered(y, t, Completed, Duplicate) && Only(x, y, t, {})
  {
    UnrollEffects(x, [Micro.Finish(t, CommandResult(Completed, Duplicate))]);
    hide Effects;
  }

  /** The runtime was asked, and said no. */
  ghost predicate Tried(x: Record, y: Record, t: Ticket, code: Code) {
    Commanded(x, y, t) && y.slots == x.slots && Answered(y, t, Failed, code) && Only(x, y, t, {})
  }

  lemma TryWork(x: Record, t: Ticket, code: Code)
    requires Separate(x, t)
    ensures Tried(x, Effects(x, [Touch(t)] + FailWith(t, code)), t, code)
  {
    UnrollEffects(x, [Touch(t)] + FailWith(t, code));
    hide Effects;
  }

  lemma ObeyWork(x: Record, t: Ticket)
    requires Separate(x, t)
    ensures Done(x, Effects(x, [Touch(t)] + AnswerWith(t)), t)
  {
    UnrollEffects(x, [Touch(t)] + AnswerWith(t));
    hide Effects;
  }

  lemma AnswerWork(x: Record, t: Ticket)
    requires Separate(x, t)
    ensures var y := Effects(x, AnswerWith(t));
            Idle(x, y) && Answered(y, t, Completed, CompletedCode) && Only(x, y, t, {})
  {
    UnrollEffects(x, AnswerWith(t));
    hide Effects;
  }

  lemma PlayCommand(s: Slots, t: Ticket, v: View)
    requires t.request.kind == MotionPlay && !v.expired && (v.alert ==> ObeyedHot(t.request.kind))
    ensures Plan(s, t, v)
         == if !v.known then FailWith(t, UnknownMotion)
            else if (s.active.Some? || v.primitiveBusy) && !t.request.replaceCurrent then FailWith(t, Busy)
            else [Touch(t), Cancel(Active, ReplacedCode), Place(Active, t), Micro.Accept(t)]
  {}

  /** A motion of the catalog starts if the head is free or the request says to replace. */
  lemma PlayEffect(s: State, v: View)
    requires Ready(s) && Timely(s, v, MotionPlay)
    ensures var x, y, t := RecordOf(s), RecordOf(CommandDone(s, v)), Head(s);
            var busy := s.slots.active.Some? || v.primitiveBusy;
            && (!v.known ==> Refused(x, y, t, UnknownMotion))
            && (v.known && busy && !t.request.replaceCurrent ==> Refused(x, y, t, Busy))
            && (v.known && (busy ==> t.request.replaceCurrent) ==>
                  && Commanded(x, y, t) && Took(x, y, t, Active) && Only(x, y, t, {Active})
                  && Evicted(x, y, Active, ReplacedCode))
  {
    var x, t := RecordOf(s), Head(s);
    Carried(s, v);
    PlayCommand(s.slots, t, v);
    hide Plan, CommandDone, Effects, Inv, Separate, Only, Evicted, Took, Answered, Commanded;
    ReplaceWork(x, t, Active, ReplacedCode);
    FailWork(x, t, UnknownMotion);
    FailWork(x, t, Busy);
  }

  lemma AcquireCommand(s: Slots, t: Ticket, v: View)
    requires t.request.kind == OrientationAcquire && !v.expired && (v.alert ==> ObeyedHot(t.request.kind))
    ensures Plan(s, t, v) == AcquirePlan(t, v)
  {}

  /** The refusals of a turn towards a voice, in their order, and its two successes: the
      head was there already, or the ticket waits for it to arrive. */
  lemma AcquireEffect(s: State, v: View)
    requires Ready(s) && Timely(s, v, OrientationAcquire)
    ensures var x, y, t := RecordOf(s), RecordOf(CommandDone(s, v)), Head(s);
            if v.sameSpeech then Idle(x, y) && Answered(y, t, Completed, Duplicate) && Only(x, y, t, {})
            else if v.awayActive then Refused(x, y, t, AwayPoseActive)
            else if v.faceHolding then Refused(x, y, t, FaceFollowActive)
            else if v.userInView then Refused(x, y, t, UserInView)
            else if v.acquire.AcquireError? then Tried(x, y, t, v.acquire.code)
            else if v.acquire.Blocked? then Tried(x, y, t, BlockedByTaskLight)
            else
              && Commanded(x, y, t) && Only(x, y, t, {Returning, Orientation})
              && Evicted(x, y, Orientation, ReplacedCode) && Evicted(x, y, Returning, ReplacedCode)
              && y.slots.returning.None?
              && if v.acquire.Aligned? then y.slots.orientation.None? && Answered(y, t, Completed, AlignedCode)
                 else Took(x, y, t, Orientation)
  {
    var x, t := RecordOf(s), Head(s);
    Carried(s, v);
    AcquireCommand(s.slots, t, v);
    hide Plan, CommandDone, Effects, Inv, Separate, Only, Evicted, Took, Answered, Commanded;
    hide Idle, Refused, Tried;
    if v.sameSpeech { DuplicateWork(x, t); }
    else if v.awayActive { FailWork(x, t, AwayPoseActive); }
    else if v.faceHolding { FailWork(x, t, FaceFollowActive); }
    else if v.userInView { FailWork(x, t, UserInView); }
    else if v.acquire.AcquireError? { TryWork(x, t, v.acquire.code); }
    else if v.acquire.Blocked? { TryWork(x, t, BlockedByTaskLight); }
    else if v.acquire.Aligned? {
      ClearTwoWork(x, t, Returning, Orientation, ReplacedCode, ReplacedCode, AlignedCode);
    } else {
      ReplaceTwoWork(x, t, Returning, Orientation, ReplacedCode, ReplacedCode, true);
      EarlyPlan(t);
    }
  }

  lemma EarlyPlan(t: Ticket)
    ensures [Touch(t), Cancel(Returning, ReplacedCode), Cancel(Orientation, ReplacedCode)]
           + [Micro.Accept(t), Place(Orientation, t)]
        == [Touch(t), Cancel(Returning, ReplacedCode), Cancel(Orientation, ReplacedCode), Micro.Accept(t),
            Place(Orientation, t)]
  {}

  lemma ReturnCommand(s: Slots, t: Ticket, v: View)
    requires t.request.kind == OrientationReturn && !v.expired && (v.alert ==> ObeyedHot(t.request.kind))
    ensures Plan(s, t, v) == ReturnPlan(s, t, v)
  {}

  /** The way back to the center, refused while anything moves the arm. */
  lemma ReturnEffect(s: State, v: View)
    requires Ready(s) && Timely(s, v, OrientationReturn)
    ensures var x, y, t := RecordOf(s), RecordOf(CommandDone(s, v)), Head(s);
            if s.slots.active.Some? || v.primitiveBusy || v.taskBusy then Refused(x, y, t, Busy)
            else if v.returnRefused then Tried(x, y, t, v.returnCode)
            else
              && Commanded(x, y, t) && Took(x, y, t, Returning) && Only(x, y, t, {Orientation, Returning})
              && y.slots.orientation.None?
              && Evicted(x, y, Orientation, ReplacedCode) && Evicted(x, y, Returning, ReplacedCode)
  {
    var x, t := RecordOf(s), Head(s);
    Carried(s, v);
    ReturnCommand(s.slots, t, v);
    hide Plan, CommandDone, Effects, Inv, Separate, Only, Evicted, Took, Answered, Commanded;
    hide Refused, Tried;
    if s.slots.active.Some? || v.primitiveBusy || v.taskBusy { FailWork(x, t, Busy); }
    else if v.returnRefused { TryWork(x, t, v.returnCode); }
    else {
      ReplaceTwoWork(x, t, Orientation, Returning, ReplacedCode, ReplacedCode, false);
      LatePlan(t);
    }
  }

  lemma LatePlan(t: Ticket)
    ensures [Touch(t), Cancel(Orientation, ReplacedCode), Cancel(Returning, ReplacedCode)]
           + [Place(Returning, t), Micro.Accept(t)]
        == [Touch(t), Cancel(Orientation, ReplacedCode), Cancel(Returning, ReplacedCode), Place(Returning, t),
            Micro.Accept(t)]
  {}

  /** Motion and task light end, with these codes for their tickets. */
  ghost predicate Halted(x: Record, y: Record, t: Ticket, motion: Code) {
    && Commanded(x, y, t) && Answered(y, t, Completed, CompletedCode) && Only(x, y, t, {Active, Task})
    && y.slots.active.None? && y.slots.task.None?
    && Evicted(x, y, Active, motion) && Evicted(x, y, Task, Interrupted)
  }

  lemma StopCommand(s: Slots, t: Ticket, v: View)
    requires (t.request.kind == MotionCancel || t.request.kind == MotionInterrupt)
    requires !v.expired && (v.alert ==> ObeyedHot(t.request.kind))
    ensures Plan(s, t, v) == StopMotionPlan(s, t)
  {}

  /** A cancellation must name the motion at work; an interrupt need not. */
  lemma StopEffect(s: State, v: View)
    requires Ready(s) && (Timely(s, v, MotionCancel) || Timely(s, v, MotionInterrupt))
    ensures var x, y, t := RecordOf(s), RecordOf(CommandDone(s, v)), Head(s);
            if t.request.kind == MotionInterrupt then Halted(x, y, t, Interrupted)
            else if s.slots.active.Some? && s.slots.active.value.Rid() == t.request.targetId then
              Halted(x, y, t, CancelledCode)
            else Refused(x, y, t, NotFound)
  {
    var x, t := RecordOf(s), Head(s);
    Carried(s, v);
    StopCommand(s.slots, t, v);
    hide Plan, CommandDone, Effects, Inv, Separate, Only, Evicted, Took, Answered, Commanded;
    hide Refused;
    if t.request.kind == MotionInterrupt {
      ClearTwoWork(x, t, Active, Task, Interrupted, Interrupted, CompletedCode);
      StopPlans(t, Interrupted);
    } else if s.slots.active.Some? && s.slots.active.value.Rid() == t.request.targetId {
      ClearTwoWork(x, t, Active, Task, CancelledCode, Interrupted, CompletedCode);
      StopPlans(t, CancelledCode);
    } else {
      FailWork(x, t, NotFound);
    }
  }

  lemma StopPlans(t: Ticket, code: Code)
    ensures [Touch(t), Cancel(Active, code), Cancel(Task, Interrupted)] + AnswerWith(t)
         == [Touch(t), Cancel(Active, code), Cancel(Task, Interrupted), Micro.Accept(t),
             Micro.Finish(t, CommandResult(Completed, CompletedCode))]
  {}

  lemma PlaceCommand(s: Slots, t: Ticket, v: View)
    requires t.request.kind == TaskPlace && !v.expired && (v.alert ==> ObeyedHot(t.request.kind))
    ensures Plan(s, t, v) == PlaceLightPlan(t, v)
  {}

  /** A task light replaces the one before; a target that is refused ends it all the same. */
  lemma PlaceEffect(s: State, v: View)
    requires Ready(s) && Timely(s, v, TaskPlace)
    ensures var x, y, t := RecordOf(s), RecordOf(CommandDone(s, v)), Head(s);
            && Commanded(x, y, t) && Only(x, y, t, {Task})
            && if v.placed then Took(x, y, t, Task) && Evicted(x, y, Task, ReplacedCode)
               else y.slots.task.None? && Answered(y, t, Failed, v.placeCode) && Evicted(x, y, Task, UnsafeTarget)
  {
    var x, t := RecordOf(s), Head(s);
    Carried(s, v);
    PlaceCommand(s.slots, t, v);
    hide Plan, CommandDone, Effects, Inv, Separate, Only, Evicted, Took, Answered, Commanded;
    ReplaceWork(x, t, Task, ReplacedCode);
    ClearWork(x, t, Task, UnsafeTarget, Failed, v.placeCode);
    assert [Touch(t), Cancel(Task, UnsafeTarget), Micro.Accept(t)] + FailWith(t, v.placeCode)
        == [Touch(t), Cancel(Task, UnsafeTarget), Micro.Accept(t), Micro.Finish(t, CommandResult(Failed, v.placeCode))];
  }

  lemma ClearCommand(s: Slots, t: Ticket, v: View)
    requires (t.request.kind == TaskCancel || t.request.kind == TaskClear)
    requires !v.expired && (v.alert ==> ObeyedHot(t.request.kind))
    ensures Plan(s, t, v) == TaskPlan(s, t, v)
  {}

  /** A cancellation must name the task light that is held; clearing need not. */
  lemma ClearEffect(s: State, v: View)
    requires Ready(s) && (Timely(s, v, TaskCancel) || Timely(s, v, TaskClear))
    ensures var x, y, t := RecordOf(s), RecordOf(CommandDone(s, v)), Head(s);
            if t.request.kind == TaskCancel
               && (s.slots.task.None? || s.slots.task.value.Rid() != t.request.targetId) then
              Refused(x, y, t, NotFound)
            else
              && Commanded(x, y, t) && Answered(y, t, Completed, CompletedCode) && Only(x, y, t, {Task})
              && y.slots.task.None? && Evicted(x, y, Task, CancelledCode)
  {
    var x, t := RecordOf(s), Head(s);
    Carried(s, v);
    ClearCommand(s.slots, t, v);
    hide Plan, CommandDone, Effects, Inv, Separate, Only, Evicted, Took, Answered, Commanded;
    FailWork(x, t, NotFound);
    ClearWork(x, t, Task, CancelledCode, Completed, CompletedCode);
    assert ClearLightPlan(t)
        == [Touch(t), Cancel(Task, CancelledCode), Micro.Accept(t),
            Micro.Finish(t, CommandResult(Completed, CompletedCode))];
  }

  lemma FaceCommand(s: Slots, t: Ticket, v: View)
    requires t.request.kind == FaceStep && !v.expired && (v.alert ==> ObeyedHot(t.request.kind))
    ensures Plan(s, t, v) == FacePlan(s, t, v)
  {}

  /** A small correction towards a face. */
  lemma FaceEffect(s: State, v: View)
    requires Ready(s) && Timely(s, v, FaceStep)
    ensures var x, y, t := RecordOf(s), RecordOf(CommandDone(s, v)), Head(s);
            if v.taskBusy || s.slots.active.Some? then Refused(x, y, t, Busy)
            else if v.faceUnsafe then Tried(x, y, t, UnsafeFaceStep)
            else Done(x, y, t)
  {
    var x, t := RecordOf(s), Head(s);
    Carried(s, v);
    FaceCommand(s.slots, t, v);
    hide Plan, CommandDone, Effects, Inv, Separate, Only, Evicted, Took, Answered, Commanded;
    FailWork(x, t, Busy);
    TryWork(x, t, UnsafeFaceStep);
    ObeyWork(x, t);
  }

  lemma AwayCommand(s: Slots, t: Ticket, v: View)
    requires t.request.kind == AwayHold && !v.expired && (v.alert ==> ObeyedHot(t.request.kind))
    ensures Plan(s, t, v) == AwayPlan(s, t, v)
  {}

  /** Turning away: not with a warm shoulder, not while something else moves the arm. */
  lemma AwayEffect(s: State, v: View)
    requires Ready(s) && Timely(s, v, AwayHold)
    ensures var x, y, t := RecordOf(s), RecordOf(CommandDone(s, v)), Head(s);
            if v.shoulderWarm then Refused(x, y, t, ShoulderWarm)
            else if v.taskBusy || s.slots.active.Some? then Refused(x, y, t, Busy)
            else if !v.awayTorqueOk then Tried(x, y, t, OverTorque)
            else Done(x, y, t)
  {
    var x, t := RecordOf(s), Head(s);
    Carried(s, v);
    AwayCommand(s.slots, t, v);
    hide Plan, CommandDone, Effects, Inv, Separate, Only, Evicted, Took, Answered, Commanded;
    FailWork(x, t, ShoulderWarm);
    FailWork(x, t, Busy);
    TryWork(x, t, OverTorque);
    ObeyWork(x, t);
  }

  ghost predicate Asks(k: Kind) {
    k == OrientationHold || k == OrientationStatus || k == MotionList || k == MotionStatus || k == Heartbeat
  }

  lemma PlainCommand(s: Slots, t: Ticket, v: View)
    requires !v.expired && (v.alert ==> ObeyedHot(t.request.kind))
    ensures var k := t.request.kind;
            && (k == TrackClear || k == FaceClear || k == AwayClear ==> Plan(s, t, v) == [Touch(t)] + AnswerWith(t))
            && (Asks(k) ==> Plan(s, t, v) == AnswerWith(t))
            && (k == TrackPoint || k == TrackBearing || k == UnknownKind ==> Plan(s, t, v) == FailWith(t, UnknownType))
  {}

  /** The commands that always succeed: those that clear something command the runtime,
      those that only ask or wait do not. */
  lemma PlainEffect(s: State, v: View, k: Kind)
    requires Ready(s) && Timely(s, v, k)
    ensures var x, y, t := RecordOf(s), RecordOf(CommandDone(s, v)), Head(s);
            && (k == TrackClear || k == FaceClear || k == AwayClear ==> Done(x, y, t))
            && (Asks(k) ==> Idle(x, y) && Answered(y, t, Completed, CompletedCode) && Only(x, y, t, {}))
            && (k == TrackPoint || k == TrackBearing || k == UnknownKind ==> Refused(x, y, t, UnknownType))
  {
    var x, t := RecordOf(s), Head(s);
    Carried(s, v);
    ObeyWork(x, t);
    AnswerWork(x, t);
    FailWork(x, t, UnknownType);
    PlainCommand(s.slots, t, v);
    hide Plan, CommandDone, Effects, Inv, Separate, Only, Answered, Commanded, Done, Idle, Refused;
  }

  /** A ticket that was invalidated is thrown away: nothing happens at all. */
  lemma InvalidatedIsThrownAway(s: State, v: View)
    requires s.mail.queue != [] && Head(s) in s.mail.invalidated
    ensures var s' := CommandDone(s, v);
            s'.slots == s.slots && s'.book == s.book && s'.seen == s.seen
  {}
}

/** The command-ticket protocol of the motion controller as a transition system.

    Transport threads submit, invalidate, disconnect and stop; each of their
    calls is one critical section, so one step here. The owner thread works
    through `todo`, the rest of what it is doing: one micro-action per critical
    section, with transport steps free to run between any two of them. The
    sections of a tick may start in any order and any number of times, which
    includes every order the controller uses. */
module TicketProtocol {
  import opened Options
  import opened OrderedTickets

  const QUEUE_SIZE: nat := 32
  const RECENT_SIZE: nat := 256

  /** Holders of a ticket whose work the runtime is doing. */
  datatype Slot = Active | Task | Orientation | Returning

  /** One critical section of the owner. */
  datatype Micro =
    | Begin(t: Ticket)                        // claim a ticket just taken off the queue
    | Touch(t: Ticket)                        // command the runtime on its behalf
    | Accept(t: Ticket)
    | Finish(t: Ticket, r: CommandResult)
    | Settle(slot: Slot, r: CommandResult)    // finish the slot's ticket and vacate the slot
    | Complete(slot: Slot, r: CommandResult)  // finish the slot's ticket, which stays there
    | Place(into: Slot, t: Ticket)
    | Clear(r: CommandResult)                 // drain the mailbox, finish all pending tickets
    | Forget                                  // vacate all four slots

  /** The tables every critical section may change, and the tickets' futures. */
  datatype Book = Book(
    pending: seq<Ticket>,
    recent: seq<Ticket>,
    started: set<string>,
    accepted: map<Ticket, CommandResult>,
    completed: map<Ticket, CommandResult>)

  datatype Mail = Mail(
    queue: seq<Ticket>,
    point: Option<Ticket>,
    bearing: Option<Ticket>,
    invalidated: set<Ticket>)

  datatype Slots = Slots(
    active: Option<Ticket>,
    task: Option<Ticket>,
    orientation: Option<Ticket>,
    returning: Option<Ticket>)
  {
    function At(slot: Slot): Option<Ticket> {
      match slot
      case Active => active
      case Task => task
      case Orientation => orientation
      case Returning => returning
    }

    function With(slot: Slot, o: Option<Ticket>): Slots {
      match slot
      case Active => this.(active := o)
      case Task => this.(task := o)
      case Orientation => this.(orientation := o)
      case Returning => this.(returning := o)
    }
  }

  /** History that no step reads: the tickets ever made, begun, invalidated, and
      used to command the runtime, and whether a shutdown has run to its end. */
  datatype History = History(
    submitted: set<Ticket>,
    begun: set<Ticket>,
    dropped: set<Ticket>,
    touched: set<Ticket>,
    down: bool)

  datatype State = State(
    book: Book,
    mail: Mail,
    slots: Slots,
    todo: seq<Micro>,
    disconnect: bool,
    stopped: bool,
    fault: bool,
    next: nat,
    seen: History)

  const NoMail: Mail := Mail([], None, None, {})
  const NoSlots: Slots := Slots(None, None, None, None)

  const Initial: State := State(Book([], [], {}, map[], map[]), NoMail, NoSlots, [],
                                false, false, false, 0, History({}, {}, {}, {}, false))

  // ----- the shared bookkeeping -------------------------------------------------

  function Remember(recent: seq<Ticket>, t: Ticket): seq<Ticket> {
    var d := Without(recent, t.Rid()) + [t];
    if |d| <= RECENT_SIZE then d else d[|d| - RECENT_SIZE..]
  }

  function MoveToEnd(recent: seq<Ticket>, id: string): seq<Ticket> {
    match Find(recent, id)
    case None => recent
    case Some(t) => Without(recent, id) + [t]
  }

  /** A future is resolved at most once; a second result is ignored. */
  function Resolve(futures: map<Ticket, CommandResult>, t: Ticket, r: CommandResult): map<Ticket, CommandResult> {
    if t in futures then futures else futures[t := r]
  }

  function AcceptTicket(b: Book, t: Ticket): Book {
    b.(accepted := Resolve(b.accepted, t, CommandResult(Accepted, AcceptedCode)))
  }

  function FinishTicket(b: Book, t: Ticket, r: CommandResult): Book {
    var mine := Find(b.pending, t.Rid()) == Some(t);
    Book(if mine then Without(b.pending, t.Rid()) else b.pending,
         if mine then Remember(b.recent, t) else b.recent,
         if mine then b.started - {t.Rid()} else b.started,
         Resolve(b.accepted, t, r),
         Resolve(b.completed, t, r))
  }

  function FinishOption(b: Book, o: Option<Ticket>, r: CommandResult): Book {
    match o
    case None => b
    case Some(t) => FinishTicket(b, t, r)
  }

  function FinishAll(b: Book, r: CommandResult): Book
    decreases |b.pending|
  {
    if b.pending == [] then b
    else
      FoundFirst(b.pending);
      FinishAll(FinishTicket(b, b.pending[0], r), r)
  }

  lemma FoundFirst(d: seq<Ticket>)
    requires d != []
    ensures Find(d, d[0].Rid()) == Some(d[0])
    ensures |Without(d, d[0].Rid())| < |d|
  {}

  function ClearMail(m: Mail): Mail {
    Mail([], None, None, m.invalidated - set t | t in m.queue)
  }

  // ----- transport threads ------------------------------------------------------

  function Cached(b: Book, id: string): Option<Ticket> {
    match Find(b.pending, id)
    case Some(t) => Some(t)
    case None => Find(b.recent, id)
  }

  function NewTicket(s: State, request: Request, origin: Origin): Ticket {
    Ticket(s.next, origin, request)
  }

  /** The ticket that `submit` hands back. */
  function SubmitTicket(s: State, request: Request, origin: Origin): Ticket {
    match Cached(s.book, request.id)
    case Some(t) => if t.origin == origin then t else NewTicket(s, request, origin)
    case None => NewTicket(s, request, origin)
  }

  /** A new ticket enters the tables. */
  function Enter(b: Book, t: Ticket): Book {
    b.(recent := Remember(b.recent, t), pending := b.pending + [t])
  }

  /** Where a new ticket is put, and what becomes of the tables. */
  function Deliver(fault: bool, stopped: bool, m: Mail, b: Book, t: Ticket): (Book, Mail) {
    if fault then (FinishTicket(b, t, CommandResult(Failed, Faulted)), m)
    else if stopped then (FinishTicket(b, t, CommandResult(Failed, StoppedCode)), m)
    else if t.request.kind == TrackPoint then
      (FinishOption(b, m.point, CommandResult(Cancelled, Superseded)), m.(point := Some(t)))
    else if t.request.kind == TrackBearing then
      (FinishOption(b, m.bearing, CommandResult(Cancelled, Superseded)), m.(bearing := Some(t)))
    else if |m.queue| < QUEUE_SIZE then (b, m.(queue := m.queue + [t]))
    else (FinishTicket(b, t, CommandResult(Failed, QueueFull)), m)
  }

  function SubmitState(s: State, request: Request, origin: Origin): State {
    var t := NewTicket(s, request, origin);
    var seen := s.seen.(submitted := s.seen.submitted + {t});
    match Cached(s.book, request.id)
    case Some(known) =>
      if known.origin == origin then
        s.(book := s.book.(recent := MoveToEnd(s.book.recent, request.id)))
      else
        s.(book := FinishTicket(s.book, t, CommandResult(Failed, RequestIdCollision)),
           next := s.next + 1, seen := seen)
    case None =>
      var (book, mail) := Deliver(s.fault, s.stopped, s.mail, Enter(s.book, t), t);
      s.(book := book, mail := mail, next := s.next + 1, seen := seen)
  }

  predicate CanInvalidate(b: Book, t: Ticket) {
    && t.origin == Local
    && Find(b.pending, t.Rid()) == Some(t)
    && t.Rid() !in b.started
    && t !in b.accepted
  }

  function InvalidateState(s: State, t: Ticket): State {
    if CanInvalidate(s.book, t) then
      s.(mail := s.mail.(invalidated := s.mail.invalidated + {t}),
         seen := s.seen.(dropped := s.seen.dropped + {t}),
         book := FinishTicket(s.book, t, CommandResult(Cancelled, LocalDisconnected)))
    else s
  }

  // ----- owner thread -----------------------------------------------------------

  /** `_begin`: an invalidated ticket is thrown away, any other one is claimed. */
  function BeginState(s: State, t: Ticket): State {
    if t in s.mail.invalidated then s.(mail := s.mail.(invalidated := s.mail.invalidated - {t}))
    else s.(book := s.book.(started := s.book.started + {t.Rid()}),
            seen := s.seen.(begun := s.seen.begun + {t}))
  }

  /** The effect of one micro-action on everything but the owner's own position. */
  function Do(s: State, m: Micro): State {
    match m
    case Begin(t) => BeginState(s, t)
    case Touch(t) => s.(seen := s.seen.(touched := s.seen.touched + {t}))
    case Accept(t) => s.(book := AcceptTicket(s.book, t))
    case Finish(t, r) => s.(book := FinishTicket(s.book, t, r))
    case Settle(slot, r) =>
      s.(book := FinishOption(s.book, s.slots.At(slot), r), slots := s.slots.With(slot, None))
    case Complete(slot, r) => s.(book := FinishOption(s.book, s.slots.At(slot), r))
    case Place(slot, t) => s.(slots := s.slots.With(slot, Some(t)))
    case Clear(r) => s.(mail := ClearMail(s.mail), book := FinishAll(s.book, r))
    case Forget => s.(slots := NoSlots, seen := s.seen.(down := true))
  }

  function DoAll(s: State, ms: seq<Micro>): State
    decreases |ms|
  {
    if ms == [] then s else DoAll(Do(s, ms[0]), ms[1..])
  }

  datatype Acquire = AcquireError(code: Code) | Blocked | Aligned | Orienting

  /** What the owner sees when it looks at the clock, the catalog and the runtime. */
  datatype View = View(
    expired: bool, alert: bool, known: bool, primitiveBusy: bool, sameSpeech: bool,
    awayActive: bool, faceHolding: bool, userInView: bool, acquire: Acquire,
    taskBusy: bool, returnRefused: bool, returnCode: Code,
    placed: bool, placeCode: Code, faceUnsafe: bool, shoulderWarm: bool, awayTorqueOk: bool)

  predicate AllowedHot(k: Kind) {
    k in {MotionStatus, MotionList, Heartbeat, MotionInterrupt, TaskClear, TrackClear, FaceClear, AwayClear}
  }

  function FailWith(t: Ticket, code: Code): seq<Micro> { [Finish(t, CommandResult(Failed, code))] }

  function AnswerWith(t: Ticket): seq<Micro> { [Accept(t), Finish(t, CommandResult(Completed, CompletedCode))] }

  function Cancel(slot: Slot, code: Code): Micro { Settle(slot, CommandResult(Cancelled, code)) }

  function PlayPlan(s: Slots, t: Ticket, v: View): seq<Micro> {
    if !v.known then FailWith(t, UnknownMotion)
    else if (s.active.Some? || v.primitiveBusy) && !t.request.replaceCurrent then FailWith(t, Busy)
    else [Touch(t), Cancel(Active, ReplacedCode), Place(Active, t), Accept(t)]
  }

  function AcquirePlan(t: Ticket, v: View): seq<Micro> {
    if v.sameSpeech then [Finish(t, CommandResult(Completed, Duplicate))]
    else if v.awayActive then FailWith(t, AwayPoseActive)
    else if v.faceHolding then FailWith(t, FaceFollowActive)
    else if v.userInView then FailWith(t, UserInView)
    else match v.acquire
      case AcquireError(code) => [Touch(t)] + FailWith(t, code)
      case Blocked => [Touch(t)] + FailWith(t, BlockedByTaskLight)
      case Aligned =>
        [Touch(t), Cancel(Returning, ReplacedCode), Cancel(Orientation, ReplacedCode), Accept(t),
         Finish(t, CommandResult(Completed, AlignedCode))]
      case Orienting =>
        [Touch(t), Cancel(Returning, ReplacedCode), Cancel(Orientation, ReplacedCode), Accept(t),
         Place(Orientation, t)]
  }

  function ReturnPlan(s: Slots, t: Ticket, v: View): seq<Micro> {
    if s.active.Some? || v.primitiveBusy || v.taskBusy then FailWith(t, Busy)
    else if v.returnRefused then [Touch(t)] + FailWith(t, v.returnCode)
    else [Touch(t), Cancel(Orientation, ReplacedCode), Cancel(Returning, ReplacedCode),
          Place(Returning, t), Accept(t)]
  }

  function StopMotionPlan(s: Slots, t: Ticket): seq<Micro> {
    if t.request.kind == MotionInterrupt then
      [Touch(t), Cancel(Active, Interrupted), Cancel(Task, Interrupted)] + AnswerWith(t)
    else if s.active.None? || s.active.value.Rid() != t.request.targetId then FailWith(t, NotFound)
    else [Touch(t), Cancel(Active, CancelledCode), Cancel(Task, Interrupted)] + AnswerWith(t)
  }

  function PlaceLightPlan(t: Ticket, v: View): seq<Micro> {
    if !v.placed then [Touch(t), Cancel(Task, UnsafeTarget), Accept(t)] + FailWith(t, v.placeCode)
    else [Touch(t), Cancel(Task, ReplacedCode), Place(Task, t), Accept(t)]
  }

  function ClearLightPlan(t: Ticket): seq<Micro> { [Touch(t), Cancel(Task, CancelledCode)] + AnswerWith(t) }

  function TaskPlan(s: Slots, t: Ticket, v: View): seq<Micro> {
    if t.request.kind == TaskPlace then PlaceLightPlan(t, v)
    else if t.request.kind == TaskCancel
            && (s.task.None? || s.task.value.Rid() != t.request.targetId) then FailWith(t, NotFound)
    else ClearLightPlan(t)
  }

  function FacePlan(s: Slots, t: Ticket, v: View): seq<Micro> {
    if v.taskBusy || s.active.Some? then FailWith(t, Busy)
    else if v.faceUnsafe then [Touch(t)] + FailWith(t, UnsafeFaceStep)
    else [Touch(t)] + AnswerWith(t)
  }

  function AwayPlan(s: Slots, t: Ticket, v: View): seq<Micro> {
    if v.shoulderWarm then FailWith(t, ShoulderWarm)
    else if v.taskBusy || s.active.Some? then FailWith(t, Busy)
    else if !v.awayTorqueOk then [Touch(t)] + FailWith(t, OverTorque)
    else [Touch(t)] + AnswerWith(t)
  }

  /** What the owner does with a ticket it has just claimed, as micro-actions. */
  function Plan(s: Slots, t: Ticket, v: View): seq<Micro> {
    if v.expired then FailWith(t, Expired)
    else if v.alert && !AllowedHot(t.request.kind) then FailWith(t, ShoulderOverTemperature)
    else match t.request.kind
      case MotionPlay => PlayPlan(s, t, v)
      case OrientationAcquire => AcquirePlan(t, v)
      case OrientationReturn => ReturnPlan(s, t, v)
      case MotionCancel => StopMotionPlan(s, t)
      case MotionInterrupt => StopMotionPlan(s, t)
      case TaskPlace => TaskPlan(s, t, v)
      case TaskCancel => TaskPlan(s, t, v)
      case TaskClear => TaskPlan(s, t, v)
      case FaceStep => FacePlan(s, t, v)
      case AwayHold => AwayPlan(s, t, v)
      case TrackClear => [Touch(t)] + AnswerWith(t)
      case FaceClear => [Touch(t)] + AnswerWith(t)
      case AwayClear => [Touch(t)] + AnswerWith(t)
      case OrientationHold => AnswerWith(t)
      case OrientationStatus => AnswerWith(t)
      case MotionList => AnswerWith(t)
      case MotionStatus => AnswerWith(t)
      case Heartbeat => AnswerWith(t)
      case _ => FailWith(t, UnknownType)
  }

  /** What the owner does with one latest-wins tracking entry. */
  function TrackPlan(o: Option<Ticket>, alert: bool, expired: bool): seq<Micro> {
    match o
    case None => []
    case Some(t) =>
      if alert then FailWith(t, ShoulderOverTemperature)
      else if expired then FailWith(t, Expired)
      else [Touch(t)] + AnswerWith(t)
  }

  function CancelAll(code: Code): seq<Micro> {
    [Cancel(Active, code), Cancel(Task, code), Cancel(Orientation, code), Cancel(Returning, code)]
  }

  function ShutdownPlan(fault: bool): seq<Micro> {
    [Clear(if fault then CommandResult(Failed, Faulted) else CommandResult(Cancelled, StoppedCode)), Forget]
  }

  // ----- events and runs --------------------------------------------------------

  datatype Event =
    | Submit(request: Request, origin: Origin)
    | RemoteDisconnected
    | Invalidate(t: Ticket)
    | Stop
    | OwnerStep(view: View)                                         // next micro-action
    | HandleDisconnect
    | TakeTracking(alert: bool, pointExpired: bool, bearingExpired: bool)
    | TakeCommand
    | OverTemperature
    | ObserveOrientation(arrived: bool, centered: bool, code: Code)
    | UpdateActive(motionDone: bool, taskDone: bool)
    | Shutdown
    | Abort(raised: bool)                                           // an exception, or an interrupt

  predicate TransportEvent(e: Event) { e.Submit? || e.RemoteDisconnected? || e.Invalidate? || e.Stop? }

  function OwnerMove(s: State, v: View): State {
    if s.todo == [] then s
    else
      var rest := s.(todo := s.todo[1..]);
      var s' := Do(rest, s.todo[0]);
      if s.todo[0].Begin? && s.todo[0].t !in s.mail.invalidated then
        s'.(todo := Plan(s.slots, s.todo[0].t, v) + rest.todo)
      else s'
  }

  function SettleIf(b: bool, slot: Slot, o: Option<Ticket>, code: Code): seq<Micro> {
    if b && o.Some? then [Settle(slot, CommandResult(Completed, code))] else []
  }

  function CompleteIf(b: bool, o: Option<Ticket>): seq<Micro> {
    if b && o.Some? then [Complete(Task, CommandResult(Completed, CompletedCode))] else []
  }

  /** Owner sections start only when the previous one is done. */
  function StartSection(s: State, e: Event): State
    requires !TransportEvent(e) && !e.OwnerStep? && !e.Abort?
  {
    if s.todo != [] then s
    else match e
      case HandleDisconnect =>
        if !s.disconnect then s
        else Do(s, Clear(CommandResult(Cancelled, Disconnected)))
             .(disconnect := false, todo := CancelAll(Disconnected))
      case TakeTracking(alert, pointExpired, bearingExpired) =>
        s.(mail := s.mail.(point := None, bearing := None),
           todo := TrackPlan(s.mail.point, alert, pointExpired)
                 + TrackPlan(s.mail.bearing, alert, bearingExpired))
      case TakeCommand =>
        if s.mail.queue == [] then s
        else s.(mail := s.mail.(queue := s.mail.queue[1..]), todo := [Begin(s.mail.queue[0])])
      case OverTemperature => s.(todo := CancelAll(ShoulderOverTemperature))
      case ObserveOrientation(arrived, centered, code) =>
        s.(todo := SettleIf(arrived, Orientation, s.slots.orientation, code)
                 + SettleIf(centered, Returning, s.slots.returning, code))
      case UpdateActive(motionDone, taskDone) =>
        s.(todo := SettleIf(motionDone, Active, s.slots.active, CompletedCode)
                 + CompleteIf(taskDone && s.slots.task.Some? && s.slots.task.value !in s.book.completed, s.slots.task))
      case Shutdown => if s.stopped then s.(todo := ShutdownPlan(s.fault)) else s
  }

  /** An exception or an interrupt leaves the section half done and turns into a shutdown,
      for an exception one with a fault. None arises between taking a command and claiming it. */
  function AbortState(s: State, raised: bool): State {
    var fault := s.fault || raised;
    if exists m | m in s.todo :: m.Begin? then s
    else s.(fault := fault, stopped := true, todo := ShutdownPlan(fault))
  }

  function Step(s: State, e: Event): State {
    match e
    case Submit(request, origin) => SubmitState(s, request, origin)
    case RemoteDisconnected => s.(disconnect := true)
    case Invalidate(t) => InvalidateState(s, t)
    case Stop => s.(stopped := true)
    case OwnerStep(v) => OwnerMove(s, v)
    case Abort(raised) => AbortState(s, raised)
    case _ => StartSection(s, e)
  }

  function RunFrom(s: State, es: seq<Event>): State
    decreases |es|
  {
    if es == [] then s else RunFrom(Step(s, es[0]), es[1..])
  }

  /** Every interleaving from start-up. */
  function Run(es: seq<Event>): State { RunFrom(Initial, es) }
}

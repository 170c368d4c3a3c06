/** What every reachable state of the ticket protocol satisfies, part by part. */
module TicketInvariant {
  import opened Options
  import opened OrderedTickets
  import opened TicketProtocol

  // ----- where a ticket is ------------------------------------------------------

  ghost function Is(o: Option<Ticket>, t: Ticket): nat { if o == Some(t) then 1 else 0 }

  /** The ticket a micro-action still has to dispose of, if any. */
  ghost function InHand(m: Micro): Option<Ticket> {
    match m
    case Begin(t) => Some(t)
    case Finish(t, _) => Some(t)
    case Place(_, t) => Some(t)
    case _ => None
  }

  ghost function Hand(todo: seq<Micro>, t: Ticket): nat {
    if todo == [] then 0 else Is(InHand(todo[0]), t) + Hand(todo[1..], t)
  }

  ghost function InMail(m: Mail, t: Ticket): nat {
    multiset(m.queue)[t] + Is(m.point, t) + Is(m.bearing, t)
  }

  ghost function InSlots(s: Slots, t: Ticket): nat {
    Is(s.active, t) + Is(s.task, t) + Is(s.orientation, t) + Is(s.returning, t)
  }

  /** How many holders a ticket has: queue, two latest-wins slots, four active
      slots and the owner's hand. */
  ghost function Holders(m: Mail, s: Slots, todo: seq<Micro>, t: Ticket): nat {
    InMail(m, t) + InSlots(s, t) + Hand(todo, t)
  }

  /** The owner is about to finish everything that is pending. */
  ghost predicate Clearing(todo: seq<Micro>) { todo != [] && todo[0].Clear? }

  // ----- the parts of the invariant ---------------------------------------------

  ghost predicate Tables(b: Book) {
    && Distinct(b.pending)
    && Distinct(b.recent) && |b.recent| <= RECENT_SIZE
    && b.completed.Keys <= b.accepted.Keys
    && (forall id | id in b.started :: Find(b.pending, id).Some?)
  }

  /** No ticket has two holders; a pending one has exactly one, unless the running
      transport call still has it (`loose`). */
  ghost predicate Conserved(pending: seq<Ticket>, m: Mail, s: Slots, todo: seq<Micro>, loose: Option<Ticket>) {
    && (forall t :: Holders(m, s, todo, t) <= 1)
    && (Clearing(todo) || forall t | t in pending && loose != Some(t) :: Holders(m, s, todo, t) == 1)
  }

  /** Pending exactly while unresolved. */
  ghost predicate Futures(b: Book, submitted: set<Ticket>) {
    forall t | t in submitted :: t in b.pending <==> t !in b.completed
  }

  ghost predicate About(m: Micro, t: Ticket) {
    (m.Begin? || m.Touch? || m.Accept? || m.Finish? || m.Place?) && m.t == t
  }

  ghost predicate MadeBook(b: Book, submitted: set<Ticket>) {
    && (forall t | t in b.pending :: t in submitted)
    && (forall t | t in b.recent :: t in submitted)
    && b.accepted.Keys <= submitted
  }

  /** Every ticket held or named by the owner's work was made by `submit`. */
  ghost predicate MadeHeld(m: Mail, s: Slots, todo: seq<Micro>, submitted: set<Ticket>) {
    && (forall t :: Holders(m, s, todo, t) > 0 ==> t in submitted)
    && (forall a, t :: a in todo && About(a, t) ==> t in submitted)
  }

  ghost predicate MadeSeen(seen: History, next: nat) {
    && (forall t | t in seen.submitted :: t.key < next)
    && seen.begun <= seen.submitted && seen.dropped <= seen.submitted && seen.touched <= seen.submitted
  }

  /** Waiting to be claimed: in the queue, or just taken off it. */
  ghost predicate Waiting(m: Mail, todo: seq<Micro>, t: Ticket) {
    t in m.queue || Begin(t) in todo
  }

  /** A waiting ticket is pending or invalidated, not both, and not yet begun. */
  ghost predicate Waits(pending: seq<Ticket>, m: Mail, todo: seq<Micro>, begun: set<Ticket>) {
    forall t :: Waiting(m, todo, t) ==>
      (t in pending <==> t !in m.invalidated) && t !in begun && !Tracking(t.request.kind)
  }

  ghost predicate Started(b: Book, begun: set<Ticket>) {
    forall t | t in b.pending :: t.Rid() in b.started <==> t in begun
  }

  /** Claiming and invalidating exclude each other. */
  ghost predicate Exclusive(completed: map<Ticket, CommandResult>, m: Mail, seen: History) {
    && m.invalidated <= seen.dropped
    && seen.begun !! seen.dropped
    && (forall t | t in seen.dropped :: t in completed && t.origin == Local)
  }

  /** Only a claimed ticket or a tracking entry commands the runtime. */
  ghost predicate Touches(m: Mail, todo: seq<Micro>, seen: History) {
    && (forall t | t in seen.touched :: t in seen.begun || Tracking(t.request.kind))
    && (forall t :: Touch(t) in todo ==> t in seen.begun || Tracking(t.request.kind))
    && (m.point.Some? ==> Tracking(m.point.value.request.kind))
    && (m.bearing.Some? ==> Tracking(m.bearing.value.request.kind))
  }

  /** The owner claims alone, drains first, forgets last and places once. */
  ghost predicate Shaped(todo: seq<Micro>) {
    && (forall i | 0 <= i < |todo| :: todo[i].Begin? ==> |todo| == 1)
    && (forall i | 0 <= i < |todo| :: todo[i].Clear? ==> i == 0 && |todo| == 2 && todo[1] == Forget)
    && (forall i | 0 <= i < |todo| :: todo[i].Forget? ==> i == |todo| - 1)
    && (forall i, j | 0 <= i < j < |todo| :: !(todo[i].Place? && todo[j].Place?))
  }

  ghost predicate Vacant(pending: seq<Ticket>, slots: Slots, slot: Slot) {
    slots.At(slot).Some? ==> slots.At(slot).value !in pending
  }

  ghost predicate Settles(m: Micro, slot: Slot) { m.Settle? && m.slot == slot }

  /** By the time the i-th micro-action runs, the slot holds no pending ticket. */
  ghost predicate ClearedBy(pending: seq<Ticket>, slots: Slots, todo: seq<Micro>, i: nat, slot: Slot)
    requires i <= |todo|
  {
    Vacant(pending, slots, slot) || exists j | 0 <= j < i :: Settles(todo[j], slot)
  }

  /** The owner's remaining work never overwrites a slot that holds a pending ticket. */
  ghost predicate Places(pending: seq<Ticket>, slots: Slots, todo: seq<Micro>) {
    forall i | 0 <= i < |todo| :: todo[i].Place? ==> ClearedBy(pending, slots, todo, i, todo[i].into)
  }

  /** No pending ticket, nothing in the mailbox. */
  ghost predicate Empty(pending: seq<Ticket>, m: Mail) {
    pending == [] && m.queue == [] && m.point.None? && m.bearing.None?
  }

  ghost predicate Quiet(todo: seq<Micro>) {
    forall m | m in todo :: m.Settle? || m.Complete? || m.Clear? || m.Forget?
  }

  ghost predicate Down(pending: seq<Ticket>, m: Mail, slots: Slots, todo: seq<Micro>,
                       stopped: bool, fault: bool, down: bool) {
    && (fault ==> stopped)
    && (Forget in todo ==> stopped && (Clearing(todo) || Empty(pending, m)))
    && (down ==> stopped && Empty(pending, m) && slots == NoSlots && Quiet(todo))
  }

  ghost predicate Core(s: State, loose: Option<Ticket>) {
    && Tables(s.book) && |s.mail.queue| <= QUEUE_SIZE
    && Conserved(s.book.pending, s.mail, s.slots, s.todo, loose)
    && Futures(s.book, s.seen.submitted)
    && MadeBook(s.book, s.seen.submitted)
    && MadeHeld(s.mail, s.slots, s.todo, s.seen.submitted)
    && MadeSeen(s.seen, s.next)
    && Waits(s.book.pending, s.mail, s.todo, s.seen.begun)
    && Started(s.book, s.seen.begun)
    && Exclusive(s.book.completed, s.mail, s.seen)
    && Touches(s.mail, s.todo, s.seen)
    && Shaped(s.todo)
    && Places(s.book.pending, s.slots, s.todo)
  }

  ghost predicate Downed(s: State) {
    Down(s.book.pending, s.mail, s.slots, s.todo, s.stopped, s.fault, s.seen.down)
  }

  ghost predicate Inv(s: State) { Core(s, None) && Downed(s) }

  // ----- the tables -------------------------------------------------------------

  lemma RememberFacts(d: seq<Ticket>, t: Ticket)
    requires Distinct(d)
    ensures var d' := Remember(d, t);
            && Distinct(d') && |d'| <= RECENT_SIZE && t in d'
            && (forall u | u in d' :: u in d || u == t)
  {
    var w := Without(d, t.Rid()) + [t];
    assert forall i | 0 <= i < |w| - 1 :: w[i] in Without(d, t.Rid());
    assert Distinct(w);
    assert w[|w| - 1] == t;
    if |w| > RECENT_SIZE {
      var d' := w[|w| - RECENT_SIZE..];
      assert d'[|d'| - 1] == t;
      assert forall i | 0 <= i < |d'| :: d'[i] == w[i + |w| - RECENT_SIZE];
    }
  }

  lemma FindSome(d: seq<Ticket>, id: string)
    ensures Find(d, id).Some? <==> exists t :: t in d && t.Rid() == id
  {}

  lemma SameRid(d: seq<Ticket>, t: Ticket, u: Ticket)
    requires Distinct(d) && t in d && u in d && t.Rid() == u.Rid()
    ensures t == u
  {}

  /** Which tickets are pending after a finish. */
  lemma FinishPending(b: Book, t: Ticket, r: CommandResult)
    requires Distinct(b.pending)
    ensures Distinct(FinishTicket(b, t, r).pending)
    ensures forall u :: u in FinishTicket(b, t, r).pending <==> u in b.pending && u != t
  {}

  lemma FinishStarts(b: Book, t: Ticket, r: CommandResult)
    requires Tables(b)
    ensures var b' := FinishTicket(b, t, r); forall id | id in b'.started :: Find(b'.pending, id).Some?
  {}

  lemma FinishTables(b: Book, t: Ticket, r: CommandResult)
    requires Tables(b)
    ensures Tables(FinishTicket(b, t, r))
    ensures forall u | u in FinishTicket(b, t, r).recent :: u in b.recent || u == t
    ensures FinishTicket(b, t, r).accepted.Keys == b.accepted.Keys + {t}
    ensures FinishTicket(b, t, r).completed.Keys == b.completed.Keys + {t}
  {
    FinishPending(b, t, r);
    FinishStarts(b, t, r);
    RememberFacts(b.recent, t);
  }

  lemma FinishStarted(b: Book, t: Ticket, r: CommandResult, begun: set<Ticket>)
    requires Tables(b) && Started(b, begun)
    ensures Started(FinishTicket(b, t, r), begun)
  {
    FinishPending(b, t, r);
    FindIsMember(b.pending, t);
    forall u | u in FinishTicket(b, t, r).pending ensures t in b.pending ==> u.Rid() != t.Rid() {
      if t in b.pending && u.Rid() == t.Rid() { SameRid(b.pending, t, u); }
    }
  }

  lemma FewerConserved(pending: seq<Ticket>, pending': seq<Ticket>, m: Mail, s: Slots, todo: seq<Micro>,
                       loose: Option<Ticket>, loose': Option<Ticket>)
    requires Conserved(pending, m, s, todo, loose)
    requires forall u | u in pending' && loose' != Some(u) :: u in pending && loose != Some(u)
    ensures Conserved(pending', m, s, todo, loose')
  {}

  lemma FinishFutures(b: Book, t: Ticket, r: CommandResult, submitted: set<Ticket>)
    requires Tables(b) && Futures(b, submitted) && MadeBook(b, submitted)
    ensures Futures(FinishTicket(b, t, r), submitted + {t}) && MadeBook(FinishTicket(b, t, r), submitted + {t})
  {
    FinishPending(b, t, r);
    FinishTables(b, t, r);
  }

  lemma FinishWaits(b: Book, t: Ticket, r: CommandResult, m: Mail, todo: seq<Micro>, seen: History)
    requires Tables(b) && Waits(b.pending, m, todo, seen.begun) && Exclusive(b.completed, m, seen)
    requires t in b.pending ==> !Waiting(m, todo, t)
    ensures Waits(FinishTicket(b, t, r).pending, m, todo, seen.begun)
    ensures Exclusive(FinishTicket(b, t, r).completed, m, seen)
  {}

  /** Finishing a ticket that nobody is waiting to claim keeps the invariant. */
  lemma FinishKeeps(s: State, t: Ticket, r: CommandResult, loose: Option<Ticket>)
    requires Core(s, loose) && t in s.seen.submitted
    requires t in s.book.pending ==> !Waiting(s.mail, s.todo, t)
    ensures Core(s.(book := FinishTicket(s.book, t, r)), if loose == Some(t) then None else loose)
  {
    var b := FinishTicket(s.book, t, r);
    FinishTables(s.book, t, r);
    FinishPendingCore(s, t, r, loose);
    FinishFutures(s.book, t, r, s.seen.submitted);
    FinishStarted(s.book, t, r, s.seen.begun);
    FinishWaits(s.book, t, r, s.mail, s.todo, s.seen);
    assert s.seen.submitted + {t} == s.seen.submitted;
    hide Tables, Conserved, Futures, MadeBook, MadeHeld, MadeSeen, Waits, Started, Exclusive, Touches, Shaped, Places;
    hide FinishTicket;
  }

  lemma FinishPendingCore(s: State, t: Ticket, r: CommandResult, loose: Option<Ticket>)
    requires Core(s, loose)
    ensures var p := FinishTicket(s.book, t, r).pending;
            && Conserved(p, s.mail, s.slots, s.todo, if loose == Some(t) then None else loose)
            && Places(p, s.slots, s.todo)
  {}

  lemma FinishDown(s: State, t: Ticket, r: CommandResult)
    requires Downed(s)
    ensures Downed(s.(book := FinishTicket(s.book, t, r)))
  {}

  // ----- transport steps --------------------------------------------------------

  lemma MoveToEndFacts(d: seq<Ticket>, id: string)
    requires Distinct(d)
    ensures Distinct(MoveToEnd(d, id)) && |MoveToEnd(d, id)| <= |d|
    ensures forall t :: t in MoveToEnd(d, id) <==> t in d
  {}

  lemma FreshTicket(s: State, t: Ticket)
    requires MadeBook(s.book, s.seen.submitted) && MadeHeld(s.mail, s.slots, s.todo, s.seen.submitted)
    requires MadeSeen(s.seen, s.next) && s.next <= t.key
    ensures t !in s.seen.submitted && t !in s.book.pending && t !in s.book.accepted
    ensures t !in s.seen.begun && t !in s.seen.dropped
    ensures Holders(s.mail, s.slots, s.todo, t) == 0 && !Waiting(s.mail, s.todo, t)
  {}

  lemma EnterTables(b: Book, t: Ticket)
    requires Tables(b) && Find(b.pending, t.Rid()).None?
    ensures Tables(Enter(b, t))
    ensures forall u | u in Enter(b, t).recent :: u in b.recent || u == t
  {
    RememberFacts(b.recent, t);
    forall id | id in b.started ensures Find(b.pending + [t], id).Some? {
      FindSome(b.pending, id);
      FindSome(b.pending + [t], id);
      var u :| u in b.pending && u.Rid() == id;
      assert u in b.pending + [t];
    }
  }

  lemma EnterFutures(b: Book, t: Ticket, submitted: set<Ticket>, begun: set<Ticket>)
    requires Tables(b) && Futures(b, submitted) && MadeBook(b, submitted) && Started(b, begun)
    requires Find(b.pending, t.Rid()).None? && t !in b.accepted && t !in begun
    ensures Futures(Enter(b, t), submitted + {t}) && MadeBook(Enter(b, t), submitted + {t})
    ensures Started(Enter(b, t), begun)
  {}

  ghost function Seen(s: State, t: Ticket): History {
    s.seen.(submitted := s.seen.submitted + {t})
  }

  ghost function Entered(s: State, t: Ticket): State {
    s.(book := Enter(s.book, t), next := s.next + 1, seen := Seen(s, t))
  }

  lemma SeenMore(s: State, t: Ticket)
    requires MadeHeld(s.mail, s.slots, s.todo, s.seen.submitted) && MadeSeen(s.seen, s.next) && t.key == s.next
    requires Exclusive(s.book.completed, s.mail, s.seen) && Touches(s.mail, s.todo, s.seen)
    ensures MadeHeld(s.mail, s.slots, s.todo, Seen(s, t).submitted) && MadeSeen(Seen(s, t), s.next + 1)
    ensures Exclusive(s.book.completed, s.mail, Seen(s, t)) && Touches(s.mail, s.todo, Seen(s, t))
  {}

  lemma EnterPlaces(pending: seq<Ticket>, t: Ticket, m: Mail, s: Slots, todo: seq<Micro>, begun: set<Ticket>)
    requires Holders(m, s, todo, t) == 0 && !Waiting(m, todo, t)
    requires Conserved(pending, m, s, todo, None) && Places(pending, s, todo) && Waits(pending, m, todo, begun)
    ensures Conserved(pending + [t], m, s, todo, Some(t)) && Places(pending + [t], s, todo)
    ensures Waits(pending + [t], m, todo, begun)
  {}

  /** A ticket just made is in the tables and in the submitting call's hands. */
  lemma EnterKeeps(s: State, t: Ticket)
    requires Core(s, None) && t.key == s.next && Find(s.book.pending, t.Rid()).None?
    ensures Core(Entered(s, t), Some(t))
  {
    FreshTicket(s, t);
    EnterTables(s.book, t);
    EnterFutures(s.book, t, s.seen.submitted, s.seen.begun);
    SeenMore(s, t);
    EnterPlaces(s.book.pending, t, s.mail, s.slots, s.todo, s.seen.begun);
    hide Tables, Conserved, Futures, MadeBook, MadeHeld, MadeSeen, Waits, Started, Exclusive, Touches, Shaped, Places;
  }

  /** One ticket gets a holder, and perhaps another loses the one it had. */
  lemma MoveConserved(pending: seq<Ticket>, m: Mail, s: Slots, m': Mail, s': Slots, todo: seq<Micro>,
                      t: Ticket, o: Option<Ticket>)
    requires Conserved(pending, m, s, todo, Some(t)) && Holders(m, s, todo, t) == 0
    requires forall u :: Holders(m', s', todo, u) + Is(o, u) == Holders(m, s, todo, u) + Is(Some(t), u)
    ensures Conserved(pending, m', s', todo, o)
  {}

  lemma MoveMade(m: Mail, s: Slots, m': Mail, s': Slots, todo: seq<Micro>, submitted: set<Ticket>,
                 t: Ticket, o: Option<Ticket>)
    requires MadeHeld(m, s, todo, submitted) && t in submitted
    requires forall u :: Holders(m', s', todo, u) + Is(o, u) == Holders(m, s, todo, u) + Is(Some(t), u)
    ensures MadeHeld(m', s', todo, submitted)
  {}

  ghost function Replace(m: Mail, t: Ticket, point: bool): Mail {
    if point then m.(point := Some(t)) else m.(bearing := Some(t))
  }

  ghost function Replaced(m: Mail, point: bool): Option<Ticket> { if point then m.point else m.bearing }

  lemma ReplaceCounts(m: Mail, t: Ticket, point: bool, s: Slots, todo: seq<Micro>)
    ensures forall u :: Holders(Replace(m, t, point), s, todo, u) + Is(Replaced(m, point), u)
                        == Holders(m, s, todo, u) + Is(Some(t), u)
  {}

  lemma ReplaceMail(m: Mail, t: Ticket, point: bool, b: Book, todo: seq<Micro>, seen: History)
    requires Waits(b.pending, m, todo, seen.begun) && Touches(m, todo, seen) && Exclusive(b.completed, m, seen)
    requires Tracking(t.request.kind)
    ensures Waits(b.pending, Replace(m, t, point), todo, seen.begun) && Touches(Replace(m, t, point), todo, seen)
    ensures Exclusive(b.completed, Replace(m, t, point), seen)
  {}

  /** Putting the new ticket into a latest-wins slot makes the one it replaces
      the call's responsibility. */
  lemma ReplaceKeeps(s: State, t: Ticket, point: bool)
    requires Core(s, Some(t)) && Tracking(t.request.kind) && t in s.seen.submitted
    requires Holders(s.mail, s.slots, s.todo, t) == 0
    ensures Core(s.(mail := Replace(s.mail, t, point)), Replaced(s.mail, point))
  {
    var mail := Replace(s.mail, t, point);
    ReplaceCounts(s.mail, t, point, s.slots, s.todo);
    MoveConserved(s.book.pending, s.mail, s.slots, mail, s.slots, s.todo, t, Replaced(s.mail, point));
    MoveMade(s.mail, s.slots, mail, s.slots, s.todo, s.seen.submitted, t, Replaced(s.mail, point));
    ReplaceMail(s.mail, t, point, s.book, s.todo, s.seen);
    hide Tables, Conserved, Futures, MadeBook, MadeHeld, MadeSeen, Waits, Started, Exclusive, Touches, Shaped, Places;
  }

  /** What sits in a latest-wins slot was submitted and is not waiting to be claimed. */
  lemma ReplacedTicket(m: Mail, s: Slots, todo: seq<Micro>, pending: seq<Ticket>, seen: History, point: bool)
    requires MadeHeld(m, s, todo, seen.submitted) && Waits(pending, m, todo, seen.begun) && Touches(m, todo, seen)
    ensures var o := Replaced(m, point); o.Some? ==> o.value in seen.submitted && !Waiting(m, todo, o.value)
  {}

  lemma QueueCounts(m: Mail, t: Ticket, s: Slots, todo: seq<Micro>)
    ensures forall u :: Holders(m.(queue := m.queue + [t]), s, todo, u) + Is(None, u)
                        == Holders(m, s, todo, u) + Is(Some(t), u)
  {}

  lemma QueueMail(m: Mail, t: Ticket, b: Book, todo: seq<Micro>, seen: History)
    requires Waits(b.pending, m, todo, seen.begun) && Touches(m, todo, seen) && Exclusive(b.completed, m, seen)
    requires t in b.pending && t !in m.invalidated && t !in seen.begun && !Tracking(t.request.kind)
    ensures var m' := m.(queue := m.queue + [t]);
            Waits(b.pending, m', todo, seen.begun) && Touches(m', todo, seen) && Exclusive(b.completed, m', seen)
  {}

  lemma QueueKeeps(s: State, t: Ticket)
    requires Core(s, Some(t)) && !Tracking(t.request.kind) && t in s.seen.submitted
    requires Holders(s.mail, s.slots, s.todo, t) == 0
    requires t in s.book.pending && t !in s.seen.begun && t !in s.mail.invalidated
    requires |s.mail.queue| < QUEUE_SIZE
    ensures Core(s.(mail := s.mail.(queue := s.mail.queue + [t])), None)
  {
    var mail := s.mail.(queue := s.mail.queue + [t]);
    QueueCounts(s.mail, t, s.slots, s.todo);
    MoveConserved(s.book.pending, s.mail, s.slots, mail, s.slots, s.todo, t, None);
    MoveMade(s.mail, s.slots, mail, s.slots, s.todo, s.seen.submitted, t, None);
    QueueMail(s.mail, t, s.book, s.todo, s.seen);
    hide Tables, Conserved, Futures, MadeBook, MadeHeld, MadeSeen, Waits, Started, Exclusive, Touches, Shaped, Places;
  }

  lemma SubmitNewKeeps(s: State, request: Request, origin: Origin)
    requires Core(s, None) && Cached(s.book, request.id).None?
    ensures Core(SubmitState(s, request, origin), None)
  {
    var t := NewTicket(s, request, origin);
    var e := Entered(s, t);
    FreshTicket(s, t);
    EnterKeeps(s, t);
    assert t !in s.mail.invalidated;
    hide Core;
    if s.fault || s.stopped {
      FinishKeeps(e, t, CommandResult(Failed, if s.fault then Faulted else StoppedCode), Some(t));
    } else if Tracking(request.kind) {
      var point := request.kind == TrackPoint;
      ReplaceKeeps(e, t, point);
      SubmitTracking(s, e, t, point);
    } else if |s.mail.queue| < QUEUE_SIZE {
      QueueKeeps(e, t);
    } else {
      FinishKeeps(e, t, CommandResult(Failed, QueueFull), Some(t));
    }
  }

  lemma SubmitTracking(s: State, e: State, t: Ticket, point: bool)
    requires Core(s, None) && e == Entered(s, t) && Tracking(t.request.kind)
    requires Core(e.(mail := Replace(s.mail, t, point)), Replaced(s.mail, point))
    ensures Core(e.(mail := Replace(s.mail, t, point),
                    book := FinishOption(e.book, Replaced(s.mail, point), CommandResult(Cancelled, Superseded))),
                 None)
  {
    ReplacedTicket(s.mail, s.slots, s.todo, s.book.pending, s.seen, point);
    var o := Replaced(s.mail, point);
    hide Core;
    if o.Some? {
      FinishKeeps(e.(mail := Replace(s.mail, t, point)), o.value, CommandResult(Cancelled, Superseded), o);
    }
  }

  lemma SubmitNewDown(s: State, request: Request, origin: Origin)
    requires Inv(s) && Cached(s.book, request.id).None?
    ensures Downed(SubmitState(s, request, origin))
  {}

  ghost function Collided(s: State, t: Ticket, r: CommandResult): State {
    s.(book := FinishTicket(s.book, t, r), next := s.next + 1, seen := Seen(s, t))
  }

  lemma CollisionKeeps(s: State, t: Ticket, r: CommandResult)
    requires Core(s, None) && t.key == s.next
    ensures Core(Collided(s, t, r), None)
  {}

  lemma RecentKeeps(s: State, recent: seq<Ticket>)
    requires Core(s, None) && Distinct(recent) && |recent| <= RECENT_SIZE
    requires forall t | t in recent :: t in s.book.recent
    ensures Core(s.(book := s.book.(recent := recent)), None)
  {}

  lemma SubmitKeeps(s: State, request: Request, origin: Origin)
    requires Inv(s)
    ensures Inv(SubmitState(s, request, origin))
  {
    match Cached(s.book, request.id)
    case None =>
      SubmitNewKeeps(s, request, origin);
      SubmitNewDown(s, request, origin);
    case Some(known) =>
      if known.origin == origin {
        MoveToEndFacts(s.book.recent, request.id);
        RecentKeeps(s, MoveToEnd(s.book.recent, request.id));
      } else {
        var r := CommandResult(Failed, RequestIdCollision);
        CollisionKeeps(s, NewTicket(s, request, origin), r);
        FinishDown(s, NewTicket(s, request, origin), r);
      }
      hide Core, Down;
  }

  lemma InvalidateClaims(b: Book, m: Mail, t: Ticket, todo: seq<Micro>, seen: History, r: CommandResult)
    requires Tables(b) && CanInvalidate(b, t) && Started(b, seen.begun)
    requires Waits(b.pending, m, todo, seen.begun) && Exclusive(b.completed, m, seen) && Touches(m, todo, seen)
    ensures var m' := m.(invalidated := m.invalidated + {t});
            var seen' := seen.(dropped := seen.dropped + {t});
            && Waits(FinishTicket(b, t, r).pending, m', todo, seen'.begun)
            && Exclusive(FinishTicket(b, t, r).completed, m', seen') && Touches(m', todo, seen')
  {
    FindIsMember(b.pending, t);
    FinishPending(b, t, r);
  }

  lemma InvalidateKeeps(s: State, t: Ticket)
    requires Core(s, None)
    ensures Core(InvalidateState(s, t), None)
  {
    if CanInvalidate(s.book, t) {
      var r := CommandResult(Cancelled, LocalDisconnected);
      FindIsMember(s.book.pending, t);
      FinishTables(s.book, t, r);
      FinishPendingCore(s, t, r, None);
      FinishFutures(s.book, t, r, s.seen.submitted);
      FinishStarted(s.book, t, r, s.seen.begun);
      InvalidateClaims(s.book, s.mail, t, s.todo, s.seen, r);
      InvalidateHeld(s, t);
      assert s.seen.submitted + {t} == s.seen.submitted;
      hide Tables, Conserved, Futures, MadeBook, MadeHeld, MadeSeen, Waits, Started, Exclusive, Touches, Shaped, Places;
      hide FinishTicket;
    }
  }

  /** Which tickets are invalidated does not matter to where tickets are. */
  lemma InvalidateHeld(s: State, t: Ticket)
    requires MadeSeen(s.seen, s.next) && t in s.seen.submitted
    ensures MadeSeen(s.seen.(dropped := s.seen.dropped + {t}), s.next)
    ensures var m' := s.mail.(invalidated := s.mail.invalidated + {t});
            && (forall p, o :: Conserved(p, s.mail, s.slots, s.todo, o) ==> Conserved(p, m', s.slots, s.todo, o))
            && (forall x :: MadeHeld(s.mail, s.slots, s.todo, x) ==> MadeHeld(m', s.slots, s.todo, x))
  {
    var m' := s.mail.(invalidated := s.mail.invalidated + {t});
    assert forall u :: Holders(m', s.slots, s.todo, u) == Holders(s.mail, s.slots, s.todo, u);
  }

  // ----- owner steps ------------------------------------------------------------

  lemma {:induction false} InHandCounted(todo: seq<Micro>, m: Micro, t: Ticket)
    requires m in todo
    ensures Is(InHand(m), t) <= Hand(todo, t)
  {
    if todo[0] != m { InHandCounted(todo[1..], m, t); }
  }

  lemma WaitingHeld(m: Mail, s: Slots, todo: seq<Micro>, t: Ticket)
    requires Waiting(m, todo, t)
    ensures multiset(m.queue)[t] + Hand(todo, t) >= 1
  {}

  /** A ticket in one of the active slots is not waiting to be claimed. */
  lemma SlotTicket(pending: seq<Ticket>, m: Mail, s: Slots, todo: seq<Micro>, slot: Slot, submitted: set<Ticket>)
    requires Conserved(pending, m, s, todo, None) && MadeHeld(m, s, todo, submitted) && s.At(slot).Some?
    ensures s.At(slot).value in submitted && !Waiting(m, todo, s.At(slot).value)
  {
    var t := s.At(slot).value;
    assert InSlots(s, t) >= 1;
    assert Holders(m, s, todo, t) <= 1;
    if Waiting(m, todo, t) { WaitingHeld(m, s, todo, t); }
  }

  lemma FinishSlotKeeps(s: State, slot: Slot, r: CommandResult)
    requires Inv(s)
    ensures Inv(s.(book := FinishOption(s.book, s.slots.At(slot), r)))
    ensures Vacant(FinishOption(s.book, s.slots.At(slot), r).pending, s.slots, slot)
  {
    if s.slots.At(slot).Some? {
      var t := s.slots.At(slot).value;
      SlotTicket(s.book.pending, s.mail, s.slots, s.todo, slot, s.seen.submitted);
      FinishPending(s.book, t, r);
      FinishKeeps(s, t, r, None);
      FinishDown(s, t, r);
      hide Core, Down;
    }
  }

  lemma VacateCounts(s: Slots, slot: Slot)
    ensures forall u :: InSlots(s.With(slot, None), u) + Is(s.At(slot), u) == InSlots(s, u)
  {}

  lemma VacateConserved(pending: seq<Ticket>, m: Mail, s: Slots, todo: seq<Micro>, slot: Slot, submitted: set<Ticket>)
    requires Conserved(pending, m, s, todo, None) && MadeHeld(m, s, todo, submitted) && Places(pending, s, todo)
    requires Vacant(pending, s, slot)
    ensures var s' := s.With(slot, None);
            Conserved(pending, m, s', todo, None) && MadeHeld(m, s', todo, submitted) && Places(pending, s', todo)
  {
    var s' := s.With(slot, None);
    VacateCounts(s, slot);
    forall u ensures Holders(m, s', todo, u) <= Holders(m, s, todo, u) {}
    forall i | 0 <= i < |todo| && todo[i].Place? ensures ClearedBy(pending, s', todo, i, todo[i].into) {
      assert ClearedBy(pending, s, todo, i, todo[i].into);
    }
  }

  /** A slot without a pending ticket may be emptied. */
  lemma VacateKeeps(s: State, slot: Slot)
    requires Inv(s) && Vacant(s.book.pending, s.slots, slot)
    ensures Inv(s.(slots := s.slots.With(slot, None)))
  {
    VacateConserved(s.book.pending, s.mail, s.slots, s.todo, slot, s.seen.submitted);
    assert s.slots == NoSlots ==> s.slots.With(slot, None) == NoSlots;
    hide Tables, Conserved, Futures, MadeBook, MadeHeld, MadeSeen, Waits, Started, Exclusive, Touches, Shaped, Places;
  }

  lemma PopPlaces(pending: seq<Ticket>, slots: Slots, todo: seq<Micro>)
    requires todo != [] && Places(pending, slots, todo)
    requires todo[0].Settle? ==> slots.At(todo[0].slot).None?
    ensures Places(pending, slots, todo[1..])
  {}

  lemma PopShaped(todo: seq<Micro>)
    requires todo != [] && Shaped(todo)
    ensures Shaped(todo[1..]) && !Clearing(todo[1..])
    ensures forall m | m in todo[1..] :: !m.Begin?
    ensures todo[0].Forget? ==> todo[1..] == []
    ensures todo[0].Clear? ==> todo[1..] == [Forget]
    ensures todo[0].Place? ==> forall m | m in todo[1..] :: !m.Place?
  {}

  lemma PopConserved(pending: seq<Ticket>, m: Mail, s: Slots, todo: seq<Micro>, submitted: set<Ticket>)
    requires todo != [] && !Clearing(todo)
    requires Conserved(pending, m, s, todo, None) && MadeHeld(m, s, todo, submitted)
    ensures Conserved(pending, m, s, todo[1..], InHand(todo[0]))
    ensures MadeHeld(m, s, todo[1..], submitted)
    ensures InHand(todo[0]).Some? ==> Holders(m, s, todo[1..], InHand(todo[0]).value) == 0
                                      && InHand(todo[0]).value in submitted
  {
    forall u ensures Holders(m, s, todo, u) == Is(InHand(todo[0]), u) + Holders(m, s, todo[1..], u)
                     && Holders(m, s, todo, u) <= 1 {}
    assert forall a | a in todo[1..] :: a in todo;
  }

  lemma PopWaits(pending: seq<Ticket>, m: Mail, todo: seq<Micro>, seen: History)
    requires todo != [] && Waits(pending, m, todo, seen.begun) && Touches(m, todo, seen)
    ensures Waits(pending, m, todo[1..], seen.begun) && Touches(m, todo[1..], seen)
  {}

  lemma PopDown(s: State)
    requires Downed(s) && s.todo != [] && !Clearing(s.todo)
    ensures Downed(s.(todo := s.todo[1..]))
  {}

  /** Dropping the first micro-action, once done, from the owner's work. */
  lemma PopKeeps(s: State)
    requires Inv(s) && s.todo != [] && !Clearing(s.todo)
    requires s.todo[0].Settle? ==> s.slots.At(s.todo[0].slot).None?
    ensures Core(s.(todo := s.todo[1..]), InHand(s.todo[0])) && Downed(s.(todo := s.todo[1..]))
  {
    PopDown(s);
    PopPlaces(s.book.pending, s.slots, s.todo);
    PopShaped(s.todo);
    PopConserved(s.book.pending, s.mail, s.slots, s.todo, s.seen.submitted);
    PopWaits(s.book.pending, s.mail, s.todo, s.seen);
    hide Tables, Conserved, Futures, MadeBook, MadeHeld, MadeSeen, Waits, Started, Exclusive, Touches, Shaped, Places;
    hide Down;
  }

  lemma SettleKeeps(s: State, slot: Slot, r: CommandResult)
    requires Inv(s) && s.todo != [] && s.todo[0] == Settle(slot, r)
    ensures Inv(Do(s.(todo := s.todo[1..]), s.todo[0]))
  {
    hide Core, Down;
    FinishSlotKeeps(s, slot, r);
    var s1 := s.(book := FinishOption(s.book, s.slots.At(slot), r));
    VacateKeeps(s1, slot);
    PopKeeps(s1.(slots := s.slots.With(slot, None)));
  }

  lemma CompleteKeeps(s: State, slot: Slot, r: CommandResult)
    requires Inv(s) && s.todo != [] && s.todo[0] == Complete(slot, r)
    ensures Inv(Do(s.(todo := s.todo[1..]), s.todo[0]))
  {
    hide Core, Down;
    FinishSlotKeeps(s, slot, r);
    PopKeeps(s.(book := FinishOption(s.book, s.slots.At(slot), r)));
  }

  lemma HandTicket(s: State, t: Ticket)
    requires Inv(s) && s.todo != [] && InHand(s.todo[0]) == Some(t)
    ensures t in s.seen.submitted && !Waiting(s.mail, s.todo[1..], t)
    ensures Holders(s.mail, s.slots, s.todo[1..], t) == 0
  {}

  lemma FinishStepKeeps(s: State, t: Ticket, r: CommandResult)
    requires Inv(s) && s.todo != [] && s.todo[0] == Finish(t, r)
    ensures Inv(Do(s.(todo := s.todo[1..]), s.todo[0]))
  {
    hide Core, Down;
    HandTicket(s, t);
    PopKeeps(s);
    FinishKeeps(s.(todo := s.todo[1..]), t, r, Some(t));
    FinishDown(s.(todo := s.todo[1..]), t, r);
  }

  lemma AcceptedKeeps(s: State, t: Ticket)
    requires Inv(s) && t in s.seen.submitted
    ensures Inv(Do(s, Accept(t)))
  {}

  lemma TouchedKeeps(s: State, t: Ticket)
    requires Inv(s) && t in s.seen.submitted && (t in s.seen.begun || Tracking(t.request.kind))
    ensures Inv(Do(s, Touch(t)))
  {
    var seen := s.seen.(touched := s.seen.touched + {t});
    assert MadeSeen(seen, s.next) && Exclusive(s.book.completed, s.mail, seen) && Touches(s.mail, s.todo, seen);
    hide Tables, Conserved, Futures, MadeBook, MadeHeld, MadeSeen, Waits, Started, Exclusive, Touches, Shaped, Places;
  }

  lemma NamedTicket(s: State, t: Ticket)
    requires Inv(s) && s.todo != [] && About(s.todo[0], t)
    ensures t in s.seen.submitted
    ensures s.todo[0].Touch? ==> t in s.seen.begun || Tracking(t.request.kind)
  {}

  lemma AcceptStepKeeps(s: State, t: Ticket)
    requires Inv(s) && s.todo != [] && s.todo[0] == Accept(t)
    ensures Inv(Do(s.(todo := s.todo[1..]), s.todo[0]))
  {
    hide Core, Down;
    NamedTicket(s, t);
    PopKeeps(s);
    AcceptedKeeps(s.(todo := s.todo[1..]), t);
  }

  lemma TouchStepKeeps(s: State, t: Ticket)
    requires Inv(s) && s.todo != [] && s.todo[0] == Touch(t)
    ensures Inv(Do(s.(todo := s.todo[1..]), s.todo[0]))
  {
    hide Core, Down;
    NamedTicket(s, t);
    PopKeeps(s);
    TouchedKeeps(s.(todo := s.todo[1..]), t);
  }

  lemma FillCounts(m: Mail, s: Slots, todo: seq<Micro>, slot: Slot, t: Ticket)
    ensures forall u :: Holders(m, s.With(slot, Some(t)), todo, u) + Is(s.At(slot), u)
                        == Holders(m, s, todo, u) + Is(Some(t), u)
  {}

  lemma FillKeeps(s: State, slot: Slot, t: Ticket)
    requires Core(s, Some(t)) && Downed(s) && !s.seen.down
    requires Holders(s.mail, s.slots, s.todo, t) == 0 && t in s.seen.submitted
    requires Vacant(s.book.pending, s.slots, slot) && forall m | m in s.todo :: !m.Place?
    ensures Inv(s.(slots := s.slots.With(slot, Some(t))))
  {
    var slots := s.slots.With(slot, Some(t));
    FillCounts(s.mail, s.slots, s.todo, slot, t);
    MoveConserved(s.book.pending, s.mail, s.slots, s.mail, slots, s.todo, t, s.slots.At(slot));
    FewerConserved(s.book.pending, s.book.pending, s.mail, slots, s.todo, s.slots.At(slot), None);
    MoveMade(s.mail, s.slots, s.mail, slots, s.todo, s.seen.submitted, t, s.slots.At(slot));
    assert Places(s.book.pending, slots, s.todo);
    hide Tables, Conserved, Futures, MadeBook, MadeHeld, MadeSeen, Waits, Started, Exclusive, Touches, Shaped, Places;
  }

  lemma PlacedSlot(s: State, slot: Slot, t: Ticket)
    requires Inv(s) && s.todo != [] && s.todo[0] == Place(slot, t)
    ensures Vacant(s.book.pending, s.slots, slot) && !s.seen.down
    ensures forall m | m in s.todo[1..] :: !m.Place?
  {}

  lemma PlaceStepKeeps(s: State, slot: Slot, t: Ticket)
    requires Inv(s) && s.todo != [] && s.todo[0] == Place(slot, t)
    ensures Inv(Do(s.(todo := s.todo[1..]), s.todo[0]))
  {
    hide Core, Down;
    HandTicket(s, t);
    PlacedSlot(s, slot, t);
    PopKeeps(s);
    FillKeeps(s.(todo := s.todo[1..]), slot, t);
  }

  lemma ForgetStepKeeps(s: State)
    requires Inv(s) && s.todo != [] && s.todo[0] == Forget
    ensures Inv(Do(s.(todo := s.todo[1..]), s.todo[0]))
  {
    PopShaped(s.todo);
    PopKeeps(s);
    var s1 := s.(todo := s.todo[1..]);
    assert s.todo[0] in s.todo;
    assert Empty(s.book.pending, s.mail) && s1.todo == [];
    assert Conserved(s.book.pending, s.mail, NoSlots, [], None);
    assert MadeHeld(s.mail, NoSlots, [], s.seen.submitted) && Places(s.book.pending, NoSlots, []);
    ForgottenSeen(s1);
    hide Tables, Conserved, Futures, MadeBook, MadeHeld, MadeSeen, Waits, Started, Exclusive, Touches, Shaped, Places;
  }

  lemma ForgottenSeen(s: State)
    requires MadeSeen(s.seen, s.next) && Exclusive(s.book.completed, s.mail, s.seen) && Touches(s.mail, s.todo, s.seen)
    ensures var seen := s.seen.(down := true);
            MadeSeen(seen, s.next) && Exclusive(s.book.completed, s.mail, seen) && Touches(s.mail, s.todo, seen)
  {}

  // ----- draining the mailbox ---------------------------------------------------

  lemma {:induction false} FinishAllTables(b: Book, r: CommandResult)
    requires Tables(b)
    ensures Tables(FinishAll(b, r)) && FinishAll(b, r).pending == []
    ensures forall u | u in FinishAll(b, r).recent :: u in b.recent || u in b.pending
    decreases |b.pending|
  {
    if b.pending != [] {
      var t := b.pending[0];
      FoundFirst(b.pending);
      FinishPending(b, t, r);
      FinishTables(b, t, r);
      FinishAllTables(FinishTicket(b, t, r), r);
    }
  }

  lemma {:induction false} FinishAllFutures(b: Book, r: CommandResult)
    requires Tables(b)
    ensures forall u :: u in FinishAll(b, r).accepted <==> u in b.accepted || u in b.pending
    ensures forall u :: u in FinishAll(b, r).completed <==> u in b.completed || u in b.pending
    decreases |b.pending|
  {
    if b.pending != [] {
      var t := b.pending[0];
      FoundFirst(b.pending);
      FinishPending(b, t, r);
      FinishTables(b, t, r);
      FinishAllFutures(FinishTicket(b, t, r), r);
    }
  }

  lemma ClearedBook(b: Book, m: Mail, r: CommandResult, seen: History)
    requires Tables(b) && Futures(b, seen.submitted) && MadeBook(b, seen.submitted)
    requires Exclusive(b.completed, m, seen)
    ensures var b' := FinishAll(b, r);
            && Tables(b') && b'.pending == []
            && Futures(b', seen.submitted) && MadeBook(b', seen.submitted) && Started(b', seen.begun)
            && Exclusive(b'.completed, ClearMail(m), seen)
  {
    FinishAllTables(b, r);
    FinishAllFutures(b, r);
  }

  /** Work on the slots only, and a final `Forget` when stopped. */
  ghost predicate SlotWork(todo: seq<Micro>, stopped: bool) {
    && Shaped(todo)
    && forall m | m in todo :: m.Settle? || (m == Forget && stopped)
  }

  lemma {:induction false} NoHand(todo: seq<Micro>, t: Ticket)
    requires forall m | m in todo :: InHand(m).None?
    ensures Hand(todo, t) == 0
  {
    if todo != [] {
      assert todo[0] in todo;
      assert forall m | m in todo[1..] :: m in todo;
      NoHand(todo[1..], t);
    }
  }

  lemma ClearedHeld(m: Mail, slots: Slots, todo: seq<Micro>, todo': seq<Micro>, pending: seq<Ticket>, seen: History)
    requires Conserved(pending, m, slots, todo, None) && MadeHeld(m, slots, todo, seen.submitted)
    requires Touches(m, todo, seen)
    requires forall a | a in todo' :: a.Settle? || a.Forget?
    ensures var m' := ClearMail(m);
            && Conserved([], m', slots, todo', None) && MadeHeld(m', slots, todo', seen.submitted)
            && Waits([], m', todo', seen.begun) && Touches(m', todo', seen)
            && Places([], slots, todo') && !Clearing(todo')
  {
    var m' := ClearMail(m);
    forall u ensures Holders(m', slots, todo', u) <= Holders(m, slots, todo, u) { NoHand(todo', u); }
    assert forall i | 0 <= i < |todo'| :: todo'[i] in todo';
    assert forall t :: Touch(t) !in todo' && Begin(t) !in todo';
  }

  ghost function Cleared(s: State, r: CommandResult, todo: seq<Micro>): State {
    s.(mail := ClearMail(s.mail), book := FinishAll(s.book, r), todo := todo)
  }

  /** Draining the mailbox, with only slot work left to do. */
  lemma ClearKeeps(s: State, r: CommandResult, todo: seq<Micro>)
    requires Inv(s) && SlotWork(todo, s.stopped)
    ensures Inv(Cleared(s, r, todo))
  {
    ClearedBook(s.book, s.mail, r, s.seen);
    ClearedHeld(s.mail, s.slots, s.todo, todo, s.book.pending, s.seen);
    hide Tables, Conserved, Futures, MadeBook, MadeHeld, MadeSeen, Waits, Started, Exclusive, Touches, Shaped, Places;
  }

  lemma ClearStepKeeps(s: State, r: CommandResult)
    requires Inv(s) && s.todo != [] && s.todo[0] == Clear(r)
    ensures Inv(Do(s.(todo := s.todo[1..]), s.todo[0]))
  {
    PopShaped(s.todo);
    assert s.todo[1] in s.todo;
    assert SlotWork([Forget], s.stopped);
    hide Core, Down;
    ClearKeeps(s, r, [Forget]);
  }
}

/** The yaw anchor and its coordinator: acquiring, settling, timing out, returning. */
module Orientation {
  import opened Options
  import opened RealMath

  datatype Config = Config(
    center: real, margin: real, deadband: real, settleError: real, settleVelocity: real,
    settleDuration: real, acquireTimeout: real, disconnectHold: real)

  const SLACK: real := 0.000000000001

  datatype Range = Range(low: real, high: real)

  /** What the constructors check. */
  predicate Accepted(c: Config, r: Range) {
    && c.deadband > 0.0 && c.settleError > 0.0 && c.settleVelocity > 0.0
    && c.settleDuration > 0.0 && c.acquireTimeout > 0.0 && c.disconnectHold > 0.0
    && r.low < r.high && r.low <= c.center <= r.high
  }

  /** The safe range of a yaw joint, or nothing if the constructor raises. */
  function SafeRange(c: Config, lo: real, hi: real): Option<Range> {
    var r := Range(lo + c.margin, hi - c.margin);
    if c.margin < 0.0 || lo >= hi || !Accepted(c, r) then None else Some(r)
  }

  datatype Phase = Idle | Orienting | Aligned | TimedOut | Returning | Centered

  /** The fields of the coordinator and of its layer. */
  datatype Status = Status(
    phase: Phase, speech: Option<string>, target: Option<real>, current: real, clamped: bool,
    startedAt: Option<real>, settleSince: Option<real>, disconnectedAt: Option<real>,
    anchor: Option<real>)

  datatype Event =
    | Acquire(speech: string, yaw: real, now: real, current: real, lightBusy: bool, velocity: real)
    | Release
    | ReturnCenter(now: real, current: real, motionBusy: bool)
    | Observe(now: real, current: real, velocity: real)
    | Disconnected(now: real)

  function Initial(c: Config): Status {
    Status(Idle, None, None, c.center, false, None, None, None, None)
  }

  /** What Python's `str.strip` takes away. */
  predicate Whitespace(c: char) {
    || '\U{0009}' <= c <= '\U{000D}' || '\U{001C}' <= c <= '\U{0020}' || c == '\U{0085}' || c == '\U{00A0}'
    || c == '\U{1680}' || '\U{2000}' <= c <= '\U{200A}' || c == '\U{2028}' || c == '\U{2029}'
    || c == '\U{202F}' || c == '\U{205F}' || c == '\U{3000}'
  }

  predicate Blank(s: string) { forall i :: 0 <= i < |s| ==> Whitespace(s[i]) }

  // ----- the operations -----------------------------------------------------------

  /** Whether an event starts a new command: the only moments at which a target changes. */
  predicate Commands(s: Status, e: Event, c: Config) {
    match e
    case Acquire(speech, _, _, _, busy, _) => !Blank(speech) && s.speech != Some(speech) && !busy
    case Release => true
    case ReturnCenter(_, _, busy) => !busy
    case Observe(now, _, _) => HoldOver(s, now, c)
    case Disconnected(_) => false
  }

  /** The client has been gone for so long that the lamp turns back. */
  predicate HoldOver(s: Status, now: real, c: Config) {
    && (s.phase == Orienting || s.phase == Aligned || s.phase == TimedOut)
    && s.disconnectedAt.Some? && now - s.disconnectedAt.value >= c.disconnectHold
  }

  function AcquireTarget(yaw: real, current: real, c: Config, r: Range): real {
    var wanted := Clip(yaw, r.low, r.high);
    if Abs(current - wanted) <= c.deadband then Clip(current, r.low, r.high) else wanted
  }

  function Acquired(speech: string, yaw: real, now: real, current: real, velocity: real,
      c: Config, r: Range): Status
  {
    var wanted := Clip(yaw, r.low, r.high);
    var inside := Abs(current - wanted) <= c.deadband;
    var safe := r.low <= current <= r.high;
    var target := AcquireTarget(yaw, current, c, r);
    Status(if inside && safe && Abs(velocity) <= SLACK then Aligned else Orienting,
           Some(speech), Some(target), current, wanted != yaw || (inside && !safe),
           Some(now), None, None, Some(Clip(target, r.low, r.high)))
  }

  function Released(s: Status): Status {
    Status(Idle, None, None, s.current, false, None, None, None, None)
  }

  function Returned(s: Status, now: real, current: real, c: Config, r: Range): Status {
    s.(phase := Returning, target := Some(c.center), current := current, clamped := false,
       startedAt := Some(now), settleSince := None, disconnectedAt := None,
       anchor := Some(Clip(c.center, r.low, r.high)))
  }

  predicate Settled(current: real, velocity: real, target: real, c: Config) {
    Abs(current - target) <= c.settleError && Abs(velocity) <= c.settleVelocity
  }

  /** An observation while orienting or returning. */
  function Watched(s: Status, now: real, current: real, velocity: real, c: Config): Status
    requires s.target.Some?
  {
    var settled := Settled(current, velocity, s.target.value, c);
    var since := if !settled then None else if s.settleSince.None? then Some(now) else s.settleSince;
    var done := settled && now - since.value >= c.settleDuration - SLACK;
    var phase := if !done then s.phase else if s.phase == Orienting then Aligned else Centered;
    var late := phase == Orienting && s.startedAt.Some? && now - s.startedAt.value >= c.acquireTimeout;
    s.(current := current, settleSince := since, phase := if late then TimedOut else phase)
  }

  function Observed(s: Status, now: real, current: real, velocity: real, c: Config, r: Range): Status {
    if HoldOver(s, now, c) then Returned(s, now, current, c, r)
    else if s.phase != Orienting && s.phase != Returning then s.(current := current)
    else if s.target.None? then s.(current := current)
    else Watched(s, now, current, velocity, c)
  }

  function Next(s: Status, e: Event, c: Config, r: Range): Status {
    match e
    case Acquire(speech, yaw, now, current, busy, velocity) =>
      if Blank(speech) || s.speech == Some(speech) then s
      else if busy then s.(current := current)
      else Acquired(speech, yaw, now, current, velocity, c, r)
    case Release => Released(s)
    case ReturnCenter(now, current, busy) => if busy then s else Returned(s, now, current, c, r)
    case Observe(now, current, velocity) => Observed(s, now, current, velocity, c, r)
    case Disconnected(now) => s.(disconnectedAt := Some(now))
  }

  function After(h: seq<Event>, c: Config, r: Range): Status {
    if h == [] then Initial(c) else Next(After(h[..|h| - 1], c, r), h[|h| - 1], c, r)
  }

  // ----- the target ---------------------------------------------------------------

  /** A target exists exactly outside idle, is the layer's own, and is in the safe range;
      a phase that waits for something remembers when it began. */
  predicate Sane(s: Status, r: Range) {
    && (s.target.None? <==> s.phase == Idle)
    && s.anchor == s.target
    && (s.target.Some? ==> r.low <= s.target.value <= r.high)
    && (s.phase != Idle ==> s.startedAt.Some?)
  }

  lemma {:induction false} EveryTargetIsSafe(h: seq<Event>, c: Config, r: Range)
    requires Accepted(c, r)
    ensures Sane(After(h, c, r), r)
  {
    if h != [] { EveryTargetIsSafe(h[..|h| - 1], c, r); }
  }

  // ----- where a command turns the lamp -------------------------------------------

  predicate Inside(x: real, r: Range) { r.low <= x <= r.high }

  /** The point of the range closest to a yaw. */
  ghost predicate Nearest(w: real, x: real, r: Range) {
    Inside(w, r) && forall y: real | Inside(y, r) :: Abs(w - x) <= Abs(y - x)
  }

  lemma NearestIs(w: real, x: real, r: Range)
    requires r.low <= r.high
    ensures Nearest(w, x, r) <==> w == Clip(x, r.low, r.high)
  {
    var z := Clip(x, r.low, r.high);
    assert Inside(z, r);
    if Nearest(w, x, r) { assert Abs(w - x) <= Abs(z - x); }
  }

  /** An accepted request turns the lamp to the safe yaw nearest the one asked for, or, if it
      stands within the deadband of that already, keeps it where it is, at the safe yaw
      nearest that. */
  lemma AcquireTurns(s: Status, speech: string, yaw: real, now: real, current: real, velocity: real,
                     c: Config, r: Range, w: real, p: real)
    requires Accepted(c, r) && !Blank(speech) && s.speech != Some(speech)
    requires Nearest(w, yaw, r) && Nearest(p, current, r)
    ensures var s' := Next(s, Acquire(speech, yaw, now, current, false, velocity), c, r);
            var near := Abs(current - w) <= c.deadband;
            && s'.target == s'.anchor == Some(if near then p else w)
            && (s'.clamped <==> !Inside(yaw, r) || (near && !Inside(current, r)))
            && s'.phase == (if near && Inside(current, r) && Abs(velocity) <= SLACK then Aligned else Orienting)
            && s'.speech == Some(speech) && s'.current == current
            && s'.startedAt == Some(now) && s'.settleSince.None? && s'.disconnectedAt.None?
  {
    NearestIs(w, yaw, r);
    NearestIs(p, current, r);
    hide Nearest, Blank;
  }

  /** A blank or repeated request changes nothing, one during a task light only the yaw. */
  lemma AcquireRefused(s: Status, e: Event, c: Config, r: Range)
    requires e.Acquire? && !Commands(s, e, c)
    ensures Next(s, e, c, r) == s || (e.lightBusy && Next(s, e, c, r) == s.(current := e.current))
    ensures Blank(e.speech) || s.speech == Some(e.speech) ==> Next(s, e, c, r) == s
  {
    hide Blank;
  }

  /** The way back leads to the center itself, unless motion is busy. */
  lemma ReturnTurns(s: Status, now: real, current: real, busy: bool, c: Config, r: Range)
    requires Accepted(c, r)
    ensures var s' := Next(s, ReturnCenter(now, current, busy), c, r);
            if busy then s' == s
            else
              && s'.target == s'.anchor == Some(c.center) && s'.phase == Returning && !s'.clamped
              && s'.current == current && s'.speech == s.speech
              && s'.startedAt == Some(now) && s'.settleSince.None? && s'.disconnectedAt.None?
  {}

  /** An observation turns the lamp only if its client has been gone for the hold time since
      it was last heard of, and then back to the center; otherwise target and anchor stay. */
  lemma ObserveTurns(s: Status, now: real, current: real, velocity: real, c: Config, r: Range)
    requires Accepted(c, r)
    ensures var s' := Next(s, Observe(now, current, velocity), c, r);
            var gone := s.disconnectedAt.Some? && now - s.disconnectedAt.value >= c.disconnectHold
                        && (s.phase == Orienting || s.phase == Aligned || s.phase == TimedOut);
            && s'.current == current
            && (if gone then s' == Next(s, ReturnCenter(now, current, false), c, r)
                else s'.target == s.target && s'.anchor == s.anchor && s'.clamped == s.clamped
                     && s'.speech == s.speech && s'.startedAt == s.startedAt && s'.disconnectedAt == s.disconnectedAt)
  {}

  // ----- settling -----------------------------------------------------------------

  /** Where the present unbroken settled window began. */
  function WindowStart(h: seq<Event>, c: Config, r: Range): nat {
    if h == [] then 0
    else
      var n := |h| - 1;
      var before, s := After(h[..n], c, r), After(h, c, r);
      if h[n].Observe? && s.settleSince != before.settleSince then n else WindowStart(h[..n], c, r)
  }

  /** Event `k` of a history neither commands nor shows the lamp unsettled. */
  predicate Quiet(h: seq<Event>, k: nat, target: real, c: Config, r: Range)
    requires k < |h|
  {
    && !Commands(After(h[..k], c, r), h[k], c)
    && After(h[..k], c, r).target == Some(target)
    && (h[k].Observe? ==> Settled(h[k].current, h[k].velocity, target, c))
  }

  /** The window: it began with an observation at `since`, and was quiet from then on. */
  predicate Unbroken(h: seq<Event>, start: nat, since: real, target: real, c: Config, r: Range) {
    && start < |h| && h[start].Observe? && h[start].now == since
    && forall k :: start <= k < |h| ==> Quiet(h, k, target, c, r)
  }

  predicate Watching(s: Status) { s.phase == Orienting || s.phase == Returning }

  lemma QuietPrefix(h: seq<Event>, e: Event, k: nat, target: real, c: Config, r: Range)
    requires k < |h| && Quiet(h, k, target, c, r)
    ensures Quiet(h + [e], k, target, c, r)
  {
    assert (h + [e])[..k] == h[..k];
  }

  lemma {:induction false} WindowIsUnbroken(h: seq<Event>, c: Config, r: Range)
    requires Accepted(c, r)
    ensures var s := After(h, c, r);
            Watching(s) && s.settleSince.Some? ==>
              s.target.Some? && Unbroken(h, WindowStart(h, c, r), s.settleSince.value, s.target.value, c, r)
  {
    EveryTargetIsSafe(h, c, r);
    if h != [] {
      var n := |h| - 1;
      WindowIsUnbroken(h[..n], c, r);
      EveryTargetIsSafe(h[..n], c, r);
      assert h == h[..n] + [h[n]];
      WindowStep(h[..n], h[n], c, r);
    }
  }

  lemma WindowStep(h: seq<Event>, e: Event, c: Config, r: Range)
    requires Accepted(c, r) && Sane(After(h, c, r), r)
    requires var s := After(h, c, r);
             Watching(s) && s.settleSince.Some? ==>
               s.target.Some? && Unbroken(h, WindowStart(h, c, r), s.settleSince.value, s.target.value, c, r)
    ensures var h', s := h + [e], After(h + [e], c, r);
            Watching(s) && s.settleSince.Some? ==>
              s.target.Some? && Unbroken(h', WindowStart(h', c, r), s.settleSince.value, s.target.value, c, r)
  {
    var h' := h + [e];
    assert h'[..|h|] == h;
    var before, s := After(h, c, r), After(h', c, r);
    assert s == Next(before, e, c, r);
    if Watching(s) && s.settleSince.Some? {
      NotACommand(before, e, c, r);
      assert Quiet(h', |h|, s.target.value, c, r);
      if s.settleSince == before.settleSince {
        var i := WindowStart(h, c, r);
        forall k | i <= k < |h'| ensures Quiet(h', k, s.target.value, c, r) {
          if k < |h| { QuietPrefix(h, e, k, s.target.value, c, r); }
        }
      }
    }
  }

  /** Still watching with a window open: the event was no command, kept the target, and
      if it was an observation it was settled. */
  lemma NotACommand(s: Status, e: Event, c: Config, r: Range)
    requires Sane(s, r) && Watching(Next(s, e, c, r)) && Next(s, e, c, r).settleSince.Some?
    ensures !Commands(s, e, c) && Watching(s) && Next(s, e, c, r).target == s.target && s.target.Some?
    ensures e.Observe? ==> Settled(e.current, e.velocity, s.target.value, c)
    ensures Next(s, e, c, r).settleSince != s.settleSince ==> e.Observe? && Next(s, e, c, r).settleSince == Some(e.now)
  {}

  predicate Reached(s: Status) { s.phase == Aligned || s.phase == Centered }

  /** An observation that reaches the target ends an unbroken settled window of at least
      `settleDuration`, against that same target, with no command in it. */
  lemma ReachedOnlyAfterSettling(h: seq<Event>, e: Event, c: Config, r: Range)
    requires Accepted(c, r) && e.Observe?
    requires !Reached(After(h, c, r)) && Reached(After(h + [e], c, r))
    ensures var s, h' := After(h + [e], c, r), h + [e];
            && s.target.Some? && s.settleSince.Some?
            && Unbroken(h', WindowStart(h', c, r), s.settleSince.value, s.target.value, c, r)
            && e.now - s.settleSince.value >= c.settleDuration - SLACK
  {
    var h' := h + [e];
    assert h'[..|h|] == h;
    EveryTargetIsSafe(h, c, r);
    WindowIsUnbroken(h, c, r);
    var before, s := After(h, c, r), After(h', c, r);
    assert s == Next(before, e, c, r);
    assert Watching(before);
    assert Quiet(h', |h|, s.target.value, c, r);
    if s.settleSince == before.settleSince {
      var i := WindowStart(h, c, r);
      forall k | i <= k < |h'| ensures Quiet(h', k, s.target.value, c, r) {
        if k < |h| { QuietPrefix(h, e, k, s.target.value, c, r); }
      }
    }
  }

  function Resume(s: Status, es: seq<Event>, c: Config, r: Range): Status {
    if es == [] then s else Next(Resume(s, es[..|es| - 1], c, r), es[|es| - 1], c, r)
  }

  /** Observations that all show the lamp settled at the target. */
  predicate AllSettled(es: seq<Event>, target: real, c: Config) {
    forall k :: 0 <= k < |es| ==> es[k].Observe? && Settled(es[k].current, es[k].velocity, target, c)
  }

  lemma {:induction false} SettlingCounts(s: Status, es: seq<Event>, target: real, c: Config, r: Range)
    requires Sane(s, r) && Watching(s) && s.target == Some(target) && s.disconnectedAt.None?
    requires es != [] && AllSettled(es, target, c) && (s.settleSince.Some? ==> s.settleSince.value <= es[0].now)
    ensures var t := Resume(s, es, c, r);
            && t.target == Some(target) && t.disconnectedAt.None?
            && (Watching(t) ==> t.settleSince.Some? && t.settleSince.value <= es[0].now)
            && (Watching(t) ==> es[|es| - 1].now - es[0].now < c.settleDuration - SLACK)
            && (t.phase == s.phase || Reached(t) || (s.phase == Orienting && t.phase == TimedOut))
  {
    var n := |es| - 1;
    if n > 0 { SettlingCounts(s, es[..n], target, c, r); }
    hide Settled;
  }

  /** Conversely, a lamp that is seen settled at its target for that long has reached it,
      unless it was too late for that in between. */
  lemma SettlingReaches(s: Status, es: seq<Event>, target: real, c: Config, r: Range)
    requires Sane(s, r) && Watching(s) && s.target == Some(target) && s.disconnectedAt.None?
    requires es != [] && AllSettled(es, target, c) && (s.settleSince.Some? ==> s.settleSince.value <= es[0].now)
    requires es[|es| - 1].now - es[0].now >= c.settleDuration - SLACK
    ensures var t := Resume(s, es, c, r);
            Reached(t) || (s.phase == Orienting && t.phase == TimedOut)
  {
    SettlingCounts(s, es, target, c, r);
  }

  // ----- timing out ---------------------------------------------------------------

  /** The time of the last command. */
  function LastCommand(h: seq<Event>, c: Config, r: Range): Option<real> {
    if h == [] then None
    else
      var n := |h| - 1;
      if !Commands(After(h[..n], c, r), h[n], c) then LastCommand(h[..n], c, r)
      else if h[n].Release? then None
      else Some(h[n].now)
  }

  lemma {:induction false} StartedAtLastCommand(h: seq<Event>, c: Config, r: Range)
    ensures After(h, c, r).startedAt == LastCommand(h, c, r)
  {
    if h != [] {
      StartedAtLastCommand(h[..|h| - 1], c, r);
      hide Blank, Clip;
    }
  }

  /** No observation at or past the acquire timeout leaves the state orienting. */
  lemma NeverOrientingPastTimeout(h: seq<Event>, e: Event, c: Config, r: Range)
    requires Accepted(c, r) && e.Observe? && After(h + [e], c, r).phase == Orienting
    ensures var at := LastCommand(h, c, r); at.Some? && e.now - at.value < c.acquireTimeout
  {
    assert (h + [e])[..|h|] == h;
    EveryTargetIsSafe(h, c, r);
    StartedAtLastCommand(h, c, r);
  }

  /** A timeout is only reported after that time, for a lamp that did not reach its target. */
  lemma TimeoutIsLate(h: seq<Event>, e: Event, c: Config, r: Range)
    requires Accepted(c, r) && After(h, c, r).phase != TimedOut && After(h + [e], c, r).phase == TimedOut
    ensures e.Observe? && After(h, c, r).phase == Orienting
    ensures var at := LastCommand(h, c, r); at.Some? && e.now - at.value >= c.acquireTimeout
  {
    hide Blank, Clip, LastCommand, After;
    AfterOne(h, e, c, r);
    TimedOutNext(After(h, c, r), e, c, r);
    StartedAtLastCommand(h, c, r);
  }

  lemma AfterOne(h: seq<Event>, e: Event, c: Config, r: Range)
    ensures After(h + [e], c, r) == Next(After(h, c, r), e, c, r)
  {
    assert (h + [e])[..|h|] == h;
  }

  lemma TimedOutNext(s: Status, e: Event, c: Config, r: Range)
    requires s.phase != TimedOut && Next(s, e, c, r).phase == TimedOut
    ensures e.Observe? && s.phase == Orienting && s.startedAt.Some? && e.now - s.startedAt.value >= c.acquireTimeout
  {
    hide Blank, Clip, Abs;
  }

  // ----- the objects --------------------------------------------------------------

  class BaseYawOrientationLayer {
    const range: Range
    const center: real
    var targetYaw: Option<real>
    var clamped: bool

    constructor (range: Range, center: real)
      ensures this.range == range && this.center == center && targetYaw.None? && !clamped
    {
      this.range := range;
      this.center := center;
      targetYaw, clamped := None, false;
    }

    method Acquire(target: real) returns (limited: bool)
      modifies this
      ensures targetYaw == Some(Clip(target, range.low, range.high))
      ensures limited == clamped == !(range.low <= target <= range.high)
    {
      clamped := target < range.low || target > range.high;
      targetYaw := Some(Clip(target, range.low, range.high));
      return clamped;
    }

    method Release()
      modifies this
      ensures targetYaw.None? && !clamped
    {
      targetYaw, clamped := None, false;
    }
  }

  /** The constructors' checks: a layer is made exactly for an accepted configuration. */
  method MakeLayer(c: Config, lo: real, hi: real) returns (layer: Option<BaseYawOrientationLayer>)
    ensures layer.Some? <==> SafeRange(c, lo, hi).Some?
    ensures layer.Some? ==> fresh(layer.value) && Accepted(c, layer.value.range) && layer.value.center == c.center
                            && layer.value.targetYaw.None?
                            && lo <= layer.value.range.low && layer.value.range.high <= hi
  {
    if SafeRange(c, lo, hi).None? { return None; }
    var made := new BaseYawOrientationLayer(SafeRange(c, lo, hi).value, c.center);
    return Some(made);
  }

  datatype Reply = Snapshot(phase: Phase, target: Option<real>, blockedByTaskLight: bool) | InvalidSpeech | Busy

  class OrientationCoordinator {
    const layer: BaseYawOrientationLayer
    const cfg: Config
    var phase: Phase
    var speech: Option<string>
    var target: Option<real>
    var current: real
    var clamped: bool
    var startedAt: Option<real>
    var settleSince: Option<real>
    var disconnectedAt: Option<real>

    ghost function State(): Status
      reads this, layer
    {
      Status(phase, speech, target, current, clamped, startedAt, settleSince, disconnectedAt, layer.targetYaw)
    }

    ghost predicate Valid()
      reads this, layer
    {
      Accepted(cfg, layer.range) && layer.center == cfg.center && Sane(State(), layer.range)
    }

    constructor (layer: BaseYawOrientationLayer, cfg: Config)
      requires Accepted(cfg, layer.range) && layer.center == cfg.center && layer.targetYaw.None?
      ensures Valid() && this.layer == layer && this.cfg == cfg && State() == Initial(cfg)
    {
      this.layer := layer;
      this.cfg := cfg;
      phase, speech, target, current, clamped := Idle, None, None, cfg.center, false;
      startedAt, settleSince, disconnectedAt := None, None, None;
    }

    method Acquire(id: string, yaw: real, now: real, currentYaw: real, lightBusy: bool, velocity: real)
      returns (reply: Reply)
      requires Valid()
      modifies this, layer
      ensures Valid()
      ensures State() == Next(old(State()), Event.Acquire(id, yaw, now, currentYaw, lightBusy, velocity),
                              cfg, layer.range)
      ensures reply == if Blank(id) then InvalidSpeech
                       else Snapshot(phase, target, lightBusy && old(speech) != Some(id))
    {
      hide Clip, Abs, Blank, Acquired;
      if Blank(id) { return InvalidSpeech; }
      if speech == Some(id) { return Snapshot(phase, target, false); }
      current := currentYaw;
      if lightBusy { return Snapshot(phase, target, true); }
      TurnTo(id, yaw, now, velocity);
      return Snapshot(phase, target, false);
    }

    /** The part of `Acquire` that changes the target. */
    method TurnTo(id: string, yaw: real, now: real, velocity: real)
      requires Accepted(cfg, layer.range)
      modifies this, layer
      ensures State() == Acquired(id, yaw, now, old(current), velocity, cfg, layer.range)
      ensures Sane(State(), layer.range)
    {
      var low, high := layer.range.low, layer.range.high;
      ClipStays(yaw, low, high);
      ClipStays(current, low, high);
      hide Clip, Abs;
      var wanted := Clip(yaw, low, high);
      clamped := wanted != yaw;
      var inside := Abs(current - wanted) <= cfg.deadband;
      var safe := low <= current <= high;
      if inside {
        wanted := Clip(current, low, high);
        clamped := clamped || !safe;
      }
      target := Some(wanted);
      var limited := layer.Acquire(wanted);
      speech := Some(id);
      startedAt, settleSince, disconnectedAt := Some(now), None, None;
      phase := if inside && safe && Abs(velocity) <= SLACK then Aligned else Orienting;
    }

    method Release() returns (reply: Reply)
      requires Valid()
      modifies this, layer
      ensures Valid() && State() == Next(old(State()), Event.Release, cfg, layer.range)
      ensures reply == Snapshot(Idle, None, false)
    {
      layer.Release();
      phase, speech, target, clamped := Idle, None, None, false;
      startedAt, settleSince, disconnectedAt := None, None, None;
      return Snapshot(phase, target, false);
    }

    method ReturnCenter(now: real, currentYaw: real, motionBusy: bool) returns (reply: Reply)
      requires Valid()
      modifies this, layer
      ensures Valid()
      ensures State() == Next(old(State()), Event.ReturnCenter(now, currentYaw, motionBusy), cfg, layer.range)
      ensures reply == if motionBusy then Busy else Snapshot(phase, target, false)
    {
      if motionBusy { return Busy; }
      current := currentYaw;
      var limited := layer.Acquire(layer.center);
      target, clamped, phase := Some(cfg.center), false, Returning;
      startedAt, settleSince, disconnectedAt := Some(now), None, None;
      return Snapshot(phase, target, false);
    }

    method Observe(now: real, currentYaw: real, velocity: real) returns (reply: Reply)
      requires Valid()
      modifies this, layer
      ensures Valid() && State() == Next(old(State()), Event.Observe(now, currentYaw, velocity), cfg, layer.range)
      ensures reply == Snapshot(phase, target, false)
    {
      current := currentYaw;
      if phase == Orienting || phase == Aligned || phase == TimedOut {
        if disconnectedAt.Some? && now - disconnectedAt.value >= cfg.disconnectHold {
          reply := ReturnCenter(now, currentYaw, false);
          return;
        }
      }
      if phase != Orienting && phase != Returning { return Snapshot(phase, target, false); }
      var wanted := target.value;
      if Abs(currentYaw - wanted) <= cfg.settleError && Abs(velocity) <= cfg.settleVelocity {
        if settleSince.None? { settleSince := Some(now); }
        if now - settleSince.value >= cfg.settleDuration - SLACK {
          phase := if phase == Orienting then Aligned else Centered;
        }
      } else {
        settleSince := None;
      }
      if phase == Orienting && startedAt.Some? && now - startedAt.value >= cfg.acquireTimeout {
        phase := TimedOut;
      }
      return Snapshot(phase, target, false);
    }

    method Disconnected(now: real)
      requires Valid()
      modifies `disconnectedAt
      ensures Valid() && State() == Next(old(State()), Event.Disconnected(now), cfg, layer.range)
    {
      disconnectedAt := Some(now);
    }
  }

  lemma ClipStays(x: real, lo: real, hi: real)
    requires lo <= hi
    ensures lo <= Clip(x, lo, hi) <= hi && Clip(Clip(x, lo, hi), lo, hi) == Clip(x, lo, hi)
  {}
}

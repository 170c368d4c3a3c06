/** The whole playback plan: smoothing, resampling, the transitions to and from the
    clip, and the step limiter. */
module Playback {
  import opened Options
  import opened Poses
  import opened Resampling
  import opened Smoothing
  import opened StepLimit

  /** The arguments of `prepare_playback`. */
  datatype Order = Order(
    clip: Frames, current: Pose,
    sourceFps: real, commandFps: real, speed: real,
    transitionSeconds: real,
    returnPose: Option<Pose>, returnSeconds: Option<real>,
    maxStep: Option<real>,
    alpha: Option<real>)

  function ReturnTime(o: Order): real {
    if o.returnSeconds.None? then o.transitionSeconds else o.returnSeconds.value
  }

  function SourceResult(o: Order): Result<Frames> {
    if o.alpha.None? then Ok(o.clip) else SmoothResult(o.clip, o.alpha.value)
  }

  function ScaledResult(o: Order): Result<Frames> {
    if !GoodTiming(o.sourceFps, o.commandFps, o.speed) || o.transitionSeconds < 0.0 then Raised(BadTiming)
    else
      match SourceResult(o)
      case Raised(e) => Raised(e)
      case Ok(source) => ResampleResult(source, o.sourceFps, o.commandFps, o.speed)
  }

  /** The way back to the return pose, if one is asked for. */
  function ReturnResult(o: Order, last: Pose): Result<Frames> {
    if o.returnPose.None? then Ok([])
    else TransitionResult(last, o.returnPose.value, o.commandFps, ReturnTime(o))
  }

  /** The plan before the step limiter, for a clip that is not empty. */
  function PlannedResult(o: Order, scaled: Frames): Result<Frames>
    requires scaled != []
  {
    match TransitionResult(o.current, scaled[0], o.commandFps, o.transitionSeconds)
    case Raised(e) => Raised(e)
    case Ok(transition) =>
      match ReturnResult(o, scaled[|scaled| - 1])
      case Raised(e) => Raised(e)
      case Ok(back) => Ok(transition + scaled[1..] + back)
  }

  function PlanResult(o: Order): Result<Frames> {
    match ScaledResult(o)
    case Raised(e) => Raised(e)
    case Ok(scaled) =>
      if scaled == [] then Ok([])
      else
        match PlannedResult(o, scaled)
        case Raised(e) => Raised(e)
        case Ok(planned) => LimitResult(o.current, planned, o.maxStep)
  }

  method PreparePlayback(o: Order) returns (r: Result<Frames>)
    ensures r == PlanResult(o)
  {
    hide SmoothResult, ResampleResult, TransitionResult, LimitResult;
    if !GoodTiming(o.sourceFps, o.commandFps, o.speed) { return Raised(BadTiming); }
    if o.transitionSeconds < 0.0 { return Raised(BadTiming); }
    var source := Ok(o.clip);
    if o.alpha.Some? { source := SmoothActions(o.clip, o.alpha.value); }
    if source.Raised? { return source; }
    var scaled := ResampleActions(source.value, o.sourceFps, o.commandFps, o.speed);
    if scaled.Raised? { return scaled; }
    if scaled.value == [] { return Ok([]); }
    var transition := TransitionActions(o.current, scaled.value[0], o.commandFps, o.transitionSeconds);
    if transition.Raised? { return transition; }
    var planned := transition.value + scaled.value[1..];
    if o.returnPose.Some? {
      var last := scaled.value[|scaled.value| - 1];
      var back := TransitionActions(last, o.returnPose.value, o.commandFps, ReturnTime(o));
      if back.Raised? { return back; }
      planned := planned + back.value;
    } else {
      assert planned + [] == planned;
    }
    r := LimitActionSteps(planned, o.current, o.maxStep);
  }

  // ----- the parts ----------------------------------------------------------------

  lemma TransitionFacts(p: Pose, q: Pose, fps: real, duration: real)
    ensures var r := TransitionResult(p, q, fps, duration);
            && (r.Ok? <==> duration >= 0.0 && InRange(p) && InRange(q))
            && (r.Ok? ==> r.value != [] && AllInRange(r.value) && r.value[|r.value| - 1] == q)
  {
    if duration > 0.0 && InRange(p) && InRange(q) {
      var m := AtLeastOne(Round(duration * fps));
      TransitionEnds(p, q, m);
      TransitionInRange(p, q, m);
    }
    hide InRange, Transition;
  }

  lemma SourceFacts(o: Order)
    ensures var r := SourceResult(o);
            && (r.Ok? <==> o.alpha.Some? ==> GoodAlpha(o.alpha.value) && AllInRange(o.clip))
            && (r.Ok? ==> |r.value| == |o.clip|)
            && (r.Ok? && o.clip != [] ==> r.value[0] == o.clip[0] && r.value[|o.clip| - 1] == o.clip[|o.clip| - 1])
  {
    if o.alpha.Some? && AllInRange(o.clip) && o.clip != [] {
      EndpointsStay(o.clip, o.alpha.value);
    }
    hide InRange, Smoothed;
  }

  lemma ResampleFacts(c: Frames, sourceFps: real, commandFps: real, speed: real)
    ensures var r := ResampleResult(c, sourceFps, commandFps, speed);
            && (r.Ok? <==> GoodTiming(sourceFps, commandFps, speed) && AllInRange(c))
            && (r.Ok? ==> AllInRange(r.value) && (r.value == [] <==> c == []))
            && (r.Ok? && c != [] ==> r.value[0] == c[0] && r.value[|r.value| - 1] == c[|c| - 1])
  {
    if GoodTiming(sourceFps, commandFps, speed) && AllInRange(c) && |c| >= 2 {
      RangeIsSteady(c);
      var m := Intervals(|c|, sourceFps, commandFps, speed);
      ResampledFacts(c, m, 200.0);
      ResampledInRange(c, m);
    }
    hide InRange, Resampled, Intervals, GoodTiming;
  }

  lemma RangeIsSteady(c: Frames)
    requires AllInRange(c)
    ensures Steady(c, 200.0)
  {}

  /** The plan before the limiter: in range, and ending where it should. */
  lemma PlannedFacts(o: Order, scaled: Frames)
    requires scaled != [] && AllInRange(scaled)
    ensures var r := PlannedResult(o, scaled);
            && (r.Ok? <==> o.transitionSeconds >= 0.0 && InRange(o.current)
                           && (o.returnPose.Some? ==> ReturnTime(o) >= 0.0 && InRange(o.returnPose.value)))
            && (r.Ok? ==> r.value != [] && AllInRange(r.value)
                          && r.value[|r.value| - 1] == Destination(o, scaled[|scaled| - 1]))
  {
    var last := scaled[|scaled| - 1];
    TransitionFacts(o.current, scaled[0], o.commandFps, o.transitionSeconds);
    if o.returnPose.Some? { TransitionFacts(last, o.returnPose.value, o.commandFps, ReturnTime(o)); }
    hide TransitionResult, InRange;
  }

  /** Where playback ends: the return pose, or else the last frame. */
  function Destination(o: Order, last: Pose): Pose {
    if o.returnPose.Some? then o.returnPose.value else last
  }

  lemma LimitFacts(p: Pose, c: Frames, maxStep: Option<real>)
    requires InRange(p) && AllInRange(c)
    ensures var r := LimitResult(p, c, maxStep);
            && (r.Ok? <==> maxStep.Some? ==> maxStep.value > 0.0)
            && (r.Ok? ==> AllInRange(r.value) && (r.value == [] <==> c == []))
            && (r.Ok? && maxStep.Some? ==> Follows(p, r.value, maxStep.value))
            && (r.Ok? && c != [] ==> r.value[|r.value| - 1] == c[|c| - 1])
  {
    if maxStep.Some? && maxStep.value > 0.0 {
      LimitedInRange(p, c, maxStep.value);
      LimitedFollows(p, c, maxStep.value);
      if c != [] { PlanIsKept(p, c, maxStep.value, |c| - 1); }
    }
    hide InRange, Limited, Follows;
  }

  // ----- the plan -----------------------------------------------------------------

  /** Everything the caller asked for that is independent of smoothing. */
  predicate Sensible(o: Order) {
    && GoodTiming(o.sourceFps, o.commandFps, o.speed)
    && o.transitionSeconds >= 0.0
    && (o.alpha.Some? ==> GoodAlpha(o.alpha.value))
    && AllInRange(o.clip)
    && (o.clip != [] ==>
          && InRange(o.current)
          && (o.returnPose.Some? ==> ReturnTime(o) >= 0.0 && InRange(o.returnPose.value))
          && (o.maxStep.Some? ==> o.maxStep.value > 0.0))
  }

  /** Smoothing did not leave the range. */
  predicate SmoothingFits(o: Order)
    requires AllInRange(o.clip)
  {
    o.alpha.Some? ==> AllInRange(Smoothed(o.clip, o.alpha.value))
  }

  /** A plan is made exactly for sensible orders whose smoothed clip stays in range.
      It is then in range, ends at its destination, and keeps the step limit from the
      current pose on. */
  lemma PlanFacts(o: Order)
    ensures var r := PlanResult(o);
            && (r.Ok? <==> Sensible(o) && SmoothingFits(o))
            && (r.Ok? ==> AllInRange(r.value) && (r.value == [] <==> o.clip == []))
            && (r.Ok? && o.maxStep.Some? && o.clip != [] ==> Follows(o.current, r.value, o.maxStep.value))
            && (r.Ok? && o.clip != [] ==> r.value[|r.value| - 1] == Destination(o, o.clip[|o.clip| - 1]))
  {
    SourceFacts(o);
    ScaledFacts(o);
    hide InRange, Follows, Smoothed, GoodTiming, GoodAlpha, LimitResult, PlannedResult, ScaledResult;
    if ScaledResult(o).Ok? && o.clip != [] {
      var scaled := ScaledResult(o).value;
      PlannedFacts(o, scaled);
      if PlannedResult(o, scaled).Ok? {
        LimitFacts(o.current, PlannedResult(o, scaled).value, o.maxStep);
      }
    }
  }

  lemma ScaledFacts(o: Order)
    ensures var r := ScaledResult(o);
            && (r.Ok? <==> && GoodTiming(o.sourceFps, o.commandFps, o.speed) && o.transitionSeconds >= 0.0
                           && (o.alpha.Some? ==> GoodAlpha(o.alpha.value))
                           && AllInRange(o.clip) && SmoothingFits(o))
            && (r.Ok? ==> AllInRange(r.value) && (r.value == [] <==> o.clip == []))
            && (r.Ok? && o.clip != [] ==> r.value[0] == o.clip[0] && r.value[|r.value| - 1] == o.clip[|o.clip| - 1])
  {
    SourceFacts(o);
    if SourceResult(o).Ok? { ResampleFacts(SourceResult(o).value, o.sourceFps, o.commandFps, o.speed); }
    hide InRange, Smoothed, GoodTiming, GoodAlpha, ResampleResult;
  }

  /** The bounds compose: if recorded frames are at most `m` apart, the frames played at
      the command rate are as far apart as the smoothed clip moves in their time. */
  lemma ScaledSteps(o: Order, m: real)
    requires ScaledResult(o).Ok? && o.alpha.Some? && |o.clip| >= 2 && m >= 0.0
    requires AllInRange(o.clip) && Steady(o.clip, m)
    ensures GoodAlpha(o.alpha.value) && GoodTiming(o.sourceFps, o.commandFps, o.speed)
    ensures var n := |o.clip|;
            var intervals := Intervals(n, o.sourceFps, o.commandFps, o.speed);
            && |ScaledResult(o).value| == intervals + 1 && Shaped(ScaledResult(o).value)
            && Steady(ScaledResult(o).value, Scaled(StepBound(m, o.alpha.value, n - 1), Position(n, 1, intervals)))
  {
    ScaledFacts(o);
    SmoothedSteps(o.clip, o.alpha.value, m);
    var n := |o.clip|;
    ResampledFacts(Smoothed(o.clip, o.alpha.value), Intervals(n, o.sourceFps, o.commandFps, o.speed),
                   StepBound(m, o.alpha.value, n - 1));
    hide Smoothed, InRange, Near, StepBound, Position, Intervals, Resampled;
  }

  /** A condition on the recording alone under which no sensible order is refused: its
      frames are at most `m` apart and keep the largest lag of the filter from the ends of
      the range. */
  predicate KeepsItsDistance(c: Frames, m: real, alpha: real)
    requires alpha > 0.0
  {
    Shaped(c) && Steady(c, m) && Within(c, -100.0 + LagBound(m, alpha), 100.0 - LagBound(m, alpha))
  }

  lemma NeverRefused(o: Order, m: real)
    requires Sensible(o) && o.alpha.Some? && m >= 0.0 && KeepsItsDistance(o.clip, m, o.alpha.value)
    ensures SmoothingFits(o) && PlanResult(o).Ok?
  {
    var e, s := LagBound(m, o.alpha.value), Smoothed(o.clip, o.alpha.value);
    forall j: nat | j < NJ ensures JointWithin(s, j, -100.0, 100.0) {
      assert JointWithin(o.clip, j, -100.0 + e, 100.0 - e);
      hide JointWithin, LagBound, Smoothed;
      SmoothedWithin(o.clip, o.alpha.value, m, j, -100.0 + e, 100.0 - e);
    }
    RangeIsJointwise(s);
    PlanFacts(o);
    hide AllInRange, Smoothed, PlanResult, JointWithin;
  }

  // ----- what is played -----------------------------------------------------------

  /** How many commands a transition takes. */
  function Commands(seconds: real, fps: real): (n: nat)
    ensures n >= 1
  {
    if seconds == 0.0 then 1 else AtLeastOne(Round(seconds * fps))
  }

  function ReturnCommands(o: Order): nat {
    if o.returnPose.None? then 0 else Commands(ReturnTime(o), o.commandFps)
  }

  /** Commands on the straight way to `q`, each farther than the one before, and the last
      one there. */
  ghost predicate Approaches(p: Pose, c: Frames, q: Pose) {
    && |p| == |q| == NJ && c != []
    && Leads(p, q, p, c[0]) && c[|c| - 1] == q
    && forall i | 0 <= i < |c| - 1 :: Leads(p, q, c[i], c[i + 1])
  }

  lemma TransitionApproaches(p: Pose, q: Pose, fps: real, seconds: real)
    requires TransitionResult(p, q, fps, seconds).Ok?
    ensures var c := TransitionResult(p, q, fps, seconds).value;
            |c| == Commands(seconds, fps) && Approaches(p, c, q)
  {
    var c := TransitionResult(p, q, fps, seconds).value;
    if seconds == 0.0 { LeadsWhole(p, q); } else {
      var m := AtLeastOne(Round(seconds * fps));
      TransitionEnds(p, q, m);
      TransitionLeads(p, q, m, 0);
      forall i | 0 <= i < m - 1 ensures Leads(p, q, c[i], c[i + 1]) { TransitionLeads(p, q, m, i + 1); }
      hide Leads, TransitionFrame;
    }
  }

  /** A plan without a step limit leads from the current pose to the first frame of the
      recording, smoothed and resampled, plays every frame of that, one command each, and
      leads to the return pose, if there is one. */
  lemma RecordingIsPlayed(o: Order)
    requires PlanResult(o).Ok? && o.maxStep.None? && o.clip != []
    ensures ScaledResult(o).Ok? && ScaledResult(o).value != []
    ensures var plan, scaled := PlanResult(o).value, ScaledResult(o).value;
            var T, R, n := Commands(o.transitionSeconds, o.commandFps), ReturnCommands(o), |scaled|;
            && |plan| == T + n - 1 + R
            && plan[T - 1..T - 1 + n] == scaled
            && Approaches(o.current, plan[..T], scaled[0])
            && (o.returnPose.Some? ==> Approaches(scaled[n - 1], plan[T - 1 + n..], o.returnPose.value))
  {
    ScaledFacts(o);
    var scaled := ScaledResult(o).value;
    hide ScaledResult, TransitionResult, Approaches, GoodTiming;
    assert PlanResult(o) == PlannedResult(o, scaled) by { NoLimitPlan(o); }
    var way := TransitionResult(o.current, scaled[0], o.commandFps, o.transitionSeconds).value;
    var back := ReturnResult(o, scaled[|scaled| - 1]).value;
    TransitionApproaches(o.current, scaled[0], o.commandFps, o.transitionSeconds);
    WayEnds(o.current, way, scaled[0]);
    if o.returnPose.Some? {
      TransitionApproaches(scaled[|scaled| - 1], o.returnPose.value, o.commandFps, ReturnTime(o));
    }
    hide PlanResult;
    Joined(way, scaled, back);
  }

  lemma NoLimitPlan(o: Order)
    requires PlanResult(o).Ok? && o.maxStep.None? && ScaledResult(o).Ok? && ScaledResult(o).value != []
    ensures PlanResult(o) == PlannedResult(o, ScaledResult(o).value)
  {
    hide ScaledResult, PlannedResult;
  }

  lemma WayEnds(p: Pose, c: Frames, q: Pose)
    requires Approaches(p, c, q)
    ensures c != [] && c[|c| - 1] == q
  {}

  lemma Joined(way: Frames, scaled: Frames, back: Frames)
    requires way != [] && scaled != [] && way[|way| - 1] == scaled[0]
    ensures var plan, T, n := way + scaled[1..] + back, |way|, |scaled|;
            && |plan| == T + n - 1 + |back|
            && plan[..T] == way && plan[T - 1..T - 1 + n] == scaled && plan[T - 1 + n..] == back
  {}

  /** All frames of `x` occur in `y`, in their order. */
  ghost predicate Contained(x: Frames, y: Frames) { exists at: seq<nat> :: OccursAt(x, y, at) }

  predicate OccursAt(x: Frames, y: Frames, at: seq<nat>) {
    && |at| == |x|
    && (forall k :: 0 <= k < |x| ==> at[k] < |y| && y[at[k]] == x[k])
    && (forall k :: 0 <= k < |x| - 1 ==> at[k] < at[k + 1])
  }

  /** The places of a limited plan's own commands. */
  ghost function Places(p: Pose, c: Frames, step: real): (at: seq<nat>)
    requires |p| == NJ && Shaped(c) && step > 0.0
    ensures |at| == |c|
  {
    seq(|c|, k requires 0 <= k < |c| => Place(p, c, step, k))
  }

  lemma LimitedKeeps(p: Pose, c: Frames, step: real)
    requires |p| == NJ && Shaped(c) && step > 0.0
    ensures OccursAt(c, Limited(p, c, step), Places(p, c, step))
  {
    hide Limited, Place;
    forall k: nat | k < |c|
      ensures Places(p, c, step)[k] < |Limited(p, c, step)|
      ensures Limited(p, c, step)[Places(p, c, step)[k]] == c[k]
      ensures k + 1 < |c| ==> Places(p, c, step)[k] < Places(p, c, step)[k + 1]
    {
      PlanIsKept(p, c, step, k);
    }
  }

  lemma SliceKeeps(x: Frames, y: Frames, at: seq<nat>, i: nat, n: nat)
    requires OccursAt(x, y, at) && i + n <= |x|
    ensures OccursAt(x[i..i + n], y, at[i..i + n])
  {}

  lemma LimitPlays(p: Pose, free: Frames, step: real, i: nat, n: nat)
    requires |p| == NJ && Shaped(free) && step > 0.0 && i + n <= |free|
    ensures Contained(free[i..i + n], Limited(p, free, step))
  {
    LimitedKeeps(p, free, step);
    hide Limited, OccursAt, Places;
    SliceKeeps(free, Limited(p, free, step), Places(p, free, step), i, n);
  }

  lemma FreeSlice(o: Order) returns (i: nat, n: nat)
    requires PlanResult(o).Ok? && o.maxStep.None? && o.clip != []
    ensures ScaledResult(o).Ok? && i + n <= |PlanResult(o).value|
    ensures ScaledResult(o).value == PlanResult(o).value[i..i + n]
  {
    hide PlanResult, ScaledResult, Commands, ReturnCommands, Approaches;
    RecordingIsPlayed(o);
    i, n := Commands(o.transitionSeconds, o.commandFps) - 1, |ScaledResult(o).value|;
  }

  /** With and without a step limit every frame of the recording, smoothed and resampled, is
      commanded, in its order. */
  lemma EveryFrameIsCommanded(o: Order)
    requires PlanResult(o).Ok? && o.clip != []
    ensures ScaledResult(o).Ok? && Contained(ScaledResult(o).value, PlanResult(o).value)
  {
    hide PlanResult, ScaledResult, Contained, Limited, LimitResult;
    if o.maxStep.None? {
      var i, n := FreeSlice(o);
      SliceOccurs(PlanResult(o).value, i, n);
    } else {
      UnlimitedPlan(o);
      SameScaled(o);
      var i, n := FreeSlice(Unlimited(o));
      LimitedIs(o.current, PlanResult(Unlimited(o)).value, o.maxStep.value);
      LimitPlays(o.current, PlanResult(Unlimited(o)).value, o.maxStep.value, i, n);
    }
  }

  lemma SliceOccurs(y: Frames, i: nat, n: nat)
    requires i + n <= |y|
    ensures Contained(y[i..i + n], y)
  {
    var at := seq(n, k requires 0 <= k < n => i + k);
    assert OccursAt(y[i..i + n], y, at);
  }

  lemma SameScaled(o: Order)
    ensures ScaledResult(Unlimited(o)) == ScaledResult(o) && Unlimited(o).clip == o.clip
    ensures Unlimited(o).maxStep.None?
    ensures Unlimited(o).transitionSeconds == o.transitionSeconds && Unlimited(o).commandFps == o.commandFps
  {
    hide SmoothResult, ResampleResult;
  }

  /** The same order without a step limit. */
  function Unlimited(o: Order): Order { o.(maxStep := None) }

  lemma UnlimitedPlan(o: Order)
    requires PlanResult(o).Ok? && o.maxStep.Some? && o.clip != []
    ensures PlanResult(Unlimited(o)).Ok?
    ensures PlanResult(o) == LimitResult(o.current, PlanResult(Unlimited(o)).value, o.maxStep)
  {
    ScaledFacts(o);
    hide SmoothResult, ResampleResult, TransitionResult, LimitResult, GoodTiming;
    assert ScaledResult(Unlimited(o)) == ScaledResult(o);
    hide ScaledResult;
    var scaled := ScaledResult(o).value;
    assert PlannedResult(Unlimited(o), scaled) == PlannedResult(o, scaled);
    hide PlannedResult;
    assert LimitResult(o.current, PlannedResult(o, scaled).value, None) == PlannedResult(o, scaled) by {
      NoLimit(o.current, PlannedResult(o, scaled).value);
    }
  }

  lemma NoLimit(p: Pose, c: Frames)
    ensures LimitResult(p, c, None) == Ok(c)
  {}

  lemma LimitedIs(p: Pose, c: Frames, step: real)
    requires LimitResult(p, c, Some(step)).Ok?
    ensures InRange(p) && AllInRange(c) && step > 0.0 && LimitResult(p, c, Some(step)).value == Limited(p, c, step)
  {}

  /** The plan without a step limit is a subsequence of the plan with one: its command
      `k` stands at `Place(k)`, and the places increase. */
  lemma LimitKeepsThePlan(o: Order, k: nat)
    requires PlanResult(o).Ok? && o.maxStep.Some? && o.clip != []
    ensures PlanResult(Unlimited(o)).Ok?
    ensures var free := PlanResult(Unlimited(o)).value;
            && o.maxStep.value > 0.0 && |o.current| == NJ && Shaped(free)
            && (k < |free| ==>
                  var i := Place(o.current, free, o.maxStep.value, k);
                  && i < |PlanResult(o).value| && PlanResult(o).value[i] == free[k]
                  && (k + 1 < |free| ==> i < Place(o.current, free, o.maxStep.value, k + 1)))
  {
    hide PlanResult, Limited, Place, LimitResult;
    UnlimitedPlan(o);
    var free := PlanResult(Unlimited(o)).value;
    LimitedIs(o.current, free, o.maxStep.value);
    if k < |free| { PlanIsKept(o.current, free, o.maxStep.value, k); }
  }

  /** A valid recording can be refused: smoothing lifts this one out of the range. */
  lemma ValidRecordingRefused(o: Order)
    requires Sensible(o) && o.clip == DIP && o.alpha.Some? && o.alpha.value < 1.0
    ensures PlanResult(o) == Raised(BadPose)
  {
    DipLeavesTheRange(o.alpha.value);
    hide Smoothed, InRange;
  }
}

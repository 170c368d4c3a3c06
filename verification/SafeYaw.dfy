/** One runtime step while a yaw anchor is set: the blended yaw target, and the yaw
    limits of the trajectory step that follows it. */
module SafeYaw {
  import opened Blender
  import opened Options
  import opened Poses
  import opened PrimitiveLayers
  import opened Primitives
  import opened RealMath
  import opened Tracker

  // ----- the blended target -------------------------------------------------------

  /** What the nine layers put out in one tick. */
  datatype Tick = Tick(
    idle: LayerOutput, track: LayerOutput, orientation: LayerOutput, face: LayerOutput, away: LayerOutput,
    nod: LayerOutput, primitive: LayerOutput, task: LayerOutput, startup: LayerOutput)

  predicate AllWhole(k: Tick) {
    && Whole(k.idle) && Whole(k.track) && Whole(k.orientation) && Whole(k.face) && Whole(k.away)
    && Whole(k.nod) && Whole(k.primitive) && Whole(k.task) && Whole(k.startup)
  }

  /** The layers as the runtime lists them, with their priorities. */
  function Listed(k: Tick): seq<Layer> {
    [Layer(0, k.idle), Layer(10, k.track), Layer(15, k.orientation), Layer(16, k.face), Layer(25, k.away),
     Layer(35, k.nod), Layer(20, k.primitive), Layer(30, k.task), Layer(40, k.startup)]
  }

  function Stack(k: Tick): seq<Layer> {
    [Layer(0, k.idle), Layer(10, k.track), Layer(15, k.orientation), Layer(16, k.face), Layer(20, k.primitive),
     Layer(25, k.away), Layer(30, k.task), Layer(35, k.nod), Layer(40, k.startup)]
  }

  lemma Head(l: Layer, ls: seq<Layer>)
    requires ls == [] || l.priority <= ls[0].priority
    ensures Insert(l, ls) == [l] + ls
  {}

  lemma Second(l: Layer, ls: seq<Layer>)
    requires ls != [] && l.priority > ls[0].priority && (|ls| == 1 || l.priority <= ls[1].priority)
    ensures Insert(l, ls) == [ls[0], l] + ls[1..]
  {
    Head(l, ls[1..]);
  }

  lemma Third(l: Layer, ls: seq<Layer>)
    requires |ls| > 2 && l.priority > ls[0].priority && l.priority > ls[1].priority && l.priority <= ls[2].priority
    ensures Insert(l, ls) == [ls[0], ls[1], l] + ls[2..]
  {
    Second(l, ls[1..]);
    assert ls[1..][1..] == ls[2..];
  }

  lemma SortStep(l: Layer, ls: seq<Layer>)
    ensures Sorted([l] + ls) == Insert(l, Sorted(ls))
  {
    assert ([l] + ls)[1..] == ls;
  }

  /** Sorting by priority puts idling and tracking below the anchor, the primitive right
      above face following, and the held poses above the primitive. */
  lemma RuntimeOrder(k: Tick)
    ensures Sorted(Listed(k)) == Stack(k)
  {
    SortTail(k);
    var idle, track, orientation := Layer(0, k.idle), Layer(10, k.track), Layer(15, k.orientation);
    var face, tail, sorted := Layer(16, k.face), Listed(k)[4..], Stack(k)[4..];
    assert Listed(k) == [idle, track, orientation, face] + tail;
    assert Stack(k) == [idle, track, orientation, face] + sorted;
    assert sorted[0].priority == 20;
    hide Sorted, Insert, Listed, Stack;
    SortHead(face, tail, sorted);
    SortHead(orientation, [face] + tail, [face] + sorted);
    SortHead(track, [orientation] + ([face] + tail), [orientation] + ([face] + sorted));
    SortHead(idle, [track] + ([orientation] + ([face] + tail)), [track] + ([orientation] + ([face] + sorted)));
    Prefixed(idle, track, orientation, face, tail);
    Prefixed(idle, track, orientation, face, sorted);
  }

  lemma SortHead(l: Layer, ls: seq<Layer>, sorted: seq<Layer>)
    requires Sorted(ls) == sorted && sorted != [] && l.priority <= sorted[0].priority
    ensures Sorted([l] + ls) == [l] + sorted
  {
    SortStep(l, ls);
    Head(l, sorted);
    hide Sorted, Insert;
  }

  lemma Prefixed(a: Layer, b: Layer, c: Layer, d: Layer, tail: seq<Layer>)
    ensures [a, b, c, d] + tail == [a] + ([b] + ([c] + ([d] + tail)))
  {}

  lemma SortTail(k: Tick)
    ensures Sorted(Listed(k)[4..]) == Stack(k)[4..]
  {
    var away, nod, primitive := Layer(25, k.away), Layer(35, k.nod), Layer(20, k.primitive);
    var task, startup := Layer(30, k.task), Layer(40, k.startup);
    assert Listed(k)[4..] == [away, nod, primitive, task, startup];
    assert Stack(k)[4..] == [primitive, away, task, nod, startup];
    assert Sorted([]) == [];
    hide Sorted, Insert, Listed, Stack;
    SortStep(startup, []); Head(startup, []);
    assert [startup] + [] == [startup];
    SortStep(task, [startup]); Head(task, [startup]);
    assert [task] + [startup] == [task, startup];
    SortStep(primitive, [task, startup]); Head(primitive, [task, startup]);
    assert [primitive] + [task, startup] == [primitive, task, startup];
    SortStep(nod, [primitive, task, startup]); Third(nod, [primitive, task, startup]);
    assert [primitive, task, nod] + [primitive, task, startup][2..] == [primitive, task, nod, startup];
    assert [nod] + [primitive, task, startup] == [nod, primitive, task, startup];
    SortStep(away, [nod, primitive, task, startup]); Second(away, [primitive, task, nod, startup]);
    assert [primitive, away] + [primitive, task, nod, startup][1..] == [primitive, away, task, nod, startup];
    assert [away] + [nod, primitive, task, startup] == [away, nod, primitive, task, startup];
  }

  /** The output of the anchor layer. */
  function AnchorOutput(yaw: real): LayerOutput {
    LayerOutput([yaw, 0.0, 0.0, 0.0, 0.0], [1.0, 0.0, 0.0, 0.0, 0.0], 1.0, false)
  }

  /** A layer above the primitive that holds a pose with a safe yaw, or claims no yaw: a
      layer that has faded out may still carry an old pose. */
  predicate Holds(o: LayerOutput, l: Limits)
    requires Whole(o)
  {
    Alpha(o, 0) == 0.0 || (!o.additive && l.lo <= o.value[0] <= l.hi)
  }

  /** With the anchor set inside the safe limits, face following inactive, a fitted clip
      at any time and gain, and safe poses above, the blended yaw is safe. */
  lemma BlendedYaw(k: Tick, rest: Pose, anchor: real, l: Limits, clip: Option<Primitive>, t: real)
    requires |rest| == NJ && AllWhole(k) && l.lo <= anchor <= l.hi
    requires k.orientation == AnchorOutput(anchor) && k.face == INACTIVE
    requires clip.Some? ==> WellFormed(clip.value)
    requires if clip.None? then k.primitive == INACTIVE
             else k.primitive.additive
                  && k.primitive.value == Sample(Fitted(clip.value, Context(Some(anchor), Some(l))), t)
    requires Holds(k.away, l) && Holds(k.nod, l) && Holds(k.task, l) && Holds(k.startup, l)
    ensures var layers := Sorted(Listed(k));
            (forall i :: 0 <= i < |layers| ==> Whole(layers[i].out)) && l.lo <= BlendAll(rest, Outs(layers))[0] <= l.hi
  {
    if clip.Some? { FittedSampleIsSafe(clip.value, anchor, l, t); }
    hide Sorted, Listed, Stack, Sample, Fitted, Alpha, Insert, Anchored, Holds, AnchorOutput, BlendAll;
    RuntimeOrder(k);
    StackIsAnchored(k, anchor, l);
    BlendedYawIsSafe(rest, Stack(k), 2, anchor, l.lo, l.hi);
  }

  lemma StackIsAnchored(k: Tick, anchor: real, l: Limits)
    requires AllWhole(k) && k.orientation == AnchorOutput(anchor) && k.face == INACTIVE
    requires k.primitive == INACTIVE || (k.primitive.additive && l.lo <= anchor + k.primitive.value[0] <= l.hi)
    requires Holds(k.away, l) && Holds(k.nod, l) && Holds(k.task, l) && Holds(k.startup, l)
    ensures Anchored(Stack(k), 2, anchor, l.lo, l.hi)
    ensures forall i :: 0 <= i < |Stack(k)| ==> Whole(Stack(k)[i].out)
  {
    InactiveClaimsNothing();
    AnchorClaimsYaw(anchor);
    hide Alpha;
  }

  lemma InactiveClaimsNothing()
    ensures Alpha(INACTIVE, 0) == 0.0
  {}

  /** What a layer puts out that has faded out, whatever pose it still holds. */
  lemma FadedHolds(o: LayerOutput, l: Limits)
    requires Whole(o) && o.gain == 0.0
    ensures Holds(o, l)
  {}

  lemma AnchorClaimsYaw(anchor: real)
    ensures Alpha(AnchorOutput(anchor), 0) == 1.0
  {}

  // ----- the yaw limits of the step -----------------------------------------------

  /** The limits that the runtime asks for: the safe ones, opened as far as the present
      position needs. */
  function YawLimits(safe: Limits, pos: real): Limits { Limits(Min(safe.lo, pos), Max(safe.hi, pos)) }

  function AnchoredStep(j: Joint, target: real, safe: Limits, d: Drive, sqrt: real -> real): Joint
    requires Sound(d)
  {
    LimitedStep(j, target, YawLimits(safe, j.pos), d, sqrt)
  }

  /** A step in those limits never moves farther out of the safe interval, and the next
      one cannot fail. */
  lemma AnchoredStepKeeps(j: Joint, target: real, safe: Limits, d: Drive, sqrt: real -> real)
    requires IsSqrt(sqrt) && Sound(d) && safe.lo <= safe.hi && Feasible(j, YawLimits(safe, j.pos), d, sqrt)
    ensures var j' := AnchoredStep(j, target, safe, d, sqrt);
            && YawLimits(safe, j.pos).lo <= j'.pos <= YawLimits(safe, j.pos).hi
            && Viable(j', YawLimits(safe, j'.pos), d)
            && Feasible(j', YawLimits(safe, j'.pos), d, sqrt)
  {
    var l := YawLimits(safe, j.pos);
    var j' := AnchoredStep(j, target, safe, d, sqrt);
    StepIsViable(j, target, l, d, sqrt);
    MovesWithSpeed(j, target, l, d, sqrt);
    hide LimitedStep, AnchoredStep, Feasible, IsSqrt;
    NarrowedStaysViable(j.pos, j', safe, d);
    ViableIsFeasible(j', YawLimits(safe, j'.pos), d, sqrt);
  }

  lemma MovesWithSpeed(j: Joint, target: real, l: Limits, d: Drive, sqrt: real -> real)
    requires Sound(d)
    ensures var j' := LimitedStep(j, target, l, d, sqrt);
            && (j'.pos > j.pos ==> j'.vel > 0.0) && (j'.pos < j.pos ==> j'.vel < 0.0)
            && (j'.pos == j.pos ==> j'.vel == 0.0)
  {
    hide WantedVel, AllowedLo, AllowedHi, Over;
    var v := LimitedStep(j, target, l, d, sqrt).vel;
    assert LimitedStep(j, target, l, d, sqrt).pos == j.pos + v * d.h;
    hide LimitedStep;
    SignOfProduct(v, d.h);
  }

  lemma SignOfProduct(v: real, h: real)
    requires h > 0.0
    ensures v > 0.0 <==> v * h > 0.0
    ensures v < 0.0 <==> v * h < 0.0
  {
    CancelMul(h, v, 0.0);
    CancelMul(h, 0.0, v);
  }

  /** Where the limits close in, they do so behind a joint that is moving away from them. */
  lemma NarrowedStaysViable(pos: real, j: Joint, safe: Limits, d: Drive)
    requires Sound(d) && safe.lo <= safe.hi && Viable(j, YawLimits(safe, pos), d)
    requires (j.pos > pos ==> j.vel > 0.0) && (j.pos < pos ==> j.vel < 0.0) && (j.pos == pos ==> j.vel == 0.0)
    ensures Viable(j, YawLimits(safe, j.pos), d)
  {
    hide CanBrake;
    var l, l' := YawLimits(safe, pos), YawLimits(safe, j.pos);
    assert l'.hi == l.hi || j.vel <= 0.0;
    assert l'.lo == l.lo || j.vel >= 0.0;
    NoBrakingNeeded(j.vel, l'.hi - j.pos, d);
    NoBrakingNeeded(-j.vel, j.pos - l'.lo, d);
  }

  lemma NoBrakingNeeded(vel: real, room: real, d: Drive)
    ensures vel <= 0.0 ==> CanBrake(vel, room, d)
  {}

  function AnchoredRun(j: Joint, targets: seq<real>, safe: Limits, d: Drive, sqrt: real -> real): Joint
    requires Sound(d)
  {
    if targets == [] then j
    else AnchoredStep(AnchoredRun(j, targets[..|targets| - 1], safe, d, sqrt), targets[|targets| - 1], safe, d, sqrt)
  }

  /** Once a first step with the anchor set succeeds, no later one fails, the yaw never
      gets farther from the safe interval, and once inside it stays inside. */
  lemma {:induction false} AnchoredRunIsSafe(j: Joint, targets: seq<real>, safe: Limits, d: Drive, sqrt: real -> real)
    requires IsSqrt(sqrt) && Sound(d) && safe.lo <= safe.hi && Feasible(j, YawLimits(safe, j.pos), d, sqrt)
    ensures var j' := AnchoredRun(j, targets, safe, d, sqrt);
            && Feasible(j', YawLimits(safe, j'.pos), d, sqrt)
            && YawLimits(safe, j.pos).lo <= j'.pos <= YawLimits(safe, j.pos).hi
  {
    if targets != [] {
      var n := |targets| - 1;
      AnchoredRunIsSafe(j, targets[..n], safe, d, sqrt);
      AnchoredStepKeeps(AnchoredRun(j, targets[..n], safe, d, sqrt), targets[n], safe, d, sqrt);
      hide AnchoredStep, Feasible, IsSqrt, Viable;
    }
  }

  /** Exactly when that first step succeeds. */
  lemma FirstAnchoredStepIff(j: Joint, safe: Limits, d: Drive, sqrt: real -> real)
    requires IsSqrt(sqrt) && Sound(d) && safe.lo <= safe.hi && -d.vmax <= j.vel <= d.vmax
    ensures Feasible(j, YawLimits(safe, j.pos), d, sqrt)
       <==> Stoppable(j.vel, Max(safe.hi, j.pos) - j.pos, d) && Stoppable(-j.vel, j.pos - Min(safe.lo, j.pos), d)
  {
    hide Feasible, Stoppable, IsSqrt;
    FeasibleIff(j, YawLimits(safe, j.pos), d, sqrt);
  }

  /** Limits opened by a margin at both ends. */
  function Widened(safe: Limits, margin: real): Limits { Limits(safe.lo - margin, safe.hi + margin) }

  /** The speed that the margin lets a joint have at the edge of the safe interval is lost
      in one period. */
  predicate MarginIsHarmless(margin: real, d: Drive) {
    2.0 * d.amax * margin <= Gain(d) * Gain(d) || d.vmax <= Gain(d)
  }

  /** Exactly when that first step succeeds from every state that is viable for the hard
      limits, which a margin separates from the safe interval. */
  lemma AnchoringSucceedsIff(safe: Limits, margin: real, d: Drive, sqrt: real -> real)
    requires IsSqrt(sqrt) && Sound(d) && safe.lo <= safe.hi && margin >= 0.0
    ensures (forall j | Viable(j, Widened(safe, margin), d) :: Feasible(j, YawLimits(safe, j.pos), d, sqrt))
       <==> MarginIsHarmless(margin, d)
  {
    hide Feasible, IsSqrt, Viable, MarginIsHarmless;
    if MarginIsHarmless(margin, d) {
      forall j | Viable(j, Widened(safe, margin), d) ensures Feasible(j, YawLimits(safe, j.pos), d, sqrt) {
        HarmlessMargin(j, safe, margin, d, sqrt);
      }
    } else {
      EdgeIsUnfit(safe, margin, d, sqrt);
      var j := Edge(safe, margin, d, sqrt);
      assert Viable(j, Widened(safe, margin), d) && !Feasible(j, YawLimits(safe, j.pos), d, sqrt);
    }
  }

  /** The fastest joint at the edge of the safe interval that can stop in the margin. */
  function Edge(safe: Limits, margin: real, d: Drive, sqrt: real -> real): Joint {
    Joint(safe.hi, EdgeSpeed(margin, d, sqrt), 0.0)
  }

  function EdgeSpeed(margin: real, d: Drive, sqrt: real -> real): real {
    Min(d.vmax, sqrt(BrakeRoom(margin, d)))
  }

  lemma EdgeIsUnfit(safe: Limits, margin: real, d: Drive, sqrt: real -> real)
    requires IsSqrt(sqrt) && Sound(d) && safe.lo <= safe.hi && margin >= 0.0 && !MarginIsHarmless(margin, d)
    ensures var j := Edge(safe, margin, d, sqrt);
            Viable(j, Widened(safe, margin), d) && !Feasible(j, YawLimits(safe, j.pos), d, sqrt)
  {
    var j := Edge(safe, margin, d, sqrt);
    hide Feasible, IsSqrt, Stoppable, Gain, CanBrake, MarginIsHarmless, EdgeSpeed;
    EdgeSpeedFacts(margin, d, sqrt);
    FirstAnchoredStepIff(j, safe, d, sqrt);
    assert Widened(safe, margin).hi - j.pos == margin;
    NoBrakingNeeded(-j.vel, j.pos - Widened(safe, margin).lo, d);
  }

  lemma EdgeSpeedFacts(margin: real, d: Drive, sqrt: real -> real)
    requires IsSqrt(sqrt) && Sound(d) && margin >= 0.0 && !MarginIsHarmless(margin, d)
    ensures var v := EdgeSpeed(margin, d, sqrt);
            0.0 < v <= d.vmax && CanBrake(v, margin, d) && !Stoppable(v, 0.0, d)
  {
    var room, root, gain := BrakeRoom(margin, d), sqrt(BrakeRoom(margin, d)), Gain(d);
    MulPos(d.amax, d.h);
    MulMono(0.0, margin, 2.0 * d.amax);
    assert room >= 0.0 && root >= 0.0 && root * root == room && 0.0 < gain < d.vmax && room > gain * gain;
    hide IsSqrt, BrakeRoom, Gain;
    EdgeIsFast(d.vmax, root, gain);
    BrakesInTheMargin(EdgeSpeed(margin, d, sqrt), margin, d);
  }

  function BrakeRoom(margin: real, d: Drive): real { 2.0 * d.amax * margin }

  lemma BrakesInTheMargin(v: real, margin: real, d: Drive)
    requires v > Gain(d) && v * v > Gain(d) * Gain(d) && v * v <= BrakeRoom(margin, d)
    ensures CanBrake(v, margin, d) && !Stoppable(v, 0.0, d)
  {}

  lemma EdgeIsFast(vmax: real, root: real, gain: real)
    requires root >= 0.0 && vmax > gain > 0.0 && root * root > gain * gain
    ensures var v := Min(vmax, root); gain < v && v * v <= root * root && v * v > gain * gain
  {
    SquaresOrdered(root, gain);
    SquaresOrdered(Min(vmax, root), root);
    SquaresGrow(gain, Min(vmax, root));
  }

  lemma SquaresOrdered(a: real, b: real)
    requires a >= 0.0
    ensures a <= b ==> a * a <= b * b
  {
    if a < b { SquaresGrow(a, b); }
  }

  lemma SquaresGrow(a: real, b: real)
    requires 0.0 <= a < b
    ensures a * a < b * b
  {
    assert b * b - a * a == (b - a) * (b + a);
    MulPos(b - a, b + a);
  }

  lemma HarmlessMargin(j: Joint, safe: Limits, margin: real, d: Drive, sqrt: real -> real)
    requires IsSqrt(sqrt) && Sound(d) && safe.lo <= safe.hi && margin >= 0.0 && MarginIsHarmless(margin, d)
    requires Viable(j, Widened(safe, margin), d)
    ensures Feasible(j, YawLimits(safe, j.pos), d, sqrt)
  {
    StopsInTheMargin(j.vel, safe.hi - j.pos, margin, d);
    StopsInTheMargin(-j.vel, j.pos - safe.lo, margin, d);
    hide Feasible, IsSqrt, Stoppable, CanBrake;
    FirstAnchoredStepIff(j, safe, d, sqrt);
  }

  /** `room` is what is left of the safe interval, negative in the margin. */
  lemma StopsInTheMargin(vel: real, room: real, margin: real, d: Drive)
    requires Sound(d) && margin >= 0.0 && MarginIsHarmless(margin, d)
    requires vel <= d.vmax && CanBrake(vel, room + margin, d)
    ensures Stoppable(vel, Max(room, 0.0), d)
  {
    MulPos(d.amax, d.h);
    if vel > Gain(d) {
      assert 2.0 * d.amax * (room + margin) == 2.0 * d.amax * room + 2.0 * d.amax * margin;
      MulMono(room, Max(room, 0.0), 2.0 * d.amax);
    }
  }

  /** With the speed and acceleration limits of the base joint and the control period, it
      can fail for every margin above 0.0006 radians, far less than the five degrees used. */
  lemma FirstAnchoredStepCanFail(safe: Limits, margin: real, sqrt: real -> real)
    requires IsSqrt(sqrt) && safe.lo <= safe.hi && margin > 0.0006
    ensures exists j :: Viable(j, Widened(safe, margin), BASE_YAW)
                        && !Feasible(j, YawLimits(safe, j.pos), BASE_YAW, sqrt)
  {
    assert !MarginIsHarmless(margin, BASE_YAW);
    hide Feasible, Viable, IsSqrt, MarginIsHarmless;
    AnchoringSucceedsIff(safe, margin, BASE_YAW, sqrt);
  }

  const BASE_YAW: Drive := Drive(3.0, 12.0, 0.01)

  // ----- runs in which the limits come and go ---------------------------------------

  /** One tick of the yaw: `narrow` while an anchor is set and no task light is held. */
  datatype YawTick = YawTick(target: real, narrow: bool)

  /** The yaw joint with its hard limits and the safe ones inside them. */
  datatype Yaw = Yaw(hard: Limits, safe: Limits, d: Drive, sqrt: real -> real)

  ghost predicate Proper(y: Yaw) {
    && IsSqrt(y.sqrt) && Sound(y.d)
    && y.hard.lo <= y.safe.lo <= y.safe.hi <= y.hard.hi
  }

  function TickLimits(j: Joint, narrow: bool, y: Yaw): Limits {
    if narrow then YawLimits(y.safe, j.pos) else y.hard
  }

  ghost predicate Fails(j: Joint, narrow: bool, y: Yaw)
    requires Sound(y.d)
  {
    !Feasible(j, TickLimits(j, narrow, y), y.d, y.sqrt)
  }

  /** A tick that fails raises and leaves the joint as it was. */
  ghost function Ticked(j: Joint, k: YawTick, y: Yaw): Joint
    requires Sound(y.d)
  {
    if Fails(j, k.narrow, y) then j else LimitedStep(j, k.target, TickLimits(j, k.narrow, y), y.d, y.sqrt)
  }

  ghost function TickedAll(j: Joint, ks: seq<YawTick>, y: Yaw): Joint
    requires Sound(y.d)
  {
    if ks == [] then j else Ticked(TickedAll(j, ks[..|ks| - 1], y), ks[|ks| - 1], y)
  }

  /** The joint can stop in what is left of the safe interval, or its speed is lost in one
      period. */
  predicate CanAnchor(j: Joint, safe: Limits, d: Drive) {
    && Stoppable(j.vel, Max(safe.hi, j.pos) - j.pos, d)
    && Stoppable(-j.vel, j.pos - Min(safe.lo, j.pos), d)
  }

  /** Which ticks fail. */
  lemma FailsIff(j: Joint, narrow: bool, y: Yaw)
    requires Proper(y) && Viable(j, y.hard, y.d)
    ensures Fails(j, narrow, y) <==> narrow && !CanAnchor(j, y.safe, y.d)
  {
    hide IsSqrt, Feasible, Stoppable;
    FirstAnchoredStepIff(j, y.safe, y.d, y.sqrt);
    ViableIsFeasible(j, y.hard, y.d, y.sqrt);
  }

  lemma TickedStaysViable(j: Joint, k: YawTick, y: Yaw)
    requires Proper(y) && Viable(j, y.hard, y.d)
    ensures Viable(Ticked(j, k, y), y.hard, y.d)
    ensures !Fails(j, k.narrow, y) && k.narrow ==> !Fails(Ticked(j, k, y), true, y)
  {
    var l := TickLimits(j, k.narrow, y);
    assert y.hard.lo <= l.lo && l.hi <= y.hard.hi;
    hide IsSqrt, Feasible, LimitedStep, CanBrake;
    if !Fails(j, k.narrow, y) {
      StepIsViable(j, k.target, l, y.d, y.sqrt);
      WiderIsViable(Ticked(j, k, y), l, y.hard, y.d);
      if k.narrow { AnchoredStepKeeps(j, k.target, y.safe, y.d, y.sqrt); }
    }
  }

  lemma {:induction false} TickedAllIsViable(j: Joint, ks: seq<YawTick>, y: Yaw)
    requires Proper(y) && Viable(j, y.hard, y.d)
    ensures Viable(TickedAll(j, ks, y), y.hard, y.d)
  {
    hide Viable, Ticked, IsSqrt;
    if ks != [] {
      var n := |ks| - 1;
      TickedAllIsViable(j, ks[..n], y);
      TickedStaysViable(TickedAll(j, ks[..n], y), ks[n], y);
    }
  }

  /** In every run over ticks with and without the safe limits, a tick fails exactly when
      the safe limits apply and the joint cannot stop in them; a tick that follows one with
      the safe limits fails exactly when that one did. So only the first tick after the
      limits were wider decides. */
  lemma YawRunIsSafe(j: Joint, ks: seq<YawTick>, k: YawTick, next: YawTick, y: Yaw)
    requires Proper(y) && Viable(j, y.hard, y.d)
    ensures var s := TickedAll(j, ks, y);
            && Viable(s, y.hard, y.d)
            && (Fails(s, k.narrow, y) <==> k.narrow && !CanAnchor(s, y.safe, y.d))
    ensures var s, s' := TickedAll(j, ks, y), TickedAll(j, ks + [k], y);
            k.narrow && next.narrow ==> (Fails(s', next.narrow, y) <==> Fails(s, k.narrow, y))
  {
    assert (ks + [k])[..|ks|] == ks;
    TickedAllIsViable(j, ks, y);
    var s := TickedAll(j, ks, y);
    FailsIff(s, k.narrow, y);
    TickedStaysViable(s, k, y);
    hide Proper, Viable, CanAnchor, Fails;
  }
}

/** The runtime's tick as an object: anchor, gesture, blend, and the limited trajectory
    step, composed in the order of the code. */
module MotionRuntime {
  import opened Blender
  import opened Options
  import opened Poses
  import opened PrimitiveLayers
  import opened Primitives
  import opened RealMath
  import opened SafeYaw
  import opened Tracker
  import O = Orientation
  import T = Trajectory

  /** How a tick ends. `Moved` carries the blended target with the outputs it was blended
      from, and the command sent. */
  datatype Reply = Moved(target: Pose, command: Pose, trace: Tick) | NoStep(error: T.Error) | BadMeasurement

  /** What a runtime is built from: poses, orientation settings, the alignment's hard limits,
      the drives with the control period, and the recordings. */
  datatype Plan = Plan(
    rest: Pose, initial: Option<Pose>, home: Option<Pose>, hold: bool,
    orientation: O.Config, hard: seq<Limits>, vmax: seq<real>, amax: seq<real>, dt: real,
    sqrt: real -> real, claim: Claim, library: Library)

  datatype BuildError =
    BadInitialPose | BadHomePose | HomeWithoutHold | BadOrientation | BadTrajectory(error: T.Error)

  datatype Built = Ready(runtime: Runtime) | Refused(error: BuildError)

  /** Looks up a recording by name and scale, or raises. */
  type Library = (string, Option<Pose>) -> Option<Primitive>

  ghost predicate Loads(library: Library) {
    forall name, scale :: library(name, scale).Some? ==> WellFormed(library(name, scale).value)
  }

  /** The parameters that the source never checks. */
  ghost predicate Usable(p: Plan) {
    && |p.rest| == |p.hard| == |p.vmax| == |p.amax| == NJ
    && (forall i :: 0 <= i < NJ ==> p.vmax[i] > 0.0 && p.amax[i] > 0.0)
    && IsSqrt(p.sqrt) && p.claim.span > 0.0 && Loads(p.library)
  }

  function InitialPose(p: Plan): Pose { if p.initial.Some? then p.initial.value else p.rest }

  function HomePose(p: Plan): Pose { if p.home.Some? then p.home.value else InitialPose(p) }

  /** The arm that holds its initial pose returns to the yaw of its home pose, clipped into
      the safe range. */
  function OrientationFor(p: Plan): O.Config
    requires |HomePose(p)| == NJ && |p.hard| == NJ
  {
    if p.hold then
      p.orientation.(center := Clip(HomePose(p)[0], p.hard[0].lo + p.orientation.margin,
                                    p.hard[0].hi - p.orientation.margin))
    else p.orientation
  }

  predicate Spread(hard: seq<Limits>) { forall i :: 0 <= i < |hard| ==> hard[i].lo < hard[i].hi }

  /** The first check that fails. */
  function Objection(p: Plan): Option<BuildError>
    requires |p.hard| == NJ
  {
    if |InitialPose(p)| != NJ then Some(BadInitialPose)
    else if |HomePose(p)| != NJ then Some(BadHomePose)
    else if p.home.Some? && !p.hold then Some(HomeWithoutHold)
    else if !Spread(p.hard) || O.SafeRange(OrientationFor(p), p.hard[0].lo, p.hard[0].hi).None? then
      Some(BadOrientation)
    else if p.dt <= 0.0 then Some(BadTrajectory(T.BadPeriod))
    else if !T.InLimits(InitialPose(p), Some(p.hard)) then Some(BadTrajectory(T.OutsideLimits))
    else None
  }

  /** A held home pose never makes the orientation settings unacceptable, wherever its yaw
      is: only the thresholds and the margin count. */
  lemma HomeYawIsNoObjection(p: Plan)
    requires |p.hard| == NJ && |HomePose(p)| == NJ && p.hold && Spread(p.hard)
    ensures var c, lo, hi := p.orientation, p.hard[0].lo, p.hard[0].hi;
            O.SafeRange(OrientationFor(p), lo, hi).Some? <==>
              && c.margin >= 0.0 && lo + c.margin < hi - c.margin
              && c.deadband > 0.0 && c.settleError > 0.0 && c.settleVelocity > 0.0
              && c.settleDuration > 0.0 && c.acquireTimeout > 0.0 && c.disconnectHold > 0.0
  {}

  // ----- the limits of a step -------------------------------------------------------

  /** The limits of the trajectory step: the hard ones, with the yaw narrowed to the safe
      range as far as the present position allows. */
  function StepLimits(hard: seq<Limits>, safe: Limits, pos: real): (l: seq<Limits>)
    requires |hard| == NJ
    ensures |l| == NJ && l[0] == YawLimits(safe, pos)
    ensures forall i :: 0 < i < NJ ==> l[i] == hard[i]
  {
    hard[0 := YawLimits(safe, pos)]
  }

  /** The safe yaw range lies inside hard limits that leave every joint some room. */
  predicate Nested(hard: seq<Limits>, safe: Limits)
    requires |hard| == NJ
  {
    Spread(hard) && hard[0].lo <= safe.lo < safe.hi <= hard[0].hi
  }

  /** Cutting them to the hard limits changes nothing. */
  lemma StepLimitsAreWithin(hard: seq<Limits>, safe: Limits, pos: real)
    requires |hard| == NJ && Nested(hard, safe) && hard[0].lo <= pos <= hard[0].hi
    ensures T.StepBounds(Some(StepLimits(hard, safe, pos)), Some(hard)) == Some(StepLimits(hard, safe, pos))
    ensures !T.HasEmpty(StepLimits(hard, safe, pos))
  {
    var l := StepLimits(hard, safe, pos);
    var b := T.StepBounds(Some(l), Some(hard)).value;
    forall i | 0 <= i < NJ ensures b[i] == l[i] && l[i].lo < l[i].hi {
      assert b[i] == T.Narrowed(l[i], hard[i]);
    }
    assert b == l;
  }

  /** From a viable state only the yaw can refuse a step with a safe range, and exactly when
      it cannot stop in that range. */
  lemma AnchoredRefusal(s: seq<Joint>, dt: Option<real>, safe: Limits, g: T.Rig)
    requires T.WellBuilt(g) && |s| == NJ && g.hard.Some? && Nested(g.hard.value, safe)
    requires T.AllViable(s, g.hard, g) && T.GoodPeriod(dt, g.dt)
    ensures T.Refusal(s, dt, Some(StepLimits(g.hard.value, safe, s[0].pos)), g)
         == if CanAnchor(s[0], safe, T.DriveOf(g, 0)) then None else Some(T.Infeasible)
  {
    var hard, d := g.hard.value, T.DriveOf(g, 0);
    var l := StepLimits(hard, safe, s[0].pos);
    assert Viable(s[0], hard[0], d);
    StepLimitsAreWithin(hard, safe, s[0].pos);
    FirstAnchoredStepIff(s[0], safe, d, g.sqrt);
    hide T.HasEmpty, T.StepBounds, StepLimits, CanBrake, Feasible, IsSqrt, Stoppable;
    forall i | 0 < i < NJ ensures Feasible(s[i], l[i], T.DriveOf(g, i), g.sqrt) {
      assert Viable(s[i], hard[i], T.DriveOf(g, i));
      ViableIsFeasible(s[i], hard[i], T.DriveOf(g, i), g.sqrt);
    }
    assert T.AllFeasible(s, Some(l), g) <==> Feasible(s[0], l[0], d, g.sqrt);
  }

  /** A step taken in a safe range leaves a yaw that can stop in it. */
  lemma AnchoredStepLeavesRoom(s: seq<Joint>, target: Pose, safe: Limits, g: T.Rig)
    requires T.WellBuilt(g) && |s| == |target| == NJ && g.hard.Some? && Nested(g.hard.value, safe)
    requires T.AllViable(s, g.hard, g) && CanAnchor(s[0], safe, T.DriveOf(g, 0))
    ensures var l := Some(StepLimits(g.hard.value, safe, s[0].pos));
            CanAnchor(T.AllStep(s, target, T.StepBounds(l, g.hard), g)[0], safe, T.DriveOf(g, 0))
  {
    var hard, d := g.hard.value, T.DriveOf(g, 0);
    assert Viable(s[0], hard[0], d);
    StepLimitsAreWithin(hard, safe, s[0].pos);
    FirstAnchoredStepIff(s[0], safe, d, g.sqrt);
    hide T.HasEmpty, T.StepBounds, CanBrake, Feasible, IsSqrt, Stoppable, LimitedStep;
    AnchoredStepKeeps(s[0], target[0], safe, d, g.sqrt);
    FirstAnchoredStepIff(AnchoredStep(s[0], target[0], safe, d, g.sqrt), safe, d, g.sqrt);
  }

  // ----- the runtime ----------------------------------------------------------------

  /** The anchor's output in a tick. */
  function OrientationOutput(target: Option<real>): LayerOutput {
    if target.None? then INACTIVE else AnchorOutput(target.value)
  }

  /** Nothing above the primitive takes the yaw out of the safe limits. */
  predicate OthersSafe(k: Tick, safe: Limits)
    requires AllWhole(k)
  {
    k.face == INACTIVE && Holds(k.away, safe) && Holds(k.nod, safe) && Holds(k.task, safe) && Holds(k.startup, safe)
  }

  /** A pose is the blend of a tick's outputs, idle lowest and start-up highest. */
  predicate BlendOf(q: Pose, rest: Pose, k: Tick)
    requires |rest| == NJ && AllWhole(k)
  {
    q == BlendAll(rest, Outs(Stack(k)))
  }

  /** The limits that the trajectory step of a tick is given. */
  function NarrowFor(anchored: bool, hard: seq<Limits>, safe: Limits, pos: real): T.Bounds
    requires |hard| == NJ
  {
    if anchored then Some(StepLimits(hard, safe, pos)) else None
  }

  const NOD: string := "nod"
  const NOD_WRIST_GAIN: real := 2.0
  const DEFAULT_SCALE: Pose := [0.35, 0.12, 0.15, 0.35, 0.25]

  /** The scale a clip is loaded with: a nod moves the wrist alone, twice as far. */
  function LoadScale(name: string, scale: Option<Pose>): (r: Option<Pose>)
    requires name == NOD && scale.Some? ==> |scale.value| == NJ
    ensures name != NOD ==> r == scale
    ensures name == NOD ==> r.Some? && |r.value| == NJ && r.value[..4] == [0.0, 0.0, 0.0, 0.0]
    ensures name == NOD && scale.Some? ==> r.value[4] == 2.0 * scale.value[4]
    ensures name == NOD && scale.None? ==> r.value[4] == 0.5
  {
    if name != NOD then scale
    else
      var wrist := if scale.Some? then scale.value[4] else DEFAULT_SCALE[4];
      Some([0.0, 0.0, 0.0, 0.0, wrist * NOD_WRIST_GAIN])
  }

  datatype Play = BadScale | Answered(reply: PlayReply)

  class Runtime {
    const orientation: O.BaseYawOrientationLayer
    const control: O.OrientationCoordinator
    const primitive: PrimitiveLayer
    const nodHold: NodHoldLayer
    const traj: T.TrajectoryGenerator
    const rest: Pose
    const library: Library
    var t: real
    var measured: Pose

    ghost function Safe(): Limits { Limits(orientation.range.low, orientation.range.high) }

    /** The joints can always stop inside the hard limits. */
    ghost predicate Valid()
      reads this, orientation, control, primitive, nodHold, traj
    {
      && control.layer == orientation && control.Valid()
      && primitive.Valid() && nodHold.Valid() && Loads(library)
      && traj.Valid() && traj.g.hard.Some? && Nested(traj.g.hard.value, Safe())
      && T.AllViable(traj.Joints(), traj.g.hard, traj.g)
      && |rest| == |measured| == NJ
    }

    constructor (control: O.OrientationCoordinator, primitive: PrimitiveLayer, traj: T.TrajectoryGenerator,
                 rest: Pose, library: Library)
      requires control.Valid() && primitive.Valid() && |rest| == NJ && Loads(library)
      requires traj.Valid() && traj.g.hard.Some? && T.AllViable(traj.Joints(), traj.g.hard, traj.g)
      requires Nested(traj.g.hard.value, Limits(control.layer.range.low, control.layer.range.high))
      ensures Valid() && this.control == control && this.primitive == primitive && this.traj == traj
      ensures this.rest == rest && this.library == library && fresh(nodHold)
      ensures t == 0.0 && measured == traj.pos
    {
      this.orientation, this.control, this.primitive, this.traj := control.layer, control, primitive, traj;
      this.nodHold := new NodHoldLayer();
      this.rest, this.library := rest, library;
      t, measured := 0.0, traj.pos;
    }

    /** The fit that goes with an anchor. */
    ghost function FitFor(anchor: Option<real>): Context {
      Context(anchor, if anchor.Some? then Some(Safe()) else None)
    }

    /** A gesture starts fitted to the anchor of the moment; a nod that moves the wrist also
        makes the other joints hold still where they are. A request that is refused changes
        nothing. */
    method PlayPrimitive(name: string, scale: Option<Pose>) returns (play: Play)
      requires Valid()
      modifies primitive, nodHold
      ensures Valid()
      ensures play.BadScale? <==> name == NOD && scale.Some? && |scale.value| != NJ
      ensures play.Answered? ==>
                var found := library(name, LoadScale(name, scale));
                && !play.reply.OneWithoutTheOther? && (play.reply.NoClip? <==> found.None?)
                && (found.Some? ==>
                      var fit := FitFor(orientation.targetYaw);
                      var source := Resampled(found.value, primitive.dt);
                      && primitive.source == Some(source) && primitive.clip == Some(Fitted(source, fit))
                      && play.reply == Playing(found.value.name, FactorFor(source, fit))
                      && (nodHold.env.target == 1.0 <==> name == NOD && LoadScale(name, scale).value[4] != 0.0)
                      && (nodHold.env.target == 1.0 ==> nodHold.target == measured))
      ensures play.BadScale? || play.reply.NoClip? ==>
                && primitive.source == old(primitive.source) && primitive.clip == old(primitive.clip)
                && nodHold.env == old(nodHold.env) && nodHold.target == old(nodHold.target)
    {
      if name == NOD && scale.Some? && |scale.value| != NJ { return BadScale; }
      hide Fitted, FactorFor, Resampled, T.AllViable, Nested, O.Accepted, O.Sane;
      var load := LoadScale(name, scale);
      var limits := Limits(orientation.range.low, orientation.range.high);
      var anchor := orientation.targetYaw;
      var reply := primitive.Play(library(name, load), t, Context(anchor, if anchor.Some? then Some(limits) else None));
      if reply.Playing? { HoldDuring(name == NOD && load.value[4] != 0.0); }
      return Answered(reply);
    }

    method HoldDuring(moves: bool)
      requires nodHold.Valid() && |measured| == NJ
      modifies nodHold
      ensures nodHold.Valid() && nodHold.env.target == (if moves then 1.0 else 0.0)
      ensures moves ==> nodHold.target == measured
    {
      if moves { nodHold.Hold(measured); } else { nodHold.Release(); }
    }

    /** Acquiring an anchor refits the gesture that is playing, from its unscaled source. */
    method AcquireOrientation(id: string, yaw: real, now: real, taskBusy: bool) returns (reply: O.Reply)
      requires Valid()
      modifies orientation, control, primitive
      ensures Valid()
      ensures control.State() == O.Next(old(control.State()),
                                        O.Acquire(id, yaw, now, measured[0], taskBusy, traj.vel[0]),
                                        control.cfg, orientation.range)
      ensures reply.Snapshot? && reply.target.Some? && primitive.clip.Some? ==>
                && primitive.source.Some? && WellFormed(primitive.source.value)
                && primitive.clip == Some(Fitted(primitive.source.value, FitFor(reply.target)))
    {
      hide O.Next, Fitted, FactorFor, T.AllViable, Nested;
      reply := control.Acquire(id, yaw, now, measured[0], taskBusy, traj.vel[0]);
      if reply.Snapshot? && reply.target.Some? {
        primitive.RefitYaw(Context(reply.target, Some(Limits(orientation.range.low, orientation.range.high))));
      }
    }

    /** The user talks over the lamp: the gesture fades out in its short release time. The
        task light is an input here. */
    method BargeIn()
      requires Valid()
      modifies primitive
      ensures Valid() && primitive.interrupted && primitive.clip == old(primitive.clip)
      ensures primitive.env == Closing(old(primitive.env), 0.12)
      ensures forall dt: real, n: nat | dt >= 0.0 && Scaled(n as real, dt) >= 0.12 ::
                Closed(SteppedFor(primitive.env, dt, n))
    {
      primitive.Interrupt();
      forall dt: real, n: nat | dt >= 0.0 && Scaled(n as real, dt) >= 0.12
        ensures Closed(SteppedFor(primitive.env, dt, n))
      {
        SilentAfterRelease(primitive.env, dt, n);
      }
    }

    /** The first half of a tick: refit the gesture, let it advance, blend all layers in the
        order of their priorities. A nod that is over lets the other joints go. */
    method Target(others: Tick) returns (q: Pose, trace: Tick)
      requires primitive.Valid() && nodHold.Valid() && traj.g.dt >= 0.0 && |rest| == NJ && AllWhole(others)
      modifies this`t, primitive, nodHold`env
      ensures primitive.Valid() && nodHold.Valid() && |q| == NJ && t == old(t) + traj.g.dt
      ensures trace == others.(orientation := OrientationOutput(orientation.targetYaw), nod := nodHold.Output(),
                              primitive := trace.primitive)
      ensures AllWhole(trace) && BlendOf(q, rest, trace)
      ensures old(primitive.source).None? ==> trace.primitive == INACTIVE
      ensures old(primitive.source).Some? ==>
                && WellFormed(old(primitive.source).value) && trace.primitive.additive
                && trace.primitive.gain == primitive.env.level
                && trace.primitive.value
                   == Sample(Fitted(old(primitive.source).value, FitFor(orientation.targetYaw)), t - old(primitive.t0))
      ensures nodHold.env.level == Stepped(old(nodHold.env), traj.g.dt).level
      ensures primitive.ActiveName() != Some(NOD) ==> nodHold.env.target == 0.0
      ensures (orientation.targetYaw.Some? && Safe().lo <= orientation.targetYaw.value <= Safe().hi
               && OthersSafe(others.(nod := nodHold.Output()), Safe())) ==> Safe().lo <= q[0] <= Safe().hi
    {
      hide Fitted, FactorFor, Sample, BlendAll, Sorted, Listed, Insert;
      var anchor, safe := orientation.targetYaw, Limits(orientation.range.low, orientation.range.high);
      t := t + traj.g.dt;
      var nod := nodHold.Update(traj.g.dt);
      ghost var source, rel := primitive.source, t - primitive.t0;
      var out := Gesture(anchor);
      trace := others.(orientation := OrientationOutput(anchor), nod := nod, primitive := out);
      q := Blend(trace);
      if primitive.ActiveName() != Some(NOD) { nodHold.Release(); }
      if anchor.Some? && safe.lo <= anchor.value <= safe.hi && OthersSafe(others.(nod := nod), safe) {
        hide Holds;
        BlendedYaw(trace, rest, anchor.value, safe, source, rel);
      }
    }

    /** The gesture's part of a tick, fitted to the anchor. */
    method Gesture(anchor: Option<real>) returns (out: LayerOutput)
      requires primitive.Valid() && traj.g.dt >= 0.0
      modifies primitive
      ensures primitive.Valid() && Whole(out)
      ensures old(primitive.source).None? ==> out == INACTIVE
      ensures old(primitive.source).Some? ==>
                && WellFormed(old(primitive.source).value) && out.additive && out.gain == primitive.env.level
                && out.value == Sample(Fitted(old(primitive.source).value, FitFor(anchor)), t - old(primitive.t0))
    {
      hide Fitted, FactorFor, Sample, WeightOf;
      var safe := Limits(orientation.range.low, orientation.range.high);
      primitive.RefitYaw(Context(anchor, if anchor.Some? then Some(safe) else None));
      out := primitive.Update(t, traj.g.dt);
    }

    method Blend(k: Tick) returns (q: Pose)
      requires |rest| == NJ && AllWhole(k)
      ensures |q| == NJ && BlendOf(q, rest, k)
      ensures (forall i :: 0 <= i < |Sorted(Listed(k))| ==> Whole(Sorted(Listed(k))[i].out))
              && q == BlendAll(rest, Outs(Sorted(Listed(k))))
    {
      hide Sorted, Listed, Insert, BlendAll;
      RuntimeOrder(k);
      q := Compute(rest, Outs(Sorted(Listed(k))));
    }

    /** The second half: the trajectory step, in the safe yaw limits while an anchor is set
        and no task light is held. It raises exactly if they apply and the yaw cannot stop in
        them, and once they applied they can apply again. */
    method Move(target: Pose, taskBusy: bool, dt: Option<real>) returns (r: T.Outcome)
      requires traj.Valid() && traj.g.hard.Some? && |target| == NJ && T.GoodPeriod(dt, traj.g.dt)
      requires Nested(traj.g.hard.value, Safe()) && T.AllViable(traj.Joints(), traj.g.hard, traj.g)
      modifies traj
      ensures traj.Valid() && T.AllViable(traj.Joints(), traj.g.hard, traj.g)
      ensures traj.Joints()
           == T.Called(old(traj.Joints()),
                       T.Call(target, dt, NarrowFor(orientation.targetYaw.Some? && !taskBusy, traj.g.hard.value, Safe(),
                                                    old(traj.pos)[0])), traj.g)
      ensures r.Raised? <==> orientation.targetYaw.Some? && !taskBusy && !old(YawCanStop())
      ensures r.Raised? ==> r.error == T.Infeasible
                            && traj.pos == old(traj.pos) && traj.vel == old(traj.vel) && traj.acc == old(traj.acc)
      ensures r.Moved? && orientation.targetYaw.Some? && !taskBusy ==>
                && YawCanStop()
                && YawLimits(Safe(), old(traj.pos)[0]).lo <= traj.pos[0] <= YawLimits(Safe(), old(traj.pos)[0]).hi
    {
      hide T.AllStep, T.AllFeasible, T.AllViable, T.HasEmpty, IsSqrt, CanAnchor, Nested;
      ghost var s := traj.Joints();
      var safe := Limits(orientation.range.low, orientation.range.high);
      var narrow := None;
      if orientation.targetYaw.Some? && !taskBusy {
        narrow := Some(StepLimits(traj.g.hard.value, safe, traj.pos[0]));
        AnchoredRefusal(s, dt, safe, traj.g);
        if YawCanStop() { AnchoredStepLeavesRoom(s, target, safe, traj.g); }
      } else {
        T.HardStepNeverRaises(s, dt, traj.g);
      }
      r := traj.Step(target, dt, narrow);
      if r.Moved? && narrow.Some? { YawIsLimited(traj.Joints(), narrow.value, traj.g); }
    }

    /** The yaw joint loses its speed in one period or can stop in what is left of the safe
        range. */
    ghost predicate YawCanStop()
      requires traj.Valid()
      reads traj
    {
      CanAnchor(traj.Joints()[0], Safe(), T.DriveOf(traj.g, 0))
    }

    /** One tick. The other layers' outputs and the measurement are inputs. */
    method Step(others: Tick, taskBusy: bool, dt: Option<real>, meas: Option<Pose>) returns (reply: Reply)
      requires Valid() && AllWhole(others)
      modifies this, primitive, nodHold, traj
      ensures Valid()
      ensures reply.NoStep? <==>
                !T.GoodPeriod(dt, traj.g.dt) || (orientation.targetYaw.Some? && !taskBusy && !old(YawCanStop()))
      ensures !T.GoodPeriod(dt, traj.g.dt) ==>
                && reply == NoStep(T.BadPeriod) && t == old(t) && measured == old(measured)
                && primitive.clip == old(primitive.clip)
      ensures reply.NoStep? ==> traj.pos == old(traj.pos) && traj.vel == old(traj.vel) && traj.acc == old(traj.acc)
      ensures reply.Moved? ==>
                && reply.command == traj.pos && |reply.target| == |traj.pos| == NJ
                && AllWhole(reply.trace) && BlendOf(reply.target, rest, reply.trace)
                && measured == (if meas.Some? then meas.value else traj.pos)
                && traj.Joints()
                   == T.Called(old(traj.Joints()),
                               T.Call(reply.target, dt,
                                      NarrowFor(orientation.targetYaw.Some? && !taskBusy, traj.g.hard.value, Safe(),
                                                old(traj.pos)[0])), traj.g)
                && reply.trace == others.(orientation := OrientationOutput(orientation.targetYaw),
                                          nod := nodHold.Output(), primitive := reply.trace.primitive)
      ensures !reply.Moved? ==> measured == old(measured)
      ensures T.GoodPeriod(dt, traj.g.dt) ==> t == old(t) + traj.g.dt
      ensures reply.Moved? && old(primitive.source).None? ==> reply.trace.primitive == INACTIVE
      ensures reply.Moved? && old(primitive.source).Some? ==>
                && WellFormed(old(primitive.source).value) && reply.trace.primitive.gain == primitive.env.level
                && reply.trace.primitive.value
                   == Sample(Fitted(old(primitive.source).value, FitFor(orientation.targetYaw)), t - old(primitive.t0))
      ensures reply.Moved? && orientation.targetYaw.Some?
              && OthersSafe(others.(nod := nodHold.Output()), Safe()) ==>
                Safe().lo <= reply.target[0] <= Safe().hi
      ensures !reply.NoStep? && orientation.targetYaw.Some? && !taskBusy ==>
                && YawCanStop()
                && YawLimits(Safe(), old(traj.pos)[0]).lo <= traj.pos[0] <= YawLimits(Safe(), old(traj.pos)[0]).hi
    {
      hide OthersSafe, YawLimits, IsSqrt, T.GoodPeriod, T.AllViable, CanAnchor, Nested, O.Accepted;
      hide BlendOf, T.Called, NarrowFor, Sample, Fitted, WeightOf, FactorFor;
      if !T.GoodPeriod(dt, traj.g.dt) { return NoStep(T.BadPeriod); }
      var target, trace := Target(others);
      var moved := Move(target, taskBusy, dt);
      if moved.Raised? { return NoStep(moved.error); }
      if meas.Some? && |meas.value| != NJ { return BadMeasurement; }
      measured := if meas.Some? then meas.value else traj.pos;
      return Moved(target, traj.pos, trace);
    }
  }

  lemma YawIsLimited(s: seq<Joint>, narrow: seq<Limits>, g: T.Rig)
    requires T.WellBuilt(g) && |s| == |narrow| == NJ && g.hard.Some?
    requires T.AllViable(s, T.StepBounds(Some(narrow), g.hard), g)
    ensures narrow[0].lo <= s[0].pos <= narrow[0].hi
  {
    var b := T.StepBounds(Some(narrow), g.hard).value;
    assert Viable(s[0], b[0], T.DriveOf(g, 0));
    hide T.AllViable, CanBrake;
  }

  /** Builds a runtime at rest in its initial pose, or refuses with the first objection. */
  method Build(p: Plan) returns (built: Built)
    requires Usable(p)
    ensures built.Refused? <==> Objection(p).Some?
    ensures built.Refused? ==> Objection(p) == Some(built.error)
    ensures built.Ready? ==>
              var r := built.runtime;
              && r.Valid() && r.t == 0.0 && r.measured == r.traj.pos == InitialPose(p)
              && T.AtRest(r.traj.Joints(), r.traj.g) && r.traj.g.hard == Some(p.hard)
              && r.rest == (if p.hold then HomePose(p) else p.rest)
              && r.control.cfg == OrientationFor(p) && r.orientation.targetYaw.None?
              && r.primitive.clip.None? && r.primitive.dt == p.dt
  {
    hide IsSqrt;
    var initial, home := InitialPose(p), HomePose(p);
    if |initial| != NJ { return Refused(BadInitialPose); }
    if |home| != NJ { return Refused(BadHomePose); }
    if p.home.Some? && !p.hold { return Refused(HomeWithoutHold); }
    if !Spread(p.hard) { return Refused(BadOrientation); }
    var cfg := OrientationFor(p);
    var layer := O.MakeLayer(cfg, p.hard[0].lo, p.hard[0].hi);
    if layer.None? { return Refused(BadOrientation); }
    var control := new O.OrientationCoordinator(layer.value, cfg);
    var g := T.Rig(p.vmax, p.amax, p.dt, Some(p.hard), p.sqrt);
    var made := T.Make(initial, g);
    if made.Refused? { return Refused(BadTrajectory(made.error)); }
    var primitive := new PrimitiveLayer(p.claim, p.dt);
    var runtime := new Runtime(control, primitive, made.generator, if p.hold then home else p.rest, p.library);
    return Ready(runtime);
  }
}

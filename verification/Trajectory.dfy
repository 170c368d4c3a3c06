/** The trajectory generator over all joints, with the analytic tracker behind it:
    step validation, temporarily tightened limits, and the all-or-nothing step. */
module Trajectory {
  import opened Options
  import opened RealMath
  import opened Tracker

  const NJ: nat := 5
  const STILL: seq<real> := [0.0, 0.0, 0.0, 0.0, 0.0]
  const PERIOD_SLACK: real := 0.000000000001

  datatype Error = OutsideLimits | BadPeriod | BadLimits | EmptyInterval | Infeasible

  datatype Outcome = Moved(pos: seq<real>) | Raised(error: Error)

  /** The parameters of a generator that never change. */
  datatype Rig = Rig(vmax: seq<real>, amax: seq<real>, dt: real, hard: Option<seq<Limits>>, sqrt: real -> real)

  type Bounds = Option<seq<Limits>>

  ghost predicate WellBuilt(g: Rig) {
    && |g.vmax| == |g.amax| == NJ
    && g.dt > 0.0
    && (forall i :: 0 <= i < NJ ==> g.vmax[i] > 0.0 && g.amax[i] > 0.0)
    && (g.hard.Some? ==> |g.hard.value| == NJ)
    && IsSqrt(g.sqrt)
  }

  function DriveOf(g: Rig, i: nat): (d: Drive)
    requires i < |g.vmax| && i < |g.amax|
  {
    Drive(g.vmax[i], g.amax[i], g.dt)
  }

  function Narrowed(l: Limits, hard: Limits): Limits {
    Limits(Max(l.lo, hard.lo), Min(l.hi, hard.hi))
  }

  /** The limits of one step: the requested ones, cut to the hard ones. */
  function StepBounds(narrow: Bounds, hard: Bounds): (b: Bounds)
    requires hard.Some? ==> |hard.value| == NJ
    requires narrow.Some? ==> |narrow.value| == NJ
    ensures b.Some? ==> |b.value| == NJ
  {
    match narrow
    case None => hard
    case Some(n) =>
      if hard.None? then narrow
      else Some(seq(NJ, i requires 0 <= i < NJ => Narrowed(n[i], hard.value[i])))
  }

  predicate GoodPeriod(dt: Option<real>, period: real) {
    dt.Some? ==> Abs(dt.value - period) <= PERIOD_SLACK
  }

  predicate HasEmpty(b: seq<Limits>) {
    exists i :: 0 <= i < |b| && b[i].lo >= b[i].hi
  }

  ghost predicate AllFeasible(s: seq<Joint>, b: Bounds, g: Rig)
    requires WellBuilt(g) && |s| == NJ && (b.Some? ==> |b.value| == NJ)
  {
    b.Some? ==> forall i :: 0 <= i < NJ ==> Feasible(s[i], b.value[i], DriveOf(g, i), g.sqrt)
  }

  ghost predicate AllViable(s: seq<Joint>, b: Bounds, g: Rig)
    requires WellBuilt(g) && |s| == NJ && (b.Some? ==> |b.value| == NJ)
  {
    b.Some? ==> forall i :: 0 <= i < NJ ==> Viable(s[i], b.value[i], DriveOf(g, i))
  }

  /** What one step raises, in the order the checks are made. */
  ghost function Refusal(s: seq<Joint>, dt: Option<real>, narrow: Bounds, g: Rig): Option<Error>
    requires WellBuilt(g) && |s| == NJ
  {
    if !GoodPeriod(dt, g.dt) then Some(BadPeriod)
    else if narrow.Some? && |narrow.value| != NJ then Some(BadLimits)
    else if narrow.Some? && HasEmpty(StepBounds(narrow, g.hard).value) then Some(EmptyInterval)
    else if !AllFeasible(s, StepBounds(narrow, g.hard), g) then Some(Infeasible)
    else None
  }

  function JointStep(j: Joint, target: real, b: Bounds, i: nat, g: Rig): Joint
    requires i < |g.vmax| && i < |g.amax| && Sound(DriveOf(g, i)) && (b.Some? ==> i < |b.value|)
  {
    if b.Some? then LimitedStep(j, target, b.value[i], DriveOf(g, i), g.sqrt)
    else FreeStep(j, target, DriveOf(g, i), g.sqrt)
  }

  ghost function AllStep(s: seq<Joint>, target: seq<real>, b: Bounds, g: Rig): (r: seq<Joint>)
    requires WellBuilt(g) && |s| == |target| == NJ && (b.Some? ==> |b.value| == NJ)
    ensures |r| == NJ
  {
    seq(NJ, i requires 0 <= i < NJ => JointStep(s[i], target[i], b, i, g))
  }

  // ----- one step -----------------------------------------------------------------

  lemma BoundsAreWithin(narrow: Bounds, hard: Bounds, i: nat)
    requires hard.Some? && |hard.value| == NJ && i < NJ
    requires narrow.Some? ==> |narrow.value| == NJ
    ensures var b := StepBounds(narrow, hard);
            b.Some? && hard.value[i].lo <= b.value[i].lo && b.value[i].hi <= hard.value[i].hi
  {}

  /** A step that is taken ends viable for the limits of that step and for the hard
      limits, however far outside of viability it started. */
  lemma TakenStepIsViable(s: seq<Joint>, target: seq<real>, narrow: Bounds, g: Rig)
    requires WellBuilt(g) && |s| == |target| == NJ && (narrow.Some? ==> |narrow.value| == NJ)
    requires AllFeasible(s, StepBounds(narrow, g.hard), g)
    ensures var t := AllStep(s, target, StepBounds(narrow, g.hard), g);
            AllViable(t, StepBounds(narrow, g.hard), g) && AllViable(t, g.hard, g)
  {
    var b := StepBounds(narrow, g.hard);
    var t := AllStep(s, target, b, g);
    forall i | 0 <= i < NJ && b.Some? ensures Viable(t[i], b.value[i], DriveOf(g, i)) {
      hide LimitedStep, Viable, Feasible, IsSqrt;
      StepIsViable(s[i], target[i], b.value[i], DriveOf(g, i), g.sqrt);
    }
    forall i | 0 <= i < NJ && g.hard.Some? ensures Viable(t[i], g.hard.value[i], DriveOf(g, i)) {
      hide Viable, AllStep, Feasible, IsSqrt;
      BoundsAreWithin(narrow, g.hard, i);
      WiderIsViable(t[i], b.value[i], g.hard.value[i], DriveOf(g, i));
    }
  }

  /** Under the hard limits alone a viable state never refuses a step of the right
      period. */
  lemma HardStepNeverRaises(s: seq<Joint>, dt: Option<real>, g: Rig)
    requires WellBuilt(g) && |s| == NJ && AllViable(s, g.hard, g) && GoodPeriod(dt, g.dt)
    ensures Refusal(s, dt, None, g) == None
  {
    forall i | 0 <= i < NJ && g.hard.Some?
      ensures Feasible(s[i], g.hard.value[i], DriveOf(g, i), g.sqrt)
    {
      hide Viable, Feasible, IsSqrt;
      ViableIsFeasible(s[i], g.hard.value[i], DriveOf(g, i), g.sqrt);
    }
  }

  // ----- whole runs ---------------------------------------------------------------

  /** One call of `step`: its target, its period and its temporary limits. */
  datatype Call = Call(target: seq<real>, dt: Option<real>, narrow: Bounds)

  ghost function Called(s: seq<Joint>, c: Call, g: Rig): (r: seq<Joint>)
    requires WellBuilt(g) && |s| == |c.target| == NJ
    ensures |r| == NJ
  {
    if Refusal(s, c.dt, c.narrow, g).Some? then s
    else AllStep(s, c.target, StepBounds(c.narrow, g.hard), g)
  }

  ghost function CalledAll(s: seq<Joint>, calls: seq<Call>, g: Rig): (r: seq<Joint>)
    requires WellBuilt(g) && |s| == NJ && forall c :: c in calls ==> |c.target| == NJ
    ensures |r| == NJ
  {
    if calls == [] then s
    else Called(CalledAll(s, calls[..|calls| - 1], g), calls[|calls| - 1], g)
  }

  ghost predicate AtRest(s: seq<Joint>, g: Rig)
    requires WellBuilt(g) && |s| == NJ
  {
    forall i :: 0 <= i < NJ ==>
      s[i].vel == 0.0 && (g.hard.Some? ==> g.hard.value[i].lo <= s[i].pos <= g.hard.value[i].hi)
  }

  /** From rest, after any calls whatsoever (refused or not, tightened or not, with any
      targets), the joints can still stop inside the hard limits, so a plain step is
      never refused. */
  lemma {:induction false} ReturningToHardLimitsNeverRaises(s: seq<Joint>, calls: seq<Call>, g: Rig)
    requires WellBuilt(g) && |s| == NJ && (forall c :: c in calls ==> |c.target| == NJ) && AtRest(s, g)
    ensures AllViable(CalledAll(s, calls, g), g.hard, g)
    ensures Refusal(CalledAll(s, calls, g), None, None, g) == None
  {
    if calls == [] {
      assert AllViable(s, g.hard, g);
    } else {
      var before, c := calls[..|calls| - 1], calls[|calls| - 1];
      ReturningToHardLimitsNeverRaises(s, before, g);
      assert c in calls;
      var t := CalledAll(s, before, g);
      hide AllViable, AllFeasible, AtRest, AllStep, CalledAll, WellBuilt, HasEmpty, StepBounds;
      if Refusal(t, c.dt, c.narrow, g).None? {
        TakenStepIsViable(t, c.target, c.narrow, g);
      }
      assert AllViable(Called(t, c, g), g.hard, g);
    }
    hide AllViable, Refusal, AtRest, Called;
    HardStepNeverRaises(CalledAll(s, calls, g), None, g);
  }

  // ----- the generator ------------------------------------------------------------

  class TrajectoryGenerator {
    const g: Rig
    var pos: seq<real>
    var vel: seq<real>
    var acc: seq<real>
    var positionLimits: Bounds

    ghost predicate Valid()
      reads this
    {
      && WellBuilt(g)
      && |pos| == |vel| == |acc| == NJ
      && positionLimits == g.hard
    }

    /** The joints, for the specification. */
    ghost function Joints(): (s: seq<Joint>)
      requires Valid()
      reads this
      ensures |s| == NJ
    {
      Zipped(pos, vel, acc)
    }

    constructor (q0: seq<real>, g: Rig)
      requires |q0| == NJ && InLimits(q0, g.hard)
      ensures this.g == g && pos == q0 && vel == acc == STILL && positionLimits == g.hard
      ensures WellBuilt(g) ==> Valid() && AtRest(Joints(), g)
    {
      this.g := g;
      pos := q0;
      vel, acc := STILL, STILL;
      positionLimits := g.hard;
    }

    /** Stops at a pose, or raises and changes nothing. */
    method Reset(q: seq<real>) returns (r: Outcome)
      requires Valid() && |q| == NJ
      modifies this
      ensures Valid()
      ensures r == if InLimits(q, g.hard) then Moved(q) else Raised(OutsideLimits)
      ensures r.Raised? ==> pos == old(pos) && vel == old(vel) && acc == old(acc)
      ensures r.Moved? ==> AtRest(Joints(), g) && pos == q
    {
      if !InLimits(q, positionLimits) { return Raised(OutsideLimits); }
      pos := q;
      vel, acc := STILL, STILL;
      return Moved(q);
    }

    /** Moves all joints by one period, or raises and changes nothing. Either way the
        hard limits are in force again afterwards. */
    method Step(target: seq<real>, dt: Option<real>, narrow: Bounds) returns (r: Outcome)
      requires Valid() && |target| == NJ
      modifies this
      ensures Valid()
      ensures Joints() == Called(old(Joints()), Call(target, dt, narrow), g)
      ensures r.Raised? <==> Refusal(old(Joints()), dt, narrow, g).Some?
      ensures r.Raised? ==> Refusal(old(Joints()), dt, narrow, g) == Some(r.error)
      ensures r.Raised? ==> pos == old(pos) && vel == old(vel) && acc == old(acc)
      ensures r.Moved? ==> r.pos == pos && AllViable(Joints(), StepBounds(narrow, g.hard), g)
      ensures r.Moved? || old(AllViable(Joints(), g.hard, g)) ==> AllViable(Joints(), g.hard, g)
    {
      hide AllViable, AllFeasible, AllStep, HasEmpty, Zipped, IsSqrt;
      if !GoodPeriod(dt, g.dt) { return Raised(BadPeriod); }
      var hard := positionLimits;
      if narrow.Some? {
        if |narrow.value| != NJ { return Raised(BadLimits); }
        var limits := StepBounds(narrow, hard);
        if HasEmpty(limits.value) { return Raised(EmptyInterval); }
        positionLimits := limits;
      }
      ghost var before := Zipped(pos, vel, acc);
      var ok := AnalyticStep(target);
      positionLimits := hard;
      if ok { TakenStepIsViable(before, target, narrow, g); }
      return if ok then Moved(pos) else Raised(Infeasible);
    }

    /** The analytic backend: all next speeds are checked before any state changes. */
    method AnalyticStep(target: seq<real>) returns (ok: bool)
      requires WellBuilt(g) && |pos| == |vel| == |acc| == |target| == NJ
      requires positionLimits.Some? ==> |positionLimits.value| == NJ
      modifies `pos, `vel, `acc
      ensures |pos| == |vel| == |acc| == NJ
      ensures ok <==> AllFeasible(old(Zipped(pos, vel, acc)), positionLimits, g)
      ensures ok ==> Zipped(pos, vel, acc) == AllStep(old(Zipped(pos, vel, acc)), target, positionLimits, g)
      ensures !ok ==> pos == old(pos) && vel == old(vel) && acc == old(acc)
    {
      var s := Zipped(pos, vel, acc);
      var bounds := positionLimits;
      if bounds.Some? && exists i :: 0 <= i < NJ && !Feasible(s[i], bounds.value[i], DriveOf(g, i), g.sqrt) {
        return false;
      }
      var t := seq(NJ, i requires 0 <= i < NJ => JointStep(s[i], target[i], bounds, i, g));
      pos := seq(NJ, i requires 0 <= i < NJ => t[i].pos);
      vel := seq(NJ, i requires 0 <= i < NJ => t[i].vel);
      acc := seq(NJ, i requires 0 <= i < NJ => t[i].acc);
      return true;
    }
  }

  datatype Made = Ready(generator: TrajectoryGenerator) | Refused(error: Error)

  /** Construction raises for a period that is not positive or a pose outside the limits.
      Speed and acceleration limits are taken as they are; a generator whose limits are
      positive starts viable. */
  method Make(q0: seq<real>, g: Rig) returns (m: Made)
    requires |q0| == NJ
    ensures m.Refused? <==> g.dt <= 0.0 || !InLimits(q0, g.hard)
    ensures m.Refused? ==> m.error == if g.dt <= 0.0 then BadPeriod else OutsideLimits
    ensures m.Ready? ==> fresh(m.generator) && m.generator.g == g
                         && m.generator.pos == q0 && m.generator.vel == m.generator.acc == STILL
    ensures m.Ready? && WellBuilt(g) ==>
              m.generator.Valid() && AtRest(m.generator.Joints(), g) && AllViable(m.generator.Joints(), g.hard, g)
  {
    if g.dt <= 0.0 { return Refused(BadPeriod); }
    if !InLimits(q0, g.hard) { return Refused(OutsideLimits); }
    var tg := new TrajectoryGenerator(q0, g);
    return Ready(tg);
  }

  predicate InLimits(q: seq<real>, b: Bounds)
    requires |q| == NJ
  {
    b.Some? ==> |b.value| == NJ && forall i :: 0 <= i < NJ ==> b.value[i].lo <= q[i] <= b.value[i].hi
  }

  function Zipped(pos: seq<real>, vel: seq<real>, acc: seq<real>): (s: seq<Joint>)
    requires |pos| == |vel| == |acc| == NJ
    ensures |s| == NJ
  {
    seq(NJ, i requires 0 <= i < NJ => Joint(pos[i], vel[i], acc[i]))
  }
}

/** One joint of the analytic trajectory tracker: a speed cap that reserves the
    braking distance to the joint limits. */
module Tracker {
  import opened RealMath

  const MARGIN: real := 0.95
  const NEAR: real := 0.02
  const SPRING: real := 0.35

  datatype Joint = Joint(pos: real, vel: real, acc: real)

  datatype Limits = Limits(lo: real, hi: real)

  /** What a joint's drive can do, and the control period. */
  datatype Drive = Drive(vmax: real, amax: real, h: real)

  predicate Sound(d: Drive) { d.vmax > 0.0 && d.amax > 0.0 && d.h > 0.0 }

  /** The speed change that one period allows. */
  function Gain(d: Drive): real { d.amax * d.h }

  // ----- the speed wanted for the target ------------------------------------------

  function CapAccel(e: real, vel: real, d: Drive, sqrt: real -> real): real
    requires Sound(d)
  {
    var cap := sqrt(2.0 * d.amax * Abs(e) * MARGIN);
    var wanted := Clip(Sign(e) * Min(d.vmax, cap), -d.vmax, d.vmax);
    Clip(Over(wanted - vel, d.h), -d.amax, d.amax)
  }

  function SpringAccel(e: real, vel: real, d: Drive): real
    requires Sound(d)
  {
    Clip(SpringPull(e, vel, d), -d.amax, d.amax)
  }

  /** The critically damped spring, before the acceleration limit. */
  function SpringPull(e: real, vel: real, d: Drive): real
    requires Sound(d)
  {
    var w := Over(SPRING, d.h);
    w * w * e - 2.0 * w * vel
  }

  function WantedVel(e: real, vel: real, d: Drive, sqrt: real -> real): real
    requires Sound(d)
  {
    var a := if Abs(e) < NEAR then SpringAccel(e, vel, d) else CapAccel(e, vel, d, sqrt);
    Clip(Faster(vel, a, d), -d.vmax, d.vmax)
  }

  function Faster(vel: real, a: real, d: Drive): real { vel + a * d.h }

  // ----- the speeds the limits allow ----------------------------------------------

  /** Largest speed whose next step and braking distance fit into `room`. */
  function BrakeCap(room: real, d: Drive, sqrt: real -> real): real {
    sqrt(Reserve(room, d)) - Gain(d)
  }

  function Reserve(room: real, d: Drive): real {
    Gain(d) * Gain(d) + 2.0 * d.amax * Max(room, 0.0)
  }

  function AllowedLo(j: Joint, l: Limits, d: Drive, sqrt: real -> real): real
    requires Sound(d)
  {
    Max(Max(j.vel - Gain(d), -d.vmax), Max(-BrakeCap(j.pos - l.lo, d, sqrt), Over(l.lo - j.pos, d.h)))
  }

  function AllowedHi(j: Joint, l: Limits, d: Drive, sqrt: real -> real): real
    requires Sound(d)
  {
    Min(Min(j.vel + Gain(d), d.vmax), Min(BrakeCap(l.hi - j.pos, d, sqrt), Over(l.hi - j.pos, d.h)))
  }

  predicate Feasible(j: Joint, l: Limits, d: Drive, sqrt: real -> real)
    requires Sound(d)
  {
    AllowedLo(j, l, d, sqrt) <= AllowedHi(j, l, d, sqrt)
  }

  function Advance(j: Joint, vel: real, d: Drive): Joint
    requires Sound(d)
  {
    Joint(After(j.pos, vel, d), vel, Over(vel - j.vel, d.h))
  }

  /** The position after one period at a speed. */
  function After(pos: real, vel: real, d: Drive): real { pos + vel * d.h }

  function LimitedStep(j: Joint, target: real, l: Limits, d: Drive, sqrt: real -> real): Joint
    requires Sound(d)
  {
    var wanted := WantedVel(Clip(target, l.lo, l.hi) - j.pos, j.vel, d, sqrt);
    Advance(j, Clip(wanted, AllowedLo(j, l, d, sqrt), AllowedHi(j, l, d, sqrt)), d)
  }

  function FreeStep(j: Joint, target: real, d: Drive, sqrt: real -> real): Joint
    requires Sound(d)
  {
    Advance(j, WantedVel(target - j.pos, j.vel, d, sqrt), d)
  }

  // ----- viability ----------------------------------------------------------------

  /** The braking distance of a speed fits into the room left. */
  ghost predicate CanBrake(vel: real, room: real, d: Drive) {
    vel > 0.0 ==> vel * vel <= 2.0 * d.amax * room
  }

  /** Inside the limits, within the speed limit, and able to stop at either end. */
  ghost predicate Viable(j: Joint, l: Limits, d: Drive) {
    && l.lo <= j.pos <= l.hi
    && -d.vmax <= j.vel <= d.vmax
    && CanBrake(j.vel, l.hi - j.pos, d)
    && CanBrake(-j.vel, j.pos - l.lo, d)
  }

  /** The cap in the code is exactly the speed from which braking still works after
      one more period. */
  lemma BrakeCapIff(room: real, d: Drive, sqrt: real -> real, v: real)
    requires IsSqrt(sqrt) && Sound(d) && v >= -Gain(d)
    ensures BrakeCap(room, d, sqrt) >= 0.0
    ensures v <= BrakeCap(room, d, sqrt) <==> v * v + 2.0 * Gain(d) * v <= 2.0 * d.amax * Max(room, 0.0)
  {
    var ah := Gain(d);
    MulPos(d.amax, d.h);
    MulMono(0.0, Max(room, 0.0), 2.0 * d.amax);
    MulPos(ah, ah);
    var x := Reserve(room, d);
    SqrtAtLeast(sqrt, x, v + ah);
    SqrtAtLeast(sqrt, x, ah);
    assert (v + ah) * (v + ah) == v * v + 2.0 * ah * v + ah * ah;
  }

  /** Any speed the upper bound allows leaves the joint below its limit, slow enough
      to stop there, whatever state it came from. */
  lemma UpperSafe(pos: real, hi: real, v: real, d: Drive, sqrt: real -> real)
    requires IsSqrt(sqrt) && Sound(d)
    requires v <= BrakeCap(hi - pos, d, sqrt) && v <= Over(hi - pos, d.h)
    ensures After(pos, v, d) <= hi && CanBrake(v, hi - After(pos, v, d), d)
  {
    OverIff(v, hi - pos, d.h);
    if v > 0.0 {
      MulPos(d.amax, d.h);
      MulPos(v, d.h);
      BrakeCapIff(hi - pos, d, sqrt, v);
      assert 2.0 * d.amax * (hi - pos - v * d.h) == 2.0 * d.amax * (hi - pos) - 2.0 * (d.amax * d.h) * v;
    }
  }

  /** A moving joint slow enough to lose its speed within a period, or with room
      enough to brake. */
  predicate Stoppable(vel: real, room: real, d: Drive) {
    vel <= Gain(d) || vel * vel <= Gain(d) * Gain(d) + 2.0 * d.amax * room
  }

  /** Braking as hard as possible respects the cap exactly when braking suffices. */
  lemma BrakingRespectsCap(room: real, v: real, d: Drive, sqrt: real -> real)
    requires IsSqrt(sqrt) && Sound(d) && room >= 0.0
    ensures v - Gain(d) <= BrakeCap(room, d, sqrt) <==> Stoppable(v, room, d)
    ensures BrakeCap(room, d, sqrt) >= 0.0
  {
    var ah := Gain(d);
    MulPos(d.amax, d.h);
    BrakeCapIff(room, d, sqrt, 0.0);
    if v > ah {
      BrakeCapIff(room, d, sqrt, v - ah);
      var u := v - ah;
      assert u * u + 2.0 * ah * u == v * v - ah * ah;
    }
  }

  /** Then the step itself also fits into the room. */
  lemma StoppableFits(room: real, v: real, d: Drive)
    requires Sound(d) && room >= 0.0 && Stoppable(v, room, d)
    ensures v - Gain(d) <= Over(room, d.h) && Over(room, d.h) >= 0.0
  {
    var ah := Gain(d);
    var u := v - ah;
    OverIff(u, room, d.h);
    OverIff(0.0, room, d.h);
    if v <= ah { MulMono(u, 0.0, d.h); } else {
      assert u * u >= 0.0;
      assert u * u + 2.0 * ah * u == v * v - ah * ah;
      assert 2.0 * ah * u == 2.0 * d.amax * (u * d.h);
      CancelMul(2.0 * d.amax, u * d.h, room);
    }
  }

  /** Exactly when a step inside limits that contain the joint can be taken. */
  lemma FeasibleIff(j: Joint, l: Limits, d: Drive, sqrt: real -> real)
    requires IsSqrt(sqrt) && Sound(d) && l.lo <= j.pos <= l.hi && -d.vmax <= j.vel <= d.vmax
    ensures Feasible(j, l, d, sqrt) <==>
              Stoppable(j.vel, l.hi - j.pos, d) && Stoppable(-j.vel, j.pos - l.lo, d)
  {
    var up, down := l.hi - j.pos, j.pos - l.lo;
    MulPos(d.amax, d.h);
    assert Gain(d) > 0.0;
    BrakingRespectsCap(up, j.vel, d, sqrt);
    BrakingRespectsCap(down, -j.vel, d, sqrt);
    if Stoppable(j.vel, up, d) { StoppableFits(up, j.vel, d); }
    if Stoppable(-j.vel, down, d) { StoppableFits(down, -j.vel, d); }
    OverIff(0.0, up, d.h);
    OverIff(0.0, down, d.h);
    assert l.lo - j.pos == -down;
    hide Stoppable, BrakeCap, Over, Gain, IsSqrt;
  }

  /** A viable joint can always take its next step: the tracker never gets stuck. */
  lemma ViableIsFeasible(j: Joint, l: Limits, d: Drive, sqrt: real -> real)
    requires IsSqrt(sqrt) && Sound(d) && Viable(j, l, d)
    ensures Feasible(j, l, d, sqrt)
  {
    MulPos(d.amax, d.h);
    MulPos(Gain(d), Gain(d));
    MulMono(0.0, l.hi - j.pos, 2.0 * d.amax);
    MulMono(0.0, j.pos - l.lo, 2.0 * d.amax);
    assert Stoppable(j.vel, l.hi - j.pos, d);
    assert (-j.vel) * (-j.vel) == j.vel * j.vel;
    assert Stoppable(-j.vel, j.pos - l.lo, d);
    hide Stoppable, Feasible, IsSqrt;
    FeasibleIff(j, l, d, sqrt);
  }

  /** A step that can be taken ends viable, whatever state and target it started
      from, and stays within the acceleration limit. */
  lemma StepIsViable(j: Joint, target: real, l: Limits, d: Drive, sqrt: real -> real)
    requires IsSqrt(sqrt) && Sound(d) && Feasible(j, l, d, sqrt)
    ensures var j' := LimitedStep(j, target, l, d, sqrt);
            Viable(j', l, d) && -d.amax <= j'.acc <= d.amax
  {
    var wanted := WantedVel(Clip(target, l.lo, l.hi) - j.pos, j.vel, d, sqrt);
    AdvanceIsViable(j, Clip(wanted, AllowedLo(j, l, d, sqrt), AllowedHi(j, l, d, sqrt)), l, d, sqrt);
    hide WantedVel, Advance, AllowedLo, AllowedHi, Viable, IsSqrt;
  }

  lemma AdvanceIsViable(j: Joint, v: real, l: Limits, d: Drive, sqrt: real -> real)
    requires IsSqrt(sqrt) && Sound(d) && AllowedLo(j, l, d, sqrt) <= v <= AllowedHi(j, l, d, sqrt)
    ensures Viable(Advance(j, v, d), l, d) && -d.amax <= Advance(j, v, d).acc <= d.amax
  {
    AllowedParts(j, v, l, d, sqrt);
    hide AllowedLo, AllowedHi, BrakeCap, Over, Gain, IsSqrt, After, CanBrake;
    UpperSafe(j.pos, l.hi, v, d, sqrt);
    LowerSafe(j.pos, l.lo, v, d, sqrt);
    GainBounds(j.vel, v, d);
  }

  lemma AllowedParts(j: Joint, v: real, l: Limits, d: Drive, sqrt: real -> real)
    requires Sound(d) && AllowedLo(j, l, d, sqrt) <= v <= AllowedHi(j, l, d, sqrt)
    ensures j.vel - Gain(d) <= v <= j.vel + Gain(d) && -d.vmax <= v <= d.vmax
    ensures -BrakeCap(j.pos - l.lo, d, sqrt) <= v <= BrakeCap(l.hi - j.pos, d, sqrt)
    ensures Over(l.lo - j.pos, d.h) <= v <= Over(l.hi - j.pos, d.h)
  {
    hide BrakeCap, Over, Gain;
  }

  lemma LowerSafe(pos: real, lo: real, v: real, d: Drive, sqrt: real -> real)
    requires IsSqrt(sqrt) && Sound(d)
    requires v >= -BrakeCap(pos - lo, d, sqrt) && v >= Over(lo - pos, d.h)
    ensures After(pos, v, d) >= lo && CanBrake(-v, After(pos, v, d) - lo, d)
  {
    OverIff(v, pos - lo, d.h);
    assert lo - pos == -(pos - lo) && -lo - -pos == pos - lo;
    assert (-v) * d.h == -(v * d.h);
    UpperSafe(-pos, -lo, -v, d, sqrt);
    assert -lo - After(-pos, -v, d) == After(pos, v, d) - lo;
  }

  lemma GainBounds(before: real, v: real, d: Drive)
    requires Sound(d) && before - Gain(d) <= v <= before + Gain(d)
    ensures -d.amax <= Over(v - before, d.h) <= d.amax
  {
    OverIff(d.amax, v - before, d.h);
    OverIff(-d.amax, v - before, d.h);
    assert (-d.amax) * d.h == -(d.amax * d.h);
  }

  /** Limits may be relaxed at any time. */
  lemma WiderIsViable(j: Joint, l: Limits, wide: Limits, d: Drive)
    requires Sound(d) && Viable(j, l, d) && wide.lo <= l.lo && l.hi <= wide.hi
    ensures Viable(j, wide, d)
  {
    MulMono(l.hi - j.pos, wide.hi - j.pos, 2.0 * d.amax);
    MulMono(j.pos - l.lo, j.pos - wide.lo, 2.0 * d.amax);
  }

  /** At rest inside the limits is viable. */
  lemma RestIsViable(pos: real, l: Limits, d: Drive)
    requires Sound(d) && l.lo <= pos <= l.hi
    ensures Viable(Joint(pos, 0.0, 0.0), l, d)
  {}

  // ----- whole runs ---------------------------------------------------------------

  function Track(j: Joint, targets: seq<real>, l: Limits, d: Drive, sqrt: real -> real): Joint
    requires Sound(d)
  {
    if targets == [] then j
    else LimitedStep(Track(j, targets[..|targets| - 1], l, d, sqrt), targets[|targets| - 1], l, d, sqrt)
  }

  /** From rest inside fixed limits, for every sequence of targets, no step fails,
      and position, speed, acceleration and braking room stay in bounds. */
  lemma {:induction false} TrackIsSafe(pos: real, targets: seq<real>, l: Limits, d: Drive, sqrt: real -> real)
    requires IsSqrt(sqrt) && Sound(d) && l.lo <= pos <= l.hi
    ensures var j := Track(Joint(pos, 0.0, 0.0), targets, l, d, sqrt);
            Viable(j, l, d) && -d.amax <= j.acc <= d.amax && Feasible(j, l, d, sqrt)
  {
    var j := Joint(pos, 0.0, 0.0);
    if targets == [] {
      RestIsViable(pos, l, d);
      ViableIsFeasible(j, l, d, sqrt);
    } else {
      var n := |targets| - 1;
      TrackIsSafe(pos, targets[..n], l, d, sqrt);
      StepIsViable(Track(j, targets[..n], l, d, sqrt), targets[n], l, d, sqrt);
      ViableIsFeasible(Track(j, targets, l, d, sqrt), l, d, sqrt);
    }
  }
}

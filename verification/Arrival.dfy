/** The tracker reaches its target: every period of a joint with a fixed target is one of
    those that lead home, so from any state that can stop inside the limits the joint gets
    to rest at the target, with a bound on the time it takes. */
module Arrival {
  import opened Homing
  import opened Pursuit
  import opened RealMath
  import opened SpringRegime
  import opened Tracker

  function PhaseOf(j: Joint, target: real, h: real): Phase { Phase(target - j.pos, Travel(j.vel, h)) }

  /** The drive suits the zone near the target, which the limits leave free. */
  predicate Able(target: real, l: Limits, d: Drive) {
    && Sound(d) && Suited(Kick(d.amax, d.h)) && 4.0 * Kick(d.amax, d.h) <= Travel(d.vmax, d.h)
    && l.lo + 2.0 * NEAR <= target <= l.hi - 2.0 * NEAR
  }

  /** A move per period that the joint can keep up until its target is near. */
  predicate Pace(m: real, d: Drive) {
    var k := Kick(d.amax, d.h);
    0.0 < m <= Travel(d.vmax, d.h) && m * m + 2.0 * (k * m) <= 1.9 * (k * NEAR)
  }

  // ----- room -----------------------------------------------------------------------

  /** A move that leaves room to brake is allowed. */
  lemma RoomyIsAllowed(v: real, room: real, d: Drive, sqrt: real -> real)
    requires IsSqrt(sqrt) && Sound(d) && room >= 0.0
    requires v > 0.0 ==> Travel(v, d.h) <= room && Roomy(Travel(v, d.h), room, Kick(d.amax, d.h))
    ensures v <= BrakeCap(room, d, sqrt) && v <= Over(room, d.h)
  {
    MulPos(d.amax, d.h);
    BrakeCapIff(room, d, sqrt, 0.0);
    OverIff(0.0, room, d.h);
    if v > 0.0 {
      BrakeScale(v, room, d);
      BrakeCapIff(room, d, sqrt, v);
      OverIff(v, room, d.h);
      assert v * d.h == Travel(v, d.h);
    }
    hide BrakeCap, Over, Kick, Travel, Roomy, IsSqrt, Gain;
  }

  lemma RoomyMore(u: real, room: real, more: real, k: real)
    requires k > 0.0 && room <= more && Roomy(u, room, k)
    ensures Roomy(u, more, k)
  {
    MulMono(room, more, 2.0 * k);
  }

  /** The moves near the target are small enough for the room that is always left. */
  lemma SmallIsRoomy(u: real, k: real)
    requires Suited(k) && 0.0 < u <= 0.175 * NEAR + 0.43 * k
    ensures u <= NEAR && Roomy(u, NEAR, k)
  {
    var x := 3.93 * k;
    assert u <= x && u <= 0.218 * NEAR;
    MulMono(u, x, u);
    MulMono(u, 0.218 * NEAR, k);
    assert x * u == 3.93 * (k * u);
    assert u * u <= 3.93 * (k * u);
    assert k * u <= 0.00436 * k;
    assert 2.0 * k * u == 2.0 * (k * u);
    assert 2.0 * k * NEAR == 0.04 * k;
  }

  lemma PaceIsRoomy(m: real, d: Drive, room: real)
    requires Sound(d) && Kick(d.amax, d.h) > 0.0 && Pace(m, d) && room >= NEAR
    ensures m <= room && Roomy(m, room, Kick(d.amax, d.h))
  {
    var k := Kick(d.amax, d.h);
    MulPos(k, NEAR);
    MulPos(k, m);
    MulPos(m, m);
    assert 2.0 * k * m == 2.0 * (k * m) && 2.0 * k * NEAR == 2.0 * (k * NEAR);
    CancelMul(k, m, NEAR);
    RoomyMore(m, NEAR, room, k);
  }

  // ----- one period -----------------------------------------------------------------

  /** The move that a speed of the wish makes is that of the spring, near the target. */
  lemma SpringWish(e: real, vel: real, d: Drive, sqrt: real -> real)
    requires Sound(d) && -NEAR < e < NEAR
    ensures Travel(Wish(e, vel, d, sqrt), d.h) == Travel(vel, d.h) + Push(e, Travel(vel, d.h))
    ensures Travel(vel, d.h) + Push(e, Travel(vel, d.h)) == Move(e, Travel(vel, d.h))
  {
    SpringScale(e, vel, d);
    FasterTravels(vel, SpringPull(e, vel, d), d);
    hide SpringPull, Faster, Travel, Kick, Push, Move;
  }

  lemma TravelGain(v: real, d: Drive)
    ensures Travel(v + Gain(d), d.h) == Travel(v, d.h) + Kick(d.amax, d.h)
    ensures Travel(v - Gain(d), d.h) == Travel(v, d.h) - Kick(d.amax, d.h)
    ensures Travel(-v, d.h) == -Travel(v, d.h) && Travel(0.0, d.h) == 0.0
  {}

  lemma TravelMax(v: real, w: real, h: real)
    requires h > 0.0
    ensures Travel(Max(v, w), h) == Max(Travel(v, h), Travel(w, h))
    ensures Travel(Min(v, w), h) == Min(Travel(v, h), Travel(w, h))
  {
    TravelMono(v, w, h);
    hide Travel;
  }

  /** Where the step ends, in speeds: the wish, clipped between these bounds. */
  lemma StepBetween(j: Joint, target: real, l: Limits, d: Drive, sqrt: real -> real)
    requires IsSqrt(sqrt) && Sound(d) && Viable(j, l, d) && l.lo <= target <= l.hi
    ensures Feasible(j, l, d, sqrt)
    ensures var v, lo, hi := LimitedStep(j, target, l, d, sqrt).vel, AllowedLo(j, l, d, sqrt), AllowedHi(j, l, d, sqrt);
            && v == Clip(Wish(target - j.pos, j.vel, d, sqrt), lo, hi)
            && j.vel - Gain(d) <= lo <= hi <= j.vel + Gain(d) && -d.vmax <= lo && hi <= d.vmax
            && lo <= Max(j.vel - Gain(d), 0.0)
  {
    ViableIsFeasible(j, l, d, sqrt);
    StepClips(j, target, l, d, sqrt);
    LowestIs(j, l, d, sqrt);
    var lo, hi := AllowedLo(j, l, d, sqrt), AllowedHi(j, l, d, sqrt);
    AllowedParts(j, lo, l, d, sqrt);
    AllowedParts(j, hi, l, d, sqrt);
    assert Clip(target, l.lo, l.hi) == target;
    hide Wish, AllowedLo, AllowedHi, LimitedStep, IsSqrt, Gain, BrakeCap, Over, Viable;
    assert Advance(j, Clip(Wish(target - j.pos, j.vel, d, sqrt), lo, hi), d).vel
        == Clip(Wish(target - j.pos, j.vel, d, sqrt), lo, hi);
  }

  /** The move of the speed wished for a distance. */
  lemma CapTravels(e: real, d: Drive, sqrt: real -> real)
    requires IsSqrt(sqrt) && Sound(d) && e >= NEAR
    ensures var c := Travel(Cap(e, d, sqrt), d.h); c > 0.0 && c * c == 1.9 * (Kick(d.amax, d.h) * e)
  {
    var c := Cap(e, d, sqrt);
    WishPositive(e, d, sqrt);
    MulPos(c, d.h);
    assert Travel(c, d.h) * Travel(c, d.h) == (c * c) * (d.h * d.h);
    assert (1.9 * (d.amax * e)) * (d.h * d.h) == 1.9 * (Kick(d.amax, d.h) * e);
  }

  lemma NoFaster(j: Joint, target: real, l: Limits, d: Drive, sqrt: real -> real)
    requires IsSqrt(sqrt) && Sound(d) && Viable(j, l, d) && l.lo <= target <= l.hi && target - j.pos >= NEAR
    ensures var v := LimitedStep(j, target, l, d, sqrt).vel;
            v <= Cap(target - j.pos, d, sqrt) || v <= Max(j.vel - Gain(d), 0.0)
  {
    StepBetween(j, target, l, d, sqrt);
    CapIs(target - j.pos, j.vel, d, sqrt);
    assert Abs(target - j.pos) == target - j.pos && Sign(target - j.pos) == 1.0;
    hide Wish, AllowedLo, AllowedHi, LimitedStep, IsSqrt, Gain, Viable, Cap, Feasible;
  }

  /** Far from the target the joint gets no faster than wished, unless it cannot help it. */
  lemma FarNoFaster(j: Joint, target: real, l: Limits, d: Drive, sqrt: real -> real)
    requires IsSqrt(sqrt) && Sound(d) && Viable(j, l, d) && l.lo <= target <= l.hi && target - j.pos >= NEAR
    ensures var e, u, k := target - j.pos, Travel(j.vel, d.h), Kick(d.amax, d.h);
            var w := Travel(LimitedStep(j, target, l, d, sqrt).vel, d.h);
            w * w <= 1.9 * (k * e) || w <= Max(u - k, 0.0)
  {
    hide *;
    NoFaster(j, target, l, d, sqrt);
    FasterMoves(j.vel, LimitedStep(j, target, l, d, sqrt).vel, target - j.pos, d, sqrt);
  }

  /** The same in moves. */
  lemma FasterMoves(vel: real, v: real, e: real, d: Drive, sqrt: real -> real)
    requires IsSqrt(sqrt) && Sound(d) && e >= NEAR
    requires v <= Cap(e, d, sqrt) || v <= Max(vel - Gain(d), 0.0)
    ensures var u, k, w := Travel(vel, d.h), Kick(d.amax, d.h), Travel(v, d.h);
            w * w <= 1.9 * (k * e) || w <= Max(u - k, 0.0)
  {
    var c := Travel(Cap(e, d, sqrt), d.h);
    CapTravels(e, d, sqrt);
    TravelMono(v, Max(vel - Gain(d), 0.0), d.h);
    TravelMax(vel - Gain(d), 0.0, d.h);
    TravelGain(vel, d);
    TravelMono(v, Cap(e, d, sqrt), d.h);
    hide IsSqrt, Gain, Travel, Kick, Cap;
    SmallerSquare(Travel(v, d.h), c);
  }

  lemma SmallerSquare(w: real, c: real)
    requires c > 0.0
    ensures w <= c ==> w * w <= c * c || w <= 0.0
  {
    if 0.0 < w <= c { SquareMono(w, c); }
  }

  /** A pace below the wish, which the room to a far target allows. */
  lemma PaceIsWished(m: real, e: real, vel: real, d: Drive, sqrt: real -> real)
    requires IsSqrt(sqrt) && Sound(d) && Kick(d.amax, d.h) > 0.0 && Pace(m, d) && e >= NEAR
    ensures Travel(Over(m, d.h), d.h) == m && 0.0 < Over(m, d.h) <= d.vmax
    ensures Over(m, d.h) <= Wish(e, vel, d, sqrt)
  {
    var v, k := Over(m, d.h), Kick(d.amax, d.h);
    assert Travel(v, d.h) == m;
    TravelMono(v, d.vmax, d.h);
    OverPositive(m, d.h);
    WishPositive(e, d, sqrt);
    CapIs(e, vel, d, sqrt);
    CapIs(e, 0.0, d, sqrt);
    PaceBelowCap(v, m, e, d, sqrt);
    hide Wish, Travel, Kick, Cap, Over, IsSqrt;
  }

  lemma PaceBelowCap(v: real, m: real, e: real, d: Drive, sqrt: real -> real)
    requires IsSqrt(sqrt) && Sound(d) && Kick(d.amax, d.h) > 0.0 && Pace(m, d) && e >= NEAR
    requires Travel(v, d.h) == m && v > 0.0
    ensures v <= Cap(e, d, sqrt)
  {
    hide Kick, Travel, Cap, IsSqrt;
    CapTravels(e, d, sqrt);
    TravelMono(v, Cap(e, d, sqrt), d.h);
    PaceSquare(m, Kick(d.amax, d.h), e, Travel(Cap(e, d, sqrt), d.h));
  }

  lemma PaceSquare(m: real, k: real, e: real, c: real)
    requires m > 0.0 && k > 0.0 && m * m + 2.0 * (k * m) <= 1.9 * (k * NEAR) && e >= NEAR
    requires c > 0.0 && c * c == 1.9 * (k * e)
    ensures m <= c
  {
    MulPos(k, m);
    MulMono(NEAR, e, k);
    SquareMono(m, c);
  }

  /** And no slower than the pace, once it has had the time to get there. */
  lemma FarNoSlower(j: Joint, target: real, l: Limits, d: Drive, sqrt: real -> real, m: real)
    requires IsSqrt(sqrt) && Sound(d) && Kick(d.amax, d.h) > 0.0 && Pace(m, d)
    requires Viable(j, l, d) && l.lo <= target <= l.hi && target - j.pos >= NEAR
    ensures var w := Travel(LimitedStep(j, target, l, d, sqrt).vel, d.h);
            w >= Min(Travel(j.vel, d.h) + Kick(d.amax, d.h), m)
  {
    var e, v, p := target - j.pos, LimitedStep(j, target, l, d, sqrt).vel, Over(m, d.h);
    StepBetween(j, target, l, d, sqrt);
    PaceIsWished(m, e, j.vel, d, sqrt);
    PaceIsRoomy(m, d, l.hi - j.pos);
    RoomyIsAllowed(p, l.hi - j.pos, d, sqrt);
    HighEnough(j, p, l, d, sqrt);
    TravelMono(Min(j.vel + Gain(d), p), v, d.h);
    TravelMax(j.vel + Gain(d), p, d.h);
    TravelGain(j.vel, d);
    hide Wish, AllowedLo, AllowedHi, LimitedStep, IsSqrt, Gain, Viable, Travel, Kick, Feasible, Over, BrakeCap;
  }

  lemma HighEnough(j: Joint, p: real, l: Limits, d: Drive, sqrt: real -> real)
    requires Sound(d) && p <= d.vmax && p <= BrakeCap(l.hi - j.pos, d, sqrt) && p <= Over(l.hi - j.pos, d.h)
    ensures Min(j.vel + Gain(d), p) <= AllowedHi(j, l, d, sqrt)
  {
    hide BrakeCap, Over, Gain;
  }

  /** Near the target and too fast for the spring the joint brakes; and moving away with its
      back to the target's side it brakes as hard as it can. */
  lemma NearBrakes(j: Joint, target: real, l: Limits, d: Drive, sqrt: real -> real)
    requires IsSqrt(sqrt) && Able(target, l, d) && Viable(j, l, d)
    requires -NEAR < target - j.pos < NEAR
    requires Push(target - j.pos, Travel(j.vel, d.h)) < -Kick(d.amax, d.h)
    ensures var u, k, w := Travel(j.vel, d.h), Kick(d.amax, d.h), Travel(LimitedStep(j, target, l, d, sqrt).vel, d.h);
            w <= Max(u - k, 0.0) && (u <= 0.0 ==> w == u - k)
  {
    var e, v := target - j.pos, LimitedStep(j, target, l, d, sqrt).vel;
    var wish := Wish(e, j.vel, d, sqrt);
    StepBetween(j, target, l, d, sqrt);
    SpringWish(e, j.vel, d, sqrt);
    TravelGain(j.vel, d);
    TravelMono(j.vel - Gain(d), wish, d.h);
    assert v == AllowedLo(j, l, d, sqrt);
    TravelMono(v, Max(j.vel - Gain(d), 0.0), d.h);
    TravelMax(j.vel - Gain(d), 0.0, d.h);
    TravelGain(0.0, d);
    if Travel(j.vel, d.h) <= 0.0 { BrakesFully(j, target, l, d, sqrt); }
    hide Wish, AllowedLo, AllowedHi, LimitedStep, IsSqrt, Gain, Viable, Travel, Kick, Feasible, Push, Move;
  }

  lemma BrakesFully(j: Joint, target: real, l: Limits, d: Drive, sqrt: real -> real)
    requires IsSqrt(sqrt) && Able(target, l, d) && Viable(j, l, d)
    requires -NEAR < target - j.pos < NEAR && Travel(j.vel, d.h) <= 0.0
    requires Push(target - j.pos, Travel(j.vel, d.h)) < -Kick(d.amax, d.h)
    ensures AllowedLo(j, l, d, sqrt) <= j.vel - Gain(d)
  {
    var k, w := Kick(d.amax, d.h), j.vel - Gain(d);
    TravelGain(j.vel, d);
    TravelGain(w, d);
    var u := Travel(-w, d.h);
    assert 0.0 < u <= 0.175 * NEAR + 0.43 * k;
    SmallIsRoomy(u, k);
    RoomyMore(u, NEAR, j.pos - l.lo, k);
    TravelMono(-w, d.vmax, d.h);
    hide Travel, Kick, Gain, Push, IsSqrt;
    RoomyIsAllowed(-w, j.pos - l.lo, d, sqrt);
    LowEnough(j, w, l, d, sqrt);
  }

  lemma LowEnough(j: Joint, w: real, l: Limits, d: Drive, sqrt: real -> real)
    requires Sound(d) && w >= j.vel - Gain(d) && w >= -d.vmax
    requires -w <= BrakeCap(j.pos - l.lo, d, sqrt) && -w <= Over(j.pos - l.lo, d.h)
    ensures AllowedLo(j, l, d, sqrt) <= w
  {
    OverIff(0.0, j.pos - l.lo, d.h);
    assert l.lo - j.pos == -(j.pos - l.lo);
    hide BrakeCap, Over, Gain;
  }

  /** Near the target and slow enough the step is the spring's. */
  lemma NearSprings(j: Joint, target: real, l: Limits, d: Drive, sqrt: real -> real)
    requires IsSqrt(sqrt) && Able(target, l, d) && Viable(j, l, d)
    requires InSpring(PhaseOf(j, target, d.h), Kick(d.amax, d.h))
    ensures Travel(LimitedStep(j, target, l, d, sqrt).vel, d.h) == Move(target - j.pos, Travel(j.vel, d.h))
  {
    var e, k := target - j.pos, Kick(d.amax, d.h);
    var w, u := Wish(e, j.vel, d, sqrt), Travel(Wish(e, j.vel, d, sqrt), d.h);
    StepBetween(j, target, l, d, sqrt);
    SpringWish(e, j.vel, d, sqrt);
    TravelGain(j.vel, d);
    TravelGain(w, d);
    TravelMono(j.vel - Gain(d), w, d.h);
    TravelMono(w, j.vel + Gain(d), d.h);
    assert -0.175 * NEAR - 0.43 * k <= u <= 0.175 * NEAR + 0.43 * k;
    hide Wish, AllowedLo, AllowedHi, LimitedStep, IsSqrt, Gain, Viable, Travel, Kick, Feasible, Push, Move;
    SmallIsAllowed(j, w, target, l, d, sqrt);
  }

  /** Small moves near the target are within the drive's and the limits' reach. */
  lemma SmallIsAllowed(j: Joint, w: real, target: real, l: Limits, d: Drive, sqrt: real -> real)
    requires IsSqrt(sqrt) && Able(target, l, d) && -NEAR < target - j.pos < NEAR
    requires var u, k := Travel(w, d.h), Kick(d.amax, d.h);
             -0.175 * NEAR - 0.43 * k <= u <= 0.175 * NEAR + 0.43 * k
    requires j.vel - Gain(d) <= w <= j.vel + Gain(d)
    ensures AllowedLo(j, l, d, sqrt) <= w <= AllowedHi(j, l, d, sqrt)
  {
    var u, k := Travel(w, d.h), Kick(d.amax, d.h);
    TravelGain(w, d);
    TravelGain(d.vmax, d);
    TravelMono(w, d.vmax, d.h);
    TravelMono(-w, d.vmax, d.h);
    TravelMono(w, 0.0, d.h);
    hide Travel, Kick, Gain, IsSqrt;
    if u > 0.0 { SmallIsRoomy(u, k); RoomyMore(u, NEAR, l.hi - j.pos, k); }
    if u < 0.0 { SmallIsRoomy(-u, k); RoomyMore(-u, NEAR, j.pos - l.lo, k); }
    RoomyIsAllowed(w, l.hi - j.pos, d, sqrt);
    RoomyIsAllowed(-w, j.pos - l.lo, d, sqrt);
    LowEnough(j, w, l, d, sqrt);
    HighEnough(j, w, l, d, sqrt);
  }

  /** One period of the tracker is one of those that lead home. */
  lemma StepIsPeriod(j: Joint, target: real, l: Limits, d: Drive, sqrt: real -> real, m: real)
    requires IsSqrt(sqrt) && Able(target, l, d) && Pace(m, d) && Viable(j, l, d)
    ensures Feasible(j, l, d, sqrt)
    ensures var j' := LimitedStep(j, target, l, d, sqrt);
            && Viable(j', l, d)
            && Period(PhaseOf(j, target, d.h), PhaseOf(j', target, d.h), Kick(d.amax, d.h), m)
  {
    var j' := LimitedStep(j, target, l, d, sqrt);
    StepBetween(j, target, l, d, sqrt);
    StepIsViable(j, target, l, d, sqrt);
    StepMoves(j, target, l, d, sqrt);
    MovesBy(j.vel, j'.vel, d);
    hide LimitedStep, IsSqrt, Viable, Travel, Kick, Feasible, Push, Gain, AllowedLo, AllowedHi, Wish, Side, Move;
    StepSide(j, target, l, d, sqrt, m);
    OtherSide(j, target, l, d, sqrt, m);
    if InSpring(PhaseOf(j, target, d.h), Kick(d.amax, d.h)) { NearSprings(j, target, l, d, sqrt); }
  }

  lemma OtherSide(j: Joint, target: real, l: Limits, d: Drive, sqrt: real -> real, m: real)
    requires IsSqrt(sqrt) && Able(target, l, d) && Pace(m, d) && Viable(j, l, d)
    ensures Side(Mirror(PhaseOf(j, target, d.h)), Mirror(PhaseOf(LimitedStep(j, target, l, d, sqrt), target, d.h)),
                 Kick(d.amax, d.h), m)
  {
    assert Able(-target, FlipLimits(l), d);
    ViableIsFeasible(j, l, d, sqrt);
    StepFlips(j, target, l, d, sqrt);
    ViableFlips(j, l, d);
    PhaseFlips(j, Flip(j), target, d);
    PhaseFlips(LimitedStep(j, target, l, d, sqrt), LimitedStep(Flip(j), -target, FlipLimits(l), d, sqrt), target, d);
    hide LimitedStep, IsSqrt, Viable, Travel, Kick, Feasible, Side, Gain, PhaseOf, Mirror;
    StepSide(Flip(j), -target, FlipLimits(l), d, sqrt, m);
  }

  lemma PhaseFlips(j: Joint, k: Joint, target: real, d: Drive)
    requires k.pos == -j.pos && k.vel == -j.vel
    ensures PhaseOf(k, -target, d.h) == Mirror(PhaseOf(j, target, d.h))
  {
    TravelGain(j.vel, d);
    hide Travel;
  }

  lemma MovesBy(v: real, w: real, d: Drive)
    requires Sound(d) && v - Gain(d) <= w <= v + Gain(d)
    ensures Travel(v, d.h) - Kick(d.amax, d.h) <= Travel(w, d.h) <= Travel(v, d.h) + Kick(d.amax, d.h)
  {
    TravelGain(v, d);
    TravelMono(v - Gain(d), w, d.h);
    TravelMono(w, v + Gain(d), d.h);
  }

  lemma StepSide(j: Joint, target: real, l: Limits, d: Drive, sqrt: real -> real, m: real)
    requires IsSqrt(sqrt) && Able(target, l, d) && Pace(m, d) && Viable(j, l, d)
    ensures Side(PhaseOf(j, target, d.h), PhaseOf(LimitedStep(j, target, l, d, sqrt), target, d.h), Kick(d.amax,
        d.h), m)
  {
    var e := target - j.pos;
    hide LimitedStep, IsSqrt, Viable, Travel, Kick, Push;
    if e >= NEAR {
      FarNoFaster(j, target, l, d, sqrt);
      FarNoSlower(j, target, l, d, sqrt, m);
    } else if -NEAR < e && Push(e, Travel(j.vel, d.h)) < -Kick(d.amax, d.h) {
      NearBrakes(j, target, l, d, sqrt);
    }
  }

  // ----- whole runs -----------------------------------------------------------------

  function PhaseAt(j: Joint, target: real, l: Limits, d: Drive, sqrt: real -> real): nat -> Phase
    requires Sound(d)
  {
    (n: nat) => PhaseOf(Hold(j, target, n, l, d, sqrt), target, d.h)
  }

  lemma {:induction false} HoldIsViable(j: Joint, target: real, n: nat, l: Limits, d: Drive, sqrt: real -> real)
    requires IsSqrt(sqrt) && Sound(d) && Viable(j, l, d)
    ensures Viable(Hold(j, target, n, l, d, sqrt), l, d) && Feasible(Hold(j, target, n, l, d, sqrt), l, d, sqrt)
  {
    hide Viable, Feasible, LimitedStep, IsSqrt;
    if n > 0 {
      HoldIsViable(j, target, n - 1, l, d, sqrt);
      StepIsViable(Hold(j, target, n - 1, l, d, sqrt), target, l, d, sqrt);
    }
    ViableIsFeasible(Hold(j, target, n, l, d, sqrt), l, d, sqrt);
  }

  lemma RunIsHome(j: Joint, target: real, l: Limits, d: Drive, sqrt: real -> real, m: real)
    requires IsSqrt(sqrt) && Able(target, l, d) && Pace(m, d) && Viable(j, l, d)
    ensures Run(PhaseAt(j, target, l, d, sqrt), Kick(d.amax, d.h), m, Travel(d.vmax, d.h), l.hi - l.lo)
  {
    var f := PhaseAt(j, target, l, d, sqrt);
    forall n: nat
      ensures Period(f(n), f(n + 1), Kick(d.amax, d.h), m)
      ensures -Travel(d.vmax, d.h) <= f(n).u <= Travel(d.vmax, d.h) && -(l.hi - l.lo) <= f(n).e <= l.hi - l.lo
    {
      var i := Hold(j, target, n, l, d, sqrt);
      HoldIsViable(j, target, n, l, d, sqrt);
      StepIsPeriod(i, target, l, d, sqrt, m);
      WithinBounds(i, target, l, d);
      hide Travel, Period, LimitedStep, Viable, IsSqrt, Feasible, Kick, Pace;
    }
    hide Period, Travel, Kick;
  }

  lemma WithinBounds(j: Joint, target: real, l: Limits, d: Drive)
    requires Sound(d) && Viable(j, l, d) && l.lo <= target <= l.hi
    ensures -Travel(d.vmax, d.h) <= Travel(j.vel, d.h) <= Travel(d.vmax, d.h)
    ensures -(l.hi - l.lo) <= target - j.pos <= l.hi - l.lo
  {
    TravelMono(j.vel, d.vmax, d.h);
    TravelMono(-d.vmax, j.vel, d.h);
    TravelGain(d.vmax, d);
    hide Travel, CanBrake;
  }

  lemma {:induction false} SpringShrinks(f: nat -> Phase, i: nat, n: nat, k: real, m: real, top: real, range: real)
    requires Suited(k) && Run(f, k, m, top, range) && InSpring(f(i), k)
    ensures InSpring(f(i + n), k) && Form(f(i + n).e, f(i + n).u) <= Left(n, Form(f(i).e, f(i).u))
  {
    hide InSpring, Period, Form;
    if n > 0 {
      SpringShrinks(f, i, n - 1, k, m, top, range);
      SpringStays(f(i + n - 1), f(i + n), k, m);
    }
  }

  /** In the spring zone this is the most that distance and speed amount to. */
  const ZONE: real := 0.0008

  lemma ZoneIsSmall(x: Phase, k: real)
    requires Suited(k) && InSpring(x, k)
    ensures x.e * x.e <= Form(x.e, x.u) <= ZONE
  {
    SquareParts(x.e, x.u);
    var r, q := NEAR, 0.318 * NEAR;
    assert -q <= x.u <= q;
    SquareWithin(x.e, r);
    SquareWithin(x.u, q);
  }

  lemma SquareWithin(x: real, r: real)
    requires -r <= x <= r
    ensures x * x <= r * r
  {
    if x >= 0.0 { SquareMono(x, r); } else { assert (-x) * (-x) == x * x; SquareMono(-x, r); }
  }

  /** What `n` periods of a speed change or of a move amount to. */
  function Lasting(n: nat, x: real): real { n as real * x }

  /** From every state that can stop inside the limits, a joint with a fixed target gets into
      the spring zone within `4 a + b + 2` periods, where `a` periods of acceleration make the
      top speed and `b` periods at the pace `m` the whole range; from then on its squared
      distance to the target falls by 12 % in every period, for ever. No step fails. */
  lemma TargetIsReached(j: Joint, target: real, l: Limits, d: Drive, sqrt: real -> real, m: real, a: nat, b: nat,
      n: nat)
    requires IsSqrt(sqrt) && Able(target, l, d) && Pace(m, d) && Viable(j, l, d)
    requires d.vmax <= Lasting(a, Gain(d)) && l.hi - l.lo <= Lasting(b, m)
    ensures Miss(Hold(j, target, 4 * a + b + 2 + n, l, d, sqrt), target) <= Left(n, ZONE)
    ensures Feasible(Hold(j, target, n, l, d, sqrt), l, d, sqrt)
  {
    hide *;
    AbleFacts(target, l, d);
    HoldIsViable(j, target, n, l, d, sqrt);
    var i := ZoneReached(j, target, l, d, sqrt, m, a, b);
    RunIsHome(j, target, l, d, sqrt, m);
    MissIs(j, target, 4 * a + b + 2 + n, l, d, sqrt);
    var f, k, top := PhaseAt(j, target, l, d, sqrt), Kick(d.amax, d.h), Travel(d.vmax, d.h);
    Falls(f, i, 4 * a + b + 2 + n, n, k, m, top, l.hi - l.lo);
  }

  lemma AbleFacts(target: real, l: Limits, d: Drive)
    requires Able(target, l, d)
    ensures Sound(d) && Suited(Kick(d.amax, d.h)) && l.lo <= target <= l.hi
  {}

  lemma MissIs(j: Joint, target: real, n: nat, l: Limits, d: Drive, sqrt: real -> real)
    requires Sound(d)
    ensures var e := PhaseAt(j, target, l, d, sqrt)(n).e; Miss(Hold(j, target, n, l, d, sqrt), target) == e * e
  {
    hide Hold;
  }

  lemma ZoneReached(j: Joint, target: real, l: Limits, d: Drive, sqrt: real -> real, m: real, a: nat, b: nat)
    returns (i: nat)
    requires IsSqrt(sqrt) && Able(target, l, d) && Pace(m, d) && Viable(j, l, d)
    requires d.vmax <= Lasting(a, Gain(d)) && l.hi - l.lo <= Lasting(b, m)
    ensures i <= 4 * a + b + 2 && InSpring(PhaseAt(j, target, l, d, sqrt)(i), Kick(d.amax, d.h))
  {
    var k := Kick(d.amax, d.h);
    RunIsHome(j, target, l, d, sqrt, m);
    TotalIs(a, k);
    TotalIs(b, m);
    TopIsReached(a, d);
    hide Run, Viable, IsSqrt, InSpring, Kick, Hold, Travel, Total, PhaseAt, Lasting, Gain;
    i := ComesHome(PhaseAt(j, target, l, d, sqrt), a, b, k, m, Travel(d.vmax, d.h), l.hi - l.lo);
  }

  lemma Falls(f: nat -> Phase, i: nat, t: nat, n: nat, k: real, m: real, top: real, range: real)
    requires Suited(k) && Run(f, k, m, top, range) && InSpring(f(i), k) && i + n <= t
    ensures f(t).e * f(t).e <= Left(n, ZONE)
  {
    hide Run, InSpring, Form, Left;
    var z: nat := t - n;
    SpringShrinks(f, i, z - i, k, m, top, range);
    assert i + (z - i) == z && z + n == t;
    assert InSpring(f(z), k);
    SpringShrinks(f, z, n, k, m, top, range);
    assert InSpring(f(t), k) && Form(f(t).e, f(t).u) <= Left(n, Form(f(z).e, f(z).u));
    ZoneIsSmall(f(z), k);
    ZoneIsSmall(f(t), k);
    SquareNonneg(f(z).e);
    LeftMono(n, Form(f(z).e, f(z).u), ZONE);
  }

  lemma {:induction false} TotalIs(n: nat, k: real)
    ensures Total(n, k) == Lasting(n, k)
  {
    if n > 0 {
      TotalIs(n - 1, k);
      assert n as real * k == (n - 1) as real * k + k;
    }
  }

  lemma TopIsReached(a: nat, d: Drive)
    requires Sound(d) && d.vmax <= Lasting(a, Gain(d))
    ensures Travel(d.vmax, d.h) <= Lasting(a, Kick(d.amax, d.h))
  {
    TravelMono(d.vmax, Lasting(a, Gain(d)), d.h);
    assert Travel(Lasting(a, Gain(d)), d.h) == Lasting(a, Kick(d.amax, d.h));
  }

  /** The speed and acceleration limits of the five joints at the control period suit. */
  lemma RuntimeDrivesSuit(d: Drive)
    requires d.h == 0.01
    requires (d.vmax, d.amax) in {(3.0, 12.0), (2.5, 10.0), (4.0, 20.0)}
    ensures Sound(d) && Suited(Kick(d.amax, d.h)) && 4.0 * Kick(d.amax, d.h) <= Travel(d.vmax, d.h) && Pace(0.005, d)
  {
    if d.vmax == 3.0 { assert Kick(d.amax, d.h) == 0.0012 && Travel(d.vmax, d.h) == 0.03; }
    else if d.vmax == 2.5 { assert Kick(d.amax, d.h) == 0.001 && Travel(d.vmax, d.h) == 0.025; }
    else { assert Kick(d.amax, d.h) == 0.002 && Travel(d.vmax, d.h) == 0.04; }
  }
}

/** Where the tracker goes: its next speed is, of all speeds that the drive can reach in a
    period and that leave the joint able to stop inside its limits, the one nearest to the
    speed wished for the target. */
module Pursuit {
  import opened RealMath
  import opened SpringRegime
  import opened Tracker

  /** The speed wished for a target at distance `e`: near it that of a spring, elsewhere the
      speed from which the joint can just stop at it, with a margin. */
  function Wish(e: real, vel: real, d: Drive, sqrt: real -> real): real
    requires Sound(d)
  {
    if Abs(e) < NEAR then Faster(vel, SpringPull(e, vel, d), d)
    else Sign(e) * Min(d.vmax, Cap(Abs(e), d, sqrt))
  }

  /** The speed from which the joint can just stop after a distance, with the margin. */
  function Cap(dist: real, d: Drive, sqrt: real -> real): real { sqrt(2.0 * d.amax * dist * MARGIN) }

  lemma ClipInside(x: real, a: real, b: real, lo: real, hi: real)
    requires a <= lo <= hi <= b
    ensures Clip(Clip(x, a, b), lo, hi) == Clip(x, lo, hi)
  {}

  lemma FasterClip(vel: real, a: real, d: Drive)
    requires Sound(d)
    ensures Faster(vel, Clip(a, -d.amax, d.amax), d) == Clip(Faster(vel, a, d), vel - Gain(d), vel + Gain(d))
  {
    ClipTimes(a, d.amax, d.h);
  }

  lemma ClipTimes(a: real, m: real, h: real)
    requires m > 0.0 && h > 0.0
    ensures Clip(a, -m, m) * h == Clip(a * h, -(m * h), m * h)
  {
    ProductOrder(a, m, h);
    ProductOrder(m, a, h);
    ProductOrder(a, -m, h);
    ProductOrder(-m, a, h);
    assert (-m) * h == -(m * h);
  }

  lemma ProductOrder(a: real, b: real, h: real)
    requires h > 0.0
    ensures a <= b <==> a * h <= b * h
  {
    CancelMul(h, a, b);
  }

  lemma FasterOver(vel: real, w: real, d: Drive)
    requires Sound(d)
    ensures Faster(vel, Over(w - vel, d.h), d) == w
  {}

  lemma SignTimes(e: real, x: real, vmax: real)
    requires 0.0 <= x <= vmax
    ensures Clip(Sign(e) * x, -vmax, vmax) == Sign(e) * x
  {}

  /** Without position limits the speed is the wish, as near as the drive can come. */
  lemma WantedIs(e: real, vel: real, d: Drive, sqrt: real -> real)
    requires IsSqrt(sqrt) && Sound(d)
    ensures WantedVel(e, vel, d, sqrt)
         == Clip(Clip(Wish(e, vel, d, sqrt), vel - Gain(d), vel + Gain(d)), -d.vmax, d.vmax)
  {
    if Abs(e) < NEAR {
      FasterClip(vel, SpringPull(e, vel, d), d);
      hide SpringPull, Faster, Gain, CapAccel;
    } else {
      var w := Wish(e, vel, d, sqrt);
      CapIs(e, vel, d, sqrt);
      FasterClip(vel, Over(w - vel, d.h), d);
      FasterOver(vel, w, d);
      hide Over, Faster, Gain, CapAccel, IsSqrt, Wish;
    }
  }

  lemma CapIs(e: real, vel: real, d: Drive, sqrt: real -> real)
    requires IsSqrt(sqrt) && Sound(d) && Abs(e) >= NEAR
    ensures CapAccel(e, vel, d, sqrt) == Clip(Over(Wish(e, vel, d, sqrt) - vel, d.h), -d.amax, d.amax)
    ensures Wish(e, vel, d, sqrt) == Sign(e) * Min(d.vmax, Cap(Abs(e), d, sqrt)) && Cap(Abs(e), d, sqrt) >= 0.0
  {
    MulPos(d.amax, Abs(e));
    assert 2.0 * d.amax * Abs(e) * MARGIN == 1.9 * (d.amax * Abs(e));
    assert Cap(Abs(e), d, sqrt) >= 0.0;
    SignTimes(e, Min(d.vmax, Cap(Abs(e), d, sqrt)), d.vmax);
    hide Over, IsSqrt;
  }

  // ----- the speeds to choose from --------------------------------------------------

  /** What the drive can reach in a period, and what leaves the joint able to stop. */
  ghost predicate Open(j: Joint, w: real, l: Limits, d: Drive)
    requires Sound(d)
  {
    j.vel - Gain(d) <= w <= j.vel + Gain(d) && Viable(Advance(j, w, d), l, d)
  }

  lemma BrakesAfter(pos: real, hi: real, w: real, d: Drive, sqrt: real -> real)
    requires IsSqrt(sqrt) && Sound(d) && pos <= hi
    requires After(pos, w, d) <= hi && CanBrake(w, hi - After(pos, w, d), d)
    ensures w <= BrakeCap(hi - pos, d, sqrt) && w <= Over(hi - pos, d.h)
  {
    var room := hi - pos;
    MulPos(d.amax, d.h);
    OverIff(w, room, d.h);
    BrakeCapIff(room, d, sqrt, 0.0);
    if w > 0.0 {
      assert 2.0 * d.amax * (hi - After(pos, w, d)) == 2.0 * d.amax * room - 2.0 * Gain(d) * w;
      BrakeCapIff(room, d, sqrt, w);
    }
    hide BrakeCap, Over, IsSqrt;
  }

  lemma AllowedIff(j: Joint, w: real, l: Limits, d: Drive, sqrt: real -> real)
    requires IsSqrt(sqrt) && Sound(d) && l.lo <= j.pos <= l.hi
    ensures AllowedLo(j, l, d, sqrt) <= w <= AllowedHi(j, l, d, sqrt) <==> Open(j, w, l, d)
  {
    if Open(j, w, l, d) {
      BrakesAfter(j.pos, l.hi, w, d, sqrt);
      Mirrored(j.pos, w, l.lo, d);
      BrakesAfter(-j.pos, -l.lo, -w, d, sqrt);
      assert -l.lo - -j.pos == j.pos - l.lo;
      OverIff(w, j.pos - l.lo, d.h);
      assert l.lo - j.pos == -(j.pos - l.lo);
      hide BrakeCap, Over, IsSqrt, CanBrake, Gain;
    }
    if AllowedLo(j, l, d, sqrt) <= w <= AllowedHi(j, l, d, sqrt) {
      AdvanceIsViable(j, w, l, d, sqrt);
      AllowedParts(j, w, l, d, sqrt);
    }
    hide Viable, IsSqrt;
  }

  lemma Mirrored(pos: real, w: real, lo: real, d: Drive)
    ensures After(-pos, -w, d) == -After(pos, w, d) && -lo - After(-pos, -w, d) == After(pos, w, d) - lo
  {
    assert (-w) * d.h == -(w * d.h);
  }

  // ----- the choice -----------------------------------------------------------------

  lemma StepClips(j: Joint, target: real, l: Limits, d: Drive, sqrt: real -> real)
    requires IsSqrt(sqrt) && Sound(d) && Feasible(j, l, d, sqrt)
    ensures var w := Wish(Clip(target, l.lo, l.hi) - j.pos, j.vel, d, sqrt);
            LimitedStep(j, target, l, d, sqrt)
              == Advance(j, Clip(w, AllowedLo(j, l, d, sqrt), AllowedHi(j, l, d, sqrt)), d)
  {
    var e := Clip(target, l.lo, l.hi) - j.pos;
    var w, lo, hi := Wish(e, j.vel, d, sqrt), AllowedLo(j, l, d, sqrt), AllowedHi(j, l, d, sqrt);
    WantedIs(e, j.vel, d, sqrt);
    AllowedParts(j, lo, l, d, sqrt);
    AllowedParts(j, hi, l, d, sqrt);
    hide Wish, WantedVel, AllowedLo, AllowedHi, Advance, IsSqrt, Gain, Clip, BrakeCap, Over;
    ClipInside(Clip(w, j.vel - Gain(d), j.vel + Gain(d)), -d.vmax, d.vmax, lo, hi);
    ClipInside(w, j.vel - Gain(d), j.vel + Gain(d), lo, hi);
  }

  lemma ClipIsNearest(x: real, w: real, lo: real, hi: real)
    requires lo <= w <= hi
    ensures Abs(Clip(x, lo, hi) - x) <= Abs(w - x)
  {}

  /** Every step that is taken under limits that contain the joint goes at the open speed
      nearest to the wish. */
  lemma StepIsNearest(j: Joint, target: real, l: Limits, d: Drive, sqrt: real -> real, w: real)
    requires IsSqrt(sqrt) && Sound(d) && l.lo <= j.pos <= l.hi && Feasible(j, l, d, sqrt)
    ensures var v := LimitedStep(j, target, l, d, sqrt).vel;
            var wish := Wish(Clip(target, l.lo, l.hi) - j.pos, j.vel, d, sqrt);
            && LimitedStep(j, target, l, d, sqrt) == Advance(j, v, d)
            && Open(j, v, l, d)
            && (Open(j, w, l, d) ==> Abs(v - wish) <= Abs(w - wish))
  {
    StepClips(j, target, l, d, sqrt);
    var wish := Wish(Clip(target, l.lo, l.hi) - j.pos, j.vel, d, sqrt);
    var lo, hi := AllowedLo(j, l, d, sqrt), AllowedHi(j, l, d, sqrt);
    AllowedIff(j, w, l, d, sqrt);
    AllowedIff(j, Clip(wish, lo, hi), l, d, sqrt);
    if Open(j, w, l, d) { ClipIsNearest(wish, w, lo, hi); }
    hide Wish, AllowedLo, AllowedHi, IsSqrt, LimitedStep, Open, Clip;
  }

  // ----- towards the target ---------------------------------------------------------

  /** Limits that are the target's own room on the far side of the joint. */
  lemma HighestIs(j: Joint, l: Limits, d: Drive, sqrt: real -> real, room: real)
    requires IsSqrt(sqrt) && Sound(d) && j.vel == 0.0 && 0.0 < room <= l.hi - j.pos
    ensures AllowedHi(j, l, d, sqrt) > 0.0
  {
    MulPos(d.amax, d.h);
    OverIff(0.0, l.hi - j.pos, d.h);
    OverPositive(l.hi - j.pos, d.h);
    CapPositive(l.hi - j.pos, d, sqrt);
    hide Over, BrakeCap;
  }

  lemma OverPositive(x: real, h: real)
    requires x > 0.0 && h > 0.0
    ensures Over(x, h) > 0.0
  {
    OverIff(0.0, x, h);
  }

  lemma CapPositive(room: real, d: Drive, sqrt: real -> real)
    requires IsSqrt(sqrt) && Sound(d) && room > 0.0
    ensures BrakeCap(room, d, sqrt) > 0.0
  {
    var g := Gain(d);
    MulPos(d.amax, d.h);
    MulPos(2.0 * d.amax, room);
    var q := sqrt(Reserve(room, d));
    assert Reserve(room, d) > g * g >= 0.0;
    if q <= g { SquareMono(q, g); }
  }

  // ----- the same to the other side -------------------------------------------------

  function Flip(j: Joint): Joint { Joint(-j.pos, -j.vel, -j.acc) }

  function FlipLimits(l: Limits): Limits { Limits(-l.hi, -l.lo) }

  lemma AllowedFlips(j: Joint, l: Limits, d: Drive, sqrt: real -> real)
    requires Sound(d)
    ensures AllowedLo(Flip(j), FlipLimits(l), d, sqrt) == -AllowedHi(j, l, d, sqrt)
    ensures AllowedHi(Flip(j), FlipLimits(l), d, sqrt) == -AllowedLo(j, l, d, sqrt)
  {
    var up, down := l.hi - j.pos, j.pos - l.lo;
    OverIff(0.0, up, d.h);
    OverIff(0.0, down, d.h);
    assert Flip(j).pos - FlipLimits(l).lo == up && FlipLimits(l).hi - Flip(j).pos == down;
    assert FlipLimits(l).lo - Flip(j).pos == -up && l.lo - j.pos == -down;
    hide Over, BrakeCap, Gain;
  }

  lemma WishFlips(e: real, vel: real, d: Drive, sqrt: real -> real)
    requires Sound(d)
    ensures Wish(-e, -vel, d, sqrt) == -Wish(e, vel, d, sqrt)
  {
    SpringFlips(e, vel, d);
    assert Abs(-e) == Abs(e) && Sign(-e) == -Sign(e);
    hide Faster, SpringPull, Abs, Cap;
    assert (-Sign(e)) * Min(d.vmax, Cap(Abs(e), d, sqrt)) == -(Sign(e) * Min(d.vmax, Cap(Abs(e), d, sqrt)));
  }

  lemma SpringFlips(e: real, vel: real, d: Drive)
    requires Sound(d)
    ensures Faster(-vel, SpringPull(-e, -vel, d), d) == -Faster(vel, SpringPull(e, vel, d), d)
  {
    var w := Over(SPRING, d.h);
    assert w * w * (-e) == -(w * w * e) && 2.0 * w * (-vel) == -(2.0 * w * vel);
    assert SpringPull(-e, -vel, d) == -SpringPull(e, vel, d);
    assert (-SpringPull(e, vel, d)) * d.h == -(SpringPull(e, vel, d) * d.h);
  }

  lemma ClipFlips(x: real, lo: real, hi: real)
    requires lo <= hi
    ensures Clip(-x, -hi, -lo) == -Clip(x, lo, hi)
  {}

  /** Seen in a mirror the tracker does the same. */
  lemma StepFlips(j: Joint, target: real, l: Limits, d: Drive, sqrt: real -> real)
    requires IsSqrt(sqrt) && Sound(d) && l.lo <= target <= l.hi && Feasible(j, l, d, sqrt)
    ensures Feasible(Flip(j), FlipLimits(l), d, sqrt)
    ensures var j', k := LimitedStep(j, target, l, d, sqrt), LimitedStep(Flip(j), -target, FlipLimits(l), d, sqrt);
            k.pos == -j'.pos && k.vel == -j'.vel
  {
    AllowedFlips(j, l, d, sqrt);
    StepClips(j, target, l, d, sqrt);
    StepClips(Flip(j), -target, FlipLimits(l), d, sqrt);
    var e := target - j.pos;
    assert Clip(target, l.lo, l.hi) == target && Clip(-target, -l.hi, -l.lo) == -target;
    assert -target - Flip(j).pos == -e;
    WishFlips(e, j.vel, d, sqrt);
    var w, lo, hi := Wish(e, j.vel, d, sqrt), AllowedLo(j, l, d, sqrt), AllowedHi(j, l, d, sqrt);
    ClipFlips(w, lo, hi);
    AdvanceFlips(j, Clip(w, lo, hi), d);
    hide Wish, AllowedLo, AllowedHi, Clip, Advance, LimitedStep, IsSqrt;
  }

  lemma AdvanceFlips(j: Joint, v: real, d: Drive)
    requires Sound(d)
    ensures Advance(Flip(j), -v, d).pos == -Advance(j, v, d).pos && Advance(Flip(j), -v, d).vel == -Advance(j, v, d).vel
  {
    assert (-v) * d.h == -(v * d.h);
  }

  lemma ViableFlips(j: Joint, l: Limits, d: Drive)
    requires Viable(j, l, d)
    ensures Viable(Flip(j), FlipLimits(l), d)
  {
    assert FlipLimits(l).hi - Flip(j).pos == j.pos - l.lo && Flip(j).pos - FlipLimits(l).lo == l.hi - j.pos;
    hide CanBrake;
  }

  // ----- from rest ------------------------------------------------------------------

  /** A resting joint with its target far above it starts upwards. */
  lemma RestRises(j: Joint, target: real, l: Limits, d: Drive, sqrt: real -> real)
    requires IsSqrt(sqrt) && Sound(d) && j.vel == 0.0 && l.lo <= j.pos && target <= l.hi && target - j.pos >= NEAR
    ensures Feasible(j, l, d, sqrt)
    ensures var j', e := LimitedStep(j, target, l, d, sqrt), target - j.pos;
            && j'.vel > 0.0 && j'.pos > j.pos
            && j'.vel <= Min(Min(Gain(d), d.vmax), Cap(e, d, sqrt))
  {
    var e := target - j.pos;
    RestIsViable(j.pos, l, d);
    assert Viable(j, l, d);
    ViableIsFeasible(j, l, d, sqrt);
    StepClips(j, target, l, d, sqrt);
    HighestIs(j, l, d, sqrt, e);
    CapIs(e, 0.0, d, sqrt);
    WishPositive(e, d, sqrt);
    var hi := AllowedHi(j, l, d, sqrt);
    AllowedParts(j, hi, l, d, sqrt);
    var v := Clip(Wish(e, 0.0, d, sqrt), AllowedLo(j, l, d, sqrt), hi);
    assert AllowedLo(j, l, d, sqrt) <= 0.0 by { LowestIs(j, l, d, sqrt); }
    assert 0.0 < v <= Min(hi, Wish(e, 0.0, d, sqrt));
    MulPos(v, d.h);
    hide Wish, AllowedLo, AllowedHi, IsSqrt, LimitedStep, Cap, Gain;
  }

  lemma LowestIs(j: Joint, l: Limits, d: Drive, sqrt: real -> real)
    requires IsSqrt(sqrt) && Sound(d) && l.lo <= j.pos
    ensures AllowedLo(j, l, d, sqrt) <= Max(j.vel - Gain(d), 0.0)
    ensures AllowedLo(j, l, d, sqrt) >= j.vel - Gain(d)
  {
    BrakeCapIff(j.pos - l.lo, d, sqrt, 0.0) by { MulPos(d.amax, d.h); }
    OverIff(0.0, j.pos - l.lo, d.h);
    assert l.lo - j.pos == -(j.pos - l.lo);
    hide BrakeCap, Over, Gain, IsSqrt;
  }

  lemma WishPositive(e: real, d: Drive, sqrt: real -> real)
    requires IsSqrt(sqrt) && Sound(d) && e >= NEAR
    ensures Cap(e, d, sqrt) > 0.0 && Wish(e, 0.0, d, sqrt) == Min(d.vmax, Cap(e, d, sqrt))
    ensures Cap(e, d, sqrt) * Cap(e, d, sqrt) == 1.9 * (d.amax * e)
  {
    MulPos(d.amax, e);
    assert 2.0 * d.amax * Abs(e) * MARGIN == 1.9 * (d.amax * e);
    CapIs(e, 0.0, d, sqrt);
    if Cap(e, d, sqrt) == 0.0 { assert false; }
  }

  /** How far the drive gets from rest in one period. */
  function Reach(d: Drive): real { Travel(Min(Gain(d), d.vmax), d.h) }

  /** A resting joint whose target is not near starts towards it, and does not pass it if the
      target is out of reach of one period. */
  lemma RestApproaches(j: Joint, target: real, l: Limits, d: Drive, sqrt: real -> real)
    requires IsSqrt(sqrt) && Sound(d) && j.vel == 0.0 && l.lo <= j.pos <= l.hi && l.lo <= target <= l.hi
    requires Abs(target - j.pos) >= NEAR
    ensures Feasible(j, l, d, sqrt)
    ensures var j', e := LimitedStep(j, target, l, d, sqrt), target - j.pos;
            && (if e > 0.0 then j'.pos > j.pos && j'.vel > 0.0 else j'.pos < j.pos && j'.vel < 0.0)
            && (Reach(d) <= Abs(e) ==>
                  Abs(target - j'.pos) < Abs(e) && if e > 0.0 then j'.pos <= target else j'.pos >= target)
  {
    RestIsViable(j.pos, l, d);
    ViableIsFeasible(j, l, d, sqrt);
    if target > j.pos {
      RestRisesTo(j, target, l, d, sqrt);
    } else {
      StepFlips(j, target, l, d, sqrt);
      RestRisesTo(Flip(j), -target, FlipLimits(l), d, sqrt);
    }
    hide LimitedStep, Feasible, Viable, IsSqrt, Reach;
  }

  lemma RestRisesTo(j: Joint, target: real, l: Limits, d: Drive, sqrt: real -> real)
    requires IsSqrt(sqrt) && Sound(d) && j.vel == 0.0 && l.lo <= j.pos && target <= l.hi && target - j.pos >= NEAR
    ensures Feasible(j, l, d, sqrt)
    ensures var j' := LimitedStep(j, target, l, d, sqrt);
            j'.vel > 0.0 && j'.pos > j.pos && (Reach(d) <= target - j.pos ==> j'.pos <= target)
  {
    RestRises(j, target, l, d, sqrt);
    var v := LimitedStep(j, target, l, d, sqrt).vel;
    StepMoves(j, target, l, d, sqrt);
    TravelMono(v, Min(Gain(d), d.vmax), d.h);
    hide LimitedStep, IsSqrt, Feasible, Travel, Gain, Cap;
  }

  lemma StepMoves(j: Joint, target: real, l: Limits, d: Drive, sqrt: real -> real)
    requires Sound(d)
    ensures var j' := LimitedStep(j, target, l, d, sqrt); j'.pos == j.pos + Travel(j'.vel, d.h)
  {
    hide WantedVel, AllowedLo, AllowedHi, Over;
  }

  /** Whatever the target, a free step from rest does not pass it, exactly if the drive is not
      too strong for the zone near the target. */
  lemma NeverPassesIff(d: Drive, sqrt: real -> real)
    requires IsSqrt(sqrt) && Sound(d)
    ensures (forall e: real | e >= NEAR :: FreeStep(Joint(0.0, 0.0, 0.0), e, d, sqrt).pos <= e) <==> Reach(d) <= NEAR
  {
    hide FreeStep, Cap, Gain, Travel, IsSqrt;
    forall e: real | e >= NEAR ensures Reach(d) <= NEAR ==> FreeStep(Joint(0.0, 0.0, 0.0), e, d, sqrt).pos <= e {
      FromRest(e, d, sqrt);
      TravelMono(Min(Min(Gain(d), d.vmax), Cap(e, d, sqrt)), Min(Gain(d), d.vmax), d.h);
    }
    if Reach(d) > NEAR {
      FromRest(NEAR, d, sqrt);
      CapOvershoots(d, sqrt);
      assert FreeStep(Joint(0.0, 0.0, 0.0), NEAR, d, sqrt).pos > NEAR;
    }
  }

  lemma FromRest(e: real, d: Drive, sqrt: real -> real)
    requires IsSqrt(sqrt) && Sound(d) && e >= NEAR
    ensures FreeStep(Joint(0.0, 0.0, 0.0), e, d, sqrt).pos == Travel(Min(Min(Gain(d), d.vmax), Cap(e, d, sqrt)), d.h)
  {
    MulPos(d.amax, d.h);
    assert Gain(d) > 0.0;
    WantedIs(e, 0.0, d, sqrt);
    WishPositive(e, d, sqrt);
    FreeMoves(e, d, sqrt);
    hide WantedVel, Wish, Gain, Cap, Over, FreeStep, Travel, IsSqrt;
  }

  lemma FreeMoves(e: real, d: Drive, sqrt: real -> real)
    requires Sound(d)
    ensures FreeStep(Joint(0.0, 0.0, 0.0), e, d, sqrt).pos == Travel(WantedVel(e, 0.0, d, sqrt), d.h)
  {
    hide WantedVel, Over;
    assert e - 0.0 == e;
  }

  lemma CapOvershoots(d: Drive, sqrt: real -> real)
    requires IsSqrt(sqrt) && Sound(d) && Reach(d) > NEAR
    ensures Travel(Min(Min(Gain(d), d.vmax), Cap(NEAR, d, sqrt)), d.h) > NEAR
  {
    WishPositive(NEAR, d, sqrt);
    var c, k := Cap(NEAR, d, sqrt), Kick(d.amax, d.h);
    assert Travel(Gain(d), d.h) == k;
    assert Travel(c, d.h) * Travel(c, d.h) == (c * c) * (d.h * d.h);
    assert (d.amax * NEAR) * (d.h * d.h) == NEAR * k;
    assert Travel(c, d.h) * Travel(c, d.h) == 1.9 * (NEAR * k);
    TravelMono(Min(Gain(d), d.vmax), Gain(d), d.h);
    MulPos(c, d.h);
    hide Cap, Gain, Kick, IsSqrt;
    FarEnough(Travel(c, d.h), k);
  }

  lemma FarEnough(u: real, k: real)
    requires u > 0.0 && u * u == 1.9 * (NEAR * k) && k > NEAR
    ensures u > NEAR
  {
    if u <= NEAR { SquareMono(u, NEAR); }
  }

  /** A joint that moves towards a target that is not near, no faster than wished, does not
      slow down, unless no open speed is as high. */
  lemma KeepsItsSpeed(j: Joint, target: real, l: Limits, d: Drive, sqrt: real -> real, w: real)
    requires IsSqrt(sqrt) && Sound(d) && Viable(j, l, d) && target <= l.hi && target - j.pos >= NEAR
    requires j.vel <= Min(d.vmax, Cap(target - j.pos, d, sqrt))
    ensures Feasible(j, l, d, sqrt)
    ensures var v := LimitedStep(j, target, l, d, sqrt).vel;
            v >= j.vel || (Open(j, v, l, d) && (Open(j, w, l, d) ==> w <= v))
  {
    ViableIsFeasible(j, l, d, sqrt);
    StepClips(j, target, l, d, sqrt);
    StepIsNearest(j, target, l, d, sqrt, w);
    AllowedIff(j, w, l, d, sqrt);
    CapIs(target - j.pos, j.vel, d, sqrt);
    assert Clip(target, l.lo, l.hi) == target && Abs(target - j.pos) == target - j.pos;
    var lo, hi := AllowedLo(j, l, d, sqrt), AllowedHi(j, l, d, sqrt);
    hide Cap, LimitedStep, Viable, IsSqrt, Open, Wish, AllowedLo, AllowedHi;
  }
}

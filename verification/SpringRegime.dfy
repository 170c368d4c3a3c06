/** Near a fixed target the tracker is a critically damped spring. Inside a small
    level set of `e² + 7 (h v)²` no clip and no position limit acts, so the state
    never leaves the set and there is no limit cycle around the target. */
module SpringRegime {
  import opened RealMath
  import opened Tracker

  /** What is left of an energy after one period. */
  function Shrunk(energy: real): real { 0.88 * energy }

  function Level(radius: real): real { radius * radius }

  /** Squared distance to rest at the target, in position units. */
  function Energy(j: Joint, target: real, h: real): real {
    Form(target - j.pos, Travel(j.vel, h))
  }

  /** The move that a speed makes in one period. */
  function Travel(v: real, h: real): real { v * h }

  /** The speed change that an acceleration makes in one period, in position units. */
  function Kick(a: real, h: real): real { a * h * h }

  function Form(e: real, u: real): real { e * e + 7.0 * (u * u) }

  /** The move of one unclipped spring period, in position units. */
  function Move(e: real, u: real): real { 0.3 * u + 0.1225 * e }

  /** The speed change of that period, in position units. */
  function Push(e: real, u: real): real { 0.1225 * e - 0.7 * u }

  /** A level radius small enough for the drive and for the room around the target. */
  predicate Calm(radius: real, target: real, l: Limits, d: Drive) {
    && 0.0 < radius < NEAR
    && 0.3 * radius <= Kick(d.amax, d.h)
    && 0.17 * radius <= Travel(d.vmax, d.h)
    && l.lo + 1.25 * radius <= target <= l.hi - 1.25 * radius
  }

  lemma BelowRoot(x: real, r: real)
    requires r >= 0.0 && x * x <= Level(r)
    ensures -r <= x <= r
  {
    if x > r { SquareMono(r, x); SquareMono(x, r); }
    if x < -r { assert (-x) * (-x) == x * x; SquareMono(r, -x); SquareMono(-x, r); }
  }

  lemma FormBounds(e: real, u: real, r: real)
    requires r >= 0.0 && Form(e, u) <= Level(r)
    ensures -r <= e <= r
    ensures -0.17 * r <= Move(e, u) <= 0.17 * r
    ensures -0.3 * r <= Push(e, u) <= 0.3 * r
  {
    SquareParts(e, u);
    BelowRoot(e, r);
    assert (0.17 * r) * (0.17 * r) == 0.0289 * (r * r);
    BelowRoot(Move(e, u), 0.17 * r);
    assert (0.3 * r) * (0.3 * r) == 0.09 * (r * r);
    BelowRoot(Push(e, u), 0.3 * r);
  }

  lemma SquareParts(e: real, u: real)
    ensures e * e <= Form(e, u)
    ensures Move(e, u) * Move(e, u) <= 0.0289 * Form(e, u)
    ensures Push(e, u) * Push(e, u) <= 0.09 * Form(e, u)
  {
    var ee, eu, uu := e * e, e * u, u * u;
    assert ee >= 0.0 && uu >= 0.0;
    assert Move(e, u) * Move(e, u) == 0.09 * uu + 0.0735 * eu + 0.01500625 * ee;
    assert Push(e, u) * Push(e, u) == 0.49 * uu - 0.1715 * eu + 0.01500625 * ee;
    Cross(e, u, 2.8);
    Cross(e, u, 1.4);
    Cross(e, -u, 1.4);
  }

  /** `2 e u <= e² / c + c u²`, both ways round. */
  lemma Cross(e: real, u: real, c: real)
    requires c > 0.0
    ensures 2.0 * c * (e * u) <= e * e + c * c * (u * u)
    ensures -2.0 * c * (e * u) <= e * e + c * c * (u * u)
  {
    Square(e, c * u);
    assert (c * u) * (c * u) == c * c * (u * u);
    assert e * (c * u) == c * (e * u);
  }

  lemma Square(x: real, y: real)
    ensures -2.0 * (x * y) <= x * x + y * y && 2.0 * (x * y) <= x * x + y * y
  {
    SquareNonneg(x + y);
    SquareNonneg(x - y);
    assert (x + y) * (x + y) == x * x + 2.0 * (x * y) + y * y;
    assert (x - y) * (x - y) == x * x - 2.0 * (x * y) + y * y;
  }

  lemma Contracts(e: real, u: real)
    ensures Form(e - Move(e, u), Move(e, u)) <= Shrunk(Form(e, u))
  {
    var ee, eu, uu := e * e, e * u, u * u;
    var m := Move(e, u);
    var f := 0.8775 * e - 0.3 * u;
    assert e - m == f;
    assert f * f == 0.77000625 * ee - 0.5265 * eu + 0.09 * uu;
    assert m * m == 0.09 * uu + 0.0735 * eu + 0.01500625 * ee;
    Cross(e, u, 2.0);
    assert Form(e - m, m) == f * f + 7.0 * (m * m);
    assert Shrunk(Form(e, u)) == 0.88 * ee + 6.16 * uu;
  }

  /** The spring acceleration is not clipped, and neither is the speed it wants. */
  lemma SpringUnclipped(e: real, v: real, d: Drive, sqrt: real -> real, r: real)
    requires Sound(d) && 0.0 <= r < NEAR && Form(e, Travel(v, d.h)) <= Level(r)
    requires 0.3 * r <= Kick(d.amax, d.h) && 0.17 * r <= Travel(d.vmax, d.h)
    ensures Travel(WantedVel(e, v, d, sqrt), d.h) == Move(e, Travel(v, d.h))
    ensures v - Gain(d) <= WantedVel(e, v, d, sqrt) <= v + Gain(d)
    ensures -d.vmax <= WantedVel(e, v, d, sqrt) <= d.vmax
  {
    var a := SpringPull(e, v, d);
    FormBounds(e, Travel(v, d.h), r);
    SpringScale(e, v, d);
    hide SpringPull, Faster, CapAccel, Form, Level, Gain, Move, Push, Travel, Kick;
    Unscale(a, d);
    SpeedScale(v, a, d);
  }

  lemma SpringScale(e: real, v: real, d: Drive)
    requires Sound(d)
    ensures Kick(SpringPull(e, v, d), d.h) == Push(e, Travel(v, d.h))
    ensures Push(e, Travel(v, d.h)) + Travel(v, d.h) == Move(e, Travel(v, d.h))
  {
    var w := Over(SPRING, d.h);
    assert w * d.h == SPRING;
    assert SpringPull(e, v, d) * d.h * d.h == (w * d.h) * (w * d.h) * e - 2.0 * (w * d.h) * (v * d.h);
  }

  lemma Unscale(a: real, d: Drive)
    requires Sound(d) && -Kick(d.amax, d.h) <= Kick(a, d.h) <= Kick(d.amax, d.h)
    ensures -d.amax <= a <= d.amax
  {
    assert (-d.amax) * d.h * d.h == -(d.amax * d.h * d.h);
    CancelMul(d.h, a * d.h, d.amax * d.h);
    CancelMul(d.h, a, d.amax);
    CancelMul(d.h, (-d.amax) * d.h, a * d.h);
    CancelMul(d.h, -d.amax, a);
  }

  lemma SpeedScale(v: real, a: real, d: Drive)
    requires Sound(d) && -d.amax <= a <= d.amax
    requires -Travel(d.vmax, d.h) <= Travel(v, d.h) + Kick(a, d.h) <= Travel(d.vmax, d.h)
    ensures Travel(Faster(v, a, d), d.h) == Travel(v, d.h) + Kick(a, d.h)
    ensures v - Gain(d) <= Faster(v, a, d) <= v + Gain(d)
    ensures -d.vmax <= Faster(v, a, d) <= d.vmax
  {
    FasterTravels(v, a, d);
    TravelMono(Faster(v, a, d), d.vmax, d.h);
    TravelMono(-d.vmax, Faster(v, a, d), d.h);
    assert Travel(-d.vmax, d.h) == -Travel(d.vmax, d.h);
    assert v + Travel(a, d.h) == Faster(v, a, d) && Gain(d) == Travel(d.amax, d.h);
    assert Travel(-d.amax, d.h) == -Travel(d.amax, d.h);
    TravelMono(-d.amax, a, d.h);
    TravelMono(a, d.amax, d.h);
    hide Travel, Kick, Faster, Gain;
  }

  lemma FasterTravels(v: real, a: real, d: Drive)
    ensures Travel(Faster(v, a, d), d.h) == Travel(v, d.h) + Kick(a, d.h)
  {}

  lemma TravelMono(v: real, w: real, h: real)
    requires h > 0.0
    ensures Travel(v, h) <= Travel(w, h) <==> v <= w
  {
    CancelMul(h, v, w);
  }

  /** A small move leaves room to brake before a limit that is not too close. */
  lemma RoomEnough(v: real, room: real, d: Drive, sqrt: real -> real, r: real)
    requires IsSqrt(sqrt) && Sound(d) && 0.0 <= r && room >= 0.25 * r
    requires 0.3 * r <= Kick(d.amax, d.h) && Travel(v, d.h) <= 0.17 * r
    ensures v <= BrakeCap(room, d, sqrt) && v <= Over(room, d.h)
  {
    OverIff(v, room, d.h);
    assert v * d.h == Travel(v, d.h);
    MulPos(d.amax, d.h);
    BrakeCapIff(room, d, sqrt, 0.0);
    if v > 0.0 {
      MulPos(v, d.h);
      BrakeCapIff(room, d, sqrt, v);
      FastEnough(Travel(v, d.h), room, Kick(d.amax, d.h), r);
      BrakeScale(v, room, d);
    }
    hide BrakeCap, Over, Kick, Travel, Gain, IsSqrt;
  }

  lemma BrakeScale(v: real, room: real, d: Drive)
    requires Sound(d) && Roomy(Travel(v, d.h), room, Kick(d.amax, d.h))
    ensures v * v + 2.0 * Gain(d) * v <= 2.0 * d.amax * room
  {
    var hh := d.h * d.h;
    MulPos(d.h, d.h);
    assert hh * (v * v) == (v * d.h) * (v * d.h);
    assert hh * (Gain(d) * v) == (d.amax * d.h * d.h) * (v * d.h);
    assert hh * (d.amax * room) == (d.amax * d.h * d.h) * room;
    CancelMul(hh, v * v + 2.0 * (Gain(d) * v), 2.0 * (d.amax * room));
    assert hh * (v * v + 2.0 * (Gain(d) * v)) == hh * (v * v) + 2.0 * (hh * (Gain(d) * v));
    assert hh * (2.0 * (d.amax * room)) == 2.0 * (hh * (d.amax * room));
  }

  /** One move and the braking after it fit into the room, in position units. */
  predicate Roomy(u: real, room: real, push: real) {
    u * u + 2.0 * push * u <= 2.0 * push * room
  }

  lemma FastEnough(u: real, room: real, push: real, r: real)
    requires 0.0 <= u <= 0.17 * r && 0.3 * r <= push && room >= 0.25 * r
    ensures Roomy(u, room, push)
  {
    MulMono(u, 0.17 * r, u);
    MulMono(0.17 * r, 0.17 * push / 0.3, u);
    MulMono(u, 0.17 * r, push);
    MulMono(0.25 * r, room, push);
  }

  /** One period inside the level set: the step is the linear spring, the state stays
      in the set, and the energy falls by at least 12 %. */
  lemma SpringStep(j: Joint, target: real, l: Limits, d: Drive, sqrt: real -> real, r: real)
    requires IsSqrt(sqrt) && Sound(d) && Calm(r, target, l, d) && Energy(j, target, d.h) <= Level(r)
    ensures var j' := LimitedStep(j, target, l, d, sqrt);
            && j' == FreeStep(j, target, d, sqrt)
            && j'.pos - j.pos == Move(target - j.pos, Travel(j.vel, d.h))
            && Energy(j', target, d.h) <= Shrunk(Energy(j, target, d.h))
    ensures Feasible(j, l, d, sqrt)
  {
    var e, u := target - j.pos, Travel(j.vel, d.h);
    var v := WantedVel(e, j.vel, d, sqrt);
    SpringUnclipped(e, j.vel, d, sqrt, r);
    FormBounds(e, u, r);
    hide WantedVel, Move, Form, Level, AllowedLo, AllowedHi, Gain, Travel, Kick, Push;
    SpringAllowed(j, v, l, d, sqrt, r);
    Unlimited(j, target, v, l, d, sqrt);
    AdvanceMoves(j, v, d);
    Contracts(e, u);
    hide Advance, LimitedStep, FreeStep, Shrunk, IsSqrt;
    assert target - Advance(j, v, d).pos == e - Move(e, u);
  }

  lemma Unlimited(j: Joint, target: real, v: real, l: Limits, d: Drive, sqrt: real -> real)
    requires Sound(d) && l.lo <= target <= l.hi && v == WantedVel(target - j.pos, j.vel, d, sqrt)
    requires AllowedLo(j, l, d, sqrt) <= v <= AllowedHi(j, l, d, sqrt)
    ensures LimitedStep(j, target, l, d, sqrt) == Advance(j, v, d) == FreeStep(j, target, d, sqrt)
  {
    hide WantedVel, AllowedLo, AllowedHi, Advance;
  }

  lemma AdvanceMoves(j: Joint, v: real, d: Drive)
    requires Sound(d)
    ensures Advance(j, v, d).pos == j.pos + Travel(v, d.h) && Advance(j, v, d).vel == v
  {}

  lemma SpringAllowed(j: Joint, v: real, l: Limits, d: Drive, sqrt: real -> real, r: real)
    requires IsSqrt(sqrt) && Sound(d) && 0.0 < r && 0.3 * r <= Kick(d.amax, d.h)
    requires l.lo + 0.25 * r <= j.pos <= l.hi - 0.25 * r && -0.17 * r <= Travel(v, d.h) <= 0.17 * r
    requires j.vel - Gain(d) <= v <= j.vel + Gain(d) && -d.vmax <= v <= d.vmax
    ensures AllowedLo(j, l, d, sqrt) <= v <= AllowedHi(j, l, d, sqrt)
  {
    assert Travel(-v, d.h) == -Travel(v, d.h);
    OverIff(v, j.pos - l.lo, d.h);
    assert l.lo - j.pos == -(j.pos - l.lo);
    hide BrakeCap, Over, Gain, IsSqrt, Kick, Travel;
    RoomEnough(v, l.hi - j.pos, d, sqrt, r);
    RoomEnough(-v, j.pos - l.lo, d, sqrt, r);
  }

  // ----- whole runs ---------------------------------------------------------------

  function Hold(j: Joint, target: real, n: nat, l: Limits, d: Drive, sqrt: real -> real): Joint
    requires Sound(d)
  {
    if n == 0 then j else LimitedStep(Hold(j, target, n - 1, l, d, sqrt), target, l, d, sqrt)
  }

  /** What is left of an energy after `n` periods. */
  function Left(n: nat, energy: real): real {
    if n == 0 then energy else Shrunk(Left(n - 1, energy))
  }

  lemma {:induction false} LeftMono(n: nat, x: real, y: real)
    requires 0.0 <= x <= y
    ensures 0.0 <= Left(n, x) <= Left(n, y) <= y
  {
    if n > 0 { LeftMono(n - 1, x, y); }
  }

  /** The squared distance to the target. */
  function Miss(j: Joint, target: real): real { (target - j.pos) * (target - j.pos) }

  lemma EnergyIsNonnegative(j: Joint, target: real, h: real)
    ensures Energy(j, target, h) >= Miss(j, target) >= 0.0
  {
    SquareParts(target - j.pos, Travel(j.vel, h));
  }

  /** For a fixed target the energy falls by at least 12 % in every period, the state
      never leaves the set, and no step fails, however many periods pass. */
  lemma {:induction false} NoLimitCycle(j: Joint, target: real, n: nat, l: Limits, d: Drive,
      sqrt: real -> real, r: real)
    requires IsSqrt(sqrt) && Sound(d) && Calm(r, target, l, d) && Energy(j, target, d.h) <= Level(r)
    ensures var k := Hold(j, target, n, l, d, sqrt);
            && Energy(k, target, d.h) <= Left(n, Energy(j, target, d.h))
            && Energy(k, target, d.h) <= Level(r)
            && Energy(LimitedStep(k, target, l, d, sqrt), target, d.h) <= Shrunk(Energy(k, target, d.h))
            && Feasible(k, l, d, sqrt)
  {
    if n > 0 {
      NoLimitCycle(j, target, n - 1, l, d, sqrt, r);
      EnergyIsNonnegative(Hold(j, target, n - 1, l, d, sqrt), target, d.h);
    }
    hide Energy, Level, Calm, Feasible, LimitedStep, FreeStep, Move, IsSqrt, Sound;
    SpringStep(Hold(j, target, n, l, d, sqrt), target, l, d, sqrt, r);
  }

  /** How close the joint is after `n` periods, without square roots. */
  lemma Settles(j: Joint, target: real, n: nat, l: Limits, d: Drive, sqrt: real -> real, r: real)
    requires IsSqrt(sqrt) && Sound(d) && Calm(r, target, l, d) && Energy(j, target, d.h) <= Level(r)
    ensures var k := Hold(j, target, n, l, d, sqrt);
            Miss(k, target) <= Left(n, Level(r))
  {
    NoLimitCycle(j, target, n, l, d, sqrt, r);
    EnergyIsNonnegative(j, target, d.h);
    EnergyIsNonnegative(Hold(j, target, n, l, d, sqrt), target, d.h);
    LeftMono(n, Energy(j, target, d.h), Level(r));
    hide Energy, Miss, Level, Calm, Feasible, LimitedStep, Hold, Left, IsSqrt, Sound;
  }
}

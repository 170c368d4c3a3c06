/** How a joint comes home, in position units: its distance to a fixed target, and the move
    its speed makes in a period. From anywhere it gets into the zone where the tracker is an
    unclipped spring, in a number of periods that the drive determines. */
module Homing {
  import opened RealMath
  import opened SpringRegime
  import opened Tracker

  /** Distance to the target, and move per period towards it. */
  datatype Phase = Phase(e: real, u: real)

  function Mirror(x: Phase): Phase { Phase(-x.e, -x.u) }

  /** The speed change of a period is small against the zone near a target, and not tiny. */
  predicate Suited(k: real) { NEAR <= 20.0 * k && 10.0 * k <= NEAR }

  predicate Close(x: Phase) { -NEAR < x.e < NEAR }

  /** What a period does on the side of positive distances. `k` is the largest speed change,
      `m` a speed kept at least until the target is near. */
  predicate Side(x: Phase, y: Phase, k: real, m: real) {
    && (x.e >= NEAR ==> y.u * y.u <= 1.9 * (k * x.e) || y.u <= Max(x.u - k, 0.0))
    && (x.e >= NEAR ==> y.u >= Min(x.u + k, m))
    && (Close(x) && Push(x.e, x.u) < -k ==> y.u <= Max(x.u - k, 0.0))
    && (Close(x) && Push(x.e, x.u) < -k && x.u <= 0.0 ==> y.u == x.u - k)
  }

  /** One period towards a fixed target. */
  predicate Period(x: Phase, y: Phase, k: real, m: real) {
    && y.e == x.e - y.u && x.u - k <= y.u <= x.u + k
    && Side(x, y, k, m) && Side(Mirror(x), Mirror(y), k, m)
    && (InSpring(x, k) ==> y.u == Move(x.e, x.u))
  }

  /** Near the target, and slow enough that the spring is not clipped. */
  predicate InSpring(x: Phase, k: real) { Close(x) && -k <= Push(x.e, x.u) <= k }

  lemma MirrorPeriod(x: Phase, y: Phase, k: real, m: real)
    requires Period(x, y, k, m)
    ensures Period(Mirror(x), Mirror(y), k, m)
  {
    assert Mirror(Mirror(x)) == x && Mirror(Mirror(y)) == y;
    assert Push(-x.e, -x.u) == -Push(x.e, x.u) && Move(-x.e, -x.u) == -Move(x.e, x.u);
    hide Side;
  }

  // ----- the spring zone ------------------------------------------------------------

  /** The zone is never left, and the distance shrinks in it. */
  lemma SpringStays(x: Phase, y: Phase, k: real, m: real)
    requires Suited(k) && Period(x, y, k, m) && InSpring(x, k)
    ensures InSpring(y, k) && Form(y.e, y.u) <= Shrunk(Form(x.e, x.u))
  {
    Contracts(x.e, x.u);
    assert y.u == 0.3 * x.u + 0.1225 * x.e;
  }

  // ----- approaching ----------------------------------------------------------------

  /** The joint can stop at the target, or passes it by a few periods' speed change. */
  predicate Stops(x: Phase, k: real) { x.u * (x.u - k) <= 2.0 * k * (x.e + 2.375 * k) }

  predicate Homes(x: Phase, k: real) { x.e >= -2.5 * k && (x.u > k ==> Stops(x, k)) }

  /** Braking as hard as possible keeps the stopping point. */
  lemma BrakeStops(x: Phase, y: Phase, k: real)
    requires k > 0.0 && Stops(x, k) && y.u == x.u - k && y.e == x.e - y.u
    ensures Stops(y, k)
    ensures y.e >= -2.5 * k
  {
    assert y.u * (y.u - k) == x.u * (x.u - k) - 2.0 * k * (x.u - k);
    assert 2.0 * k * (y.e + 2.375 * k) == 2.0 * k * (x.e + 2.375 * k) - 2.0 * k * (x.u - k);
    StopsBehind(y, k);
  }

  lemma StopsBehind(y: Phase, k: real)
    requires k > 0.0 && Stops(y, k)
    ensures y.e >= -2.5 * k
  {
    SquareNonneg(y.u - 0.5 * k);
    assert (y.u - 0.5 * k) * (y.u - 0.5 * k) == y.u * (y.u - k) + 0.25 * (k * k);
    var z := y.e + 2.5 * k;
    assert 2.0 * k * (y.e + 2.375 * k) == 2.0 * (k * z) - 0.25 * (k * k);
    assert k * z >= 0.0;
    CancelMul(k, 0.0, z);
  }

  /** So does a speed that the wish allows. */
  lemma WishStops(x: Phase, y: Phase, k: real)
    requires k > 0.0 && y.u * y.u <= 1.9 * (k * x.e) && y.e == x.e - y.u
    ensures Stops(y, k)
    ensures y.e >= -2.5 * k
  {
    SquareNonneg(y.u - 9.5 * k);
    assert (y.u - 9.5 * k) * (y.u - 9.5 * k) == y.u * y.u - 19.0 * (k * y.u) + 90.25 * (k * k);
    assert y.u * (y.u - k) == y.u * y.u - k * y.u;
    assert 2.0 * k * (y.e + 2.375 * k) == 2.0 * (k * x.e) - 2.0 * (k * y.u) + 4.75 * (k * k);
    StopsBehind(y, k);
  }

  lemma SlowsDown(x: Phase, y: Phase, k: real)
    requires k > 0.0 && Homes(x, k) && y.e == x.e - y.u && x.u - k <= y.u <= Max(x.u - k, 0.0)
    ensures Homes(y, k)
  {
    if x.u > k { BrakeStops(x, y, k); }
    hide Stops;
  }

  /** Accelerating towards a target that is near does not go too far either. */
  lemma SpeedsUp(x: Phase, y: Phase, k: real)
    requires Suited(k) && Homes(x, k) && Close(x) && Push(x.e, x.u) > k
    requires y.e == x.e - y.u && y.u <= x.u + k
    ensures Homes(y, k)
    ensures y.u <= 0.175 * x.e - 0.42 * k
  {
    assert y.u <= 0.175 * x.e - 0.42 * k;
    if y.u > k {
      SlowStops(x.e, y.u, k);
      assert 2.0 * k * (y.e + 2.375 * k) == 2.0 * k * (x.e - y.u + 2.375 * k);
    }
  }

  lemma SlowStops(e: real, u: real, k: real)
    requires 0.0 < k < u && u <= 3.5 * k && u <= 0.175 * e
    ensures u * (u - k) <= 2.0 * k * (e - u + 2.375 * k)
  {
    var a, b, q, kk := k * e, k * u, u * u, k * k;
    assert q <= 3.5 * b by { MulMono(u, 3.5 * k, u); assert 3.5 * k * u == 3.5 * b; }
    assert b <= 0.175 * a by { MulMono(u, 0.175 * e, k); assert k * (0.175 * e) == 0.175 * a; }
    assert kk >= 0.0 && b > 0.0 by { MulPos(k, k); MulPos(k, u); }
    assert u * (u - k) == q - b;
    assert 2.0 * k * (e - u + 2.375 * k) == 2.0 * a - 2.0 * b + 4.75 * kk;
  }

  /** A joint on its way home stays so until it is in the spring zone. */
  lemma HomesStays(x: Phase, y: Phase, k: real, m: real)
    requires Suited(k) && Period(x, y, k, m) && Homes(x, k) && !InSpring(x, k)
    ensures Homes(y, k)
  {
    hide Stops, Push, Move;
    if x.e >= NEAR {
      if y.u * y.u <= 1.9 * (k * x.e) { WishStops(x, y, k); } else { SlowsDown(x, y, k); }
    } else if Push(x.e, x.u) > k {
      SpeedsUp(x, y, k);
    } else {
      SlowsDown(x, y, k);
    }
  }

  // ----- what each period gains -----------------------------------------------------

  /** On its way home, and not moving away. */
  predicate Forward(x: Phase, k: real) { Homes(x, k) && x.u >= 0.0 }

  /** Moving away comes to an end. */
  lemma TurnsRound(x: Phase, y: Phase, k: real, m: real)
    requires Suited(k) && m > 0.0 && Period(x, y, k, m) && Homes(x, k) && !InSpring(x, k) && x.u < 0.0
    ensures y.u >= Min(x.u + k, 0.0)
  {
    assert Push(-x.e, -x.u) == -Push(x.e, x.u);
    if x.e < NEAR { assert Push(x.e, x.u) > k; }
  }

  lemma ForwardStays(x: Phase, y: Phase, k: real, m: real)
    requires Suited(k) && m > 0.0 && Period(x, y, k, m) && Forward(x, k) && !InSpring(x, k)
    ensures Forward(y, k) || InSpring(y, k)
  {
    HomesStays(x, y, k, m);
    assert Push(-x.e, -x.u) == -Push(x.e, x.u);
    hide Stops;
  }

  /** Far from the target the speed rises to `m`, and with it the distance falls. */
  lemma FarGains(x: Phase, y: Phase, k: real, m: real)
    requires m > 0.0 && k > 0.0 && Period(x, y, k, m) && x.e >= NEAR
    ensures y.u >= Min(x.u + k, m) && y.e == x.e - y.u
  {}

  /** Near it, too slow: two periods of acceleration are enough. */
  lemma NearSpeedsUp(x: Phase, y: Phase, k: real, m: real)
    requires Suited(k) && Period(x, y, k, m) && Forward(x, k) && Close(x) && Push(x.e, x.u) > k
    ensures Forward(y, k) && Close(y) && -k <= Push(y.e, y.u) <= Push(x.e, x.u) - 0.8 * k
    ensures Push(x.e, x.u) <= 2.45 * k
  {
    assert Push(-x.e, -x.u) == -Push(x.e, x.u);
    assert y.u == x.u + k;
    SpeedsUp(x, y, k);
    hide Stops;
  }

  /** Too fast: each period takes off speed, until the spring is not clipped. */
  lemma NearSlowsDown(x: Phase, y: Phase, k: real, m: real)
    requires Suited(k) && Period(x, y, k, m) && Forward(x, k) && Close(x) && Push(x.e, x.u) < -k
    ensures InSpring(y, k) || (Forward(y, k) && Close(y) && Push(y.e, y.u) < -k && y.u == x.u - k)
  {
    SlowsDown(x, y, k);
    hide Stops;
  }

  /** Too fast to stop at a target ahead. */
  predicate Fast(x: Phase, k: real) { x.u > k && x.e > 2.5 * k && !Stops(x, k) }

  lemma Classified(x: Phase, k: real)
    requires k > 0.0
    ensures Homes(x, k) || Homes(Mirror(x), k) || Fast(x, k) || Fast(Mirror(x), k)
  {
    hide Stops;
  }

  lemma SlowIsNotFast(x: Phase, k: real)
    requires 0.0 < k < x.u && x.u <= 3.5 * k && x.u <= 0.175 * x.e
    ensures Stops(x, k)
  {
    var a, b := k * (x.e + 2.375 * k), k * x.u;
    SlowStops(x.e, x.u, k);
    MulPos(k, x.u);
    assert k * (x.e - x.u + 2.375 * k) == a - b;
    assert 2.0 * k * (x.e - x.u + 2.375 * k) == 2.0 * (k * (x.e - x.u + 2.375 * k));
    assert 2.0 * k * (x.e + 2.375 * k) == 2.0 * a;
  }

  /** Such a joint brakes, until it is slow enough or has passed the target. */
  lemma FastSlowsDown(x: Phase, y: Phase, k: real, m: real)
    requires Suited(k) && Period(x, y, k, m) && Fast(x, k) && !InSpring(x, k)
    ensures Homes(y, k) || Homes(Mirror(y), k) || (Fast(y, k) && y.u == x.u - k)
  {
    if x.e >= NEAR && y.u * y.u <= 1.9 * (k * x.e) {
      WishStops(x, y, k);
    } else {
      if Push(x.e, x.u) > k && x.e < NEAR {
        SlowIsNotFast(x, k);
        assert false;
      }
      assert y.u == x.u - k;
      Classified(y, k);
    }
    hide Stops;
  }

  // ----- how long it takes ----------------------------------------------------------

  /** Periods one after the other, within bounds on move and distance. */
  ghost predicate Run(f: nat -> Phase, k: real, m: real, top: real, range: real) {
    forall n: nat :: Period(f(n), f(n + 1), k, m) && -top <= f(n).u <= top && -range <= f(n).e <= range
  }

  function Total(n: nat, k: real): real { if n == 0 then 0.0 else Total(n - 1, k) + k }

  ghost predicate Homeward(x: Phase, k: real) { Homes(x, k) || Homes(Mirror(x), k) || InSpring(x, k) }

  lemma {:induction false} FastEnds(f: nat -> Phase, i: nat, c: nat, k: real, m: real, top: real,
      range: real) returns (n: nat)
    requires Suited(k) && Run(f, k, m, top, range) && Fast(f(i), k) && f(i).u <= Total(c, k)
    ensures i <= n <= i + c && Homeward(f(n), k)
    decreases c
  {
    n := i;
    if !InSpring(f(i), k) {
      FastSlowsDown(f(i), f(i + 1), k, m);
      n := i + 1;
      hide Fast, Homes, InSpring, Period;
      if !Homeward(f(i + 1), k) {
        FastAtAll(f(i), k);
        n := FastEnds(f, i + 1, c - 1, k, m, top, range);
      }
    }
  }

  lemma FastAtAll(x: Phase, k: real)
    requires Fast(x, k)
    ensures x.u > k
  {}

  lemma {:induction false} TurnEnds(f: nat -> Phase, i: nat, c: nat, k: real, m: real, top: real,
      range: real) returns (n: nat)
    requires Suited(k) && m > 0.0 && Run(f, k, m, top, range) && Homes(f(i), k) && -f(i).u <= Total(c, k)
    ensures i <= n <= i + c && (InSpring(f(n), k) || Forward(f(n), k))
    decreases c
  {
    n := i;
    if !InSpring(f(i), k) && f(i).u < 0.0 {
      TurnsRound(f(i), f(i + 1), k, m);
      HomesStays(f(i), f(i + 1), k, m);
      hide Homes, InSpring, Period;
      if f(i + 1).u >= 0.0 { n := i + 1; } else { n := TurnEnds(f, i + 1, c - 1, k, m, top, range); }
    }
  }

  /** Fast enough, or there. */
  ghost predicate Paced(x: Phase, k: real, m: real) {
    InSpring(x, k) || (Forward(x, k) && (x.e < NEAR || x.u >= m))
  }

  lemma {:induction false} PaceEnds(f: nat -> Phase, i: nat, c: nat, k: real, m: real, top: real,
      range: real) returns (n: nat)
    requires Suited(k) && m > 0.0 && Run(f, k, m, top, range) && Forward(f(i), k) && m <= f(i).u + Total(c, k)
    ensures i <= n <= i + c && Paced(f(n), k, m)
    decreases c
  {
    n := i;
    if !InSpring(f(i), k) && f(i).e >= NEAR && f(i).u < m {
      FarGains(f(i), f(i + 1), k, m);
      ForwardStays(f(i), f(i + 1), k, m);
      hide Forward, InSpring, Period;
      n := i + 1;
      if !InSpring(f(n), k) && f(n).u < m { n := PaceEnds(f, n, c - 1, k, m, top, range); }
    }
  }

  lemma {:induction false} FarEnds(f: nat -> Phase, i: nat, b: nat, k: real, m: real, top: real,
      range: real) returns (n: nat)
    requires Suited(k) && m > 0.0 && Run(f, k, m, top, range) && Paced(f(i), k, m) && f(i).e <= Total(b, m)
    ensures i <= n <= i + b && (InSpring(f(n), k) || (Forward(f(n), k) && Close(f(n))))
    decreases b
  {
    n := i;
    if !InSpring(f(i), k) && f(i).e >= NEAR {
      FarGains(f(i), f(i + 1), k, m);
      ForwardStays(f(i), f(i + 1), k, m);
      hide Forward, InSpring, Period;
      n := FarEnds(f, i + 1, b - 1, k, m, top, range);
    }
  }

  lemma {:induction false} BrakeEnds(f: nat -> Phase, i: nat, c: nat, k: real, m: real, top: real,
      range: real) returns (n: nat)
    requires Suited(k) && Run(f, k, m, top, range) && Forward(f(i), k) && Close(f(i))
    requires Push(f(i).e, f(i).u) < -k && f(i).u <= Total(c, k)
    ensures i <= n <= i + c && InSpring(f(n), k)
    decreases c
  {
    NearSlowsDown(f(i), f(i + 1), k, m);
    assert c > 0;
    hide Forward, InSpring, Period;
    if InSpring(f(i + 1), k) { n := i + 1; } else { n := BrakeEnds(f, i + 1, c - 1, k, m, top, range); }
  }

  lemma NearEnds(f: nat -> Phase, i: nat, c: nat, k: real, m: real, top: real, range: real) returns (n: nat)
    requires Suited(k) && Run(f, k, m, top, range) && Forward(f(i), k) && Close(f(i)) && f(i).u <= Total(c, k)
    ensures i <= n <= i + c + 2 && InSpring(f(n), k)
  {
    n := i;
    if Push(f(i).e, f(i).u) > k {
      NearSpeedsUp(f(i), f(i + 1), k, m);
      if Push(f(i + 1).e, f(i + 1).u) > k { NearSpeedsUp(f(i + 1), f(i + 2), k, m); n := i + 2; } else { n := i + 1; }
    } else if Push(f(i).e, f(i).u) < -k {
      n := BrakeEnds(f, i, c, k, m, top, range);
    }
  }

  /** From a state on its way home the spring zone is reached. */
  lemma HomeEnds(f: nat -> Phase, i: nat, a: nat, b: nat, k: real, m: real, top: real, range: real) returns (n: nat)
    requires Suited(k) && 0.0 < m <= top && Run(f, k, m, top, range) && Homes(f(i), k)
    requires top <= Total(a, k) && range <= Total(b, m)
    ensures i <= n <= i + 3 * a + b + 2 && InSpring(f(n), k)
  {
    hide Homes, InSpring, Period, Forward, Close;
    n := TurnEnds(f, i, a, k, m, top, range);
    if !InSpring(f(n), k) {
      assert f(n).u >= 0.0 by { ForwardAtAll(f(n), k); }
      n := PaceEnds(f, n, a, k, m, top, range);
      n := FarEnds(f, n, b, k, m, top, range);
      if !InSpring(f(n), k) { n := NearEnds(f, n, a, k, m, top, range); }
    }
  }

  lemma ForwardAtAll(x: Phase, k: real)
    requires Forward(x, k)
    ensures x.u >= 0.0
  {}

  function Mirrored(f: nat -> Phase): nat -> Phase { (n: nat) => Mirror(f(n)) }

  lemma MirrorRun(f: nat -> Phase, k: real, m: real, top: real, range: real)
    requires Run(f, k, m, top, range)
    ensures Run(Mirrored(f), k, m, top, range)
  {
    var g := Mirrored(f);
    forall n: nat ensures Period(g(n), g(n + 1), k, m) { MirrorPeriod(f(n), f(n + 1), k, m); }
  }

  lemma MirrorSpring(x: Phase, k: real)
    ensures InSpring(Mirror(x), k) <==> InSpring(x, k)
    ensures Mirror(Mirror(x)) == x
  {
    assert Push(-x.e, -x.u) == -Push(x.e, x.u);
  }

  /** From every state, within this many periods the joint is in the spring zone. */
  lemma ComesHome(f: nat -> Phase, a: nat, b: nat, k: real, m: real, top: real, range: real) returns (n: nat)
    requires Suited(k) && 0.0 < m <= top && Run(f, k, m, top, range)
    requires top <= Total(a, k) && range <= Total(b, m)
    ensures n <= 4 * a + b + 2 && InSpring(f(n), k)
  {
    var g := Mirrored(f);
    MirrorRun(f, k, m, top, range);
    Classified(f(0), k);
    n := 0;
    MirrorSpring(f(0), k);
    hide Homes, InSpring, Period, Fast, Mirror, Run;
    if !Homeward(f(0), k) {
      if Fast(f(0), k) {
        n := FastEnds(f, 0, a, k, m, top, range) by { TopOf(f, 0, a, k, m, top, range); }
      } else {
        n := FastEnds(g, 0, a, k, m, top, range) by { TopOf(g, 0, a, k, m, top, range); }
      }
      MirrorSpring(f(n), k);
    }
    n := HomewardEnds(f, g, n, a, b, k, m, top, range);
  }

  lemma TopOf(f: nat -> Phase, i: nat, a: nat, k: real, m: real, top: real, range: real)
    requires Run(f, k, m, top, range) && top <= Total(a, k)
    ensures f(i).u <= Total(a, k)
  {}

  lemma HomewardEnds(f: nat -> Phase, g: nat -> Phase, i: nat, a: nat, b: nat, k: real, m: real, top: real, range: real)
    returns (n: nat)
    requires Suited(k) && 0.0 < m <= top && Run(f, k, m, top, range) && Run(g, k, m, top, range)
    requires top <= Total(a, k) && range <= Total(b, m)
    requires (forall n: nat :: g(n) == Mirror(f(n))) && Homeward(f(i), k)
    ensures i <= n <= i + 3 * a + b + 2 && InSpring(f(n), k)
  {
    hide Homes, InSpring, Run;
    n := i;
    if !InSpring(f(i), k) {
      if Homes(f(i), k) {
        n := HomeEnds(f, i, a, b, k, m, top, range);
      } else {
        n := HomeEnds(g, i, a, b, k, m, top, range);
        MirrorSpring(f(n), k);
      }
    }
  }
}

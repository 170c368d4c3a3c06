/** Motion primitives: clips of offsets sampled by linear interpolation, and the largest
    yaw factor that keeps a clip inside limits around an anchor. */
module Primitives {
  import opened Poses
  import opened RealMath

  /** `times` in seconds from zero, `offsets` relative to the first frame. */
  datatype Primitive = Primitive(name: string, times: seq<real>, offsets: seq<Pose>, loop: bool)

  predicate WellFormed(p: Primitive) {
    && |p.times| >= 2 && |p.offsets| == |p.times|
    && p.times[0] == 0.0
    && (forall i :: 0 <= i < |p.times| - 1 ==> p.times[i] < p.times[i + 1])
    && Shaped(p.offsets)
  }

  function Duration(p: Primitive): real
    requires WellFormed(p)
  {
    p.times[|p.times| - 1]
  }

  lemma {:induction false} TimesIncrease(p: Primitive, i: nat)
    requires WellFormed(p) && 0 < i < |p.times|
    ensures p.times[i] > 0.0
  {
    if i > 1 { TimesIncrease(p, i - 1); }
    assert p.times[i - 1] < p.times[i - 1 + 1];
  }

  // ----- sampling -----------------------------------------------------------------

  /** The last frame at or before `x`, searching back from frame `i`. */
  function FrameBefore(p: Primitive, x: real, i: nat): (k: nat)
    requires WellFormed(p) && i < |p.times| - 1 && 0.0 <= x < p.times[i + 1]
    ensures k <= i && p.times[k] <= x < p.times[k + 1]
  {
    if p.times[i] <= x then i else FrameBefore(p, x, i - 1)
  }

  function Between(p: Primitive, x: real, k: nat): real
    requires WellFormed(p) && k < |p.times| - 1
  {
    Over(x - p.times[k], p.times[k + 1] - p.times[k])
  }

  /** `numpy.interp` on all joints, inside the clip. */
  function Interpolated(p: Primitive, x: real): (q: Pose)
    requires WellFormed(p) && 0.0 <= x < Duration(p)
    ensures |q| == NJ
  {
    var k := FrameBefore(p, x, |p.times| - 2);
    Lerp(p.offsets[k], p.offsets[k + 1], Between(p, x, k))
  }

  const STILL: Pose := [0.0, 0.0, 0.0, 0.0, 0.0]

  /** The offset at clip time `t`: nothing outside a clip that does not loop. */
  function Sample(p: Primitive, t: real): (q: Pose)
    requires WellFormed(p)
    ensures |q| == NJ
  {
    TimesIncrease(p, |p.times| - 1);
    if t <= 0.0 then STILL
    else if p.loop then Interpolated(p, Modulo(t, Duration(p)))
    else if t >= Duration(p) then STILL
    else Interpolated(p, t)
  }

  // What a clip plays: its frames at their times, straight lines between them, the same
  // again and again if it loops, and nothing before it and after it.

  lemma {:induction false} TimesOrdered(p: Primitive, i: nat, k: nat)
    requires WellFormed(p) && i < k < |p.times|
    ensures p.times[i] < p.times[k]
  {
    if i < k - 1 { TimesOrdered(p, i, k - 1); }
    assert p.times[k - 1] < p.times[k - 1 + 1];
  }

  lemma FrameBeforeIs(p: Primitive, x: real, k: nat)
    requires WellFormed(p) && k < |p.times| - 1 && p.times[k] <= x < p.times[k + 1] && 0.0 <= x < Duration(p)
    ensures FrameBefore(p, x, |p.times| - 2) == k
  {
    var i := FrameBefore(p, x, |p.times| - 2);
    if i < k && i + 1 < k { TimesOrdered(p, i + 1, k); }
    if k < i && k + 1 < i { TimesOrdered(p, k + 1, i); }
    hide FrameBefore;
  }

  /** Between two frames the clip moves on a straight line, in its time. */
  lemma SampleBetween(p: Primitive, t: real, k: nat)
    requires WellFormed(p) && 0.0 < t && k < |p.times| - 1 && p.times[k] <= t < p.times[k + 1]
    ensures p.times[k] < p.times[k + 1]
    ensures Sample(p, t) == Lerp(p.offsets[k], p.offsets[k + 1], Over(t - p.times[k], p.times[k + 1] - p.times[k]))
  {
    var n := |p.times| - 1;
    TimesIncrease(p, n);
    if k + 1 < n { TimesOrdered(p, k + 1, n); }
    if p.loop { ModuloBelow(t, Duration(p)); }
    FrameBeforeIs(p, t, k);
    hide FrameBefore, Lerp, Over, Modulo;
  }

  /** Each frame but the last is played at its time. */
  lemma SampleAtFrame(p: Primitive, k: nat)
    requires WellFormed(p) && 0 < k < |p.times| - 1
    ensures Sample(p, p.times[k]) == p.offsets[k]
  {
    TimesIncrease(p, k);
    assert p.times[k] < p.times[k + 1];
    SampleBetween(p, p.times[k], k);
    OverNothing(p.times[k + 1] - p.times[k]);
    LerpEnds(p.offsets[k], p.offsets[k + 1]);
    hide Sample, Lerp, Over;
  }

  lemma OverNothing(h: real)
    requires h > 0.0
    ensures Over(0.0, h) == 0.0
  {}

  /** A clip that loops repeats itself; another one is still before its start and from its
      end on. */
  lemma SampleOutside(p: Primitive, t: real)
    requires WellFormed(p)
    ensures Duration(p) > 0.0
    ensures t <= 0.0 || (!p.loop && t >= Duration(p)) ==> Sample(p, t) == [0.0, 0.0, 0.0, 0.0, 0.0]
    ensures t > 0.0 && p.loop ==> Sample(p, t + Duration(p)) == Sample(p, t)
  {
    TimesIncrease(p, |p.times| - 1);
    if p.loop { ModuloAgain(t, Duration(p)); }
    hide Interpolated, Modulo;
  }

  lemma InterpolatedWithin(p: Primitive, x: real, j: nat, lo: real, hi: real)
    requires WellFormed(p) && 0.0 <= x < Duration(p) && j < NJ && JointWithin(p.offsets, j, lo, hi)
    ensures lo <= Interpolated(p, x)[j] <= hi
  {
    var k := FrameBefore(p, x, |p.times| - 2);
    var f := Between(p, x, k);
    OverIff(0.0, x - p.times[k], p.times[k + 1] - p.times[k]);
    OverIff(1.0, x - p.times[k], p.times[k + 1] - p.times[k]);
    MixInHull(p.offsets[k][j], p.offsets[k + 1][j], f, lo, hi);
    hide Mix, Over;
  }

  /** Every sample lies in the hull of the frames and zero, joint by joint. */
  lemma SampleWithin(p: Primitive, t: real, j: nat, lo: real, hi: real)
    requires WellFormed(p) && j < NJ && JointWithin(p.offsets, j, lo, hi) && lo <= 0.0 <= hi
    ensures lo <= Sample(p, t)[j] <= hi
  {
    TimesIncrease(p, |p.times| - 1);
    hide Interpolated, Modulo, JointWithin;
    if t > 0.0 && p.loop {
      InterpolatedWithin(p, Modulo(t, Duration(p)), j, lo, hi);
    } else if 0.0 < t < Duration(p) {
      InterpolatedWithin(p, t, j, lo, hi);
    }
  }

  // ----- resampling ---------------------------------------------------------------

  /** How many frames a clip gets at a control period. */
  function GridSize(p: Primitive, dt: real): (n: nat)
    requires WellFormed(p) && dt > 0.0
    ensures n >= 2
  {
    AtLeastOne(Round(Over(Duration(p), dt))) + 1
  }

  /** `numpy.interp` on all joints, at any time. */
  function InterpolatedTo(p: Primitive, x: real): (q: Pose)
    requires WellFormed(p) && x >= 0.0
    ensures |q| == NJ
  {
    if x < Duration(p) then Interpolated(p, x) else p.offsets[|p.offsets| - 1]
  }

  /** The clip on an even grid of the same duration. */
  function Resampled(p: Primitive, dt: real): (r: Primitive)
    requires WellFormed(p) && dt > 0.0
    ensures WellFormed(r) && r.name == p.name && r.loop == p.loop && |r.times| == GridSize(p, dt)
    ensures Duration(r) == Duration(p)
    ensures forall i :: 0 <= i < |r.times| ==> r.times[i] >= 0.0 && r.offsets[i] == InterpolatedTo(p, r.times[i])
  {
    var n := GridSize(p, dt);
    GridFacts(p, n);
    hide Scaled, Ratio, InterpolatedTo;
    var times := seq(n, i requires 0 <= i < n => GridTime(p, n, i));
    Primitive(p.name, times, seq(n, i requires 0 <= i < n => InterpolatedTo(p, times[i])), p.loop)
  }

  function GridTime(p: Primitive, n: nat, i: nat): real
    requires WellFormed(p) && n >= 2 && i < n
  {
    Scaled(Duration(p), Ratio(i, n - 1))
  }

  lemma GridFacts(p: Primitive, n: nat)
    requires WellFormed(p) && n >= 2
    ensures GridTime(p, n, 0) == 0.0 && GridTime(p, n, n - 1) == Duration(p)
    ensures forall i: nat :: i < n ==> GridTime(p, n, i) >= 0.0
    ensures forall i: nat :: i < n - 1 ==> GridTime(p, n, i) < GridTime(p, n, i + 1)
  {
    TimesIncrease(p, |p.times| - 1);
    GridIncreases(Duration(p), n - 1);
    hide Scaled, Ratio, Duration;
  }

  lemma GridIncreases(d: real, m: nat)
    requires d > 0.0 && m > 0
    ensures Scaled(d, Ratio(0, m)) == 0.0 && Scaled(d, Ratio(m, m)) == d
    ensures forall i: nat :: i <= m ==> Scaled(d, Ratio(i, m)) >= 0.0
    ensures forall i: nat :: i < m ==> Scaled(d, Ratio(i, m)) < Scaled(d, Ratio(i + 1, m))
  {
    RatioIs(0, m);
    forall i: nat | i <= m ensures Scaled(d, Ratio(i, m)) >= 0.0 {
      RatioIs(i, m);
      hide Ratio;
      MulMono(0.0, Ratio(i, m), d);
    }
    forall i: nat | i < m ensures Scaled(d, Ratio(i, m)) < Scaled(d, Ratio(i + 1, m)) {
      RatioIs(i, m);
      RatioGrows(m);
      hide Ratio;
      ScaledGrows(d, Ratio(i, m), Ratio(i + 1, m));
    }
  }

  lemma ScaledGrows(d: real, f: real, g: real)
    requires d > 0.0 && f < g
    ensures Scaled(d, f) < Scaled(d, g)
  {
    CancelMul(d, g, f);
  }

  lemma RatioGrows(m: nat)
    requires m > 0
    ensures Ratio(1, m) > 0.0
  {}

  lemma StartsAtTheFirst(p: Primitive)
    requires WellFormed(p)
    ensures InterpolatedTo(p, 0.0) == p.offsets[0]
  {
    TimesIncrease(p, |p.times| - 1);
    var k := FrameBefore(p, 0.0, |p.times| - 2);
    if k > 0 { TimesIncrease(p, k); }
    assert Between(p, 0.0, 0) == 0.0;
    LerpEnds(p.offsets[0], p.offsets[1]);
  }

  /** The frames are as far apart as the control period, as nearly as a whole number of them
      in the duration allows. */
  lemma GridIsClose(p: Primitive, dt: real)
    requires WellFormed(p) && dt > 0.0
    ensures var n, ideal := GridSize(p, dt) - 1, Over(Duration(p), dt);
            ideal - 0.5 <= n as real <= Max(1.0, ideal + 0.5)
  {
    hide Over;
  }

  /** Resampling keeps the ends, and every joint inside the hull of its frames. */
  lemma ResampledKeeps(p: Primitive, dt: real, j: nat, lo: real, hi: real)
    requires WellFormed(p) && dt > 0.0 && j < NJ && JointWithin(p.offsets, j, lo, hi)
    ensures JointWithin(Resampled(p, dt).offsets, j, lo, hi)
    ensures var r := Resampled(p, dt);
            r.offsets[0] == p.offsets[0] && r.offsets[|r.offsets| - 1] == p.offsets[|p.offsets| - 1]
  {
    var r := Resampled(p, dt);
    StartsAtTheFirst(p);
    forall i | 0 <= i < |r.offsets| ensures lo <= r.offsets[i][j] <= hi {
      hide Interpolated, Resampled;
      if r.times[i] < Duration(p) { InterpolatedWithin(p, r.times[i], j, lo, hi); }
    }
  }

  // ----- scaling ------------------------------------------------------------------

  predicate IsFactor(f: real) { 0.0 <= f <= 1.0 }

  /** `scaled_joint(0, factor)` */
  function ScaledYaw(p: Primitive, f: real): (r: Primitive)
    requires WellFormed(p) && IsFactor(f)
    ensures WellFormed(r) && r.name == p.name && r.times == p.times && r.loop == p.loop
    ensures forall i :: 0 <= i < |p.offsets| ==>
              r.offsets[i][0] == Scaled(p.offsets[i][0], f) && r.offsets[i][1..] == p.offsets[i][1..]
  {
    Primitive(p.name, p.times,
              seq(|p.offsets|, i requires 0 <= i < |p.offsets| => p.offsets[i][0 := Scaled(p.offsets[i][0], f)]),
              p.loop)
  }

  // ----- fitting ------------------------------------------------------------------

  function MaxYaw(offsets: seq<Pose>): (m: real)
    requires offsets != [] && Shaped(offsets)
    ensures forall i :: 0 <= i < |offsets| ==> offsets[i][0] <= m
    ensures exists i :: 0 <= i < |offsets| && offsets[i][0] == m
  {
    var n := |offsets| - 1;
    if n == 0 then offsets[0][0]
    else
      var m := MaxYaw(offsets[..n]);
      assert forall i :: 0 <= i < n ==> offsets[i] == offsets[..n][i];
      Max(m, offsets[n][0])
  }

  function MinYaw(offsets: seq<Pose>): (m: real)
    requires offsets != [] && Shaped(offsets)
    ensures forall i :: 0 <= i < |offsets| ==> offsets[i][0] >= m
    ensures exists i :: 0 <= i < |offsets| && offsets[i][0] == m
  {
    var n := |offsets| - 1;
    if n == 0 then offsets[0][0]
    else
      var m := MinYaw(offsets[..n]);
      assert forall i :: 0 <= i < n ==> offsets[i] == offsets[..n][i];
      Min(m, offsets[n][0])
  }

  /** The factor that `refit_yaw` computes from the extreme offsets. The room below is
      divided with both signs turned. */
  function FitFactor(offsets: seq<Pose>, anchor: real, lo: real, hi: real): (f: real)
    requires offsets != [] && Shaped(offsets)
    ensures IsFactor(f)
  {
    var negative, positive := MinYaw(offsets), MaxYaw(offsets);
    var up := if positive > 0.0 then Min(1.0, Over(hi - anchor, positive)) else 1.0;
    var down := if negative < 0.0 then Min(up, Over(anchor - lo, -negative)) else up;
    Clip(down, 0.0, 1.0)
  }

  /** Scaled by `g`, every frame stays inside the limits around the anchor. */
  predicate Fits(offsets: seq<Pose>, anchor: real, lo: real, hi: real, g: real)
    requires Shaped(offsets)
  {
    forall i :: 0 <= i < |offsets| ==> lo <= anchor + Scaled(offsets[i][0], g) <= hi
  }

  lemma ScaledBelow(x: real, top: real, g: real, room: real)
    requires x <= top && g >= 0.0 && room >= 0.0
    ensures top > 0.0 && g <= Over(room, top) ==> Scaled(x, g) <= room
    ensures top <= 0.0 ==> Scaled(x, g) <= room
    ensures top > 0.0 ==> (Scaled(top, g) <= room <==> g <= Over(room, top))
  {
    MulMono(x, top, g);
    MulMono(Min(top, 0.0), 0.0, g);
    if top > 0.0 { OverIff(g, room, top); }
    hide Over;
  }

  /** The factors that fit are exactly those up to the computed one: it is the largest. */
  lemma FitIff(offsets: seq<Pose>, anchor: real, lo: real, hi: real, g: real)
    requires offsets != [] && Shaped(offsets) && lo <= anchor <= hi && IsFactor(g)
    ensures Fits(offsets, anchor, lo, hi, g) <==> g <= FitFactor(offsets, anchor, lo, hi)
  {
    var top, bottom := MaxYaw(offsets), MinYaw(offsets);
    RoomFactor(top, hi - anchor);
    RoomFactor(-bottom, anchor - lo);
    forall i | 0 <= i < |offsets|
      ensures (top > 0.0 ==> g <= Over(hi - anchor, top)) ==> Scaled(offsets[i][0], g) <= hi - anchor
      ensures (bottom < 0.0 ==> g <= Over(anchor - lo, -bottom)) ==> Scaled(offsets[i][0], g) >= lo - anchor
    {
      ScaledBelow(offsets[i][0], top, g, hi - anchor);
      ScaledBelow(-offsets[i][0], -bottom, g, anchor - lo);
      ScaledNegative(offsets[i][0], g);
      hide Scaled, Over;
    }
    ScaledBelow(top, top, g, hi - anchor);
    ScaledBelow(-bottom, -bottom, g, anchor - lo);
    ScaledNegative(bottom, g);
    hide Scaled, Over, MaxYaw, MinYaw;
    if Fits(offsets, anchor, lo, hi, g) {
      var i :| 0 <= i < |offsets| && offsets[i][0] == top;
      var j :| 0 <= j < |offsets| && offsets[j][0] == bottom;
      assert lo <= anchor + Scaled(offsets[i][0], g) <= hi && lo <= anchor + Scaled(offsets[j][0], g) <= hi;
    }
  }

  lemma ScaledNegative(x: real, g: real)
    ensures Scaled(-x, g) == -Scaled(x, g)
  {}

  lemma RoomFactor(top: real, room: real)
    requires room >= 0.0
    ensures top > 0.0 ==> Over(room, top) >= 0.0
  {
    if top > 0.0 { OverIff(0.0, room, top); }
    hide Over;
  }
}

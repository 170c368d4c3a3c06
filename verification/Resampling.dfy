/** Linear resampling of a clip, and the eased transition between two poses. */
module Resampling {
  import opened Poses
  import opened RealMath

  // ----- a clip as a piecewise linear path ----------------------------------------

  /** The segment of the path that time `x` falls into. */
  function Segment(n: nat, x: real): (left: nat)
    requires n >= 2 && 0.0 <= x <= (n - 1) as real
    ensures left <= n - 2 && left as real <= x <= (left + 1) as real
  {
    if x.Floor < n - 2 then x.Floor else n - 2
  }

  function At(c: Frames, x: real): (p: Pose)
    requires |c| >= 2 && Shaped(c) && 0.0 <= x <= (|c| - 1) as real
    ensures |p| == NJ
  {
    var left := Segment(|c|, x);
    Lerp(c[left], c[left + 1], x - left as real)
  }

  lemma AtFrame(c: Frames, k: nat)
    requires |c| >= 2 && Shaped(c) && k < |c|
    ensures At(c, k as real) == c[k]
  {
    var left := Segment(|c|, k as real);
    LerpEnds(c[left], c[left + 1]);
    hide Lerp;
    assert left == if k < |c| - 1 then k else k - 1;
  }

  /** On every joint the path stays in the hull of its frames. */
  lemma AtWithin(c: Frames, x: real, j: nat, lo: real, hi: real)
    requires |c| >= 2 && Shaped(c) && 0.0 <= x <= (|c| - 1) as real && j < NJ && JointWithin(c, j, lo, hi)
    ensures lo <= At(c, x)[j] <= hi
  {
    var left := Segment(|c|, x);
    MixInHull(c[left][j], c[left + 1][j], x - left as real, lo, hi);
  }

  /** Between two frames the path is straight. */
  lemma AtBetween(c: Frames, k: nat, f: real)
    requires |c| >= 2 && Shaped(c) && k + 1 < |c| && 0.0 <= f <= 1.0
    ensures At(c, k as real + f) == Lerp(c[k], c[k + 1], f)
  {
    var x := k as real + f;
    if f == 1.0 {
      AtFrame(c, k + 1);
      LerpEnds(c[k], c[k + 1]);
      assert x == (k + 1) as real;
    } else {
      assert x.Floor == k;
      assert Segment(|c|, x) == k;
      assert x - k as real == f;
    }
  }

  lemma NearTriangle(p: Pose, q: Pose, r: Pose, m: real, n: real)
    requires |p| == |q| == |r| == NJ && Near(p, q, m) && Near(q, r, n)
    ensures Near(p, r, m + n)
  {}

  lemma ScaledSum(m: real, f: real, g: real)
    ensures Scaled(m, f) + Scaled(m, g) == Scaled(m, f + g)
  {}

  /** The path moves at most `m` per unit of time. */
  lemma {:induction false} AtIsLipschitz(c: Frames, m: real, x: real, y: real)
    requires |c| >= 2 && Shaped(c) && Steady(c, m) && 0.0 <= x <= y <= (|c| - 1) as real
    ensures Near(At(c, x), At(c, y), Scaled(m, y - x))
    decreases Segment(|c|, y) - Segment(|c|, x)
  {
    var i, j := Segment(|c|, x), Segment(|c|, y);
    hide Lerp, Near, Scaled;
    if i >= j {
      WithinSegment(c, m, i, x, y);
    } else {
      var k := (i + 1) as real;
      AtFrame(c, i + 1);
      SegmentEnd(c, i);
      WithinSegment(c, m, i, x, k);
      assert Segment(|c|, k) == i + 1;
      AtIsLipschitz(c, m, k, y);
      NearTriangle(At(c, x), c[i + 1], At(c, y), Scaled(m, k - x), Scaled(m, y - k));
      ScaledSum(m, k - x, y - k);
      assert k - x + (y - k) == y - x;
    }
  }

  lemma WithinSegment(c: Frames, m: real, i: nat, x: real, y: real)
    requires Shaped(c) && Steady(c, m) && i + 1 < |c| && x <= y
    ensures Near(Lerp(c[i], c[i + 1], x - i as real), Lerp(c[i], c[i + 1], y - i as real), Scaled(m, y - x))
  {
    assert Near(c[i], c[i + 1], m);
    hide Lerp, Near, Scaled;
    LerpStep(c[i], c[i + 1], x - i as real, y - i as real, m);
    assert (y - i as real) - (x - i as real) == y - x;
  }

  lemma SegmentEnd(c: Frames, i: nat)
    requires Shaped(c) && i + 1 < |c|
    ensures Lerp(c[i], c[i + 1], (i + 1) as real - i as real) == c[i + 1]
  {
    LerpEnds(c[i], c[i + 1]);
  }

  // ----- resampling ---------------------------------------------------------------

  predicate GoodTiming(sourceFps: real, commandFps: real, speed: real) {
    sourceFps > 0.0 && commandFps > 0.0 && speed > 0.0
  }

  /** The intervals that `n` frames take at the command rate. */
  function IdealIntervals(n: nat, sourceFps: real, commandFps: real, speed: real): real
    requires n > 0 && GoodTiming(sourceFps, commandFps, speed)
  {
    MulPos(sourceFps, speed);
    Over((n - 1) as real * commandFps, sourceFps * speed)
  }

  function Intervals(n: nat, sourceFps: real, commandFps: real, speed: real): (m: nat)
    requires n > 0 && GoodTiming(sourceFps, commandFps, speed)
    ensures m >= 1
    ensures m as real <= Max(1.0, IdealIntervals(n, sourceFps, commandFps, speed) + 0.5)
    ensures m as real >= IdealIntervals(n, sourceFps, commandFps, speed) - 0.5
  {
    AtLeastOne(Round(IdealIntervals(n, sourceFps, commandFps, speed)))
  }

  function Position(n: nat, i: nat, m: nat): real
    requires n > 0 && m > 0
  {
    Over((n - 1) as real * i as real, m as real)
  }

  lemma PositionIs(n: nat, i: nat, m: nat)
    requires n > 0 && m > 0 && i <= m
    ensures 0.0 <= Position(n, i, m) <= (n - 1) as real
    ensures Position(n, 0, m) == 0.0 && Position(n, m, m) == (n - 1) as real
    ensures i < m ==> Position(n, i + 1, m) - Position(n, i, m) == Position(n, 1, m)
  {
    var k, r, s := (n - 1) as real, i as real, m as real;
    PositionBounds(k, r, s);
    WholeWay(k, s);
    assert k * ((i + 1) as real) == k * r + k && k * 1.0 == k && k * 0.0 == 0.0;
    OverSum(k * r, k, s);
    hide Over;
  }

  lemma PositionBounds(k: real, r: real, s: real)
    requires 0.0 <= k && 0.0 <= r <= s && s > 0.0
    ensures 0.0 <= Over(k * r, s) <= k
  {
    var x, y := k * r, k * s;
    assert x >= 0.0 by { MulSign(k, r); }
    assert x <= y by { MulMono(r, s, k); }
    OverIff(0.0, x, s);
    OverIff(k, x, s);
    hide Over;
  }

  lemma WholeWay(k: real, s: real)
    requires s > 0.0
    ensures Over(k * s, s) == k
  {
    OverIff(k, k * s, s);
    hide Over;
  }

  lemma OverSum(x: real, y: real, s: real)
    requires s > 0.0
    ensures Over(x + y, s) == Over(x, s) + Over(y, s) && Over(0.0, s) == 0.0
  {}

  function Resampled(c: Frames, m: nat): (r: Frames)
    requires |c| >= 2 && Shaped(c) && m > 0
    ensures |r| == m + 1 && Shaped(r)
  {
    seq(m + 1, i requires 0 <= i <= m => (PositionIs(|c|, i, m); At(c, Position(|c|, i, m))))
  }

  /** Resampling keeps both ends of the clip, and its frames are as far apart as the source
      moves in their time. */
  lemma ResampledFacts(c: Frames, m: nat, step: real)
    requires |c| >= 2 && Shaped(c) && m > 0 && Steady(c, step)
    ensures Resampled(c, m)[0] == c[0] && Resampled(c, m)[m] == c[|c| - 1]
    ensures Steady(Resampled(c, m), Scaled(step, Position(|c|, 1, m)))
  {
    var r := Resampled(c, m);
    PositionIs(|c|, 0, m);
    AtFrame(c, 0);
    AtFrame(c, |c| - 1);
    hide At, Near, Scaled, Position;
    forall i | 0 <= i < m ensures Near(r[i], r[i + 1], Scaled(step, Position(|c|, 1, m))) {
      ResampledStep(c, m, step, i);
    }
  }

  /** Resampling stays in the hull of the source frames, joint by joint. */
  lemma ResampledWithin(c: Frames, m: nat, j: nat, lo: real, hi: real)
    requires |c| >= 2 && Shaped(c) && m > 0 && j < NJ && JointWithin(c, j, lo, hi)
    ensures JointWithin(Resampled(c, m), j, lo, hi)
  {
    var r := Resampled(c, m);
    hide At, Position;
    forall i | 0 <= i <= m ensures lo <= r[i][j] <= hi {
      PositionIs(|c|, i, m);
      AtWithin(c, Position(|c|, i, m), j, lo, hi);
    }
  }

  lemma ResampledInRange(c: Frames, m: nat)
    requires |c| >= 2 && AllInRange(c) && m > 0
    ensures AllInRange(Resampled(c, m))
  {
    RangeIsJointwise(c);
    RangeIsJointwise(Resampled(c, m));
    hide AllInRange, Resampled, JointWithin;
    forall j: nat | j < NJ ensures JointWithin(Resampled(c, m), j, -100.0, 100.0) {
      ResampledWithin(c, m, j, -100.0, 100.0);
    }
  }

  lemma ResampledStep(c: Frames, m: nat, step: real, i: nat)
    requires |c| >= 2 && Shaped(c) && m > 0 && Steady(c, step) && i < m
    ensures Near(Resampled(c, m)[i], Resampled(c, m)[i + 1], Scaled(step, Position(|c|, 1, m)))
  {
    PositionIs(|c|, i, m);
    PositionIs(|c|, i + 1, m);
    PositionIs(|c|, 1, m);
    hide At, Near, Scaled, Position, Steady;
    AtIsLipschitz(c, step, Position(|c|, i, m), Position(|c|, i + 1, m));
  }

  /** At the pace of the recording its own frames come back. */
  lemma SameRate(c: Frames, sourceFps: real, commandFps: real, speed: real)
    requires AllInRange(c) && GoodTiming(sourceFps, commandFps, speed) && sourceFps * speed == commandFps
    ensures ResampleResult(c, sourceFps, commandFps, speed) == Ok(c)
  {
    if |c| >= 2 {
      SameIntervals(|c|, sourceFps, commandFps, speed);
      hide InRange, Intervals, Resampled;
      SameFrames(c);
    }
  }

  lemma SameIntervals(n: nat, sourceFps: real, commandFps: real, speed: real)
    requires n >= 2 && GoodTiming(sourceFps, commandFps, speed) && sourceFps * speed == commandFps
    ensures Intervals(n, sourceFps, commandFps, speed) == n - 1
  {
    WholeWay((n - 1) as real, commandFps);
    assert IdealIntervals(n, sourceFps, commandFps, speed) == (n - 1) as real;
  }

  lemma SameFrames(c: Frames)
    requires |c| >= 2 && Shaped(c)
    ensures Resampled(c, |c| - 1) == c
  {
    var n := |c|;
    hide At, Position;
    forall i | 0 <= i < n ensures Resampled(c, n - 1)[i] == c[i] {
      PositionIs(n, i, n - 1);
      PositionOf(n, i);
      AtFrame(c, i);
    }
  }

  lemma PositionOf(n: nat, i: nat)
    requires n > 1 && i < n
    ensures Position(n, i, n - 1) == i as real
  {
    var k, r := (n - 1) as real, i as real;
    WholeWay(r, k);
    assert k * r == r * k;
  }

  function ResampleResult(c: Frames, sourceFps: real, commandFps: real, speed: real): Result<Frames> {
    if !GoodTiming(sourceFps, commandFps, speed) then Raised(BadTiming)
    else if !AllInRange(c) then Raised(BadPose)
    else if |c| <= 1 then Ok(c)
    else Ok(Resampled(c, Intervals(|c|, sourceFps, commandFps, speed)))
  }

  method ResampleActions(c: Frames, sourceFps: real, commandFps: real, speed: real) returns (r: Result<Frames>)
    ensures r == ResampleResult(c, sourceFps, commandFps, speed)
  {
    if !GoodTiming(sourceFps, commandFps, speed) { return Raised(BadTiming); }
    if c == [] { return Ok([]); }
    if !AllInRange(c) { return Raised(BadPose); }
    if |c| == 1 { assert c == [c[0]]; return Ok([c[0]]); }
    var m := Intervals(|c|, sourceFps, commandFps, speed);
    var result: Frames := [];
    for i := 0 to m + 1
      invariant |result| == i
      invariant forall k :: 0 <= k < i ==> result[k] == Resampled(c, m)[k]
    {
      PositionIs(|c|, i, m);
      var position := Position(|c|, i, m);
      var left := if position.Floor < |c| - 2 then position.Floor else |c| - 2;
      result := result + [Lerp(c[left], c[left + 1], position - left as real)];
    }
    assert result == Resampled(c, m);
    return Ok(result);
  }

  // ----- easing -------------------------------------------------------------------

  /** Smoothstep: rises from 0 to 1 with no speed at either end. */
  function Eased(f: real): real { f * f * (3.0 - 2.0 * f) }

  /** Smoothstep rises monotonically, at most one and a half times as fast as time. */
  lemma EasedSlope(f: real, g: real)
    requires 0.0 <= f <= g <= 1.0
    ensures 0.0 <= Eased(g) - Eased(f) <= 1.5 * (g - f)
  {
    var d, s, p := g - f, f + g, f * g;
    var slope := 3.0 * s - 2.0 * (s * s - p);
    assert Eased(g) - Eased(f) == d * slope by { EasedDifference(f, g); }
    SlopeBounds(f, g);
    MulMono(0.0, slope, d);
    MulMono(slope, 1.5, d);
    hide Eased;
  }

  lemma EasedDifference(f: real, g: real)
    ensures Eased(g) - Eased(f) == (g - f) * (3.0 * (f + g) - 2.0 * ((f + g) * (f + g) - f * g))
  {
    assert (g - f) * (f + g) == g * g - f * f;
    assert (f + g) * (f + g) - f * g == f * f + f * g + g * g;
    assert (g - f) * (f * f + f * g + g * g) == g * g * g - f * f * f;
  }

  lemma SlopeBounds(f: real, g: real)
    requires 0.0 <= f <= 1.0 && 0.0 <= g <= 1.0
    ensures 0.0 <= 3.0 * (f + g) - 2.0 * ((f + g) * (f + g) - f * g) <= 1.5
  {
    var s := f + g;
    SquareNonneg(1.0 - s);
    SquareNonneg(f - g);
    assert (1.0 - s) * (1.0 - s) == 1.0 - 2.0 * s + s * s;
    assert (f - g) * (f - g) == s * s - 4.0 * (f * g);
    MulSign(f, 1.0 - f);
    MulSign(g, 1.0 - g);
    MulSign(f, 1.0 - g);
    MulSign(g, 1.0 - f);
    assert f * (1.0 - f) + g * (1.0 - g) == s - f * f - g * g;
    assert f * (1.0 - g) + g * (1.0 - f) == s - 2.0 * (f * g);
    assert s * s == f * f + 2.0 * (f * g) + g * g;
    SlopeTop(s, s * s, f * g);
  }

  lemma SlopeTop(s: real, ss: real, p: real)
    requires 1.0 - 2.0 * s + ss >= 0.0 && ss - 4.0 * p >= 0.0
    ensures 3.0 * s - 2.0 * (ss - p) <= 1.5
  {}

  /** It leaves both ends at rest, in the same way. */
  lemma EasedAtRest(f: real)
    requires 0.0 <= f <= 1.0
    ensures Eased(f) <= 3.0 * (f * f) && 1.0 - Eased(1.0 - f) == Eased(f)
  {
    var q := f * f;
    MulSign(f, f);
    MulSign(q, f);
    assert Eased(f) == 3.0 * q - 2.0 * (q * f);
    var g := 1.0 - f;
    assert g * g == 1.0 - 2.0 * f + q;
    assert Eased(g) == (1.0 - 2.0 * f + q) * (1.0 + 2.0 * f);
    assert (1.0 - 2.0 * f + q) * (1.0 + 2.0 * f) == 1.0 - 4.0 * (f * f) + q + 2.0 * (q * f);
  }

  lemma EasedEnds()
    ensures Eased(0.0) == 0.0 && Eased(1.0) == 1.0
  {}

  function TransitionFrame(p: Pose, q: Pose, i: nat, m: nat): (r: Pose)
    requires |p| == |q| == NJ && m > 0
    ensures |r| == NJ
  {
    Lerp(p, q, Eased(Ratio(i, m)))
  }

  /** The frames after the start pose. */
  function Transition(p: Pose, q: Pose, m: nat): (r: Frames)
    requires |p| == |q| == NJ && m > 0
    ensures |r| == m && Shaped(r)
  {
    seq(m, i requires 0 <= i < m => TransitionFrame(p, q, i + 1, m))
  }

  lemma TransitionEnds(p: Pose, q: Pose, m: nat)
    requires |p| == |q| == NJ && m > 0
    ensures TransitionFrame(p, q, 0, m) == p && TransitionFrame(p, q, m, m) == q
    ensures Transition(p, q, m)[m - 1] == q
  {
    RatioIs(0, m);
    EasedEnds();
    LerpEnds(p, q);
    hide Eased, Lerp, Ratio;
  }

  lemma TransitionInRange(p: Pose, q: Pose, m: nat)
    requires InRange(p) && InRange(q) && m > 0
    ensures AllInRange(Transition(p, q, m))
  {
    forall i | 0 <= i < m ensures InRange(Transition(p, q, m)[i]) {
      RatioIs(i + 1, m);
      EasedEnds();
      EasedSlope(0.0, Ratio(i + 1, m));
      EasedSlope(Ratio(i + 1, m), 1.0);
      hide Eased, Ratio, InRange, Lerp;
      LerpInRange(p, q, Eased(Ratio(i + 1, m)));
    }
  }

  /** A transition of `m` frames moves at most one and a half times the mean step. */
  lemma TransitionSteps(p: Pose, q: Pose, m: nat, d: real, i: nat)
    requires |p| == |q| == NJ && m > 0 && Near(p, q, d) && d >= 0.0 && i < m
    ensures Near(TransitionFrame(p, q, i, m), TransitionFrame(p, q, i + 1, m), 1.5 * Scaled(d, Ratio(1, m)))
  {
    var f, g := Ratio(i, m), Ratio(i + 1, m);
    RatioIs(i, m);
    RatioIs(i + 1, m);
    RatioIs(1, m);
    EasedStep(d, f, g);
    hide Eased, Ratio, Lerp, Scaled;
    LerpStep(p, q, Eased(f), Eased(g), d);
  }

  lemma EasedStep(d: real, f: real, g: real)
    requires d >= 0.0 && 0.0 <= f <= g <= 1.0
    ensures Eased(f) <= Eased(g) && Scaled(d, Eased(g) - Eased(f)) <= 1.5 * Scaled(d, g - f)
  {
    EasedSlope(f, g);
    hide Eased;
    MulMono(Eased(g) - Eased(f), 1.5 * (g - f), d);
    assert d * (1.5 * (g - f)) == 1.5 * (d * (g - f));
  }

  /** Each frame of a transition is farther on the way than the one before. */
  lemma TransitionLeads(p: Pose, q: Pose, m: nat, i: nat)
    requires |p| == |q| == NJ && m > 0 && i < m
    ensures Leads(p, q, TransitionFrame(p, q, i, m), TransitionFrame(p, q, i + 1, m))
  {
    var f, g := Ratio(i, m), Ratio(i + 1, m);
    RatioIs(i, m);
    RatioIs(i + 1, m);
    RatioIs(1, m);
    EasedEnds();
    EasedSlope(0.0, f);
    EasedSlope(f, g);
    EasedSlope(g, 1.0);
    hide Eased, Ratio;
    assert LeadsBy(p, q, TransitionFrame(p, q, i, m), TransitionFrame(p, q, i + 1, m), Eased(f), Eased(g));
  }

  function TransitionResult(p: Pose, q: Pose, commandFps: real, duration: real): Result<Frames> {
    if duration < 0.0 then Raised(BadTiming)
    else if !InRange(p) || !InRange(q) then Raised(BadPose)
    else if duration == 0.0 then Ok([q])
    else Ok(Transition(p, q, AtLeastOne(Round(duration * commandFps))))
  }

  method TransitionActions(p: Pose, q: Pose, commandFps: real, duration: real) returns (r: Result<Frames>)
    ensures r == TransitionResult(p, q, commandFps, duration)
  {
    if duration < 0.0 { return Raised(BadTiming); }
    if !InRange(p) || !InRange(q) { return Raised(BadPose); }
    if duration == 0.0 { return Ok([q]); }
    var m := AtLeastOne(Round(duration * commandFps));
    var result: Frames := [];
    for i := 1 to m + 1
      invariant |result| == i - 1
      invariant forall k :: 0 <= k < i - 1 ==> result[k] == Transition(p, q, m)[k]
    {
      result := result + [TransitionFrame(p, q, i, m)];
    }
    assert result == Transition(p, q, m);
    return Ok(result);
  }
}

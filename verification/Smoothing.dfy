/** Causal smoothing of a recording, with the trailing error spread over the clip. */
module Smoothing {
  import opened Poses
  import opened RealMath

  predicate GoodAlpha(alpha: real) { 0.0 < alpha <= 1.0 }

  /** The filter state after frame `k`. */
  function Filtered(c: Frames, alpha: real, k: nat): (p: Pose)
    requires k < |c| && forall i :: 0 <= i <= k ==> |c[i]| == NJ
    ensures |p| == NJ
  {
    if k == 0 then c[0] else Lerp(Filtered(c, alpha, k - 1), c[k], alpha)
  }

  function Minus(p: Pose, q: Pose): (r: Pose)
    requires |p| == |q| == NJ
    ensures |r| == NJ
  {
    seq(NJ, j requires 0 <= j < NJ => p[j] - q[j])
  }

  /** `p` shifted by a share of a residual. */
  function Shifted(p: Pose, residual: Pose, f: real): (r: Pose)
    requires |p| == |residual| == NJ
    ensures |r| == NJ
  {
    seq(NJ, j requires 0 <= j < NJ => p[j] + Scaled(residual[j], f))
  }

  function Residual(c: Frames, alpha: real): (r: Pose)
    requires Shaped(c) && c != []
    ensures |r| == NJ
  {
    Minus(c[|c| - 1], Filtered(c, alpha, |c| - 1))
  }

  function Denominator(c: Frames): nat { AtLeastOne(|c| - 1) }

  function SmoothedFrame(c: Frames, alpha: real, k: nat): (p: Pose)
    requires Shaped(c) && k < |c|
    ensures |p| == NJ
  {
    Shifted(Filtered(c, alpha, k), Residual(c, alpha), Ratio(k, Denominator(c)))
  }

  function Smoothed(c: Frames, alpha: real): (r: Frames)
    requires Shaped(c)
    ensures |r| == |c| && Shaped(r)
  {
    seq(|c|, k requires 0 <= k < |c| => SmoothedFrame(c, alpha, k))
  }

  // ----- both endpoints stay ------------------------------------------------------

  lemma EndpointsStay(c: Frames, alpha: real)
    requires Shaped(c) && c != []
    ensures Smoothed(c, alpha)[0] == c[0]
    ensures Smoothed(c, alpha)[|c| - 1] == c[|c| - 1]
  {
    var n := |c| - 1;
    RatioIs(0, Denominator(c));
    ShiftedEnds(Filtered(c, alpha, n), c[n]);
    if n > 0 { ShiftedEnds(c[0], c[0]); }
    ShiftedByNothing(c[0], Residual(c, alpha));
    hide Shifted, Filtered, Minus, Ratio;
  }

  lemma ShiftedEnds(p: Pose, q: Pose)
    requires |p| == |q| == NJ
    ensures Shifted(p, Minus(q, p), 1.0) == q
  {}

  lemma ShiftedByNothing(p: Pose, r: Pose)
    requires |p| == |r| == NJ
    ensures Shifted(p, r, 0.0) == p
  {}

  // ----- the step bound -----------------------------------------------------------

  /** How far the filter can lag behind frames that move at most `m` at a time. */
  function LagBound(m: real, alpha: real): real
    requires alpha > 0.0
  {
    Over(Scaled(m, 1.0 - alpha), alpha)
  }

  lemma LagBalance(m: real, alpha: real)
    requires GoodAlpha(alpha) && m >= 0.0
    ensures LagBound(m, alpha) >= 0.0
    ensures Scaled(LagBound(m, alpha) + m, 1.0 - alpha) == LagBound(m, alpha)
    ensures Scaled(LagBound(m, alpha) + m, alpha) == m
  {
    var e, s := LagBound(m, alpha), Scaled(m, 1.0 - alpha);
    assert e * alpha == s;
    MulSign(m, 1.0 - alpha);
    OverIff(0.0, s, alpha);
  }

  lemma {:induction false} LagIsBounded(c: Frames, alpha: real, m: real, k: nat)
    requires Shaped(c) && Steady(c, m) && GoodAlpha(alpha) && m >= 0.0 && k < |c|
    ensures Near(Filtered(c, alpha, k), c[k], LagBound(m, alpha))
    ensures k > 0 ==> Near(Filtered(c, alpha, k - 1), Filtered(c, alpha, k), m)
  {
    LagBalance(m, alpha);
    if k > 0 {
      LagIsBounded(c, alpha, m, k - 1);
      var p, q := Filtered(c, alpha, k - 1), c[k];
      assert Near(c[k - 1], c[k], m);
      hide Filtered, LagBound, Scaled, Steady;
      FilterStep(p, c[k - 1], q, alpha, LagBound(m, alpha), m);
      assert Filtered(c, alpha, k) == Lerp(p, q, alpha) by { FilteredIs(c, alpha, k); }
    }
  }

  lemma FilteredIs(c: Frames, alpha: real, k: nat)
    requires Shaped(c) && 0 < k < |c|
    ensures Filtered(c, alpha, k) == Lerp(Filtered(c, alpha, k - 1), c[k], alpha)
  {}

  lemma FilterStep(p: Pose, a: Pose, q: Pose, alpha: real, e: real, m: real)
    requires |p| == |a| == |q| == NJ && Near(p, a, e) && Near(a, q, m)
    requires GoodAlpha(alpha) && Scaled(e + m, 1.0 - alpha) == e && Scaled(e + m, alpha) == m
    ensures Near(Lerp(p, q, alpha), q, e) && Near(p, Lerp(p, q, alpha), m)
  {
    forall j | 0 <= j < NJ
      ensures -e <= q[j] - Mix(p[j], q[j], alpha) <= e && -m <= Mix(p[j], q[j], alpha) - p[j] <= m
    {
      MixStep(p[j], q[j], alpha, 1.0, e + m);
      MixStep(p[j], q[j], 0.0, alpha, e + m);
      MixEnds(p[j], q[j]);
      hide Mix, Scaled;
    }
    hide Mix, Scaled;
  }

  /** How far apart smoothed frames can be. */
  function StepBound(m: real, alpha: real, n: nat): real
    requires alpha > 0.0 && n > 0
  {
    m + Scaled(LagBound(m, alpha), Ratio(1, n))
  }

  /** `m + (1 - alpha) m / alpha / n` is the bound in its closed form. */
  lemma StepBoundIs(m: real, alpha: real, n: nat)
    requires alpha > 0.0 && n > 0
    ensures StepBound(m, alpha, n) == m * (1.0 + (1.0 - alpha) / (alpha * n as real))
  {
    var r := n as real;
    MulPos(alpha, r);
    var x, y := (1.0 - alpha) / (alpha * r), 1.0 / r;
    var z := LagBound(m, alpha);
    assert z * alpha == m * (1.0 - alpha) && y * r == 1.0 && x * (alpha * r) == 1.0 - alpha;
    assert (z * y) * (alpha * r) == (z * alpha) * (y * r);
    assert (m * x) * (alpha * r) == m * (x * (alpha * r));
    SameFactor(alpha * r, z * y, m * x);
  }

  lemma SameFactor(c: real, x: real, y: real)
    requires c > 0.0 && x * c == y * c
    ensures x == y
  {
    assert c * x == x * c && c * y == y * c;
    CancelMul(c, x, y);
    CancelMul(c, y, x);
  }

  /** If recorded frames are at most `m` apart, smoothed frames are at most
      `m (1 + (1 - alpha) / (alpha (n - 1)))` apart. */
  lemma SmoothedSteps(c: Frames, alpha: real, m: real)
    requires Shaped(c) && Steady(c, m) && GoodAlpha(alpha) && m >= 0.0 && |c| >= 2
    ensures Steady(Smoothed(c, alpha), StepBound(m, alpha, |c| - 1))
  {
    var n, s := |c| - 1, Smoothed(c, alpha);
    LagIsBounded(c, alpha, m, n);
    forall k | 0 <= k < n ensures Near(s[k], s[k + 1], StepBound(m, alpha, n)) {
      LagIsBounded(c, alpha, m, k + 1);
      SmoothedStep(c, alpha, m, k);
      hide Near, SmoothedFrame, StepBound, LagBound, Filtered, Steady;
    }
    hide Near, SmoothedFrame, StepBound, LagBound, Filtered;
  }

  lemma SmoothedStep(c: Frames, alpha: real, m: real, k: nat)
    requires Shaped(c) && alpha > 0.0 && k + 1 < |c|
    requires Near(Filtered(c, alpha, |c| - 1), c[|c| - 1], LagBound(m, alpha))
    requires Near(Filtered(c, alpha, k), Filtered(c, alpha, k + 1), m)
    ensures Near(SmoothedFrame(c, alpha, k), SmoothedFrame(c, alpha, k + 1), StepBound(m, alpha, |c| - 1))
  {
    var n := |c| - 1;
    var f, g := Ratio(k, n), Ratio(k + 1, n);
    RatioIs(k, n);
    RatioIs(1, n);
    hide Filtered, LagBound, Ratio;
    ShiftedStep(Filtered(c, alpha, k), Filtered(c, alpha, k + 1), Residual(c, alpha), f, g, m, LagBound(m, alpha));
  }

  lemma ShiftedStep(p: Pose, q: Pose, r: Pose, f: real, g: real, m: real, e: real)
    requires |p| == |q| == |r| == NJ && Near(p, q, m) && f <= g
    requires forall j :: 0 <= j < NJ ==> -e <= r[j] <= e
    ensures Near(Shifted(p, r, f), Shifted(q, r, g), m + Scaled(e, g - f))
  {
    forall j | 0 <= j < NJ
      ensures -Scaled(e, g - f) <= Scaled(r[j], g) - Scaled(r[j], f) <= Scaled(e, g - f)
    {
      ScaledStep(r[j], e, f, g);
      hide Scaled;
    }
    hide Scaled;
  }

  lemma ScaledStep(x: real, e: real, f: real, g: real)
    requires -e <= x <= e && f <= g
    ensures -Scaled(e, g - f) <= Scaled(x, g) - Scaled(x, f) <= Scaled(e, g - f)
  {
    MulMono(x, e, g - f);
    MulMono(-e, x, g - f);
    assert x * (g - f) == x * g - x * f;
    assert (-e) * (g - f) == -(e * (g - f));
  }

  // ----- the range ----------------------------------------------------------------

  function Power(x: real, n: nat): real { if n == 0 then 1.0 else x * Power(x, n - 1) }

  /** On a joint that moves steadily the filter lags by exactly that bound, less a part that
      dies out. */
  lemma {:induction false} RampLag(c: Frames, alpha: real, m: real, j: nat, k: nat)
    requires Shaped(c) && GoodAlpha(alpha) && j < NJ && k < |c|
    requires forall i :: 0 <= i < k ==> c[i + 1][j] - c[i][j] == m
    ensures c[k][j] - Filtered(c, alpha, k)[j] == Scaled(LagBound(m, alpha), 1.0 - Power(1.0 - alpha, k))
  {
    if k > 0 {
      RampLag(c, alpha, m, j, k - 1);
      var e, w := LagBound(m, alpha), Power(1.0 - alpha, k - 1);
      var y, x := Filtered(c, alpha, k - 1)[j], c[k][j];
      assert x - c[k - 1][j] == m by { assert c[k - 1 + 1] == c[k]; }
      assert Filtered(c, alpha, k)[j] == Mix(y, x, alpha);
      assert Power(1.0 - alpha, k) == (1.0 - alpha) * w;
      LagOver(m, alpha);
      hide LagBound, Filtered, Power, Mix, Scaled;
      LagNext(x, y, c[k - 1][j] - y, m, e, w, alpha);
    }
  }

  lemma LagOver(m: real, alpha: real)
    requires alpha > 0.0
    ensures Scaled(LagBound(m, alpha), alpha) == Scaled(m, 1.0 - alpha)
  {}

  lemma LagNext(x: real, y: real, lag: real, m: real, e: real, w: real, alpha: real)
    requires x - y == lag + m && lag == Scaled(e, 1.0 - w) && Scaled(e, alpha) == Scaled(m, 1.0 - alpha)
    ensures x - Mix(y, x, alpha) == Scaled(e, 1.0 - (1.0 - alpha) * w)
  {
    assert x - Mix(y, x, alpha) == (lag + m) * (1.0 - alpha);
    assert (lag + m) * (1.0 - alpha) == lag * (1.0 - alpha) + m * (1.0 - alpha);
    assert lag * (1.0 - alpha) == e * (1.0 - w) * (1.0 - alpha);
    assert e * (1.0 - w) * (1.0 - alpha) + e * alpha == e * (1.0 - (1.0 - alpha) * w);
  }

  /** The filter stays in the hull of the frames so far. */
  lemma {:induction false} FilteredWithin(c: Frames, alpha: real, k: nat, j: nat, lo: real, hi: real)
    requires Shaped(c) && GoodAlpha(alpha) && k < |c| && j < NJ && JointWithin(c, j, lo, hi)
    ensures lo <= Filtered(c, alpha, k)[j] <= hi
  {
    if k > 0 {
      FilteredWithin(c, alpha, k - 1, j, lo, hi);
      MixInHull(Filtered(c, alpha, k - 1)[j], c[k][j], alpha, lo, hi);
      hide Mix;
    }
  }

  /** Smoothed frames leave the hull of a recording by at most the largest lag of the
      filter, joint by joint. */
  lemma SmoothedWithin(c: Frames, alpha: real, m: real, j: nat, lo: real, hi: real)
    requires Shaped(c) && Steady(c, m) && GoodAlpha(alpha) && m >= 0.0 && j < NJ && JointWithin(c, j, lo, hi)
    ensures JointWithin(Smoothed(c, alpha), j, lo - LagBound(m, alpha), hi + LagBound(m, alpha))
  {
    if c != [] {
      var e := LagBound(m, alpha);
      LagIsBounded(c, alpha, m, |c| - 1);
      forall k | 0 <= k < |c| ensures lo - e <= SmoothedFrame(c, alpha, k)[j] <= hi + e {
        var f := Ratio(k, Denominator(c));
        RatioIs(k, Denominator(c));
        FilteredWithin(c, alpha, k, j, lo, hi);
        hide Filtered, Ratio, LagBound, Steady, JointWithin;
        PartOf(Residual(c, alpha)[j], e, f);
      }
      hide SmoothedFrame, Filtered, LagBound;
    }
  }

  lemma PartOf(x: real, e: real, f: real)
    requires -e <= x <= e && 0.0 <= f <= 1.0
    ensures -e <= Scaled(x, f) <= e
  {
    ScaledStep(x, e, 0.0, f);
    MulMono(f, 1.0, e);
  }

  /** With no smoothing the clip stays as it is. */
  lemma {:induction false} FilterOfOne(c: Frames, k: nat)
    requires Shaped(c) && k < |c|
    ensures Filtered(c, 1.0, k) == c[k]
  {
    if k > 0 { LerpEnds(Filtered(c, 1.0, k - 1), c[k]); }
  }

  lemma SmoothedByOne(c: Frames)
    requires Shaped(c)
    ensures Smoothed(c, 1.0) == c
  {
    if c != [] {
      FilterOfOne(c, |c| - 1);
      forall k | 0 <= k < |c| ensures SmoothedFrame(c, 1.0, k) == c[k] {
        FilterOfOne(c, k);
        ShiftedByZero(c[k], Residual(c, 1.0), Ratio(k, Denominator(c)));
        hide Filtered, Shifted, Ratio;
      }
    }
  }

  lemma ShiftedByZero(p: Pose, r: Pose, f: real)
    requires |p| == |r| == NJ && forall j :: 0 <= j < NJ ==> r[j] == 0.0
    ensures Shifted(p, r, f) == p
  {}

  function Flat(x: real): Pose { seq(NJ, j => x) }

  /** A recording that dips on its third frame: valid, but smoothing with any factor
      below one raises its second frame above 100. */
  const DIP: Frames := [Flat(100.0), Flat(100.0), Flat(0.0), Flat(100.0)]

  lemma DipLeavesTheRange(alpha: real)
    requires 0.0 < alpha < 1.0
    ensures AllInRange(DIP) && !InRange(Smoothed(DIP, alpha)[1])
  {
    var f3 := Filtered(DIP, alpha, 3);
    assert Filtered(DIP, alpha, 1)[0] == 100.0;
    assert Filtered(DIP, alpha, 2)[0] == 100.0 * (1.0 - alpha);
    assert f3[0] == 100.0 - 100.0 * (alpha * (1.0 - alpha));
    MulPos(alpha, 1.0 - alpha);
    var r := Residual(DIP, alpha);
    assert r[0] == 100.0 * (alpha * (1.0 - alpha));
    assert Ratio(1, 3) * 3.0 == 1.0;
    MulPos(r[0], Ratio(1, 3));
    assert Smoothed(DIP, alpha)[1][0] == 100.0 + Scaled(r[0], Ratio(1, 3)) > 100.0;
  }

  ghost predicate KeepsEveryRecording(alpha: real) {
    forall c: Frames :: AllInRange(c) ==> AllInRange(Smoothed(c, alpha))
  }

  /** Smoothing keeps every valid recording valid exactly when it does not smooth. */
  lemma SmoothingKeepsRangeIff(alpha: real)
    requires GoodAlpha(alpha)
    ensures KeepsEveryRecording(alpha) <==> alpha == 1.0
  {
    if alpha == 1.0 {
      forall c: Frames | AllInRange(c) ensures AllInRange(Smoothed(c, alpha)) { SmoothedByOne(c); }
    } else {
      DipLeavesTheRange(alpha);
    }
  }

  // ----- the program --------------------------------------------------------------

  function SmoothResult(c: Frames, alpha: real): Result<Frames> {
    if !GoodAlpha(alpha) then Raised(BadAlpha)
    else if !AllInRange(c) then Raised(BadPose)
    else Ok(Smoothed(c, alpha))
  }

  method SmoothActions(c: Frames, alpha: real) returns (r: Result<Frames>)
    ensures r == SmoothResult(c, alpha)
  {
    if !GoodAlpha(alpha) { return Raised(BadAlpha); }
    if c == [] { return Ok([]); }
    if !InRange(c[0]) { return Raised(BadPose); }
    var state := c[0];
    var result := [state];
    hide Lerp, GoodAlpha;
    for k := 1 to |c|
      invariant forall i :: 0 <= i < k ==> InRange(c[i])
      invariant |result| == k && state == Filtered(c, alpha, k - 1)
      invariant forall i :: 0 <= i < k ==> result[i] == Filtered(c, alpha, i)
    {
      if !InRange(c[k]) { return Raised(BadPose); }
      state := Lerp(state, c[k], alpha);
      result := result + [state];
    }
    result := SpreadResidual(c, alpha, result);
    return Ok(result);
  }

  /** The in-place second pass: frame `k` gets `k / (n - 1)` of the final error. */
  method SpreadResidual(c: Frames, alpha: real, filtered: Frames) returns (result: Frames)
    requires AllInRange(c) && c != [] && |filtered| == |c|
    requires forall i :: 0 <= i < |c| ==> filtered[i] == Filtered(c, alpha, i)
    ensures result == Smoothed(c, alpha)
  {
    hide Filtered, Shifted, Ratio;
    result := filtered;
    var residual := Minus(c[|c| - 1], result[|result| - 1]);
    var denominator := AtLeastOne(|result| - 1);
    for k := 0 to |result|
      invariant |result| == |c|
      invariant forall i :: 0 <= i < k ==> result[i] == SmoothedFrame(c, alpha, i)
      invariant forall i :: k <= i < |c| ==> result[i] == Filtered(c, alpha, i)
    {
      result := result[k := Shifted(result[k], residual, Ratio(k, denominator))];
    }
    hide SmoothedFrame, InRange;
    assert result == Smoothed(c, alpha);
  }
}

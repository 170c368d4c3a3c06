/** Normalised joint poses, and interpolation between them. */
module Poses {
  import opened RealMath

  const NJ: nat := 5

  /** One value per joint. A pose of another length lacks a joint. */
  type Pose = seq<real>

  type Frames = seq<Pose>

  datatype Error = BadAlpha | BadTiming | BadStep | BadPose

  datatype Result<T> = Ok(value: T) | Raised(error: Error)

  /** What `_validated_pose` accepts. */
  predicate InRange(p: Pose) {
    |p| == NJ && forall j :: 0 <= j < NJ ==> -100.0 <= p[j] <= 100.0
  }

  predicate AllInRange(c: Frames) { forall k :: 0 <= k < |c| ==> InRange(c[k]) }

  predicate Shaped(c: Frames) { forall k :: 0 <= k < |c| ==> |c[k]| == NJ }

  /** All frames within an interval on one joint. */
  predicate JointWithin(c: Frames, j: nat, lo: real, hi: real)
    requires Shaped(c) && j < NJ
  {
    forall k :: 0 <= k < |c| ==> lo <= c[k][j] <= hi
  }

  predicate Within(c: Frames, lo: real, hi: real)
    requires Shaped(c)
  {
    forall j: nat | j < NJ :: JointWithin(c, j, lo, hi)
  }

  /** Poses no farther apart than `m` on any joint. */
  predicate Near(p: Pose, q: Pose, m: real)
    requires |p| == |q| == NJ
  {
    forall j :: 0 <= j < NJ ==> -m <= q[j] - p[j] <= m
  }

  /** Consecutive frames no farther apart than `m` on any joint. */
  predicate Steady(c: Frames, m: real)
    requires Shaped(c)
  {
    forall k :: 0 <= k < |c| - 1 ==> Near(c[k], c[k + 1], m)
  }

  // ----- interpolation ------------------------------------------------------------

  function Mix(x: real, y: real, f: real): real { x + (y - x) * f }

  function Lerp(p: Pose, q: Pose, f: real): (r: Pose)
    requires |p| == |q| == NJ
    ensures |r| == NJ
  {
    seq(NJ, j requires 0 <= j < NJ => Mix(p[j], q[j], f))
  }

  function Scaled(m: real, f: real): real { m * f }

  lemma MixEnds(x: real, y: real)
    ensures Mix(x, y, 0.0) == x && Mix(x, y, 1.0) == y
  {}

  lemma MixInHull(x: real, y: real, f: real, lo: real, hi: real)
    requires 0.0 <= f <= 1.0 && lo <= x <= hi && lo <= y <= hi
    ensures lo <= Mix(x, y, f) <= hi
  {
    MulMono(lo - x, y - x, f);
    MulMono(y - x, hi - x, f);
    MulSign(x - lo, 1.0 - f);
    MulSign(hi - x, 1.0 - f);
    assert (lo - x) * f == -(x - lo) + (x - lo) * (1.0 - f);
    assert (hi - x) * f == (hi - x) - (hi - x) * (1.0 - f);
  }

  lemma MixStep(x: real, y: real, f: real, g: real, m: real)
    requires -m <= y - x <= m && f <= g
    ensures -Scaled(m, g - f) <= Mix(x, y, g) - Mix(x, y, f) <= Scaled(m, g - f)
  {
    MulMono(-m, y - x, g - f);
    MulMono(y - x, m, g - f);
    assert (y - x) * (g - f) == (y - x) * g - (y - x) * f;
    assert (-m) * (g - f) == -(m * (g - f));
  }

  lemma LerpEnds(p: Pose, q: Pose)
    requires |p| == |q| == NJ
    ensures Lerp(p, q, 0.0) == p && Lerp(p, q, 1.0) == q
  {
    forall j | 0 <= j < NJ ensures Mix(p[j], q[j], 0.0) == p[j] && Mix(p[j], q[j], 1.0) == q[j] {
      MixEnds(p[j], q[j]);
    }
  }

  /** The range of a pose, joint by joint. */
  lemma RangeIsJointwise(c: Frames)
    ensures AllInRange(c) <==> Shaped(c) && Within(c, -100.0, 100.0)
  {
    if Shaped(c) && Within(c, -100.0, 100.0) {
      forall k | 0 <= k < |c| ensures InRange(c[k]) {
        forall j: nat | j < NJ ensures -100.0 <= c[k][j] <= 100.0 {
          assert JointWithin(c, j, -100.0, 100.0);
        }
      }
    }
  }

  lemma LerpInRange(p: Pose, q: Pose, f: real)
    requires InRange(p) && InRange(q) && 0.0 <= f <= 1.0
    ensures InRange(Lerp(p, q, f))
  {
    forall j | 0 <= j < NJ ensures -100.0 <= Mix(p[j], q[j], f) <= 100.0 {
      MixInHull(p[j], q[j], f, -100.0, 100.0);
    }
  }

  lemma LerpStep(p: Pose, q: Pose, f: real, g: real, m: real)
    requires |p| == |q| == NJ && Near(p, q, m) && f <= g
    ensures Near(Lerp(p, q, f), Lerp(p, q, g), Scaled(m, g - f))
  {
    forall j | 0 <= j < NJ
      ensures -Scaled(m, g - f) <= Mix(p[j], q[j], g) - Mix(p[j], q[j], f) <= Scaled(m, g - f)
    {
      MixStep(p[j], q[j], f, g, m);
    }
    hide Mix, Scaled;
  }

  /** On the straight way from `p` to `q`, `y` comes after `x`, or at it. */
  ghost predicate Leads(p: Pose, q: Pose, x: Pose, y: Pose)
    requires |p| == |q| == NJ
  {
    exists f: real, g: real :: LeadsBy(p, q, x, y, f, g)
  }

  predicate LeadsBy(p: Pose, q: Pose, x: Pose, y: Pose, f: real, g: real)
    requires |p| == |q| == NJ
  {
    0.0 <= f <= g <= 1.0 && x == Lerp(p, q, f) && y == Lerp(p, q, g)
  }

  lemma LeadsWhole(p: Pose, q: Pose)
    requires |p| == |q| == NJ
    ensures Leads(p, q, p, q)
  {
    LerpEnds(p, q);
    assert LeadsBy(p, q, p, q, 0.0, 1.0);
  }

  // ----- rounding -----------------------------------------------------------------

  /** Python's `round`: to the nearest integer, ties to the even one. */
  function Round(x: real): (n: int)
    ensures n as real - 0.5 <= x <= n as real + 0.5
    ensures x == n as real - 0.5 || x == n as real + 0.5 ==> n % 2 == 0
  {
    var f := x.Floor;
    var d := x - f as real;
    if d < 0.5 || (d == 0.5 && f % 2 == 0) then f else f + 1
  }

  function AtLeastOne(n: int): nat { if n < 1 then 1 else n }

  function Ratio(i: nat, m: nat): real
    requires m > 0
  {
    i as real / m as real
  }

  lemma RatioIs(i: nat, m: nat)
    requires m > 0 && i <= m
    ensures 0.0 <= Ratio(i, m) <= 1.0
    ensures Ratio(0, m) == 0.0 && Ratio(m, m) == 1.0
    ensures i < m ==> Ratio(i + 1, m) - Ratio(i, m) == Ratio(1, m)
  {
    var r, s := m as real, Ratio(i, m);
    assert s * r == i as real;
    CancelMul(r, 0.0, s);
    CancelMul(r, s, 1.0);
    assert (i + 1) as real / r == i as real / r + 1.0 / r;
  }
}

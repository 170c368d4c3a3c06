/** The step limiter: intermediate commands inserted so that no joint moves farther
    than a given step at once. */
module StepLimit {
  import opened Options
  import opened Poses
  import opened RealMath

  /** The largest joint movement between two poses. */
  function LargestDelta(p: Pose, q: Pose): (d: real)
    requires |p| == |q| == NJ
    ensures Near(p, q, d) && d >= 0.0
    ensures exists j: nat :: j < NJ && d == Abs(q[j] - p[j])
  {
    Max(Max(Max(Abs(q[0] - p[0]), Abs(q[1] - p[1])), Max(Abs(q[2] - p[2]), Abs(q[3] - p[3]))), Abs(q[4] - p[4]))
  }

  function Cuts(p: Pose, q: Pose, step: real): (n: nat)
    requires |p| == |q| == NJ && step > 0.0
    ensures n > 0
  {
    AtLeastOne(Ceil(Over(LargestDelta(p, q), step)))
  }

  lemma CutsAreEnough(p: Pose, q: Pose, step: real)
    requires |p| == |q| == NJ && step > 0.0
    ensures Scaled(LargestDelta(p, q), Ratio(1, Cuts(p, q, step))) <= step
  {
    hide LargestDelta, Scaled, Ratio, Reaches, Over, Ceil;
    CeilTimes(LargestDelta(p, q), step);
    ScaledByPart(LargestDelta(p, q), Cuts(p, q, step), step);
  }

  /** No smaller number of parts is enough. */
  lemma CutsAreLeast(p: Pose, q: Pose, step: real, n: nat)
    requires |p| == |q| == NJ && step > 0.0 && 0 < n < Cuts(p, q, step)
    ensures Scaled(LargestDelta(p, q), Ratio(1, n)) > step
  {
    var d := LargestDelta(p, q);
    hide LargestDelta, Over, Ceil, Scaled, Ratio, Reaches;
    CeilAtMost(Over(d, step), n);
    FewerDoNotReach(d, step, n);
    PartOfMore(d, n, step);
  }

  lemma FewerDoNotReach(d: real, step: real, n: nat)
    requires step > 0.0 && n as real < Over(d, step)
    ensures !Reaches(n, step, d)
  {
    OverIff(n as real, d, step);
  }

  lemma PartOfMore(d: real, n: nat, step: real)
    requires n > 0 && !Reaches(n, step, d)
    ensures Scaled(d, Ratio(1, n)) > step
  {
    var r, f := n as real, Ratio(1, n);
    assert f * r == 1.0;
    assert (d * f) * r == d * (f * r);
    CancelMul(r, d * f, step);
  }

  /** `n` steps cover a distance. */
  predicate Reaches(n: nat, step: real, d: real) { d <= n as real * step }

  lemma CeilTimes(d: real, step: real)
    requires step > 0.0
    ensures Reaches(AtLeastOne(Ceil(Over(d, step))), step, d)
  {
    var n := AtLeastOne(Ceil(Over(d, step)));
    CeilAtMost(Over(d, step), n);
    OverIff(n as real, d, step);
    hide Over, Ceil;
  }

  lemma ScaledByPart(d: real, n: nat, step: real)
    requires n > 0 && Reaches(n, step, d)
    ensures Scaled(d, Ratio(1, n)) <= step
  {
    var r, f := n as real, Ratio(1, n);
    assert f * r == 1.0;
    assert (d * f) * r == d * (f * r);
    CancelMul(r, d * f, step);
  }

  function Cut(p: Pose, q: Pose, i: nat, n: nat): (r: Pose)
    requires |p| == |q| == NJ && n > 0
    ensures |r| == NJ
  {
    Lerp(p, q, Ratio(i, n))
  }

  /** The commands after `p` that lead to `q` in `n` equal steps. */
  function Pieces(p: Pose, q: Pose, n: nat): (r: Frames)
    requires |p| == |q| == NJ && n > 0
    ensures |r| == n && Shaped(r)
  {
    seq(n, i requires 0 <= i < n => Cut(p, q, i + 1, n))
  }

  function Limited(p: Pose, c: Frames, step: real): (r: Frames)
    requires |p| == NJ && Shaped(c) && step > 0.0
    ensures Shaped(r) && |r| >= |c|
    decreases |c|
  {
    if c == [] then []
    else Pieces(p, c[0], Cuts(p, c[0], step)) + Limited(c[0], c[1..], step)
  }

  // ----- every step is small ------------------------------------------------------

  /** Every command of `c` is within `m` of the one before it, the first one of `p`. */
  predicate Follows(p: Pose, c: Frames, m: real)
    requires |p| == NJ && Shaped(c)
  {
    c != [] ==> Near(p, c[0], m) && Steady(c, m)
  }

  lemma CutEnds(p: Pose, q: Pose, n: nat)
    requires |p| == |q| == NJ && n > 0
    ensures Cut(p, q, 0, n) == p && Cut(p, q, n, n) == q
  {
    RatioIs(0, n);
    LerpEnds(p, q);
    hide Lerp, Ratio;
  }

  lemma CutStep(p: Pose, q: Pose, step: real, i: nat)
    requires |p| == |q| == NJ && step > 0.0 && i < Cuts(p, q, step)
    ensures Near(Cut(p, q, i, Cuts(p, q, step)), Cut(p, q, i + 1, Cuts(p, q, step)), step)
  {
    var n, d := Cuts(p, q, step), LargestDelta(p, q);
    RatioIs(i, n);
    RatioIs(i + 1, n);
    RatioIs(1, n);
    CutsAreEnough(p, q, step);
    var f, g := Ratio(i, n), Ratio(i + 1, n);
    hide Lerp, Ratio, Near, Cuts, LargestDelta, Scaled;
    LerpStep(p, q, f, g, d);
    NearWider(Lerp(p, q, f), Lerp(p, q, g), Scaled(d, g - f), step);
  }

  lemma NearWider(p: Pose, q: Pose, m: real, n: real)
    requires |p| == |q| == NJ && Near(p, q, m) && m <= n
    ensures Near(p, q, n)
  {}

  lemma PiecesFollow(p: Pose, q: Pose, step: real)
    requires |p| == |q| == NJ && step > 0.0
    ensures var r := Pieces(p, q, Cuts(p, q, step)); Follows(p, r, step) && r[|r| - 1] == q
  {
    var n := Cuts(p, q, step);
    CutEnds(p, q, n);
    hide Cut, Near, Cuts;
    forall i | 0 <= i < n ensures Near(Cut(p, q, i, n), Cut(p, q, i + 1, n), step) {
      CutStep(p, q, step, i);
    }
  }

  lemma JoinFollows(p: Pose, x: Frames, y: Frames, m: real)
    requires |p| == NJ && Shaped(x) && Shaped(y) && x != []
    requires Follows(p, x, m) && Follows(x[|x| - 1], y, m)
    ensures Shaped(x + y) && Follows(p, x + y, m)
  {
    var z := x + y;
    hide Near;
    forall k | 0 <= k < |z| - 1 ensures Near(z[k], z[k + 1], m) {
      assert k < |x| - 1 ==> z[k] == x[k] && z[k + 1] == x[k + 1];
      assert k == |x| - 1 ==> z[k] == x[|x| - 1] && z[k + 1] == y[0];
      assert k > |x| - 1 ==> z[k] == y[k - |x|] && z[k + 1] == y[k + 1 - |x|];
    }
  }

  /** From the start pose on, no joint moves farther than `step` at once. */
  lemma {:induction false} LimitedFollows(p: Pose, c: Frames, step: real)
    requires |p| == NJ && Shaped(c) && step > 0.0
    ensures Follows(p, Limited(p, c, step), step)
    decreases |c|
  {
    if c != [] {
      PiecesFollow(p, c[0], step);
      LimitedFollows(c[0], c[1..], step);
      hide Follows, Pieces, Cuts;
      JoinFollows(p, Pieces(p, c[0], Cuts(p, c[0], step)), Limited(c[0], c[1..], step), step);
    }
  }

  // ----- the plan is kept ---------------------------------------------------------

  /** Where command `k` of the unlimited plan is found in the limited one. */
  function Place(p: Pose, c: Frames, step: real, k: nat): nat
    requires |p| == NJ && Shaped(c) && step > 0.0 && k < |c|
    decreases |c|
  {
    if k == 0 then Cuts(p, c[0], step) - 1
    else Cuts(p, c[0], step) + Place(c[0], c[1..], step, k - 1)
  }

  /** The unlimited plan is a subsequence of the limited one, and ends it. */
  lemma {:induction false} PlanIsKept(p: Pose, c: Frames, step: real, k: nat)
    requires |p| == NJ && Shaped(c) && step > 0.0 && k < |c|
    ensures var r, i := Limited(p, c, step), Place(p, c, step, k);
            && i < |r| && r[i] == c[k]
            && (k + 1 < |c| ==> i < Place(p, c, step, k + 1))
            && (k + 1 == |c| ==> i + 1 == |r|)
    decreases |c|
  {
    PiecesFollow(p, c[0], step);
    hide Cuts, Pieces, Follows;
    if k > 0 {
      PlanIsKept(c[0], c[1..], step, k - 1);
    } else if |c| == 1 {
      assert c[1..] == [];
    }
  }

  /** Between two commands of the plan there are as many as the step needs. */
  lemma {:induction false} PlaceGap(p: Pose, c: Frames, step: real, k: nat)
    requires |p| == NJ && Shaped(c) && step > 0.0 && k < |c|
    ensures Place(p, c, step, k)
         == if k == 0 then Cuts(p, c[0], step) - 1 else Place(p, c, step, k - 1) + Cuts(c[k - 1], c[k], step)
    decreases |c|
  {
    hide Cuts;
    if k > 1 { PlaceGap(c[0], c[1..], step, k - 1); }
  }

  /** Command `k` of the plan is being approached from the one before it. */
  ghost predicate Toward(p: Pose, c: Frames, k: nat, x: Pose, y: Pose)
    requires |p| == NJ && Shaped(c) && k < |c|
  {
    Leads(if k == 0 then p else c[k - 1], c[k], x, y)
  }

  ghost predicate Underway(p: Pose, c: Frames, x: Pose, y: Pose)
    requires |p| == NJ && Shaped(c)
  {
    exists k: nat :: k < |c| && Toward(p, c, k, x, y)
  }

  /** Every command inserted is on the straight way from one command of the plan to the
      next, farther than the one before it. */
  lemma {:induction false} LimitedLeads(p: Pose, c: Frames, step: real, i: nat)
    requires |p| == NJ && Shaped(c) && step > 0.0 && i < |Limited(p, c, step)|
    ensures var r := Limited(p, c, step); Underway(p, c, if i == 0 then p else r[i - 1], r[i])
    decreases |c|
  {
    var n := Cuts(p, c[0], step);
    var pieces, rest := Pieces(p, c[0], n), Limited(c[0], c[1..], step);
    assert Limited(p, c, step) == pieces + rest;
    hide Cuts, Leads, Limited;
    if i < n {
      CutEnds(p, c[0], n);
      CutLeads(p, c[0], i, n);
      hide Cut;
      assert Toward(p, c, 0, Cut(p, c[0], i, n), Cut(p, c[0], i + 1, n));
    } else {
      LastPiece(p, c[0], n);
      hide Pieces, Toward;
      LimitedLeads(c[0], c[1..], step, i - n);
      UnderwayLater(p, c, if i == n then c[0] else rest[i - n - 1], rest[i - n]);
    }
  }

  lemma LastPiece(p: Pose, q: Pose, n: nat)
    requires |p| == |q| == NJ && n > 0
    ensures Pieces(p, q, n)[n - 1] == q
  {
    CutEnds(p, q, n);
    hide Cut;
  }

  lemma UnderwayLater(p: Pose, c: Frames, x: Pose, y: Pose)
    requires |p| == NJ && Shaped(c) && c != [] && Underway(c[0], c[1..], x, y)
    ensures Underway(p, c, x, y)
  {
    var k: nat :| k < |c[1..]| && Toward(c[0], c[1..], k, x, y);
    hide Leads;
    assert Toward(p, c, k + 1, x, y);
  }

  lemma CutLeads(p: Pose, q: Pose, i: nat, n: nat)
    requires |p| == |q| == NJ && n > 0 && i < n
    ensures Leads(p, q, Cut(p, q, i, n), Cut(p, q, i + 1, n))
  {
    RatioIs(i, n);
    RatioIs(i + 1, n);
    RatioIs(1, n);
    hide Lerp, Ratio;
    assert LeadsBy(p, q, Cut(p, q, i, n), Cut(p, q, i + 1, n), Ratio(i, n), Ratio(i + 1, n));
  }

  lemma {:induction false} LimitedInRange(p: Pose, c: Frames, step: real)
    requires InRange(p) && AllInRange(c) && step > 0.0
    ensures AllInRange(Limited(p, c, step))
    decreases |c|
  {
    if c != [] {
      PiecesInRange(p, c[0], Cuts(p, c[0], step));
      LimitedInRange(c[0], c[1..], step);
      hide InRange, Pieces, Cuts;
    }
  }

  lemma PiecesInRange(p: Pose, q: Pose, n: nat)
    requires InRange(p) && InRange(q) && n > 0
    ensures AllInRange(Pieces(p, q, n))
  {
    forall i | 0 <= i < n ensures InRange(Pieces(p, q, n)[i]) {
      RatioIs(i + 1, n);
      LerpInRange(p, q, Ratio(i + 1, n));
    }
  }

  // ----- the program --------------------------------------------------------------

  function LimitResult(p: Pose, c: Frames, maxStep: Option<real>): Result<Frames> {
    if maxStep.None? then Ok(c)
    else if maxStep.value <= 0.0 then Raised(BadStep)
    else if !InRange(p) || !AllInRange(c) then Raised(BadPose)
    else Ok(Limited(p, c, maxStep.value))
  }

  method LimitActionSteps(c: Frames, start: Pose, maxStep: Option<real>) returns (r: Result<Frames>)
    ensures r == LimitResult(start, c, maxStep)
  {
    if maxStep.None? { return Ok(c); }
    var step := maxStep.value;
    if step <= 0.0 { return Raised(BadStep); }
    if !InRange(start) { return Raised(BadPose); }
    var previous, limited: Frames := start, [];
    hide Cut, InRange;
    for i := 0 to |c|
      invariant forall k :: 0 <= k < i ==> InRange(c[k])
      invariant InRange(previous) && previous == if i == 0 then start else c[i - 1]
      invariant AllInRange(c[..i]) && limited == Limited(start, c[..i], step)
    {
      hide Limited, Cuts;
      var target := c[i];
      if !InRange(target) { return Raised(BadPose); }
      var segments := Cuts(previous, target, step);
      LimitedNext(start, c, i, step);
      limited := Approach(limited, previous, target, segments);
      previous := target;
    }
    assert c[..|c|] == c;
    return Ok(limited);
  }

  /** The inner loop: the commands of one segment, appended. */
  method Approach(limited: Frames, previous: Pose, target: Pose, segments: nat) returns (r: Frames)
    requires |previous| == |target| == NJ && segments > 0
    ensures r == limited + Pieces(previous, target, segments)
  {
    r := limited;
    for segment := 1 to segments + 1
      invariant r == limited + Pieces(previous, target, segments)[..segment - 1]
    {
      r := r + [Cut(previous, target, segment, segments)];
    }
    assert Pieces(previous, target, segments)[..segments] == Pieces(previous, target, segments);
  }

  lemma LimitedNext(p: Pose, c: Frames, i: nat, step: real)
    requires |p| == NJ && i < |c| && step > 0.0 && forall k :: 0 <= k <= i ==> |c[k]| == NJ
    ensures var before := if i == 0 then p else c[i - 1];
            Limited(p, c[..i + 1], step) == Limited(p, c[..i], step) + Pieces(before, c[i], Cuts(before, c[i], step))
  {
    assert c[..i + 1] == c[..i] + [c[i]];
    LimitedSnoc(p, c[..i], c[i], step);
  }

  lemma {:induction false} LimitedSnoc(p: Pose, c: Frames, q: Pose, step: real)
    requires |p| == |q| == NJ && Shaped(c) && step > 0.0
    ensures var before := if c == [] then p else c[|c| - 1];
            Limited(p, c + [q], step) == Limited(p, c, step) + Pieces(before, q, Cuts(before, q, step))
    decreases |c|
  {
    hide Pieces, Cuts;
    if c != [] {
      LimitedSnoc(c[0], c[1..], q, step);
      assert (c + [q])[1..] == c[1..] + [q];
    } else {
      assert ([q])[1..] == [] && c + [q] == [q];
    }
  }
}

/** The trajectory generator as a whole: every joint goes for its own target, and a pose
    that is asked for again and again is reached. */
module PoseArrival {
  import opened Arrival
  import opened Options
  import opened Pursuit
  import opened RealMath
  import opened SpringRegime
  import opened Tracker
  import opened Trajectory

  /** A step that is taken moves each joint at the open speed nearest to the one wished for
      its target, under the limits of that step. */
  lemma EachJointGoes(s: seq<Joint>, target: seq<real>, b: Bounds, g: Rig, i: nat, w: real)
    requires WellBuilt(g) && |s| == |target| == NJ && b.Some? && |b.value| == NJ && i < NJ
    requires AllFeasible(s, b, g) && b.value[i].lo <= s[i].pos <= b.value[i].hi
    ensures var j, j', l, d := s[i], AllStep(s, target, b, g)[i], b.value[i], DriveOf(g, i);
            var wish := Wish(Clip(target[i], l.lo, l.hi) - j.pos, j.vel, d, g.sqrt);
            && j' == Advance(j, j'.vel, d) && Open(j, j'.vel, l, d)
            && (Open(j, w, l, d) ==> Abs(j'.vel - wish) <= Abs(w - wish))
  {
    StepIsNearest(s[i], target[i], b.value[i], DriveOf(g, i), g.sqrt, w);
    hide LimitedStep, Open, Wish, Feasible, IsSqrt, Advance;
  }

  /** Without limits, as near to the wish as acceleration and speed limits allow. */
  lemma EachJointGoesFreely(s: seq<Joint>, target: seq<real>, g: Rig, i: nat)
    requires WellBuilt(g) && |s| == |target| == NJ && i < NJ
    ensures var j, d := s[i], DriveOf(g, i);
            var wish := Wish(target[i] - j.pos, j.vel, d, g.sqrt);
            AllStep(s, target, None, g)[i]
              == Advance(j, Clip(Clip(wish, j.vel - Gain(d), j.vel + Gain(d)), -d.vmax, d.vmax), d)
  {
    WantedIs(target[i] - s[i].pos, s[i].vel, DriveOf(g, i), g.sqrt);
    hide WantedVel, Wish, IsSqrt, Advance;
  }

  // ----- the same target again and again --------------------------------------------

  /** The joints after `n` calls with one target. */
  ghost function Asked(s: seq<Joint>, target: seq<real>, n: nat, g: Rig): (r: seq<Joint>)
    requires WellBuilt(g) && |s| == |target| == NJ
    ensures |r| == NJ
  {
    if n == 0 then s else Called(Asked(s, target, n - 1, g), Call(target, None, None), g)
  }

  lemma {:induction false} EachJointHolds(s: seq<Joint>, target: seq<real>, n: nat, g: Rig)
    requires WellBuilt(g) && |s| == |target| == NJ && g.hard.Some? && AllViable(s, g.hard, g)
    ensures AllViable(Asked(s, target, n, g), g.hard, g)
    ensures forall i: nat | i < NJ ::
              Asked(s, target, n, g)[i] == Hold(s[i], target[i], n, g.hard.value[i], DriveOf(g, i), g.sqrt)
  {
    if n > 0 {
      EachJointHolds(s, target, n - 1, g);
      var before := Asked(s, target, n - 1, g);
      HardStepNeverRaises(before, None, g);
      TakenCall(before, target, g);
      hide AllViable, AllFeasible, Called, Refusal, LimitedStep, WellBuilt;
    }
  }

  lemma TakenCall(s: seq<Joint>, target: seq<real>, g: Rig)
    requires WellBuilt(g) && |s| == |target| == NJ && g.hard.Some? && Refusal(s, None, None, g) == None
    ensures var t := Called(s, Call(target, None, None), g);
            && AllViable(t, g.hard, g)
            && forall i: nat | i < NJ :: t[i] == LimitedStep(s[i], target[i], g.hard.value[i], DriveOf(g, i), g.sqrt)
  {
    TakenStepIsViable(s, target, None, g);
    hide AllViable, AllFeasible, LimitedStep;
  }

  /** A pose that is asked for in every call is reached, joint by joint: after at most
      `4 a + b + 2` calls the squared distance falls by 12 % with every further one. */
  lemma PoseIsReached(s: seq<Joint>, target: seq<real>, g: Rig, i: nat, m: real, a: nat, b: nat, n: nat)
    requires WellBuilt(g) && |s| == |target| == NJ && g.hard.Some? && AllViable(s, g.hard, g) && i < NJ
    requires Able(target[i], g.hard.value[i], DriveOf(g, i)) && Pace(m, DriveOf(g, i))
    requires g.vmax[i] <= Lasting(a, Gain(DriveOf(g, i)))
    requires g.hard.value[i].hi - g.hard.value[i].lo <= Lasting(b, m)
    ensures Miss(Asked(s, target, 4 * a + b + 2 + n, g)[i], target[i]) <= Left(n, ZONE)
  {
    hide Able, Pace, Lasting, Left, Miss, Asked, Hold, IsSqrt, Gain;
    assert Viable(s[i], g.hard.value[i], DriveOf(g, i));
    hide AllViable, Viable;
    EachJointHolds(s, target, 4 * a + b + 2 + n, g);
    TargetIsReached(s[i], target[i], g.hard.value[i], DriveOf(g, i), g.sqrt, m, a, b, n);
  }
}

/** The expressive layer: one clip, its crossfade envelope, and the yaw fit cached per
    anchor and limits. */
module PrimitiveLayers {
  import opened Blender
  import opened Options
  import opened Poses
  import opened Primitives
  import opened RealMath
  import opened Tracker

  // ----- the envelope -------------------------------------------------------------

  /** Linear attack and release of a gain. */
  datatype Envelope = Envelope(level: real, target: real, attack: real, release: real)

  const MIN_TIME: real := 0.001

  predicate Running(e: Envelope) {
    && 0.0 <= e.level <= 1.0 && (e.target == 0.0 || e.target == 1.0)
    && e.attack >= MIN_TIME && e.release >= MIN_TIME
  }

  function Opened(e: Envelope): Envelope { e.(target := 1.0) }

  function Closing(e: Envelope, release: real): Envelope { e.(target := 0.0, release := Max(release, MIN_TIME)) }

  function Stepped(e: Envelope, dt: real): Envelope
    requires Running(e)
  {
    if e.target > e.level then e.(level := Min(e.target, e.level + Over(dt, e.attack)))
    else if e.target < e.level then e.(level := Max(e.target, e.level - Over(dt, e.release)))
    else e
  }

  predicate Closed(e: Envelope) { e.level <= 0.0001 && e.target == 0.0 }

  /** A gain never leaves the unit interval, and only moves towards its target. */
  lemma GainStays(e: Envelope, dt: real)
    requires Running(e) && dt >= 0.0
    ensures Running(Stepped(e, dt))
    ensures Abs(Stepped(e, dt).level - e.target) <= Abs(e.level - e.target)
  {
    OverIff(0.0, dt, e.attack);
    OverIff(0.0, dt, e.release);
    hide Over;
  }

  function SteppedFor(e: Envelope, dt: real, n: nat): Envelope
    requires Running(e) && dt >= 0.0
    ensures Running(SteppedFor(e, dt, n))
  {
    if n == 0 then e
    else
      GainStays(SteppedFor(e, dt, n - 1), dt);
      Stepped(SteppedFor(e, dt, n - 1), dt)
  }

  /** A closing gain falls on a straight line. */
  lemma {:induction false} ClosingFalls(e: Envelope, dt: real, n: nat)
    requires Running(e) && dt >= 0.0 && e.target == 0.0
    ensures SteppedFor(e, dt, n) == e.(level := Max(0.0, e.level - Scaled(n as real, Over(dt, e.release))))
  {
    var down := Over(dt, e.release);
    OverIff(0.0, dt, e.release);
    ScaledOnce(n, down);
    hide Scaled, Over;
    if n > 0 {
      ClosingFalls(e, dt, n - 1);
      ScaledOnce(n - 1, down);
    }
  }

  /** An opening one rises on a straight line. */
  lemma {:induction false} OpeningRises(e: Envelope, dt: real, n: nat)
    requires Running(e) && dt >= 0.0 && e.target == 1.0
    ensures SteppedFor(e, dt, n) == e.(level := Min(1.0, e.level + Scaled(n as real, Over(dt, e.attack))))
  {
    var up := Over(dt, e.attack);
    OverIff(0.0, dt, e.attack);
    ScaledOnce(n, up);
    hide Scaled, Over;
    if n > 0 {
      OpeningRises(e, dt, n - 1);
      ScaledOnce(n - 1, up);
    }
  }

  lemma ScaledOnce(n: nat, d: real)
    requires d >= 0.0
    ensures Scaled(n as real, d) >= 0.0 && Scaled(0.0, d) == 0.0
    ensures n > 0 ==> Scaled(n as real, d) == Scaled((n - 1) as real, d) + d
  {
    MulMono(0.0, d, n as real);
  }

  /** After its release time it is silent, whatever its level was. */
  lemma SilentAfterRelease(e: Envelope, dt: real, n: nat)
    requires Running(e) && dt >= 0.0 && e.target == 0.0 && Scaled(n as real, dt) >= e.release
    ensures SteppedFor(e, dt, n).level == 0.0 && Closed(SteppedFor(e, dt, n))
  {
    ClosingFalls(e, dt, n);
    OverScaled(n as real, dt, e.release);
    OverIff(1.0, Scaled(n as real, dt), e.release);
    hide Over, SteppedFor, Scaled;
  }

  lemma OverScaled(n: real, x: real, y: real)
    requires y > 0.0
    ensures Scaled(n, Over(x, y)) == Over(Scaled(n, x), y)
  {}

  // ----- the fit ------------------------------------------------------------------

  /** What a fit depends on: an anchor with its limits, or neither. */
  datatype Context = Context(anchor: Option<real>, limits: Option<Limits>)

  function FactorFor(p: Primitive, c: Context): (f: real)
    requires WellFormed(p)
    ensures IsFactor(f)
  {
    if c.anchor.Some? && c.limits.Some? then
      FitFactor(p.offsets, c.anchor.value, c.limits.value.lo, c.limits.value.hi)
    else 1.0
  }

  function Fitted(p: Primitive, c: Context): (r: Primitive)
    requires WellFormed(p)
    ensures WellFormed(r)
  {
    var f := FactorFor(p, c);
    if f != 1.0 then ScaledYaw(p, f) else p
  }

  /** A fitted clip sampled at any time stays inside the limits around its anchor. */
  lemma FittedSampleIsSafe(p: Primitive, anchor: real, l: Limits, t: real)
    requires WellFormed(p) && l.lo <= anchor <= l.hi
    ensures l.lo <= anchor + Sample(Fitted(p, Context(Some(anchor), Some(l))), t)[0] <= l.hi
  {
    var c := Context(Some(anchor), Some(l));
    var f, r := FactorFor(p, c), Fitted(p, c);
    FitIff(p.offsets, anchor, l.lo, l.hi, f);
    forall i | 0 <= i < |r.offsets| ensures l.lo - anchor <= r.offsets[i][0] <= l.hi - anchor {
      assert l.lo <= anchor + Scaled(p.offsets[i][0], f) <= l.hi;
      assert r.offsets[i][0] == Scaled(p.offsets[i][0], f);
    }
    hide Fitted, FactorFor, Sample;
    SampleWithin(r, t, 0, l.lo - anchor, l.hi - anchor);
  }

  // ----- the layer ----------------------------------------------------------------

  /** The span, in radians, from which a clip claims a joint whole. */
  datatype Claim = Claim(span: real)

  function WeightOf(p: Primitive, claim: Claim): (w: Pose)
    requires WellFormed(p) && claim.span > 0.0
    ensures |w| == NJ && forall j :: 0 <= j < NJ ==> 0.0 <= w[j] <= 1.0
  {
    seq(NJ, j requires 0 <= j < NJ => Clip(Over(Range(p.offsets, j), claim.span), 0.0, 1.0))
  }

  function Range(offsets: seq<Pose>, j: nat): real
    requires Shaped(offsets) && offsets != [] && j < NJ
  {
    MaxOf(offsets, j) - MinOf(offsets, j)
  }

  function MaxOf(offsets: seq<Pose>, j: nat): (m: real)
    requires Shaped(offsets) && offsets != [] && j < NJ
    ensures forall i :: 0 <= i < |offsets| ==> offsets[i][j] <= m
    ensures exists i :: 0 <= i < |offsets| && offsets[i][j] == m
  {
    if |offsets| == 1 then offsets[0][j] else Max(offsets[0][j], MaxOf(offsets[1..], j))
  }

  function MinOf(offsets: seq<Pose>, j: nat): (m: real)
    requires Shaped(offsets) && offsets != [] && j < NJ
    ensures forall i :: 0 <= i < |offsets| ==> offsets[i][j] >= m
    ensures exists i :: 0 <= i < |offsets| && offsets[i][j] == m
  {
    if |offsets| == 1 then offsets[0][j] else Min(offsets[0][j], MinOf(offsets[1..], j))
  }

  /** Two frames that are this far apart on a joint. */
  ghost predicate Swings(offsets: seq<Pose>, j: nat, span: real)
    requires Shaped(offsets) && j < NJ
  {
    exists i, k :: 0 <= i < |offsets| && 0 <= k < |offsets| && offsets[i][j] - offsets[k][j] >= span
  }

  /** A clip claims a joint whole exactly if it swings it by the span, and not at all exactly
      if it does not move it. */
  lemma WeightIff(p: Primitive, claim: Claim, j: nat)
    requires WellFormed(p) && claim.span > 0.0 && j < NJ
    ensures WeightOf(p, claim)[j] == 1.0 <==> Swings(p.offsets, j, claim.span)
    ensures WeightOf(p, claim)[j] == 0.0 <==>
              forall i, k :: 0 <= i < |p.offsets| && 0 <= k < |p.offsets| ==> p.offsets[i][j] == p.offsets[k][j]
  {
    RangeIff(p.offsets, j, claim.span);
    OverIff(1.0, Range(p.offsets, j), claim.span);
    OverIff(0.0, Range(p.offsets, j), claim.span);
    hide Over, Range, Swings;
  }

  lemma RangeIff(offsets: seq<Pose>, j: nat, span: real)
    requires Shaped(offsets) && offsets != [] && j < NJ && span > 0.0
    ensures Range(offsets, j) >= 0.0
    ensures Range(offsets, j) >= span <==> Swings(offsets, j, span)
    ensures Range(offsets, j) == 0.0 <==>
              forall i, k :: 0 <= i < |offsets| && 0 <= k < |offsets| ==> offsets[i][j] == offsets[k][j]
  {
    var top: nat :| top < |offsets| && offsets[top][j] == MaxOf(offsets, j);
    var bottom: nat :| bottom < |offsets| && offsets[bottom][j] == MinOf(offsets, j);
    assert Range(offsets, j) == offsets[top][j] - offsets[bottom][j];
    hide MaxOf, MinOf;
  }

  /** How a request to play ends: with the yaw factor, with an anchor but no limits (or the
      other way round), or without a clip of that name. */
  datatype PlayReply = Playing(name: string, yawScale: real) | OneWithoutTheOther | NoClip

  /** A clip that does not loop closes its envelope once its time is over. */
  function Ending(p: Primitive, rel: real, interrupted: bool, e: Envelope): Envelope
    requires WellFormed(p)
  {
    if !p.loop && rel >= Duration(p) && !interrupted then e.(target := 0.0) else e
  }

  class PrimitiveLayer {
    const claim: Claim
    const dt: real
    var clip: Option<Primitive>
    var source: Option<Primitive>
    var yawScale: real
    var yawContext: Option<Context>
    var t0: real
    var env: Envelope
    var weight: Pose
    var interrupted: bool

    /** The cache is never stale: a current clip is its source fitted to the context. */
    ghost predicate Valid()
      reads this
    {
      && claim.span > 0.0 && dt > 0.0 && Running(env)
      && |weight| == NJ
      && (clip.Some? <==> source.Some?)
      && (source.Some? ==>
            && WellFormed(source.value) && WellFormed(clip.value)
            && yawContext.Some?
            && clip == Some(Fitted(source.value, yawContext.value))
            && yawScale == FactorFor(source.value, yawContext.value)
            && weight == WeightOf(clip.value, claim))
    }

    constructor (claim: Claim, dt: real)
      requires claim.span > 0.0 && dt > 0.0
      ensures Valid() && clip.None? && this.claim == claim && this.dt == dt
    {
      this.claim, this.dt := claim, dt;
      clip, source, yawContext := None, None, None;
      yawScale, t0, interrupted := 1.0, 0.0, false;
      env := Envelope(0.0, 0.0, 0.18, 0.3);
      weight := NOTHING;
    }

    /** Fits the current clip to an anchor from its unscaled source, unless that was done
        already. */
    method RefitYaw(c: Context)
      requires Valid()
      modifies this
      ensures Valid() && source == old(source) && t0 == old(t0) && env == old(env)
      ensures interrupted == old(interrupted)
      ensures clip.Some? ==> clip == Some(Fitted(source.value, c)) && yawContext == Some(c)
    {
      if clip.None? || source.None? { return; }
      if yawContext == Some(c) { return; }
      hide Fitted, FactorFor, WeightOf;
      Fit(c);
    }

    /** The fit itself. */
    method Fit(c: Context)
      requires source.Some? && WellFormed(source.value) && claim.span > 0.0 && dt > 0.0 && Running(env)
      modifies this
      ensures Valid() && source == old(source) && t0 == old(t0) && env == old(env)
      ensures interrupted == old(interrupted)
      ensures clip == Some(Fitted(source.value, c)) && yawContext == Some(c)
    {
      var p := source.value;
      var factor := 1.0;
      if c.anchor.Some? && c.limits.Some? {
        var anchor, lo, hi := c.anchor.value, c.limits.value.lo, c.limits.value.hi;
        var negative, positive := MinYaw(p.offsets), MaxYaw(p.offsets);
        if positive > 0.0 { factor := Min(factor, Over(hi - anchor, positive)); }
        if negative < 0.0 { factor := Min(factor, Over(anchor - lo, -negative)); }
        factor := Clip(factor, 0.0, 1.0);
      }
      assert factor == FactorFor(p, c);
      hide FactorFor, MinYaw, MaxYaw, Over, Clip, WeightOf;
      clip := Some(if factor != 1.0 then ScaledYaw(p, factor) else p);
      yawScale := factor;
      yawContext := Some(c);
      weight := WeightOf(clip.value, claim);
    }

    /** Starts the clip that the library found, on the grid of the control period and
        fitted if an anchor is given with its limits. A request that is refused changes
        nothing. */
    method Play(found: Option<Primitive>, t: real, c: Context) returns (reply: PlayReply)
      requires Valid() && (found.Some? ==> WellFormed(found.value))
      modifies this
      ensures Valid()
      ensures reply.OneWithoutTheOther? <==> c.anchor.None? != c.limits.None?
      ensures reply.NoClip? <==> c.anchor.None? == c.limits.None? && found.None?
      ensures reply.Playing? ==>
                && source == Some(Resampled(found.value, dt)) && clip == Some(Fitted(source.value, c))
                && reply == Playing(found.value.name, FactorFor(source.value, c))
                && t0 == t && !interrupted && env == Opened(old(env).(attack := 0.18))
      ensures !reply.Playing? ==>
                && source == old(source) && clip == old(clip) && t0 == old(t0) && env == old(env)
                && yawContext == old(yawContext) && interrupted == old(interrupted)
    {
      if c.anchor.None? != c.limits.None? { return OneWithoutTheOther; }
      if found.None? { return NoClip; }
      hide Fitted, FactorFor, WeightOf;
      Start(Resampled(found.value, dt), t, c);
      return Playing(found.value.name, yawScale);
    }

    method Start(p: Primitive, t: real, c: Context)
      requires Valid() && WellFormed(p)
      modifies this
      ensures Valid() && source == Some(p) && clip == Some(Fitted(p, c)) && yawScale == FactorFor(p, c)
      ensures t0 == t && !interrupted && env == Opened(old(env).(attack := 0.18))
    {
      hide Fitted, FactorFor, WeightOf;
      source := Some(p);
      Fit(c);
      t0 := t;
      interrupted := false;
      env := Opened(env.(attack := 0.18));
    }

    method Stop()
      requires Valid()
      modifies `env
      ensures Valid() && env == Closing(old(env), 0.3)
    {
      env := Closing(env, 0.3);
    }

    method Interrupt()
      requires Valid()
      modifies `env, `interrupted
      ensures Valid() && interrupted && env == Closing(old(env), 0.12)
    {
      interrupted := true;
      env := Closing(env, 0.12);
    }

    /** The name of the clip that is still heard. */
    function ActiveName(): (name: Option<string>)
      reads this
      ensures name.Some? <==> clip.Some? && !Closed(env)
    {
      if clip.Some? && !Closed(env) then Some(clip.value.name) else None
    }

    /** The layer's output for one tick: the clip's sample while there is a clip, which is
        dropped once its envelope has closed. */
    method Update(t: real, dt: real) returns (out: LayerOutput)
      requires Valid() && dt >= 0.0
      modifies this
      ensures Valid() && Whole(out) && out.additive && yawContext == old(yawContext)
      ensures old(clip).None? ==> out == INACTIVE && clip.None?
      ensures old(clip).Some? ==>
                && WellFormed(old(clip).value)
                && env == Stepped(Ending(old(clip).value, t - old(t0), old(interrupted), old(env)), dt)
                && out == LayerOutput(Sample(old(clip).value, t - old(t0)), old(weight), env.level, true)
                && 0.0 <= out.gain <= 1.0
                && clip == (if Closed(env) then None else old(clip))
    {
      if clip.None? { return INACTIVE; }
      hide Fitted, FactorFor, WeightOf, Sample;
      var rel := t - t0;
      env := Ending(clip.value, rel, interrupted, env);
      var offset := Sample(clip.value, rel);
      GainStays(env, dt);
      env := Stepped(env, dt);
      out := LayerOutput(offset, weight, env.level, true);
      if Closed(env) {
        clip := None;
        source := None;
      }
    }
  }

  // ----- holding still during a nod -----------------------------------------------

  const ALL_BUT_WRIST: Pose := [1.0, 1.0, 1.0, 1.0, 0.0]

  class NodHoldLayer {
    var target: Pose
    var env: Envelope

    ghost predicate Valid()
      reads this
    {
      |target| == NJ && Running(env)
    }

    /** What it puts out at its present gain. */
    function Output(): (out: LayerOutput)
      reads this
      ensures |target| == NJ ==> Whole(out)
    {
      LayerOutput(target, ALL_BUT_WRIST, env.level, false)
    }

    constructor ()
      ensures Valid() && env.level == 0.0 && target == NOTHING
    {
      target, env := NOTHING, Envelope(0.0, 0.0, 0.01, 0.5);
    }

    method Hold(pose: Pose)
      requires Valid() && |pose| == NJ
      modifies this
      ensures Valid() && target == pose && env == Opened(old(env))
    {
      target, env := pose, Opened(env);
    }

    method Release()
      requires Valid()
      modifies `env
      ensures Valid() && env == old(env).(target := 0.0)
    {
      env := env.(target := 0.0);
    }

    method Update(dt: real) returns (out: LayerOutput)
      requires Valid() && dt >= 0.0
      modifies `env
      ensures Valid() && env == Stepped(old(env), dt)
      ensures Whole(out) && out == Output()
    {
      GainStays(env, dt);
      env := Stepped(env, dt);
      return Output();
    }
  }
}

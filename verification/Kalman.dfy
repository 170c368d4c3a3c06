/** The constant-velocity target filter. The covariance is computed with full matrix
    products, as in `kalman.py`; every reachable one is isotropic in two-by-two form. */
module Kalman {
  import opened Covariance
  import opened Matrices
  import opened Options
  import opened RealMath

  datatype Config = Config(processStd: real, measStd: real, bearingMeasStd: real, maxCoast: real, initVelStd: real)

  /** Measurements are noisy, and coasting may last some time. */
  predicate Usable(cfg: Config) {
    cfg.measStd != 0.0 && cfg.bearingMeasStd != 0.0 && cfg.maxCoast >= 0.0
  }

  function Sq(x: real): real { x * x }

  lemma SqSign(x: real)
    ensures Sq(x) >= 0.0 && (Sq(x) > 0.0 <==> x != 0.0)
  {
    SqOfAbs(x);
    SqPositive(Abs(x));
    hide Sq;
  }

  lemma SqOfAbs(x: real)
    ensures Sq(Abs(x)) == Sq(x)
  {}

  lemma SqPositive(y: real)
    requires y >= 0.0
    ensures Sq(y) >= 0.0 && (Sq(y) > 0.0 <==> y > 0.0)
  {
    SquareMono(0.0, y);
    SquareMono(y, 0.0);
  }

  /** The fields of a track. `since` is absent while the source holds an infinite time. */
  datatype Estimate = Estimate(pos: Vec3, vel: Vec3, cov: Mat6, initialised: bool, since: Option<real>)

  // ----- the operations -----------------------------------------------------------

  function Reset(e: Estimate): Estimate { e.(initialised := false, since := None) }

  function InitFrom(pos: Vec3, cfg: Config): Estimate {
    Estimate(pos, Vec3(0.0, 0.0, 0.0),
             Mat6(Diag(Sq(cfg.measStd)), Diag(0.0), Diag(0.0), Diag(Sq(cfg.initVelStd))), true, Some(0.0))
  }

  function Transition(dt: real): Mat6 { Mat6(Diag(1.0), Diag(dt), Diag(0.0), Diag(1.0)) }

  function Noise(dt: real, q: real): Mat6 {
    Mat6(Diag(q * dt * dt * dt * dt / 4.0), Diag(q * dt * dt * dt / 2.0),
         Diag(q * dt * dt * dt / 2.0), Diag(q * dt * dt))
  }

  function CovAfterPredict(p: Mat6, dt: real, q: real): Mat6 {
    Add6(Mul6(Mul6(Transition(dt), p), Transpose6(Transition(dt))), Noise(dt, q))
  }

  function Predict(e: Estimate, dt: real, cfg: Config): Estimate {
    if !e.initialised then e
    else
      var since := if e.since.None? then None else Some(e.since.value + dt);
      Estimate(Plus(e.pos, Apply(Diag(dt), e.vel)), e.vel, CovAfterPredict(e.cov, dt, Sq(cfg.processStd)),
               since.Some? && since.value <= cfg.maxCoast, since)
  }

  /** The innovation covariance `H P Hᵀ + R`, and the gain `P Hᵀ S⁻¹`. */
  function Innovation(p: Mat6, r: real): Mat3 { Add(p.tl, Diag(r)) }

  function Gain(p: Mat6, r: real, inv: Mat3 -> Mat3): Tall {
    var i := inv(Innovation(p, r));
    Tall(Mul(p.tl, i), Mul(p.bl, i))
  }

  /** `(I - K H) P`. */
  function CovAfterUpdate(p: Mat6, k: Tall): Mat6 {
    Mul6(Mat6(Add(Diag(1.0), Neg(k.top)), Diag(0.0), Neg(k.bottom), Diag(1.0)), p)
  }

  function UpdatePoint(e: Estimate, z: Vec3, std: real, cfg: Config, inv: Mat3 -> Mat3): Estimate {
    if !e.initialised then InitFrom(z, cfg)
    else
      var k := Gain(e.cov, Sq(std), inv);
      var y := Minus(z, e.pos);
      Estimate(Plus(e.pos, Apply(k.top, y)), Plus(e.vel, Apply(k.bottom, y)), CovAfterUpdate(e.cov, k), true, Some(0.0))
  }

  /** The confidence of a known track is `m / (m + variance)`, clipped. The divisor is
      positive in every reachable state. */
  function Confidence(e: Estimate, cfg: Config): real {
    if !e.initialised then 0.0
    else
      var m := Sq(cfg.measStd);
      var total := m + Trace(e.cov.tl) / 3.0;
      if total == 0.0 then 0.0 else Clip(Quotient(m, total), 0.0, 1.0)
  }

  function Quotient(x: real, y: real): real
    requires y != 0.0
  {
    x / y
  }

  // ----- the covariance stays isotropic -------------------------------------------

  lemma PredictIsIsotropic(v: Var, dt: real, q: real)
    ensures CovAfterPredict(IsoOf(v), dt, q) == IsoOf(Grown(v, dt, q))
  {
    TransitionTimes(dt, v);
    TimesTransition(dt, v.a + dt * v.b, v.b + dt * v.c, v.b, v.c);
    TransposeTransition(dt);
    AddNoise(v.a + dt * v.b + (v.b + dt * v.c) * dt, v.b + dt * v.c, v.c, dt, q);
    GrownTerms(v, dt, q);
    hide Mul6, Diag, Noise, Add6, Grown, Diag6, Transition, Transpose6, IsoOf;
    assert CovAfterPredict(IsoOf(v), dt, q)
        == Add6(Mul6(Mul6(Transition(dt), IsoOf(v)), Transpose6(Transition(dt))), Noise(dt, q));
  }

  lemma TransitionTimes(dt: real, v: Var)
    ensures Mul6(Transition(dt), IsoOf(v)) == Diag6(v.a + dt * v.b, v.b + dt * v.c, v.b, v.c)
  {
    Mul6Diag(1.0, dt, 0.0, 1.0, v.a, v.b, v.b, v.c);
    assert 1.0 * v.a + dt * v.b == v.a + dt * v.b && 1.0 * v.b + dt * v.c == v.b + dt * v.c;
    assert 0.0 * v.a + 1.0 * v.b == v.b && 0.0 * v.b + 1.0 * v.c == v.c;
    hide Mul6;
  }

  lemma TimesTransition(dt: real, a: real, b: real, b': real, c: real)
    requires b == b' + dt * c
    ensures Mul6(Diag6(a, b, b', c), Diag6(1.0, 0.0, dt, 1.0)) == Diag6(a + b * dt, b, b, c)
  {
    Mul6Diag(a, b, b', c, 1.0, 0.0, dt, 1.0);
    assert a * 1.0 + b * dt == a + b * dt && a * 0.0 + b * 1.0 == b;
    assert b' * 1.0 + c * dt == b && b' * 0.0 + c * 1.0 == c;
    hide Mul6;
  }

  lemma TransposeTransition(dt: real)
    ensures Transpose6(Transition(dt)) == Diag6(1.0, 0.0, dt, 1.0)
  {}

  lemma AddNoise(a: real, b: real, c: real, dt: real, q: real)
    ensures Add6(Diag6(a, b, b, c), Noise(dt, q))
         == Diag6(a + q * dt * dt * dt * dt / 4.0, b + q * dt * dt * dt / 2.0,
                  b + q * dt * dt * dt / 2.0, c + q * dt * dt)
  {
    AddDiag(a, q * dt * dt * dt * dt / 4.0);
    AddDiag(b, q * dt * dt * dt / 2.0);
    AddDiag(c, q * dt * dt);
    hide Add, Diag;
  }

  lemma GrownTerms(v: Var, dt: real, q: real)
    ensures Grown(v, dt, q) == Var(
              v.a + dt * v.b + (v.b + dt * v.c) * dt + q * dt * dt * dt * dt / 4.0,
              v.b + dt * v.c + q * dt * dt * dt / 2.0,
              v.c + q * dt * dt)
  {}

  lemma UpdateIsIsotropic(v: Var, r: real, inv: Mat3 -> Mat3)
    requires IsInverse(inv) && v.a + r > 0.0
    ensures var k := Gain(IsoOf(v), r, inv);
            && k == Tall(Diag(Part(v.a, v.a + r)), Diag(Part(v.b, v.a + r)))
            && CovAfterUpdate(IsoOf(v), k) == IsoOf(Shrunk(v, r))
  {
    var f, g := Part(v.a, v.a + r), Part(v.b, v.a + r);
    GainIs(v, r, inv);
    ShrunkTerms(v, r, f, g);
    LeftOver(f, g);
    CorrectionTimes(f, g, v);
    hide Mul6, Diag, Shrunk, IsInverse, Gain, Neg, Add, Diag6, IsoOf, Part;
  }

  lemma GainIs(v: Var, r: real, inv: Mat3 -> Mat3)
    requires IsInverse(inv) && v.a + r > 0.0
    ensures Gain(IsoOf(v), r, inv) == Tall(Diag(Part(v.a, v.a + r)), Diag(Part(v.b, v.a + r)))
  {
    AddDiag(v.a, r);
    InverseOfDiag(inv, v.a + r);
    MulDiag(v.a, 1.0 / (v.a + r));
    MulDiag(v.b, 1.0 / (v.a + r));
    hide Mul, Add, Diag, IsInverse;
  }

  lemma LeftOver(f: real, g: real)
    ensures Mat6(Add(Diag(1.0), Neg(Diag(f))), Diag(0.0), Neg(Diag(g)), Diag(1.0)) == Diag6(1.0 - f, 0.0, -g, 1.0)
  {}

  lemma CorrectionTimes(f: real, g: real, v: Var)
    ensures Mul6(Diag6(1.0 - f, 0.0, -g, 1.0), IsoOf(v))
         == Diag6((1.0 - f) * v.a, (1.0 - f) * v.b, -g * v.a + v.b, -g * v.b + v.c)
  {
    Mul6Diag(1.0 - f, 0.0, -g, 1.0, v.a, v.b, v.b, v.c);
    assert (1.0 - f) * v.a + 0.0 * v.b == (1.0 - f) * v.a && (1.0 - f) * v.b + 0.0 * v.c == (1.0 - f) * v.b;
    assert -g * v.a + 1.0 * v.b == -g * v.a + v.b && -g * v.b + 1.0 * v.c == -g * v.b + v.c;
    hide Mul6;
  }

  lemma ShrunkTerms(v: Var, r: real, f: real, g: real)
    requires v.a + r > 0.0 && f == Part(v.a, v.a + r) && g == Part(v.b, v.a + r)
    ensures Shrunk(v, r) == Var((1.0 - f) * v.a, (1.0 - f) * v.b, -g * v.b + v.c)
    ensures (1.0 - f) * v.b == -g * v.a + v.b
  {
    var s := v.a + r;
    var h := r / s;
    Divides(v.a, s, f);
    Divides(v.b, s, g);
    assert h * s == r;
    CancelMul(s, h, 1.0 - f);
    CancelMul(s, 1.0 - f, h);
    assert s * (1.0 - f) == s - f * s;
    assert f * v.b == g * v.a by { hide Shrunk, Share; assert f * v.b == v.a * (1.0 / s) * v.b; }
  }

  /** `x / s`, as the matrix products compute it. */
  function Part(x: real, s: real): real
    requires s != 0.0
  {
    x * (1.0 / s)
  }

  lemma Divides(x: real, s: real, f: real)
    requires s > 0.0 && f == Part(x, s)
    ensures f == x / s && f * s == x
  {
    assert (1.0 / s) * s == 1.0;
    assert f * s == x * ((1.0 / s) * s);
  }

  // ----- runs ---------------------------------------------------------------------

  datatype Op = Tick(dt: real) | Seen(point: Vec3, std: real) | Lost

  /** Time does not run backwards, and measurements are noisy. */
  predicate Allowed(op: Op) {
    match op
    case Tick(dt) => dt >= 0.0
    case Seen(_, std) => std != 0.0
    case Lost => true
  }

  function Do(e: Estimate, op: Op, cfg: Config, inv: Mat3 -> Mat3): Estimate {
    match op
    case Tick(dt) => Predict(e, dt, cfg)
    case Seen(z, std) => UpdatePoint(e, z, std, cfg, inv)
    case Lost => Reset(e)
  }

  const UNKNOWN := Estimate(Vec3(0.0, 0.0, 0.0), Vec3(0.0, 0.0, 0.0), Diag6(1.0, 0.0, 0.0, 1.0), false, None)

  function Run(ops: seq<Op>, cfg: Config, inv: Mat3 -> Mat3): Estimate {
    if ops == [] then UNKNOWN
    else Do(Run(ops[..|ops| - 1], cfg, inv), ops[|ops| - 1], cfg, inv)
  }

  predicate AllAllowed(ops: seq<Op>) { forall op :: op in ops ==> Allowed(op) }

  function VarOf(e: Estimate): Var { Var(e.cov.tl.xx, e.cov.tr.xx, e.cov.br.xx) }

  /** What holds of a track in every reachable state. */
  ghost predicate Good(e: Estimate, cfg: Config) {
    e.initialised ==>
      && e.since.Some? && 0.0 <= e.since.value <= cfg.maxCoast
      && e.cov == IsoOf(VarOf(e)) && Positive(VarOf(e))
      && Uncertain(VarOf(e), cfg)
  }

  /** The configuration allows for motion of the target. */
  predicate Moving(cfg: Config) { cfg.processStd != 0.0 || cfg.initVelStd != 0.0 }

  /** Coasting widens the estimate exactly for such configurations. */
  predicate Uncertain(v: Var, cfg: Config) {
    Moving(cfg) <==> v.c > 0.0 || Sq(cfg.processStd) > 0.0
  }

  lemma InitIsGood(z: Vec3, cfg: Config)
    requires Usable(cfg)
    ensures Good(InitFrom(z, cfg), cfg)
    ensures VarOf(InitFrom(z, cfg)) == Var(Sq(cfg.measStd), 0.0, Sq(cfg.initVelStd))
  {
    SqSign(cfg.measStd);
    SqSign(cfg.initVelStd);
    SqSign(cfg.processStd);
    hide Sq;
    MulSign(Sq(cfg.measStd), Sq(cfg.initVelStd));
  }

  lemma VarOfIso(e: Estimate, v: Var)
    requires e.cov == IsoOf(v)
    ensures VarOf(e) == v
  {}

  lemma PredictIsGood(e: Estimate, dt: real, cfg: Config)
    requires Good(e, cfg) && e.initialised && dt >= 0.0
    ensures Good(Predict(e, dt, cfg), cfg)
    ensures VarOf(Predict(e, dt, cfg)) == Grown(VarOf(e), dt, Sq(cfg.processStd))
    ensures Predict(e, dt, cfg).cov == IsoOf(VarOf(Predict(e, dt, cfg)))
  {
    SqSign(cfg.processStd);
    var v, q := VarOf(e), Sq(cfg.processStd);
    PredictIsIsotropic(v, dt, q);
    GrownPositive(v, dt, q);
    VarOfIso(Predict(e, dt, cfg), Grown(v, dt, q));
    hide VarOf, Positive, Grown, IsoOf, Sq, CovAfterPredict;
  }

  lemma UpdateIsGood(e: Estimate, z: Vec3, std: real, cfg: Config, inv: Mat3 -> Mat3)
    requires IsInverse(inv) && Usable(cfg) && Good(e, cfg) && e.initialised && std != 0.0
    ensures Good(UpdatePoint(e, z, std, cfg, inv), cfg)
    ensures VarOf(e).a > 0.0 && Sq(std) > 0.0
    ensures VarOf(UpdatePoint(e, z, std, cfg, inv)) == Shrunk(VarOf(e), Sq(std))
    ensures UpdatePoint(e, z, std, cfg, inv).cov == IsoOf(VarOf(UpdatePoint(e, z, std, cfg, inv)))
  {
    SqSign(std);
    var v, r := VarOf(e), Sq(std);
    UpdateIsIsotropic(v, r, inv);
    ShrunkPositive(v, r);
    VarOfIso(UpdatePoint(e, z, std, cfg, inv), Shrunk(v, r));
    assert v.a > 0.0;
    hide VarOf, Positive, Shrunk, IsoOf, Sq, Gain, CovAfterUpdate, IsInverse;
  }

  /** Every reachable track has an isotropic positive covariance, and one that is still
      known was measured at most `maxCoast` ago. */
  lemma {:induction false} EveryRunIsGood(ops: seq<Op>, cfg: Config, inv: Mat3 -> Mat3)
    requires IsInverse(inv) && Usable(cfg) && AllAllowed(ops)
    ensures Good(Run(ops, cfg, inv), cfg)
  {
    if ops != [] {
      var before, op := ops[..|ops| - 1], ops[|ops| - 1];
      EveryRunIsGood(before, cfg, inv);
      assert Allowed(op);
      var e := Run(before, cfg, inv);
      DoIsGood(e, op, cfg, inv);
      hide Good, Do, IsInverse, Usable;
    }
  }

  lemma DoIsGood(e: Estimate, op: Op, cfg: Config, inv: Mat3 -> Mat3)
    requires IsInverse(inv) && Usable(cfg) && Good(e, cfg) && Allowed(op)
    ensures Good(Do(e, op, cfg, inv), cfg)
  {
    match op
    case Tick(dt) => if e.initialised { PredictIsGood(e, dt, cfg); }
    case Seen(z, std) => if e.initialised { UpdateIsGood(e, z, std, cfg, inv); } else { InitIsGood(z, cfg); }
    case Lost =>
  }

  // ----- confidence ---------------------------------------------------------------

  /** The confidence that a position variance earns. */
  function Trust(m: real, variance: real): real
    requires m + variance != 0.0
  {
    Quotient(m, m + variance)
  }

  lemma TrustBounds(m: real, a: real, a': real)
    requires m > 0.0 && a > 0.0 && a' > 0.0
    ensures 0.0 < Trust(m, a) < 1.0
    ensures Trust(m, a) < Trust(m, a') <==> a' < a
  {
    var t, t' := Trust(m, a), Trust(m, a');
    assert t * (m + a) == m && t' * (m + a') == m;
    CancelMul(m + a, t, 0.0);
    CancelMul(m + a, 1.0, t);
    CancelMul(m + a', t', 0.0);
    TrustOrder(t, t', m, a, a');
  }

  lemma TrustOrder(t: real, t': real, m: real, a: real, a': real)
    requires m > 0.0 && a > 0.0 && a' > 0.0 && t > 0.0 && t' > 0.0
    requires t * (m + a) == m && t' * (m + a') == m
    ensures t < t' <==> a' < a
  {
    assert (t' - t) * (m + a) == t' * (a - a');
    CancelMul(m + a, 0.0, t' - t);
    CancelMul(m + a, t' - t, 0.0);
    CancelMul(t', 0.0, a - a');
    CancelMul(t', a - a', 0.0);
  }

  /** A known track's confidence is strictly between zero and one. */
  lemma ConfidenceIs(e: Estimate, cfg: Config)
    requires Usable(cfg) && e.initialised && e.cov == IsoOf(VarOf(e)) && VarOf(e).a > 0.0
    ensures Sq(cfg.measStd) > 0.0
    ensures Confidence(e, cfg) == Trust(Sq(cfg.measStd), VarOf(e).a)
    ensures 0.0 < Confidence(e, cfg) < 1.0
  {
    SqSign(cfg.measStd);
    var a := VarOf(e).a;
    assert Trace(e.cov.tl) / 3.0 == a;
    TrustBounds(Sq(cfg.measStd), a, a);
    hide VarOf, IsoOf, Sq, Trace, Quotient;
  }

  /** Confidence is positive exactly while a track is known, and never reaches one. */
  lemma ConfidenceInUnit(ops: seq<Op>, cfg: Config, inv: Mat3 -> Mat3)
    requires IsInverse(inv) && Usable(cfg) && AllAllowed(ops)
    ensures var e := Run(ops, cfg, inv);
            0.0 <= Confidence(e, cfg) < 1.0 && (Confidence(e, cfg) > 0.0 <==> e.initialised)
  {
    EveryRunIsGood(ops, cfg, inv);
    if Run(ops, cfg, inv).initialised { ConfidenceIs(Run(ops, cfg, inv), cfg); }
  }

  /** Coasting for some time never raises the confidence of a known track, and strictly
      lowers it exactly if the configuration allows for motion or the track is lost. */
  lemma CoastingLosesConfidence(ops: seq<Op>, dt: real, cfg: Config, inv: Mat3 -> Mat3)
    requires IsInverse(inv) && Usable(cfg) && AllAllowed(ops) && dt > 0.0 && Run(ops, cfg, inv).initialised
    ensures var e, e' := Run(ops, cfg, inv), Predict(Run(ops, cfg, inv), dt, cfg);
            && Confidence(e', cfg) <= Confidence(e, cfg)
            && (Confidence(e', cfg) < Confidence(e, cfg) <==> Moving(cfg) || !e'.initialised)
  {
    var e := Run(ops, cfg, inv);
    EveryRunIsGood(ops, cfg, inv);
    ConfidenceIs(e, cfg);
    var e' := Predict(e, dt, cfg);
    if e'.initialised {
      SqSign(cfg.processStd);
      GrownPositive(VarOf(e), dt, Sq(cfg.processStd));
      PredictIsGood(e, dt, cfg);
      ConfidenceIs(e', cfg);
      TrustBounds(Sq(cfg.measStd), VarOf(e').a, VarOf(e).a);
      TrustBounds(Sq(cfg.measStd), VarOf(e).a, VarOf(e').a);
      hide VarOf, IsoOf, Sq, Confidence, Trust, Predict, Run, Grown, IsInverse;
    }
  }

  /** Every measurement strictly raises the confidence, from a lost track to a half. */
  lemma MeasuringGainsConfidence(ops: seq<Op>, z: Vec3, std: real, cfg: Config, inv: Mat3 -> Mat3)
    requires IsInverse(inv) && Usable(cfg) && AllAllowed(ops) && std != 0.0
    ensures var e, e' := Run(ops, cfg, inv), UpdatePoint(Run(ops, cfg, inv), z, std, cfg, inv);
            Confidence(e, cfg) < Confidence(e', cfg) && (!e.initialised ==> Confidence(e', cfg) == 0.5)
  {
    var e := Run(ops, cfg, inv);
    EveryRunIsGood(ops, cfg, inv);
    if e.initialised {
      KnownGains(e, z, std, cfg, inv);
    } else {
      InitIsGood(z, cfg);
      ConfidenceIs(InitFrom(z, cfg), cfg);
      TrustOfItself(Sq(cfg.measStd));
    }
    hide Good, Gain, InitFrom, CovAfterUpdate, Run, Sq, IsInverse;
  }

  lemma KnownGains(e: Estimate, z: Vec3, std: real, cfg: Config, inv: Mat3 -> Mat3)
    requires IsInverse(inv) && Usable(cfg) && Good(e, cfg) && e.initialised && std != 0.0
    ensures Confidence(e, cfg) < Confidence(UpdatePoint(e, z, std, cfg, inv), cfg)
  {
    var e' := UpdatePoint(e, z, std, cfg, inv);
    ConfidenceIs(e, cfg);
    UpdateIsGood(e, z, std, cfg, inv);
    ShrunkPositive(VarOf(e), Sq(std));
    ConfidenceIs(e', cfg);
    TrustBounds(Sq(cfg.measStd), VarOf(e).a, VarOf(e').a);
    hide VarOf, IsoOf, Sq, Confidence, Trust, UpdatePoint, Shrunk, IsInverse;
  }

  lemma TrustOfItself(m: real)
    requires m > 0.0
    ensures Trust(m, m) == 0.5
  {
    assert 0.5 * (m + m) == m;
  }

  // ----- when a track is known ----------------------------------------------------

  /** Time since the last measurement, if there was one since the track was last lost. */
  function Elapsed(ops: seq<Op>): Option<real> {
    if ops == [] then None
    else
      var n := |ops| - 1;
      match ops[n]
      case Tick(dt) =>
        var before := Elapsed(ops[..n]);
        if before.None? then None else Some(before.value + dt)
      case Seen(_, _) => Some(0.0)
      case Lost => None
  }

  /** A track is known exactly when its last measurement is at most `maxCoast` old. */
  lemma {:induction false} KnownIff(ops: seq<Op>, cfg: Config, inv: Mat3 -> Mat3)
    requires cfg.maxCoast >= 0.0 && AllAllowed(ops)
    ensures var e, since := Run(ops, cfg, inv), Elapsed(ops);
            && (e.initialised <==> since.Some? && since.value <= cfg.maxCoast)
            && (e.initialised ==> e.since == since)
  {
    if ops != [] {
      var n := |ops| - 1;
      KnownIff(ops[..n], cfg, inv);
      assert Allowed(ops[n]);
      hide CovAfterPredict, CovAfterUpdate, Gain, Apply, Plus, Minus, Diag, Sq, InitFrom;
    }
  }

  // ----- the estimate -------------------------------------------------------------

  /** A measurement moves the position to the mean of prediction and measurement,
      weighted by their precisions. */
  lemma UpdateIsWeightedMean(e: Estimate, z: Vec3, std: real, cfg: Config, inv: Mat3 -> Mat3)
    requires IsInverse(inv) && Usable(cfg) && Good(e, cfg) && e.initialised && std != 0.0
    ensures var a, r := VarOf(e).a, Sq(std);
            Times(a + r, UpdatePoint(e, z, std, cfg, inv).pos) == Plus(Times(r, e.pos), Times(a, z))
  {
    UpdateIsGood(e, z, std, cfg, inv);
    var a, r := VarOf(e).a, Sq(std);
    var f := Part(a, a + r);
    var p := UpdatePoint(e, z, std, cfg, inv).pos;
    Divides(a, a + r, f);
    hide VarOf, Sq, IsoOf, Positive, IsInverse, UpdatePoint, Good, Usable, Times, Plus, Minus, Part, Shrunk;
    assert p == Plus(e.pos, Times(f, Minus(z, e.pos))) by { PosAfterUpdate(e, z, std, cfg, inv); }
    Mean(a, r, f, e.pos, z);
  }

  lemma PosAfterUpdate(e: Estimate, z: Vec3, std: real, cfg: Config, inv: Mat3 -> Mat3)
    requires IsInverse(inv) && e.cov == IsoOf(VarOf(e)) && e.initialised && VarOf(e).a + Sq(std) > 0.0
    ensures var f := Part(VarOf(e).a, VarOf(e).a + Sq(std));
            UpdatePoint(e, z, std, cfg, inv).pos == Plus(e.pos, Times(f, Minus(z, e.pos)))
  {
    UpdateIsIsotropic(VarOf(e), Sq(std), inv);
    ApplyDiag(Part(VarOf(e).a, VarOf(e).a + Sq(std)), Minus(z, e.pos));
    hide VarOf, Sq, Gain, Apply, Diag, CovAfterUpdate, IsInverse, Plus, Minus, Times, IsoOf, Part, Shrunk;
  }

  lemma Mean(a: real, r: real, f: real, p: Vec3, z: Vec3)
    requires f * (a + r) == a
    ensures Times(a + r, Plus(p, Times(f, Minus(z, p)))) == Plus(Times(r, p), Times(a, z))
  {
    Pull(a, r, f, p.x, z.x);
    Pull(a, r, f, p.y, z.y);
    Pull(a, r, f, p.z, z.z);
  }

  lemma Pull(a: real, r: real, f: real, x: real, z: real)
    requires f * (a + r) == a
    ensures (a + r) * (x + f * (z - x)) == r * x + a * z
  {
    assert (a + r) * (x + f * (z - x)) == (a + r) * x + (f * (a + r)) * (z - x);
  }

  /** A measurement corrects the velocity by the share of the innovation that the covariance
      of velocity and position earns. */
  lemma UpdateCorrectsVelocity(e: Estimate, z: Vec3, std: real, cfg: Config, inv: Mat3 -> Mat3)
    requires IsInverse(inv) && Usable(cfg) && Good(e, cfg) && e.initialised && std != 0.0
    ensures var v, r := VarOf(e), Sq(std);
            Times(v.a + r, Minus(UpdatePoint(e, z, std, cfg, inv).vel, e.vel)) == Times(v.b, Minus(z, e.pos))
  {
    UpdateIsGood(e, z, std, cfg, inv);
    var v, r := VarOf(e), Sq(std);
    var g := Part(v.b, v.a + r);
    Divides(v.b, v.a + r, g);
    VelAfterUpdate(e, z, std, cfg, inv);
    hide VarOf, Sq, IsoOf, Positive, IsInverse, UpdatePoint, Good, Usable, Times, Plus, Minus, Part, Shrunk;
    Correction(v.a + r, g, v.b, e.vel, Minus(z, e.pos));
  }

  lemma VelAfterUpdate(e: Estimate, z: Vec3, std: real, cfg: Config, inv: Mat3 -> Mat3)
    requires IsInverse(inv) && e.cov == IsoOf(VarOf(e)) && e.initialised && VarOf(e).a + Sq(std) > 0.0
    ensures var g := Part(VarOf(e).b, VarOf(e).a + Sq(std));
            UpdatePoint(e, z, std, cfg, inv).vel == Plus(e.vel, Times(g, Minus(z, e.pos)))
  {
    UpdateIsIsotropic(VarOf(e), Sq(std), inv);
    ApplyDiag(Part(VarOf(e).b, VarOf(e).a + Sq(std)), Minus(z, e.pos));
    hide VarOf, Sq, Gain, Apply, Diag, CovAfterUpdate, IsInverse, Plus, Minus, Times, IsoOf, Part, Shrunk;
  }

  lemma Correction(s: real, g: real, b: real, vel: Vec3, y: Vec3)
    requires g * s == b
    ensures Times(s, Minus(Plus(vel, Times(g, y)), vel)) == Times(b, y)
  {
    PartTimes(s, g, b, y.x);
    PartTimes(s, g, b, y.y);
    PartTimes(s, g, b, y.z);
  }

  lemma PartTimes(s: real, g: real, b: real, y: real)
    requires g * s == b
    ensures s * (g * y) == b * y
  {
    assert s * (g * y) == (g * s) * y;
  }

  // ----- a target in steady motion --------------------------------------------------

  /** Where a target that moves steadily is. */
  function Along(p: Vec3, v: Vec3, t: real): Vec3 { Plus(p, Times(t, v)) }

  predicate Agrees(e: Estimate, p: Vec3, v: Vec3) { e.initialised ==> e.pos == p && e.vel == v }

  /** Time that passes in a run. */
  function Clock(ops: seq<Op>): real {
    if ops == [] then 0.0
    else Clock(ops[..|ops| - 1]) + if ops[|ops| - 1].Tick? then ops[|ops| - 1].dt else 0.0
  }

  function Resume(e: Estimate, ops: seq<Op>, cfg: Config, inv: Mat3 -> Mat3): Estimate {
    if ops == [] then e else Do(Resume(e, ops[..|ops| - 1], cfg, inv), ops[|ops| - 1], cfg, inv)
  }

  /** Every measurement shows the target where it is, and comes while the track is known. */
  predicate Truthful(e: Estimate, ops: seq<Op>, p: Vec3, v: Vec3, cfg: Config, inv: Mat3 -> Mat3) {
    forall i :: 0 <= i < |ops| && ops[i].Seen? ==>
      ops[i].point == Along(p, v, Clock(ops[..i])) && Resume(e, ops[..i], cfg, inv).initialised
  }

  /** An estimate that agrees with a target in steady motion agrees with it for as long as
      it is known, whatever the covariance: through all predictions, and through all
      measurements of its true position. */
  lemma {:induction false} SteadyMotionIsFollowed(e: Estimate, ops: seq<Op>, p: Vec3, v: Vec3, cfg: Config,
      inv: Mat3 -> Mat3)
    requires Agrees(e, p, v) && Truthful(e, ops, p, v, cfg, inv)
    ensures Agrees(Resume(e, ops, cfg, inv), Along(p, v, Clock(ops)), v)
  {
    if ops == [] {
      AlongStart(p, v);
    } else {
      var n := |ops| - 1;
      TruthfulPrefix(e, ops, p, v, cfg, inv);
      SteadyMotionIsFollowed(e, ops[..n], p, v, cfg, inv);
      var before := Resume(e, ops[..n], cfg, inv);
      var at := Along(p, v, Clock(ops[..n]));
      if ops[n].Tick? {
        CoastsAlong(before, at, v, ops[n].dt, cfg);
        AlongMore(p, v, Clock(ops[..n]), ops[n].dt);
      } else if ops[n].Seen? {
        ExactIsKept(before, at, v, ops[n].std, cfg, inv);
      }
      hide Predict, UpdatePoint, Along;
    }
  }

  lemma TruthfulPrefix(e: Estimate, ops: seq<Op>, p: Vec3, v: Vec3, cfg: Config, inv: Mat3 -> Mat3)
    requires ops != [] && Truthful(e, ops, p, v, cfg, inv)
    ensures Truthful(e, ops[..|ops| - 1], p, v, cfg, inv)
  {
    var n := |ops| - 1;
    forall i | 0 <= i < n && ops[..n][i].Seen?
      ensures ops[..n][i].point == Along(p, v, Clock(ops[..n][..i])) && Resume(e, ops[..n][..i], cfg, inv).initialised
    {
      assert ops[..n][..i] == ops[..i] && ops[..n][i] == ops[i];
    }
  }

  lemma AlongStart(p: Vec3, v: Vec3)
    ensures Along(p, v, 0.0) == p
  {}

  lemma AlongMore(p: Vec3, v: Vec3, t: real, dt: real)
    ensures Along(p, v, t + dt) == Along(Along(p, v, t), v, dt)
  {
    assert (t + dt) * v.x == t * v.x + dt * v.x && (t + dt) * v.y == t * v.y + dt * v.y;
    assert (t + dt) * v.z == t * v.z + dt * v.z;
  }

  /** A prediction moves the estimate along its velocity. */
  lemma CoastsAlong(e: Estimate, p: Vec3, v: Vec3, dt: real, cfg: Config)
    requires Agrees(e, p, v)
    ensures Agrees(Predict(e, dt, cfg), Along(p, v, dt), v)
  {
    ApplyDiag(dt, v);
    hide Apply, Diag, CovAfterPredict, Plus, Times;
  }

  /** A measurement of the position already estimated changes neither position nor velocity. */
  lemma ExactIsKept(e: Estimate, p: Vec3, v: Vec3, std: real, cfg: Config, inv: Mat3 -> Mat3)
    requires Agrees(e, p, v) && e.initialised
    ensures Agrees(UpdatePoint(e, p, std, cfg, inv), p, v)
  {
    NothingNew(p);
    ApplyNothing(Gain(e.cov, Sq(std), inv).top);
    ApplyNothing(Gain(e.cov, Sq(std), inv).bottom);
    AddNothing(p);
    AddNothing(v);
    hide Apply, Gain, CovAfterUpdate, Plus, Minus;
  }

  const NOWHERE := Vec3(0.0, 0.0, 0.0)

  lemma NothingNew(p: Vec3)
    ensures Minus(p, p) == NOWHERE
  {}

  lemma AddNothing(p: Vec3)
    ensures Plus(p, NOWHERE) == p
  {}

  lemma ApplyNothing(m: Mat3)
    ensures Apply(m, NOWHERE) == NOWHERE
  {}

  /** The first measurement of a lost track is taken as it is, at rest. */
  lemma FirstMeasurement(e: Estimate, z: Vec3, std: real, cfg: Config, inv: Mat3 -> Mat3)
    requires !e.initialised
    ensures var e' := UpdatePoint(e, z, std, cfg, inv);
            e'.initialised && e'.pos == z && e'.vel == NOWHERE && e'.since == Some(0.0)
  {}

  lemma NeverSingular(e: Estimate, std: real, cfg: Config)
    requires Good(e, cfg) && e.initialised
    ensures Det(Innovation(e.cov, Sq(std))) != 0.0
  {
    var s := VarOf(e).a + Sq(std);
    SqSign(std);
    AddDiag(VarOf(e).a, Sq(std));
    DetDiag(s);
    hide Sq, Det, Diag, Add;
  }

  lemma CubePositive(s: real)
    requires s > 0.0
    ensures s * Sq(s) > 0.0
  {
    SqSign(s);
    hide Sq;
    MulPos(s, Sq(s));
  }

  lemma DetDiag(s: real)
    requires s > 0.0
    ensures Det(Diag(s)) > 0.0
  {
    CubePositive(s);
    assert Det(Diag(s)) == s * Sq(s);
  }

  // ----- the track ----------------------------------------------------------------

  /** The filter object. The matrix inverse is the platform's. */
  class TargetTrack {
    const cfg: Config
    const inv: Mat3 -> Mat3
    var pos: Vec3
    var vel: Vec3
    var P: Mat6
    var initialised: bool
    var timeSinceMeas: Option<real>

    ghost function State(): Estimate
      reads this
    {
      Estimate(pos, vel, P, initialised, timeSinceMeas)
    }

    ghost predicate Valid()
      reads this
    {
      IsInverse(inv) && Usable(cfg) && Good(State(), cfg)
    }

    constructor (cfg: Config, inv: Mat3 -> Mat3)
      requires IsInverse(inv) && Usable(cfg)
      ensures Valid() && this.cfg == cfg && this.inv == inv && State() == UNKNOWN == Run([], cfg, inv)
    {
      this.cfg := cfg;
      this.inv := inv;
      pos, vel, P := UNKNOWN.pos, UNKNOWN.vel, UNKNOWN.cov;
      initialised, timeSinceMeas := false, None;
    }

    method Reset()
      requires Valid()
      modifies this
      ensures Valid() && State() == Do(old(State()), Lost, cfg, inv)
    {
      initialised := false;
      timeSinceMeas := None;
    }

    /** The time step is not checked. */
    method Predict(dt: real)
      modifies this
      ensures State() == Do(old(State()), Tick(dt), cfg, inv)
      ensures old(Valid()) && dt >= 0.0 ==> Valid()
    {
      hide Good, Usable, IsInverse, Do;
      if Valid() && dt >= 0.0 { DoIsGood(State(), Tick(dt), cfg, inv); }
      Coast(dt);
    }

    method Coast(dt: real)
      modifies this
      ensures State() == Do(old(State()), Tick(dt), cfg, inv)
    {
      hide CovAfterPredict, Apply, Plus, Diag, Sq;
      if !initialised { return; }
      var q := Sq(cfg.processStd);
      pos := Plus(pos, Apply(Diag(dt), vel));
      P := CovAfterPredict(P, dt, q);
      timeSinceMeas := if timeSinceMeas.None? then None else Some(timeSinceMeas.value + dt);
      if timeSinceMeas.None? || timeSinceMeas.value > cfg.maxCoast {
        initialised := false;
      }
    }

    /** Raises exactly for a singular innovation, which leaves the track as it was. That
        never happens to a track whose measurements so far were noisy, not even if this one
        is taken as exact. */
    method UpdatePoint(z: Vec3, std: real) returns (ok: bool)
      modifies this
      ensures ok <==> !old(initialised) || Det(Innovation(old(P), Sq(std))) != 0.0
      ensures State() == if ok then Do(old(State()), Seen(z, std), cfg, inv) else old(State())
      ensures old(Valid()) ==> ok
      ensures old(Valid()) && std != 0.0 ==> Valid()
    {
      hide Good, Usable, IsInverse, Do, Innovation;
      if Valid() && initialised { NeverSingular(State(), std, cfg); }
      if Valid() && std != 0.0 { DoIsGood(State(), Seen(z, std), cfg, inv); }
      if initialised && Det(Innovation(P, Sq(std))) == 0.0 { return false; }
      Measure(z, std);
      return true;
    }

    method Measure(z: Vec3, std: real)
      modifies this
      ensures State() == Do(old(State()), Seen(z, std), cfg, inv)
    {
      hide CovAfterUpdate, Gain, Apply, Plus, Minus, Diag, Sq;
      if !initialised {
        var e := InitFrom(z, cfg);
        pos, vel, P := e.pos, e.vel, e.cov;
      } else {
        var r := Sq(std);
        var y := Minus(z, pos);
        var k := Gain(P, r, inv);
        pos := Plus(pos, Apply(k.top, y));
        vel := Plus(vel, Apply(k.bottom, y));
        P := CovAfterUpdate(P, k);
      }
      initialised := true;
      timeSinceMeas := Some(0.0);
    }

    /** Reads the confidence, which lies in the unit interval and is positive exactly
        while the track is known. */
    method GetConfidence() returns (c: real)
      requires Valid()
      ensures c == Confidence(State(), cfg)
      ensures 0.0 <= c < 1.0 && (c > 0.0 <==> initialised)
    {
      if !initialised { return 0.0; }
      ConfidenceIs(State(), cfg);
      var posVar := Trace(P.tl) / 3.0;
      var m := Sq(cfg.measStd);
      assert posVar == VarOf(State()).a;
      c := Clip(Quotient(m, m + posVar), 0.0, 1.0);
    }
  }
}

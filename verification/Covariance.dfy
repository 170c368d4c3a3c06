/** Covariances of the form `[[aI, bI], [bI, cI]]`, which is what the target filter's
    covariance stays, as three scalars. */
module Covariance {
  import opened Matrices
  import opened RealMath

  datatype Var = Var(a: real, b: real, c: real)

  function IsoOf(v: Var): Mat6 { Diag6(v.a, v.b, v.b, v.c) }

  function Disc(v: Var): real { v.a * v.c - v.b * v.b }

  /** Positive definite up to a velocity of variance zero, with no negative
      correlation between position and velocity. */
  predicate Positive(v: Var) {
    v.a > 0.0 && v.b >= 0.0 && v.c >= 0.0 && Disc(v) >= 0.0
  }

  /** `x t` and `x t²`: what a rate and an acceleration of size `x` add in time `t`. */
  function Drift(x: real, t: real): real { x * t }
  function Sway(x: real, t: real): real { Drift(x, t) * t }

  /** The covariance after moving for `dt` at constant velocity. */
  function Moved(v: Var, dt: real): Var {
    Var(v.a + 2.0 * Drift(v.b, dt) + Sway(v.c, dt), v.b + Drift(v.c, dt), v.c)
  }

  /** The covariance with the noise of an unknown acceleration added. */
  function Noised(v: Var, dt: real, n: real): Var {
    Var(v.a + Sway(n, dt) / 4.0, v.b + Drift(n, dt) / 2.0, v.c + n)
  }

  function Grown(v: Var, dt: real, q: real): Var { Noised(Moved(v, dt), dt, Sway(q, dt)) }

  function Share(x: real, y: real, s: real): real
    requires s != 0.0
  {
    x * (y / s)
  }

  function Shrunk(v: Var, r: real): Var
    requires v.a + r != 0.0
  {
    var s := v.a + r;
    Var(Share(v.a, r, s), Share(v.b, r, s), v.c - Share(v.b, v.b, s))
  }

  lemma SwaySign(x: real, t: real)
    requires x >= 0.0 && t >= 0.0
    ensures Drift(x, t) >= 0.0 && Sway(x, t) >= 0.0
    ensures Sway(x, t) > 0.0 <==> x > 0.0 && t > 0.0
    ensures Drift(0.0, t) == 0.0 && Sway(0.0, t) == 0.0
  {
    MulSign(x, t);
    DriftSign(x, t);
    hide Drift;
    MulSign(Drift(x, t), t);
  }

  lemma DriftSign(x: real, t: real)
    requires x >= 0.0 && t >= 0.0
    ensures Drift(x, t) >= 0.0 && Drift(0.0, t) == 0.0
    ensures Drift(x, t) > 0.0 <==> x > 0.0 && t > 0.0
  {
    MulSign(x, t);
  }

  lemma MovedDisc(v: Var, t: real)
    ensures Disc(Moved(v, t)) == Disc(v)
  {
    var a, b, c := v.a, v.b, v.c;
    assert (a + 2.0 * (b * t) + c * t * t) * c - (b + c * t) * (b + c * t) == a * c - b * b;
  }

  /** How far noise spreads the covariance. */
  function Spread(v: Var, t: real, n: real): real { n * (v.a - Drift(v.b, t)) + Sway(n, t) * v.c / 4.0 }

  lemma NoisedDisc(v: Var, t: real, n: real)
    ensures Disc(Noised(v, t, n)) == Disc(v) + Spread(v, t, n)
  {
    VarianceProduct(v.a, Sway(n, t), v.c, n);
    CovarianceSquare(v.b, Drift(n, t));
    NoiseSquares(n, t, v.b);
    assert n * (v.a - Drift(v.b, t)) == v.a * n - n * Drift(v.b, t);
    hide Drift, Sway;
  }

  lemma VarianceProduct(a: real, s: real, c: real, n: real)
    ensures (a + s / 4.0) * (c + n) == a * c + a * n + s * c / 4.0 + s * n / 4.0
  {}

  lemma CovarianceSquare(b: real, d: real)
    ensures (b + d / 2.0) * (b + d / 2.0) == b * b + b * d + d * d / 4.0
  {}

  lemma NoiseSquares(n: real, t: real, b: real)
    ensures Drift(n, t) * Drift(n, t) == Sway(n, t) * n
    ensures n * Drift(b, t) == b * Drift(n, t)
  {}

  lemma SpreadSign(v: Var, t: real, n: real)
    requires n >= 0.0 && v.a >= Drift(v.b, t) && Sway(n, t) >= 0.0 && v.c >= 0.0
    ensures Spread(v, t, n) >= 0.0
  {
    MulSign(n, v.a - Drift(v.b, t));
    MulSign(Sway(n, t), v.c);
    hide Drift, Sway;
  }

  lemma MovedPositive(v: Var, dt: real)
    requires Positive(v) && dt >= 0.0
    ensures Positive(Moved(v, dt)) && Disc(Moved(v, dt)) == Disc(v)
    ensures Moved(v, dt).a >= v.a + Drift(Moved(v, dt).b, dt)
    ensures dt > 0.0 && v.c > 0.0 ==> Moved(v, dt).a > v.a
  {
    MovedDisc(v, dt);
    SwaySign(v.b, dt);
    SwaySign(v.c, dt);
    assert Drift(Moved(v, dt).b, dt) == Drift(v.b, dt) + Sway(v.c, dt);
    hide Disc, Drift, Sway;
  }

  lemma NoisedPositive(v: Var, dt: real, n: real)
    requires Positive(v) && dt >= 0.0 && n >= 0.0 && v.a >= Drift(v.b, dt)
    ensures Positive(Noised(v, dt, n)) && Disc(Noised(v, dt, n)) >= Disc(v)
    ensures Noised(v, dt, n).a >= v.a && Noised(v, dt, n).c == v.c + n
    ensures dt > 0.0 && n > 0.0 ==> Noised(v, dt, n).a > v.a
  {
    NoisedDisc(v, dt, n);
    SwaySign(n, dt);
    SpreadSign(v, dt, n);
    hide Disc, Drift, Sway, Spread;
  }

  /** Coasting never narrows the estimate, and widens it unless neither the velocity nor
      the acceleration is uncertain. */
  lemma GrownPositive(v: Var, dt: real, q: real)
    requires Positive(v) && dt >= 0.0 && q >= 0.0
    ensures Positive(Grown(v, dt, q)) && Disc(Grown(v, dt, q)) >= Disc(v)
    ensures Grown(v, dt, q).a >= v.a && Grown(v, dt, q).c >= v.c && (q == 0.0 ==> Grown(v, dt, q).c == v.c)
    ensures dt > 0.0 ==> (Grown(v, dt, q).a > v.a <==> v.c > 0.0 || q > 0.0)
  {
    SwaySign(q, dt);
    SwaySign(Moved(v, dt).b, dt) by { MovedPositive(v, dt); }
    MovedPositive(v, dt);
    CertainStays(v, dt);
    assert Moved(v, dt).c == v.c;
    hide Positive, Disc, Moved, Noised, Drift, Sway;
    NoisedPositive(Moved(v, dt), dt, Sway(q, dt));
  }

  lemma CertainStays(v: Var, dt: real)
    requires Positive(v)
    ensures v.c == 0.0 ==> v.b == 0.0 && Grown(v, dt, 0.0) == v
  {
    if v.c == 0.0 { ZeroRoot(v.a, v.b); }
    hide Disc;
  }

  lemma ZeroRoot(a: real, b: real)
    requires Disc(Var(a, b, 0.0)) >= 0.0
    ensures b == 0.0
  {
    assert Disc(Var(a, b, 0.0)) == -(b * b);
    SquareMono(0.0, Abs(b));
    assert Abs(b) * Abs(b) == b * b;
  }

  /** A measurement narrows the estimate of the position. */
  lemma ShrunkPositive(v: Var, r: real)
    requires Positive(v) && r > 0.0
    ensures Positive(Shrunk(v, r))
    ensures Shrunk(v, r).a < v.a && Shrunk(v, r).b <= v.b && Shrunk(v, r).c <= v.c
    ensures Shrunk(v, r).c > 0.0 <==> v.c > 0.0
    ensures Disc(Shrunk(v, r)) == Share(Disc(v), r, v.a + r)
  {
    var s := v.a + r;
    CertainStays(v, 0.0);
    ShareBounds(v.a, r, s);
    ShareBounds(v.b, r, s);
    ShareBounds(v.c, r, s);
    ShareBounds(Disc(v), r, s);
    ShrunkDisc(v, r);
    VelocityStaysUncertain(v, r);
    hide Disc, Share, Grown;
  }

  lemma ShareBounds(x: real, r: real, s: real)
    requires x >= 0.0 && 0.0 < r < s
    ensures 0.0 <= Share(x, r, s) <= x
    ensures x > 0.0 ==> 0.0 < Share(x, r, s) < x
  {
    var f := r / s;
    assert f * s == r;
    CancelMul(s, 0.0, f);
    CancelMul(s, f, 0.0);
    CancelMul(s, 1.0, f);
    MulSign(x, f);
    MulSign(x, 1.0 - f);
    assert x * (1.0 - f) == x - x * f;
  }

  lemma ShrunkDisc(v: Var, r: real)
    requires v.a > 0.0 && r > 0.0
    ensures Disc(Shrunk(v, r)) == Share(Disc(v), r, v.a + r)
  {
    var f, g := r / (v.a + r), v.b / (v.a + r);
    Weights(v.a, v.b, r, f, g);
    ShrunkTerms(v.a, v.b, v.c, f, g);
  }

  lemma VelocityStaysUncertain(v: Var, r: real)
    requires Positive(v) && r > 0.0
    ensures Share(v.c, r, v.a + r) <= v.c - Share(v.b, v.b, v.a + r) <= v.c
  {
    var s := v.a + r;
    var f, g := r / s, v.b / s;
    Weights(v.a, v.b, r, f, g);
    assert s * (v.c * f) == v.c * (f * s);
    assert s * (v.c - v.b * g) == s * v.c - v.b * (g * s);
    CancelMul(s, v.c * f, v.c - v.b * g);
    SquareNonneg(g);
    MulSign(g * g, s);
    assert v.b * g == g * g * s;
  }

  /** The weights that a measurement of variance `r` gives to the prediction. */
  lemma Weights(a: real, b: real, r: real, f: real, g: real)
    requires a > 0.0 && r > 0.0 && f == r / (a + r) && g == b / (a + r)
    ensures 0.0 < f < 1.0 && f * (a + r) == r && g * (a + r) == b && a * g + b * f == b
  {
    var s := a + r;
    assert f * s == r && g * s == b;
    CancelMul(s, 0.0, f);
    CancelMul(s, f, 0.0);
    CancelMul(s, 1.0, f);
    assert a * g + b * f == g * a + (g * s) * f;
    assert (g * s) * f == g * (f * s);
    assert g * a + g * r == g * s;
  }

  lemma ShrunkTerms(a: real, b: real, c: real, f: real, g: real)
    requires a * g + b * f == b
    ensures (a * f) * (c - b * g) - (b * f) * (b * f) == (a * c - b * b) * f
  {
    assert (a * f) * (c - b * g) == f * (a * c) - (f * b) * (a * g);
    assert (b * f) * (b * f) == (f * b) * (b * f);
    assert (f * b) * (a * g) + (f * b) * (b * f) == (f * b) * (a * g + b * f);
  }

  // ----- what the covariances say ---------------------------------------------------

  /** The variance of `x` times position plus `y` times velocity. */
  function VarianceOf(v: Var, x: real, y: real): real { v.a * x * x + 2.0 * v.b * x * y + v.c * y * y }

  /** A prediction moves position and velocity with the target: what it says of `x` times the
      new position plus `y` times the new velocity is what was known of the old ones at the
      same weights, plus the variance of an acceleration that acts throughout. */
  lemma GrownSpreads(v: Var, dt: real, q: real, x: real, y: real)
    ensures VarianceOf(Grown(v, dt, q), x, y)
         == VarianceOf(v, x, x * dt + y) + q * (x * dt * dt / 2.0 + y * dt) * (x * dt * dt / 2.0 + y * dt)
  {
    var m := Moved(v, dt);
    MovedSpreads(v, dt, x, y);
    NoisedSpreads(m, dt, Sway(q, dt), x, y);
    assert Sway(q, dt) == q * dt * dt;
    var z := x * dt / 2.0 + y;
    assert x * dt * dt / 2.0 + y * dt == z * dt;
    assert q * (z * dt) * (z * dt) == (q * dt * dt) * z * z;
    hide VarianceOf, Moved, Noised, Sway;
  }

  lemma MovedSpreads(v: Var, dt: real, x: real, y: real)
    ensures VarianceOf(Moved(v, dt), x, y) == VarianceOf(v, x, x * dt + y)
  {
    var z := x * dt;
    assert v.b * dt * x * x == v.b * x * z && v.c * dt * dt * x * x == v.c * z * z && v.c * dt * x * y == v.c * z * y;
  }

  lemma NoisedSpreads(v: Var, dt: real, n: real, x: real, y: real)
    ensures VarianceOf(Noised(v, dt, n), x, y) == VarianceOf(v, x, y) + n * (x * dt / 2.0 + y) * (x * dt / 2.0 + y)
  {
    var z := x * dt;
    assert n * dt * dt / 4.0 * x * x == n * z * z / 4.0 && n * dt / 2.0 * x * y == n * z * y / 2.0;
    assert n * (z / 2.0 + y) * (z / 2.0 + y) == n * z * z / 4.0 + n * z * y + n * y * y;
  }

  /** A measurement takes from each variance what position explains of it. */
  lemma ShrunkIs(v: Var, r: real)
    requires v.a + r > 0.0
    ensures var w, s := Shrunk(v, r), v.a + r;
            w.a * s == v.a * r && w.b * s == v.b * r && (v.c - w.c) * s == v.b * v.b
  {
    var s := v.a + r;
    var f := r / s;
    assert f * s == r;
    assert (v.a * f) * s == v.a * (f * s) && (v.b * f) * s == v.b * (f * s);
    var g := v.b / s;
    assert g * s == v.b;
    assert (v.b * g) * s == v.b * (g * s);
  }
}

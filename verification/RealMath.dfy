/** Real arithmetic shared by the motion models. Floats are modelled as reals. */
module RealMath {
  function Abs(x: real): real { if x < 0.0 then -x else x }
  function Min(x: real, y: real): real { if x < y then x else y }
  function Max(x: real, y: real): real { if x < y then y else x }
  function Sign(x: real): real { if x > 0.0 then 1.0 else if x < 0.0 then -1.0 else 0.0 }

  /** `numpy.clip`: the upper bound wins when the bounds cross. */
  function Clip(x: real, lo: real, hi: real): (r: real)
    ensures lo <= hi ==> lo <= r <= hi
    ensures lo <= x <= hi ==> r == x
  {
    Min(Max(x, lo), hi)
  }

  /** `math.ceil` */
  function Ceil(x: real): int { -((-x).Floor) }

  lemma CeilAtMost(x: real, k: int)
    ensures Ceil(x) <= k <==> x <= k as real
  {}

  /** What is assumed of the platform's square root. */
  ghost predicate IsSqrt(sqrt: real -> real) {
    forall x: real :: x >= 0.0 ==> sqrt(x) >= 0.0 && sqrt(x) * sqrt(x) == x
  }

  lemma MulMono(a: real, b: real, c: real)
    requires a <= b && c >= 0.0
    ensures a * c <= b * c && c * a <= c * b
  {}

  lemma MulPos(a: real, b: real)
    requires a > 0.0 && b > 0.0
    ensures a * b > 0.0
  {}

  lemma MulSign(a: real, b: real)
    requires a >= 0.0 && b >= 0.0
    ensures a * b >= 0.0
    ensures a * b > 0.0 <==> a > 0.0 && b > 0.0
  {}

  lemma SquareNonneg(x: real)
    ensures x * x >= 0.0
  {}

  lemma SquareMono(a: real, b: real)
    requires 0.0 <= a && 0.0 <= b
    ensures a <= b <==> a * a <= b * b
    ensures a < b <==> a * a < b * b
  {
    assert b * b - a * a == (b - a) * (b + a);
    if a < b { MulPos(b - a, b + a); }
    if b < a {
      MulPos(a - b, b + a);
      assert (a - b) * (b + a) == -((b - a) * (b + a));
    }
  }

  lemma CancelMul(c: real, x: real, y: real)
    requires c > 0.0
    ensures c * x <= c * y <==> x <= y
  {
    assert c * (x - y) == c * x - c * y;
    if x > y { MulPos(c, x - y); } else { MulMono(x, y, c); }
  }

  function Over(x: real, h: real): real
    requires h > 0.0
  {
    x / h
  }

  lemma OverIff(v: real, x: real, h: real)
    requires h > 0.0
    ensures v <= Over(x, h) <==> v * h <= x
    ensures v >= Over(x, h) <==> v * h >= x
    ensures Over(-x, h) == -Over(x, h)
  {
    var q := x / h;
    assert q * h == x;
    CancelMul(h, v, q);
    CancelMul(h, q, v);
    assert (-q) * h == -x;
    assert (-x) / h == -q;
  }

  lemma SqrtAtLeast(sqrt: real -> real, x: real, y: real)
    requires IsSqrt(sqrt) && x >= 0.0 && y >= 0.0
    ensures y <= sqrt(x) <==> y * y <= x
  {
    SquareMono(y, sqrt(x));
  }

  /** Python's `%` on floats with a positive divisor. */
  function Modulo(x: real, d: real): (r: real)
    requires d > 0.0
    ensures 0.0 <= r < d
  {
    var n := Over(x, d).Floor;
    OverIff(n as real, x, d);
    OverIff((n + 1) as real, x, d);
    assert ((n + 1) as real) * d == (n as real) * d + d;
    x - (n as real) * d
  }

  lemma ModuloIs(x: real, d: real, n: int)
    requires d > 0.0 && n as real * d <= x < (n as real + 1.0) * d
    ensures Modulo(x, d) == x - n as real * d
  {
    OverIff(n as real, x, d);
    OverIff(n as real + 1.0, x, d);
    assert Over(x, d).Floor == n;
    hide Over;
  }

  lemma ModuloBelow(x: real, d: real)
    requires d > 0.0 && 0.0 <= x < d
    ensures Modulo(x, d) == x
  {
    ModuloIs(x, d, 0);
  }

  lemma ModuloAgain(x: real, d: real)
    requires d > 0.0
    ensures Modulo(x + d, d) == Modulo(x, d)
  {
    var n := Over(x, d).Floor;
    OverIff(n as real, x, d);
    OverIff(n as real + 1.0, x, d);
    hide Over;
    assert (n + 1) as real * d == n as real * d + d;
    assert ((n + 1) as real + 1.0) * d == (n as real + 1.0) * d + d;
    ModuloIs(x, d, n);
    ModuloIs(x + d, d, n + 1);
    hide Modulo;
  }
}

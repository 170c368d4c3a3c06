/** Three-by-three matrices, and the six-by-six matrices made of four of them, as the
    target filter uses them. */
module Matrices {
  datatype Vec3 = Vec3(x: real, y: real, z: real)

  datatype Mat3 = Mat3(
    xx: real, xy: real, xz: real,
    yx: real, yy: real, yz: real,
    zx: real, zy: real, zz: real)

  /** A six-by-six matrix in blocks. */
  datatype Mat6 = Mat6(tl: Mat3, tr: Mat3, bl: Mat3, br: Mat3)

  /** A six-by-three matrix in blocks. */
  datatype Tall = Tall(top: Mat3, bottom: Mat3)

  function Diag(s: real): Mat3 { Mat3(s, 0.0, 0.0, 0.0, s, 0.0, 0.0, 0.0, s) }

  function Dot(a: real, b: real, c: real, x: real, y: real, z: real): real { a * x + b * y + c * z }

  function Mul(m: Mat3, n: Mat3): Mat3 {
    Mat3(
      Dot(m.xx, m.xy, m.xz, n.xx, n.yx, n.zx), Dot(m.xx, m.xy, m.xz, n.xy, n.yy, n.zy),
      Dot(m.xx, m.xy, m.xz, n.xz, n.yz, n.zz),
      Dot(m.yx, m.yy, m.yz, n.xx, n.yx, n.zx), Dot(m.yx, m.yy, m.yz, n.xy, n.yy, n.zy),
      Dot(m.yx, m.yy, m.yz, n.xz, n.yz, n.zz),
      Dot(m.zx, m.zy, m.zz, n.xx, n.yx, n.zx), Dot(m.zx, m.zy, m.zz, n.xy, n.yy, n.zy),
      Dot(m.zx, m.zy, m.zz, n.xz, n.yz, n.zz))
  }

  function Add(m: Mat3, n: Mat3): Mat3 {
    Mat3(m.xx + n.xx, m.xy + n.xy, m.xz + n.xz,
         m.yx + n.yx, m.yy + n.yy, m.yz + n.yz,
         m.zx + n.zx, m.zy + n.zy, m.zz + n.zz)
  }

  function Neg(m: Mat3): Mat3 {
    Mat3(-m.xx, -m.xy, -m.xz, -m.yx, -m.yy, -m.yz, -m.zx, -m.zy, -m.zz)
  }

  function Transpose(m: Mat3): Mat3 {
    Mat3(m.xx, m.yx, m.zx, m.xy, m.yy, m.zy, m.xz, m.yz, m.zz)
  }

  function Trace(m: Mat3): real { m.xx + m.yy + m.zz }

  function Apply(m: Mat3, v: Vec3): Vec3 {
    Vec3(Dot(m.xx, m.xy, m.xz, v.x, v.y, v.z),
         Dot(m.yx, m.yy, m.yz, v.x, v.y, v.z),
         Dot(m.zx, m.zy, m.zz, v.x, v.y, v.z))
  }

  function Plus(u: Vec3, v: Vec3): Vec3 { Vec3(u.x + v.x, u.y + v.y, u.z + v.z) }

  function Minus(u: Vec3, v: Vec3): Vec3 { Vec3(u.x - v.x, u.y - v.y, u.z - v.z) }

  function Times(s: real, v: Vec3): Vec3 { Vec3(s * v.x, s * v.y, s * v.z) }

  function Mul6(m: Mat6, n: Mat6): Mat6 {
    Mat6(Add(Mul(m.tl, n.tl), Mul(m.tr, n.bl)), Add(Mul(m.tl, n.tr), Mul(m.tr, n.br)),
         Add(Mul(m.bl, n.tl), Mul(m.br, n.bl)), Add(Mul(m.bl, n.tr), Mul(m.br, n.br)))
  }

  function Add6(m: Mat6, n: Mat6): Mat6 {
    Mat6(Add(m.tl, n.tl), Add(m.tr, n.tr), Add(m.bl, n.bl), Add(m.br, n.br))
  }

  function Transpose6(m: Mat6): Mat6 {
    Mat6(Transpose(m.tl), Transpose(m.bl), Transpose(m.tr), Transpose(m.br))
  }

  function Det(m: Mat3): real {
    m.xx * (m.yy * m.zz - m.yz * m.zy) - m.xy * (m.yx * m.zz - m.yz * m.zx) + m.xz * (m.yx * m.zy - m.yy * m.zx)
  }

  /** The matrix inverse, as far as it is known: it inverts what is not singular. */
  ghost predicate IsInverse(inv: Mat3 -> Mat3) {
    forall m: Mat3 :: Det(m) != 0.0 ==> Mul(m, inv(m)) == Diag(1.0)
  }

  // ----- isotropic matrices -------------------------------------------------------

  function Diag6(a: real, b: real, c: real, d: real): Mat6 { Mat6(Diag(a), Diag(b), Diag(c), Diag(d)) }

  lemma MulDiag(a: real, b: real)
    ensures Mul(Diag(a), Diag(b)) == Diag(a * b)
  {}

  lemma AddDiag(a: real, b: real)
    ensures Add(Diag(a), Diag(b)) == Diag(a + b) && Neg(Diag(a)) == Diag(-a) && Transpose(Diag(a)) == Diag(a)
  {}

  lemma ApplyDiag(a: real, v: Vec3)
    ensures Apply(Diag(a), v) == Times(a, v)
  {}

  /** On multiples of the identity the inverse is the reciprocal. */
  lemma InverseOfDiag(inv: Mat3 -> Mat3, s: real)
    requires IsInverse(inv) && s != 0.0
    ensures inv(Diag(s)) == Diag(1.0 / s)
  {
    var m := inv(Diag(s));
    assert Det(Diag(s)) == s * (s * s);
    assert s * s != 0.0;
    assert Mul(Diag(s), m) == Diag(1.0);
    MulByDiag(s, m);
    assert s * m.xx == 1.0 && s * m.xy == 0.0 && s * m.xz == 0.0;
    assert s * m.yx == 0.0 && s * m.yy == 1.0 && s * m.yz == 0.0;
    assert s * m.zx == 0.0 && s * m.zy == 0.0 && s * m.zz == 1.0;
    Divide(s, m.xx, 1.0); Divide(s, m.xy, 0.0); Divide(s, m.xz, 0.0);
    Divide(s, m.yx, 0.0); Divide(s, m.yy, 1.0); Divide(s, m.yz, 0.0);
    Divide(s, m.zx, 0.0); Divide(s, m.zy, 0.0); Divide(s, m.zz, 1.0);
    assert 0.0 / s == 0.0;
  }

  lemma MulByDiag(s: real, m: Mat3)
    ensures Mul(Diag(s), m) == Mat3(s * m.xx, s * m.xy, s * m.xz, s * m.yx, s * m.yy, s * m.yz,
                                    s * m.zx, s * m.zy, s * m.zz)
  {}

  lemma Divide(s: real, x: real, y: real)
    requires s != 0.0 && s * x == y
    ensures x == y / s
  {}

  lemma Mul6Diag(a: real, b: real, c: real, d: real, e: real, f: real, g: real, h: real)
    ensures Mul6(Diag6(a, b, c, d), Diag6(e, f, g, h))
         == Diag6(a * e + b * g, a * f + b * h, c * e + d * g, c * f + d * h)
  {
    MulDiag(a, e); MulDiag(b, g); MulDiag(a, f); MulDiag(b, h);
    MulDiag(c, e); MulDiag(d, g); MulDiag(c, f); MulDiag(d, h);
    AddDiag(a * e, b * g); AddDiag(a * f, b * h);
    AddDiag(c * e, d * g); AddDiag(c * f, d * h);
    hide Mul, Add, Diag;
  }
}

/** Points under 4x4 matrices: the homogeneous transform that divides by the last
    coordinate, and its composition law. */
module Projective {
  import opened Matrix4

  datatype Vec3 = Vec3(x: real, y: real, z: real)

  /** The homogeneous coordinates (m * (v, 1)). */
  function Homogeneous(m: Mat4, v: Vec3): Row {
    Row(Dot4(m.r0.x, m.r0.y, m.r0.z, m.r0.w, v.x, v.y, v.z, 1.0),
        Dot4(m.r1.x, m.r1.y, m.r1.z, m.r1.w, v.x, v.y, v.z, 1.0),
        Dot4(m.r2.x, m.r2.y, m.r2.z, m.r2.w, v.x, v.y, v.z, 1.0),
        Dot4(m.r3.x, m.r3.y, m.r3.z, m.r3.w, v.x, v.y, v.z, 1.0))
  }

  /** The denominator of the point transform. */
  function Denominator(m: Mat4, v: Vec3): real {
    Homogeneous(m, v).w
  }

  /** The point transform. Over the reals it is defined where the denominator is
      nonzero. */
  function Transform(m: Mat4, v: Vec3): Vec3
    requires Denominator(m, v) != 0.0
  {
    var h := Homogeneous(m, v);
    var w := 1.0 / h.w;
    Vec3(Mul(w, h.x), Mul(w, h.y), Mul(w, h.z))
  }

  // ------------------------------------------------------------- composition

  /** The matrix applied to homogeneous coordinates. */
  ghost function Apply(m: Mat4, h: Row): Row {
    Row(Dot4(m.r0.x, m.r0.y, m.r0.z, m.r0.w, h.x, h.y, h.z, h.w),
        Dot4(m.r1.x, m.r1.y, m.r1.z, m.r1.w, h.x, h.y, h.z, h.w),
        Dot4(m.r2.x, m.r2.y, m.r2.z, m.r2.w, h.x, h.y, h.z, h.w),
        Dot4(m.r3.x, m.r3.y, m.r3.z, m.r3.w, h.x, h.y, h.z, h.w))
  }

  lemma ApplyTimes(a: Mat4, b: Mat4, h: Row)
    ensures Apply(Times(a, b), h) == Apply(a, Apply(b, h))
  {
    DotExchange(a.r0, h, b.r0, b.r1, b.r2, b.r3);
    DotExchange(a.r1, h, b.r0, b.r1, b.r2, b.r3);
    DotExchange(a.r2, h, b.r0, b.r1, b.r2, b.r3);
    DotExchange(a.r3, h, b.r0, b.r1, b.r2, b.r3);
  }

  lemma ApplyScale(m: Mat4, h: Row, s: real)
    ensures Apply(m, RowScale(s, h)) == RowScale(s, Apply(m, h))
  {
    Dot4Scale(s, m.r0.x, m.r0.y, m.r0.z, m.r0.w, h.x, h.y, h.z, h.w);
    Dot4Scale(s, m.r1.x, m.r1.y, m.r1.z, m.r1.w, h.x, h.y, h.z, h.w);
    Dot4Scale(s, m.r2.x, m.r2.y, m.r2.z, m.r2.w, h.x, h.y, h.z, h.w);
    Dot4Scale(s, m.r3.x, m.r3.y, m.r3.z, m.r3.w, h.x, h.y, h.z, h.w);
  }

  lemma Reciprocal(x: real, s: real)
    requires x != 0.0 && s == 1.0 / x
    ensures Mul(s, x) == 1.0 && s != 0.0
  {
  }

  /** Dividing twice by the last coordinate is dividing once: (s t x) with s = 1/h,
      t = 1/(s k), equals x/k. */
  lemma DivideTwice(x: real, h: real, k: real, s: real, t: real, u: real)
    requires h != 0.0 && k != 0.0 && s == 1.0 / h && Mul(s, k) != 0.0
    requires t == 1.0 / Mul(s, k) && u == 1.0 / k
    ensures Mul(t, Mul(s, x)) == Mul(u, x)
  {
    var sk := Mul(s, k);
    assert t * sk == 1.0;
    assert t * s * k == 1.0;
    assert t * s == u;
  }

  lemma NonzeroFactors(a: real, b: real, c: real)
    requires c == Mul(a, b) && a != 0.0
    ensures c != 0.0 <==> b != 0.0
  {
  }

  /** Where B sends v to a finite point, the denominator of A*B at v is the product of
      the denominators of A at B*v and of B at v: it is nonzero exactly when A's is,
      and then A*B moves v as A moves B*v. */
  lemma Composition(a: Mat4, b: Mat4, v: Vec3)
    requires Denominator(b, v) != 0.0
    ensures Denominator(Times(a, b), v) != 0.0 <==> Denominator(a, Transform(b, v)) != 0.0
    ensures Denominator(a, Transform(b, v)) != 0.0 ==>
              Transform(Times(a, b), v) == Transform(a, Transform(b, v))
  {
    var h := Homogeneous(b, v);
    var s := 1.0 / h.w;
    var bv := Transform(b, v);
    var g := Apply(a, h);
    assert Homogeneous(Times(a, b), v) == g by {
      ApplyTimes(a, b, Row(v.x, v.y, v.z, 1.0));
    }
    Reciprocal(h.w, s);
    assert RowScale(s, h) == Row(bv.x, bv.y, bv.z, 1.0);
    ApplyScale(a, h, s);
    assert Homogeneous(a, bv) == RowScale(s, g);
    NonzeroFactors(s, g.w, Mul(s, g.w));
    if g.w != 0.0 {
      var t, u := 1.0 / Mul(s, g.w), 1.0 / g.w;
      DivideTwice(g.x, h.w, g.w, s, t, u);
      DivideTwice(g.y, h.w, g.w, s, t, u);
      DivideTwice(g.z, h.w, g.w, s, t, u);
    }
  }

  lemma Divides(w: real, x: real)
    requires w != 0.0
    ensures w * Mul(1.0 / w, x) == x
  {
    assert w * (1.0 / w) == 1.0;
    assert w * ((1.0 / w) * x) == (w * (1.0 / w)) * x;
  }

  /** The transformed point times the last row at v is the first three rows at v. */
  lemma TransformSolves(m: Mat4, v: Vec3)
    requires m.r3.x * v.x + m.r3.y * v.y + m.r3.z * v.z + m.r3.w != 0.0
    ensures Denominator(m, v) == m.r3.x * v.x + m.r3.y * v.y + m.r3.z * v.z + m.r3.w
    ensures var w, p := Denominator(m, v), Transform(m, v);
            && w * p.x == m.r0.x * v.x + m.r0.y * v.y + m.r0.z * v.z + m.r0.w
            && w * p.y == m.r1.x * v.x + m.r1.y * v.y + m.r1.z * v.z + m.r1.w
            && w * p.z == m.r2.x * v.x + m.r2.y * v.y + m.r2.z * v.z + m.r2.w
  {
    var h := Homogeneous(m, v);
    Divides(h.w, h.x);
    Divides(h.w, h.y);
    Divides(h.w, h.z);
  }
}

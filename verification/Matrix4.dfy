/** The 4x4 matrix algebra of the Gangsta wrapper: minors, adjoint, determinant,
    inverse, product and scaling, over exact reals.

    The determinant is the wedge of the Pluecker coordinates of the first two rows
    with those of the last two (Laplace), and the coordinates of two combinations of
    rows combine by the 2x2 minors of the coefficients (Cauchy-Binet for two rows).
    Small named functions on reals keep every product inside one definition, so that
    the matrix lemmas are instances of identities on plain reals. */
module Matrix4 {

  datatype Row = Row(x: real, y: real, z: real, w: real)

  datatype Mat4 = Mat4(r0: Row, r1: Row, r2: Row, r3: Row)

  const IDENTITY: Mat4 := Mat4(Row(1.0, 0.0, 0.0, 0.0), Row(0.0, 1.0, 0.0, 0.0),
                               Row(0.0, 0.0, 1.0, 0.0), Row(0.0, 0.0, 0.0, 1.0))

  function Mul(s: real, x: real): real {
    s * x
  }

  function Det2(a: real, b: real, c: real, d: real): real {
    a * d - b * c
  }

  function Det3(a: real, b: real, c: real, d: real, e: real, f: real, g: real, h: real, i: real): real {
    a * (e * i - h * f) - b * (d * i - g * f) + c * (d * h - g * e)
  }

  function Dot4(a: real, b: real, c: real, d: real, e: real, f: real, g: real, h: real): real {
    a * e + b * f + c * g + d * h
  }

  function Dot6(a: real, b: real, c: real, d: real, e: real, f: real,
                g: real, h: real, i: real, j: real, k: real, l: real): real
  {
    a * g + b * h + c * i + d * j + e * k + f * l
  }

  function RowOf(m: Mat4, r: nat): Row
    requires r < 4
  {
    if r == 0 then m.r0 else if r == 1 then m.r1 else if r == 2 then m.r2 else m.r3
  }

  function Entry(m: Mat4, r: nat, c: nat): real
    requires r < 4 && c < 4
  {
    var row := RowOf(m, r);
    if c == 0 then row.x else if c == 1 then row.y else if c == 2 then row.z else row.w
  }

  // ---------------------------------------------------------------- operations

  /** The determinant of the 3x3 block at the given rows and columns. */
  function MatrixMinor(m: Mat4, r0: nat, r1: nat, r2: nat, c0: nat, c1: nat, c2: nat): real
    requires r0 < 4 && r1 < 4 && r2 < 4 && c0 < 4 && c1 < 4 && c2 < 4
  {
    Det3(Entry(m, r0, c0), Entry(m, r0, c1), Entry(m, r0, c2),
         Entry(m, r1, c0), Entry(m, r1, c1), Entry(m, r1, c2),
         Entry(m, r2, c0), Entry(m, r2, c1), Entry(m, r2, c2))
  }

  function Adjoint(m: Mat4): Mat4 {
    Mat4(
      Row(MatrixMinor(m, 1, 2, 3, 1, 2, 3), -MatrixMinor(m, 0, 2, 3, 1, 2, 3),
          MatrixMinor(m, 0, 1, 3, 1, 2, 3), -MatrixMinor(m, 0, 1, 2, 1, 2, 3)),
      Row(-MatrixMinor(m, 1, 2, 3, 0, 2, 3), MatrixMinor(m, 0, 2, 3, 0, 2, 3),
          -MatrixMinor(m, 0, 1, 3, 0, 2, 3), MatrixMinor(m, 0, 1, 2, 0, 2, 3)),
      Row(MatrixMinor(m, 1, 2, 3, 0, 1, 3), -MatrixMinor(m, 0, 2, 3, 0, 1, 3),
          MatrixMinor(m, 0, 1, 3, 0, 1, 3), -MatrixMinor(m, 0, 1, 2, 0, 1, 3)),
      Row(-MatrixMinor(m, 1, 2, 3, 0, 1, 2), MatrixMinor(m, 0, 2, 3, 0, 1, 2),
          -MatrixMinor(m, 0, 1, 3, 0, 1, 2), MatrixMinor(m, 0, 1, 2, 0, 1, 2)))
  }

  function Determinant(m: Mat4): real {
    Dot4(m.r0.x, m.r0.y, m.r0.z, m.r0.w,
         MatrixMinor(m, 1, 2, 3, 1, 2, 3), -MatrixMinor(m, 1, 2, 3, 0, 2, 3),
         MatrixMinor(m, 1, 2, 3, 0, 1, 3), -MatrixMinor(m, 1, 2, 3, 0, 1, 2))
  }

  /** One row of a product: row s against every column of b. */
  function RowTimes(s: Row, b: Mat4): Row {
    Row(Dot4(s.x, s.y, s.z, s.w, b.r0.x, b.r1.x, b.r2.x, b.r3.x),
        Dot4(s.x, s.y, s.z, s.w, b.r0.y, b.r1.y, b.r2.y, b.r3.y),
        Dot4(s.x, s.y, s.z, s.w, b.r0.z, b.r1.z, b.r2.z, b.r3.z),
        Dot4(s.x, s.y, s.z, s.w, b.r0.w, b.r1.w, b.r2.w, b.r3.w))
  }

  function Times(a: Mat4, b: Mat4): Mat4 {
    Mat4(RowTimes(a.r0, b), RowTimes(a.r1, b), RowTimes(a.r2, b), RowTimes(a.r3, b))
  }

  function RowScale(s: real, r: Row): Row {
    Row(Mul(s, r.x), Mul(s, r.y), Mul(s, r.z), Mul(s, r.w))
  }

  function Scale(m: Mat4, s: real): Mat4 {
    Mat4(RowScale(s, m.r0), RowScale(s, m.r1), RowScale(s, m.r2), RowScale(s, m.r3))
  }

  /** Over the reals a zero determinant has no reciprocal; the C++ code divides by
      it all the same and gets an infinity. */
  function Inverse(m: Mat4): Mat4
    requires Determinant(m) != 0.0
  {
    Scale(Adjoint(m), 1.0 / Determinant(m))
  }

  // ---------------------------------------------- Laplace and Cauchy-Binet

  /** Pluecker coordinates of two rows: their six 2x2 minors. */
  datatype Pair = Pair(xy: real, xz: real, xw: real, yz: real, yw: real, zw: real)

  ghost function PairOf(a: Row, b: Row): Pair {
    Pair(Det2(a.x, a.y, b.x, b.y), Det2(a.x, a.z, b.x, b.z), Det2(a.x, a.w, b.x, b.w),
         Det2(a.y, a.z, b.y, b.z), Det2(a.y, a.w, b.y, b.w), Det2(a.z, a.w, b.z, b.w))
  }

  ghost function PairDot(p: Pair, q: Pair): real {
    Dot6(p.xy, p.xz, p.xw, p.yz, p.yw, p.zw, q.xy, q.xz, q.xw, q.yz, q.yw, q.zw)
  }

  ghost function Dual(q: Pair): Pair {
    Pair(q.zw, -q.yw, q.yz, q.xw, -q.xz, q.xy)
  }

  ghost function Wedge(p: Pair, q: Pair): real {
    PairDot(p, Dual(q))
  }

  /** The 24 signed monomials of the determinant with rows a, b, c, d. */
  ghost function Leibniz(a: Row, b: Row, c: Row, d: Row): real {
    a.x*b.y*c.z*d.w - a.x*b.y*d.z*c.w - a.x*b.z*c.y*d.w + a.x*b.z*d.y*c.w + a.x*b.w*c.y*d.z - a.x*b.w*d.y*c.z
    - a.y*b.x*c.z*d.w + a.y*b.x*d.z*c.w + a.y*b.z*c.x*d.w - a.y*b.z*d.x*c.w - a.y*b.w*c.x*d.z + a.y*b.w*d.x*c.z
    + a.z*b.x*c.y*d.w - a.z*b.x*d.y*c.w - a.z*b.y*c.x*d.w + a.z*b.y*d.x*c.w + a.z*b.w*c.x*d.y - a.z*b.w*d.x*c.y
    - a.w*b.x*c.y*d.z + a.w*b.x*d.y*c.z + a.w*b.y*c.x*d.z - a.w*b.y*d.x*c.z - a.w*b.z*c.x*d.y + a.w*b.z*d.x*c.y
  }

  lemma TimesDet3(s: real, p: real, a: real, b: real, c: real, d: real, e: real, f: real, g: real, h: real, i: real)
    requires p == Det3(a, b, c, d, e, f, g, h, i)
    ensures s * p == s*a*e*i - s*a*h*f - s*b*d*i + s*b*g*f + s*c*d*h - s*c*g*e
  {
    assert p == a*e*i - a*h*f - b*d*i + b*g*f + c*d*h - c*g*e;
  }

  lemma Det2Product(p: real, q: real, a: real, b: real, c: real, d: real, e: real, f: real, g: real, h: real)
    requires p == Det2(a, b, c, d) && q == Det2(e, f, g, h)
    ensures p * q == a*d*e*h - a*d*f*g - b*c*e*h + b*c*f*g
  {
  }

  lemma Dot4Product(p: real, q: real, s0: real, s1: real, s2: real, s3: real, a0: real, a1: real, a2: real, a3: real,
                    t0: real, t1: real, t2: real, t3: real, b0: real, b1: real, b2: real, b3: real)
    requires p == Dot4(s0, s1, s2, s3, a0, a1, a2, a3) && q == Dot4(t0, t1, t2, t3, b0, b1, b2, b3)
    ensures p * q == s0*a0*t0*b0 + s0*a0*t1*b1 + s0*a0*t2*b2 + s0*a0*t3*b3
                   + s1*a1*t0*b0 + s1*a1*t1*b1 + s1*a1*t2*b2 + s1*a1*t3*b3
                   + s2*a2*t0*b0 + s2*a2*t1*b1 + s2*a2*t2*b2 + s2*a2*t3*b3
                   + s3*a3*t0*b0 + s3*a3*t1*b1 + s3*a3*t2*b2 + s3*a3*t3*b3
  {
    assert p * q == s0*a0*q + s1*a1*q + s2*a2*q + s3*a3*q;
    assert s0*a0*q == s0*a0*t0*b0 + s0*a0*t1*b1 + s0*a0*t2*b2 + s0*a0*t3*b3;
    assert s1*a1*q == s1*a1*t0*b0 + s1*a1*t1*b1 + s1*a1*t2*b2 + s1*a1*t3*b3;
    assert s2*a2*q == s2*a2*t0*b0 + s2*a2*t1*b1 + s2*a2*t2*b2 + s2*a2*t3*b3;
    assert s3*a3*q == s3*a3*t0*b0 + s3*a3*t1*b1 + s3*a3*t2*b2 + s3*a3*t3*b3;
  }

  /** Cauchy-Binet for one 2x2 minor of a product. */
  lemma MinorOfProduct(s0: real, s1: real, s2: real, s3: real, t0: real, t1: real, t2: real, t3: real,
                       a0: real, a1: real, a2: real, a3: real, b0: real, b1: real, b2: real, b3: real)
    ensures Det2(Dot4(s0, s1, s2, s3, a0, a1, a2, a3), Dot4(s0, s1, s2, s3, b0, b1, b2, b3),
                 Dot4(t0, t1, t2, t3, a0, a1, a2, a3), Dot4(t0, t1, t2, t3, b0, b1, b2, b3))
         == Dot6(Det2(s0, s1, t0, t1), Det2(s0, s2, t0, t2), Det2(s0, s3, t0, t3),
                 Det2(s1, s2, t1, t2), Det2(s1, s3, t1, t3), Det2(s2, s3, t2, t3),
                 Det2(a0, b0, a1, b1), Det2(a0, b0, a2, b2), Det2(a0, b0, a3, b3),
                 Det2(a1, b1, a2, b2), Det2(a1, b1, a3, b3), Det2(a2, b2, a3, b3))
  {
    var sa, sb := Dot4(s0, s1, s2, s3, a0, a1, a2, a3), Dot4(s0, s1, s2, s3, b0, b1, b2, b3);
    var ta, tb := Dot4(t0, t1, t2, t3, a0, a1, a2, a3), Dot4(t0, t1, t2, t3, b0, b1, b2, b3);
    assert Det2(sa, sb, ta, tb) == sa * tb - sb * ta;
    Dot4Product(sa, tb, s0, s1, s2, s3, a0, a1, a2, a3, t0, t1, t2, t3, b0, b1, b2, b3);
    Dot4Product(sb, ta, s0, s1, s2, s3, b0, b1, b2, b3, t0, t1, t2, t3, a0, a1, a2, a3);
    var p01, p02, p03 := Det2(s0, s1, t0, t1), Det2(s0, s2, t0, t2), Det2(s0, s3, t0, t3);
    var p12, p13, p23 := Det2(s1, s2, t1, t2), Det2(s1, s3, t1, t3), Det2(s2, s3, t2, t3);
    var q01, q02, q03 := Det2(a0, b0, a1, b1), Det2(a0, b0, a2, b2), Det2(a0, b0, a3, b3);
    var q12, q13, q23 := Det2(a1, b1, a2, b2), Det2(a1, b1, a3, b3), Det2(a2, b2, a3, b3);
    Det2Product(p01, q01, s0, s1, t0, t1, a0, b0, a1, b1);
    Det2Product(p02, q02, s0, s2, t0, t2, a0, b0, a2, b2);
    Det2Product(p03, q03, s0, s3, t0, t3, a0, b0, a3, b3);
    Det2Product(p12, q12, s1, s2, t1, t2, a1, b1, a2, b2);
    Det2Product(p13, q13, s1, s3, t1, t3, a1, b1, a3, b3);
    Det2Product(p23, q23, s2, s3, t2, t3, a2, b2, a3, b3);
    assert sa * tb - sb * ta == p01*q01 + p02*q02 + p03*q03 + p12*q12 + p13*q13 + p23*q23;
  }

  /** The pair of two combinations of b's rows, from the pair p of the coefficients. */
  ghost function PairTimes(p: Pair, b: Mat4): Pair {
    Combine(p, PairOf(b.r0, b.r1), PairOf(b.r0, b.r2), PairOf(b.r0, b.r3),
            PairOf(b.r1, b.r2), PairOf(b.r1, b.r3), PairOf(b.r2, b.r3))
  }

  ghost function Combine(p: Pair, a: Pair, b: Pair, c: Pair, d: Pair, e: Pair, f: Pair): Pair {
    Pair(Dot6(p.xy, p.xz, p.xw, p.yz, p.yw, p.zw, a.xy, b.xy, c.xy, d.xy, e.xy, f.xy),
         Dot6(p.xy, p.xz, p.xw, p.yz, p.yw, p.zw, a.xz, b.xz, c.xz, d.xz, e.xz, f.xz),
         Dot6(p.xy, p.xz, p.xw, p.yz, p.yw, p.zw, a.xw, b.xw, c.xw, d.xw, e.xw, f.xw),
         Dot6(p.xy, p.xz, p.xw, p.yz, p.yw, p.zw, a.yz, b.yz, c.yz, d.yz, e.yz, f.yz),
         Dot6(p.xy, p.xz, p.xw, p.yz, p.yw, p.zw, a.yw, b.yw, c.yw, d.yw, e.yw, f.yw),
         Dot6(p.xy, p.xz, p.xw, p.yz, p.yw, p.zw, a.zw, b.zw, c.zw, d.zw, e.zw, f.zw))
  }

  lemma CauchyBinet(s: Row, t: Row, b: Mat4)
    ensures PairOf(RowTimes(s, b), RowTimes(t, b)) == PairTimes(PairOf(s, t), b)
  {
    MinorOfProduct(s.x, s.y, s.z, s.w, t.x, t.y, t.z, t.w, b.r0.x, b.r1.x, b.r2.x, b.r3.x, b.r0.y, b.r1.y, b.r2.y, b.r3.y);
    MinorOfProduct(s.x, s.y, s.z, s.w, t.x, t.y, t.z, t.w, b.r0.x, b.r1.x, b.r2.x, b.r3.x, b.r0.z, b.r1.z, b.r2.z, b.r3.z);
    MinorOfProduct(s.x, s.y, s.z, s.w, t.x, t.y, t.z, t.w, b.r0.x, b.r1.x, b.r2.x, b.r3.x, b.r0.w, b.r1.w, b.r2.w, b.r3.w);
    MinorOfProduct(s.x, s.y, s.z, s.w, t.x, t.y, t.z, t.w, b.r0.y, b.r1.y, b.r2.y, b.r3.y, b.r0.z, b.r1.z, b.r2.z, b.r3.z);
    MinorOfProduct(s.x, s.y, s.z, s.w, t.x, t.y, t.z, t.w, b.r0.y, b.r1.y, b.r2.y, b.r3.y, b.r0.w, b.r1.w, b.r2.w, b.r3.w);
    MinorOfProduct(s.x, s.y, s.z, s.w, t.x, t.y, t.z, t.w, b.r0.z, b.r1.z, b.r2.z, b.r3.z, b.r0.w, b.r1.w, b.r2.w, b.r3.w);
  }

  lemma Dot6Times(x: real, k: real, p0: real, p1: real, p2: real, p3: real, p4: real, p5: real,
                  e0: real, e1: real, e2: real, e3: real, e4: real, e5: real)
    returns (u: real)
    requires x == Dot6(p0, p1, p2, p3, p4, p5, e0, e1, e2, e3, e4, e5)
    ensures u == x * k && u == p0*e0*k + p1*e1*k + p2*e2*k + p3*e3*k + p4*e4*k + p5*e5*k
  {
    u := x * k;
  }

  lemma TimesDot6(p: real, y: real, e0: real, e1: real, e2: real, e3: real, e4: real, e5: real,
                  q0: real, q1: real, q2: real, q3: real, q4: real, q5: real)
    returns (v: real)
    requires y == Dot6(e0, e1, e2, e3, e4, e5, q0, q1, q2, q3, q4, q5)
    ensures v == p * y && v == p*e0*q0 + p*e1*q1 + p*e2*q2 + p*e3*q3 + p*e4*q4 + p*e5*q5
  {
    v := p * y;
  }

  lemma Dot6Sum(a: real, b: real, c: real, d: real, e: real, f: real,
                g: real, h: real, i: real, j: real, k: real, l: real,
                u0: real, u1: real, u2: real, u3: real, u4: real, u5: real)
    requires u0 == a * g && u1 == b * h && u2 == c * i && u3 == d * j && u4 == e * k && u5 == f * l
    ensures Dot6(a, b, c, d, e, f, g, h, i, j, k, l) == u0 + u1 + u2 + u3 + u4 + u5
  {
  }

  /** The dot product with q of a combination is the combination of the dot products. */
  lemma CombineDot(p: Pair, q: Pair, a: Pair, b: Pair, c: Pair, d: Pair, e: Pair, f: Pair)
    ensures PairDot(Combine(p, a, b, c, d, e, f), q)
         == Dot6(p.xy, p.xz, p.xw, p.yz, p.yw, p.zw,
                 PairDot(a, q), PairDot(b, q), PairDot(c, q), PairDot(d, q), PairDot(e, q), PairDot(f, q))
  {
    var Pair(p0, p1, p2, p3, p4, p5) := p;
    var Pair(q0, q1, q2, q3, q4, q5) := q;
    var Pair(a0, a1, a2, a3, a4, a5) := a;
    var Pair(b0, b1, b2, b3, b4, b5) := b;
    var Pair(c0, c1, c2, c3, c4, c5) := c;
    var Pair(d0, d1, d2, d3, d4, d5) := d;
    var Pair(e0, e1, e2, e3, e4, e5) := e;
    var Pair(f0, f1, f2, f3, f4, f5) := f;
    var Pair(x0, x1, x2, x3, x4, x5) := Combine(p, a, b, c, d, e, f);
    var y0, y1, y2 := PairDot(a, q), PairDot(b, q), PairDot(c, q);
    var y3, y4, y5 := PairDot(d, q), PairDot(e, q), PairDot(f, q);
    var u0 := Dot6Times(x0, q0, p0, p1, p2, p3, p4, p5, a0, b0, c0, d0, e0, f0);
    var u1 := Dot6Times(x1, q1, p0, p1, p2, p3, p4, p5, a1, b1, c1, d1, e1, f1);
    var u2 := Dot6Times(x2, q2, p0, p1, p2, p3, p4, p5, a2, b2, c2, d2, e2, f2);
    var u3 := Dot6Times(x3, q3, p0, p1, p2, p3, p4, p5, a3, b3, c3, d3, e3, f3);
    var u4 := Dot6Times(x4, q4, p0, p1, p2, p3, p4, p5, a4, b4, c4, d4, e4, f4);
    var u5 := Dot6Times(x5, q5, p0, p1, p2, p3, p4, p5, a5, b5, c5, d5, e5, f5);
    var v0 := TimesDot6(p0, y0, a0, a1, a2, a3, a4, a5, q0, q1, q2, q3, q4, q5);
    var v1 := TimesDot6(p1, y1, b0, b1, b2, b3, b4, b5, q0, q1, q2, q3, q4, q5);
    var v2 := TimesDot6(p2, y2, c0, c1, c2, c3, c4, c5, q0, q1, q2, q3, q4, q5);
    var v3 := TimesDot6(p3, y3, d0, d1, d2, d3, d4, d5, q0, q1, q2, q3, q4, q5);
    var v4 := TimesDot6(p4, y4, e0, e1, e2, e3, e4, e5, q0, q1, q2, q3, q4, q5);
    var v5 := TimesDot6(p5, y5, f0, f1, f2, f3, f4, f5, q0, q1, q2, q3, q4, q5);
    Dot6Sum(x0, x1, x2, x3, x4, x5, q0, q1, q2, q3, q4, q5, u0, u1, u2, u3, u4, u5);
    Dot6Sum(p0, p1, p2, p3, p4, p5, y0, y1, y2, y3, y4, y5, v0, v1, v2, v3, v4, v5);
  }

  lemma WedgeSymmetric(p: Pair, q: Pair)
    ensures Wedge(p, q) == Wedge(q, p)
  {
  }

  lemma WedgeLeibniz(a: Row, b: Row, c: Row, d: Row)
    ensures Wedge(PairOf(a, b), PairOf(c, d)) == Leibniz(a, b, c, d)
  {
    var Row(a0, a1, a2, a3) := a;
    var Row(b0, b1, b2, b3) := b;
    var Row(c0, c1, c2, c3) := c;
    var Row(d0, d1, d2, d3) := d;
    var Pair(p0, p1, p2, p3, p4, p5) := PairOf(a, b);
    var Pair(q0, q1, q2, q3, q4, q5) := PairOf(c, d);
    assert Wedge(PairOf(a, b), PairOf(c, d)) == p0*q5 - p1*q4 + p2*q3 + p3*q2 - p4*q1 + p5*q0;
    Det2Product(p0, q5, a0, a1, b0, b1, c2, c3, d2, d3);
    Det2Product(p1, q4, a0, a2, b0, b2, c1, c3, d1, d3);
    Det2Product(p2, q3, a0, a3, b0, b3, c1, c2, d1, d2);
    Det2Product(p3, q2, a1, a2, b1, b2, c0, c3, d0, d3);
    Det2Product(p4, q1, a1, a3, b1, b3, c0, c2, d0, d2);
    Det2Product(p5, q0, a2, a3, b2, b3, c0, c1, d0, d1);
  }

  lemma DeterminantLeibniz(m: Mat4)
    ensures Determinant(m) == Leibniz(m.r0, m.r1, m.r2, m.r3)
  {
    var Row(a0, a1, a2, a3) := m.r0;
    var Row(b0, b1, b2, b3) := m.r1;
    var Row(c0, c1, c2, c3) := m.r2;
    var Row(d0, d1, d2, d3) := m.r3;
    var m0, m1 := MatrixMinor(m, 1, 2, 3, 1, 2, 3), MatrixMinor(m, 1, 2, 3, 0, 2, 3);
    var m2, m3 := MatrixMinor(m, 1, 2, 3, 0, 1, 3), MatrixMinor(m, 1, 2, 3, 0, 1, 2);
    assert Determinant(m) == a0*m0 - a1*m1 + a2*m2 - a3*m3;
    TimesDet3(a0, m0, b1, b2, b3, c1, c2, c3, d1, d2, d3);
    TimesDet3(a1, m1, b0, b2, b3, c0, c2, c3, d0, d2, d3);
    TimesDet3(a2, m2, b0, b1, b3, c0, c1, c3, d0, d1, d3);
    TimesDet3(a3, m3, b0, b1, b2, c0, c1, c2, d0, d1, d2);
  }

  /** Expansion of the determinant along the first two rows. */
  lemma Laplace(m: Mat4)
    ensures Determinant(m) == Wedge(PairOf(m.r0, m.r1), PairOf(m.r2, m.r3))
  {
    DeterminantLeibniz(m);
    WedgeLeibniz(m.r0, m.r1, m.r2, m.r3);
  }

  lemma LeibnizRepeats(a: Row, b: Row, c: Row)
    ensures Leibniz(a, b, a, c) == 0.0 && Leibniz(a, b, c, a) == 0.0
    ensures Leibniz(a, b, b, c) == 0.0 && Leibniz(a, b, c, b) == 0.0
  {
  }

  lemma LeibnizPermutes(a: Row, b: Row, c: Row, d: Row)
    ensures Leibniz(a, c, b, d) == -Leibniz(a, b, c, d) && Leibniz(a, d, b, c) == Leibniz(a, b, c, d)
    ensures Leibniz(b, c, a, d) == Leibniz(a, b, c, d) && Leibniz(b, d, a, c) == -Leibniz(a, b, c, d)
    ensures Leibniz(c, d, a, b) == Leibniz(a, b, c, d)
  {
  }

  lemma WedgeAgainst(q: Pair, b: Mat4, u: Row, v: Row)
    ensures Wedge(PairOf(u, v), PairTimes(q, b))
         == Dot6(q.xy, q.xz, q.xw, q.yz, q.yw, q.zw,
                 Leibniz(u, v, b.r0, b.r1), Leibniz(u, v, b.r0, b.r2), Leibniz(u, v, b.r0, b.r3),
                 Leibniz(u, v, b.r1, b.r2), Leibniz(u, v, b.r1, b.r3), Leibniz(u, v, b.r2, b.r3))
  {
    var e := PairOf(u, v);
    var e01, e02, e03 := PairOf(b.r0, b.r1), PairOf(b.r0, b.r2), PairOf(b.r0, b.r3);
    var e12, e13, e23 := PairOf(b.r1, b.r2), PairOf(b.r1, b.r3), PairOf(b.r2, b.r3);
    WedgeSymmetric(e, PairTimes(q, b));
    CombineDot(q, Dual(e), e01, e02, e03, e12, e13, e23);
    WedgeSymmetric(e, e01); WedgeSymmetric(e, e02); WedgeSymmetric(e, e03);
    WedgeSymmetric(e, e12); WedgeSymmetric(e, e13); WedgeSymmetric(e, e23);
    WedgeLeibniz(u, v, b.r0, b.r1); WedgeLeibniz(u, v, b.r0, b.r2); WedgeLeibniz(u, v, b.r0, b.r3);
    WedgeLeibniz(u, v, b.r1, b.r2); WedgeLeibniz(u, v, b.r1, b.r3); WedgeLeibniz(u, v, b.r2, b.r3);
  }

  lemma Dot6Single(a: real, b: real, c: real, e: real, f: real, g: real, d: real)
    ensures Dot6(a, b, c, e, f, g, 0.0, 0.0, 0.0, 0.0, 0.0, d) == g * d
    ensures Dot6(a, b, c, e, f, g, 0.0, 0.0, 0.0, 0.0, -d, 0.0) == -f * d
    ensures Dot6(a, b, c, e, f, g, 0.0, 0.0, 0.0, d, 0.0, 0.0) == e * d
    ensures Dot6(a, b, c, e, f, g, 0.0, 0.0, d, 0.0, 0.0, 0.0) == c * d
    ensures Dot6(a, b, c, e, f, g, 0.0, -d, 0.0, 0.0, 0.0, 0.0) == -b * d
    ensures Dot6(a, b, c, e, f, g, d, 0.0, 0.0, 0.0, 0.0, 0.0) == a * d
  {
  }

  /** The combination q of a matrix's pairs, wedged with each of those pairs: only
      the pair made of the two other rows contributes. */
  lemma WedgeOfPairTimes(q: Pair, b: Mat4, d: real)
    requires d == Determinant(b)
    ensures Wedge(PairOf(b.r0, b.r1), PairTimes(q, b)) == q.zw * d
    ensures Wedge(PairOf(b.r0, b.r2), PairTimes(q, b)) == -q.yw * d
    ensures Wedge(PairOf(b.r0, b.r3), PairTimes(q, b)) == q.yz * d
    ensures Wedge(PairOf(b.r1, b.r2), PairTimes(q, b)) == q.xw * d
    ensures Wedge(PairOf(b.r1, b.r3), PairTimes(q, b)) == -q.xz * d
    ensures Wedge(PairOf(b.r2, b.r3), PairTimes(q, b)) == q.xy * d
  {
    DeterminantLeibniz(b);
    LeibnizPermutes(b.r0, b.r1, b.r2, b.r3);
    LeibnizRepeats(b.r0, b.r1, b.r1); LeibnizRepeats(b.r0, b.r1, b.r2); LeibnizRepeats(b.r0, b.r1, b.r3);
    LeibnizRepeats(b.r0, b.r2, b.r1); LeibnizRepeats(b.r0, b.r2, b.r2); LeibnizRepeats(b.r0, b.r2, b.r3);
    LeibnizRepeats(b.r0, b.r3, b.r1); LeibnizRepeats(b.r0, b.r3, b.r2); LeibnizRepeats(b.r0, b.r3, b.r3);
    LeibnizRepeats(b.r1, b.r2, b.r0); LeibnizRepeats(b.r1, b.r2, b.r2); LeibnizRepeats(b.r1, b.r2, b.r3);
    LeibnizRepeats(b.r1, b.r3, b.r0); LeibnizRepeats(b.r1, b.r3, b.r2); LeibnizRepeats(b.r1, b.r3, b.r3);
    LeibnizRepeats(b.r2, b.r3, b.r0); LeibnizRepeats(b.r2, b.r3, b.r1); LeibnizRepeats(b.r2, b.r3, b.r3);
    WedgeAgainst(q, b, b.r0, b.r1);
    WedgeAgainst(q, b, b.r0, b.r2);
    WedgeAgainst(q, b, b.r0, b.r3);
    WedgeAgainst(q, b, b.r1, b.r2);
    WedgeAgainst(q, b, b.r1, b.r3);
    WedgeAgainst(q, b, b.r2, b.r3);
    Dot6Single(q.xy, q.xz, q.xw, q.yz, q.yw, q.zw, d);
  }

  /** The determinant is multiplicative. */
  lemma DeterminantProduct(a: Mat4, b: Mat4)
    ensures Determinant(Times(a, b)) == Determinant(a) * Determinant(b)
  {
    ProductOfDeterminants(a, b, Determinant(a), Determinant(b));
  }

  lemma ProductOfDeterminants(a: Mat4, b: Mat4, da: real, db: real)
    requires da == Determinant(a) && db == Determinant(b)
    ensures Determinant(Times(a, b)) == da * db
  {
    var p, q := PairOf(a.r0, a.r1), PairOf(a.r2, a.r3);
    Laplace(Times(a, b));
    CauchyBinet(a.r0, a.r1, b);
    CauchyBinet(a.r2, a.r3, b);
    var e01, e02, e03 := PairOf(b.r0, b.r1), PairOf(b.r0, b.r2), PairOf(b.r0, b.r3);
    var e12, e13, e23 := PairOf(b.r1, b.r2), PairOf(b.r1, b.r3), PairOf(b.r2, b.r3);
    var f := PairTimes(q, b);
    CombineDot(p, Dual(f), e01, e02, e03, e12, e13, e23);
    WedgeOfPairTimes(q, b, db);
    Laplace(a);
    WedgeFactor(p, q, da, db, Wedge(e01, f), Wedge(e02, f), Wedge(e03, f), Wedge(e12, f), Wedge(e13, f), Wedge(e23, f));
  }

  lemma WedgeFactor(p: Pair, q: Pair, pq: real, d: real, w0: real, w1: real, w2: real, w3: real, w4: real, w5: real)
    requires pq == Wedge(p, q)
    requires w0 == q.zw * d && w1 == -q.yw * d && w2 == q.yz * d
    requires w3 == q.xw * d && w4 == -q.xz * d && w5 == q.xy * d
    ensures Dot6(p.xy, p.xz, p.xw, p.yz, p.yw, p.zw, w0, w1, w2, w3, w4, w5) == pq * d
  {
  }

  // ------------------------------------------------------ adjoint and inverse

  ghost function Transpose(m: Mat4): Mat4 {
    Mat4(Row(m.r0.x, m.r1.x, m.r2.x, m.r3.x), Row(m.r0.y, m.r1.y, m.r2.y, m.r3.y),
         Row(m.r0.z, m.r1.z, m.r2.z, m.r3.z), Row(m.r0.w, m.r1.w, m.r2.w, m.r3.w))
  }

  /** A row against the cofactors of three rows is the determinant of the four. */
  lemma CofactorDot(s: Row, b: Row, c: Row, d: Row, m0: real, m1: real, m2: real, m3: real)
    requires m0 == Det3(b.y, b.z, b.w, c.y, c.z, c.w, d.y, d.z, d.w)
    requires m1 == Det3(b.x, b.z, b.w, c.x, c.z, c.w, d.x, d.z, d.w)
    requires m2 == Det3(b.x, b.y, b.w, c.x, c.y, c.w, d.x, d.y, d.w)
    requires m3 == Det3(b.x, b.y, b.z, c.x, c.y, c.z, d.x, d.y, d.z)
    ensures Dot4(s.x, s.y, s.z, s.w, m0, -m1, m2, -m3) == Leibniz(s, b, c, d)
    ensures Dot4(s.x, s.y, s.z, s.w, -m0, m1, -m2, m3) == -Leibniz(s, b, c, d)
  {
    var Row(a0, a1, a2, a3) := s;
    var Row(b0, b1, b2, b3) := b;
    var Row(c0, c1, c2, c3) := c;
    var Row(d0, d1, d2, d3) := d;
    assert Dot4(s.x, s.y, s.z, s.w, m0, -m1, m2, -m3) == a0*m0 - a1*m1 + a2*m2 - a3*m3;
    assert Dot4(s.x, s.y, s.z, s.w, -m0, m1, -m2, m3) == -(a0*m0 - a1*m1 + a2*m2 - a3*m3);
    TimesDet3(a0, m0, b1, b2, b3, c1, c2, c3, d1, d2, d3);
    TimesDet3(a1, m1, b0, b2, b3, c0, c2, c3, d0, d2, d3);
    TimesDet3(a2, m2, b0, b1, b3, c0, c1, c3, d0, d1, d3);
    TimesDet3(a3, m3, b0, b1, b2, c0, c1, c2, d0, d1, d2);
  }

  lemma RowTimesAdjoint(s: Row, m: Mat4)
    ensures RowTimes(s, Adjoint(m))
         == Row(Leibniz(s, m.r1, m.r2, m.r3), -Leibniz(s, m.r0, m.r2, m.r3),
                Leibniz(s, m.r0, m.r1, m.r3), -Leibniz(s, m.r0, m.r1, m.r2))
  {
    CofactorDot(s, m.r1, m.r2, m.r3, MatrixMinor(m, 1, 2, 3, 1, 2, 3), MatrixMinor(m, 1, 2, 3, 0, 2, 3),
                MatrixMinor(m, 1, 2, 3, 0, 1, 3), MatrixMinor(m, 1, 2, 3, 0, 1, 2));
    CofactorDot(s, m.r0, m.r2, m.r3, MatrixMinor(m, 0, 2, 3, 1, 2, 3), MatrixMinor(m, 0, 2, 3, 0, 2, 3),
                MatrixMinor(m, 0, 2, 3, 0, 1, 3), MatrixMinor(m, 0, 2, 3, 0, 1, 2));
    CofactorDot(s, m.r0, m.r1, m.r3, MatrixMinor(m, 0, 1, 3, 1, 2, 3), MatrixMinor(m, 0, 1, 3, 0, 2, 3),
                MatrixMinor(m, 0, 1, 3, 0, 1, 3), MatrixMinor(m, 0, 1, 3, 0, 1, 2));
    CofactorDot(s, m.r0, m.r1, m.r2, MatrixMinor(m, 0, 1, 2, 1, 2, 3), MatrixMinor(m, 0, 1, 2, 0, 2, 3),
                MatrixMinor(m, 0, 1, 2, 0, 1, 3), MatrixMinor(m, 0, 1, 2, 0, 1, 2));
  }

  lemma LeibnizSameRow(a: Row, b: Row, c: Row)
    ensures Leibniz(a, a, b, c) == 0.0 && Leibniz(a, b, a, c) == 0.0 && Leibniz(a, b, c, a) == 0.0
  {
  }

  lemma LeibnizFront(a: Row, b: Row, c: Row, d: Row)
    ensures Leibniz(b, a, c, d) == -Leibniz(a, b, c, d)
    ensures Leibniz(c, a, b, d) == Leibniz(a, b, c, d)
    ensures Leibniz(d, a, b, c) == -Leibniz(a, b, c, d)
  {
  }

  /** M * adjoint(M) = determinant(M) * I, for every matrix. */
  lemma AdjointRight(m: Mat4)
    ensures Times(m, Adjoint(m)) == Scale(IDENTITY, Determinant(m))
  {
    DeterminantLeibniz(m);
    LeibnizFront(m.r0, m.r1, m.r2, m.r3);
    RowTimesAdjoint(m.r0, m);
    RowTimesAdjoint(m.r1, m);
    RowTimesAdjoint(m.r2, m);
    RowTimesAdjoint(m.r3, m);
    LeibnizSameRow(m.r0, m.r1, m.r2); LeibnizSameRow(m.r0, m.r1, m.r3); LeibnizSameRow(m.r0, m.r2, m.r3);
    LeibnizSameRow(m.r1, m.r0, m.r2); LeibnizSameRow(m.r1, m.r0, m.r3); LeibnizSameRow(m.r1, m.r2, m.r3);
    LeibnizSameRow(m.r2, m.r0, m.r1); LeibnizSameRow(m.r2, m.r0, m.r3); LeibnizSameRow(m.r2, m.r1, m.r3);
    LeibnizSameRow(m.r3, m.r0, m.r1); LeibnizSameRow(m.r3, m.r0, m.r2); LeibnizSameRow(m.r3, m.r1, m.r2);
  }

  lemma Det3Transpose(a: real, b: real, c: real, d: real, e: real, f: real, g: real, h: real, i: real)
    ensures Det3(a, b, c, d, e, f, g, h, i) == Det3(a, d, g, b, e, h, c, f, i)
  {
  }

  lemma MinorTranspose(m: Mat4, r0: nat, r1: nat, r2: nat, c0: nat, c1: nat, c2: nat)
    requires r0 < 4 && r1 < 4 && r2 < 4 && c0 < 4 && c1 < 4 && c2 < 4
    ensures MatrixMinor(Transpose(m), r0, r1, r2, c0, c1, c2) == MatrixMinor(m, c0, c1, c2, r0, r1, r2)
  {
    Det3Transpose(Entry(m, c0, r0), Entry(m, c0, r1), Entry(m, c0, r2),
                  Entry(m, c1, r0), Entry(m, c1, r1), Entry(m, c1, r2),
                  Entry(m, c2, r0), Entry(m, c2, r1), Entry(m, c2, r2));
  }

  lemma AdjointTranspose(m: Mat4)
    ensures Adjoint(Transpose(m)) == Transpose(Adjoint(m))
  {
    forall r0: nat, r1: nat, r2: nat, c0: nat, c1: nat, c2: nat
      | r0 < 4 && r1 < 4 && r2 < 4 && c0 < 4 && c1 < 4 && c2 < 4
      ensures MatrixMinor(Transpose(m), r0, r1, r2, c0, c1, c2) == MatrixMinor(m, c0, c1, c2, r0, r1, r2)
    {
      MinorTranspose(m, r0, r1, r2, c0, c1, c2);
    }
  }

  lemma DeterminantTranspose(m: Mat4)
    ensures Determinant(Transpose(m)) == Determinant(m)
  {
    DeterminantLeibniz(m);
    DeterminantLeibniz(Transpose(m));
    LeibnizTranspose(m.r0, m.r1, m.r2, m.r3);
  }

  lemma LeibnizTranspose(a: Row, b: Row, c: Row, d: Row)
    ensures Leibniz(Row(a.x, b.x, c.x, d.x), Row(a.y, b.y, c.y, d.y), Row(a.z, b.z, c.z, d.z), Row(a.w, b.w, c.w, d.w))
         == Leibniz(a, b, c, d)
  {
  }

  lemma Dot4Commutes(a: real, b: real, c: real, d: real, e: real, f: real, g: real, h: real)
    ensures Dot4(a, b, c, d, e, f, g, h) == Dot4(e, f, g, h, a, b, c, d)
  {
  }

  lemma TimesTranspose(a: Mat4, b: Mat4)
    ensures Transpose(Times(a, b)) == Times(Transpose(b), Transpose(a))
  {
    RowTimesTranspose(a.r0, b); RowTimesTranspose(a.r1, b); RowTimesTranspose(a.r2, b); RowTimesTranspose(a.r3, b);
  }

  lemma RowTimesTranspose(s: Row, b: Mat4)
    ensures RowTimes(s, b).x == Dot4(b.r0.x, b.r1.x, b.r2.x, b.r3.x, s.x, s.y, s.z, s.w)
    ensures RowTimes(s, b).y == Dot4(b.r0.y, b.r1.y, b.r2.y, b.r3.y, s.x, s.y, s.z, s.w)
    ensures RowTimes(s, b).z == Dot4(b.r0.z, b.r1.z, b.r2.z, b.r3.z, s.x, s.y, s.z, s.w)
    ensures RowTimes(s, b).w == Dot4(b.r0.w, b.r1.w, b.r2.w, b.r3.w, s.x, s.y, s.z, s.w)
  {
    Dot4Commutes(s.x, s.y, s.z, s.w, b.r0.x, b.r1.x, b.r2.x, b.r3.x);
    Dot4Commutes(s.x, s.y, s.z, s.w, b.r0.y, b.r1.y, b.r2.y, b.r3.y);
    Dot4Commutes(s.x, s.y, s.z, s.w, b.r0.z, b.r1.z, b.r2.z, b.r3.z);
    Dot4Commutes(s.x, s.y, s.z, s.w, b.r0.w, b.r1.w, b.r2.w, b.r3.w);
  }

  /** adjoint(M) * M = determinant(M) * I, for every matrix. */
  lemma AdjointLeft(m: Mat4)
    ensures Times(Adjoint(m), m) == Scale(IDENTITY, Determinant(m))
  {
    var t := Transpose(m);
    AdjointRight(t);
    AdjointTranspose(m);
    DeterminantTranspose(m);
    TimesTranspose(Adjoint(m), m);
    assert Transpose(Times(Adjoint(m), m)) == Scale(IDENTITY, Determinant(m));
    assert Transpose(Transpose(Times(Adjoint(m), m))) == Times(Adjoint(m), m);
  }

  lemma Dot4Times(x: real, k: real, p0: real, p1: real, p2: real, p3: real, e0: real, e1: real, e2: real, e3: real)
    returns (u: real)
    requires x == Dot4(p0, p1, p2, p3, e0, e1, e2, e3)
    ensures u == x * k && u == p0*e0*k + p1*e1*k + p2*e2*k + p3*e3*k
  {
    u := x * k;
  }

  lemma TimesDot4(p: real, y: real, e0: real, e1: real, e2: real, e3: real, q0: real, q1: real, q2: real, q3: real)
    returns (v: real)
    requires y == Dot4(e0, e1, e2, e3, q0, q1, q2, q3)
    ensures v == p * y && v == p*e0*q0 + p*e1*q1 + p*e2*q2 + p*e3*q3
  {
    v := p * y;
  }

  lemma Dot4Sum(a: real, b: real, c: real, d: real, e: real, f: real, g: real, h: real,
                u0: real, u1: real, u2: real, u3: real)
    requires u0 == a * e && u1 == b * f && u2 == c * g && u3 == d * h
    ensures Dot4(a, b, c, d, e, f, g, h) == u0 + u1 + u2 + u3
  {
  }

  lemma SumsExchange(p0: real, p1: real, p2: real, p3: real,
                     q0: real, q1: real, q2: real, q3: real,
                     a0: real, a1: real, a2: real, a3: real,
                     b0: real, b1: real, b2: real, b3: real,
                     c0: real, c1: real, c2: real, c3: real,
                     d0: real, d1: real, d2: real, d3: real,
                     u0: real, u1: real, u2: real, u3: real,
                     v0: real, v1: real, v2: real, v3: real)
    requires u0 == p0*a0*q0 + p1*b0*q0 + p2*c0*q0 + p3*d0*q0
    requires u1 == p0*a1*q1 + p1*b1*q1 + p2*c1*q1 + p3*d1*q1
    requires u2 == p0*a2*q2 + p1*b2*q2 + p2*c2*q2 + p3*d2*q2
    requires u3 == p0*a3*q3 + p1*b3*q3 + p2*c3*q3 + p3*d3*q3
    requires v0 == p0*a0*q0 + p0*a1*q1 + p0*a2*q2 + p0*a3*q3
    requires v1 == p1*b0*q0 + p1*b1*q1 + p1*b2*q2 + p1*b3*q3
    requires v2 == p2*c0*q0 + p2*c1*q1 + p2*c2*q2 + p2*c3*q3
    requires v3 == p3*d0*q0 + p3*d1*q1 + p3*d2*q2 + p3*d3*q3
    ensures u0 + u1 + u2 + u3 == v0 + v1 + v2 + v3
  {
  }

  /** p against (a..d against column q), summed in either order. */
  lemma DotExchange(p: Row, q: Row, a: Row, b: Row, c: Row, d: Row)
    ensures Dot4(Dot4(p.x, p.y, p.z, p.w, a.x, b.x, c.x, d.x), Dot4(p.x, p.y, p.z, p.w, a.y, b.y, c.y, d.y),
                 Dot4(p.x, p.y, p.z, p.w, a.z, b.z, c.z, d.z), Dot4(p.x, p.y, p.z, p.w, a.w, b.w, c.w, d.w),
                 q.x, q.y, q.z, q.w)
         == Dot4(p.x, p.y, p.z, p.w,
                 Dot4(a.x, a.y, a.z, a.w, q.x, q.y, q.z, q.w), Dot4(b.x, b.y, b.z, b.w, q.x, q.y, q.z, q.w),
                 Dot4(c.x, c.y, c.z, c.w, q.x, q.y, q.z, q.w), Dot4(d.x, d.y, d.z, d.w, q.x, q.y, q.z, q.w))
  {
    var Row(p0, p1, p2, p3) := p;
    var Row(q0, q1, q2, q3) := q;
    var Row(a0, a1, a2, a3) := a;
    var Row(b0, b1, b2, b3) := b;
    var Row(c0, c1, c2, c3) := c;
    var Row(d0, d1, d2, d3) := d;
    var x0, x1 := Dot4(p0, p1, p2, p3, a0, b0, c0, d0), Dot4(p0, p1, p2, p3, a1, b1, c1, d1);
    var x2, x3 := Dot4(p0, p1, p2, p3, a2, b2, c2, d2), Dot4(p0, p1, p2, p3, a3, b3, c3, d3);
    var y0, y1 := Dot4(a0, a1, a2, a3, q0, q1, q2, q3), Dot4(b0, b1, b2, b3, q0, q1, q2, q3);
    var y2, y3 := Dot4(c0, c1, c2, c3, q0, q1, q2, q3), Dot4(d0, d1, d2, d3, q0, q1, q2, q3);
    var u0 := Dot4Times(x0, q0, p0, p1, p2, p3, a0, b0, c0, d0);
    var u1 := Dot4Times(x1, q1, p0, p1, p2, p3, a1, b1, c1, d1);
    var u2 := Dot4Times(x2, q2, p0, p1, p2, p3, a2, b2, c2, d2);
    var u3 := Dot4Times(x3, q3, p0, p1, p2, p3, a3, b3, c3, d3);
    var v0 := TimesDot4(p0, y0, a0, a1, a2, a3, q0, q1, q2, q3);
    var v1 := TimesDot4(p1, y1, b0, b1, b2, b3, q0, q1, q2, q3);
    var v2 := TimesDot4(p2, y2, c0, c1, c2, c3, q0, q1, q2, q3);
    var v3 := TimesDot4(p3, y3, d0, d1, d2, d3, q0, q1, q2, q3);
    Dot4Sum(x0, x1, x2, x3, q0, q1, q2, q3, u0, u1, u2, u3);
    Dot4Sum(p0, p1, p2, p3, y0, y1, y2, y3, v0, v1, v2, v3);
    SumsExchange(p0, p1, p2, p3,
                 q0, q1, q2, q3,
                 a0, a1, a2, a3,
                 b0, b1, b2, b3,
                 c0, c1, c2, c3,
                 d0, d1, d2, d3,
                 u0, u1, u2, u3, v0, v1, v2, v3);
  }

  lemma RowTimesAssociative(s: Row, b: Mat4, c: Mat4)
    ensures RowTimes(RowTimes(s, b), c) == RowTimes(s, Times(b, c))
  {
    DotExchange(s, Row(c.r0.x, c.r1.x, c.r2.x, c.r3.x), b.r0, b.r1, b.r2, b.r3);
    DotExchange(s, Row(c.r0.y, c.r1.y, c.r2.y, c.r3.y), b.r0, b.r1, b.r2, b.r3);
    DotExchange(s, Row(c.r0.z, c.r1.z, c.r2.z, c.r3.z), b.r0, b.r1, b.r2, b.r3);
    DotExchange(s, Row(c.r0.w, c.r1.w, c.r2.w, c.r3.w), b.r0, b.r1, b.r2, b.r3);
  }

  lemma TimesAssociative(a: Mat4, b: Mat4, c: Mat4)
    ensures Times(Times(a, b), c) == Times(a, Times(b, c))
  {
    RowTimesAssociative(a.r0, b, c);
    RowTimesAssociative(a.r1, b, c);
    RowTimesAssociative(a.r2, b, c);
    RowTimesAssociative(a.r3, b, c);
  }

  lemma TimesIdentity(m: Mat4)
    ensures Times(m, IDENTITY) == m && Times(IDENTITY, m) == m
  {
  }

  lemma Dot4Scale(s: real, a: real, b: real, c: real, d: real, e: real, f: real, g: real, h: real)
    ensures Dot4(Mul(s, a), Mul(s, b), Mul(s, c), Mul(s, d), e, f, g, h) == Mul(s, Dot4(a, b, c, d, e, f, g, h))
    ensures Dot4(a, b, c, d, Mul(s, e), Mul(s, f), Mul(s, g), Mul(s, h)) == Mul(s, Dot4(a, b, c, d, e, f, g, h))
  {
    var y := Dot4(a, b, c, d, e, f, g, h);
    var sa, sb, sc, sd, se, sf, sg, sh := s * a, s * b, s * c, s * d, s * e, s * f, s * g, s * h;
    assert Mul(s, y) == s*a*e + s*b*f + s*c*g + s*d*h;
    assert Dot4(sa, sb, sc, sd, e, f, g, h) == s*a*e + s*b*f + s*c*g + s*d*h;
    assert Dot4(a, b, c, d, se, sf, sg, sh) == s*a*e + s*b*f + s*c*g + s*d*h;
  }

  lemma TimesScale(a: Mat4, b: Mat4, s: real)
    ensures Times(Scale(a, s), b) == Scale(Times(a, b), s)
    ensures Times(a, Scale(b, s)) == Scale(Times(a, b), s)
  {
    RowTimesScale(a.r0, b, s);
    RowTimesScale(a.r1, b, s);
    RowTimesScale(a.r2, b, s);
    RowTimesScale(a.r3, b, s);
  }

  lemma RowTimesScale(r: Row, b: Mat4, s: real)
    ensures RowTimes(RowScale(s, r), b) == RowScale(s, RowTimes(r, b))
    ensures RowTimes(r, Scale(b, s)) == RowScale(s, RowTimes(r, b))
  {
    Dot4Scale(s, r.x, r.y, r.z, r.w, b.r0.x, b.r1.x, b.r2.x, b.r3.x);
    Dot4Scale(s, r.x, r.y, r.z, r.w, b.r0.y, b.r1.y, b.r2.y, b.r3.y);
    Dot4Scale(s, r.x, r.y, r.z, r.w, b.r0.z, b.r1.z, b.r2.z, b.r3.z);
    Dot4Scale(s, r.x, r.y, r.z, r.w, b.r0.w, b.r1.w, b.r2.w, b.r3.w);
  }

  /** inverse() is two-sided wherever the determinant is nonzero. */
  lemma InverseTwoSided(m: Mat4)
    requires Determinant(m) != 0.0
    ensures Times(m, Inverse(m)) == IDENTITY
    ensures Times(Inverse(m), m) == IDENTITY
  {
    var s := 1.0 / Determinant(m);
    AdjointRight(m);
    AdjointLeft(m);
    TimesScale(m, Adjoint(m), s);
    TimesScale(Adjoint(m), m, s);
    assert s * Determinant(m) == 1.0;
    assert Scale(Scale(IDENTITY, Determinant(m)), s) == IDENTITY;
  }

  lemma IdentityDeterminant()
    ensures Determinant(IDENTITY) == 1.0
  {
    DeterminantLeibniz(IDENTITY);
  }

  lemma RightInverseNonzero(m: Mat4, n: Mat4, dm: real, dn: real)
    requires Times(m, n) == IDENTITY && dm == Determinant(m) && dn == Determinant(n)
    ensures dm != 0.0
  {
    IdentityDeterminant();
    ProductOfDeterminants(m, n, dm, dn);
  }

  /** A matrix with a right inverse has a nonzero determinant, and that right inverse
      is the matrix inverse() computes. */
  lemma InverseUnique(m: Mat4, n: Mat4)
    requires Times(m, n) == IDENTITY
    ensures Determinant(m) != 0.0 && n == Inverse(m)
  {
    RightInverseNonzero(m, n, Determinant(m), Determinant(n));
    var i := Inverse(m);
    InverseTwoSided(m);
    assert Times(Times(i, m), n) == Times(i, Times(m, n)) by { TimesAssociative(i, m, n); }
    TimesIdentity(n);
    TimesIdentity(i);
  }

  /** Invertible exactly when the determinant is nonzero. */
  lemma InvertibleIff(m: Mat4)
    ensures (exists n :: Times(m, n) == IDENTITY) <==> Determinant(m) != 0.0
  {
    if Determinant(m) != 0.0 {
      InverseTwoSided(m);
    }
    forall n | Times(m, n) == IDENTITY
      ensures Determinant(m) != 0.0
    {
      InverseUnique(m, n);
    }
  }

  /** inverse(A * B) = inverse(B) * inverse(A). */
  lemma InverseProduct(a: Mat4, b: Mat4)
    requires Determinant(a) != 0.0 && Determinant(b) != 0.0
    ensures Determinant(Times(a, b)) != 0.0
    ensures Inverse(Times(a, b)) == Times(Inverse(b), Inverse(a))
  {
    var ia, ib := Inverse(a), Inverse(b);
    InverseTwoSided(a);
    InverseTwoSided(b);
    TimesAssociative(a, b, Times(ib, ia));
    TimesAssociative(b, ib, ia);
    TimesIdentity(ia);
    InverseUnique(Times(a, b), Times(ib, ia));
  }

  // ------------------------------------------------------------------- cofactors

  function UnitRow(c: nat): Row
    requires c < 4
  {
    Row(if c == 0 then 1.0 else 0.0, if c == 1 then 1.0 else 0.0, if c == 2 then 1.0 else 0.0, if c == 3 then 1.0 else 0.0)
  }

  function Replaced(m: Mat4, r: nat, row: Row): Mat4
    requires r < 4
  {
    Mat4(if r == 0 then row else m.r0, if r == 1 then row else m.r1,
         if r == 2 then row else m.r2, if r == 3 then row else m.r3)
  }

  /** Column r of the adjoint does not look at row r. */
  lemma ColumnBlind(m: Mat4, r: nat, c: nat, row: Row)
    requires r < 4 && c < 4
    ensures Entry(Adjoint(Replaced(m, r, row)), c, r) == Entry(Adjoint(m), c, r)
  {
    hide Det3;
  }

  /** Every entry of the adjoint, of any matrix, is a determinant: that of the matrix with the
      unit row in place of the row of the entry. */
  lemma AdjointCofactor(m: Mat4, r: nat, c: nat)
    requires r < 4 && c < 4
    ensures Entry(Adjoint(m), c, r) == Determinant(Replaced(m, r, UnitRow(c)))
  {
    hide Determinant, Adjoint;
    var n := Replaced(m, r, UnitRow(c));
    AdjointRight(n);
    ColumnBlind(m, r, c, UnitRow(c));
    RowPicks(n, Adjoint(n), r, c, Determinant(n));
  }

  lemma RowPicks(n: Mat4, a: Mat4, r: nat, c: nat, det: real)
    requires r < 4 && c < 4 && RowOf(n, r) == UnitRow(c)
    requires Times(n, a) == Scale(IDENTITY, det)
    ensures Entry(a, c, r) == det
  {
    hide Dot4, Mul;
    UnitDot(Entry(a, 0, r), Entry(a, 1, r), Entry(a, 2, r), Entry(a, 3, r), c);
    assert Entry(Times(n, a), r, r) == Entry(Scale(IDENTITY, det), r, r) == Mul(det, 1.0);
    MulOne(det);
  }

  lemma MulOne(x: real)
    ensures Mul(x, 1.0) == x
  {
  }

  lemma UnitDot(e: real, f: real, g: real, h: real, c: nat)
    requires c < 4
    ensures var u := UnitRow(c);
            Dot4(u.x, u.y, u.z, u.w, e, f, g, h) == if c == 0 then e else if c == 1 then f else if c == 2 then g else h
  {
  }
}

/** Quaternions, the rotation matrices built from them, and rigid transforms.

    Turning by a unit quaternion q is the sandwich q (0, v) q*, so the product of
    quaternions composes turns because quaternion multiplication is associative. */
module Rotation {
  import opened Matrix4
  import opened Projective

  datatype Quat = Quat(w: real, v: Vec3)

  datatype Mat3 = Mat3(m00: real, m01: real, m02: real,
                       m10: real, m11: real, m12: real,
                       m20: real, m21: real, m22: real)

  const UNIT_QUAT: Quat := Quat(1.0, Vec3(0.0, 0.0, 0.0))
  const ZERO_QUAT: Quat := Quat(0.0, Vec3(0.0, 0.0, 0.0))
  const ORIGIN: Vec3 := Vec3(0.0, 0.0, 0.0)

  // ---------------------------------------------------------------- operations

  function CrossPart(a: real, b: real, c: real, d: real): real {
    a * d - c * b
  }

  function Cross(a: Vec3, b: Vec3): Vec3 {
    Vec3(CrossPart(a.y, a.z, b.y, b.z), CrossPart(a.z, a.x, b.z, b.x), CrossPart(a.x, a.y, b.x, b.y))
  }

  function Plus(a: Vec3, b: Vec3): Vec3 {
    Vec3(a.x + b.x, a.y + b.y, a.z + b.z)
  }

  function Negate(a: Vec3): Vec3 {
    Vec3(-a.x, -a.y, -a.z)
  }

  function Blend(v: real, u: real, s: real, uu: real): real {
    v + u * s + uu * 2.0
  }

  /** A vector turned by a quaternion, through two cross products. */
  function Turn(q: Quat, vec: Vec3): Vec3 {
    var uv := Cross(q.v, vec);
    var uuv := Cross(q.v, uv);
    var s := 2.0 * q.w;
    Vec3(Blend(vec.x, uv.x, s, uuv.x), Blend(vec.y, uv.y, s, uuv.y), Blend(vec.z, uv.z, s, uuv.z))
  }

  function RealPart(w: real, x: real, y: real, z: real, a: real, b: real, c: real, d: real): real {
    w * a - x * b - y * c - z * d
  }

  function ImagPart(w: real, x: real, y: real, z: real, a: real, b: real, c: real, d: real): real {
    w * b + x * a + y * d - z * c
  }

  function QuatTimes(p: Quat, q: Quat): Quat {
    Quat(RealPart(p.w, p.v.x, p.v.y, p.v.z, q.w, q.v.x, q.v.y, q.v.z),
         Vec3(ImagPart(p.w, p.v.x, p.v.y, p.v.z, q.w, q.v.x, q.v.y, q.v.z),
              ImagPart(p.w, p.v.y, p.v.z, p.v.x, q.w, q.v.y, q.v.z, q.v.x),
              ImagPart(p.w, p.v.z, p.v.x, p.v.y, q.w, q.v.z, q.v.x, q.v.y)))
  }

  function SumOfSquares(w: real, x: real, y: real, z: real): real {
    w * w + x * x + y * y + z * z
  }

  function NormSquared(q: Quat): real {
    SumOfSquares(q.w, q.v.x, q.v.y, q.v.z)
  }

  function QuatInverse(q: Quat): Quat {
    var nrm := NormSquared(q);
    if nrm > 0.0 then
      var inv := 1.0 / nrm;
      Quat(q.w * inv, Vec3(-q.v.x * inv, -q.v.y * inv, -q.v.z * inv))
    else
      ZERO_QUAT
  }

  function Twice(a: real, b: real): real {
    2.0 * a * b
  }

  function RotationMatrix(q: Quat): Mat3 {
    var w, x, y, z := q.w, q.v.x, q.v.y, q.v.z;
    Mat3(1.0 - (Twice(y, y) + Twice(z, z)), Twice(y, x) - Twice(z, w), Twice(z, x) + Twice(y, w),
         Twice(y, x) + Twice(z, w), 1.0 - (Twice(x, x) + Twice(z, z)), Twice(z, y) - Twice(x, w),
         Twice(z, x) - Twice(y, w), Twice(z, y) + Twice(x, w), 1.0 - (Twice(x, x) + Twice(y, y)))
  }

  /** The transform that turns by q and then moves by p. */
  function Rigid(p: Vec3, q: Quat): Mat4 {
    var rot := RotationMatrix(q);
    Mat4(Row(rot.m00, rot.m01, rot.m02, p.x),
         Row(rot.m10, rot.m11, rot.m12, p.y),
         Row(rot.m20, rot.m21, rot.m22, p.z),
         Row(0.0, 0.0, 0.0, 1.0))
  }

  predicate IsUnit(q: Quat) {
    NormSquared(q) == 1.0
  }

  // --------------------------------------------------- the quaternion product

  lemma RealTimes(s: real, k: real, w: real, x: real, y: real, z: real, a: real, b: real, c: real, d: real)
    returns (m: real)
    requires s == RealPart(w, x, y, z, a, b, c, d)
    ensures m == s * k && m == w*a*k - x*b*k - y*c*k - z*d*k
  {
    m := s * k;
  }

  lemma ImagTimes(s: real, k: real, w: real, x: real, y: real, z: real, a: real, b: real, c: real, d: real)
    returns (m: real)
    requires s == ImagPart(w, x, y, z, a, b, c, d)
    ensures m == s * k && m == w*b*k + x*a*k + y*d*k - z*c*k
  {
    m := s * k;
  }

  lemma RealSum(w: real, x: real, y: real, z: real, a: real, b: real, c: real, d: real,
                m: real, n: real, o: real, p: real)
    requires m == w * a && n == x * b && o == y * c && p == z * d
    ensures RealPart(w, x, y, z, a, b, c, d) == m - n - o - p
  {
  }

  lemma ImagSum(w: real, x: real, y: real, z: real, a: real, b: real, c: real, d: real,
                m: real, n: real, o: real, p: real)
    requires m == w * b && n == x * a && o == y * d && p == z * c
    ensures ImagPart(w, x, y, z, a, b, c, d) == m + n + o - p
  {
  }

  lemma RealAssociative(w: real, x: real, y: real, z: real, a: real, b: real, c: real, d: real,
                        e: real, f: real, g: real, h: real, s: real, t: real, u: real, v: real,
                        i: real, j: real, k: real, l: real)
    requires s == RealPart(w, x, y, z, a, b, c, d) && t == ImagPart(w, x, y, z, a, b, c, d)
    requires u == ImagPart(w, y, z, x, a, c, d, b) && v == ImagPart(w, z, x, y, a, d, b, c)
    requires i == RealPart(a, b, c, d, e, f, g, h) && j == ImagPart(a, b, c, d, e, f, g, h)
    requires k == ImagPart(a, c, d, b, e, g, h, f) && l == ImagPart(a, d, b, c, e, h, f, g)
    ensures RealPart(s, t, u, v, e, f, g, h) == RealPart(w, x, y, z, i, j, k, l)
  {
    var m0 := RealTimes(s, e, w, x, y, z, a, b, c, d);
    var m1 := ImagTimes(t, f, w, x, y, z, a, b, c, d);
    var m2 := ImagTimes(u, g, w, y, z, x, a, c, d, b);
    var m3 := ImagTimes(v, h, w, z, x, y, a, d, b, c);
    var n0 := RealTimes(i, w, a, b, c, d, e, f, g, h);
    var n1 := ImagTimes(j, x, a, b, c, d, e, f, g, h);
    var n2 := ImagTimes(k, y, a, c, d, b, e, g, h, f);
    var n3 := ImagTimes(l, z, a, d, b, c, e, h, f, g);
    RealSum(s, t, u, v, e, f, g, h, m0, m1, m2, m3);
    RealSum(w, x, y, z, i, j, k, l, n0, n1, n2, n3);
  }

  lemma ImagAssociative(w: real, x: real, y: real, z: real, a: real, b: real, c: real, d: real,
                        e: real, f: real, g: real, h: real, s: real, t: real, u: real, v: real,
                        i: real, j: real, k: real, l: real)
    requires s == RealPart(w, x, y, z, a, b, c, d) && t == ImagPart(w, x, y, z, a, b, c, d)
    requires u == ImagPart(w, y, z, x, a, c, d, b) && v == ImagPart(w, z, x, y, a, d, b, c)
    requires i == RealPart(a, b, c, d, e, f, g, h) && j == ImagPart(a, b, c, d, e, f, g, h)
    requires k == ImagPart(a, c, d, b, e, g, h, f) && l == ImagPart(a, d, b, c, e, h, f, g)
    ensures ImagPart(s, t, u, v, e, f, g, h) == ImagPart(w, x, y, z, i, j, k, l)
  {
    var m0 := RealTimes(s, f, w, x, y, z, a, b, c, d);
    var m1 := ImagTimes(t, e, w, x, y, z, a, b, c, d);
    var m2 := ImagTimes(u, h, w, y, z, x, a, c, d, b);
    var m3 := ImagTimes(v, g, w, z, x, y, a, d, b, c);
    var n0 := ImagTimes(j, w, a, b, c, d, e, f, g, h);
    var n1 := RealTimes(i, x, a, b, c, d, e, f, g, h);
    var n2 := ImagTimes(l, y, a, d, b, c, e, h, f, g);
    var n3 := ImagTimes(k, z, a, c, d, b, e, g, h, f);
    ImagSum(s, t, u, v, e, f, g, h, m0, m1, m2, m3);
    ImagSum(w, x, y, z, i, j, k, l, n0, n1, n2, n3);
  }

  lemma QuatTimesAssociative(p: Quat, q: Quat, r: Quat)
    ensures QuatTimes(QuatTimes(p, q), r) == QuatTimes(p, QuatTimes(q, r))
  {
    var Quat(w, Vec3(x, y, z)) := p;
    var Quat(a, Vec3(b, c, d)) := q;
    var Quat(e, Vec3(f, g, h)) := r;
    var Quat(s, Vec3(t, u, v)) := QuatTimes(p, q);
    var Quat(i, Vec3(j, k, l)) := QuatTimes(q, r);
    RealAssociative(w, x, y, z, a, b, c, d, e, f, g, h, s, t, u, v, i, j, k, l);
    ImagAssociative(w, x, y, z, a, b, c, d, e, f, g, h, s, t, u, v, i, j, k, l);
    ImagAssociative(w, y, z, x, a, c, d, b, e, g, h, f, s, u, v, t, i, k, l, j);
    ImagAssociative(w, z, x, y, a, d, b, c, e, h, f, g, s, v, t, u, i, l, j, k);
  }

  /** The norm is multiplicative (Euler's four-square identity). */
  lemma NormTimes(p: Quat, q: Quat)
    ensures NormSquared(QuatTimes(p, q)) == NormSquared(p) * NormSquared(q)
  {
    ProductOfNorms(p, q, NormSquared(p), NormSquared(q));
  }

  lemma ProductOfNorms(p: Quat, q: Quat, n: real, m: real)
    requires n == NormSquared(p) && m == NormSquared(q)
    ensures NormSquared(QuatTimes(p, q)) == n * m
  {
    var Quat(w, Vec3(x, y, z)) := p;
    var Quat(a, Vec3(b, c, d)) := q;
    var Quat(s, Vec3(t, u, v)) := QuatTimes(p, q);
    FourSquares(w, x, y, z, a, b, c, d, s, t, u, v);
    NormsExpand(w, x, y, z, a, b, c, d, n, m);
  }

  lemma FourSquares(w: real, x: real, y: real, z: real, a: real, b: real, c: real, d: real,
                    s: real, t: real, u: real, v: real)
    requires s == RealPart(w, x, y, z, a, b, c, d) && t == ImagPart(w, x, y, z, a, b, c, d)
    requires u == ImagPart(w, y, z, x, a, c, d, b) && v == ImagPart(w, z, x, y, a, d, b, c)
    ensures SumOfSquares(s, t, u, v)
         == w*w*a*a + w*w*b*b + w*w*c*c + w*w*d*d + x*x*a*a + x*x*b*b + x*x*c*c + x*x*d*d
          + y*y*a*a + y*y*b*b + y*y*c*c + y*y*d*d + z*z*a*a + z*z*b*b + z*z*c*c + z*z*d*d
  {
  }

  lemma NormsExpand(w: real, x: real, y: real, z: real, a: real, b: real, c: real, d: real, n: real, m: real)
    requires n == SumOfSquares(w, x, y, z) && m == SumOfSquares(a, b, c, d)
    ensures n * m
         == w*w*a*a + w*w*b*b + w*w*c*c + w*w*d*d + x*x*a*a + x*x*b*b + x*x*c*c + x*x*d*d
          + y*y*a*a + y*y*b*b + y*y*c*c + y*y*d*d + z*z*a*a + z*z*b*b + z*z*c*c + z*z*d*d
  {
  }

  lemma UnitTimes(p: Quat, q: Quat)
    requires IsUnit(p) && IsUnit(q)
    ensures IsUnit(QuatTimes(p, q))
  {
    NormTimes(p, q);
  }

  ghost function Conjugate(q: Quat): Quat {
    Quat(q.w, Negate(q.v))
  }

  lemma ConjugateTimes(p: Quat, q: Quat)
    ensures Conjugate(QuatTimes(p, q)) == QuatTimes(Conjugate(q), Conjugate(p))
  {
    var Quat(w, Vec3(x, y, z)) := p;
    var Quat(a, Vec3(b, c, d)) := q;
    RealConjugate(w, x, y, z, a, b, c, d);
    ImagConjugate(w, x, y, z, a, b, c, d);
    ImagConjugate(w, y, z, x, a, c, d, b);
    ImagConjugate(w, z, x, y, a, d, b, c);
  }

  lemma RealConjugate(w: real, x: real, y: real, z: real, a: real, b: real, c: real, d: real)
    ensures RealPart(a, -b, -c, -d, w, -x, -y, -z) == RealPart(w, x, y, z, a, b, c, d)
  {
  }

  lemma ImagConjugate(w: real, x: real, y: real, z: real, a: real, b: real, c: real, d: real)
    ensures ImagPart(a, -b, -c, -d, w, -x, -y, -z) == -ImagPart(w, x, y, z, a, b, c, d)
  {
  }

  // ------------------------------------------------------- turns as sandwiches

  /** One component of a turn; the others are its cyclic images. */
  ghost function TurnX(w: real, x: real, y: real, z: real, a: real, b: real, c: real): real {
    Blend(a, CrossPart(y, z, b, c), 2.0 * w, CrossPart(y, z, CrossPart(z, x, c, a), CrossPart(x, y, a, b)))
  }

  lemma TurnExpand(w: real, x: real, y: real, z: real, a: real, b: real, c: real)
    ensures TurnX(w, x, y, z, a, b, c)
         == a + 2.0*w*y*c - 2.0*w*b*z + 2.0*y*x*b - 2.0*y*a*y - 2.0*z*a*z + 2.0*c*x*z
  {
    var i, j, k := CrossPart(y, z, b, c), CrossPart(z, x, c, a), CrossPart(x, y, a, b);
    assert i * w == y*c*w - b*z*w;
    assert y * k == y*x*b - y*a*y;
    assert j * z == z*a*z - c*x*z;
    assert CrossPart(y, z, j, k) == y * k - j * z;
  }

  lemma TurnComponents(q: Quat, vec: Vec3)
    ensures Turn(q, vec) == Vec3(TurnX(q.w, q.v.x, q.v.y, q.v.z, vec.x, vec.y, vec.z),
                                 TurnX(q.w, q.v.y, q.v.z, q.v.x, vec.y, vec.z, vec.x),
                                 TurnX(q.w, q.v.z, q.v.x, q.v.y, vec.z, vec.x, vec.y))
  {
  }

  lemma SandwichReal(w: real, x: real, y: real, z: real, a: real, b: real, c: real,
                     s: real, t: real, u: real, v: real)
    requires s == RealPart(w, x, y, z, 0.0, a, b, c) && t == ImagPart(w, x, y, z, 0.0, a, b, c)
    requires u == ImagPart(w, y, z, x, 0.0, b, c, a) && v == ImagPart(w, z, x, y, 0.0, c, a, b)
    ensures RealPart(s, t, u, v, w, -x, -y, -z) == 0.0
  {
    assert s == -x*a - y*b - z*c && t == w*a + y*c - z*b && u == w*b + z*a - x*c && v == w*c + x*b - y*a;
    assert s*w == -x*a*w - y*b*w - z*c*w;
    assert t*x == w*a*x + y*c*x - z*b*x;
    assert u*y == w*b*y + z*a*y - x*c*y;
    assert v*z == w*c*z + x*b*z - y*a*z;
    assert RealPart(s, t, u, v, w, -x, -y, -z) == s*w + t*x + u*y + v*z;
  }

  lemma SandwichExpand(w: real, x: real, y: real, z: real, a: real, b: real, c: real,
                       s: real, t: real, u: real, v: real)
    requires s == RealPart(w, x, y, z, 0.0, a, b, c) && t == ImagPart(w, x, y, z, 0.0, a, b, c)
    requires u == ImagPart(w, y, z, x, 0.0, b, c, a) && v == ImagPart(w, z, x, y, 0.0, c, a, b)
    ensures ImagPart(s, t, u, v, w, -x, -y, -z)
         == x*a*x + y*b*x + z*c*x + w*a*w + y*c*w - z*b*w - w*b*z - z*a*z + x*c*z + w*c*y + x*b*y - y*a*y
  {
    assert s == -x*a - y*b - z*c && t == w*a + y*c - z*b && u == w*b + z*a - x*c && v == w*c + x*b - y*a;
    assert s*x == -x*a*x - y*b*x - z*c*x;
    assert t*w == w*a*w + y*c*w - z*b*w;
    assert u*z == w*b*z + z*a*z - x*c*z;
    assert v*y == w*c*y + x*b*y - y*a*y;
    assert ImagPart(s, t, u, v, w, -x, -y, -z) == -(s*x) + t*w - u*z + v*y;
  }

  lemma SandwichImag(w: real, x: real, y: real, z: real, a: real, b: real, c: real,
                     s: real, t: real, u: real, v: real, n: real)
    requires n == 1.0 && n == w*w + x*x + y*y + z*z
    requires s == RealPart(w, x, y, z, 0.0, a, b, c) && t == ImagPart(w, x, y, z, 0.0, a, b, c)
    requires u == ImagPart(w, y, z, x, 0.0, b, c, a) && v == ImagPart(w, z, x, y, 0.0, c, a, b)
    ensures ImagPart(s, t, u, v, w, -x, -y, -z) == TurnX(w, x, y, z, a, b, c)
  {
    SandwichExpand(w, x, y, z, a, b, c, s, t, u, v);
    TurnExpand(w, x, y, z, a, b, c);
    UnitScale(a, n, w, x, y, z);
  }

  lemma UnitScale(a: real, n: real, w: real, x: real, y: real, z: real)
    requires n == 1.0 && n == w*w + x*x + y*y + z*z
    ensures a == w*w*a + x*x*a + y*y*a + z*z*a
  {
    assert a * n == w*w*a + x*x*a + y*y*a + z*z*a;
  }

  /** Turning by a unit quaternion is the sandwich q (0, v) q*. */
  lemma TurnSandwich(q: Quat, vec: Vec3)
    requires IsUnit(q)
    ensures QuatTimes(QuatTimes(q, Quat(0.0, vec)), Conjugate(q)) == Quat(0.0, Turn(q, vec))
  {
    var Quat(w, Vec3(x, y, z)) := q;
    var Vec3(a, b, c) := vec;
    var Quat(s, Vec3(t, u, v)) := QuatTimes(q, Quat(0.0, vec));
    TurnComponents(q, vec);
    SandwichReal(w, x, y, z, a, b, c, s, t, u, v);
    var n := NormSquared(q);
    SandwichImag(w, x, y, z, a, b, c, s, t, u, v, n);
    SandwichImag(w, y, z, x, b, c, a, s, u, v, t, n);
    SandwichImag(w, z, x, y, c, a, b, s, v, t, u, n);
  }

  /** The product of unit quaternions turns by one after the other. */
  lemma TurnTimes(p: Quat, q: Quat, vec: Vec3)
    requires IsUnit(p) && IsUnit(q)
    ensures Turn(QuatTimes(p, q), vec) == Turn(p, Turn(q, vec))
  {
    var v, pq := Quat(0.0, vec), QuatTimes(p, q);
    var pc, qc := Conjugate(p), Conjugate(q);
    UnitTimes(p, q);
    TurnSandwich(pq, vec);
    TurnSandwich(q, vec);
    TurnSandwich(p, Turn(q, vec));
    ConjugateTimes(p, q);
    QuatTimesAssociative(p, q, v);
    QuatTimesAssociative(p, QuatTimes(q, v), QuatTimes(qc, pc));
    QuatTimesAssociative(QuatTimes(q, v), qc, pc);
    QuatTimesAssociative(p, QuatTimes(QuatTimes(q, v), qc), pc);
  }

  // ------------------------------------------------------------ rigid transforms

  lemma RowSum(w: real, x: real, y: real, z: real, a: real, b: real, c: real, m0: real, m1: real, m2: real)
    returns (u: real, v: real, t: real)
    requires m0 == 1.0 - (Twice(y, y) + Twice(z, z))
    requires m1 == Twice(y, x) - Twice(z, w) && m2 == Twice(z, x) + Twice(y, w)
    ensures u == m0 * a && v == m1 * b && t == m2 * c && u + v + t == TurnX(w, x, y, z, a, b, c)
  {
    u, v, t := m0 * a, m1 * b, m2 * c;
    assert u == a - 2.0*y*y*a - 2.0*z*z*a;
    assert v == 2.0*y*x*b - 2.0*z*w*b;
    assert t == 2.0*z*x*c + 2.0*y*w*c;
    TurnExpand(w, x, y, z, a, b, c);
  }

  /** A row of the rotation matrix against a vector is a component of the turn; the
      same three entries serve in each cyclic order. */
  lemma RowTurns(w: real, x: real, y: real, z: real, a: real, b: real, c: real, p: real,
                 m0: real, m1: real, m2: real)
    requires m0 == 1.0 - (Twice(y, y) + Twice(z, z))
    requires m1 == Twice(y, x) - Twice(z, w) && m2 == Twice(z, x) + Twice(y, w)
    ensures Dot4(m0, m1, m2, p, a, b, c, 1.0) == p + TurnX(w, x, y, z, a, b, c)
    ensures Dot4(m0, m1, m2, p, a, b, c, 0.0) == TurnX(w, x, y, z, a, b, c)
    ensures Dot4(m2, m0, m1, p, c, a, b, 1.0) == p + TurnX(w, x, y, z, a, b, c)
    ensures Dot4(m2, m0, m1, p, c, a, b, 0.0) == TurnX(w, x, y, z, a, b, c)
    ensures Dot4(m1, m2, m0, p, b, c, a, 1.0) == p + TurnX(w, x, y, z, a, b, c)
    ensures Dot4(m1, m2, m0, p, b, c, a, 0.0) == TurnX(w, x, y, z, a, b, c)
  {
    var u, v, t := RowSum(w, x, y, z, a, b, c, m0, m1, m2);
    Dot4Sum(m0, m1, m2, p, a, b, c, 1.0, u, v, t, p);
    Dot4Sum(m0, m1, m2, p, a, b, c, 0.0, u, v, t, 0.0);
    Dot4Sum(m2, m0, m1, p, c, a, b, 1.0, t, u, v, p);
    Dot4Sum(m2, m0, m1, p, c, a, b, 0.0, t, u, v, 0.0);
    Dot4Sum(m1, m2, m0, p, b, c, a, 1.0, v, t, u, p);
    Dot4Sum(m1, m2, m0, p, b, c, a, 0.0, v, t, u, 0.0);
  }

  /** The matrix of a rigid transform on homogeneous coordinates with last coordinate
      1 (a point) or 0 (a direction). */
  lemma RigidApplies(p: Vec3, q: Quat, v: Vec3)
    ensures Apply(Rigid(p, q), Row(v.x, v.y, v.z, 1.0))
         == Row(p.x + Turn(q, v).x, p.y + Turn(q, v).y, p.z + Turn(q, v).z, 1.0)
    ensures Apply(Rigid(p, q), Row(v.x, v.y, v.z, 0.0))
         == Row(Turn(q, v).x, Turn(q, v).y, Turn(q, v).z, 0.0)
  {
    var Quat(w, Vec3(x, y, z)) := q;
    var rot := RotationMatrix(q);
    TurnComponents(q, v);
    RowTurns(w, x, y, z, v.x, v.y, v.z, p.x, rot.m00, rot.m01, rot.m02);
    RowTurns(w, y, z, x, v.y, v.z, v.x, p.y, rot.m11, rot.m12, rot.m10);
    RowTurns(w, z, x, y, v.z, v.x, v.y, p.z, rot.m22, rot.m20, rot.m21);
    DotLast(v.x, v.y, v.z, 1.0);
    DotLast(v.x, v.y, v.z, 0.0);
  }

  lemma DotLast(a: real, b: real, c: real, d: real)
    ensures Dot4(0.0, 0.0, 0.0, 1.0, a, b, c, d) == d
  {
  }

  /** For every quaternion, a rigid transform turns a point and then moves it; its
      denominator is always 1. */
  lemma RigidTransforms(p: Vec3, q: Quat, v: Vec3)
    ensures Denominator(Rigid(p, q), v) == 1.0
    ensures Transform(Rigid(p, q), v) == Plus(Turn(q, v), p)
  {
    RigidApplies(p, q, v);
    var h := Homogeneous(Rigid(p, q), v);
    assert h == Row(p.x + Turn(q, v).x, p.y + Turn(q, v).y, p.z + Turn(q, v).z, 1.0);
    MulOne(h.x); MulOne(h.y); MulOne(h.z);
  }

  lemma MulOne(x: real)
    ensures Mul(1.0, x) == x
  {
  }

  lemma DotAxes(a: real, b: real, c: real, d: real)
    ensures Dot4(a, b, c, d, 1.0, 0.0, 0.0, 0.0) == a
    ensures Dot4(a, b, c, d, 0.0, 1.0, 0.0, 0.0) == b
    ensures Dot4(a, b, c, d, 0.0, 0.0, 1.0, 0.0) == c
    ensures Dot4(a, b, c, d, 0.0, 0.0, 0.0, 1.0) == d
  {
  }

  /** The columns of a rotation matrix are the turned axes. */
  lemma RotationColumns(q: Quat)
    ensures var i, j, k := Turn(q, Vec3(1.0, 0.0, 0.0)), Turn(q, Vec3(0.0, 1.0, 0.0)), Turn(q, Vec3(0.0, 0.0, 1.0));
            RotationMatrix(q) == Mat3(i.x, j.x, k.x, i.y, j.y, k.y, i.z, j.z, k.z)
  {
    var m := Rigid(ORIGIN, q);
    RigidApplies(ORIGIN, q, Vec3(1.0, 0.0, 0.0));
    RigidApplies(ORIGIN, q, Vec3(0.0, 1.0, 0.0));
    RigidApplies(ORIGIN, q, Vec3(0.0, 0.0, 1.0));
    DotAxes(m.r0.x, m.r0.y, m.r0.z, m.r0.w);
    DotAxes(m.r1.x, m.r1.y, m.r1.z, m.r1.w);
    DotAxes(m.r2.x, m.r2.y, m.r2.z, m.r2.w);
  }

  ghost function ColumnOf(m: Mat4, c: nat): Row
    requires c < 4
  {
    Row(Entry(m, 0, c), Entry(m, 1, c), Entry(m, 2, c), Entry(m, 3, c))
  }

  lemma TimesColumns(a: Mat4, b: Mat4)
    ensures var x, y, z, w := Apply(a, ColumnOf(b, 0)), Apply(a, ColumnOf(b, 1)), Apply(a, ColumnOf(b, 2)), Apply(a, ColumnOf(b, 3));
            Times(a, b) == Mat4(Row(x.x, y.x, z.x, w.x), Row(x.y, y.y, z.y, w.y),
                                Row(x.z, y.z, z.z, w.z), Row(x.w, y.w, z.w, w.w))
  {
  }

  /** Rigid transforms of unit quaternions compose. */
  lemma RigidTimes(p1: Vec3, q1: Quat, p2: Vec3, q2: Quat)
    requires IsUnit(q1) && IsUnit(q2)
    ensures Times(Rigid(p1, q1), Rigid(p2, q2)) == Rigid(Plus(p1, Turn(q1, p2)), QuatTimes(q1, q2))
  {
    var a, b := Rigid(p1, q1), Rigid(p2, q2);
    var ex, ey, ez := Vec3(1.0, 0.0, 0.0), Vec3(0.0, 1.0, 0.0), Vec3(0.0, 0.0, 1.0);
    TimesColumns(a, b);
    RotationColumns(q2);
    RotationColumns(QuatTimes(q1, q2));
    RigidApplies(p1, q1, Turn(q2, ex)); TurnTimes(q1, q2, ex);
    RigidApplies(p1, q1, Turn(q2, ey)); TurnTimes(q1, q2, ey);
    RigidApplies(p1, q1, Turn(q2, ez)); TurnTimes(q1, q2, ez);
    RigidApplies(p1, q1, p2);
  }

  lemma TurnUnit(v: Vec3)
    ensures Turn(UNIT_QUAT, v) == v
    ensures Rigid(ORIGIN, UNIT_QUAT) == IDENTITY
  {
  }

  lemma TurnNegate(q: Quat, v: Vec3)
    ensures Turn(q, Negate(v)) == Negate(Turn(q, v))
  {
    TurnComponents(q, v);
    TurnComponents(q, Negate(v));
    TurnXNegate(q.w, q.v.x, q.v.y, q.v.z, v.x, v.y, v.z);
    TurnXNegate(q.w, q.v.y, q.v.z, q.v.x, v.y, v.z, v.x);
    TurnXNegate(q.w, q.v.z, q.v.x, q.v.y, v.z, v.x, v.y);
  }

  lemma TurnXNegate(w: real, x: real, y: real, z: real, a: real, b: real, c: real)
    ensures TurnX(w, x, y, z, -a, -b, -c) == -TurnX(w, x, y, z, a, b, c)
  {
    TurnExpand(w, x, y, z, a, b, c);
    var d, e, f := -a, -b, -c;
    TurnExpand(w, x, y, z, d, e, f);
  }

  // ------------------------------------------------------------------ inverses

  lemma ProductOfScaled(s: real, w: real, x: real, y: real, z: real, n: real)
    requires n == w*w + x*x + y*y + z*z && s * n == 1.0
    ensures RealPart(w, x, y, z, w*s, -x*s, -y*s, -z*s) == 1.0
    ensures RealPart(w*s, -x*s, -y*s, -z*s, w, x, y, z) == 1.0
    ensures ImagPart(w, x, y, z, w*s, -x*s, -y*s, -z*s) == 0.0
    ensures ImagPart(w*s, -x*s, -y*s, -z*s, w, x, y, z) == 0.0
  {
    assert s * n == w*w*s + x*x*s + y*y*s + z*z*s;
  }

  /** inverse() is two-sided on every nonzero quaternion and gives zero on zero. */
  lemma QuatInverseTwoSided(q: Quat)
    ensures q != ZERO_QUAT ==> QuatTimes(q, QuatInverse(q)) == UNIT_QUAT && QuatTimes(QuatInverse(q), q) == UNIT_QUAT
    ensures q == ZERO_QUAT ==> QuatInverse(q) == ZERO_QUAT
    ensures IsUnit(q) ==> QuatInverse(q) == Conjugate(q) && IsUnit(QuatInverse(q))
  {
    var Quat(w, Vec3(x, y, z)) := q;
    var n := NormSquared(q);
    if q != ZERO_QUAT {
      SumPositive(w, x, y, z, n);
      var s := 1.0 / n;
      assert s * n == 1.0;
      ProductOfScaled(s, w, x, y, z, n);
      ProductOfScaled(s, w, y, z, x, n);
      ProductOfScaled(s, w, z, x, y, n);
    }
  }

  lemma SumPositive(w: real, x: real, y: real, z: real, n: real)
    requires n == w*w + x*x + y*y + z*z
    requires w != 0.0 || x != 0.0 || y != 0.0 || z != 0.0
    ensures n > 0.0
  {
    var a := Square(w);
    var b := Square(x);
    var c := Square(y);
    var d := Square(z);
  }

  lemma Square(x: real) returns (s: real)
    ensures s == x * x && s >= 0.0 && (x != 0.0 ==> s > 0.0)
  {
    s := x * x;
    if x > 0.0 {
      PositiveProduct(x, x, s);
    } else if x < 0.0 {
      PositiveProduct(-x, -x, s);
    }
  }

  lemma PositiveProduct(x: real, y: real, s: real)
    requires s == x * y && x > 0.0 && y > 0.0
    ensures s > 0.0
  {
  }

  /** The inverse of a rigid transform is the rigid transform that turns back and
      moves back. */
  lemma RigidInverse(p: Vec3, q: Quat)
    requires IsUnit(q)
    ensures Determinant(Rigid(p, q)) != 0.0
    ensures Inverse(Rigid(p, q)) == Rigid(Negate(Turn(QuatInverse(q), p)), QuatInverse(q))
  {
    var i := QuatInverse(q);
    var back := Turn(i, p);
    QuatInverseTwoSided(q);
    RigidTimes(p, q, Negate(back), i);
    TurnNegate(q, back);
    TurnTimes(q, i, p);
    TurnUnit(p);
    assert Plus(p, Negate(p)) == ORIGIN;
    InverseUnique(Rigid(p, q), Rigid(Negate(back), i));
  }

  // --------------------------------------------- the determinant of a rotation

  lemma UnitTerms(n: real, s: real, w: real, x: real, y: real, z: real)
    requires n == 1.0 && n == w*w + x*x + y*y + z*z
    ensures s == s*w*w + s*x*x + s*y*y + s*z*z
  {
    assert s * n == s*w*w + s*x*x + s*y*y + s*z*z;
  }

  /** The third row of a rotation matrix is the cross product of the first two. */
  lemma CrossX(w: real, x: real, y: real, z: real, n: real, a: real, b: real, c: real, d: real)
    requires n == 1.0 && n == w*w + x*x + y*y + z*z
    requires a == 2.0*x*y - 2.0*w*z && b == 2.0*y*z - 2.0*w*x
    requires c == 2.0*x*z + 2.0*w*y && d == 1.0 - (2.0*x*x + 2.0*z*z)
    ensures a * b - c * d == 2.0*x*z - 2.0*w*y
  {
    UnitTerms(n, x*z, w, x, y, z);
    assert a * b == 4.0*x*y*y*z - 4.0*w*x*x*y - 4.0*w*y*z*z + 4.0*w*w*x*z;
    assert c * d == 2.0*x*z + 2.0*w*y - 4.0*x*x*x*z - 4.0*x*z*z*z - 4.0*w*y*x*x - 4.0*w*y*z*z;
  }

  lemma CrossY(w: real, x: real, y: real, z: real, n: real, a: real, b: real, c: real, d: real)
    requires n == 1.0 && n == w*w + x*x + y*y + z*z
    requires a == 2.0*x*z + 2.0*w*y && b == 2.0*x*y + 2.0*w*z
    requires c == 1.0 - (2.0*y*y + 2.0*z*z) && d == 2.0*y*z - 2.0*w*x
    ensures a * b - c * d == 2.0*y*z + 2.0*w*x
  {
    UnitTerms(n, y*z, w, x, y, z);
    assert a * b == 4.0*x*x*y*z + 4.0*w*x*z*z + 4.0*w*x*y*y + 4.0*w*w*y*z;
    assert c * d == 2.0*y*z - 2.0*w*x - 4.0*y*y*y*z + 4.0*w*x*y*y - 4.0*y*z*z*z + 4.0*w*x*z*z;
  }

  lemma CrossZ(w: real, x: real, y: real, z: real, n: real, a: real, b: real, c: real, d: real)
    requires n == 1.0 && n == w*w + x*x + y*y + z*z
    requires a == 1.0 - (2.0*y*y + 2.0*z*z) && b == 1.0 - (2.0*x*x + 2.0*z*z)
    requires c == 2.0*x*y - 2.0*w*z && d == 2.0*x*y + 2.0*w*z
    ensures a * b - c * d == 1.0 - (2.0*x*x + 2.0*y*y)
  {
    UnitTerms(n, z*z, w, x, y, z);
    assert a * b == 1.0 - 2.0*x*x - 2.0*y*y - 4.0*z*z + 4.0*y*y*x*x + 4.0*y*y*z*z + 4.0*z*z*x*x + 4.0*z*z*z*z;
    assert c * d == 4.0*x*x*y*y - 4.0*w*w*z*z;
  }

  lemma LastRowNorm(w: real, x: real, y: real, z: real, n: real, a: real, b: real, c: real)
    requires n == 1.0 && n == w*w + x*x + y*y + z*z
    requires a == 2.0*x*z - 2.0*w*y && b == 2.0*y*z + 2.0*w*x && c == 1.0 - (2.0*x*x + 2.0*y*y)
    ensures a*a + b*b + c*c == 1.0
  {
    UnitTerms(n, x*x, w, x, y, z);
    UnitTerms(n, y*y, w, x, y, z);
    assert a*a == 4.0*x*x*z*z - 8.0*x*z*w*y + 4.0*w*w*y*y;
    assert b*b == 4.0*y*y*z*z + 8.0*y*z*w*x + 4.0*w*w*x*x;
    assert c*c == 1.0 - 4.0*x*x - 4.0*y*y + 4.0*x*x*x*x + 8.0*x*x*y*y + 4.0*y*y*y*y;
  }

  lemma LeibnizAffine(a: Row, b: Row, c: Row, i: real, j: real, k: real)
    requires i == CrossPart(a.y, a.z, b.y, b.z) && j == CrossPart(a.z, a.x, b.z, b.x) && k == CrossPart(a.x, a.y, b.x, b.y)
    ensures Leibniz(a, b, c, Row(0.0, 0.0, 0.0, 1.0)) == Dot4(c.x, c.y, c.z, 0.0, i, j, k, 0.0)
  {
    var Row(a0, a1, a2, a3) := a;
    var Row(b0, b1, b2, b3) := b;
    var Row(c0, c1, c2, c3) := c;
    assert Dot4(c0, c1, c2, 0.0, i, j, k, 0.0) == c0 * i + c1 * j + c2 * k;
    assert c0 * i == c0*a1*b2 - c0*a2*b1;
    assert c1 * j == c1*a2*b0 - c1*a0*b2;
    assert c2 * k == c2*a0*b1 - c2*a1*b0;
  }

  /** The rows of the matrix of a unit quaternion: the third is the cross product of
      the first two, and has length 1. */
  lemma RotationRows(q: Quat)
    requires IsUnit(q)
    ensures var m := RotationMatrix(q);
            && m.m20 == CrossPart(m.m01, m.m02, m.m11, m.m12)
            && m.m21 == CrossPart(m.m02, m.m00, m.m12, m.m10)
            && m.m22 == CrossPart(m.m00, m.m01, m.m10, m.m11)
            && Dot4(m.m20, m.m21, m.m22, 0.0, m.m20, m.m21, m.m22, 0.0) == 1.0
  {
    var Quat(w, Vec3(x, y, z)) := q;
    var n := NormSquared(q);
    var Mat3(m00, m01, m02, m10, m11, m12, m20, m21, m22) := RotationMatrix(q);
    RowIdentities(w, x, y, z, n, m00, m01, m02, m10, m11, m12, m20, m21, m22);
  }

  lemma RowIdentities(w: real, x: real, y: real, z: real, n: real, m00: real, m01: real, m02: real,
                      m10: real, m11: real, m12: real, m20: real, m21: real, m22: real)
    requires n == 1.0 && n == w*w + x*x + y*y + z*z
    requires m00 == 1.0 - (Twice(y, y) + Twice(z, z)) && m01 == Twice(y, x) - Twice(z, w) && m02 == Twice(z, x) + Twice(y, w)
    requires m10 == Twice(y, x) + Twice(z, w) && m11 == 1.0 - (Twice(x, x) + Twice(z, z)) && m12 == Twice(z, y) - Twice(x, w)
    requires m20 == Twice(z, x) - Twice(y, w) && m21 == Twice(z, y) + Twice(x, w) && m22 == 1.0 - (Twice(x, x) + Twice(y, y))
    ensures m20 == CrossPart(m01, m02, m11, m12)
    ensures m21 == CrossPart(m02, m00, m12, m10)
    ensures m22 == CrossPart(m00, m01, m10, m11)
    ensures Dot4(m20, m21, m22, 0.0, m20, m21, m22, 0.0) == 1.0
  {
    assert m20 == CrossPart(m01, m02, m11, m12) by { CrossX(w, x, y, z, n, m01, m12, m02, m11); }
    assert m21 == CrossPart(m02, m00, m12, m10) by { CrossY(w, x, y, z, n, m02, m10, m00, m12); }
    assert m22 == CrossPart(m00, m01, m10, m11) by { CrossZ(w, x, y, z, n, m00, m11, m01, m10); }
    assert Dot4(m20, m21, m22, 0.0, m20, m21, m22, 0.0) == 1.0 by { LastRowNorm(w, x, y, z, n, m20, m21, m22); }
  }

  /** A rigid transform keeps volume and orientation. */
  lemma RigidDeterminant(p: Vec3, q: Quat)
    requires IsUnit(q)
    ensures Determinant(Rigid(p, q)) == 1.0
  {
    var m := RotationMatrix(q);
    RotationRows(q);
    DeterminantLeibniz(Rigid(p, q));
    LeibnizAffine(Row(m.m00, m.m01, m.m02, p.x), Row(m.m10, m.m11, m.m12, p.y), Row(m.m20, m.m21, m.m22, p.z),
                  m.m20, m.m21, m.m22);
  }
}

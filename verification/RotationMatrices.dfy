/** Shoemake's algorithm on every rotation matrix, whether or not it was made from a
    quaternion: rows that are unit and orthogonal, and determinant 1.

    Each lemma is about plain reals, the entries
      a b c
      d e f
      g h i
    of the matrix; the other cases are the same lemma with the axes renamed. */
module RotationMatrices {
  import opened Matrix4
  import opened Projective
  import opened Rotation
  import opened Shoemake

  function Dot3(a: real, b: real, c: real, d: real, e: real, f: real): real {
    a * d + b * e + c * f
  }

  predicate IsRotation(m: Mat3) {
    && Dot3(m.m00, m.m01, m.m02, m.m00, m.m01, m.m02) == 1.0
    && Dot3(m.m10, m.m11, m.m12, m.m10, m.m11, m.m12) == 1.0
    && Dot3(m.m20, m.m21, m.m22, m.m20, m.m21, m.m22) == 1.0
    && Dot3(m.m00, m.m01, m.m02, m.m10, m.m11, m.m12) == 0.0
    && Dot3(m.m10, m.m11, m.m12, m.m20, m.m21, m.m22) == 0.0
    && Dot3(m.m20, m.m21, m.m22, m.m00, m.m01, m.m02) == 0.0
    && Det3(m.m00, m.m01, m.m02, m.m10, m.m11, m.m12, m.m20, m.m21, m.m22) == 1.0
  }

  // ------------------------------------------- each row is the cross product of the others

  lemma UnitProduct(n: real, m: real, k: real)
    requires n == 1.0 && m == 1.0 && k == 0.0
    ensures n * m - k * k == 1.0
  {
  }

  /** Lagrange's identity for two unit vectors at a right angle. */
  lemma CrossUnit(d: real, e: real, f: real, g: real, h: real, i: real)
    requires Dot3(d, e, f, d, e, f) == 1.0 && Dot3(g, h, i, g, h, i) == 1.0 && Dot3(d, e, f, g, h, i) == 0.0
    ensures var p, q, r := e * i - f * h, f * g - d * i, d * h - e * g; Dot3(p, q, r, p, q, r) == 1.0
  {
    var p, q, r := e * i - f * h, f * g - d * i, d * h - e * g;
    var n, m, k := d * d + e * e + f * f, g * g + h * h + i * i, d * g + e * h + f * i;
    Lagrange(d, e, f, g, h, i);
    UnitProduct(n, m, k);
  }

  lemma Lagrange(d: real, e: real, f: real, g: real, h: real, i: real)
    ensures var p, q, r := e * i - f * h, f * g - d * i, d * h - e * g;
            var n, m, k := d * d + e * e + f * f, g * g + h * h + i * i, d * g + e * h + f * i;
            p * p + q * q + r * r == n * m - k * k
  {
  }

  lemma ZeroSquares(x: real, y: real, z: real)
    requires x * x + y * y + z * z == 0.0
    ensures x == 0.0 && y == 0.0 && z == 0.0
  {
    var p := Square(x);
    var q := Square(y);
    var r := Square(z);
  }

  lemma EqualUnits(a: real, b: real, c: real, p: real, q: real, r: real)
    requires Dot3(a, b, c, a, b, c) == 1.0 && Dot3(p, q, r, p, q, r) == 1.0 && Dot3(a, b, c, p, q, r) == 1.0
    ensures a == p && b == q && c == r
  {
    var x, y, z := a - p, b - q, c - r;
    assert x * x + y * y + z * z == (a * a + b * b + c * c) + (p * p + q * q + r * r) - 2.0 * (a * p + b * q + c * r);
    ZeroSquares(x, y, z);
  }

  lemma DetIsDot(a: real, b: real, c: real, d: real, e: real, f: real, g: real, h: real, i: real, p: real, q: real, r: real)
    requires p == e * i - f * h && q == f * g - d * i && r == d * h - e * g
    ensures Dot3(a, b, c, p, q, r) == Det3(a, b, c, d, e, f, g, h, i)
  {
  }

  lemma RowIsCross(a: real, b: real, c: real, d: real, e: real, f: real, g: real, h: real, i: real)
    requires Dot3(a, b, c, a, b, c) == 1.0 && Dot3(d, e, f, d, e, f) == 1.0 && Dot3(g, h, i, g, h, i) == 1.0
    requires Dot3(d, e, f, g, h, i) == 0.0 && Det3(a, b, c, d, e, f, g, h, i) == 1.0
    ensures a == e * i - f * h && b == f * g - d * i && c == d * h - e * g
  {
    var p, q, r := e * i - f * h, f * g - d * i, d * h - e * g;
    CrossUnit(d, e, f, g, h, i);
    DetIsDot(a, b, c, d, e, f, g, h, i, p, q, r);
    EqualUnits(a, b, c, p, q, r);
  }

  // ------------------------------------------------------------------ the columns

  /** Columns are unit and at right angles because rows are cross products. */
  lemma Columns(a: real, b: real, c: real, d: real, e: real, f: real, g: real, h: real, i: real)
    requires a == e * i - f * h && b == f * g - d * i
    requires d == h * c - i * b && e == i * a - g * c
    requires g == b * f - c * e && h == c * d - a * f
    requires Det3(a, b, c, d, e, f, g, h, i) == 1.0
    ensures a * a + d * d + g * g == 1.0
    ensures a * b + d * e + g * h == 0.0
  {
    var p, q, r := e * i - f * h, h * c - i * b, b * f - c * e;
    assert Dot3(a, d, g, a, d, g) == Dot3(a, d, g, p, q, r);
    assert Dot3(a, d, g, p, q, r) == Det3(a, b, c, d, e, f, g, h, i);
    var s, t, u := f * g - d * i, i * a - g * c, c * d - a * f;
    assert Dot3(a, d, g, b, e, h) == Dot3(a, d, g, s, t, u);
    assert Dot3(a, d, g, s, t, u) == 0.0;
  }

  // ---------------------------------------------------- what the branches multiply out to

  /** All that the branches need of the entries. */
  predicate Entries(a: real, b: real, c: real, d: real, e: real, f: real, g: real, h: real, i: real) {
    && a * a + b * b + c * c == 1.0 && d * d + e * e + f * f == 1.0 && g * g + h * h + i * i == 1.0
    && a * d + b * e + c * f == 0.0 && d * g + e * h + f * i == 0.0 && g * a + h * b + i * c == 0.0
    && a * a + d * d + g * g == 1.0 && b * b + e * e + h * h == 1.0 && c * c + f * f + i * i == 1.0
    && a * b + d * e + g * h == 0.0 && b * c + e * f + h * i == 0.0 && c * a + f * d + i * g == 0.0
    && a == e * i - f * h && b == f * g - d * i && c == d * h - e * g
    && d == h * c - i * b && e == i * a - g * c && f == g * b - h * a
    && g == b * f - c * e && h == c * d - a * f && i == a * e - b * d
  }

  lemma RotationEntries(a: real, b: real, c: real, d: real, e: real, f: real, g: real, h: real, i: real)
    requires IsRotation(Mat3(a, b, c, d, e, f, g, h, i))
    ensures Entries(a, b, c, d, e, f, g, h, i)
  {
    DetRows(a, b, c, d, e, f, g, h, i);
    DotCommutes(a, b, c, g, h, i);
    RowIsCross(a, b, c, d, e, f, g, h, i);
    RowIsCross(d, e, f, g, h, i, a, b, c);
    RowIsCross(g, h, i, a, b, c, d, e, f);
    DetColumns(a, b, c, d, e, f, g, h, i);
    Columns(a, b, c, d, e, f, g, h, i);
    Columns(b, c, a, e, f, d, h, i, g);
    Columns(c, a, b, f, d, e, i, g, h);
  }

  lemma DotCommutes(a: real, b: real, c: real, d: real, e: real, f: real)
    ensures Dot3(a, b, c, d, e, f) == Dot3(d, e, f, a, b, c)
  {
  }

  lemma DetRows(a: real, b: real, c: real, d: real, e: real, f: real, g: real, h: real, i: real)
    ensures Det3(a, b, c, d, e, f, g, h, i) == Det3(d, e, f, g, h, i, a, b, c) == Det3(g, h, i, a, b, c, d, e, f)
  {
  }

  lemma DetColumns(a: real, b: real, c: real, d: real, e: real, f: real, g: real, h: real, i: real)
    ensures Det3(a, b, c, d, e, f, g, h, i) == Det3(b, c, a, e, f, d, h, i, g) == Det3(c, a, b, f, d, e, i, g, h)
  {
  }

  lemma EntriesTurn(a: real, b: real, c: real, d: real, e: real, f: real, g: real, h: real, i: real)
    requires Entries(a, b, c, d, e, f, g, h, i)
    ensures Entries(e, f, d, h, i, g, b, c, a)
  {
  }

  /** The squares and products of what is antisymmetric or symmetric off the diagonal. */
  lemma SkewSquare(a: real, b: real, c: real, d: real, e: real, f: real, g: real, h: real, i: real)
    requires Entries(a, b, c, d, e, f, g, h, i)
    ensures (h - f) * (h - f) == (1.0 + a + e + i) * (1.0 + a - e - i)
  {
  }

  lemma EvenSquare(a: real, b: real, c: real, d: real, e: real, f: real, g: real, h: real, i: real)
    requires Entries(a, b, c, d, e, f, g, h, i)
    ensures (d + b) * (d + b) == (1.0 + a - e - i) * (1.0 + e - a - i)
  {
  }

  lemma SkewProduct(a: real, b: real, c: real, d: real, e: real, f: real, g: real, h: real, i: real)
    requires Entries(a, b, c, d, e, f, g, h, i)
    ensures (h - f) * (c - g) == (1.0 + a + e + i) * (b + d)
  {
  }

  lemma EvenProduct(a: real, b: real, c: real, d: real, e: real, f: real, g: real, h: real, i: real)
    requires Entries(a, b, c, d, e, f, g, h, i)
    ensures (d + b) * (g + c) == (1.0 + a - e - i) * (f + h)
    ensures (h - f) * (d + b) == (1.0 + a - e - i) * (c - g)
    ensures (h - f) * (g + c) == (1.0 + a - e - i) * (d - b)
  {
  }

  // -------------------------------------------------------- the quaternion of a branch

  /** Twice the products of the components, when the divisor is the root of s. */
  lemma RootSquare(r: real, s: real)
    requires r * r == s
    ensures Twice(0.5 * r, 0.5 * r) == s / 2.0
  {
  }

  lemma RootTimes(r: real, p: real, f: real)
    requires r != 0.0 && f == HalfOver(r)
    ensures Twice(0.5 * r, Mul(p, f)) == p / 2.0 && Twice(Mul(p, f), 0.5 * r) == p / 2.0
  {
    assert f * r == 0.5;
    assert 0.5 * r * (p * f) == 0.5 * p * (f * r);
  }

  lemma QuarterOver(r: real, s: real, f: real)
    requires r != 0.0 && r * r == s && f == HalfOver(r)
    ensures s * (f * f) == 0.25
  {
    var n := f * r;
    assert n == 0.5;
    assert n * n == r * r * (f * f);
    assert s * (f * f) == r * r * (f * f);
  }

  lemma OverRoot(r: real, s: real, p: real, q: real, k: real, f: real)
    requires r != 0.0 && r * r == s && f == HalfOver(r) && p * q == s * k
    ensures Twice(Mul(p, f), Mul(q, f)) == k / 2.0
  {
    QuarterOver(r, s, f);
    var n, t := f * f, s * (f * f);
    assert p * f * (q * f) == p * q * n;
    assert p * q * n == s * k * n;
    assert s * k * n == t * k;
  }

  lemma UnitFromTwices(w: real, x: real, y: real, z: real)
    requires Twice(w, w) + Twice(x, x) + Twice(y, y) + Twice(z, z) == 2.0
    ensures SumOfSquares(w, x, y, z) == 1.0
  {
  }

  lemma TraceBranch(a: real, b: real, c: real, d: real, e: real, f: real, g: real, h: real, i: real, r: real, o: real)
    requires Entries(a, b, c, d, e, f, g, h, i) && r != 0.0 && r * r == 1.0 + a + e + i && o == HalfOver(r)
    ensures var q := Quat(0.5 * r, Vec3(Mul(h - f, o), Mul(c - g, o), Mul(d - b, o)));
            IsUnit(q) && RotationMatrix(q) == Mat3(a, b, c, d, e, f, g, h, i)
  {
    hide Entries, Twice, Mul, HalfOver, SumOfSquares;
    var s := 1.0 + a + e + i;
    EntriesTurn(a, b, c, d, e, f, g, h, i);
    EntriesTurn(e, f, d, h, i, g, b, c, a);
    SkewSquare(a, b, c, d, e, f, g, h, i);
    SkewSquare(e, f, d, h, i, g, b, c, a);
    SkewSquare(i, g, h, c, a, b, f, d, e);
    SkewProduct(a, b, c, d, e, f, g, h, i);
    SkewProduct(e, f, d, h, i, g, b, c, a);
    SkewProduct(i, g, h, c, a, b, f, d, e);
    RootSquare(r, s);
    RootTimes(r, h - f, o);
    RootTimes(r, c - g, o);
    RootTimes(r, d - b, o);
    OverRoot(r, s, h - f, h - f, 1.0 + a - e - i, o);
    OverRoot(r, s, c - g, c - g, 1.0 + e - i - a, o);
    OverRoot(r, s, d - b, d - b, 1.0 + i - a - e, o);
    OverRoot(r, s, c - g, h - f, b + d, o);
    OverRoot(r, s, d - b, c - g, f + h, o);
    OverRoot(r, s, d - b, h - f, c + g, o);
    UnitFromTwices(0.5 * r, Mul(h - f, o), Mul(c - g, o), Mul(d - b, o));
  }

  /** The branch of the first diagonal entry. */
  lemma PivotBranch(a: real, b: real, c: real, d: real, e: real, f: real, g: real, h: real, i: real, r: real, o: real)
    requires Entries(a, b, c, d, e, f, g, h, i) && r != 0.0 && r * r == 1.0 + a - e - i && o == HalfOver(r)
    ensures var q := Quat(Mul(h - f, o), Vec3(0.5 * r, Mul(d + b, o), Mul(g + c, o)));
            IsUnit(q) && RotationMatrix(q) == Mat3(a, b, c, d, e, f, g, h, i)
  {
    hide Entries, Twice, Mul, HalfOver, SumOfSquares;
    var s := 1.0 + a - e - i;
    SkewSquare(a, b, c, d, e, f, g, h, i);
    EvenSquare(a, b, c, d, e, f, g, h, i);
    EvenSquareOther(a, b, c, d, e, f, g, h, i);
    EvenProduct(a, b, c, d, e, f, g, h, i);
    RootSquare(r, s);
    RootTimes(r, h - f, o);
    RootTimes(r, d + b, o);
    RootTimes(r, g + c, o);
    OverRoot(r, s, h - f, h - f, 1.0 + a + e + i, o);
    OverRoot(r, s, d + b, d + b, 1.0 + e - a - i, o);
    OverRoot(r, s, g + c, g + c, 1.0 + i - a - e, o);
    OverRoot(r, s, g + c, d + b, f + h, o);
    OverRoot(r, s, d + b, h - f, c - g, o);
    OverRoot(r, s, g + c, h - f, d - b, o);
    UnitFromTwices(Mul(h - f, o), 0.5 * r, Mul(d + b, o), Mul(g + c, o));
  }

  lemma EvenSquareOther(a: real, b: real, c: real, d: real, e: real, f: real, g: real, h: real, i: real)
    requires Entries(a, b, c, d, e, f, g, h, i)
    ensures (g + c) * (g + c) == (1.0 + a - e - i) * (1.0 + i - a - e)
  {
  }

  /** Renaming the axes of a quaternion renames those of its matrix. */
  lemma TurnedMatrix(w: real, x: real, y: real, z: real, m: Mat3)
    requires RotationMatrix(Quat(w, Vec3(y, z, x))) == Mat3(m.m11, m.m12, m.m10, m.m21, m.m22, m.m20, m.m01, m.m02, m.m00)
    ensures RotationMatrix(Quat(w, Vec3(x, y, z))) == m
  {
    hide Twice;
    TwiceCommutes(x, y);
    TwiceCommutes(x, z);
    TwiceCommutes(y, z);
  }

  lemma TurnedUnit(w: real, x: real, y: real, z: real)
    requires IsUnit(Quat(w, Vec3(y, z, x)))
    ensures IsUnit(Quat(w, Vec3(x, y, z)))
  {
  }

  /** For every rotation matrix, in every branch: the quaternion built is a unit one, and
      its matrix is the one given. */
  lemma EveryRotation(m: Mat3, root: real)
    requires IsRotation(m) && IsRoot(root, m)
    ensures root >= 1.0
    ensures IsUnit(Built(m, root)) && RotationMatrix(Built(m, root)) == m
  {
    hide RotationMatrix, IsUnit, Mul, HalfOver;
    RadicandAtLeastOne(m);
    var Mat3(a, b, c, d, e, f, g, h, i) := m;
    var o := HalfOver(root);
    RotationEntries(a, b, c, d, e, f, g, h, i);
    EntriesTurn(a, b, c, d, e, f, g, h, i);
    EntriesTurn(e, f, d, h, i, g, b, c, a);
    if Trace(m) > 0.0 {
      TraceBranch(a, b, c, d, e, f, g, h, i, root, o);
    } else if Pivot(m) == 0 {
      PivotBranch(a, b, c, d, e, f, g, h, i, root, o);
    } else if Pivot(m) == 1 {
      PivotBranch(e, f, d, h, i, g, b, c, a, root, o);
      TurnedMatrix(Mul(c - g, o), Mul(b + d, o), 0.5 * root, Mul(h + f, o), m);
      TurnedUnit(Mul(c - g, o), Mul(b + d, o), 0.5 * root, Mul(h + f, o));
    } else {
      PivotBranch(i, g, h, c, a, b, f, d, e, root, o);
      TurnedTwice(Mul(d - b, o), Mul(c + g, o), Mul(f + h, o), 0.5 * root, m);
    }
  }

  lemma TurnedTwice(w: real, x: real, y: real, z: real, m: Mat3)
    requires RotationMatrix(Quat(w, Vec3(z, x, y))) == Mat3(m.m22, m.m20, m.m21, m.m02, m.m00, m.m01, m.m12, m.m10, m.m11)
    requires IsUnit(Quat(w, Vec3(z, x, y)))
    ensures RotationMatrix(Quat(w, Vec3(x, y, z))) == m && IsUnit(Quat(w, Vec3(x, y, z)))
  {
    var n := Mat3(m.m11, m.m12, m.m10, m.m21, m.m22, m.m20, m.m01, m.m02, m.m00);
    TurnedMatrix(w, y, z, x, n);
    TurnedUnit(w, y, z, x);
    TurnedMatrix(w, x, y, z, m);
    TurnedUnit(w, x, y, z);
  }

  // ----------------------------------------------------------- the matrix of a quaternion

  lemma TurnedBack(w: real, x: real, y: real, z: real)
    ensures var m := RotationMatrix(Quat(w, Vec3(x, y, z)));
            RotationMatrix(Quat(w, Vec3(y, z, x)))
            == Mat3(m.m11, m.m12, m.m10, m.m21, m.m22, m.m20, m.m01, m.m02, m.m00)
  {
    hide Twice;
    TwiceCommutes(x, y);
    TwiceCommutes(x, z);
    TwiceCommutes(y, z);
  }

  /** A vector that is the cross product of two others is at a right angle to both. */
  lemma CrossAcross(a: real, b: real, c: real, d: real, e: real, f: real, g: real, h: real, i: real)
    requires g == b * f - e * c && h == c * d - f * a && i == a * e - d * b
    requires g * g + h * h + i * i == 1.0
    ensures Dot3(g, h, i, a, b, c) == 0.0 && Dot3(d, e, f, g, h, i) == 0.0
    ensures Det3(a, b, c, d, e, f, g, h, i) == 1.0
  {
    var p, q, r := b * f - e * c, c * d - f * a, a * e - d * b;
    assert Dot3(p, q, r, a, b, c) == 0.0 && Dot3(d, e, f, p, q, r) == 0.0;
    assert Dot3(g, h, i, a, b, c) == Dot3(p, q, r, a, b, c) && Dot3(d, e, f, g, h, i) == Dot3(d, e, f, p, q, r);
    DetIsLast(a, b, c, d, e, f, g, h, i, p, q, r);
    assert Dot3(g, h, i, p, q, r) == Dot3(g, h, i, g, h, i);
  }

  lemma DetIsLast(a: real, b: real, c: real, d: real, e: real, f: real, g: real, h: real, i: real, p: real, q: real, r: real)
    requires p == b * f - e * c && q == c * d - f * a && r == a * e - d * b
    ensures Dot3(g, h, i, p, q, r) == Det3(a, b, c, d, e, f, g, h, i)
  {
  }

  /** The last row is a unit cross product, by the rows of a quaternion's matrix. */
  lemma LastRow(q: Quat)
    requires IsUnit(q)
    ensures var m := RotationMatrix(q);
            && Dot3(m.m20, m.m21, m.m22, m.m20, m.m21, m.m22) == 1.0
            && Dot3(m.m20, m.m21, m.m22, m.m00, m.m01, m.m02) == 0.0
            && Dot3(m.m10, m.m11, m.m12, m.m20, m.m21, m.m22) == 0.0
            && Det3(m.m00, m.m01, m.m02, m.m10, m.m11, m.m12, m.m20, m.m21, m.m22) == 1.0
  {
    hide RotationMatrix, IsUnit;
    RotationRows(q);
    var Mat3(a, b, c, d, e, f, g, h, i) := RotationMatrix(q);
    assert g * g + h * h + i * i == Dot4(g, h, i, 0.0, g, h, i, 0.0);
    CrossAcross(a, b, c, d, e, f, g, h, i);
  }

  /** The matrix of every unit quaternion is a rotation matrix, so with EveryRotation the
      matrices the two conversions go between are exactly the rotation matrices. */
  lemma MatrixOfUnit(q: Quat)
    requires IsUnit(q)
    ensures IsRotation(RotationMatrix(q))
  {
    var Quat(w, Vec3(x, y, z)) := q;
    var Mat3(a, b, c, d, e, f, g, h, i) := RotationMatrix(q);
    hide RotationMatrix, IsUnit;
    TurnedUnit(w, z, x, y);
    TurnedUnit(w, y, z, x);
    TurnedBack(w, x, y, z);
    TurnedBack(w, y, z, x);
    LastRow(q);
    LastRow(Quat(w, Vec3(y, z, x)));
    LastRow(Quat(w, Vec3(z, x, y)));
    DotTurns(a, b, c, a, b, c);
    DotTurns(d, e, f, d, e, f);
    DotTurns(d, e, f, a, b, c);
    DotTurns(a, b, c, d, e, f);
    DotCommutes(a, b, c, d, e, f);
  }

  lemma DotTurns(a: real, b: real, c: real, d: real, e: real, f: real)
    ensures Dot3(b, c, a, e, f, d) == Dot3(a, b, c, d, e, f) == Dot3(c, a, b, f, d, e)
  {
  }
}

/** The conversion of a rotation matrix to a quaternion (Shoemake's algorithm), with
    its four branches and its write through an array of component slots. The square
    root is an argument: any nonnegative number whose square is the radicand. */
module Shoemake {
  import opened Matrix4
  import opened Projective
  import opened Rotation

  function At(m: Mat3, r: nat, c: nat): real
    requires r < 3 && c < 3
  {
    if r == 0 then if c == 0 then m.m00 else if c == 1 then m.m01 else m.m02
    else if r == 1 then if c == 0 then m.m10 else if c == 1 then m.m11 else m.m12
    else if c == 0 then m.m20 else if c == 1 then m.m21 else m.m22
  }

  const NEXT: seq<nat> := [1, 2, 0]

  function Trace(m: Mat3): real {
    m.m00 + m.m11 + m.m22
  }

  /** The index the branch without a positive trace works on. */
  function Pivot(m: Mat3): (i: nat)
    ensures i < 3
    ensures At(m, i, i) >= m.m00 && At(m, i, i) >= m.m11 && At(m, i, i) >= m.m22
  {
    var i := if m.m11 > m.m00 then 1 else 0;
    if m.m22 > At(m, i, i) then 2 else i
  }

  /** What the square root is taken of. */
  function Radicand(m: Mat3): real {
    if Trace(m) > 0.0 then
      Trace(m) + 1.0
    else
      var i := Pivot(m);
      var j := NEXT[i];
      var k := NEXT[j];
      At(m, i, i) - At(m, j, j) - At(m, k, k) + 1.0
  }

  predicate IsRoot(root: real, m: Mat3) {
    root >= 0.0 && root * root == Radicand(m)
  }

  /** For every matrix, a rotation or not, the radicand is at least 1, so the root
      exists and the division by it is safe. */
  lemma RadicandAtLeastOne(m: Mat3)
    ensures Radicand(m) >= 1.0
    ensures forall root :: IsRoot(root, m) ==> root >= 1.0
  {
    forall root | IsRoot(root, m)
      ensures root >= 1.0
    {
      if root < 1.0 {
        SquareBelowOne(root, Radicand(m));
      }
    }
  }

  lemma SquareBelowOne(r: real, s: real)
    requires 0.0 <= r < 1.0 && r * r == s
    ensures s < 1.0
  {
    var a, b := 1.0 - r, 1.0 + r;
    assert a * b == 1.0 - r * r;
    PositiveProduct(a, b, 1.0 - s);
  }

  function HalfOver(r: real): real
    requires r != 0.0
  {
    0.5 / r
  }

  /** The quaternion the constructor builds, component by component. */
  function Built(m: Mat3, root: real): Quat
    requires root != 0.0
  {
    var f := HalfOver(root);
    if Trace(m) > 0.0 then
      Quat(0.5 * root, Vec3(Mul(m.m21 - m.m12, f), Mul(m.m02 - m.m20, f), Mul(m.m10 - m.m01, f)))
    else if Pivot(m) == 0 then
      Quat(Mul(m.m21 - m.m12, f), Vec3(0.5 * root, Mul(m.m10 + m.m01, f), Mul(m.m20 + m.m02, f)))
    else if Pivot(m) == 1 then
      Quat(Mul(m.m02 - m.m20, f), Vec3(Mul(m.m01 + m.m10, f), 0.5 * root, Mul(m.m21 + m.m12, f)))
    else
      Quat(Mul(m.m10 - m.m01, f), Vec3(Mul(m.m02 + m.m20, f), Mul(m.m12 + m.m21, f), 0.5 * root))
  }

  /** The constructor: the vector part is written through slots indexed by the pivot
      and its two successors. */
  method FromMatrix(rot: Mat3, squareRoot: real) returns (q: Quat)
    requires IsRoot(squareRoot, rot)
    ensures squareRoot != 0.0 && q == Built(rot, squareRoot)
  {
    RadicandAtLeastOne(rot);
    var fTrace := rot.m00 + rot.m11 + rot.m22;
    var fRoot := squareRoot;
    if fTrace > 0.0 {
      var w := 0.5 * fRoot;
      fRoot := HalfOver(fRoot);
      q := Quat(w, Vec3(Mul(rot.m21 - rot.m12, fRoot), Mul(rot.m02 - rot.m20, fRoot), Mul(rot.m10 - rot.m01, fRoot)));
    } else {
      var i := 0;
      if rot.m11 > rot.m00 {
        i := 1;
      }
      if rot.m22 > At(rot, i, i) {
        i := 2;
      }
      var j := NEXT[i];
      var k := NEXT[j];
      var slots := new real[3];
      slots[i] := 0.5 * fRoot;
      fRoot := HalfOver(fRoot);
      var w := Mul(At(rot, k, j) - At(rot, j, k), fRoot);
      slots[j] := Mul(At(rot, j, i) + At(rot, i, j), fRoot);
      slots[k] := Mul(At(rot, k, i) + At(rot, i, k), fRoot);
      q := Quat(w, Vec3(slots[0], slots[1], slots[2]));
    }
  }

  // ---------------------------------------------------------------- round trips

  function NegateQuat(q: Quat): Quat {
    Quat(-q.w, Negate(q.v))
  }

  lemma RotationNegate(q: Quat)
    ensures RotationMatrix(NegateQuat(q)) == RotationMatrix(q)
    ensures IsUnit(NegateQuat(q)) == IsUnit(q)
  {
    var Quat(w, Vec3(x, y, z)) := q;
    TwiceNegate(x, x); TwiceNegate(y, y); TwiceNegate(z, z);
    TwiceNegate(y, x); TwiceNegate(z, x); TwiceNegate(z, y);
    TwiceNegate(x, w); TwiceNegate(y, w); TwiceNegate(z, w);
    SquaresNegate(w, x, y, z);
  }

  lemma TwiceNegate(a: real, b: real)
    ensures Twice(-a, -b) == Twice(a, b)
  {
  }

  lemma SquaresNegate(w: real, x: real, y: real, z: real)
    ensures SumOfSquares(-w, -x, -y, -z) == SumOfSquares(w, x, y, z)
  {
  }

  /** The component the chosen branch divides by. */
  ghost function PivotPart(m: Mat3, q: Quat): real {
    if Trace(m) > 0.0 then q.w
    else if Pivot(m) == 0 then q.v.x
    else if Pivot(m) == 1 then q.v.y
    else q.v.z
  }

  lemma UnitSquares(w: real, x: real, y: real, z: real)
    requires SumOfSquares(w, x, y, z) == 1.0
    ensures Twice(w, w) + Twice(x, x) + Twice(y, y) + Twice(z, z) == 2.0
  {
  }

  lemma RadicandOfRotation(q: Quat, p: real)
    requires IsUnit(q) && p == PivotPart(RotationMatrix(q), q)
    ensures Radicand(RotationMatrix(q)) == 2.0 * Twice(p, p)
  {
    UnitSquares(q.w, q.v.x, q.v.y, q.v.z);
  }

  lemma RootIsTwice(r: real, s: real, p: real)
    requires r >= 1.0 && p >= 0.0 && r * r == s && s == 2.0 * Twice(p, p)
    ensures r == 2.0 * p
  {
    var a, b := r - 2.0 * p, r + 2.0 * p;
    assert a * b == r * r - 4.0 * p * p;
    NoZeroDivisor(a, b);
  }

  lemma NoZeroDivisor(a: real, b: real)
    requires a * b == 0.0 && b > 0.0
    ensures a == 0.0
  {
  }

  /** The root is twice the size of the component the branch divides by. */
  lemma RootOfRotation(q: Quat, root: real, p: real)
    requires IsUnit(q) && IsRoot(root, RotationMatrix(q)) && p == PivotPart(RotationMatrix(q), q)
    ensures root >= 1.0 && root == if p > 0.0 then 2.0 * p else -2.0 * p
  {
    var m := RotationMatrix(q);
    RadicandAtLeastOne(m);
    RadicandOfRotation(q, p);
    RootIsTwiceSize(root, Radicand(m), p);
  }

  lemma RootIsTwiceSize(r: real, s: real, p: real)
    requires r >= 1.0 && r * r == s && s == 2.0 * Twice(p, p)
    ensures r == if p > 0.0 then 2.0 * p else -2.0 * p
  {
    if p > 0.0 {
      RootIsTwice(r, s, p);
    } else {
      TwiceNegate(p, p);
      RootIsTwice(r, s, -p);
    }
  }

  /** (4 p x) * (0.5 / (2 p)) = x. */
  lemma Quarter(p: real, x: real, d: real, r: real)
    requires p != 0.0 && r == 2.0 * p && d == 2.0 * Twice(p, x)
    ensures Mul(d, HalfOver(r)) == x
  {
    var f := HalfOver(r);
    assert f * p == 0.25;
    assert d * f == 4.0 * x * (f * p);
  }

  lemma TwiceCommutes(a: real, b: real)
    ensures Twice(a, b) == Twice(b, a)
  {
  }

  /** The branch recovers a unit quaternion whose pivot component is positive. */
  lemma BuiltFromPositive(q: Quat, r: real)
    requires IsUnit(q) && PivotPart(RotationMatrix(q), q) > 0.0
    requires r == 2.0 * PivotPart(RotationMatrix(q), q)
    ensures Built(RotationMatrix(q), r) == q
  {
    var Quat(w, Vec3(x, y, z)) := q;
    var m := RotationMatrix(q);
    TwiceCommutes(w, x); TwiceCommutes(w, y); TwiceCommutes(w, z);
    TwiceCommutes(x, y); TwiceCommutes(x, z); TwiceCommutes(y, z);
    if Trace(m) > 0.0 {
      Quarter(w, x, m.m21 - m.m12, r); Quarter(w, y, m.m02 - m.m20, r); Quarter(w, z, m.m10 - m.m01, r);
    } else if Pivot(m) == 0 {
      Quarter(x, w, m.m21 - m.m12, r); Quarter(x, y, m.m10 + m.m01, r); Quarter(x, z, m.m20 + m.m02, r);
    } else if Pivot(m) == 1 {
      Quarter(y, w, m.m02 - m.m20, r); Quarter(y, x, m.m01 + m.m10, r); Quarter(y, z, m.m21 + m.m12, r);
    } else {
      Quarter(z, w, m.m10 - m.m01, r); Quarter(z, x, m.m02 + m.m20, r); Quarter(z, y, m.m12 + m.m21, r);
    }
  }

  /** For every unit quaternion, in every branch: the matrix of q converts back to q
      or -q (the one whose pivot component is positive), and that converts to the same
      matrix again. */
  lemma QuaternionRoundTrip(q: Quat, root: real)
    requires IsUnit(q) && IsRoot(root, RotationMatrix(q))
    ensures root >= 1.0
    ensures var m := RotationMatrix(q);
            && Built(m, root) == (if PivotPart(m, q) > 0.0 then q else NegateQuat(q))
            && RotationMatrix(Built(m, root)) == m
  {
    var m := RotationMatrix(q);
    var p := PivotPart(m, q);
    RootOfRotation(q, root, p);
    RotationNegate(q);
    if p > 0.0 {
      BuiltFromPositive(q, root);
    } else {
      assert PivotPart(m, NegateQuat(q)) == -p;
      BuiltFromPositive(NegateQuat(q), root);
    }
  }

  /** Half the root stands in the component the branch works on, for any matrix: the real part
      with a positive trace, and otherwise that of the first largest diagonal entry. */
  lemma PivotPositive(m: Mat3, root: real)
    requires IsRoot(root, m)
    ensures root >= 1.0
    ensures var b, trace := Built(m, root), m.m00 + m.m11 + m.m22;
            && (trace > 0.0 ==> b.w == 0.5 * root)
            && (trace <= 0.0 && m.m00 >= m.m11 && m.m00 >= m.m22 ==> b.v.x == 0.5 * root)
            && (trace <= 0.0 && m.m11 > m.m00 && m.m11 >= m.m22 ==> b.v.y == 0.5 * root)
            && (trace <= 0.0 && m.m22 > m.m00 && m.m22 > m.m11 ==> b.v.z == 0.5 * root)
  {
    RadicandAtLeastOne(m);
  }
}

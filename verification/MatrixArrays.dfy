/** The 4x4 matrices as the arrays they are stored in, filled entry by entry. */
module MatrixArrays {
  import opened Matrix4
  import opened Projective
  import opened Rotation

  function RowAt(m: array2<real>, r: nat): Row
    requires m.Length0 == 4 && m.Length1 == 4 && r < 4
    reads m
  {
    Row(m[r, 0], m[r, 1], m[r, 2], m[r, 3])
  }

  /** The matrix an array holds. */
  function MatrixOf(m: array2<real>): Mat4
    requires m.Length0 == 4 && m.Length1 == 4
    reads m
  {
    Mat4(RowAt(m, 0), RowAt(m, 1), RowAt(m, 2), RowAt(m, 3))
  }

  method FillRow(o: array2<real>, r: nat, x: real, y: real, z: real, w: real)
    requires o.Length0 == 4 && o.Length1 == 4 && r < 4
    modifies o
    ensures RowAt(o, r) == Row(x, y, z, w)
    ensures forall k :: 0 <= k < 4 && k != r ==> RowAt(o, k) == old(RowAt(o, k))
  {
    o[r, 0] := x;
    o[r, 1] := y;
    o[r, 2] := z;
    o[r, 3] := w;
  }

  /** One row of the product, written into the result. */
  method MultiplyRow(m: array2<real>, oth: array2<real>, o: array2<real>, r: nat)
    requires m.Length0 == 4 && m.Length1 == 4 && oth.Length0 == 4 && oth.Length1 == 4
    requires o.Length0 == 4 && o.Length1 == 4 && o != m && o != oth && r < 4
    modifies o
    ensures RowAt(o, r) == RowTimes(RowAt(m, r), MatrixOf(oth))
    ensures forall k :: 0 <= k < 4 && k != r ==> RowAt(o, k) == old(RowAt(o, k))
  {
    hide Dot4;
    FillRow(o, r,
      Dot4(m[r, 0], m[r, 1], m[r, 2], m[r, 3], oth[0, 0], oth[1, 0], oth[2, 0], oth[3, 0]),
      Dot4(m[r, 0], m[r, 1], m[r, 2], m[r, 3], oth[0, 1], oth[1, 1], oth[2, 1], oth[3, 1]),
      Dot4(m[r, 0], m[r, 1], m[r, 2], m[r, 3], oth[0, 2], oth[1, 2], oth[2, 2], oth[3, 2]),
      Dot4(m[r, 0], m[r, 1], m[r, 2], m[r, 3], oth[0, 3], oth[1, 3], oth[2, 3], oth[3, 3]));
  }

  method Multiply(m: array2<real>, oth: array2<real>) returns (o: array2<real>)
    requires m.Length0 == 4 && m.Length1 == 4 && oth.Length0 == 4 && oth.Length1 == 4
    ensures fresh(o) && o.Length0 == 4 && o.Length1 == 4
    ensures MatrixOf(o) == Times(MatrixOf(m), MatrixOf(oth))
  {
    hide RowTimes;
    o := new real[4, 4];
    MultiplyRow(m, oth, o, 0);
    MultiplyRow(m, oth, o, 1);
    MultiplyRow(m, oth, o, 2);
    MultiplyRow(m, oth, o, 3);
  }

  /** The transform that turns and then moves, through the twelve products of the rotation. */
  method FromRigid(p: Vec3, q: Quat) returns (m: array2<real>)
    ensures fresh(m) && m.Length0 == 4 && m.Length1 == 4
    ensures MatrixOf(m) == Rigid(p, q)
  {
    hide Twice;
    var tx, ty, tz := q.v.x, q.v.y, q.v.z;
    var twx, twy, twz := Twice(tx, q.w), Twice(ty, q.w), Twice(tz, q.w);
    var txx, txy, txz := Twice(tx, q.v.x), Twice(ty, q.v.x), Twice(tz, q.v.x);
    var tyy, tyz, tzz := Twice(ty, q.v.y), Twice(tz, q.v.y), Twice(tz, q.v.z);
    m := new real[4, 4];
    FillRow(m, 0, 1.0 - (tyy + tzz), txy - twz, txz + twy, p.x);
    FillRow(m, 1, txy + twz, 1.0 - (txx + tzz), tyz - twx, p.y);
    FillRow(m, 2, txz - twy, tyz + twx, 1.0 - (txx + tyy), p.z);
    FillRow(m, 3, 0.0, 0.0, 0.0, 1.0);
  }
}

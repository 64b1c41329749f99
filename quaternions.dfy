/** Quaternion algebra of the program: `vec4` values `(q[0], q[1], q[2], q[3])`
    with the scalar part first, the Hamilton product, the conjugate used as
    inverse, and the column-major 4x4 matrix handed to OpenGL. */
module Quaternions {

  import opened Vectors

  /** A `vec4` used as a quaternion: `w` is `q[0]`, `x`, `y`, `z` are `q[1..4]`.
      The source's `copy` is assignment of such a value. */
  datatype Quat = Quat(w: real, x: real, y: real, z: real)

  /** The squared norm `q[0]^2 + q[1]^2 + q[2]^2 + q[3]^2`. */
  function NormSq(q: Quat): real {
    q.w * q.w + q.x * q.x + q.y * q.y + q.z * q.z
  }

  /** A rotation: a quaternion of norm one. */
  ghost predicate IsUnit(q: Quat) {
    NormSq(q) == 1.0
  }

  /** `zero`: despite its name it writes the multiplicative identity. */
  function Identity(): Quat {
    Quat(1.0, 0.0, 0.0, 0.0)
  }

  /** `inverse`: the conjugate, a true inverse only for unit quaternions. */
  function Inverse(q: Quat): Quat {
    Quat(q.w, -q.x, -q.y, -q.z)
  }

  /** `multiply`: the Hamilton product `a * b`. */
  function Multiply(a: Quat, b: Quat): Quat {
    Quat(a.w * b.w - a.x * b.x - a.y * b.y - a.z * b.z,
         a.w * b.x + a.x * b.w + a.y * b.z - a.z * b.y,
         a.w * b.y + a.y * b.w + a.z * b.x - a.x * b.z,
         a.w * b.z + a.z * b.w + a.x * b.y - a.y * b.x)
  }

  /** `-q`, which stands for the same rotation as `q`. */
  function Negate(q: Quat): Quat {
    Quat(-q.w, -q.x, -q.y, -q.z)
  }

  /** The pure quaternion `(0, v)` of a vector. */
  function Pure(v: Vec3): Quat {
    Quat(0.0, v.x, v.y, v.z)
  }

  /** The vector part of `q * (0, v) * inverse(q)`: the rotation of `v` by `q`. */
  function Rotate(q: Quat, v: Vec3): Vec3 {
    var r := Multiply(Multiply(q, Pure(v)), Inverse(q));
    Vec3(r.x, r.y, r.z)
  }

  /** Entry `k` of the column-major matrix that `rotationmatrix` writes for the
      quaternion with components `w`, `x`, `y`, `z`. */
  function MatrixEntry(w: real, x: real, y: real, z: real, k: nat): real
    requires k < 16
  {
    if k == 0 then 1.0 - 2.0 * y * y - 2.0 * z * z
    else if k == 1 then 2.0 * x * y + 2.0 * w * z
    else if k == 2 then 2.0 * x * z - 2.0 * w * y
    else if k == 3 then 0.0
    else if k == 4 then 2.0 * x * y - 2.0 * w * z
    else if k == 5 then 1.0 - 2.0 * x * x - 2.0 * z * z
    else if k == 6 then 2.0 * y * z + 2.0 * w * x
    else if k == 7 then 0.0
    else if k == 8 then 2.0 * x * z + 2.0 * w * y
    else if k == 9 then 2.0 * y * z - 2.0 * w * x
    else if k == 10 then 1.0 - 2.0 * x * x - 2.0 * y * y
    else if k == 11 then 0.0
    else if k == 12 then 0.0
    else if k == 13 then 0.0
    else if k == 14 then 0.0
    else 1.0
  }

  /** The 16 entries of `MatrixEntry`, in the order of the float array. */
  function MatrixOf(w: real, x: real, y: real, z: real): (m: seq<real>)
    ensures |m| == 16
  {
    seq(16, k requires 0 <= k < 16 => MatrixEntry(w, x, y, z, k))
  }

  /** `rotationmatrix`: the 4x4 matrix of the rotation `q`, column by column. */
  function RotationMatrix(q: Quat): (m: seq<real>)
    ensures |m| == 16
  {
    MatrixOf(q.w, q.x, q.y, q.z)
  }

  /** Column `j` of the upper-left 3x3 block of a column-major 4x4 matrix. */
  function Column(m: seq<real>, j: nat): Vec3
    requires |m| == 16 && j < 4
  {
    Vec3(m[4 * j], m[4 * j + 1], m[4 * j + 2])
  }

  /** A column-major 4x4 matrix applied to the point `v` (with `w = 1`), ignoring
      the translation column, which `RotationMatrix` leaves zero. */
  function Transform(m: seq<real>, v: Vec3): Vec3
    requires |m| == 16
  {
    Vec3(m[0] * v.x + m[4] * v.y + m[8] * v.z,
         m[1] * v.x + m[5] * v.y + m[9] * v.z,
         m[2] * v.x + m[6] * v.y + m[10] * v.z)
  }

  /** The 4x4 identity, column-major. */
  const IdentityMatrix: seq<real> :=
    [1.0, 0.0, 0.0, 0.0,
     0.0, 1.0, 0.0, 0.0,
     0.0, 0.0, 1.0, 0.0,
     0.0, 0.0, 0.0, 1.0]

  // ---------------------------------------------------------------- algebra
  //
  // The lemmas whose parameters are single components (`ExpandLeftW`,
  // `ComponentsAgreeW`, `ColumnEntries00`, `CrossEntryX` and their siblings)
  // are polynomial steps that hand the solver each component as an atom.
  // The facts about the program are the lemmas on `Quat` values.

  /** Replacing both factors of a product by equal values. The polynomial
      proofs below use it to rewrite inside products one factor at a time. */
  lemma ProductCongruence(p: real, p': real, k: real, k': real)
    requires p == p' && k == k'
    ensures p * k == p' * k'
  {
  }

  /** `zero()` is a two-sided identity of `multiply`. */
  lemma IdentityIsNeutral(q: Quat)
    ensures Multiply(Identity(), q) == q
    ensures Multiply(q, Identity()) == q
  {
  }

  /** `q * inverse(q)` and `inverse(q) * q` both leave only the squared norm. */
  lemma InverseCancels(q: Quat)
    ensures Multiply(q, Inverse(q)) == Quat(NormSq(q), 0.0, 0.0, 0.0)
    ensures Multiply(Inverse(q), q) == Quat(NormSq(q), 0.0, 0.0, 0.0)
  {
  }

  /** On unit quaternions the conjugate is a true two-sided inverse. */
  lemma InverseOfUnit(q: Quat)
    requires IsUnit(q)
    ensures IsUnit(Inverse(q))
    ensures Multiply(q, Inverse(q)) == Identity()
    ensures Multiply(Inverse(q), q) == Identity()
  {
    InverseCancels(q);
  }

  /** Euler's four-square identity: the product of two sums of four squares
      is the sum of the squares of the Hamilton product's components. */
  lemma FourSquareIdentity(pw: real, px: real, py: real, pz: real, qw: real, qx: real, qy: real, qz: real)
    ensures (pw * qw - px * qx - py * qy - pz * qz) * (pw * qw - px * qx - py * qy - pz * qz)
         + (pw * qx + px * qw + py * qz - pz * qy) * (pw * qx + px * qw + py * qz - pz * qy)
         + (pw * qy + py * qw + pz * qx - px * qz) * (pw * qy + py * qw + pz * qx - px * qz)
         + (pw * qz + pz * qw + px * qy - py * qx) * (pw * qz + pz * qw + px * qy - py * qx)
         == (pw * pw + px * px + py * py + pz * pz) * (qw * qw + qx * qx + qy * qy + qz * qz)
  {
  }

  /** The squared norm of the components `rw`, `rx`, `ry`, `rz` of a product. */
  lemma NormOfProductExpanded(pw: real, px: real, py: real, pz: real, qw: real, qx: real, qy: real, qz: real, rw: real, rx: real, ry: real, rz: real)
    requires rw == (pw * qw - px * qx - py * qy - pz * qz) && rx == (pw * qx + px * qw + py * qz - pz * qy)
    requires ry == (pw * qy + py * qw + pz * qx - px * qz) && rz == (pw * qz + pz * qw + px * qy - py * qx)
    ensures rw * rw + rx * rx + ry * ry + rz * rz
         == (pw * qw - px * qx - py * qy - pz * qz) * (pw * qw - px * qx - py * qy - pz * qz)
         + (pw * qx + px * qw + py * qz - pz * qy) * (pw * qx + px * qw + py * qz - pz * qy)
         + (pw * qy + py * qw + pz * qx - px * qz) * (pw * qy + py * qw + pz * qx - px * qz)
         + (pw * qz + pz * qw + px * qy - py * qx) * (pw * qz + pz * qw + px * qy - py * qx)
  {
    ProductCongruence(rw, (pw * qw - px * qx - py * qy - pz * qz), rw, (pw * qw - px * qx - py * qy - pz * qz));
    ProductCongruence(rx, (pw * qx + px * qw + py * qz - pz * qy), rx, (pw * qx + px * qw + py * qz - pz * qy));
    ProductCongruence(ry, (pw * qy + py * qw + pz * qx - px * qz), ry, (pw * qy + py * qw + pz * qx - px * qz));
    ProductCongruence(rz, (pw * qz + pz * qw + px * qy - py * qx), rz, (pw * qz + pz * qw + px * qy - py * qx));
  }

  /** Euler's identity with the two squared norms named `np` and `nq`. */
  lemma FourSquareNamed(pw: real, px: real, py: real, pz: real, qw: real, qx: real, qy: real, qz: real, np: real, nq: real)
    requires np == pw * pw + px * px + py * py + pz * pz
    requires nq == qw * qw + qx * qx + qy * qy + qz * qz
    ensures (pw * qw - px * qx - py * qy - pz * qz) * (pw * qw - px * qx - py * qy - pz * qz)
         + (pw * qx + px * qw + py * qz - pz * qy) * (pw * qx + px * qw + py * qz - pz * qy)
         + (pw * qy + py * qw + pz * qx - px * qz) * (pw * qy + py * qw + pz * qx - px * qz)
         + (pw * qz + pz * qw + px * qy - py * qx) * (pw * qz + pz * qw + px * qy - py * qx)
         == np * nq
  {
    FourSquareIdentity(pw, px, py, pz, qw, qx, qy, qz);
    ProductCongruence(np, pw * pw + px * px + py * py + pz * pz, nq, qw * qw + qx * qx + qy * qy + qz * qz);
  }

  /** The squared norm of the components `r` of `p * q` is the product of the
      squared norms `np` and `nq` of `p` and `q`. */
  lemma NormSquares(pw: real, px: real, py: real, pz: real, qw: real, qx: real, qy: real, qz: real, rw: real, rx: real, ry: real, rz: real, np: real, nq: real)
    requires rw == (pw * qw - px * qx - py * qy - pz * qz) && rx == (pw * qx + px * qw + py * qz - pz * qy)
    requires ry == (pw * qy + py * qw + pz * qx - px * qz) && rz == (pw * qz + pz * qw + px * qy - py * qx)
    requires np == pw * pw + px * px + py * py + pz * pz
    requires nq == qw * qw + qx * qx + qy * qy + qz * qz
    ensures rw * rw + rx * rx + ry * ry + rz * rz == np * nq
  {
    NormOfProductExpanded(pw, px, py, pz, qw, qx, qy, qz, rw, rx, ry, rz);
    FourSquareNamed(pw, px, py, pz, qw, qx, qy, qz, np, nq);
  }

  /** The squared norm is multiplicative: `|a * b|^2 = |a|^2 |b|^2`. */
  lemma NormOfProduct(a: Quat, b: Quat)
    ensures NormSq(Multiply(a, b)) == NormSq(a) * NormSq(b)
  {
    var r := Multiply(a, b);
    ProductComponents(a, b, r);
    NormSquares(a.w, a.x, a.y, a.z, b.w, b.x, b.y, b.z, r.w, r.x, r.y, r.z, NormSq(a), NormSq(b));
  }

  /** The four components of `multiply`, written out. */
  lemma ProductComponents(a: Quat, b: Quat, r: Quat)
    requires r == Multiply(a, b)
    ensures r.w == a.w * b.w - a.x * b.x - a.y * b.y - a.z * b.z
    ensures r.x == a.w * b.x + a.x * b.w + a.y * b.z - a.z * b.y
    ensures r.y == a.w * b.y + a.y * b.w + a.z * b.x - a.x * b.z
    ensures r.z == a.w * b.z + a.z * b.w + a.x * b.y - a.y * b.x
  {
  }

  /** Unit quaternions are closed under `multiply`. */
  lemma MultiplyPreservesUnit(a: Quat, b: Quat)
    requires IsUnit(a) && IsUnit(b)
    ensures IsUnit(Multiply(a, b))
  {
    NormOfProduct(a, b);
  }

  /** Component `w` of `s * r` where `s` holds the components of `p * q`. */
  lemma ExpandLeftW(pw: real, px: real, py: real, pz: real, qw: real, qx: real, qy: real, qz: real, rw: real, rx: real, ry: real, rz: real, sw: real, sx: real, sy: real, sz: real)
    requires sw == (pw * qw - px * qx - py * qy - pz * qz) && sx == (pw * qx + px * qw + py * qz - pz * qy) && sy == (pw * qy + py * qw + pz * qx - px * qz) && sz == (pw * qz + pz * qw + px * qy - py * qx)
    ensures sw * rw
          - sx * rx
          - sy * ry
          - sz * rz
         == (pw * qw - px * qx - py * qy - pz * qz) * rw
          - (pw * qx + px * qw + py * qz - pz * qy) * rx
          - (pw * qy + py * qw + pz * qx - px * qz) * ry
          - (pw * qz + pz * qw + px * qy - py * qx) * rz
  {
    ProductCongruence(sw, (pw * qw - px * qx - py * qy - pz * qz), rw, rw);
    ProductCongruence(sx, (pw * qx + px * qw + py * qz - pz * qy), rx, rx);
    ProductCongruence(sy, (pw * qy + py * qw + pz * qx - px * qz), ry, ry);
    ProductCongruence(sz, (pw * qz + pz * qw + px * qy - py * qx), rz, rz);
  }

  /** Component `w` of `p * t` where `t` holds the components of `q * r`. */
  lemma ExpandRightW(pw: real, px: real, py: real, pz: real, qw: real, qx: real, qy: real, qz: real, rw: real, rx: real, ry: real, rz: real, tw: real, tx: real, ty: real, tz: real)
    requires tw == (qw * rw - qx * rx - qy * ry - qz * rz) && tx == (qw * rx + qx * rw + qy * rz - qz * ry) && ty == (qw * ry + qy * rw + qz * rx - qx * rz) && tz == (qw * rz + qz * rw + qx * ry - qy * rx)
    ensures pw * tw
          - px * tx
          - py * ty
          - pz * tz
         == pw * (qw * rw - qx * rx - qy * ry - qz * rz)
          - px * (qw * rx + qx * rw + qy * rz - qz * ry)
          - py * (qw * ry + qy * rw + qz * rx - qx * rz)
          - pz * (qw * rz + qz * rw + qx * ry - qy * rx)
  {
    ProductCongruence(pw, pw, tw, (qw * rw - qx * rx - qy * ry - qz * rz));
    ProductCongruence(px, px, tx, (qw * rx + qx * rw + qy * rz - qz * ry));
    ProductCongruence(py, py, ty, (qw * ry + qy * rw + qz * rx - qx * rz));
    ProductCongruence(pz, pz, tz, (qw * rz + qz * rw + qx * ry - qy * rx));
  }

  /** The two expansions of component `w` are the same polynomial. */
  lemma ExpandedEqualW(pw: real, px: real, py: real, pz: real, qw: real, qx: real, qy: real, qz: real, rw: real, rx: real, ry: real, rz: real)
    ensures (pw * qw - px * qx - py * qy - pz * qz) * rw
          - (pw * qx + px * qw + py * qz - pz * qy) * rx
          - (pw * qy + py * qw + pz * qx - px * qz) * ry
          - (pw * qz + pz * qw + px * qy - py * qx) * rz
         == pw * (qw * rw - qx * rx - qy * ry - qz * rz)
          - px * (qw * rx + qx * rw + qy * rz - qz * ry)
          - py * (qw * ry + qy * rw + qz * rx - qx * rz)
          - pz * (qw * rz + qz * rw + qx * ry - qy * rx)
  {
  }

  /** Component `x` of `s * r` where `s` holds the components of `p * q`. */
  lemma ExpandLeftX(pw: real, px: real, py: real, pz: real, qw: real, qx: real, qy: real, qz: real, rw: real, rx: real, ry: real, rz: real, sw: real, sx: real, sy: real, sz: real)
    requires sw == (pw * qw - px * qx - py * qy - pz * qz) && sx == (pw * qx + px * qw + py * qz - pz * qy) && sy == (pw * qy + py * qw + pz * qx - px * qz) && sz == (pw * qz + pz * qw + px * qy - py * qx)
    ensures sw * rx
          + sx * rw
          + sy * rz
          - sz * ry
         == (pw * qw - px * qx - py * qy - pz * qz) * rx
          + (pw * qx + px * qw + py * qz - pz * qy) * rw
          + (pw * qy + py * qw + pz * qx - px * qz) * rz
          - (pw * qz + pz * qw + px * qy - py * qx) * ry
  {
    ProductCongruence(sw, (pw * qw - px * qx - py * qy - pz * qz), rx, rx);
    ProductCongruence(sx, (pw * qx + px * qw + py * qz - pz * qy), rw, rw);
    ProductCongruence(sy, (pw * qy + py * qw + pz * qx - px * qz), rz, rz);
    ProductCongruence(sz, (pw * qz + pz * qw + px * qy - py * qx), ry, ry);
  }

  /** Component `x` of `p * t` where `t` holds the components of `q * r`. */
  lemma ExpandRightX(pw: real, px: real, py: real, pz: real, qw: real, qx: real, qy: real, qz: real, rw: real, rx: real, ry: real, rz: real, tw: real, tx: real, ty: real, tz: real)
    requires tw == (qw * rw - qx * rx - qy * ry - qz * rz) && tx == (qw * rx + qx * rw + qy * rz - qz * ry) && ty == (qw * ry + qy * rw + qz * rx - qx * rz) && tz == (qw * rz + qz * rw + qx * ry - qy * rx)
    ensures pw * tx
          + px * tw
          + py * tz
          - pz * ty
         == pw * (qw * rx + qx * rw + qy * rz - qz * ry)
          + px * (qw * rw - qx * rx - qy * ry - qz * rz)
          + py * (qw * rz + qz * rw + qx * ry - qy * rx)
          - pz * (qw * ry + qy * rw + qz * rx - qx * rz)
  {
    ProductCongruence(pw, pw, tx, (qw * rx + qx * rw + qy * rz - qz * ry));
    ProductCongruence(px, px, tw, (qw * rw - qx * rx - qy * ry - qz * rz));
    ProductCongruence(py, py, tz, (qw * rz + qz * rw + qx * ry - qy * rx));
    ProductCongruence(pz, pz, ty, (qw * ry + qy * rw + qz * rx - qx * rz));
  }

  /** The two expansions of component `x` are the same polynomial. */
  lemma ExpandedEqualX(pw: real, px: real, py: real, pz: real, qw: real, qx: real, qy: real, qz: real, rw: real, rx: real, ry: real, rz: real)
    ensures (pw * qw - px * qx - py * qy - pz * qz) * rx
          + (pw * qx + px * qw + py * qz - pz * qy) * rw
          + (pw * qy + py * qw + pz * qx - px * qz) * rz
          - (pw * qz + pz * qw + px * qy - py * qx) * ry
         == pw * (qw * rx + qx * rw + qy * rz - qz * ry)
          + px * (qw * rw - qx * rx - qy * ry - qz * rz)
          + py * (qw * rz + qz * rw + qx * ry - qy * rx)
          - pz * (qw * ry + qy * rw + qz * rx - qx * rz)
  {
  }

  /** Component `y` of `s * r` where `s` holds the components of `p * q`. */
  lemma ExpandLeftY(pw: real, px: real, py: real, pz: real, qw: real, qx: real, qy: real, qz: real, rw: real, rx: real, ry: real, rz: real, sw: real, sx: real, sy: real, sz: real)
    requires sw == (pw * qw - px * qx - py * qy - pz * qz) && sx == (pw * qx + px * qw + py * qz - pz * qy) && sy == (pw * qy + py * qw + pz * qx - px * qz) && sz == (pw * qz + pz * qw + px * qy - py * qx)
    ensures sw * ry
          + sy * rw
          + sz * rx
          - sx * rz
         == (pw * qw - px * qx - py * qy - pz * qz) * ry
          + (pw * qy + py * qw + pz * qx - px * qz) * rw
          + (pw * qz + pz * qw + px * qy - py * qx) * rx
          - (pw * qx + px * qw + py * qz - pz * qy) * rz
  {
    ProductCongruence(sw, (pw * qw - px * qx - py * qy - pz * qz), ry, ry);
    ProductCongruence(sy, (pw * qy + py * qw + pz * qx - px * qz), rw, rw);
    ProductCongruence(sz, (pw * qz + pz * qw + px * qy - py * qx), rx, rx);
    ProductCongruence(sx, (pw * qx + px * qw + py * qz - pz * qy), rz, rz);
  }

  /** Component `y` of `p * t` where `t` holds the components of `q * r`. */
  lemma ExpandRightY(pw: real, px: real, py: real, pz: real, qw: real, qx: real, qy: real, qz: real, rw: real, rx: real, ry: real, rz: real, tw: real, tx: real, ty: real, tz: real)
    requires tw == (qw * rw - qx * rx - qy * ry - qz * rz) && tx == (qw * rx + qx * rw + qy * rz - qz * ry) && ty == (qw * ry + qy * rw + qz * rx - qx * rz) && tz == (qw * rz + qz * rw + qx * ry - qy * rx)
    ensures pw * ty
          + py * tw
          + pz * tx
          - px * tz
         == pw * (qw * ry + qy * rw + qz * rx - qx * rz)
          + py * (qw * rw - qx * rx - qy * ry - qz * rz)
          + pz * (qw * rx + qx * rw + qy * rz - qz * ry)
          - px * (qw * rz + qz * rw + qx * ry - qy * rx)
  {
    ProductCongruence(pw, pw, ty, (qw * ry + qy * rw + qz * rx - qx * rz));
    ProductCongruence(py, py, tw, (qw * rw - qx * rx - qy * ry - qz * rz));
    ProductCongruence(pz, pz, tx, (qw * rx + qx * rw + qy * rz - qz * ry));
    ProductCongruence(px, px, tz, (qw * rz + qz * rw + qx * ry - qy * rx));
  }

  /** The two expansions of component `y` are the same polynomial. */
  lemma ExpandedEqualY(pw: real, px: real, py: real, pz: real, qw: real, qx: real, qy: real, qz: real, rw: real, rx: real, ry: real, rz: real)
    ensures (pw * qw - px * qx - py * qy - pz * qz) * ry
          + (pw * qy + py * qw + pz * qx - px * qz) * rw
          + (pw * qz + pz * qw + px * qy - py * qx) * rx
          - (pw * qx + px * qw + py * qz - pz * qy) * rz
         == pw * (qw * ry + qy * rw + qz * rx - qx * rz)
          + py * (qw * rw - qx * rx - qy * ry - qz * rz)
          + pz * (qw * rx + qx * rw + qy * rz - qz * ry)
          - px * (qw * rz + qz * rw + qx * ry - qy * rx)
  {
  }

  /** Component `z` of `s * r` where `s` holds the components of `p * q`. */
  lemma ExpandLeftZ(pw: real, px: real, py: real, pz: real, qw: real, qx: real, qy: real, qz: real, rw: real, rx: real, ry: real, rz: real, sw: real, sx: real, sy: real, sz: real)
    requires sw == (pw * qw - px * qx - py * qy - pz * qz) && sx == (pw * qx + px * qw + py * qz - pz * qy) && sy == (pw * qy + py * qw + pz * qx - px * qz) && sz == (pw * qz + pz * qw + px * qy - py * qx)
    ensures sw * rz
          + sz * rw
          + sx * ry
          - sy * rx
         == (pw * qw - px * qx - py * qy - pz * qz) * rz
          + (pw * qz + pz * qw + px * qy - py * qx) * rw
          + (pw * qx + px * qw + py * qz - pz * qy) * ry
          - (pw * qy + py * qw + pz * qx - px * qz) * rx
  {
    ProductCongruence(sw, (pw * qw - px * qx - py * qy - pz * qz), rz, rz);
    ProductCongruence(sz, (pw * qz + pz * qw + px * qy - py * qx), rw, rw);
    ProductCongruence(sx, (pw * qx + px * qw + py * qz - pz * qy), ry, ry);
    ProductCongruence(sy, (pw * qy + py * qw + pz * qx - px * qz), rx, rx);
  }

  /** Component `z` of `p * t` where `t` holds the components of `q * r`. */
  lemma ExpandRightZ(pw: real, px: real, py: real, pz: real, qw: real, qx: real, qy: real, qz: real, rw: real, rx: real, ry: real, rz: real, tw: real, tx: real, ty: real, tz: real)
    requires tw == (qw * rw - qx * rx - qy * ry - qz * rz) && tx == (qw * rx + qx * rw + qy * rz - qz * ry) && ty == (qw * ry + qy * rw + qz * rx - qx * rz) && tz == (qw * rz + qz * rw + qx * ry - qy * rx)
    ensures pw * tz
          + pz * tw
          + px * ty
          - py * tx
         == pw * (qw * rz + qz * rw + qx * ry - qy * rx)
          + pz * (qw * rw - qx * rx - qy * ry - qz * rz)
          + px * (qw * ry + qy * rw + qz * rx - qx * rz)
          - py * (qw * rx + qx * rw + qy * rz - qz * ry)
  {
    ProductCongruence(pw, pw, tz, (qw * rz + qz * rw + qx * ry - qy * rx));
    ProductCongruence(pz, pz, tw, (qw * rw - qx * rx - qy * ry - qz * rz));
    ProductCongruence(px, px, ty, (qw * ry + qy * rw + qz * rx - qx * rz));
    ProductCongruence(py, py, tx, (qw * rx + qx * rw + qy * rz - qz * ry));
  }

  /** The two expansions of component `z` are the same polynomial. */
  lemma ExpandedEqualZ(pw: real, px: real, py: real, pz: real, qw: real, qx: real, qy: real, qz: real, rw: real, rx: real, ry: real, rz: real)
    ensures (pw * qw - px * qx - py * qy - pz * qz) * rz
          + (pw * qz + pz * qw + px * qy - py * qx) * rw
          + (pw * qx + px * qw + py * qz - pz * qy) * ry
          - (pw * qy + py * qw + pz * qx - px * qz) * rx
         == pw * (qw * rz + qz * rw + qx * ry - qy * rx)
          + pz * (qw * rw - qx * rx - qy * ry - qz * rz)
          + px * (qw * ry + qy * rw + qz * rx - qx * rz)
          - py * (qw * rx + qx * rw + qy * rz - qz * ry)
  {
  }

  /** Component `w` of `s * r` equals component `w` of `p * t` when `s` holds
      the components of `p * q` and `t` those of `q * r`. */
  lemma ComponentsAgreeW(pw: real, px: real, py: real, pz: real, qw: real, qx: real, qy: real, qz: real, rw: real, rx: real, ry: real, rz: real, sw: real, sx: real, sy: real, sz: real, tw: real, tx: real, ty: real, tz: real)
    requires sw == (pw * qw - px * qx - py * qy - pz * qz) && sx == (pw * qx + px * qw + py * qz - pz * qy) && sy == (pw * qy + py * qw + pz * qx - px * qz) && sz == (pw * qz + pz * qw + px * qy - py * qx)
    requires tw == (qw * rw - qx * rx - qy * ry - qz * rz) && tx == (qw * rx + qx * rw + qy * rz - qz * ry) && ty == (qw * ry + qy * rw + qz * rx - qx * rz) && tz == (qw * rz + qz * rw + qx * ry - qy * rx)
    ensures sw * rw
          - sx * rx
          - sy * ry
          - sz * rz
         == pw * tw
          - px * tx
          - py * ty
          - pz * tz
  {
    ExpandLeftW(pw, px, py, pz, qw, qx, qy, qz, rw, rx, ry, rz, sw, sx, sy, sz);
    ExpandRightW(pw, px, py, pz, qw, qx, qy, qz, rw, rx, ry, rz, tw, tx, ty, tz);
    ExpandedEqualW(pw, px, py, pz, qw, qx, qy, qz, rw, rx, ry, rz);
  }

  /** Component `w` of associativity. */
  lemma AssociativeComponentW(a: Quat, b: Quat, c: Quat)
    ensures Multiply(Multiply(a, b), c).w == Multiply(a, Multiply(b, c)).w
  {
    var ab, bc := Multiply(a, b), Multiply(b, c);
    ProductComponents(a, b, ab);
    ProductComponents(b, c, bc);
    ComponentsAgreeW(a.w, a.x, a.y, a.z, b.w, b.x, b.y, b.z, c.w, c.x, c.y, c.z, ab.w, ab.x, ab.y, ab.z, bc.w, bc.x, bc.y, bc.z);
  }

  /** Component `x` of `s * r` equals component `x` of `p * t` when `s` holds
      the components of `p * q` and `t` those of `q * r`. */
  lemma ComponentsAgreeX(pw: real, px: real, py: real, pz: real, qw: real, qx: real, qy: real, qz: real, rw: real, rx: real, ry: real, rz: real, sw: real, sx: real, sy: real, sz: real, tw: real, tx: real, ty: real, tz: real)
    requires sw == (pw * qw - px * qx - py * qy - pz * qz) && sx == (pw * qx + px * qw + py * qz - pz * qy) && sy == (pw * qy + py * qw + pz * qx - px * qz) && sz == (pw * qz + pz * qw + px * qy - py * qx)
    requires tw == (qw * rw - qx * rx - qy * ry - qz * rz) && tx == (qw * rx + qx * rw + qy * rz - qz * ry) && ty == (qw * ry + qy * rw + qz * rx - qx * rz) && tz == (qw * rz + qz * rw + qx * ry - qy * rx)
    ensures sw * rx
          + sx * rw
          + sy * rz
          - sz * ry
         == pw * tx
          + px * tw
          + py * tz
          - pz * ty
  {
    ExpandLeftX(pw, px, py, pz, qw, qx, qy, qz, rw, rx, ry, rz, sw, sx, sy, sz);
    ExpandRightX(pw, px, py, pz, qw, qx, qy, qz, rw, rx, ry, rz, tw, tx, ty, tz);
    ExpandedEqualX(pw, px, py, pz, qw, qx, qy, qz, rw, rx, ry, rz);
  }

  /** Component `x` of associativity. */
  lemma AssociativeComponentX(a: Quat, b: Quat, c: Quat)
    ensures Multiply(Multiply(a, b), c).x == Multiply(a, Multiply(b, c)).x
  {
    var ab, bc := Multiply(a, b), Multiply(b, c);
    ProductComponents(a, b, ab);
    ProductComponents(b, c, bc);
    ComponentsAgreeX(a.w, a.x, a.y, a.z, b.w, b.x, b.y, b.z, c.w, c.x, c.y, c.z, ab.w, ab.x, ab.y, ab.z, bc.w, bc.x, bc.y, bc.z);
  }

  /** Component `y` of `s * r` equals component `y` of `p * t` when `s` holds
      the components of `p * q` and `t` those of `q * r`. */
  lemma ComponentsAgreeY(pw: real, px: real, py: real, pz: real, qw: real, qx: real, qy: real, qz: real, rw: real, rx: real, ry: real, rz: real, sw: real, sx: real, sy: real, sz: real, tw: real, tx: real, ty: real, tz: real)
    requires sw == (pw * qw - px * qx - py * qy - pz * qz) && sx == (pw * qx + px * qw + py * qz - pz * qy) && sy == (pw * qy + py * qw + pz * qx - px * qz) && sz == (pw * qz + pz * qw + px * qy - py * qx)
    requires tw == (qw * rw - qx * rx - qy * ry - qz * rz) && tx == (qw * rx + qx * rw + qy * rz - qz * ry) && ty == (qw * ry + qy * rw + qz * rx - qx * rz) && tz == (qw * rz + qz * rw + qx * ry - qy * rx)
    ensures sw * ry
          + sy * rw
          + sz * rx
          - sx * rz
         == pw * ty
          + py * tw
          + pz * tx
          - px * tz
  {
    ExpandLeftY(pw, px, py, pz, qw, qx, qy, qz, rw, rx, ry, rz, sw, sx, sy, sz);
    ExpandRightY(pw, px, py, pz, qw, qx, qy, qz, rw, rx, ry, rz, tw, tx, ty, tz);
    ExpandedEqualY(pw, px, py, pz, qw, qx, qy, qz, rw, rx, ry, rz);
  }

  /** Component `y` of associativity. */
  lemma AssociativeComponentY(a: Quat, b: Quat, c: Quat)
    ensures Multiply(Multiply(a, b), c).y == Multiply(a, Multiply(b, c)).y
  {
    var ab, bc := Multiply(a, b), Multiply(b, c);
    ProductComponents(a, b, ab);
    ProductComponents(b, c, bc);
    ComponentsAgreeY(a.w, a.x, a.y, a.z, b.w, b.x, b.y, b.z, c.w, c.x, c.y, c.z, ab.w, ab.x, ab.y, ab.z, bc.w, bc.x, bc.y, bc.z);
  }

  /** Component `z` of `s * r` equals component `z` of `p * t` when `s` holds
      the components of `p * q` and `t` those of `q * r`. */
  lemma ComponentsAgreeZ(pw: real, px: real, py: real, pz: real, qw: real, qx: real, qy: real, qz: real, rw: real, rx: real, ry: real, rz: real, sw: real, sx: real, sy: real, sz: real, tw: real, tx: real, ty: real, tz: real)
    requires sw == (pw * qw - px * qx - py * qy - pz * qz) && sx == (pw * qx + px * qw + py * qz - pz * qy) && sy == (pw * qy + py * qw + pz * qx - px * qz) && sz == (pw * qz + pz * qw + px * qy - py * qx)
    requires tw == (qw * rw - qx * rx - qy * ry - qz * rz) && tx == (qw * rx + qx * rw + qy * rz - qz * ry) && ty == (qw * ry + qy * rw + qz * rx - qx * rz) && tz == (qw * rz + qz * rw + qx * ry - qy * rx)
    ensures sw * rz
          + sz * rw
          + sx * ry
          - sy * rx
         == pw * tz
          + pz * tw
          + px * ty
          - py * tx
  {
    ExpandLeftZ(pw, px, py, pz, qw, qx, qy, qz, rw, rx, ry, rz, sw, sx, sy, sz);
    ExpandRightZ(pw, px, py, pz, qw, qx, qy, qz, rw, rx, ry, rz, tw, tx, ty, tz);
    ExpandedEqualZ(pw, px, py, pz, qw, qx, qy, qz, rw, rx, ry, rz);
  }

  /** Component `z` of associativity. */
  lemma AssociativeComponentZ(a: Quat, b: Quat, c: Quat)
    ensures Multiply(Multiply(a, b), c).z == Multiply(a, Multiply(b, c)).z
  {
    var ab, bc := Multiply(a, b), Multiply(b, c);
    ProductComponents(a, b, ab);
    ProductComponents(b, c, bc);
    ComponentsAgreeZ(a.w, a.x, a.y, a.z, b.w, b.x, b.y, b.z, c.w, c.x, c.y, c.z, ab.w, ab.x, ab.y, ab.z, bc.w, bc.x, bc.y, bc.z);
  }

  /** `multiply` is associative. */
  lemma MultiplyAssociative(a: Quat, b: Quat, c: Quat)
    ensures Multiply(Multiply(a, b), c) == Multiply(a, Multiply(b, c))
  {
    AssociativeComponentW(a, b, c);
    AssociativeComponentX(a, b, c);
    AssociativeComponentY(a, b, c);
    AssociativeComponentZ(a, b, c);
  }

  // ---------------------------------------------------------- rotation matrix

  /** Entries 3, 7, 11, 12, 13 and 14 of `rotationmatrix` are 0 and entry 15 is 1:
      the matrix has no translation and no projective part. */
  lemma RotationMatrixIsLinear(q: Quat)
    ensures var m := RotationMatrix(q);
      m[3] == m[7] == m[11] == m[12] == m[13] == m[14] == 0.0 && m[15] == 1.0
  {
  }

  /** The identity quaternion gives the identity matrix. */
  lemma RotationMatrixOfIdentity()
    ensures RotationMatrix(Identity()) == IdentityMatrix
  {
  }

  /** Every entry is quadratic in the components, so negating all four leaves it unchanged. */
  lemma EntryIgnoresSign(w: real, x: real, y: real, z: real, k: nat)
    requires k < 16
    ensures MatrixEntry(-w, -x, -y, -z, k) == MatrixEntry(w, x, y, z, k)
  {
    assert (-x) * (-x) == x * x && (-y) * (-y) == y * y && (-z) * (-z) == z * z;
    assert (-x) * (-y) == x * y && (-x) * (-z) == x * z && (-y) * (-z) == y * z;
    assert (-w) * (-x) == w * x && (-w) * (-y) == w * y && (-w) * (-z) == w * z;
  }

  /** `q` and `-q` give the same matrix. */
  lemma RotationMatrixIgnoresSign(q: Quat)
    ensures RotationMatrix(Negate(q)) == RotationMatrix(q)
  {
    forall k | 0 <= k < 16
      ensures RotationMatrix(Negate(q))[k] == RotationMatrix(q)[k]
    {
      EntryIgnoresSign(q.w, q.x, q.y, q.z, k);
    }
  }

  /** The nine entries of the rotation block of `MatrixOf`. */
  lemma MatrixEntries(w: real, x: real, y: real, z: real)
    ensures MatrixOf(w, x, y, z)[0] == 1.0 - 2.0 * y * y - 2.0 * z * z
    ensures MatrixOf(w, x, y, z)[1] == 2.0 * x * y + 2.0 * w * z
    ensures MatrixOf(w, x, y, z)[2] == 2.0 * x * z - 2.0 * w * y
    ensures MatrixOf(w, x, y, z)[4] == 2.0 * x * y - 2.0 * w * z
    ensures MatrixOf(w, x, y, z)[5] == 1.0 - 2.0 * x * x - 2.0 * z * z
    ensures MatrixOf(w, x, y, z)[6] == 2.0 * y * z + 2.0 * w * x
    ensures MatrixOf(w, x, y, z)[8] == 2.0 * x * z + 2.0 * w * y
    ensures MatrixOf(w, x, y, z)[9] == 2.0 * y * z - 2.0 * w * x
    ensures MatrixOf(w, x, y, z)[10] == 1.0 - 2.0 * x * x - 2.0 * y * y
  {
  }

  /** The dot product of two columns, entry by entry. */
  lemma DotColumn(m: seq<real>, i: nat, j: nat)
    requires |m| == 16 && i < 4 && j < 4
    ensures Dot(Column(m, i), Column(m, j))
         == m[4 * i] * m[4 * j] + m[4 * i + 1] * m[4 * j + 1] + m[4 * i + 2] * m[4 * j + 2]
  {
  }

  /** Column 0 of the rotation block has length 1, as a polynomial identity. */
  lemma ColumnIdentity00(w: real, x: real, y: real, z: real)
    requires w * w + x * x + y * y + z * z == 1.0
    ensures (1.0 - 2.0 * y * y - 2.0 * z * z) * (1.0 - 2.0 * y * y - 2.0 * z * z)
         + (2.0 * x * y + 2.0 * w * z) * (2.0 * x * y + 2.0 * w * z)
         + (2.0 * x * z - 2.0 * w * y) * (2.0 * x * z - 2.0 * w * y)
         == 1.0
  {
  }

  /** The dot product of columns 0 and 0, with the entries written out. */
  lemma ColumnEntries00(w: real, x: real, y: real, z: real,
                         a: real, b: real, c: real, d: real, e: real, f: real)
    requires a == 1.0 - 2.0 * y * y - 2.0 * z * z && b == 2.0 * x * y + 2.0 * w * z && c == 2.0 * x * z - 2.0 * w * y
    requires d == 1.0 - 2.0 * y * y - 2.0 * z * z && e == 2.0 * x * y + 2.0 * w * z && f == 2.0 * x * z - 2.0 * w * y
    ensures a * d + b * e + c * f
         == (1.0 - 2.0 * y * y - 2.0 * z * z) * (1.0 - 2.0 * y * y - 2.0 * z * z)
         + (2.0 * x * y + 2.0 * w * z) * (2.0 * x * y + 2.0 * w * z)
         + (2.0 * x * z - 2.0 * w * y) * (2.0 * x * z - 2.0 * w * y)
  {
    ProductCongruence(a, (1.0 - 2.0 * y * y - 2.0 * z * z), d, (1.0 - 2.0 * y * y - 2.0 * z * z));
    ProductCongruence(b, (2.0 * x * y + 2.0 * w * z), e, (2.0 * x * y + 2.0 * w * z));
    ProductCongruence(c, (2.0 * x * z - 2.0 * w * y), f, (2.0 * x * z - 2.0 * w * y));
  }

  /** Columns 0 and 0 of the rotation block have dot product 1.0, entry by entry. */
  lemma ColumnUnit00(w: real, x: real, y: real, z: real,
                      a: real, b: real, c: real, d: real, e: real, f: real)
    requires w * w + x * x + y * y + z * z == 1.0
    requires a == 1.0 - 2.0 * y * y - 2.0 * z * z && b == 2.0 * x * y + 2.0 * w * z && c == 2.0 * x * z - 2.0 * w * y
    requires d == 1.0 - 2.0 * y * y - 2.0 * z * z && e == 2.0 * x * y + 2.0 * w * z && f == 2.0 * x * z - 2.0 * w * y
    ensures a * d + b * e + c * f == 1.0
  {
    ColumnEntries00(w, x, y, z, a, b, c, d, e, f);
    ColumnIdentity00(w, x, y, z);
  }

  /** Columns 0 and 0 of `MatrixOf` have dot product 1.0 for a unit quaternion. */
  lemma ColumnDot00(w: real, x: real, y: real, z: real)
    requires w * w + x * x + y * y + z * z == 1.0
    ensures Dot(Column(MatrixOf(w, x, y, z), 0), Column(MatrixOf(w, x, y, z), 0)) == 1.0
  {
    var m := MatrixOf(w, x, y, z);
    MatrixEntries(w, x, y, z);
    DotColumn(m, 0, 0);
    ColumnUnit00(w, x, y, z, m[0], m[1], m[2], m[0], m[1], m[2]);
  }

  /** Column 1 of the rotation block has length 1, as a polynomial identity. */
  lemma ColumnIdentity11(w: real, x: real, y: real, z: real)
    requires w * w + x * x + y * y + z * z == 1.0
    ensures (2.0 * x * y - 2.0 * w * z) * (2.0 * x * y - 2.0 * w * z)
         + (1.0 - 2.0 * x * x - 2.0 * z * z) * (1.0 - 2.0 * x * x - 2.0 * z * z)
         + (2.0 * y * z + 2.0 * w * x) * (2.0 * y * z + 2.0 * w * x)
         == 1.0
  {
  }

  /** The dot product of columns 1 and 1, with the entries written out. */
  lemma ColumnEntries11(w: real, x: real, y: real, z: real,
                         a: real, b: real, c: real, d: real, e: real, f: real)
    requires a == 2.0 * x * y - 2.0 * w * z && b == 1.0 - 2.0 * x * x - 2.0 * z * z && c == 2.0 * y * z + 2.0 * w * x
    requires d == 2.0 * x * y - 2.0 * w * z && e == 1.0 - 2.0 * x * x - 2.0 * z * z && f == 2.0 * y * z + 2.0 * w * x
    ensures a * d + b * e + c * f
         == (2.0 * x * y - 2.0 * w * z) * (2.0 * x * y - 2.0 * w * z)
         + (1.0 - 2.0 * x * x - 2.0 * z * z) * (1.0 - 2.0 * x * x - 2.0 * z * z)
         + (2.0 * y * z + 2.0 * w * x) * (2.0 * y * z + 2.0 * w * x)
  {
    ProductCongruence(a, (2.0 * x * y - 2.0 * w * z), d, (2.0 * x * y - 2.0 * w * z));
    ProductCongruence(b, (1.0 - 2.0 * x * x - 2.0 * z * z), e, (1.0 - 2.0 * x * x - 2.0 * z * z));
    ProductCongruence(c, (2.0 * y * z + 2.0 * w * x), f, (2.0 * y * z + 2.0 * w * x));
  }

  /** Columns 1 and 1 of the rotation block have dot product 1.0, entry by entry. */
  lemma ColumnUnit11(w: real, x: real, y: real, z: real,
                      a: real, b: real, c: real, d: real, e: real, f: real)
    requires w * w + x * x + y * y + z * z == 1.0
    requires a == 2.0 * x * y - 2.0 * w * z && b == 1.0 - 2.0 * x * x - 2.0 * z * z && c == 2.0 * y * z + 2.0 * w * x
    requires d == 2.0 * x * y - 2.0 * w * z && e == 1.0 - 2.0 * x * x - 2.0 * z * z && f == 2.0 * y * z + 2.0 * w * x
    ensures a * d + b * e + c * f == 1.0
  {
    ColumnEntries11(w, x, y, z, a, b, c, d, e, f);
    ColumnIdentity11(w, x, y, z);
  }

  /** Columns 1 and 1 of `MatrixOf` have dot product 1.0 for a unit quaternion. */
  lemma ColumnDot11(w: real, x: real, y: real, z: real)
    requires w * w + x * x + y * y + z * z == 1.0
    ensures Dot(Column(MatrixOf(w, x, y, z), 1), Column(MatrixOf(w, x, y, z), 1)) == 1.0
  {
    var m := MatrixOf(w, x, y, z);
    MatrixEntries(w, x, y, z);
    DotColumn(m, 1, 1);
    ColumnUnit11(w, x, y, z, m[4], m[5], m[6], m[4], m[5], m[6]);
  }

  /** Column 2 of the rotation block has length 1, as a polynomial identity. */
  lemma ColumnIdentity22(w: real, x: real, y: real, z: real)
    requires w * w + x * x + y * y + z * z == 1.0
    ensures (2.0 * x * z + 2.0 * w * y) * (2.0 * x * z + 2.0 * w * y)
         + (2.0 * y * z - 2.0 * w * x) * (2.0 * y * z - 2.0 * w * x)
         + (1.0 - 2.0 * x * x - 2.0 * y * y) * (1.0 - 2.0 * x * x - 2.0 * y * y)
         == 1.0
  {
  }

  /** The dot product of columns 2 and 2, with the entries written out. */
  lemma ColumnEntries22(w: real, x: real, y: real, z: real,
                         a: real, b: real, c: real, d: real, e: real, f: real)
    requires a == 2.0 * x * z + 2.0 * w * y && b == 2.0 * y * z - 2.0 * w * x && c == 1.0 - 2.0 * x * x - 2.0 * y * y
    requires d == 2.0 * x * z + 2.0 * w * y && e == 2.0 * y * z - 2.0 * w * x && f == 1.0 - 2.0 * x * x - 2.0 * y * y
    ensures a * d + b * e + c * f
         == (2.0 * x * z + 2.0 * w * y) * (2.0 * x * z + 2.0 * w * y)
         + (2.0 * y * z - 2.0 * w * x) * (2.0 * y * z - 2.0 * w * x)
         + (1.0 - 2.0 * x * x - 2.0 * y * y) * (1.0 - 2.0 * x * x - 2.0 * y * y)
  {
    ProductCongruence(a, (2.0 * x * z + 2.0 * w * y), d, (2.0 * x * z + 2.0 * w * y));
    ProductCongruence(b, (2.0 * y * z - 2.0 * w * x), e, (2.0 * y * z - 2.0 * w * x));
    ProductCongruence(c, (1.0 - 2.0 * x * x - 2.0 * y * y), f, (1.0 - 2.0 * x * x - 2.0 * y * y));
  }

  /** Columns 2 and 2 of the rotation block have dot product 1.0, entry by entry. */
  lemma ColumnUnit22(w: real, x: real, y: real, z: real,
                      a: real, b: real, c: real, d: real, e: real, f: real)
    requires w * w + x * x + y * y + z * z == 1.0
    requires a == 2.0 * x * z + 2.0 * w * y && b == 2.0 * y * z - 2.0 * w * x && c == 1.0 - 2.0 * x * x - 2.0 * y * y
    requires d == 2.0 * x * z + 2.0 * w * y && e == 2.0 * y * z - 2.0 * w * x && f == 1.0 - 2.0 * x * x - 2.0 * y * y
    ensures a * d + b * e + c * f == 1.0
  {
    ColumnEntries22(w, x, y, z, a, b, c, d, e, f);
    ColumnIdentity22(w, x, y, z);
  }

  /** Columns 2 and 2 of `MatrixOf` have dot product 1.0 for a unit quaternion. */
  lemma ColumnDot22(w: real, x: real, y: real, z: real)
    requires w * w + x * x + y * y + z * z == 1.0
    ensures Dot(Column(MatrixOf(w, x, y, z), 2), Column(MatrixOf(w, x, y, z), 2)) == 1.0
  {
    var m := MatrixOf(w, x, y, z);
    MatrixEntries(w, x, y, z);
    DotColumn(m, 2, 2);
    ColumnUnit22(w, x, y, z, m[8], m[9], m[10], m[8], m[9], m[10]);
  }

  /** Column 0 of the rotation block is perpendicular to column 1, as a polynomial identity. */
  lemma ColumnIdentity01(w: real, x: real, y: real, z: real)
    requires w * w + x * x + y * y + z * z == 1.0
    ensures (1.0 - 2.0 * y * y - 2.0 * z * z) * (2.0 * x * y - 2.0 * w * z)
         + (2.0 * x * y + 2.0 * w * z) * (1.0 - 2.0 * x * x - 2.0 * z * z)
         + (2.0 * x * z - 2.0 * w * y) * (2.0 * y * z + 2.0 * w * x)
         == 0.0
  {
  }

  /** The dot product of columns 0 and 1, with the entries written out. */
  lemma ColumnEntries01(w: real, x: real, y: real, z: real,
                         a: real, b: real, c: real, d: real, e: real, f: real)
    requires a == 1.0 - 2.0 * y * y - 2.0 * z * z && b == 2.0 * x * y + 2.0 * w * z && c == 2.0 * x * z - 2.0 * w * y
    requires d == 2.0 * x * y - 2.0 * w * z && e == 1.0 - 2.0 * x * x - 2.0 * z * z && f == 2.0 * y * z + 2.0 * w * x
    ensures a * d + b * e + c * f
         == (1.0 - 2.0 * y * y - 2.0 * z * z) * (2.0 * x * y - 2.0 * w * z)
         + (2.0 * x * y + 2.0 * w * z) * (1.0 - 2.0 * x * x - 2.0 * z * z)
         + (2.0 * x * z - 2.0 * w * y) * (2.0 * y * z + 2.0 * w * x)
  {
    ProductCongruence(a, (1.0 - 2.0 * y * y - 2.0 * z * z), d, (2.0 * x * y - 2.0 * w * z));
    ProductCongruence(b, (2.0 * x * y + 2.0 * w * z), e, (1.0 - 2.0 * x * x - 2.0 * z * z));
    ProductCongruence(c, (2.0 * x * z - 2.0 * w * y), f, (2.0 * y * z + 2.0 * w * x));
  }

  /** Columns 0 and 1 of the rotation block have dot product 0.0, entry by entry. */
  lemma ColumnUnit01(w: real, x: real, y: real, z: real,
                      a: real, b: real, c: real, d: real, e: real, f: real)
    requires w * w + x * x + y * y + z * z == 1.0
    requires a == 1.0 - 2.0 * y * y - 2.0 * z * z && b == 2.0 * x * y + 2.0 * w * z && c == 2.0 * x * z - 2.0 * w * y
    requires d == 2.0 * x * y - 2.0 * w * z && e == 1.0 - 2.0 * x * x - 2.0 * z * z && f == 2.0 * y * z + 2.0 * w * x
    ensures a * d + b * e + c * f == 0.0
  {
    ColumnEntries01(w, x, y, z, a, b, c, d, e, f);
    ColumnIdentity01(w, x, y, z);
  }

  /** Columns 0 and 1 of `MatrixOf` have dot product 0.0 for a unit quaternion. */
  lemma ColumnDot01(w: real, x: real, y: real, z: real)
    requires w * w + x * x + y * y + z * z == 1.0
    ensures Dot(Column(MatrixOf(w, x, y, z), 0), Column(MatrixOf(w, x, y, z), 1)) == 0.0
  {
    var m := MatrixOf(w, x, y, z);
    MatrixEntries(w, x, y, z);
    DotColumn(m, 0, 1);
    ColumnUnit01(w, x, y, z, m[0], m[1], m[2], m[4], m[5], m[6]);
  }

  /** Column 0 of the rotation block is perpendicular to column 2, as a polynomial identity. */
  lemma ColumnIdentity02(w: real, x: real, y: real, z: real)
    requires w * w + x * x + y * y + z * z == 1.0
    ensures (1.0 - 2.0 * y * y - 2.0 * z * z) * (2.0 * x * z + 2.0 * w * y)
         + (2.0 * x * y + 2.0 * w * z) * (2.0 * y * z - 2.0 * w * x)
         + (2.0 * x * z - 2.0 * w * y) * (1.0 - 2.0 * x * x - 2.0 * y * y)
         == 0.0
  {
  }

  /** The dot product of columns 0 and 2, with the entries written out. */
  lemma ColumnEntries02(w: real, x: real, y: real, z: real,
                         a: real, b: real, c: real, d: real, e: real, f: real)
    requires a == 1.0 - 2.0 * y * y - 2.0 * z * z && b == 2.0 * x * y + 2.0 * w * z && c == 2.0 * x * z - 2.0 * w * y
    requires d == 2.0 * x * z + 2.0 * w * y && e == 2.0 * y * z - 2.0 * w * x && f == 1.0 - 2.0 * x * x - 2.0 * y * y
    ensures a * d + b * e + c * f
         == (1.0 - 2.0 * y * y - 2.0 * z * z) * (2.0 * x * z + 2.0 * w * y)
         + (2.0 * x * y + 2.0 * w * z) * (2.0 * y * z - 2.0 * w * x)
         + (2.0 * x * z - 2.0 * w * y) * (1.0 - 2.0 * x * x - 2.0 * y * y)
  {
    ProductCongruence(a, (1.0 - 2.0 * y * y - 2.0 * z * z), d, (2.0 * x * z + 2.0 * w * y));
    ProductCongruence(b, (2.0 * x * y + 2.0 * w * z), e, (2.0 * y * z - 2.0 * w * x));
    ProductCongruence(c, (2.0 * x * z - 2.0 * w * y), f, (1.0 - 2.0 * x * x - 2.0 * y * y));
  }

  /** Columns 0 and 2 of the rotation block have dot product 0.0, entry by entry. */
  lemma ColumnUnit02(w: real, x: real, y: real, z: real,
                      a: real, b: real, c: real, d: real, e: real, f: real)
    requires w * w + x * x + y * y + z * z == 1.0
    requires a == 1.0 - 2.0 * y * y - 2.0 * z * z && b == 2.0 * x * y + 2.0 * w * z && c == 2.0 * x * z - 2.0 * w * y
    requires d == 2.0 * x * z + 2.0 * w * y && e == 2.0 * y * z - 2.0 * w * x && f == 1.0 - 2.0 * x * x - 2.0 * y * y
    ensures a * d + b * e + c * f == 0.0
  {
    ColumnEntries02(w, x, y, z, a, b, c, d, e, f);
    ColumnIdentity02(w, x, y, z);
  }

  /** Columns 0 and 2 of `MatrixOf` have dot product 0.0 for a unit quaternion. */
  lemma ColumnDot02(w: real, x: real, y: real, z: real)
    requires w * w + x * x + y * y + z * z == 1.0
    ensures Dot(Column(MatrixOf(w, x, y, z), 0), Column(MatrixOf(w, x, y, z), 2)) == 0.0
  {
    var m := MatrixOf(w, x, y, z);
    MatrixEntries(w, x, y, z);
    DotColumn(m, 0, 2);
    ColumnUnit02(w, x, y, z, m[0], m[1], m[2], m[8], m[9], m[10]);
  }

  /** Column 1 of the rotation block is perpendicular to column 2, as a polynomial identity. */
  lemma ColumnIdentity12(w: real, x: real, y: real, z: real)
    requires w * w + x * x + y * y + z * z == 1.0
    ensures (2.0 * x * y - 2.0 * w * z) * (2.0 * x * z + 2.0 * w * y)
         + (1.0 - 2.0 * x * x - 2.0 * z * z) * (2.0 * y * z - 2.0 * w * x)
         + (2.0 * y * z + 2.0 * w * x) * (1.0 - 2.0 * x * x - 2.0 * y * y)
         == 0.0
  {
  }

  /** The dot product of columns 1 and 2, with the entries written out. */
  lemma ColumnEntries12(w: real, x: real, y: real, z: real,
                         a: real, b: real, c: real, d: real, e: real, f: real)
    requires a == 2.0 * x * y - 2.0 * w * z && b == 1.0 - 2.0 * x * x - 2.0 * z * z && c == 2.0 * y * z + 2.0 * w * x
    requires d == 2.0 * x * z + 2.0 * w * y && e == 2.0 * y * z - 2.0 * w * x && f == 1.0 - 2.0 * x * x - 2.0 * y * y
    ensures a * d + b * e + c * f
         == (2.0 * x * y - 2.0 * w * z) * (2.0 * x * z + 2.0 * w * y)
         + (1.0 - 2.0 * x * x - 2.0 * z * z) * (2.0 * y * z - 2.0 * w * x)
         + (2.0 * y * z + 2.0 * w * x) * (1.0 - 2.0 * x * x - 2.0 * y * y)
  {
    ProductCongruence(a, (2.0 * x * y - 2.0 * w * z), d, (2.0 * x * z + 2.0 * w * y));
    ProductCongruence(b, (1.0 - 2.0 * x * x - 2.0 * z * z), e, (2.0 * y * z - 2.0 * w * x));
    ProductCongruence(c, (2.0 * y * z + 2.0 * w * x), f, (1.0 - 2.0 * x * x - 2.0 * y * y));
  }

  /** Columns 1 and 2 of the rotation block have dot product 0.0, entry by entry. */
  lemma ColumnUnit12(w: real, x: real, y: real, z: real,
                      a: real, b: real, c: real, d: real, e: real, f: real)
    requires w * w + x * x + y * y + z * z == 1.0
    requires a == 2.0 * x * y - 2.0 * w * z && b == 1.0 - 2.0 * x * x - 2.0 * z * z && c == 2.0 * y * z + 2.0 * w * x
    requires d == 2.0 * x * z + 2.0 * w * y && e == 2.0 * y * z - 2.0 * w * x && f == 1.0 - 2.0 * x * x - 2.0 * y * y
    ensures a * d + b * e + c * f == 0.0
  {
    ColumnEntries12(w, x, y, z, a, b, c, d, e, f);
    ColumnIdentity12(w, x, y, z);
  }

  /** Columns 1 and 2 of `MatrixOf` have dot product 0.0 for a unit quaternion. */
  lemma ColumnDot12(w: real, x: real, y: real, z: real)
    requires w * w + x * x + y * y + z * z == 1.0
    ensures Dot(Column(MatrixOf(w, x, y, z), 1), Column(MatrixOf(w, x, y, z), 2)) == 0.0
  {
    var m := MatrixOf(w, x, y, z);
    MatrixEntries(w, x, y, z);
    DotColumn(m, 1, 2);
    ColumnUnit12(w, x, y, z, m[4], m[5], m[6], m[8], m[9], m[10]);
  }

  /** For a unit quaternion the upper-left 3x3 block of `rotationmatrix` has
      orthonormal columns: each has length 1 and distinct ones are perpendicular. */
  lemma RotationMatrixOrthonormal(q: Quat)
    requires IsUnit(q)
    ensures forall i, j :: 0 <= i < 3 && 0 <= j < 3 ==>
      Dot(Column(RotationMatrix(q), i), Column(RotationMatrix(q), j)) == if i == j then 1.0 else 0.0
  {
    var m := RotationMatrix(q);
    ColumnDot00(q.w, q.x, q.y, q.z);
    ColumnDot11(q.w, q.x, q.y, q.z);
    ColumnDot22(q.w, q.x, q.y, q.z);
    ColumnDot01(q.w, q.x, q.y, q.z);
    ColumnDot02(q.w, q.x, q.y, q.z);
    ColumnDot12(q.w, q.x, q.y, q.z);
    forall i, j | 0 <= i < 3 && 0 <= j < 3
      ensures Dot(Column(m, i), Column(m, j)) == if i == j then 1.0 else 0.0
    {
      DotSymmetric(Column(m, i), Column(m, j));
    }
  }

  /** The determinant of the upper-left 3x3 block of a column-major 4x4
      matrix, as the triple product of its columns. */
  function Determinant(m: seq<real>): real
    requires |m| == 16
  {
    Dot(Column(m, 0), Cross(Column(m, 1), Column(m, 2)))
  }

  /** A term with a vanishing factor vanishes. */
  lemma VanishingTerm(a: real, d: real)
    requires d == 0.0
    ensures a * d == 0.0
  {
  }

  /** Component `x` of column 1 times column 2, as a polynomial identity: it
      is entry 0 up to a multiple of `|q|^2 - 1`. */
  lemma CrossIdentityX(w: real, x: real, y: real, z: real)
    ensures (1.0 - 2.0 * x * x - 2.0 * z * z) * (1.0 - 2.0 * x * x - 2.0 * y * y)
          - (2.0 * y * z + 2.0 * w * x) * (2.0 * y * z - 2.0 * w * x)
         == (1.0 - 2.0 * y * y - 2.0 * z * z) + 4.0 * x * x * (w * w + x * x + y * y + z * z - 1.0)
  {
  }

  /** Component `y` of column 1 times column 2: entry 1 up to a multiple of
      `|q|^2 - 1`. */
  lemma CrossIdentityY(w: real, x: real, y: real, z: real)
    ensures (2.0 * y * z + 2.0 * w * x) * (2.0 * x * z + 2.0 * w * y)
          - (2.0 * x * y - 2.0 * w * z) * (1.0 - 2.0 * x * x - 2.0 * y * y)
         == (2.0 * x * y + 2.0 * w * z) + 4.0 * x * y * (w * w + x * x + y * y + z * z - 1.0)
  {
  }

  /** Component `z` of column 1 times column 2: entry 2 up to a multiple of
      `|q|^2 - 1`. */
  lemma CrossIdentityZ(w: real, x: real, y: real, z: real)
    ensures (2.0 * x * y - 2.0 * w * z) * (2.0 * y * z - 2.0 * w * x)
          - (1.0 - 2.0 * x * x - 2.0 * z * z) * (2.0 * x * z + 2.0 * w * y)
         == (2.0 * x * z - 2.0 * w * y) + 4.0 * x * z * (w * w + x * x + y * y + z * z - 1.0)
  {
  }

  /** Component `x` of column 1 times column 2 is entry 0, entry by entry. */
  lemma CrossEntryX(w: real, x: real, y: real, z: real, b: real, c: real, e: real, f: real)
    requires w * w + x * x + y * y + z * z == 1.0
    requires b == 1.0 - 2.0 * x * x - 2.0 * z * z && c == 2.0 * y * z + 2.0 * w * x
    requires e == 2.0 * y * z - 2.0 * w * x && f == 1.0 - 2.0 * x * x - 2.0 * y * y
    ensures b * f - c * e == 1.0 - 2.0 * y * y - 2.0 * z * z
  {
    ProductCongruence(b, 1.0 - 2.0 * x * x - 2.0 * z * z, f, 1.0 - 2.0 * x * x - 2.0 * y * y);
    ProductCongruence(c, 2.0 * y * z + 2.0 * w * x, e, 2.0 * y * z - 2.0 * w * x);
    CrossIdentityX(w, x, y, z);
    VanishingTerm(4.0 * x * x, w * w + x * x + y * y + z * z - 1.0);
  }

  /** Component `y` of column 1 times column 2 is entry 1, entry by entry. */
  lemma CrossEntryY(w: real, x: real, y: real, z: real, a: real, c: real, d: real, f: real)
    requires w * w + x * x + y * y + z * z == 1.0
    requires a == 2.0 * x * y - 2.0 * w * z && c == 2.0 * y * z + 2.0 * w * x
    requires d == 2.0 * x * z + 2.0 * w * y && f == 1.0 - 2.0 * x * x - 2.0 * y * y
    ensures c * d - a * f == 2.0 * x * y + 2.0 * w * z
  {
    ProductCongruence(c, 2.0 * y * z + 2.0 * w * x, d, 2.0 * x * z + 2.0 * w * y);
    ProductCongruence(a, 2.0 * x * y - 2.0 * w * z, f, 1.0 - 2.0 * x * x - 2.0 * y * y);
    CrossIdentityY(w, x, y, z);
    VanishingTerm(4.0 * x * y, w * w + x * x + y * y + z * z - 1.0);
  }

  /** Component `z` of column 1 times column 2 is entry 2, entry by entry. */
  lemma CrossEntryZ(w: real, x: real, y: real, z: real, a: real, b: real, d: real, e: real)
    requires w * w + x * x + y * y + z * z == 1.0
    requires a == 2.0 * x * y - 2.0 * w * z && b == 1.0 - 2.0 * x * x - 2.0 * z * z
    requires d == 2.0 * x * z + 2.0 * w * y && e == 2.0 * y * z - 2.0 * w * x
    ensures a * e - b * d == 2.0 * x * z - 2.0 * w * y
  {
    ProductCongruence(a, 2.0 * x * y - 2.0 * w * z, e, 2.0 * y * z - 2.0 * w * x);
    ProductCongruence(b, 1.0 - 2.0 * x * x - 2.0 * z * z, d, 2.0 * x * z + 2.0 * w * y);
    CrossIdentityZ(w, x, y, z);
    VanishingTerm(4.0 * x * z, w * w + x * x + y * y + z * z - 1.0);
  }

  /** Component `x` of column 1 times column 2 of `MatrixOf` is entry 0. */
  lemma CrossOfColumnsX(w: real, x: real, y: real, z: real)
    requires w * w + x * x + y * y + z * z == 1.0
    ensures Cross(Column(MatrixOf(w, x, y, z), 1), Column(MatrixOf(w, x, y, z), 2)).x == MatrixOf(w, x, y, z)[0]
  {
    var m := MatrixOf(w, x, y, z);
    MatrixEntries(w, x, y, z);
    CrossEntryX(w, x, y, z, m[5], m[6], m[9], m[10]);
  }

  /** Component `y` of column 1 times column 2 of `MatrixOf` is entry 1. */
  lemma CrossOfColumnsY(w: real, x: real, y: real, z: real)
    requires w * w + x * x + y * y + z * z == 1.0
    ensures Cross(Column(MatrixOf(w, x, y, z), 1), Column(MatrixOf(w, x, y, z), 2)).y == MatrixOf(w, x, y, z)[1]
  {
    var m := MatrixOf(w, x, y, z);
    MatrixEntries(w, x, y, z);
    CrossEntryY(w, x, y, z, m[4], m[6], m[8], m[10]);
  }

  /** Component `z` of column 1 times column 2 of `MatrixOf` is entry 2. */
  lemma CrossOfColumnsZ(w: real, x: real, y: real, z: real)
    requires w * w + x * x + y * y + z * z == 1.0
    ensures Cross(Column(MatrixOf(w, x, y, z), 1), Column(MatrixOf(w, x, y, z), 2)).z == MatrixOf(w, x, y, z)[2]
  {
    var m := MatrixOf(w, x, y, z);
    MatrixEntries(w, x, y, z);
    CrossEntryZ(w, x, y, z, m[4], m[5], m[8], m[9]);
  }

  /** For a unit quaternion the matrix of `rotationmatrix` is a proper
      rotation and not a reflection: column 1 times column 2 is column 0, so
      the determinant of the upper-left 3x3 block is 1. */
  lemma RotationMatrixIsProper(q: Quat)
    requires IsUnit(q)
    ensures Cross(Column(RotationMatrix(q), 1), Column(RotationMatrix(q), 2)) == Column(RotationMatrix(q), 0)
    ensures Determinant(RotationMatrix(q)) == 1.0
  {
    CrossOfColumnsX(q.w, q.x, q.y, q.z);
    CrossOfColumnsY(q.w, q.x, q.y, q.z);
    CrossOfColumnsZ(q.w, q.x, q.y, q.z);
    ColumnDot00(q.w, q.x, q.y, q.z);
  }

  /** The expansion of component `w` of `q * (0, v) * inverse(q)`, collected by
      the components of `v`. */
  lemma SandwichCollectedW(w: real, x: real, y: real, z: real, vx: real, vy: real, vz: real)
    ensures (w * 0.0 - x * vx - y * vy - z * vz) * w
          - (w * vx + x * 0.0 + y * vz - z * vy) * (-x)
          - (w * vy + y * 0.0 + z * vx - x * vz) * (-y)
          - (w * vz + z * 0.0 + x * vy - y * vx) * (-z)
         == 0.0
  {
  }

  /** Component `w` of `u * inverse(q)`, where `u` holds the components of `q * (0, v)`. */
  lemma SandwichRowW(w: real, x: real, y: real, z: real, vx: real, vy: real, vz: real, uw: real, ux: real, uy: real, uz: real)
    requires uw == (w * 0.0 - x * vx - y * vy - z * vz) && ux == (w * vx + x * 0.0 + y * vz - z * vy) && uy == (w * vy + y * 0.0 + z * vx - x * vz) && uz == (w * vz + z * 0.0 + x * vy - y * vx)
    ensures uw * w
          - ux * (-x)
          - uy * (-y)
          - uz * (-z)
         == 0.0
  {
    ProductCongruence(uw, (w * 0.0 - x * vx - y * vy - z * vz), w, w);
    ProductCongruence(ux, (w * vx + x * 0.0 + y * vz - z * vy), (-x), (-x));
    ProductCongruence(uy, (w * vy + y * 0.0 + z * vx - x * vz), (-y), (-y));
    ProductCongruence(uz, (w * vz + z * 0.0 + x * vy - y * vx), (-z), (-z));
    SandwichCollectedW(w, x, y, z, vx, vy, vz);
  }

  /** The expansion of component `x` of `q * (0, v) * inverse(q)`, collected by
      the components of `v`. */
  lemma SandwichCollectedX(w: real, x: real, y: real, z: real, vx: real, vy: real, vz: real)
    ensures (w * 0.0 - x * vx - y * vy - z * vz) * (-x)
          + (w * vx + x * 0.0 + y * vz - z * vy) * w
          + (w * vy + y * 0.0 + z * vx - x * vz) * (-z)
          - (w * vz + z * 0.0 + x * vy - y * vx) * (-y)
         == (w * w + x * x - y * y - z * z) * vx
           + (2.0 * x * y - 2.0 * w * z) * vy
           + (2.0 * x * z + 2.0 * w * y) * vz
  {
  }

  /** Component `x` of `u * inverse(q)`, where `u` holds the components of `q * (0, v)`. */
  lemma SandwichRowX(w: real, x: real, y: real, z: real, vx: real, vy: real, vz: real, uw: real, ux: real, uy: real, uz: real)
    requires uw == (w * 0.0 - x * vx - y * vy - z * vz) && ux == (w * vx + x * 0.0 + y * vz - z * vy) && uy == (w * vy + y * 0.0 + z * vx - x * vz) && uz == (w * vz + z * 0.0 + x * vy - y * vx)
    ensures uw * (-x)
          + ux * w
          + uy * (-z)
          - uz * (-y)
         == (w * w + x * x - y * y - z * z) * vx
           + (2.0 * x * y - 2.0 * w * z) * vy
           + (2.0 * x * z + 2.0 * w * y) * vz
  {
    ProductCongruence(uw, (w * 0.0 - x * vx - y * vy - z * vz), (-x), (-x));
    ProductCongruence(ux, (w * vx + x * 0.0 + y * vz - z * vy), w, w);
    ProductCongruence(uy, (w * vy + y * 0.0 + z * vx - x * vz), (-z), (-z));
    ProductCongruence(uz, (w * vz + z * 0.0 + x * vy - y * vx), (-y), (-y));
    SandwichCollectedX(w, x, y, z, vx, vy, vz);
  }

  /** The expansion of component `y` of `q * (0, v) * inverse(q)`, collected by
      the components of `v`. */
  lemma SandwichCollectedY(w: real, x: real, y: real, z: real, vx: real, vy: real, vz: real)
    ensures (w * 0.0 - x * vx - y * vy - z * vz) * (-y)
          + (w * vy + y * 0.0 + z * vx - x * vz) * w
          + (w * vz + z * 0.0 + x * vy - y * vx) * (-x)
          - (w * vx + x * 0.0 + y * vz - z * vy) * (-z)
         == (2.0 * x * y + 2.0 * w * z) * vx
           + (w * w - x * x + y * y - z * z) * vy
           + (2.0 * y * z - 2.0 * w * x) * vz
  {
  }

  /** Component `y` of `u * inverse(q)`, where `u` holds the components of `q * (0, v)`. */
  lemma SandwichRowY(w: real, x: real, y: real, z: real, vx: real, vy: real, vz: real, uw: real, ux: real, uy: real, uz: real)
    requires uw == (w * 0.0 - x * vx - y * vy - z * vz) && ux == (w * vx + x * 0.0 + y * vz - z * vy) && uy == (w * vy + y * 0.0 + z * vx - x * vz) && uz == (w * vz + z * 0.0 + x * vy - y * vx)
    ensures uw * (-y)
          + uy * w
          + uz * (-x)
          - ux * (-z)
         == (2.0 * x * y + 2.0 * w * z) * vx
           + (w * w - x * x + y * y - z * z) * vy
           + (2.0 * y * z - 2.0 * w * x) * vz
  {
    ProductCongruence(uw, (w * 0.0 - x * vx - y * vy - z * vz), (-y), (-y));
    ProductCongruence(uy, (w * vy + y * 0.0 + z * vx - x * vz), w, w);
    ProductCongruence(uz, (w * vz + z * 0.0 + x * vy - y * vx), (-x), (-x));
    ProductCongruence(ux, (w * vx + x * 0.0 + y * vz - z * vy), (-z), (-z));
    SandwichCollectedY(w, x, y, z, vx, vy, vz);
  }

  /** The expansion of component `z` of `q * (0, v) * inverse(q)`, collected by
      the components of `v`. */
  lemma SandwichCollectedZ(w: real, x: real, y: real, z: real, vx: real, vy: real, vz: real)
    ensures (w * 0.0 - x * vx - y * vy - z * vz) * (-z)
          + (w * vz + z * 0.0 + x * vy - y * vx) * w
          + (w * vx + x * 0.0 + y * vz - z * vy) * (-y)
          - (w * vy + y * 0.0 + z * vx - x * vz) * (-x)
         == (2.0 * x * z - 2.0 * w * y) * vx
           + (2.0 * y * z + 2.0 * w * x) * vy
           + (w * w - x * x - y * y + z * z) * vz
  {
  }

  /** Component `z` of `u * inverse(q)`, where `u` holds the components of `q * (0, v)`. */
  lemma SandwichRowZ(w: real, x: real, y: real, z: real, vx: real, vy: real, vz: real, uw: real, ux: real, uy: real, uz: real)
    requires uw == (w * 0.0 - x * vx - y * vy - z * vz) && ux == (w * vx + x * 0.0 + y * vz - z * vy) && uy == (w * vy + y * 0.0 + z * vx - x * vz) && uz == (w * vz + z * 0.0 + x * vy - y * vx)
    ensures uw * (-z)
          + uz * w
          + ux * (-y)
          - uy * (-x)
         == (2.0 * x * z - 2.0 * w * y) * vx
           + (2.0 * y * z + 2.0 * w * x) * vy
           + (w * w - x * x - y * y + z * z) * vz
  {
    ProductCongruence(uw, (w * 0.0 - x * vx - y * vy - z * vz), (-z), (-z));
    ProductCongruence(uz, (w * vz + z * 0.0 + x * vy - y * vx), w, w);
    ProductCongruence(ux, (w * vx + x * 0.0 + y * vz - z * vy), (-y), (-y));
    ProductCongruence(uy, (w * vy + y * 0.0 + z * vx - x * vz), (-x), (-x));
    SandwichCollectedZ(w, x, y, z, vx, vy, vz);
  }

  /** The scalar part of `q * (0, v) * inverse(q)` is zero. */
  lemma SandwichScalar(w: real, x: real, y: real, z: real, vx: real, vy: real, vz: real)
    ensures Multiply(Multiply(Quat(w, x, y, z), Quat(0.0, vx, vy, vz)), Quat(w, -x, -y, -z)).w == 0.0
  {
    var u := Multiply(Quat(w, x, y, z), Quat(0.0, vx, vy, vz));
    SandwichRowW(w, x, y, z, vx, vy, vz, u.w, u.x, u.y, u.z);
  }

  /** Row 0 of the matrix applied to `v` agrees with the sandwich on unit quaternions. */
  lemma RowIdentityX(w: real, x: real, y: real, z: real, vx: real, vy: real, vz: real)
    requires w * w + x * x + y * y + z * z == 1.0
    ensures (1.0 - 2.0 * y * y - 2.0 * z * z) * vx
           + (2.0 * x * y - 2.0 * w * z) * vy
           + (2.0 * x * z + 2.0 * w * y) * vz
         == (w * w + x * x - y * y - z * z) * vx
           + (2.0 * x * y - 2.0 * w * z) * vy
           + (2.0 * x * z + 2.0 * w * y) * vz
  {
  }

  /** Row 0 applied to `v`, where `a`, `b`, `c` hold the entries of row 0. */
  lemma TransformRowX(w: real, x: real, y: real, z: real, vx: real, vy: real, vz: real, a: real, b: real, c: real)
    requires w * w + x * x + y * y + z * z == 1.0
    requires a == 1.0 - 2.0 * y * y - 2.0 * z * z && b == 2.0 * x * y - 2.0 * w * z && c == 2.0 * x * z + 2.0 * w * y
    ensures a * vx + b * vy + c * vz
         == (w * w + x * x - y * y - z * z) * vx
           + (2.0 * x * y - 2.0 * w * z) * vy
           + (2.0 * x * z + 2.0 * w * y) * vz
  {
    ProductCongruence(a, 1.0 - 2.0 * y * y - 2.0 * z * z, vx, vx);
    ProductCongruence(b, 2.0 * x * y - 2.0 * w * z, vy, vy);
    ProductCongruence(c, 2.0 * x * z + 2.0 * w * y, vz, vz);
    RowIdentityX(w, x, y, z, vx, vy, vz);
  }

  /** Row 0 of the matrix applied to `v` equals component `x` of the sandwich,
      given the entries `a`, `b`, `c` and the components `u` of `q * (0, v)`. */
  lemma RowAgreesX(w: real, x: real, y: real, z: real, vx: real, vy: real, vz: real, a: real, b: real, c: real, uw: real, ux: real, uy: real, uz: real)
    requires w * w + x * x + y * y + z * z == 1.0
    requires a == 1.0 - 2.0 * y * y - 2.0 * z * z && b == 2.0 * x * y - 2.0 * w * z && c == 2.0 * x * z + 2.0 * w * y
    requires uw == (w * 0.0 - x * vx - y * vy - z * vz) && ux == (w * vx + x * 0.0 + y * vz - z * vy) && uy == (w * vy + y * 0.0 + z * vx - x * vz) && uz == (w * vz + z * 0.0 + x * vy - y * vx)
    ensures a * vx + b * vy + c * vz
         == uw * (-x)
          + ux * w
          + uy * (-z)
          - uz * (-y)
  {
    TransformRowX(w, x, y, z, vx, vy, vz, a, b, c);
    SandwichRowX(w, x, y, z, vx, vy, vz, uw, ux, uy, uz);
  }

  /** Component `x` of `RotationMatrix(q)` applied to `v` is component `x` of
      `q * (0, v) * inverse(q)`. */
  lemma RotatesRowX(w: real, x: real, y: real, z: real, vx: real, vy: real, vz: real)
    requires w * w + x * x + y * y + z * z == 1.0
    ensures Transform(MatrixOf(w, x, y, z), Vec3(vx, vy, vz)).x == Multiply(Multiply(Quat(w, x, y, z), Quat(0.0, vx, vy, vz)), Quat(w, -x, -y, -z)).x
  {
    var u := Multiply(Quat(w, x, y, z), Quat(0.0, vx, vy, vz));
    assert Transform(MatrixOf(w, x, y, z), Vec3(vx, vy, vz)).x
        == MatrixEntry(w, x, y, z, 0) * vx + MatrixEntry(w, x, y, z, 4) * vy + MatrixEntry(w, x, y, z, 8) * vz;
    assert Multiply(u, Quat(w, -x, -y, -z)).x == u.w * (-x) + u.x * w + u.y * (-z) - u.z * (-y);
    RowAgreesX(w, x, y, z, vx, vy, vz, MatrixEntry(w, x, y, z, 0), MatrixEntry(w, x, y, z, 4), MatrixEntry(w, x, y, z, 8), u.w, u.x, u.y, u.z);
  }

  /** Row 1 of the matrix applied to `v` agrees with the sandwich on unit quaternions. */
  lemma RowIdentityY(w: real, x: real, y: real, z: real, vx: real, vy: real, vz: real)
    requires w * w + x * x + y * y + z * z == 1.0
    ensures (2.0 * x * y + 2.0 * w * z) * vx
           + (1.0 - 2.0 * x * x - 2.0 * z * z) * vy
           + (2.0 * y * z - 2.0 * w * x) * vz
         == (2.0 * x * y + 2.0 * w * z) * vx
           + (w * w - x * x + y * y - z * z) * vy
           + (2.0 * y * z - 2.0 * w * x) * vz
  {
  }

  /** Row 1 applied to `v`, where `a`, `b`, `c` hold the entries of row 1. */
  lemma TransformRowY(w: real, x: real, y: real, z: real, vx: real, vy: real, vz: real, a: real, b: real, c: real)
    requires w * w + x * x + y * y + z * z == 1.0
    requires a == 2.0 * x * y + 2.0 * w * z && b == 1.0 - 2.0 * x * x - 2.0 * z * z && c == 2.0 * y * z - 2.0 * w * x
    ensures a * vx + b * vy + c * vz
         == (2.0 * x * y + 2.0 * w * z) * vx
           + (w * w - x * x + y * y - z * z) * vy
           + (2.0 * y * z - 2.0 * w * x) * vz
  {
    ProductCongruence(a, 2.0 * x * y + 2.0 * w * z, vx, vx);
    ProductCongruence(b, 1.0 - 2.0 * x * x - 2.0 * z * z, vy, vy);
    ProductCongruence(c, 2.0 * y * z - 2.0 * w * x, vz, vz);
    RowIdentityY(w, x, y, z, vx, vy, vz);
  }

  /** Row 1 of the matrix applied to `v` equals component `y` of the sandwich,
      given the entries `a`, `b`, `c` and the components `u` of `q * (0, v)`. */
  lemma RowAgreesY(w: real, x: real, y: real, z: real, vx: real, vy: real, vz: real, a: real, b: real, c: real, uw: real, ux: real, uy: real, uz: real)
    requires w * w + x * x + y * y + z * z == 1.0
    requires a == 2.0 * x * y + 2.0 * w * z && b == 1.0 - 2.0 * x * x - 2.0 * z * z && c == 2.0 * y * z - 2.0 * w * x
    requires uw == (w * 0.0 - x * vx - y * vy - z * vz) && ux == (w * vx + x * 0.0 + y * vz - z * vy) && uy == (w * vy + y * 0.0 + z * vx - x * vz) && uz == (w * vz + z * 0.0 + x * vy - y * vx)
    ensures a * vx + b * vy + c * vz
         == uw * (-y)
          + uy * w
          + uz * (-x)
          - ux * (-z)
  {
    TransformRowY(w, x, y, z, vx, vy, vz, a, b, c);
    SandwichRowY(w, x, y, z, vx, vy, vz, uw, ux, uy, uz);
  }

  /** Component `y` of `RotationMatrix(q)` applied to `v` is component `y` of
      `q * (0, v) * inverse(q)`. */
  lemma RotatesRowY(w: real, x: real, y: real, z: real, vx: real, vy: real, vz: real)
    requires w * w + x * x + y * y + z * z == 1.0
    ensures Transform(MatrixOf(w, x, y, z), Vec3(vx, vy, vz)).y == Multiply(Multiply(Quat(w, x, y, z), Quat(0.0, vx, vy, vz)), Quat(w, -x, -y, -z)).y
  {
    var u := Multiply(Quat(w, x, y, z), Quat(0.0, vx, vy, vz));
    assert Transform(MatrixOf(w, x, y, z), Vec3(vx, vy, vz)).y
        == MatrixEntry(w, x, y, z, 1) * vx + MatrixEntry(w, x, y, z, 5) * vy + MatrixEntry(w, x, y, z, 9) * vz;
    assert Multiply(u, Quat(w, -x, -y, -z)).y == u.w * (-y) + u.y * w + u.z * (-x) - u.x * (-z);
    RowAgreesY(w, x, y, z, vx, vy, vz, MatrixEntry(w, x, y, z, 1), MatrixEntry(w, x, y, z, 5), MatrixEntry(w, x, y, z, 9), u.w, u.x, u.y, u.z);
  }

  /** Row 2 of the matrix applied to `v` agrees with the sandwich on unit quaternions. */
  lemma RowIdentityZ(w: real, x: real, y: real, z: real, vx: real, vy: real, vz: real)
    requires w * w + x * x + y * y + z * z == 1.0
    ensures (2.0 * x * z - 2.0 * w * y) * vx
           + (2.0 * y * z + 2.0 * w * x) * vy
           + (1.0 - 2.0 * x * x - 2.0 * y * y) * vz
         == (2.0 * x * z - 2.0 * w * y) * vx
           + (2.0 * y * z + 2.0 * w * x) * vy
           + (w * w - x * x - y * y + z * z) * vz
  {
  }

  /** Row 2 applied to `v`, where `a`, `b`, `c` hold the entries of row 2. */
  lemma TransformRowZ(w: real, x: real, y: real, z: real, vx: real, vy: real, vz: real, a: real, b: real, c: real)
    requires w * w + x * x + y * y + z * z == 1.0
    requires a == 2.0 * x * z - 2.0 * w * y && b == 2.0 * y * z + 2.0 * w * x && c == 1.0 - 2.0 * x * x - 2.0 * y * y
    ensures a * vx + b * vy + c * vz
         == (2.0 * x * z - 2.0 * w * y) * vx
           + (2.0 * y * z + 2.0 * w * x) * vy
           + (w * w - x * x - y * y + z * z) * vz
  {
    ProductCongruence(a, 2.0 * x * z - 2.0 * w * y, vx, vx);
    ProductCongruence(b, 2.0 * y * z + 2.0 * w * x, vy, vy);
    ProductCongruence(c, 1.0 - 2.0 * x * x - 2.0 * y * y, vz, vz);
    RowIdentityZ(w, x, y, z, vx, vy, vz);
  }

  /** Row 2 of the matrix applied to `v` equals component `z` of the sandwich,
      given the entries `a`, `b`, `c` and the components `u` of `q * (0, v)`. */
  lemma RowAgreesZ(w: real, x: real, y: real, z: real, vx: real, vy: real, vz: real, a: real, b: real, c: real, uw: real, ux: real, uy: real, uz: real)
    requires w * w + x * x + y * y + z * z == 1.0
    requires a == 2.0 * x * z - 2.0 * w * y && b == 2.0 * y * z + 2.0 * w * x && c == 1.0 - 2.0 * x * x - 2.0 * y * y
    requires uw == (w * 0.0 - x * vx - y * vy - z * vz) && ux == (w * vx + x * 0.0 + y * vz - z * vy) && uy == (w * vy + y * 0.0 + z * vx - x * vz) && uz == (w * vz + z * 0.0 + x * vy - y * vx)
    ensures a * vx + b * vy + c * vz
         == uw * (-z)
          + uz * w
          + ux * (-y)
          - uy * (-x)
  {
    TransformRowZ(w, x, y, z, vx, vy, vz, a, b, c);
    SandwichRowZ(w, x, y, z, vx, vy, vz, uw, ux, uy, uz);
  }

  /** Component `z` of `RotationMatrix(q)` applied to `v` is component `z` of
      `q * (0, v) * inverse(q)`. */
  lemma RotatesRowZ(w: real, x: real, y: real, z: real, vx: real, vy: real, vz: real)
    requires w * w + x * x + y * y + z * z == 1.0
    ensures Transform(MatrixOf(w, x, y, z), Vec3(vx, vy, vz)).z == Multiply(Multiply(Quat(w, x, y, z), Quat(0.0, vx, vy, vz)), Quat(w, -x, -y, -z)).z
  {
    var u := Multiply(Quat(w, x, y, z), Quat(0.0, vx, vy, vz));
    assert Transform(MatrixOf(w, x, y, z), Vec3(vx, vy, vz)).z
        == MatrixEntry(w, x, y, z, 2) * vx + MatrixEntry(w, x, y, z, 6) * vy + MatrixEntry(w, x, y, z, 10) * vz;
    assert Multiply(u, Quat(w, -x, -y, -z)).z == u.w * (-z) + u.z * w + u.x * (-y) - u.y * (-x);
    RowAgreesZ(w, x, y, z, vx, vy, vz, MatrixEntry(w, x, y, z, 2), MatrixEntry(w, x, y, z, 6), MatrixEntry(w, x, y, z, 10), u.w, u.x, u.y, u.z);
  }

  /** The rotation theorem for a quaternion and a vector given by their components. */
  lemma RotatesComponents(w: real, x: real, y: real, z: real, vx: real, vy: real, vz: real)
    requires w * w + x * x + y * y + z * z == 1.0
    ensures Transform(MatrixOf(w, x, y, z), Vec3(vx, vy, vz)) == Vec3(Multiply(Multiply(Quat(w, x, y, z), Quat(0.0, vx, vy, vz)), Quat(w, -x, -y, -z)).x, Multiply(Multiply(Quat(w, x, y, z), Quat(0.0, vx, vy, vz)), Quat(w, -x, -y, -z)).y, Multiply(Multiply(Quat(w, x, y, z), Quat(0.0, vx, vy, vz)), Quat(w, -x, -y, -z)).z)
    ensures Multiply(Multiply(Quat(w, x, y, z), Quat(0.0, vx, vy, vz)), Quat(w, -x, -y, -z)).w == 0.0
  {
    RotatesRowX(w, x, y, z, vx, vy, vz);
    RotatesRowY(w, x, y, z, vx, vy, vz);
    RotatesRowZ(w, x, y, z, vx, vy, vz);
    SandwichScalar(w, x, y, z, vx, vy, vz);
  }

  /** `RotationMatrix(q)`, applied to a vector as OpenGL applies a column-major
      matrix, rotates it exactly as conjugation by the unit quaternion `q` does;
      and that conjugation maps pure quaternions to pure quaternions. */
  lemma RotationMatrixRotates(q: Quat, v: Vec3)
    requires IsUnit(q)
    ensures Transform(RotationMatrix(q), v) == Rotate(q, v)
    ensures Multiply(Multiply(q, Pure(v)), Inverse(q)) == Pure(Rotate(q, v))
  {
    assert Quat(q.w, q.x, q.y, q.z) == q && Vec3(v.x, v.y, v.z) == v;
    assert Pure(v) == Quat(0.0, v.x, v.y, v.z) && Inverse(q) == Quat(q.w, -q.x, -q.y, -q.z);
    RotatesComponents(q.w, q.x, q.y, q.z, v.x, v.y, v.z);
  }
}

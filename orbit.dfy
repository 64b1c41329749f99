/** The orbit of one entity as `idle` drives it: the angle advanced by one
    tick with its asymmetric wrap-around, and the rotation ("handle") about
    the entity's axis by that angle, built from the half-angle sine and
    cosine. */
module Orbit {

  import opened RealMath
  import opened Vectors
  import opened Quaternions

  /** One tick of `angles[i]`.  An increasing angle gains `2*PI*speed` and
      is reset to `speed` (not to the excess over a full turn) once it reaches
      `2*PI`; a decreasing one loses `2*PI*speed` and is reset to `2*PI` once
      it reaches 0. */
  function Advance(angle: real, positive: bool, speed: real): real {
    if positive then
      var t := angle + TwoPi * speed;
      if t >= TwoPi then speed else t
    else
      var t := angle - TwoPi * speed;
      if t <= 0.0 then TwoPi else t
  }

  /** `k` consecutive ticks. */
  function AdvanceTimes(angle: real, positive: bool, speed: real, k: nat): real {
    if k == 0 then angle else Advance(AdvanceTimes(angle, positive, speed, k - 1), positive, speed)
  }

  /** A step of `2*PI*speed` with `0 < speed` is a positive step. */
  lemma StepPositive(speed: real)
    requires 0.0 < speed
    ensures 0.0 < TwoPi * speed
  {
  }

  /** With a speed in `(0, 2*PI]`, a tick maps an angle of `[0, 2*PI]` into
      `(0, 2*PI]`, whichever way the entity turns. */
  lemma AdvanceInRange(angle: real, positive: bool, speed: real)
    requires 0.0 < speed <= TwoPi
    requires 0.0 <= angle <= TwoPi
    ensures 0.0 < Advance(angle, positive, speed) <= TwoPi
  {
    StepPositive(speed);
  }

  /** With a speed in `[0, 2*PI]`, including the speed 0 that `'['` can
      reach, a tick keeps an angle of `[0, 2*PI]` in that range.  At speed 0
      the angle stands still but for the wrap between 0 and `2*PI`. */
  lemma AdvanceKeepsRange(angle: real, positive: bool, speed: real)
    requires 0.0 <= speed <= TwoPi
    requires 0.0 <= angle <= TwoPi
    ensures 0.0 <= Advance(angle, positive, speed) <= TwoPi
    ensures speed == 0.0 ==> Advance(angle, positive, speed) == (if positive && angle == TwoPi then 0.0 else if !positive && angle == 0.0 then TwoPi else angle)
  {
  }

  /** Starting anywhere in `[0, 2*PI]` (`updateaxes` starts at 0), the angle
      stays in `[0, 2*PI]` forever, and in `(0, 2*PI]` after the first tick. */
  lemma {:induction false} AdvanceTimesInRange(angle: real, positive: bool, speed: real, k: nat)
    requires 0.0 < speed <= TwoPi
    requires 0.0 <= angle <= TwoPi
    ensures 0.0 <= AdvanceTimes(angle, positive, speed, k) <= TwoPi
    ensures 0 < k ==> 0.0 < AdvanceTimes(angle, positive, speed, k)
  {
    if k > 0 {
      AdvanceTimesInRange(angle, positive, speed, k - 1);
      AdvanceInRange(AdvanceTimes(angle, positive, speed, k - 1), positive, speed);
    }
  }

  /** A quaternion `(w, t*u)` whose vector part lies along `u`. */
  function Axial(w: real, t: real, u: Vec3): Quat {
    Quat(w, t * u.x, t * u.y, t * u.z)
  }

  /** The handle `idle` writes for the angle `angle` about `axis`:
      `(cos(angle/2), sin(angle/2) * axis)`. */
  function Handle(angle: real, axis: Vec3, m: Elementary): Quat {
    var half := angle / 2.0;
    Axial(m.cos(half), m.sin(half), axis)
  }

  /** The squared norm of `(w, t*u)` is `w^2 + t^2 |u|^2`. */
  lemma AxialNormSq(w: real, t: real, u: Vec3, n: real)
    requires n == Vectors.NormSq(u)
    ensures Quaternions.NormSq(Axial(w, t, u)) == w * w + t * t * n
  {
  }

  /** About a unit axis the handle is a rotation. */
  lemma HandleIsUnit(angle: real, axis: Vec3, m: Elementary)
    requires m.Lawful() && Vectors.NormSq(axis) == 1.0
    ensures IsUnit(Handle(angle, axis, m))
  {
    var c, s := m.cos(angle / 2.0), m.sin(angle / 2.0);
    AxialNormSq(c, s, axis, Vectors.NormSq(axis));
    assert s * s + c * c == 1.0;
  }

  /** The matrix `rotationmatrix` builds from any quaternion `(w, t*u)`
      leaves `u` where it is: whatever the angle, an entity turned by such
      a quaternion turns about `u`. */
  lemma AxialFixesAxis(w: real, t: real, u: Vec3)
    ensures Transform(RotationMatrix(Axial(w, t, u)), u) == u
  {
    assert Axial(w, t, u) == Quat(w, t * u.x, t * u.y, t * u.z);
    FixesComponentX(w, t, u);
    FixesComponentY(w, t, u);
    FixesComponentZ(w, t, u);
  }

  /** The first component of `AxialFixesAxis`. */
  lemma FixesComponentX(w: real, t: real, u: Vec3)
    ensures Transform(MatrixOf(w, t * u.x, t * u.y, t * u.z), u).x == u.x
  {
    var x, y, z := t * u.x, t * u.y, t * u.z;
    assert Transform(MatrixOf(w, x, y, z), u).x == MatrixEntry(w, x, y, z, 0) * u.x + MatrixEntry(w, x, y, z, 4) * u.y + MatrixEntry(w, x, y, z, 8) * u.z;
    AxisRowX(w, t, u.x, u.y, u.z, MatrixEntry(w, x, y, z, 0), MatrixEntry(w, x, y, z, 4), MatrixEntry(w, x, y, z, 8));
  }

  /** The second component of `AxialFixesAxis`. */
  lemma FixesComponentY(w: real, t: real, u: Vec3)
    ensures Transform(MatrixOf(w, t * u.x, t * u.y, t * u.z), u).y == u.y
  {
    var x, y, z := t * u.x, t * u.y, t * u.z;
    assert Transform(MatrixOf(w, x, y, z), u).y == MatrixEntry(w, x, y, z, 1) * u.x + MatrixEntry(w, x, y, z, 5) * u.y + MatrixEntry(w, x, y, z, 9) * u.z;
    AxisRowY(w, t, u.x, u.y, u.z, MatrixEntry(w, x, y, z, 1), MatrixEntry(w, x, y, z, 5), MatrixEntry(w, x, y, z, 9));
  }

  /** The third component of `AxialFixesAxis`. */
  lemma FixesComponentZ(w: real, t: real, u: Vec3)
    ensures Transform(MatrixOf(w, t * u.x, t * u.y, t * u.z), u).z == u.z
  {
    var x, y, z := t * u.x, t * u.y, t * u.z;
    assert Transform(MatrixOf(w, x, y, z), u).z == MatrixEntry(w, x, y, z, 2) * u.x + MatrixEntry(w, x, y, z, 6) * u.y + MatrixEntry(w, x, y, z, 10) * u.z;
    AxisRowZ(w, t, u.x, u.y, u.z, MatrixEntry(w, x, y, z, 2), MatrixEntry(w, x, y, z, 6), MatrixEntry(w, x, y, z, 10));
  }

  /** Row 0 of the matrix of `(w, t*(a, b, c))` maps `(a, b, c)` to `a`. */
  lemma AxisRowX(w: real, t: real, a: real, b: real, c: real, e0: real, e4: real, e8: real)
    requires e0 == 1.0 - 2.0 * (t * b) * (t * b) - 2.0 * (t * c) * (t * c)
    requires e4 == 2.0 * (t * a) * (t * b) - 2.0 * w * (t * c)
    requires e8 == 2.0 * (t * a) * (t * c) + 2.0 * w * (t * b)
    ensures e0 * a + e4 * b + e8 * c == a
  {
  }

  /** Row 1 of the matrix of `(w, t*(a, b, c))` maps `(a, b, c)` to `b`. */
  lemma AxisRowY(w: real, t: real, a: real, b: real, c: real, e1: real, e5: real, e9: real)
    requires e1 == 2.0 * (t * a) * (t * b) + 2.0 * w * (t * c)
    requires e5 == 1.0 - 2.0 * (t * a) * (t * a) - 2.0 * (t * c) * (t * c)
    requires e9 == 2.0 * (t * b) * (t * c) - 2.0 * w * (t * a)
    ensures e1 * a + e5 * b + e9 * c == b
  {
  }

  /** Row 2 of the matrix of `(w, t*(a, b, c))` maps `(a, b, c)` to `c`. */
  lemma AxisRowZ(w: real, t: real, a: real, b: real, c: real, e2: real, e6: real, e10: real)
    requires e2 == 2.0 * (t * a) * (t * c) - 2.0 * w * (t * b)
    requires e6 == 2.0 * (t * b) * (t * c) + 2.0 * w * (t * a)
    requires e10 == 1.0 - 2.0 * (t * a) * (t * a) - 2.0 * (t * b) * (t * b)
    ensures e2 * a + e6 * b + e10 * c == c
  {
  }

  /** The handle fixes its own axis. */
  lemma HandleFixesAxis(angle: real, axis: Vec3, m: Elementary)
    ensures Transform(RotationMatrix(Handle(angle, axis, m)), axis) == axis
  {
    AxialFixesAxis(m.cos(angle / 2.0), m.sin(angle / 2.0), axis);
  }

  /** Two quaternions along the same unit axis compose, through
      `neworientation`'s `qf * inverse(qi)`, into one along that axis. */
  lemma AxialQuotient(w1: real, t1: real, w2: real, t2: real, u: Vec3)
    requires Vectors.NormSq(u) == 1.0
    ensures Multiply(Axial(w1, t1, u), Inverse(Axial(w2, t2, u))) == Axial(w1 * w2 + t1 * t2, t1 * w2 - w1 * t2, u)
  {
  }
}

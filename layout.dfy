/** Where `updatefilepts` places the entities and which axes `updateaxes`
    gives them: a golden-angle spiral of points on the unit sphere, and per
    entity a unit axis that is either a random direction or tangent to the
    sphere at the entity's point. */
module Layout {

  import opened RealMath
  import opened Vectors

  /** `filepts[i][1] = i*off - 1 + off/2` with `off = 2/nfiles`: the middle
      of the `i`-th of `nfiles` equal bands of `[-1, 1]`. */
  function FilePointY(i: nat, n: nat): real
    requires 0 < n
  {
    var off := 2.0 / (n as real);
    (i as real) * off - 1.0 + off / 2.0
  }

  /** The same height in closed form, `(2i + 1)/nfiles - 1`. */
  lemma FilePointYClosedForm(i: nat, n: nat)
    requires 0 < n
    ensures FilePointY(i, n) == (2.0 * (i as real) + 1.0) / (n as real) - 1.0
  {
    var off := 2.0 / (n as real);
    assert (i as real) * off + off / 2.0 == (2.0 * (i as real) + 1.0) / (n as real);
  }

  /** A quotient of positive reals below twice the divisor lies in `(0, 2)`. */
  lemma QuotientBelowTwo(a: real, b: real)
    requires 0.0 < a < 2.0 * b
    ensures 0.0 < a / b < 2.0
  {
    var q := a / b;
    assert q * b == a;
    assert (q - 2.0) * b == a - 2.0 * b;
    SignOfProduct(q, b);
    SignOfProduct(q - 2.0, b);
  }

  /** With a positive second factor, a product has the sign of the first. */
  lemma SignOfProduct(u: real, b: real)
    requires 0.0 < b
    ensures 0.0 < u * b ==> 0.0 < u
    ensures u * b < 0.0 ==> u < 0.0
  {
    if u <= 0.0 {
      assert u * b <= 0.0;
    }
    if 0.0 <= u {
      assert 0.0 <= u * b;
    }
  }

  /** Every height lies strictly inside `(-1, 1)`, so every radius
      `sqrt(1 - y*y)` is taken of a positive number. */
  lemma FilePointYInRange(i: nat, n: nat)
    requires i < n
    ensures -1.0 < FilePointY(i, n) < 1.0
    ensures 0.0 < 1.0 - FilePointY(i, n) * FilePointY(i, n)
  {
    var y := FilePointY(i, n);
    FilePointYClosedForm(i, n);
    QuotientBelowTwo(2.0 * (i as real) + 1.0, n as real);
    assert 1.0 - y * y == (1.0 - y) * (1.0 + y);
  }

  /** The heights increase with the index. */
  lemma FilePointYIncreasing(i: nat, j: nat, n: nat)
    requires i < j < n
    ensures FilePointY(i, n) < FilePointY(j, n)
  {
    var off := 2.0 / (n as real);
    assert 0.0 < off;
    assert (j as real) * off - (i as real) * off == ((j - i) as real) * off;
  }

  /** `goldenangle = PI*(3 - sqrt(5))`. */
  function GoldenAngle(m: Elementary): real {
    PI * (3.0 - m.sqrt(5.0))
  }

  /** The point `updatefilepts` gives entity `i` of `nfiles`: height
      `FilePointY`, radius `r = sqrt(1 - y*y)` and longitude `i*goldenangle`. */
  function FilePoint(i: nat, n: nat, m: Elementary): Vec3
    requires 0 < n
  {
    var y := FilePointY(i, n);
    var r := m.sqrt(1.0 - y * y);
    var phi := (i as real) * GoldenAngle(m);
    Vec3(r * m.cos(phi), y, r * m.sin(phi))
  }

  /** A point at height `y` on a circle of radius `r` with `r*r = 1 - y*y`
      is on the unit sphere. */
  lemma OnSphere(r: real, c: real, s: real, y: real, rr: real)
    requires rr == r * r && rr == 1.0 - y * y && s * s + c * c == 1.0
    ensures (r * c) * (r * c) + y * y + (r * s) * (r * s) == 1.0
  {
    assert (r * c) * (r * c) + (r * s) * (r * s) == rr * (s * s + c * c);
  }

  /** Every entity is placed on the unit sphere. */
  lemma FilePointOnSphere(i: nat, n: nat, m: Elementary)
    requires m.Lawful() && i < n
    ensures NormSq(FilePoint(i, n, m)) == 1.0
  {
    var y := FilePointY(i, n);
    FilePointYInRange(i, n);
    var r := m.sqrt(1.0 - y * y);
    var phi := (i as real) * GoldenAngle(m);
    OnSphere(r, m.cos(phi), m.sin(phi), y, r * r);
  }

  /** `mag`: the length `sqrt(|v|^2)` of a vector. */
  function Magnitude(v: Vec3, m: Elementary): real {
    m.sqrt(NormSq(v))
  }

  /** The zero vector has length zero, the case `updateaxes` does not guard. */
  lemma MagnitudeOfZero(m: Elementary)
    requires m.Lawful()
    ensures Magnitude(Vec3(0.0, 0.0, 0.0), m) == 0.0
  {
    SqrtUnique(m, 0.0, 0.0);
  }

  /** Every other vector has a positive length, and `mag * mag = |v|^2`. */
  lemma MagnitudePositive(v: Vec3, m: Elementary)
    requires m.Lawful() && v != Vec3(0.0, 0.0, 0.0)
    ensures 0.0 < Magnitude(v, m)
    ensures Magnitude(v, m) * Magnitude(v, m) == NormSq(v)
  {
    NormSqNonNegative(v);
    SqrtPositive(m, NormSq(v));
  }

  /** `v` divided component by component by its length. */
  function Normalize(v: Vec3, m: Elementary): Vec3
    requires Magnitude(v, m) != 0.0
  {
    var mag := Magnitude(v, m);
    Vec3(v.x / mag, v.y / mag, v.z / mag)
  }

  /** Dividing by `mag` scales the squared norm by `1 / mag^2`. */
  lemma NormalizeScaling(v: Vec3, mag: real, mag2: real)
    requires mag != 0.0 && mag2 == mag * mag
    ensures NormSq(Vec3(v.x / mag, v.y / mag, v.z / mag)) * mag2 == NormSq(v)
  {
  }

  /** A normalised vector has length one. */
  lemma NormalizeIsUnit(v: Vec3, m: Elementary)
    requires m.Lawful() && Magnitude(v, m) != 0.0
    ensures NormSq(Normalize(v, m)) == 1.0
  {
    var mag := Magnitude(v, m);
    assert v != Vec3(0.0, 0.0, 0.0) by {
      if v == Vec3(0.0, 0.0, 0.0) {
        MagnitudeOfZero(m);
      }
    }
    MagnitudePositive(v, m);
    NormalizeScaling(v, mag, NormSq(v));
    UnitFactor(NormSq(Normalize(v, m)), NormSq(v));
  }

  /** Scaling the normalised vector back by `mag` gives the vector itself:
      normalising keeps the direction. */
  lemma NormalizeKeepsDirection(v: Vec3, m: Elementary)
    requires Magnitude(v, m) != 0.0
    ensures Scale(Magnitude(v, m), Normalize(v, m)) == v
  {
  }

  /** Normalising keeps a vector orthogonal to whatever it was orthogonal to. */
  lemma NormalizeKeepsOrthogonal(v: Vec3, p: Vec3, m: Elementary)
    requires Magnitude(v, m) != 0.0 && Dot(v, p) == 0.0
    ensures Dot(Normalize(v, m), p) == 0.0
  {
    var mag := Magnitude(v, m);
    assert Dot(Normalize(v, m), p) == Dot(v, p) / mag;
  }

  /** The axis before normalisation: the random draw `d` itself with
      `randaxes` set, otherwise its cross product with the entity's point. */
  function RawAxis(randaxes: bool, p: Vec3, d: Vec3): Vec3 {
    if randaxes then d else Cross(p, d)
  }

  /** `axes[i]` as `updateaxes` leaves it. */
  function Axis(randaxes: bool, p: Vec3, d: Vec3, m: Elementary): Vec3
    requires Magnitude(RawAxis(randaxes, p, d), m) != 0.0
  {
    Normalize(RawAxis(randaxes, p, d), m)
  }

  /** Every axis is a unit vector, so every handle built on it is a rotation. */
  lemma AxisIsUnit(randaxes: bool, p: Vec3, d: Vec3, m: Elementary)
    requires m.Lawful() && Magnitude(RawAxis(randaxes, p, d), m) != 0.0
    ensures NormSq(Axis(randaxes, p, d, m)) == 1.0
  {
    NormalizeIsUnit(RawAxis(randaxes, p, d), m);
  }

  /** Without `randaxes` the axis is orthogonal to the entity's point (and to
      the draw), so the entity orbits along a great circle through its point. */
  lemma TangentAxisOrthogonal(p: Vec3, d: Vec3, m: Elementary)
    requires Magnitude(RawAxis(false, p, d), m) != 0.0
    ensures Dot(Axis(false, p, d, m), p) == 0.0
    ensures Dot(Axis(false, p, d, m), d) == 0.0
  {
    NormalizeKeepsOrthogonal(Cross(p, d), p, m);
    NormalizeKeepsOrthogonal(Cross(p, d), d, m);
  }
}

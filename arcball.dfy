/** `arcball`: the map from a pixel of the window to a point of the unit
    sphere, written as a pure quaternion `(0, x, y, z)`.  The viewport width
    and height, which the source reads from OpenGL, are parameters here. */
module Arcball {

  import opened RealMath
  import opened Quaternions

  /** The pixel column mapped to `[-1, 1]` across the viewport: `2x/w - 1`. */
  function ScreenX(x: int, w: int): real
    requires w != 0
  {
    2.0 * (x as real) / (w as real) - 1.0
  }

  /** The pixel row mapped to `[-1, 1]`, flipped so that up is positive:
      `2(h - y)/h - 1`. */
  function ScreenY(y: int, h: int): real
    requires h != 0
  {
    2.0 * ((h - y) as real) / (h as real) - 1.0
  }

  /** `mag2`: the squared norm of `(0, nx, ny, 0)`. */
  function DiskNormSq(nx: real, ny: real): real {
    nx * nx + ny * ny
  }

  /** `arcball(x, y, q)` for a viewport of `w` by `h` pixels: the screen point
      `(ScreenX, ScreenY)` lifted onto the sphere. */
  function Project(x: int, y: int, w: int, h: int, m: Elementary): (q: Quat)
    requires w != 0 && h != 0 && m.Lawful()
    ensures q.w == 0.0 && 0.0 <= q.z
    ensures IsUnit(q)
    ensures var nx, ny := ScreenX(x, w), ScreenY(y, h);
      DiskNormSq(nx, ny) <= 1.0 ==> q.x == nx && q.y == ny
    ensures var nx, ny := ScreenX(x, w), ScreenY(y, h);
      1.0 < DiskNormSq(nx, ny) ==> q.z == 0.0 && nx * q.y == ny * q.x && 0.0 < nx * q.x + ny * q.y
  {
    Lift(ScreenX(x, w), ScreenY(y, h), m)
  }

  /** The second half of `arcball`, on the screen point `(nx, ny)`.  A point
      inside the unit disk is lifted onto the front hemisphere; a point outside
      it is pulled back radially onto the rim.  Either way the result is a pure
      unit quaternion with non-negative depth. */
  function Lift(nx: real, ny: real, m: Elementary): (q: Quat)
    requires m.Lawful()
    ensures q.w == 0.0 && 0.0 <= q.z
    ensures IsUnit(q)
    ensures DiskNormSq(nx, ny) <= 1.0 ==> q.x == nx && q.y == ny
    ensures 1.0 < DiskNormSq(nx, ny) ==> q.z == 0.0 && nx * q.y == ny * q.x && 0.0 < nx * q.x + ny * q.y
  {
    var mag2 := DiskNormSq(nx, ny);
    var mag := m.sqrt(mag2);
    if mag2 > 1.0 then
      SqrtPositive(m, mag2);
      RimIsUnit(nx, ny, mag, mag2);
      PureNormSq(nx / mag, ny / mag, 0.0);
      Quat(0.0, nx / mag, ny / mag, 0.0)
    else
      var depth := m.sqrt(1.0 - mag2);
      DepthIsUnit(nx, ny, mag2, depth);
      PureNormSq(nx, ny, depth);
      Quat(0.0, nx, ny, depth)
  }

  /** The squared norm of a pure quaternion `(0, a, b, c)`. */
  lemma PureNormSq(a: real, b: real, c: real)
    ensures NormSq(Quat(0.0, a, b, c)) == DiskNormSq(a, b) + c * c
  {
  }

  /** A point of the disk with the depth `sqrt(1 - mag2)` is on the unit sphere. */
  lemma DepthIsUnit(nx: real, ny: real, mag2: real, depth: real)
    requires mag2 == DiskNormSq(nx, ny) && depth * depth == 1.0 - mag2
    ensures DiskNormSq(nx, ny) + depth * depth == 1.0
  {
  }

  /** Dividing by `mag` scales the squared norm of a point by `1 / mag2`. */
  lemma RimScaling(nx: real, ny: real, mag: real, mag2: real)
    requires mag != 0.0 && mag2 == mag * mag
    ensures DiskNormSq(nx / mag, ny / mag) * mag2 == DiskNormSq(nx, ny)
  {
  }

  /** Dividing a point of norm `mag > 1` by `mag` puts it on the unit circle,
      in the same direction. */
  lemma RimIsUnit(nx: real, ny: real, mag: real, mag2: real)
    requires 0.0 < mag && 1.0 < mag2 && mag2 == DiskNormSq(nx, ny) && mag * mag == mag2
    ensures DiskNormSq(nx / mag, ny / mag) == 1.0
    ensures nx * (ny / mag) == ny * (nx / mag)
    ensures 0.0 < nx * (nx / mag) + ny * (ny / mag)
  {
    RimScaling(nx, ny, mag, mag2);
    UnitFactor(DiskNormSq(nx / mag, ny / mag), mag2);
    assert nx * (nx / mag) + ny * (ny / mag) == DiskNormSq(nx / mag, ny / mag) * mag;
  }

  /** The centre of the viewport maps to the pole `(0, 0, 0, 1)`, facing the viewer. */
  lemma ProjectCentre(x: int, y: int, w: int, h: int, m: Elementary)
    requires w != 0 && h != 0 && m.Lawful()
    requires 2 * x == w && 2 * y == h
    ensures Project(x, y, w, h, m) == Quat(0.0, 0.0, 0.0, 1.0)
  {
    assert ScreenX(x, w) == 0.0 by {
      assert 2.0 * (x as real) == w as real;
    }
    assert ScreenY(y, h) == 0.0 by {
      assert 2.0 * ((h - y) as real) == h as real;
    }
    SqrtUnique(m, 1.0, 1.0);
  }

  /** A point inside the disk keeps its screen position and gets the depth
      `sqrt(1 - mag2)`, the only non-negative one that makes the norm 1. */
  lemma ProjectInside(x: int, y: int, w: int, h: int, m: Elementary)
    requires w != 0 && h != 0 && m.Lawful()
    requires DiskNormSq(ScreenX(x, w), ScreenY(y, h)) <= 1.0
    ensures var q := Project(x, y, w, h, m);
      q.z == m.sqrt(1.0 - DiskNormSq(ScreenX(x, w), ScreenY(y, h)))
  {
    var q := Project(x, y, w, h, m);
    var nx, ny := ScreenX(x, w), ScreenY(y, h);
    assert q.z * q.z == 1.0 - DiskNormSq(nx, ny);
    SqrtUnique(m, 1.0 - DiskNormSq(nx, ny), q.z);
  }

  /** A point outside the disk lands on the rim: depth 0, and `x` and `y`
      divided by `mag = sqrt(mag2)`. */
  lemma ProjectOutside(x: int, y: int, w: int, h: int, m: Elementary)
    requires w != 0 && h != 0 && m.Lawful()
    requires 1.0 < DiskNormSq(ScreenX(x, w), ScreenY(y, h))
    ensures var q := Project(x, y, w, h, m);
      var nx, ny := ScreenX(x, w), ScreenY(y, h);
      var mag := m.sqrt(DiskNormSq(nx, ny));
      q.z == 0.0 && q.x * mag == nx && q.y * mag == ny
  {
    var q := Project(x, y, w, h, m);
    var nx, ny := ScreenX(x, w), ScreenY(y, h);
    SqrtPositive(m, DiskNormSq(nx, ny));
  }
}

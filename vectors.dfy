/** The program's `vec3`: three floats, used for anchor positions and orbit axes. */
module Vectors {

  import RealMath

  datatype Vec3 = Vec3(x: real, y: real, z: real)

  function Dot(a: Vec3, b: Vec3): real {
    a.x * b.x + a.y * b.y + a.z * b.z
  }

  lemma DotSymmetric(a: Vec3, b: Vec3)
    ensures Dot(a, b) == Dot(b, a)
  {
  }

  function NormSq(a: Vec3): real {
    Dot(a, a)
  }

  function Scale(k: real, a: Vec3): Vec3 {
    Vec3(k * a.x, k * a.y, k * a.z)
  }

  /** The cross product as `updateaxes` spells it out component by component. */
  function Cross(a: Vec3, b: Vec3): (c: Vec3)
    ensures Dot(c, a) == 0.0 && Dot(c, b) == 0.0
  {
    Vec3(a.y * b.z - a.z * b.y, a.z * b.x - a.x * b.z, a.x * b.y - a.y * b.x)
  }

  lemma NormSqNonNegative(a: Vec3)
    ensures 0.0 <= NormSq(a)
    ensures NormSq(a) == 0.0 <==> a == Vec3(0.0, 0.0, 0.0)
  {
    RealMath.SquareNonNegative(a.x);
    RealMath.SquareNonNegative(a.y);
    RealMath.SquareNonNegative(a.z);
    if NormSq(a) == 0.0 {
      RealMath.SumOfSquaresZero(a.x, a.y, a.z);
    }
  }
}

/** `neworientation`: the one rule by which both the camera and every entity
    turn a drag (from `qi` to `qf`) into an orientation, applied on top of the
    orientation `old` (here `prev`) reached before the drag. */
module Orientation {

  import opened Quaternions

  /** `neworientation(qi, qf, prev, r)` writes `(qf * inverse(qi)) * prev` into `r`. */
  function NewOrientation(qi: Quat, qf: Quat, prev: Quat): Quat {
    Multiply(Multiply(qf, Inverse(qi)), prev)
  }

  /** A drag that ends where it began leaves the orientation as it was. */
  lemma NewOrientationOfEmptyDrag(q: Quat, prev: Quat)
    requires IsUnit(q)
    ensures NewOrientation(q, q, prev) == prev
  {
    InverseOfUnit(q);
    IdentityIsNeutral(prev);
  }

  /** The identity drag (both ends `zero()`) keeps any orientation, unit or not. */
  lemma NewOrientationOfIdentity(prev: Quat)
    ensures NewOrientation(Identity(), Identity(), prev) == prev
  {
    IdentityIsNeutral(prev);
  }

  /** Folding a drag from `a` to `b` and then one from `b` to `c` is the same
      as folding the single drag from `a` to `c`. */
  lemma NewOrientationChains(a: Quat, b: Quat, c: Quat, prev: Quat)
    requires IsUnit(b)
    ensures NewOrientation(b, c, NewOrientation(a, b, prev)) == NewOrientation(a, c, prev)
  {
    var cb, ba := Multiply(c, Inverse(b)), Multiply(b, Inverse(a));
    calc {
      NewOrientation(b, c, NewOrientation(a, b, prev));
      Multiply(cb, Multiply(ba, prev));
      { MultiplyAssociative(cb, ba, prev); }
      Multiply(Multiply(cb, ba), prev);
      { MultiplyAssociative(c, Inverse(b), ba);
        MultiplyAssociative(Inverse(b), b, Inverse(a));
        InverseOfUnit(b);
        IdentityIsNeutral(Inverse(a)); }
      Multiply(Multiply(c, Inverse(a)), prev);
    }
  }

  /** Composing rotations gives a rotation: unit inputs give a unit result. */
  lemma NewOrientationPreservesUnit(qi: Quat, qf: Quat, prev: Quat)
    requires IsUnit(qi) && IsUnit(qf) && IsUnit(prev)
    ensures IsUnit(NewOrientation(qi, qf, prev))
  {
    InverseOfUnit(qi);
    MultiplyPreservesUnit(qf, Inverse(qi));
    MultiplyPreservesUnit(Multiply(qf, Inverse(qi)), prev);
  }

  /** The components of a `vec4` array, read as a quaternion. */
  function ReadQuat(s: seq<real>): Quat
    requires |s| == 4
  {
    Quat(s[0], s[1], s[2], s[3])
  }

  /** The components a quaternion is stored as in a `vec4` array. */
  function Components(q: Quat): (s: seq<real>)
    ensures |s| == 4 && ReadQuat(s) == q
  {
    [q.w, q.x, q.y, q.z]
  }

  /** `neworientation` on the `vec4` arrays themselves.  The source computes
      into temporaries and copies into `r` last, so `r` may be the same array
      as `prev` (as in the mouse-up case) or as `qi` or `qf`: the result is the
      rule applied to the arguments' values before the call. */
  method NewOrientationInPlace(qi: array<real>, qf: array<real>, prev: array<real>, r: array<real>)
    requires qi.Length == 4 && qf.Length == 4 && prev.Length == 4 && r.Length == 4
    modifies r
    ensures r[..] == Components(NewOrientation(ReadQuat(old(qi[..])), ReadQuat(old(qf[..])), ReadQuat(old(prev[..]))))
  {
    var qiinv := Inverse(ReadQuat(qi[..]));
    var qfqiinv := Multiply(ReadQuat(qf[..]), qiinv);
    var qfqiinvold := Multiply(qfqiinv, ReadQuat(prev[..]));
    r[0], r[1], r[2], r[3] := qfqiinvold.w, qfqiinvold.x, qfqiinvold.y, qfqiinvold.z;
    assert r[..] == Components(qfqiinvold);
  }
}

/** The four quaternions of one drag gesture, `qclick`, `qdrag`, `qlast` and
    `rlast`, and the three ways the program changes them.  The camera keeps
    one such gesture (the globals of the same names) and every entity keeps
    one (the parallel arrays `qclicks`, `qdrags`, `qlasts` and `rlasts`): the
    orbit tick drives the entities through the same press and drag steps
    that the mouse drives the camera through. */
module Gestures {

  import opened Quaternions
  import opened Orientation

  datatype Gesture = Gesture(qclick: Quat, qdrag: Quat, qlast: Quat, rlast: Quat)

  /** All four quaternions `zero()`: the initial values of the camera globals
      and what `updateaxes` gives every entity. */
  function Rest(): Gesture {
    Gesture(Identity(), Identity(), Identity(), Identity())
  }

  /** The four quaternions are rotations. */
  ghost predicate Valid(g: Gesture) {
    IsUnit(g.qclick) && IsUnit(g.qdrag) && IsUnit(g.qlast) && IsUnit(g.rlast)
  }

  /** The orientation `display` draws with:
      `neworientation(qclick, qdrag, rlast, q)`. */
  function Shown(g: Gesture): Quat {
    NewOrientation(g.qclick, g.qdrag, g.rlast)
  }

  /** A press at the arcball point `p`: `qlast` is set to `p` and copied into
      `qdrag` and `qclick`; `rlast` stays. */
  function Grab(g: Gesture, p: Quat): Gesture {
    Gesture(p, p, p, g.rlast)
  }

  /** A motion to the arcball point `p`: the previous `qdrag` is copied into
      `qlast` and `qdrag` becomes `p`. */
  function Drag(g: Gesture, p: Quat): Gesture {
    g.(qlast := g.qdrag, qdrag := p)
  }

  /** A release: the drag is folded into `rlast` (written in place over its
      own input) and `qdrag` and `qclick` are reset to `zero()`. */
  function Release(g: Gesture): Gesture {
    Gesture(Identity(), Identity(), g.qlast, NewOrientation(g.qclick, g.qdrag, g.rlast))
  }

  /** At rest every quaternion is a rotation. */
  lemma RestIsValid()
    ensures Valid(Rest())
  {
  }

  /** At rest the orientation shown is the identity. */
  lemma RestShowsIdentity()
    ensures Shown(Rest()) == Identity()
  {
    NewOrientationOfIdentity(Identity());
  }

  /** Right after a press, what is shown is exactly `rlast`: grabbing the
      sphere does not turn it. */
  lemma GrabShowsRlast(g: Gesture, p: Quat)
    requires IsUnit(p)
    ensures Shown(Grab(g, p)) == g.rlast
  {
    NewOrientationOfEmptyDrag(p, g.rlast);
  }

  /** A release does not change what is shown: the drag is moved from
      `qclick`/`qdrag` into `rlast` without loss. */
  lemma ReleaseKeepsShown(g: Gesture)
    ensures Shown(Release(g)) == Shown(g)
  {
    NewOrientationOfIdentity(Shown(g));
  }

  /** A second release with no press in between changes nothing. */
  lemma ReleaseIdempotent(g: Gesture)
    ensures Release(Release(g)) == Release(g)
  {
    ReleaseKeepsShown(g);
  }

  /** Each motion event turns what is shown by the rotation carrying the
      previous drag point (now `qlast`) to the new one: the shown orientation
      is updated incrementally, as `neworientation(qlast, qdrag, ...)`. */
  lemma DragTurnsShown(g: Gesture, p: Quat)
    requires IsUnit(g.qdrag)
    ensures Drag(g, p).qlast == g.qdrag && Drag(g, p).qdrag == p
    ensures Shown(Drag(g, p)) == NewOrientation(g.qdrag, p, Shown(g))
  {
    NewOrientationChains(g.qclick, g.qdrag, p, g.rlast);
  }

  /** A press followed by a release with no motion leaves `rlast` as it was. */
  lemma ClickKeepsRlast(g: Gesture, p: Quat)
    requires IsUnit(p)
    ensures Release(Grab(g, p)).rlast == g.rlast
  {
    NewOrientationOfEmptyDrag(p, g.rlast);
  }

  /** While the gesture is valid what is shown is a rotation. */
  lemma ShownIsRotation(g: Gesture)
    requires Valid(g)
    ensures IsUnit(Shown(g))
  {
    NewOrientationPreservesUnit(g.qclick, g.qdrag, g.rlast);
  }

  /** Releasing keeps all four quaternions rotations (pressing at, or
      dragging to, a point of the arcball plainly does). */
  lemma ReleasePreservesValid(g: Gesture)
    requires Valid(g)
    ensures Valid(Release(g))
  {
    ShownIsRotation(g);
  }
}

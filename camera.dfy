/** The camera: the globals `qclick`, `qdrag`, `qlast` and `rlast`, held here
    as one `Gesture`, which `mouse` and `motion` update and from which
    `display` derives the orientation of the whole scene. */
module CameraControl {

  import opened RealMath
  import opened Quaternions
  import opened Orientation
  import opened Arcball
  import opened Gestures

  /** GLUT's button-state codes as `mouse` receives them. */
  const GLUT_DOWN: int := 0
  const GLUT_UP: int := 1

  class Camera {
    /** `qclick`, `qdrag`, `qlast` and `rlast`. */
    var gesture: Gesture

    /** The program starts with all four set to `{1, 0, 0, 0}`. */
    constructor ()
      ensures gesture == Rest()
      ensures Valid(gesture)
    {
      gesture := Rest();
      RestIsValid();
    }

    /** The orientation `display` applies to the scene before the entities. */
    function Displayed(): Quat
      reads this
    {
      Shown(gesture)
    }

    /** `mouse(button, state, x, y)` in a `w` by `h` viewport.  A press grabs
        the arcball point under the cursor as the start of a drag; a release
        folds the drag into `rlast` and resets the drag to the identity; any
        other state changes nothing.  The button is not consulted.  What the
        press and the release do to the displayed orientation is stated on
        the gesture: `GrabShowsRlast` and `ReleaseKeepsShown`. */
    method Mouse(button: int, state: int, x: int, y: int, w: int, h: int, m: Elementary)
      requires state == GLUT_DOWN ==> w != 0 && h != 0 && m.Lawful()
      requires Valid(gesture)
      modifies this
      ensures Valid(gesture)
      ensures state == GLUT_DOWN ==> gesture == Grab(old(gesture), Project(x, y, w, h, m))
      ensures state == GLUT_UP ==> gesture == Release(old(gesture))
      ensures state != GLUT_DOWN && state != GLUT_UP ==> gesture == old(gesture)
    {
      if state == GLUT_DOWN {
        var p := Project(x, y, w, h, m);
        gesture := Grab(gesture, p);
      } else if state == GLUT_UP {
        ReleasePreservesValid(gesture);
        gesture := Release(gesture);
      }
    }

    /** `motion(x, y)`: the previous drag point moves to `qlast` and the drag
        follows the cursor; the start of the drag and `rlast` stay, and what
        is displayed turns by the rotation from `qlast` to the new `qdrag`. */
    method Motion(x: int, y: int, w: int, h: int, m: Elementary)
      requires w != 0 && h != 0 && m.Lawful()
      requires Valid(gesture)
      modifies this
      ensures Valid(gesture)
      ensures gesture == Drag(old(gesture), Project(x, y, w, h, m))
      ensures Displayed() == NewOrientation(gesture.qlast, gesture.qdrag, old(Displayed()))
    {
      var p := Project(x, y, w, h, m);
      DragTurnsShown(gesture, p);
      gesture := Drag(gesture, p);
    }
  }
}

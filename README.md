# fileatom: orientation and orbit core

`fileatom` shows the entries of a directory as small objects spread over a
sphere. The user turns the whole scene with an arcball drag. On request every
entry also orbits about its own axis. This project models the part of
`fileatom.cpp` that computes those orientations and positions:

- the quaternion algebra: `zero`, `inverse`, `copy`, `multiply` and
  `rotationmatrix`;
- `neworientation`, the rule `(qf * inverse(qi)) * old`. The camera and every
  entry use it, and mouse-up calls it with its output array aliasing its
  `old` argument;
- `arcball`. The viewport width `w` and height `h` are parameters here,
  instead of being read from OpenGL;
- the camera gesture driven by `mouse` and `motion`, and the orientation that
  `display` derives from it;
- the orbit tick `idle`, including its quirk with the single `firstframe`
  flag;
- the layout functions `updatefilepts` and `updateaxes`, and the keys `'o'`,
  `'n'`, `'r'`, `'j'` and `'k'`.

Floats are modelled as exact reals. `PI` is the real `3.14159265`.

`sqrt`, `sin` and `cos` are inputs. A value of type `RealMath.Elementary`
bundles three functions. Its `Lawful()` predicate holds the only facts the
proofs use:

- a square root is non-negative;
- a square root squares back to its argument;
- `sin² + cos² = 1`.

The random draws of `updateaxes` are inputs too, as sequences: one vector
and one coin per entry.

## Structure

- **Gestures.** The camera's four globals `qclick`, `qdrag`, `qlast` and
  `rlast`, and the per-entry arrays `qclicks`, `qdrags`, `qlasts` and
  `rlasts`, are grouped into one value `Gestures.Gesture` per owner.
  The camera holds one. The scene holds an `array<Gesture>` in place of the
  four parallel arrays.
- **Transitions.** A gesture changes in three ways, written as pure functions:
  - `Grab`: mouse-down, and the first tick of entry 0;
  - `Drag`: motion, and every other tick of an orbiting entry;
  - `Release`: mouse-up.

  `Shown` is what `display` passes to `rotationmatrix`.
- **Camera** (`CameraControl.Camera`). A class with one field. `Mouse` and
  `Motion` state the new gesture in terms of the transitions. The facts about
  what is displayed are lemmas on the transitions (module `Gestures`).
- **Scene** (`SceneState.Scene`). A class whose arrays `posangle`, `angles`,
  `filepts`, `axes` and `gestures` are updated in place. `UpdateFilePts`,
  `UpdateAxes`, `Idle` and `Keyboard` are methods with loop invariants. Their
  postconditions tie the new array contents to the pure functions of modules
  `Layout`, `Orbit` and `Selection`.

The `firstframe` quirk is reproduced as written. `idle` clears the one flag
inside its loop, at entry 0. So on the first tick after `updateaxes`:

- only entry 0 is pressed at its handle;
- every other entry is dragged from identity.

Both outcomes still turn each entry about its own axis:
`SceneState.EntityZeroTurnsAboutAxis`, `SceneState.DragFromIdentityShowsHandle`
and `Orbit.HandleFixesAxis`. So the quirk is not listed as a defect.

`idle` resets a decreasing angle to exactly `2π` (fileatom.cpp:372), so
after a tick with a positive speed every angle lies in `(0, 2π]`. The `'['`
key can bring `speed` down to 0; then an angle stands still, and the range
kept is `[0, 2π]`.

## Model

| member | source | states |
|---|---|---|
| Vectors.Cross | fileatom.cpp:182-184 | the tangential axis `filepts[i] × v` is orthogonal to both `filepts[i]` and `v` |
| Quaternions.IdentityIsNeutral | fileatom.cpp:235-238 | `zero()` is a left and a right identity of `multiply` |
| Quaternions.InverseCancels | fileatom.cpp:240-245 | `q * inverse(q)` and `inverse(q) * q` are both `(|q|², 0, 0, 0)` |
| Quaternions.InverseOfUnit | fileatom.cpp:240-245 | on a unit quaternion, `inverse` gives a unit two-sided inverse |
| Quaternions.NormOfProduct | fileatom.cpp:254-259 | the squared norm of a Hamilton product is the product of the squared norms |
| Quaternions.MultiplyPreservesUnit | fileatom.cpp:254-259 | the product of two unit quaternions is a unit quaternion |
| Quaternions.MultiplyAssociative | fileatom.cpp:254-259 | `multiply` is associative |
| Quaternions.RotationMatrixIsLinear | fileatom.cpp:261-278 | entries 3, 7, 11, 12, 13 and 14 are 0 and entry 15 is 1 |
| Quaternions.RotationMatrixOfIdentity | fileatom.cpp:261-278 | the identity quaternion gives the 4x4 identity matrix |
| Quaternions.RotationMatrixIgnoresSign | fileatom.cpp:261-278 | `q` and `-q` give the same matrix |
| Quaternions.RotationMatrixOrthonormal | fileatom.cpp:261-278 | for unit `q` the columns of the upper-left 3x3 block are orthonormal |
| Quaternions.RotationMatrixIsProper | fileatom.cpp:261-278 | for unit `q` column 1 times column 2 is column 0, so the block has determinant 1: a rotation, not a reflection |
| Quaternions.RotationMatrixRotates | fileatom.cpp:261-278 | for unit `q` the matrix maps `v` to the vector part of `q * (0, v) * inverse(q)`, and that product is pure |
| Orientation.NewOrientationOfEmptyDrag | fileatom.cpp:280-286 | a drag from a unit `q` back to `q` leaves `old` unchanged |
| Orientation.NewOrientationOfIdentity | fileatom.cpp:280-286 | a drag from `zero()` to `zero()` leaves any `old` unchanged |
| Orientation.NewOrientationChains | fileatom.cpp:280-286 | a drag `a→b` followed by a drag `b→c` is the drag `a→c`, when `b` is unit |
| Orientation.NewOrientationPreservesUnit | fileatom.cpp:280-286 | unit inputs give a unit result |
| Orientation.NewOrientationInPlace | fileatom.cpp:280-286 | on `vec4` arrays, `r` receives the rule applied to the values the arguments held before the call, even when `r` is `old` (the mouse-up call) |
| Arcball.Project | fileatom.cpp:216-233 | the result has scalar part 0, non-negative depth and norm 1. Inside the unit disk it keeps the screen point; outside it lies on the rim (depth 0) in the screen point's direction |
| Arcball.Lift | fileatom.cpp:227-232 | the same facts for a given screen point `(nx, ny)` |
| Arcball.ProjectCentre | fileatom.cpp:223-232 | the viewport centre (`2x = w`, `2y = h`) maps to `(0, 0, 0, 1)` |
| Arcball.ProjectInside | fileatom.cpp:232 | inside the disk the depth is `sqrt(1 - mag2)` |
| Arcball.ProjectOutside | fileatom.cpp:229-231 | outside the disk the depth is 0 and `x`, `y` are the screen point divided by `mag = sqrt(mag2)` |
| Gestures.RestIsValid | fileatom.cpp:48-51 | the initial gesture, all four quaternions `{1, 0, 0, 0}`, consists of rotations |
| Gestures.RestShowsIdentity | fileatom.cpp:459 | at rest the displayed orientation is the identity |
| Gestures.GrabShowsRlast | fileatom.cpp:338-342 | right after mouse-down at a unit point, the displayed orientation is `rlast` |
| Gestures.ReleaseKeepsShown | fileatom.cpp:343-347 | the displayed orientation is the same just before and just after mouse-up |
| Gestures.ReleaseIdempotent | fileatom.cpp:343-347 | a second mouse-up with no press in between changes nothing |
| Gestures.DragTurnsShown | fileatom.cpp:353-357 | motion moves the old `qdrag` into `qlast` and sets `qdrag`; the displayed orientation turns by `neworientation(qlast, qdrag, ·)` of the previous one |
| Gestures.ClickKeepsRlast | fileatom.cpp:336-347 | a press and a release with no motion leave `rlast` unchanged |
| Gestures.ShownIsRotation | fileatom.cpp:459 | while all four quaternions are rotations, the displayed orientation is one |
| Gestures.ReleasePreservesValid | fileatom.cpp:343-347 | mouse-up keeps all four quaternions rotations |
| CameraControl.Camera.constructor | fileatom.cpp:48-51 | the camera starts with all four quaternions `{1, 0, 0, 0}` |
| CameraControl.Camera.Mouse | fileatom.cpp:336-351 | `GLUT_DOWN` sets `qclick = qdrag = qlast = arcball(x, y)` and keeps `rlast`; `GLUT_UP` folds the drag into `rlast` and resets `qclick`, `qdrag` to `zero()`; any other state changes nothing; all four stay rotations |
| CameraControl.Camera.Motion | fileatom.cpp:353-357 | `qlast` takes the old `qdrag` and `qdrag` takes `arcball(x, y)`; the displayed orientation turns by the rotation from `qlast` to `qdrag`; all four stay rotations |
| Layout.FilePointYClosedForm | fileatom.cpp:205-207 | `filepts[i][1] = (2i + 1)/nfiles - 1` |
| Layout.FilePointYInRange | fileatom.cpp:207-208 | every height lies strictly in `(-1, 1)`, so `1 - y²` is positive |
| Layout.FilePointYIncreasing | fileatom.cpp:207 | the heights increase strictly with the index |
| Layout.FilePointOnSphere | fileatom.cpp:204-211 | every entry is placed on the unit sphere |
| Layout.MagnitudeOfZero | fileatom.cpp:186-187 | the zero vector has magnitude 0 |
| Layout.MagnitudePositive | fileatom.cpp:186-187 | a nonzero vector has positive magnitude `mag` with `mag² = |v|²` |
| Layout.NormalizeIsUnit | fileatom.cpp:188-190 | dividing by a nonzero magnitude gives a unit vector |
| Layout.NormalizeKeepsDirection | fileatom.cpp:188-190 | the normalised vector scaled by `mag` is the original vector |
| Layout.NormalizeKeepsOrthogonal | fileatom.cpp:188-190 | normalising keeps orthogonality to any vector |
| Layout.AxisIsUnit | fileatom.cpp:174-190 | every axis `updateaxes` writes is a unit vector, in both modes |
| Layout.TangentAxisOrthogonal | fileatom.cpp:178-190 | without `randaxes` the axis is orthogonal to the entry's point and to the draw |
| Orbit.AdvanceInRange | fileatom.cpp:367-373 | with `0 < speed ≤ 2π`, one tick maps an angle of `[0, 2π]` into `(0, 2π]` in both directions |
| Orbit.AdvanceKeepsRange | fileatom.cpp:367-373 | with `0 ≤ speed ≤ 2π`, one tick keeps an angle of `[0, 2π]` in that range; at speed 0 it only wraps between 0 and `2π` |
| Orbit.AdvanceTimesInRange | fileatom.cpp:367-373 | any number of ticks keeps the angle in `[0, 2π]`, and in `(0, 2π]` after the first |
| Orbit.HandleIsUnit | fileatom.cpp:374-389 | about a unit axis, the handle `(cos(a/2), sin(a/2)·axis)` is a rotation |
| Orbit.AxialFixesAxis | fileatom.cpp:261-278 | the matrix of any quaternion `(w, t·u)` leaves `u` fixed |
| Orbit.HandleFixesAxis | fileatom.cpp:374-389 | the handle's matrix leaves the entry's axis fixed |
| Orbit.AxialQuotient | fileatom.cpp:471 | `qf * inverse(qi)` of two quaternions along one unit axis lies along that axis |
| Selection.NextIsSuccessor | fileatom.cpp:427-428 | `'j'` on a selection in range is `(s + 1) mod nfiles` |
| Selection.PrevIsPredecessor | fileatom.cpp:429-430 | `'k'` on a selection in range is `(s - 1) mod nfiles` |
| Selection.PrevUndoesNext | fileatom.cpp:427-430 | `'k'` undoes `'j'`, and `'j'` undoes `'k'` |
| Selection.NextTimesModular | fileatom.cpp:427-428 | `k` presses of `'j'` give `(s + k) mod nfiles` |
| Selection.FullCycle | fileatom.cpp:427-428 | `nfiles` presses of `'j'` return to the starting entry |
| SceneState.IdleStepValid | fileatom.cpp:376-390 | a tick with a unit handle keeps an entry's four quaternions rotations |
| SceneState.FirstTickShowsEntityZeroAtRest | fileatom.cpp:376-383 | on the first tick after `updateaxes`, entry 0 is pressed at its handle and shown with the identity orientation |
| SceneState.DragFromIdentityShowsHandle | fileatom.cpp:384-390 | an entry whose `qclicks[i]` and `rlasts[i]` are identity is shown turned by its current handle |
| SceneState.EntityZeroTurnsAboutAxis | fileatom.cpp:471-473 | entry 0, pressed at one handle and dragged to another, is shown turning about its own axis |
| SceneState.Scene.constructor | fileatom.cpp:43-59 | the arrays are newly allocated with `nfiles` entries; `orbit` and `randaxes` are false, `speed` is 0.002 and `selfile` is 0; then `updatefilepts` runs |
| SceneState.Scene.UpdateFilePts | fileatom.cpp:201-214 | every `filepts[i]` is the golden-spiral point of entry `i`, and then everything `UpdateAxes` states holds |
| SceneState.Scene.UpdateAxes | fileatom.cpp:168-199 | `firstframe` is set. For every entry: the axis is the normalised draw or cross product; the angle is 0; all four quaternions are `zero()`; the direction is the coin `<= 0.5`. All axes are unit, and no entry but the first is pressed |
| SceneState.Scene.Idle | fileatom.cpp:362-393 | without `orbit` nothing changes. Otherwise every angle advances one tick, and the gesture of entry `i` is pressed at the new handle if `i = 0` and `firstframe` was set, dragged to it otherwise. `firstframe` ends cleared whenever there is an entry; `rlasts` is never written. With `0 ≤ speed ≤ 2π`, unit axes, rotations and angles in `[0, 2π]` are kept. Every entry but the first stays unpressed and is shown turned by its current handle |
| SceneState.Scene.Keyboard | fileatom.cpp:395-438 | `'o'` toggles `orbit`; `']'` adds 0.001 to `speed` and `'['` takes 0.001 off a positive `speed`; `'n'` runs `updateaxes`; `'r'` toggles `randaxes` and runs `updateaxes`; `'j'` and `'k'` move `selfile` forward and back with wrap-around; every other key outside `'a'`, `'f'`, `'d'`, `'g'` and `'q'` leaves the modelled state unchanged |
| SceneState.SpeedKeysStayOnGrid | fileatom.cpp:414-415 | from a whole number of steps of 0.001, any sequence of `'['` and `']'` presses leads to a whole number of steps |
| SceneState.SpeedNeverNegative | fileatom.cpp:414-415 | from the default `speed` of 0.002, no sequence of key presses makes `speed` negative |
| SceneState.SlowerUndoesFaster | fileatom.cpp:414-415 | `'['` undoes `']'` on a non-negative speed |

## Left out

- All GLUT and OpenGL calls: window setup, `reshape`, `drawtext` and the
  drawing half of `display`. They are rendering; only the orientations
  `display` computes are modelled (`Gestures.Shown`).
- `updatefiles` and the `'a'`, `'f'`, `'d'`, `'g'` and `'q'` keys. They read
  the file system, change directory or exit. The `Scene` constructor stands
  in for the allocation part of `updatefiles`.
- SceneState.Scene.Keyboard: requires a key outside `'a'`, `'f'`, `'d'`,
  `'g'` and `'q'`, and says nothing about those keys. Through `updatefiles`
  they set `selfile` to 0 and reallocate every array for a new directory
  listing, or they end the program.
- The data only `updatefiles` and the drawing use: `files`, `isdir`, `text`,
  `sphere`, `cube`, `view`, `fileradius` and the translation.
- `radius` and its keys `'<'` and `'>'`. `updateaxes` draws its random
  vectors from `[-radius, radius]`. The draws are parameters here, and that
  bound on them is not modelled.
- The size, label and overlay keys, and the arrow keys of `special`. They
  change floats the model does not use, or toggle drawing options. The speed
  keys `'['` and `']'` are modelled, since `speed` drives `idle`.
- `main`, `getopt`, `randf` and `rand`. The random draws of `updateaxes` are
  parameters.
- Floating-point rounding. Reals are exact, and nothing is claimed about
  float error.
- SceneState.SpeedNeverNegative: holds for exact steps of 0.001. In floats
  repeated `']'` and `'['` can leave a small positive residue, and one more
  `'['` then makes `speed` negative; the model does not capture that.
- SceneState.Scene.Idle: keeps the angles in `[0, 2π]` only while
  `speed ≤ 2π`. `']'` can raise `speed` past that; then the source resets an
  increasing angle to `speed`, which lies outside the range.
- `sqrt`, `sin` and `cos` beyond the laws in `RealMath.Elementary.Lawful`.
  Their values are never computed.
- SceneState.Scene.UpdateAxes: a zero-length axis draw is excluded by a
  precondition. The source divides by `mag = 0` there.
- SceneState.Scene.Keyboard: the `'n'`/`'r'` cases carry the same precondition.
- SceneState.Scene.UpdateFilePts: carries the same precondition for the axes
  drawn after placement.
- Arcball.Project: a viewport of zero width or height is excluded by a
  precondition. The source divides by it.
- CameraControl.Camera.Mouse: requires a nonzero viewport only for a press.
  Its ensures state the new gesture, not the displayed orientation. What
  the press and the release show is proved on the gesture:
  `Gestures.GrabShowsRlast` and `Gestures.ReleaseKeepsShown`.
- CameraControl.Camera.Mouse and CameraControl.Camera.Motion: the mouse
  button and the redisplay request are not modelled.
- Selection.NextIsSuccessor and the other selection lemmas assume a
  selection in `[0, nfiles)`. `Next` and `Prev` themselves follow the code
  for any value, including `nfiles = 0`.
- The scene arrays have a fixed length for the life of a `Scene`. The
  source reallocates them on every directory reload, which is part of
  `updatefiles`.

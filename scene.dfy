/** The entities of the scene and the program state around them: the
    parallel arrays that `updatefilepts`, `updateaxes` and `idle` fill in
    place, the `orbit`, `randaxes`, `firstframe`, `speed` and `selfile`
    globals, and the keys that change them. */
module SceneState {

  import opened RealMath
  import opened Vectors
  import opened Quaternions
  import opened Gestures
  import opened Orbit
  import opened Layout
  import Selection

  /** The default of `speed`. */
  const DefaultSpeed: real := 0.002

  /** How much `'['` and `']'` change `speed`. */
  const SpeedStep: real := 0.001

  /** What the speed keys do to `speed`: `']'` adds a step, `'['` takes one
      away while the speed is positive, every other key leaves it. */
  function SpeedKey(speed: real, key: char): real {
    if key == ']' then speed + SpeedStep
    else if key == '[' && speed > 0.0 then speed - SpeedStep
    else speed
  }

  /** `speed` after the keys `keys`, pressed in order. */
  function SpeedAfter(speed: real, keys: seq<char>): real
    decreases |keys|
  {
    if |keys| == 0 then speed else SpeedAfter(SpeedKey(speed, keys[0]), keys[1..])
  }

  /** The speeds that are whole multiples of the step. */
  function SpeedGrid(k: nat): real {
    k as real * SpeedStep
  }

  /** The multiple of the step that the speed keys lead to from `SpeedGrid(k)`. */
  function GridAfter(k: nat, keys: seq<char>): nat
    decreases |keys|
  {
    if |keys| == 0 then k
    else if keys[0] == ']' then GridAfter(k + 1, keys[1..])
    else if keys[0] == '[' && k > 0 then GridAfter(k - 1, keys[1..])
    else GridAfter(k, keys[1..])
  }

  /** The speed keys keep a speed on the grid of whole steps. */
  lemma {:induction false} SpeedKeysStayOnGrid(k: nat, keys: seq<char>)
    ensures SpeedAfter(SpeedGrid(k), keys) == SpeedGrid(GridAfter(k, keys))
    decreases |keys|
  {
    if |keys| > 0 {
      var c := keys[0];
      if c == ']' {
        assert SpeedKey(SpeedGrid(k), c) == SpeedGrid(k + 1);
        SpeedKeysStayOnGrid(k + 1, keys[1..]);
      } else if c == '[' && k > 0 {
        assert SpeedKey(SpeedGrid(k), c) == SpeedGrid(k - 1);
        SpeedKeysStayOnGrid(k - 1, keys[1..]);
      } else {
        assert SpeedKey(SpeedGrid(k), c) == SpeedGrid(k);
        SpeedKeysStayOnGrid(k, keys[1..]);
      }
    }
  }

  /** However often `'['` is pressed, the speed never drops below 0 from its
      default: `'['` only subtracts from a positive whole number of steps. */
  lemma SpeedNeverNegative(keys: seq<char>)
    ensures 0.0 <= SpeedAfter(DefaultSpeed, keys)
  {
    assert DefaultSpeed == SpeedGrid(2);
    SpeedKeysStayOnGrid(2, keys);
  }

  /** `'['` undoes `']'`. */
  lemma SlowerUndoesFaster(speed: real)
    requires 0.0 <= speed
    ensures SpeedKey(SpeedKey(speed, ']'), '[') == speed
  {
  }

  /** The keys that reread the directory (`'a'`, `'f'`, `'d'`, `'g'`) or end
      the program (`'q'`). */
  const FileKeys: string := "adfgq"

  /** What one orbit tick does to the gesture of one entity once its handle
      `h` is built: the first entity of the first tick after `updateaxes`
      is pressed at `h`, every other one is dragged to `h`. */
  function IdleStep(g: Gesture, first: bool, h: Quat): Gesture {
    if first then Grab(g, h) else Drag(g, h)
  }

  /** A tick keeps an entity's gesture made of rotations when the handle is one. */
  lemma IdleStepValid(g: Gesture, first: bool, h: Quat)
    requires Valid(g) && IsUnit(h)
    ensures Valid(IdleStep(g, first, h))
  {
  }

  /** On the first tick after `updateaxes`, entity 0 is pressed at its handle
      and so is shown at rest, with the identity orientation. */
  lemma FirstTickShowsEntityZeroAtRest(h: Quat)
    requires IsUnit(h)
    ensures Shown(IdleStep(Rest(), true, h)) == Identity()
  {
    GrabShowsRlast(Rest(), h);
  }

  /** Every other entity keeps `qclicks[i] = rlasts[i] = zero()` for good, so
      it is shown turned by its current handle itself, on the first tick and
      on every later one. */
  lemma DragFromIdentityShowsHandle(g: Gesture, h: Quat)
    requires g.qclick == Identity() && g.rlast == Identity()
    ensures Shown(IdleStep(g, false, h)) == h
  {
    ShownUnclicked(h, g.qlast);
  }

  /** `Shown` of a gesture whose click and accumulated orientation are both
      the identity is its drag point. */
  lemma ShownUnclicked(h: Quat, l: Quat)
    ensures Shown(Gesture(Identity(), h, l, Identity())) == h
  {
    IdentityIsNeutral(h);
  }

  /** Entity 0, pressed at its first handle `Handle(a1)` and dragged on to
      `Handle(ak)`, is shown turned by `Handle(ak) * inverse(Handle(a1))`:
      still a turn about the entity's own axis. */
  lemma EntityZeroTurnsAboutAxis(a1: real, ak: real, u: Vec3, l: Quat, m: Elementary)
    requires Vectors.NormSq(u) == 1.0
    ensures Transform(RotationMatrix(Shown(Gesture(Handle(a1, u, m), Handle(ak, u, m), l, Identity()))), u) == u
  {
    var w1, t1 := m.cos(a1 / 2.0), m.sin(a1 / 2.0);
    var wk, tk := m.cos(ak / 2.0), m.sin(ak / 2.0);
    var q := Multiply(Axial(wk, tk, u), Inverse(Axial(w1, t1, u)));
    var w, t := wk * w1 + tk * t1, tk * w1 - wk * t1;
    AxialQuotient(wk, tk, w1, t1, u);
    assert q == Axial(w, t, u);
    IdentityIsNeutral(q);
    AxialFixesAxis(w, t, u);
  }

  class Scene {
    /** `nfiles`. */
    const n: nat
    /** `posangle[i]`: whether entity `i` turns with increasing angle. */
    const posangle: array<bool>
    /** `angles[i]`: how far entity `i` has turned about its axis. */
    const angles: array<real>
    /** `filepts[i]`: where entity `i` sits on the unit sphere. */
    const filepts: array<Vec3>
    /** `axes[i]`: the axis entity `i` orbits about. */
    const axes: array<Vec3>
    /** `qclicks[i]`, `qdrags[i]`, `qlasts[i]` and `rlasts[i]`. */
    const gestures: array<Gesture>
    var orbit: bool
    var randaxes: bool
    var firstframe: bool
    var speed: real
    var selfile: int

    /** All arrays have `nfiles` entries; `filepts` and `axes` are different arrays. */
    ghost predicate Valid()
      reads this
    {
      && posangle.Length == n && angles.Length == n && filepts.Length == n
      && axes.Length == n && gestures.Length == n
      && filepts != axes
    }

    /** What the orbit ticks keep true, given lawful `sqrt`, `sin` and `cos`:
        every axis is a unit vector, every entity's gesture is made of
        rotations and every angle lies in `[0, 2*PI]`. */
    ghost predicate Coherent()
      reads this, axes, gestures, angles
      requires Valid()
    {
      forall i :: 0 <= i < n ==>
        && Vectors.NormSq(axes[i]) == 1.0
        && Gestures.Valid(gestures[i])
        && 0.0 <= angles[i] <= TwoPi
    }

    /** Every entity but the first keeps its click point and its accumulated
        orientation at `zero()`: `idle` presses only entity 0, and only on the
        first tick after `updateaxes`. */
    ghost predicate Unclicked()
      reads this, gestures
      requires Valid()
    {
      forall i :: 1 <= i < n ==> gestures[i].qclick == Identity() && gestures[i].rlast == Identity()
    }

    /** What `updateaxes` leaves, for the random draws `draws` (the vector
        `v`, or the axis itself with `randaxes`) and `coins` (the draw that
        picks `posangle`). */
    ghost predicate AxesReset(m: Elementary, draws: seq<Vec3>, coins: seq<real>)
      reads this, filepts, axes, angles, gestures, posangle
      requires Valid() && |draws| == n && |coins| == n
      requires forall i :: 0 <= i < n ==> Magnitude(RawAxis(randaxes, filepts[i], draws[i]), m) != 0.0
    {
      && firstframe
      && forall i :: 0 <= i < n ==>
        && axes[i] == Axis(randaxes, filepts[i], draws[i], m)
        && angles[i] == 0.0
        && gestures[i] == Rest()
        && posangle[i] == (coins[i] <= 0.5)
    }

    /** The arrays allocated for `nfiles` entries with the globals at their
        defaults, then `updatefilepts`. */
    constructor (nfiles: nat, m: Elementary, draws: seq<Vec3>, coins: seq<real>)
      requires m.Lawful() && |draws| == nfiles && |coins| == nfiles
      requires forall i :: 0 <= i < nfiles ==> Magnitude(RawAxis(false, FilePoint(i, nfiles, m), draws[i]), m) != 0.0
      ensures Valid() && n == nfiles
      ensures fresh(posangle) && fresh(angles) && fresh(filepts) && fresh(axes) && fresh(gestures)
      ensures !orbit && !randaxes && speed == DefaultSpeed && selfile == 0
      ensures forall i :: 0 <= i < n ==> filepts[i] == FilePoint(i, n, m)
      ensures AxesReset(m, draws, coins) && Coherent() && Unclicked()
    {
      n := nfiles;
      posangle := new bool[nfiles];
      angles := new real[nfiles];
      filepts := new Vec3[nfiles];
      axes := new Vec3[nfiles];
      gestures := new Gesture[nfiles];
      orbit, randaxes, firstframe := false, false, true;
      speed, selfile := DefaultSpeed, 0;
      new;
      UpdateFilePts(m, draws, coins);
    }

    /** `updatefilepts`: every entity placed on the golden spiral, then
        `updateaxes`.  With `nfiles = 0` nothing is placed. */
    method UpdateFilePts(m: Elementary, draws: seq<Vec3>, coins: seq<real>)
      requires Valid() && m.Lawful() && |draws| == n && |coins| == n
      requires forall i :: 0 <= i < n ==> Magnitude(RawAxis(randaxes, FilePoint(i, n, m), draws[i]), m) != 0.0
      modifies this`firstframe, filepts, axes, angles, gestures, posangle
      ensures forall i :: 0 <= i < n ==> filepts[i] == FilePoint(i, n, m)
      ensures AxesReset(m, draws, coins) && Coherent() && Unclicked()
    {
      var i := 0;
      while i < n
        invariant 0 <= i <= n
        invariant forall j :: 0 <= j < i ==> filepts[j] == FilePoint(j, n, m)
      {
        filepts[i] := FilePoint(i, n, m);
        i := i + 1;
      }
      UpdateAxes(m, draws, coins);
    }

    /** `updateaxes`: every axis drawn afresh and normalised, every angle and
        every gesture reset, every direction drawn afresh, and `firstframe`
        set.  The source does not guard a zero-length axis; that case is
        excluded here. */
    method UpdateAxes(m: Elementary, draws: seq<Vec3>, coins: seq<real>)
      requires Valid() && m.Lawful() && |draws| == n && |coins| == n
      requires forall i :: 0 <= i < n ==> Magnitude(RawAxis(randaxes, filepts[i], draws[i]), m) != 0.0
      modifies this`firstframe, axes, angles, gestures, posangle
      ensures AxesReset(m, draws, coins)
      ensures Coherent() && Unclicked()
    {
      firstframe := true;
      RestIsValid();
      var i := 0;
      while i < n
        invariant 0 <= i <= n && firstframe
        invariant forall j :: 0 <= j < i ==> axes[j] == Axis(randaxes, filepts[j], draws[j], m)
        invariant forall j :: 0 <= j < i ==> angles[j] == 0.0
        invariant forall j :: 0 <= j < i ==> gestures[j] == Rest()
        invariant forall j :: 0 <= j < i ==> posangle[j] == (coins[j] <= 0.5)
      {
        axes[i] := Axis(randaxes, filepts[i], draws[i], m);
        angles[i] := 0.0;
        gestures[i] := Rest();
        posangle[i] := coins[i] <= 0.5;
        i := i + 1;
      }
      forall j | 0 <= j < n
        ensures Vectors.NormSq(axes[j]) == 1.0
      {
        AxisIsUnit(randaxes, filepts[j], draws[j], m);
      }
    }

    /** `idle`: nothing without `orbit`; otherwise every angle advances one
        tick and every entity's gesture follows its new handle.  Because the
        single flag `firstframe` is cleared inside the loop, only entity 0
        is pressed on the first tick; all others are dragged.  `rlasts` is
        never written.  Every entity but the first, never pressed, is shown
        turned by its current handle. */
    method Idle(m: Elementary)
      requires Valid()
      modifies this`firstframe, angles, gestures
      ensures !orbit ==> firstframe == old(firstframe) && angles[..] == old(angles[..]) && gestures[..] == old(gestures[..])
      ensures orbit ==> firstframe == (old(firstframe) && n == 0)
      ensures orbit ==> forall i :: 0 <= i < n ==> angles[i] == Advance(old(angles[i]), posangle[i], speed)
      ensures orbit ==> forall i :: 0 <= i < n ==>
        gestures[i] == IdleStep(old(gestures[i]), i == 0 && old(firstframe), Handle(angles[i], axes[i], m))
      ensures forall i :: 0 <= i < n ==> gestures[i].rlast == old(gestures[i].rlast)
      ensures m.Lawful() && 0.0 <= speed <= TwoPi && old(Coherent()) ==> Coherent()
      ensures old(Unclicked()) ==> Unclicked()
      ensures orbit && old(Unclicked()) ==> forall i :: 1 <= i < n ==> Shown(gestures[i]) == Handle(angles[i], axes[i], m)
    {
      if !orbit {
        return;
      }
      var i := 0;
      while i < n
        invariant 0 <= i <= n
        invariant firstframe == (old(firstframe) && i == 0)
        invariant forall j :: 0 <= j < i ==> angles[j] == Advance(old(angles[j]), posangle[j], speed)
        invariant forall j :: i <= j < n ==> angles[j] == old(angles[j])
        invariant forall j :: 0 <= j < i ==>
          gestures[j] == IdleStep(old(gestures[j]), j == 0 && old(firstframe), Handle(angles[j], axes[j], m))
        invariant forall j :: i <= j < n ==> gestures[j] == old(gestures[j])
      {
        angles[i] := Advance(angles[i], posangle[i], speed);
        var h := Handle(angles[i], axes[i], m);
        if firstframe {
          firstframe := false;
          gestures[i] := Grab(gestures[i], h);
        } else {
          gestures[i] := Drag(gestures[i], h);
        }
        i := i + 1;
      }
      if m.Lawful() && 0.0 <= speed <= TwoPi && old(Coherent()) {
        forall j | 0 <= j < n
          ensures Gestures.Valid(gestures[j]) && 0.0 <= angles[j] <= TwoPi
        {
          AdvanceKeepsRange(old(angles[j]), posangle[j], speed);
          HandleIsUnit(angles[j], axes[j], m);
          IdleStepValid(old(gestures[j]), j == 0 && old(firstframe), Handle(angles[j], axes[j], m));
        }
      }
      if old(Unclicked()) {
        forall j | 1 <= j < n
          ensures Shown(gestures[j]) == Handle(angles[j], axes[j], m)
        {
          DragFromIdentityShowsHandle(old(gestures[j]), Handle(angles[j], axes[j], m));
        }
      }
    }

    /** The keys that change the modelled state: `'o'` toggles `orbit`,
        `']'` and `'['` change `speed`, `'n'` redraws the axes, `'r'` toggles
        `randaxes` and redraws them, `'j'` and `'k'` move the selection.
        Every other key but the directory and exit keys of `FileKeys` leaves
        the modelled state as it was. */
    method Keyboard(key: char, m: Elementary, draws: seq<Vec3>, coins: seq<real>)
      requires Valid() && key !in FileKeys
      requires key == 'n' || key == 'r' ==> m.Lawful() && |draws| == n && |coins| == n
      requires key == 'n' ==> forall i :: 0 <= i < n ==> Magnitude(RawAxis(randaxes, filepts[i], draws[i]), m) != 0.0
      requires key == 'r' ==> forall i :: 0 <= i < n ==> Magnitude(RawAxis(!randaxes, filepts[i], draws[i]), m) != 0.0
      modifies this, axes, angles, gestures, posangle
      ensures key == 'o' ==> orbit == !old(orbit)
      ensures key != 'o' ==> orbit == old(orbit)
      ensures key == 'r' ==> randaxes == !old(randaxes)
      ensures key != 'r' ==> randaxes == old(randaxes)
      ensures key == 'j' ==> selfile == Selection.Next(old(selfile), n)
      ensures key == 'k' ==> selfile == Selection.Prev(old(selfile), n)
      ensures key != 'j' && key != 'k' ==> selfile == old(selfile)
      ensures speed == SpeedKey(old(speed), key)
      ensures key == 'n' || key == 'r' ==> AxesReset(m, draws, coins) && Coherent() && Unclicked()
      ensures key != 'n' && key != 'r' ==>
        firstframe == old(firstframe) && axes[..] == old(axes[..]) && angles[..] == old(angles[..])
        && gestures[..] == old(gestures[..]) && posangle[..] == old(posangle[..])
    {
      if key == 'o' {
        orbit := !orbit;
      } else if key == '[' {
        if speed > 0.0 {
          speed := speed - SpeedStep;
        }
      } else if key == ']' {
        speed := speed + SpeedStep;
      } else if key == 'n' {
        UpdateAxes(m, draws, coins);
      } else if key == 'r' {
        randaxes := !randaxes;
        UpdateAxes(m, draws, coins);
      } else if key == 'j' {
        selfile := Selection.Next(selfile, n);
      } else if key == 'k' {
        selfile := Selection.Prev(selfile, n);
      }
    }
  }
}

/** The four navigation handlers. Each captures a reference at pointer-down
    and, on every pointer-move, updates the host view in place. */
module ViewHandlers {
  import opened Common
  import opened Host
  import opened Utils

  /** ZoomHandler.zoom_factor */
  const ZOOM_FACTOR: real := 0.02

  /** The smallest view distance a zoom leaves. */
  const MIN_DISTANCE: real := 0.1

  /** ViewOrbitHandler.sensitivity */
  const ORBIT_SENSITIVITY: real := 0.005

  lemma SnapAnglePositive()
    ensures SNAP_ANGLE > 0.0
  {
  }

  // ---------------------------------------------------------------------------
  // Pan
  // ---------------------------------------------------------------------------

  /** The world-space offset one pan move adds to the view location: the
      pointer motion prev - cur along the view's right and up axes, scaled by
      view distance over region width. */
  function PanOffset(basis: Basis, distance: real, width: int, prev: Vec2, cur: Vec2): (offset: Vec3)
    requires width != 0
    // panning never moves the view along the normal of its right/up plane
    ensures Dot3(offset, Cross3(basis.col0, basis.col1)) == 0.0
  {
    var delta := Sub2(prev, cur);
    var panFactor := distance / width as real;
    InPlaneOfAxes(basis.col0, basis.col1, delta.x, delta.y, panFactor);
    Add3(Scale3(Scale3(basis.col0, delta.x), panFactor),
         Scale3(Scale3(basis.col1, delta.y), panFactor))
  }

  /** Any combination of r and u is orthogonal to r × u. */
  lemma InPlaneOfAxes(r: Vec3, u: Vec3, a: real, b: real, f: real)
    ensures Dot3(Add3(Scale3(Scale3(r, a), f), Scale3(Scale3(u, b), f)), Cross3(r, u)) == 0.0
  {
    var n := Cross3(r, u);
    DotOfCombination(r, u, a * f, b * f, n);
    assert Scale3(Scale3(r, a), f) == Scale3(r, a * f);
    assert Scale3(Scale3(u, b), f) == Scale3(u, b * f);
    TripleWithRepeat(r, u);
  }

  lemma TripleWithRepeat(r: Vec3, u: Vec3)
    ensures Dot3(r, Cross3(r, u)) == 0.0 && Dot3(u, Cross3(r, u)) == 0.0
  {
  }

  /** A move that does not move the pointer does not move the view. */
  lemma PanStill(basis: Basis, distance: real, width: int, pos: Vec2)
    requires width != 0
    ensures PanOffset(basis, distance, width, pos, pos) == ZERO3
  {
  }

  /** Pan moves are incremental: two successive moves shift the view as far
      as one move over the whole drag. */
  lemma {:induction false} PanComposes(basis: Basis, distance: real, width: int, p0: Vec2, p1: Vec2, p2: Vec2)
    requires width != 0
    ensures Add3(PanOffset(basis, distance, width, p0, p1), PanOffset(basis, distance, width, p1, p2))
            == PanOffset(basis, distance, width, p0, p2)
  {
    var f := distance / width as real;
    var r := basis.col0;
    var u := basis.col1;
    ScaleTwiceAdds(r, p0.x - p1.x, p1.x - p2.x, f);
    ScaleTwiceAdds(u, p0.y - p1.y, p1.y - p2.y, f);
  }

  lemma ScaleTwiceAdds(v: Vec3, a: real, b: real, f: real)
    ensures Add3(Scale3(Scale3(v, a), f), Scale3(Scale3(v, b), f)) == Scale3(Scale3(v, a + b), f)
  {
  }

  /** With an orthonormal right/up pair, the view moves along its right axis
      by the horizontal pointer motion times distance / width (and likewise
      along up), so the scene follows the pointer at a zoom-independent speed. */
  lemma PanAlongViewAxes(basis: Basis, distance: real, width: int, prev: Vec2, cur: Vec2)
    requires width != 0
    requires Dot3(basis.col0, basis.col0) == 1.0 && Dot3(basis.col1, basis.col1) == 1.0
    requires Dot3(basis.col0, basis.col1) == 0.0
    ensures var f := distance / width as real;
            var offset := PanOffset(basis, distance, width, prev, cur);
            Dot3(offset, basis.col0) == (prev.x - cur.x) * f &&
            Dot3(offset, basis.col1) == (prev.y - cur.y) * f
  {
    var f := distance / width as real;
    var r := basis.col0;
    var u := basis.col1;
    var a := (prev.x - cur.x) * f;
    var b := (prev.y - cur.y) * f;
    ScaleScale(r, prev.x - cur.x, f);
    ScaleScale(u, prev.y - cur.y, f);
    assert PanOffset(basis, distance, width, prev, cur)
        == Add3(Scale3(Scale3(r, prev.x - cur.x), f), Scale3(Scale3(u, prev.y - cur.y), f));
    assert PanOffset(basis, distance, width, prev, cur) == Add3(Scale3(r, a), Scale3(u, b));
    UnitComponents(r, u, a, b);
  }

  lemma UnitComponents(r: Vec3, u: Vec3, a: real, b: real)
    requires Dot3(r, r) == 1.0 && Dot3(u, u) == 1.0 && Dot3(r, u) == 0.0
    ensures Dot3(Add3(Scale3(r, a), Scale3(u, b)), r) == a
    ensures Dot3(Add3(Scale3(r, a), Scale3(u, b)), u) == b
  {
  }

  lemma DotOfCombination(r: Vec3, u: Vec3, a: real, b: real, w: Vec3)
    ensures Dot3(Add3(Scale3(r, a), Scale3(u, b)), w) == a * Dot3(r, w) + b * Dot3(u, w)
  {
  }

  /** PanHandler: prev_pos is unset until the first pointer_down. */
  class PanHandler {
    var prevPos: Option<Vec2>

    constructor ()
      ensures prevPos == None
    {
      prevPos := None;
    }

    method PointerDown(ev: Event)
      modifies this
      ensures prevPos == Some(RegionPos(ev))
    {
      prevPos := Some(RegionPos(ev));
    }

    /** Reading prev_pos before any pointer_down fails in the source, and a
        missing region or a zero-width region fails in the division. */
    method PointerMove(ctx: Context, ev: Event)
      requires prevPos.Some?
      requires ctx.region.Some? && ctx.region.value.width != 0
      modifies this, ctx.view
      ensures prevPos == Some(RegionPos(ev))
      ensures ctx.view.viewLocation ==
                Add3(old(ctx.view.viewLocation),
                     PanOffset(ctx.math.viewBasis(old(ctx.view.viewRotation)),
                               old(ctx.view.viewDistance), ctx.region.value.width,
                               old(prevPos.value), RegionPos(ev)))
      ensures ctx.view.viewDistance == old(ctx.view.viewDistance)
      ensures ctx.view.viewRotation == old(ctx.view.viewRotation)
      ensures ctx.view.isPerspective == old(ctx.view.isPerspective)
    {
      var currentPos := RegionPos(ev);
      var deltaPos := Sub2(prevPos.value, currentPos);
      var rv3d := ctx.view;
      var viewMatrixInv := ctx.math.viewBasis(rv3d.viewRotation);
      var right := viewMatrixInv.col0;
      var up := viewMatrixInv.col1;
      var regionWidth := ctx.region.value.width;
      var panFactor := rv3d.viewDistance / regionWidth as real;
      var pan := ZERO3;
      pan := Add3(pan, Scale3(Scale3(right, deltaPos.x), panFactor));
      pan := Add3(pan, Scale3(Scale3(up, deltaPos.y), panFactor));
      rv3d.viewLocation := Add3(rv3d.viewLocation, pan);
      prevPos := Some(currentPos);
    }
  }

  // ---------------------------------------------------------------------------
  // Zoom
  // ---------------------------------------------------------------------------

  /** The view distance after one zoom move: the vertical pointer motion
      prev.y - cur.y scales the distance, with a floor of MIN_DISTANCE. */
  function ZoomedDistance(distance: real, prev: Vec2, cur: Vec2): (d: real)
    ensures d >= MIN_DISTANCE
  {
    var delta := Sub2(prev, cur);
    var zoomDelta := delta.y * ZOOM_FACTOR;
    var raw := distance + zoomDelta * distance * 0.1;
    if MIN_DISTANCE >= raw then MIN_DISTANCE else raw
  }

  /** Horizontal pointer motion has no effect on the zoom. */
  lemma ZoomIgnoresHorizontal(distance: real, prev: Vec2, cur: Vec2, dx0: real, dx1: real)
    ensures ZoomedDistance(distance, prev, cur)
            == ZoomedDistance(distance, Vec2(dx0, prev.y), Vec2(dx1, cur.y))
  {
  }

  /** From a positive distance, dragging down (prev.y > cur.y) never brings
      the view closer and dragging up never takes it further away. */
  lemma ZoomDirection(distance: real, prev: Vec2, cur: Vec2)
    requires distance >= MIN_DISTANCE
    ensures prev.y > cur.y ==> ZoomedDistance(distance, prev, cur) > distance
    ensures prev.y < cur.y ==> ZoomedDistance(distance, prev, cur) <= distance
    ensures prev.y == cur.y ==> ZoomedDistance(distance, prev, cur) == distance
  {
    var dy := prev.y - cur.y;
    var change := dy * ZOOM_FACTOR * distance * 0.1;
    assert change == (dy * distance) * 0.002;
    if dy > 0.0 {
      assert dy * distance > 0.0;
    } else if dy < 0.0 {
      assert dy * distance < 0.0;
    }
  }

  /** ZoomHandler: prev_pos starts at the class default (0, 0). */
  class ZoomHandler {
    var prevPos: Vec2

    constructor ()
      ensures prevPos == Vec2(0.0, 0.0)
    {
      prevPos := Vec2(0.0, 0.0);
    }

    /** Zoom reads the window coordinates (mouse_x, mouse_y). */
    method PointerDown(ev: Event)
      modifies this
      ensures prevPos == WindowPos(ev)
    {
      prevPos := WindowPos(ev);
    }

    /** The perspective and the orthographic branch make the same update. */
    method PointerMove(ctx: Context, ev: Event)
      modifies this, ctx.view
      ensures prevPos == WindowPos(ev)
      ensures ctx.view.viewDistance ==
                ZoomedDistance(old(ctx.view.viewDistance), old(prevPos), WindowPos(ev))
      ensures ctx.view.viewLocation == old(ctx.view.viewLocation)
      ensures ctx.view.viewRotation == old(ctx.view.viewRotation)
      ensures ctx.view.isPerspective == old(ctx.view.isPerspective)
    {
      var rv3d := ctx.view;
      var currentPos := WindowPos(ev);
      var delta := Sub2(prevPos, currentPos);
      var zoomDelta := delta.y * ZOOM_FACTOR;
      if rv3d.isPerspective {
        rv3d.viewDistance := rv3d.viewDistance + zoomDelta * rv3d.viewDistance * 0.1;
        rv3d.viewDistance := if MIN_DISTANCE >= rv3d.viewDistance then MIN_DISTANCE else rv3d.viewDistance;
      } else {
        rv3d.viewDistance := rv3d.viewDistance + zoomDelta * rv3d.viewDistance * 0.1;
        rv3d.viewDistance := if MIN_DISTANCE >= rv3d.viewDistance then MIN_DISTANCE else rv3d.viewDistance;
      }
      prevPos := currentPos;
    }
  }

  // ---------------------------------------------------------------------------
  // Orbit
  // ---------------------------------------------------------------------------

  /** The Euler angles one orbit move produces: horizontal motion turns Z,
      vertical motion turns X the other way; with shift both tentative
      angles are rounded to the 15-degree grid. */
  function OrbitEuler(euler: Euler, prev: Vec2, cur: Vec2, shift: bool): (e: Euler)
    // the orbit never touches the Euler Y angle
    ensures e.y == euler.y
    // a free orbit with no pointer motion keeps the angles
    ensures !shift && prev == cur ==> e == euler
  {
    var delta := Sub2(prev, cur);
    var rotZ := delta.x * ORBIT_SENSITIVITY;
    var rotX := -delta.y * ORBIT_SENSITIVITY;
    if shift then
      var temp := euler.(z := euler.z + rotZ, x := euler.x + rotX);
      euler.(z := Round(temp.z / SNAP_ANGLE) as real * SNAP_ANGLE,
             x := Round(temp.x / SNAP_ANGLE) as real * SNAP_ANGLE)
    else
      euler.(z := euler.z + rotZ, x := euler.x + rotX)
  }

  /** Without shift the move turns Z by dx * 0.005 and X by -dy * 0.005 and
      leaves Y alone. */
  lemma OrbitFree(euler: Euler, prev: Vec2, cur: Vec2)
    ensures var e := OrbitEuler(euler, prev, cur, false);
            e.z - euler.z == (prev.x - cur.x) * ORBIT_SENSITIVITY &&
            e.x - euler.x == -(prev.y - cur.y) * ORBIT_SENSITIVITY &&
            e.y == euler.y
  {
  }

  /** With shift the Z and X angles land on the 15-degree grid, each within
      half a step of the tentative absolute angle (not of the delta alone),
      and Y is left alone. */
  lemma OrbitSnapped(euler: Euler, prev: Vec2, cur: Vec2)
    ensures var e := OrbitEuler(euler, prev, cur, true);
            var tz := euler.z + (prev.x - cur.x) * ORBIT_SENSITIVITY;
            var tx := euler.x - (prev.y - cur.y) * ORBIT_SENSITIVITY;
            && IsIntegral(e.z / SNAP_ANGLE) && IsIntegral(e.x / SNAP_ANGLE)
            && Abs(e.z - tz) <= SNAP_ANGLE / 2.0
            && Abs(e.x - tx) <= SNAP_ANGLE / 2.0
            && e.y == euler.y
  {
    var e := OrbitEuler(euler, prev, cur, true);
    var tz := euler.z + (prev.x - cur.x) * ORBIT_SENSITIVITY;
    var tx := euler.x + -(prev.y - cur.y) * ORBIT_SENSITIVITY;
    SnapAnglePositive();
    GlobalSnapIsSnapFromZero(tz);
    GlobalSnapIsSnapFromZero(tx);
    assert e.z == Round(tz / SNAP_ANGLE) as real * SNAP_ANGLE;
    assert e.x == Round(tx / SNAP_ANGLE) as real * SNAP_ANGLE;
    assert e.z == SnapToNearestAngle(tz, 0.0, SNAP_ANGLE);
    assert e.x == SnapToNearestAngle(tx, 0.0, SNAP_ANGLE);
  }

  /** round(t / step) * step is snap_to_nearest_angle anchored at zero. */
  lemma GlobalSnapIsSnapFromZero(t: real)
    ensures SNAP_ANGLE != 0.0
    ensures Round(t / SNAP_ANGLE) as real * SNAP_ANGLE == SnapToNearestAngle(t, 0.0, SNAP_ANGLE)
  {
    SnapAnglePositive();
    assert (t + 0.0) / SNAP_ANGLE == t / SNAP_ANGLE;
  }

  /** ViewOrbitHandler: prev_pos starts at the class default (0, 0). */
  class OrbitHandler {
    var prevPos: Vec2

    constructor ()
      ensures prevPos == Vec2(0.0, 0.0)
    {
      prevPos := Vec2(0.0, 0.0);
    }

    method PointerDown(ev: Event)
      modifies this
      ensures prevPos == RegionPos(ev)
    {
      prevPos := RegionPos(ev);
    }

    method PointerMove(ctx: Context, ev: Event)
      modifies this, ctx.view
      ensures prevPos == RegionPos(ev)
      ensures ctx.view.viewRotation ==
                ctx.math.toQuaternion(OrbitEuler(ctx.math.toEuler(old(ctx.view.viewRotation)),
                                                 old(prevPos), RegionPos(ev), ev.shift))
      ensures ctx.view.viewLocation == old(ctx.view.viewLocation)
      ensures ctx.view.viewDistance == old(ctx.view.viewDistance)
      ensures ctx.view.isPerspective == old(ctx.view.isPerspective)
    {
      var rv3d := ctx.view;
      var currentPos := RegionPos(ev);
      var delta := Sub2(prevPos, currentPos);
      var euler := ctx.math.toEuler(rv3d.viewRotation);
      if ev.shift {
        var rotZ := delta.x * ORBIT_SENSITIVITY;
        var rotX := -delta.y * ORBIT_SENSITIVITY;
        var tempEuler := euler;
        tempEuler := tempEuler.(z := tempEuler.z + rotZ);
        tempEuler := tempEuler.(x := tempEuler.x + rotX);
        var snappedZ := Round(tempEuler.z / SNAP_ANGLE) as real * SNAP_ANGLE;
        var snappedX := Round(tempEuler.x / SNAP_ANGLE) as real * SNAP_ANGLE;
        euler := euler.(z := snappedZ);
        euler := euler.(x := snappedX);
      } else {
        var rotZ := delta.x * ORBIT_SENSITIVITY;
        var rotX := -delta.y * ORBIT_SENSITIVITY;
        euler := euler.(z := euler.z + rotZ);
        euler := euler.(x := euler.x + rotX);
      }
      rv3d.viewRotation := ctx.math.toQuaternion(euler);
      prevPos := currentPos;
    }
  }

  // ---------------------------------------------------------------------------
  // Roll
  // ---------------------------------------------------------------------------

  /** The roll one move applies: the signed angle from the initial to the
      current pointer direction, snapped with shift so that the absolute
      roll (initial angle plus delta) lands on the 15-degree grid. */
  function RollDelta(m: HostMath, initialVector: Vec2, initialAngle: real,
                     current: Vec2, shift: bool): (delta: real)
    ensures !shift ==> delta == m.angleSigned(initialVector, current)
    ensures shift ==> IsIntegral((delta + initialAngle) / SNAP_ANGLE)
    ensures shift ==> Abs(delta - m.angleSigned(initialVector, current)) <= SNAP_ANGLE / 2.0
  {
    SnapAnglePositive();
    var deltaAngle := m.angleSigned(initialVector, current);
    if shift then SnapToNearestAngle(deltaAngle, initialAngle, SNAP_ANGLE) else deltaAngle
  }

  /** RollHandler: rotation, initial_angle and initial_vector are unset
      until the first pointer_down. */
  class RollHandler {
    var rotation: Option<Quat>
    var initialAngle: Option<real>
    var initialVector: Option<Vec2>

    predicate Anchored()
      reads this
    {
      rotation.Some? && initialAngle.Some? && initialVector.Some?
    }

    constructor ()
      ensures rotation == None && initialAngle == None && initialVector == None
    {
      rotation, initialAngle, initialVector := None, None, None;
    }

    /** Captures a copy of the view rotation, the current roll angle and the
        pointer direction from the viewport centre. */
    method PointerDown(ctx: Context, ev: Event)
      modifies this
      ensures Anchored()
      ensures rotation == Some(ctx.view.viewRotation)
      ensures initialAngle == Some(CurrentRollAngle(ctx.math, ctx.view.viewRotation))
      ensures initialVector == Some(MouseVectorToCenter(ctx, ev))
    {
      rotation := Some(ctx.view.viewRotation);
      initialAngle := Some(CurrentRollAngle(ctx.math, ctx.view.viewRotation));
      initialVector := Some(MouseVectorToCenter(ctx, ev));
    }

    /** Rolls the rotation captured at pointer_down, not the view's current
        rotation: every move is absolute relative to the gesture start, and
        the handler's captured state is left as it was. */
    method PointerMove(ctx: Context, ev: Event)
      requires Anchored()
      modifies ctx.view
      ensures ctx.view.viewRotation ==
                RolledRotation(ctx.math, rotation.value,
                               RollDelta(ctx.math, initialVector.value, initialAngle.value,
                                         MouseVectorToCenter(ctx, ev), ev.shift))
      ensures ctx.view.viewLocation == old(ctx.view.viewLocation)
      ensures ctx.view.viewDistance == old(ctx.view.viewDistance)
      ensures ctx.view.isPerspective == old(ctx.view.isPerspective)
    {
      SnapAnglePositive();
      var snap := false;
      if ev.shift {
        snap := true;
      }
      var currentVector := MouseVectorToCenter(ctx, ev);
      var deltaAngle := ctx.math.angleSigned(initialVector.value, currentVector);
      if snap {
        deltaAngle := SnapToNearestAngle(deltaAngle, initialAngle.value, SNAP_ANGLE);
      }
      ApplyViewRoll(ctx, rotation.value, deltaAngle);
    }
  }
}

/** The add-on's math utilities: roll-angle extraction, angle snapping,
    step rounding, the viewport centre and the pointer direction from it. */
module Utils {
  import opened Common
  import opened Host

  /** math.radians(15.0), the snapping step of the roll and orbit gestures. */
  const SNAP_ANGLE: real := PI / 12.0

  /** Squared length below which a vector counts as degenerate (1e-8). */
  const DEGENERATE: real := 0.00000001

  /** |view_dir . Z| above which world Z is too close to the view direction. */
  const ALIGNED: real := 0.999

  // ---------------------------------------------------------------------------
  // Arithmetic helpers
  // ---------------------------------------------------------------------------

  lemma AbsOfProduct(u: real, v: real)
    ensures Abs(u * v) == Abs(u) * Abs(v)
  {
  }

  lemma ScaleBound(u: real, c: real, v: real)
    requires 0.0 <= u <= c && v >= 0.0
    ensures u * v <= c * v
  {
  }

  lemma ProductCancels(k: real, s: real)
    requires s != 0.0
    ensures (k * s) / s == k
  {
  }

  lemma DivExact(y: real, k: real, s: real)
    requires s != 0.0 && y == k * s
    ensures y / s == k
  {
  }

  lemma QuotientTimes(a: real, s: real)
    requires s != 0.0
    ensures (a / s) * s == a
  {
  }

  // ---------------------------------------------------------------------------
  // round()
  // ---------------------------------------------------------------------------

  /** Python's round() of a float to an int: the nearest integer, a tie
      going to the even neighbour. */
  function Round(x: real): (n: int)
    ensures Abs(x - n as real) <= 0.5
    ensures Abs(x - n as real) == 0.5 ==> n % 2 == 0
  {
    var f := x.Floor;
    var frac := x - f as real;
    if frac < 0.5 then f
    else if frac > 0.5 then f + 1
    else if f % 2 == 0 then f else f + 1
  }

  /** No integer is closer to x than Round(x). */
  lemma RoundIsNearest(x: real, m: int)
    ensures Abs(x - Round(x) as real) <= Abs(x - m as real)
  {
    var n := Round(x);
    if m != n {
      assert m <= n - 1 || m >= n + 1;
    }
  }

  /** A whole number rounds to itself. */
  lemma RoundOfIntegral(x: real)
    requires IsIntegral(x)
    ensures Round(x) as real == x
  {
    var n := Round(x);
    var k := x.Floor;
    assert Abs(k as real - n as real) <= 0.5;
    assert -1 < k - n < 1;
  }

  // ---------------------------------------------------------------------------
  // snap_to_nearest_angle
  // ---------------------------------------------------------------------------

  /** snap_to_nearest_angle(angle, initial_angle, snap_angle): moves
      angle + initial_angle to the nearest multiple of snap_angle and takes
      initial_angle back out. Python raises on a zero snap_angle. */
  function SnapToNearestAngle(angle: real, initialAngle: real, snapAngle: real): (r: real)
    requires snapAngle != 0.0
    ensures IsIntegral((r + initialAngle) / snapAngle)
    ensures Abs(r - angle) <= Abs(snapAngle) / 2.0
  {
    var q := (angle + initialAngle) / snapAngle;
    var n := Round(q);
    var r := n as real * snapAngle - initialAngle;
    SnapFacts(angle, initialAngle, snapAngle, q, n, r);
    r
  }

  lemma SnapFacts(angle: real, initialAngle: real, s: real, q: real, n: int, r: real)
    requires s != 0.0
    requires q == (angle + initialAngle) / s
    requires Abs(q - n as real) <= 0.5
    requires r == n as real * s - initialAngle
    ensures IsIntegral((r + initialAngle) / s)
    ensures Abs(r - angle) <= Abs(s) / 2.0
  {
    DivExact(r + initialAngle, n as real, s);
    assert IsIntegral(n as real);
    SnapDistance(angle, initialAngle, s, q, n as real, r);
  }

  lemma SnapDistance(angle: real, initialAngle: real, s: real, q: real, k: real, r: real)
    requires s != 0.0
    requires q == (angle + initialAngle) / s
    requires Abs(q - k) <= 0.5
    requires r == k * s - initialAngle
    ensures Abs(r - angle) <= Abs(s) / 2.0
  {
    QuotientTimes(angle + initialAngle, s);
    var d := k - q;
    assert r - angle == k * s - q * s;
    assert k * s - q * s == d * s;
    assert r - angle == d * s;
    AbsOfProduct(d, s);
    var absD, absS := Abs(d), Abs(s);
    assert Abs(r - angle) == absD * absS;
    assert absD <= 0.5;
    ScaleBound(absD, 0.5, absS);
    assert absD * absS <= 0.5 * absS;
    assert 0.5 * absS == Abs(s) / 2.0;
  }

  /** Snapping an already snapped angle changes nothing. */
  lemma {:induction false} SnapIdempotent(angle: real, initialAngle: real, snapAngle: real)
    requires snapAngle != 0.0
    ensures var once := SnapToNearestAngle(angle, initialAngle, snapAngle);
            SnapToNearestAngle(once, initialAngle, snapAngle) == once
  {
    var once := SnapToNearestAngle(angle, initialAngle, snapAngle);
    var q := (once + initialAngle) / snapAngle;
    RoundOfIntegral(q);
    QuotientTimes(once + initialAngle, snapAngle);
    assert Round(q) as real * snapAngle == once + initialAngle;
  }

  /** A zero delta stays zero exactly when the initial angle is itself on the
      snapping grid; otherwise snapping moves it onto the grid. */
  lemma SnapZeroIff(initialAngle: real, snapAngle: real)
    requires snapAngle != 0.0
    ensures SnapToNearestAngle(0.0, initialAngle, snapAngle) == 0.0
            <==> IsIntegral(initialAngle / snapAngle)
  {
    var q := (0.0 + initialAngle) / snapAngle;
    assert q == initialAngle / snapAngle;
    if IsIntegral(q) {
      RoundOfIntegral(q);
      QuotientTimes(initialAngle, snapAngle);
    } else {
      var r := SnapToNearestAngle(0.0, initialAngle, snapAngle);
      assert IsIntegral((r + initialAngle) / snapAngle);
    }
  }

  /** A quarter turn with no initial angle is already on the 15-degree grid. */
  lemma SnapQuarterTurn()
    ensures SnapToNearestAngle(PI / 2.0, 0.0, SNAP_ANGLE) == PI / 2.0
  {
    var q := (PI / 2.0 + 0.0) / SNAP_ANGLE;
    assert q == 6.0;
    RoundOfIntegral(q);
  }

  // ---------------------------------------------------------------------------
  // step_value
  // ---------------------------------------------------------------------------

  /** Python's float %: the remainder takes the divisor's sign. */
  function PyMod(a: real, b: real): (r: real)
    requires b != 0.0
    ensures b > 0.0 ==> 0.0 <= r < b
    ensures IsIntegral((a - r) / b)
  {
    var k := (a / b).Floor;
    var r := a - b * k as real;
    PyModFacts(a, b, k, r);
    r
  }

  lemma PyModFacts(a: real, b: real, k: int, r: real)
    requires b != 0.0 && k == (a / b).Floor && r == a - b * k as real
    ensures b > 0.0 ==> 0.0 <= r < b
    ensures IsIntegral((a - r) / b)
  {
    ProductCancels(k as real, b);
    assert a - r == k as real * b;
    assert (a - r) / b == k as real;
    if b > 0.0 {
      var q := a / b;
      var frac := q - k as real;
      assert 0.0 <= frac < 1.0;
      QuotientTimes(a, b);
      assert r == q * b - k as real * b;
      assert r == frac * b;
      FractionOfPositive(frac, b);
    }
  }

  lemma FractionOfPositive(frac: real, b: real)
    requires 0.0 <= frac < 1.0 && b > 0.0
    ensures 0.0 <= frac * b < b
  {
  }

  /** math.copysign over the reals (no signed zero). */
  function CopySign(magnitude: real, sign: real): (r: real)
    ensures Abs(r) == Abs(magnitude)
    ensures sign < 0.0 ==> r <= 0.0
    ensures sign >= 0.0 ==> r >= 0.0
  {
    if sign < 0.0 then -Abs(magnitude) else Abs(magnitude)
  }

  /** step_value(value, step): the multiple of step nearest to value, with
      the sign of value; a tie goes to the higher step. */
  function StepValue(value: real, step: real): (r: real)
    requires step != 0.0
    ensures value < 0.0 ==> r <= 0.0
    ensures value >= 0.0 ==> r >= 0.0
    ensures step > 0.0 ==> IsIntegral(Abs(r) / step)
    ensures step > 0.0 ==> Abs(r - value) <= step / 2.0
    ensures step > 0.0 && PyMod(Abs(value), step) == step / 2.0 ==>
              Abs(r) == Abs(value) + step / 2.0
  {
    var absAngle := Abs(value);
    var diff := PyMod(absAngle, step);
    var lowerStep := absAngle - diff;
    var higherStep := lowerStep + step;
    var r := if absAngle - lowerStep < higherStep - absAngle
             then CopySign(lowerStep, value)
             else CopySign(higherStep, value);
    StepFacts(value, step, absAngle, diff, lowerStep, higherStep, r);
    r
  }

  lemma StepFacts(value: real, step: real, absAngle: real, diff: real,
                  lowerStep: real, higherStep: real, r: real)
    requires step != 0.0
    requires absAngle == Abs(value) && diff == PyMod(absAngle, step)
    requires lowerStep == absAngle - diff && higherStep == lowerStep + step
    requires r == if absAngle - lowerStep < higherStep - absAngle
                  then CopySign(lowerStep, value) else CopySign(higherStep, value)
    ensures step > 0.0 ==> IsIntegral(Abs(r) / step)
    ensures step > 0.0 ==> Abs(r - value) <= step / 2.0
    ensures step > 0.0 && diff == step / 2.0 ==> Abs(r) == Abs(value) + step / 2.0
  {
    if step > 0.0 {
      RemainderAtMost(absAngle, step);
      assert IsIntegral(lowerStep / step);
      NextMultiple(lowerStep, step);
      if absAngle - lowerStep < higherStep - absAngle {
        assert Abs(r) == lowerStep;
      } else {
        assert Abs(r) == higherStep;
      }
    }
  }

  /** For a non-negative dividend the remainder is at most the dividend. */
  lemma RemainderAtMost(a: real, b: real)
    requires a >= 0.0 && b > 0.0
    ensures PyMod(a, b) <= a
  {
  }

  lemma NextMultiple(x: real, s: real)
    requires s > 0.0 && IsIntegral(x / s)
    ensures IsIntegral((x + s) / s)
  {
    var q := x / s;
    DivExact(x + s, q + 1.0, s);
    var n := q.Floor + 1;
    assert q + 1.0 == n as real;
  }

  // ---------------------------------------------------------------------------
  // Viewport centre and pointer direction
  // ---------------------------------------------------------------------------

  /** get_viewport_center: the origin without a region, otherwise the point
      halfway across and halfway up the region. */
  function ViewportCenter(region: Option<Region>): (c: Vec2)
    ensures region.None? ==> c == Vec2(0.0, 0.0)
    ensures region.Some? ==>
              c.x == region.value.width as real - c.x &&
              c.y == region.value.height as real - c.y
  {
    match region
    case None => Vec2(0.0, 0.0)
    case Some(r) => Vec2(r.width as real / 2.0, r.height as real / 2.0)
  }

  /** get_mouse_vector_to_center: the normalized direction from the viewport
      centre to the pointer (the zero vector when the pointer is on the centre). */
  function MouseVectorToCenter(ctx: Context, ev: Event): (v: Vec2)
    // on the line through the centre and the pointer, whatever the host's
    // normalisation factor; the pointer at the centre gives the zero vector
    ensures Cross2(v, Sub2(RegionPos(ev), ViewportCenter(ctx.region))) == 0.0
    ensures RegionPos(ev) == ViewportCenter(ctx.region) ==> v == Vec2(0.0, 0.0)
  {
    var offset := Sub2(RegionPos(ev), ViewportCenter(ctx.region));
    ScaleIsParallel(offset, NormFactor2(ctx.math, offset));
    Normalize2(ctx.math, offset)
  }

  lemma ScaleIsParallel(o: Vec2, k: real)
    ensures Cross2(Scale2(o, k), o) == 0.0
  {
    assert Cross2(Scale2(o, k), o) == (o.x * k) * o.y - (o.y * k) * o.x;
    assert (o.x * k) * o.y == (o.y * k) * o.x;
  }

  /** The direction points from the centre towards the pointer: it is parallel
      to, and not opposed to, the pointer's offset from the centre. */
  lemma MouseVectorPointsAtPointer(ctx: Context, ev: Event)
    requires NormalizesPositively(ctx.math)
    ensures var offset := Sub2(RegionPos(ev), ViewportCenter(ctx.region));
            var v := MouseVectorToCenter(ctx, ev);
            Cross2(v, offset) == 0.0 && Dot2(v, offset) >= 0.0 &&
            (offset == Vec2(0.0, 0.0) <==> v == Vec2(0.0, 0.0))
  {
    var offset := Sub2(RegionPos(ev), ViewportCenter(ctx.region));
    var k := NormFactor2(ctx.math, offset);
    assert k > 0.0;
    PositiveScaleIsParallel(offset, k);
  }

  lemma PositiveScaleIsParallel(o: Vec2, k: real)
    requires k > 0.0
    ensures var v := Scale2(o, k);
            Cross2(v, o) == 0.0 && Dot2(v, o) >= 0.0 &&
            (o == Vec2(0.0, 0.0) <==> v == Vec2(0.0, 0.0))
  {
    var v := Scale2(o, k);
    assert Cross2(v, o) == (o.x * k) * o.y - (o.y * k) * o.x;
    assert (o.x * k) * o.y == (o.y * k) * o.x;
    var sq := o.x * o.x + o.y * o.y;
    assert Dot2(v, o) == k * sq;
    assert o.x * o.x >= 0.0 && o.y * o.y >= 0.0;
    PositiveTimesNonNegative(k, sq);
    NonZeroProduct(o.x, k);
    NonZeroProduct(o.y, k);
  }

  lemma PositiveTimesNonNegative(k: real, x: real)
    requires k > 0.0 && x >= 0.0
    ensures k * x >= 0.0
  {
  }

  lemma NonZeroProduct(x: real, k: real)
    requires k > 0.0
    ensures x * k == 0.0 <==> x == 0.0
  {
  }

  // ---------------------------------------------------------------------------
  // get_current_roll_angle
  // ---------------------------------------------------------------------------

  /** v minus its component along n: v projected onto the plane normal to a unit n. */
  function ProjectOntoPlane(v: Vec3, n: Vec3): Vec3 {
    Sub3(v, Scale3(n, Dot3(v, n)))
  }

  /** World Y when the view looks almost straight along world Z, else world Z. */
  function PreferredReference(viewDir: Vec3): Vec3 {
    if Abs(Dot3(viewDir, WORLD_Z)) > ALIGNED then WORLD_Y else WORLD_Z
  }

  /** The reference up axis finally used: the preferred one, or world X
      when the preferred one projects to a near-zero vector. */
  function ReferenceAxis(viewDir: Vec3): (ref: Vec3)
    ensures ref == WORLD_X <==>
              LengthSq3(ProjectOntoPlane(PreferredReference(viewDir), viewDir)) < DEGENERATE
    ensures ref != WORLD_X ==> ref == PreferredReference(viewDir)
    ensures ref == WORLD_Y <==> ref != WORLD_X && Abs(viewDir.z) > ALIGNED
  {
    var first := PreferredReference(viewDir);
    if LengthSq3(ProjectOntoPlane(first, viewDir)) < DEGENERATE then WORLD_X else first
  }

  /** zero_roll_up before it is normalized. */
  function ZeroRollUpRaw(viewDir: Vec3): Vec3 {
    ProjectOntoPlane(ReferenceAxis(viewDir), viewDir)
  }

  /** The switch of reference axis at 0.999 is a jump: two view directions
      0.0002 apart, one each side of the threshold and each within 0.0006 of
      unit length, get zero-roll up vectors more than 174 degrees apart. So
      the roll angle measured against them jumps by nearly a half turn. */
  lemma ZeroRollUpFlipsAtThreshold()
    ensures NearlyOpposite(ZeroRollUpRaw(Vec3(0.0, 0.04, 0.9989)), ZeroRollUpRaw(Vec3(0.0, 0.04, 0.9991)))
  {
    ZeroRollUpJustBelow();
    ZeroRollUpJustAbove();
    ZeroRollUpProducts();
  }

  /** u and w point more than 174 degrees apart: the cosine of their angle
      is negative and its square is at least 0.99. */
  predicate NearlyOpposite(u: Vec3, w: Vec3) {
    Dot3(u, w) < 0.0 && Dot3(u, w) * Dot3(u, w) >= 0.99 * (LengthSq3(u) * LengthSq3(w))
  }

  lemma ZeroRollUpJustBelow()
    ensures ZeroRollUpRaw(Vec3(0.0, 0.04, 0.9989)) == Vec3(0.0, -0.039956, 0.00219879)
  {
    ZeroRollUpBelowThreshold();
    ProjectedZ();
  }

  lemma ZeroRollUpJustAbove()
    ensures ZeroRollUpRaw(Vec3(0.0, 0.04, 0.9991)) == Vec3(0.0, 0.9984, -0.039964)
  {
    ZeroRollUpAboveThreshold();
    ProjectedY();
  }

  /** Just below the threshold (0.9989) world Z is the reference. */
  lemma ZeroRollUpBelowThreshold()
    ensures ReferenceAxis(Vec3(0.0, 0.04, 0.9989)) == WORLD_Z
  {
    ProjectedZ();
    ZeroRollUpProducts();
  }

  /** Just above the threshold (0.9991) world Y is the reference. */
  lemma ZeroRollUpAboveThreshold()
    ensures ReferenceAxis(Vec3(0.0, 0.04, 0.9991)) == WORLD_Y
  {
    ProjectedY();
    ZeroRollUpProducts();
  }

  lemma ProjectedZ()
    ensures ProjectOntoPlane(WORLD_Z, Vec3(0.0, 0.04, 0.9989)) == Vec3(0.0, -0.039956, 0.00219879)
  {
  }

  lemma ProjectedY()
    ensures ProjectOntoPlane(WORLD_Y, Vec3(0.0, 0.04, 0.9991)) == Vec3(0.0, 0.9984, -0.039964)
  {
  }

  /** The products behind ZeroRollUpFlipsAtThreshold. */
  lemma ZeroRollUpProducts()
    ensures LengthSq3(Vec3(0.0, -0.039956, 0.00219879)) >= DEGENERATE
    ensures LengthSq3(Vec3(0.0, 0.9984, -0.039964)) >= DEGENERATE
    ensures NearlyOpposite(Vec3(0.0, -0.039956, 0.00219879), Vec3(0.0, 0.9984, -0.039964))
  {
    assert Dot3(Vec3(0.0, -0.039956, 0.00219879), Vec3(0.0, 0.9984, -0.039964)) == -0.03997994284356;
    assert LengthSq3(Vec3(0.0, -0.039956, 0.00219879)) == 0.0016013166134641;
    assert LengthSq3(Vec3(0.0, 0.9984, -0.039964)) == 0.998399681296;
  }

  /** The vectors get_current_roll_angle derives from the view. */
  datatype RollFrame = RollFrame(viewUp: Vec3, viewDir: Vec3,
                                 zeroRollUp: Vec3, zeroRollRight: Vec3,
                                 viewUpProj: Vec3)

  function RollFrameOf(m: HostMath, rotation: Quat): RollFrame {
    var basis := m.viewBasis(rotation);
    var viewUp := Normalize3(m, basis.col1);
    var viewDir := Neg3(Normalize3(m, basis.col2));
    var zeroRollUp := Normalize3(m, ZeroRollUpRaw(viewDir));
    var zeroRollRight := Normalize3(m, Cross3(viewDir, zeroRollUp));
    RollFrame(viewUp, viewDir, zeroRollUp, zeroRollRight, ProjectOntoPlane(viewUp, viewDir))
  }

  function Clamp(x: real, lo: real, hi: real): real {
    if x > hi then hi else if x < lo then lo else x
  }

  /** The dot product whose arc cosine is the roll magnitude. */
  function RollCosine(m: HostMath, f: RollFrame): (c: real)
    ensures -1.0 <= c <= 1.0
  {
    Clamp(Dot3(Normalize3(m, f.viewUpProj), f.zeroRollUp), -1.0, 1.0)
  }

  /** get_current_roll_angle for a view with the given rotation. */
  function CurrentRollAngle(m: HostMath, rotation: Quat): (angle: real)
    ensures var f := RollFrameOf(m, rotation);
            LengthSq3(f.viewUpProj) < DEGENERATE ==> angle == 0.0
    ensures AcosInRange(m) ==> -PI <= angle <= PI
    ensures var f := RollFrameOf(m, rotation);
            AcosInRange(m) && LengthSq3(f.viewUpProj) >= DEGENERATE ==>
              && Abs(angle) == m.acos(RollCosine(m, f))
              && (Dot3(Normalize3(m, f.viewUpProj), f.zeroRollRight) > 0.0 ==> angle <= 0.0)
              && (angle < 0.0 ==> Dot3(Normalize3(m, f.viewUpProj), f.zeroRollRight) > 0.0)
  {
    var f := RollFrameOf(m, rotation);
    if LengthSq3(f.viewUpProj) < DEGENERATE then 0.0
    else
      var viewUpProj := Normalize3(m, f.viewUpProj);
      var angle := m.acos(RollCosine(m, f));
      if Dot3(viewUpProj, f.zeroRollRight) > 0.0 then -angle else angle
  }

  // ----- lemmas about the roll frame -----

  lemma DotScaleLeft(u: Vec3, k: real, w: Vec3)
    ensures Dot3(Scale3(u, k), w) == k * Dot3(u, w)
  {
  }

  lemma CrossScaleRight(d: Vec3, z: Vec3, k: real)
    ensures Cross3(d, Scale3(z, k)) == Scale3(Cross3(d, z), k)
  {
    TwoProductsScale(d.y, z.z, d.z, z.y, k);
    TwoProductsScale(d.z, z.x, d.x, z.z, k);
    TwoProductsScale(d.x, z.y, d.y, z.x, k);
    var c := Cross3(d, z);
    assert Cross3(d, Scale3(z, k)) ==
           Vec3(d.y * (z.z * k) - d.z * (z.y * k),
                d.z * (z.x * k) - d.x * (z.z * k),
                d.x * (z.y * k) - d.y * (z.x * k));
    assert Scale3(c, k) == Vec3(c.x * k, c.y * k, c.z * k);
  }

  lemma TwoProductsScale(a: real, b: real, c: real, e: real, k: real)
    ensures a * (b * k) - c * (e * k) == (a * b - c * e) * k
  {
  }

  lemma NormFactorPositive(m: HostMath, v: Vec3)
    requires NormalizesPositively(m)
    ensures NormFactor3(m, v) > 0.0
  {
  }

  lemma PositiveFactorKeepsSign(k: real, x: real)
    requires k > 0.0
    ensures k * x > 0.0 <==> x > 0.0
  {
  }

  /** The sign test of get_current_roll_angle is unaffected by the three
      normalizations: the angle is negated exactly when the raw projected up
      vector lies on the side of the raw zero-roll right vector. */
  lemma RollSignFromRawVectors(m: HostMath, rotation: Quat)
    requires NormalizesPositively(m)
    ensures var f := RollFrameOf(m, rotation);
            Dot3(Normalize3(m, f.viewUpProj), f.zeroRollRight) > 0.0
            <==> Dot3(f.viewUpProj, Cross3(f.viewDir, ZeroRollUpRaw(f.viewDir))) > 0.0
  {
    var f := RollFrameOf(m, rotation);
    var zr := ZeroRollUpRaw(f.viewDir);
    var rawRight := Cross3(f.viewDir, zr);
    var c := NormFactor3(m, zr);
    NormFactorPositive(m, zr);
    CrossScaleRight(f.viewDir, zr, c);
    var b := NormFactor3(m, Scale3(rawRight, c));
    NormFactorPositive(m, Scale3(rawRight, c));
    ScaleScale(rawRight, c, b);
    assert f.zeroRollRight == Scale3(rawRight, c * b);
    var a := NormFactor3(m, f.viewUpProj);
    NormFactorPositive(m, f.viewUpProj);
    PositiveProduct(c, b);
    SignOfScaledDot(f.viewUpProj, rawRight, a, c * b);
  }

  lemma ScaleScale(v: Vec3, c: real, b: real)
    ensures Scale3(Scale3(v, c), b) == Scale3(v, c * b)
  {
  }

  lemma PositiveProduct(c: real, b: real)
    requires c > 0.0 && b > 0.0
    ensures c * b > 0.0
  {
  }

  lemma SignOfScaledDot(p: Vec3, x: Vec3, a: real, e: real)
    requires a > 0.0 && e > 0.0
    ensures Dot3(Scale3(p, a), Scale3(x, e)) > 0.0 <==> Dot3(p, x) > 0.0
  {
    assert Dot3(Scale3(p, a), Scale3(x, e)) == (a * e) * Dot3(p, x);
    PositiveProduct(a, e);
    PositiveFactorKeepsSign(a * e, Dot3(p, x));
  }

  lemma DotSub(a: Vec3, b: Vec3, n: Vec3)
    ensures Dot3(Sub3(a, b), n) == Dot3(a, n) - Dot3(b, n)
  {
  }

  /** For a unit normal, the projection removes every component along it. */
  lemma {:induction false} ProjectionIsPerpendicular(v: Vec3, n: Vec3)
    requires Dot3(n, n) == 1.0
    ensures Dot3(ProjectOntoPlane(v, n), n) == 0.0
  {
    DotSub(v, Scale3(n, Dot3(v, n)), n);
    DotScaleLeft(n, Dot3(v, n), n);
  }

  /** For a unit view direction the zero-roll up vector and the projected view
      up vector both lie in the view plane. */
  lemma ZeroRollUpPerpendicular(viewDir: Vec3, viewUp: Vec3)
    requires Dot3(viewDir, viewDir) == 1.0
    ensures Dot3(ZeroRollUpRaw(viewDir), viewDir) == 0.0
    ensures Dot3(ProjectOntoPlane(viewUp, viewDir), viewDir) == 0.0
  {
    ProjectionIsPerpendicular(ReferenceAxis(viewDir), viewDir);
    ProjectionIsPerpendicular(viewUp, viewDir);
  }

  /** For a unit view direction the world-X fallback is never taken: the
      preferred reference axis always projects to a long enough vector. */
  lemma AbsSquare(x: real)
    ensures Abs(x) * Abs(x) == x * x
  {
  }

  lemma SquareBelow(t: real, c: real)
    requires 0.0 <= t <= c
    ensures t * t <= c * c
  {
  }

  lemma NoFallbackForUnitViewDir(d: Vec3)
    requires Dot3(d, d) == 1.0
    ensures ReferenceAxis(d) != WORLD_X
  {
    var zz := d.z * d.z;
    if Abs(Dot3(d, WORLD_Z)) > ALIGNED {
      assert Abs(d.z) > ALIGNED;
      assert zz > 0.998001 by {
        assert Abs(d.z) * Abs(d.z) == zz;
        assert Abs(d.z) * Abs(d.z) > ALIGNED * ALIGNED;
      }
      var p := ProjectOntoPlane(WORLD_Y, d);
      assert Dot3(WORLD_Y, d) == d.y;
      assert p == Vec3(-d.x * d.y, 1.0 - d.y * d.y, -d.z * d.y);
      var yy := d.y * d.y;
      assert yy < 0.002 by {
        assert d.x * d.x >= 0.0;
      }
      assert LengthSq3(p) == (d.x * d.x + d.z * d.z) * yy + (1.0 - yy) * (1.0 - yy);
      assert (d.x * d.x + d.z * d.z) * yy >= 0.0 by {
        assert d.x * d.x >= 0.0 && d.z * d.z >= 0.0 && yy >= 0.0;
        ScaleBound(0.0, d.x * d.x + d.z * d.z, yy);
      }
      assert (1.0 - yy) * (1.0 - yy) >= 0.99 by {
        SquareBelow(0.998, 1.0 - yy);
      }
    } else {
      assert Abs(d.z) <= ALIGNED;
      assert zz <= 0.998001 by {
        AbsSquare(d.z);
        SquareBelow(Abs(d.z), ALIGNED);
      }
      var p := ProjectOntoPlane(WORLD_Z, d);
      assert Dot3(WORLD_Z, d) == d.z;
      assert p == Vec3(-d.x * d.z, -d.y * d.z, 1.0 - zz);
      assert LengthSq3(p) == (d.x * d.x + d.y * d.y) * zz + (1.0 - zz) * (1.0 - zz);
      assert LengthSq3(p) == 1.0 - zz;
    }
  }

  // ---------------------------------------------------------------------------
  // apply_view_roll
  // ---------------------------------------------------------------------------

  /** The rotation apply_view_roll writes: the given rotation turned about
      its Euler Z axis by angle. */
  function RolledRotation(m: HostMath, rotation: Quat, angle: real): Quat {
    m.toQuaternion(m.rotateAxisZ(m.toEuler(rotation), angle))
  }

  /** apply_view_roll: writes only the view rotation, derived from the given
      rotation and not from the view's current one. */
  method ApplyViewRoll(ctx: Context, rotation: Quat, angle: real)
    modifies ctx.view
    ensures ctx.view.viewRotation == RolledRotation(ctx.math, rotation, angle)
    ensures ctx.view.viewLocation == old(ctx.view.viewLocation)
    ensures ctx.view.viewDistance == old(ctx.view.viewDistance)
    ensures ctx.view.isPerspective == old(ctx.view.isPerspective)
  {
    var m := ctx.math;
    var rot := m.toEuler(rotation);
    rot := m.rotateAxisZ(rot, angle);
    ctx.view.viewRotation := m.toQuaternion(rot);
  }
}

/** The host application as the core sees it: the 3D view it mutates, the
    viewport region, and the host's vector math, which the model leaves
    opaque and passes around as a record of functions. */
module Host {
  import opened Common

  /** The viewport region (context.region). */
  datatype Region = Region(width: int, height: int)

  /** The xyz parts of columns 0, 1 and 2 of view_matrix.inverted():
      the view's right, up and backward axes in world space. */
  datatype Basis = Basis(col0: Vec3, col1: Vec3, col2: Vec3)

  /** Host math the core calls but does not define.
      - invLength2/invLength3: the factor normalize() scales a non-zero vector by (1/length);
      - acos: math.acos;
      - viewBasis: the inverted view matrix's rotation columns, a function of the view rotation;
      - toEuler/toQuaternion: Quaternion.to_euler('XYZ') and Euler.to_quaternion();
      - rotateAxisZ: Euler.rotate_axis("Z", angle);
      - angleSigned: Vector.angle_signed for 2D vectors. */
  datatype HostMath = HostMath(
    invLength2: Vec2 -> real,
    invLength3: Vec3 -> real,
    acos: real -> real,
    viewBasis: Quat -> Basis,
    toEuler: Quat -> Euler,
    toQuaternion: Euler -> Quat,
    rotateAxisZ: (Euler, real) -> Euler,
    angleSigned: (Vec2, Vec2) -> real)

  /** Range fact of normalize: a non-zero vector is scaled by a positive factor. */
  ghost predicate NormalizesPositively(m: HostMath) {
    && (forall v: Vec3 :: LengthSq3(v) != 0.0 ==> m.invLength3(v) > 0.0)
    && (forall v: Vec2 :: LengthSq2(v) != 0.0 ==> m.invLength2(v) > 0.0)
  }

  /** Range fact of acos: on [-1, 1] it yields an angle in [0, pi]. */
  ghost predicate AcosInRange(m: HostMath) {
    forall c :: -1.0 <= c <= 1.0 ==> 0.0 <= m.acos(c) <= PI
  }

  /** The factor normalize() applies: mathutils leaves a zero vector as it is. */
  function NormFactor3(m: HostMath, v: Vec3): real {
    if LengthSq3(v) == 0.0 then 1.0 else m.invLength3(v)
  }

  function NormFactor2(m: HostMath, v: Vec2): real {
    if LengthSq2(v) == 0.0 then 1.0 else m.invLength2(v)
  }

  /** vector.normalized() */
  function Normalize3(m: HostMath, v: Vec3): Vec3 { Scale3(v, NormFactor3(m, v)) }

  /** vector.normalize() on a 2D vector */
  function Normalize2(m: HostMath, v: Vec2): Vec2 { Scale2(v, NormFactor2(m, v)) }

  /** The 3D view's region data (context.space_data.region_3d), which the
      navigation handlers update in place. */
  class RegionView {
    var viewLocation: Vec3
    var viewDistance: real
    var viewRotation: Quat
    var isPerspective: bool

    constructor (location: Vec3, distance: real, rotation: Quat, perspective: bool)
      ensures viewLocation == location && viewDistance == distance
      ensures viewRotation == rotation && isPerspective == perspective
    {
      viewLocation := location;
      viewDistance := distance;
      viewRotation := rotation;
      isPerspective := perspective;
    }
  }

  /** What an operator reads from bpy.types.Context. */
  datatype Context = Context(region: Option<Region>, view: RegionView, math: HostMath)
}

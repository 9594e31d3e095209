/** Values shared by every part of the model: optional values, real vectors,
    the host's pointer events and the operator results. */
module Common {

  datatype Option<T> = None | Some(value: T)

  /** math.pi, over the reals. */
  const PI: real := 3.141592653589793

  function Abs(x: real): real { if x < 0.0 then -x else x }

  /** True when x is a whole number. */
  predicate IsIntegral(x: real) { x.Floor as real == x }

  // ----- two-dimensional vectors (pointer positions, screen directions) -----

  datatype Vec2 = Vec2(x: real, y: real)

  function Sub2(a: Vec2, b: Vec2): Vec2 { Vec2(a.x - b.x, a.y - b.y) }
  function Scale2(v: Vec2, k: real): Vec2 { Vec2(v.x * k, v.y * k) }
  function Dot2(a: Vec2, b: Vec2): real { a.x * b.x + a.y * b.y }
  function Cross2(a: Vec2, b: Vec2): real { a.x * b.y - a.y * b.x }
  function LengthSq2(v: Vec2): real { Dot2(v, v) }

  // ----- three-dimensional vectors (world-space axes, view location) -----

  datatype Vec3 = Vec3(x: real, y: real, z: real)

  const ZERO3: Vec3 := Vec3(0.0, 0.0, 0.0)
  const WORLD_X: Vec3 := Vec3(1.0, 0.0, 0.0)
  const WORLD_Y: Vec3 := Vec3(0.0, 1.0, 0.0)
  const WORLD_Z: Vec3 := Vec3(0.0, 0.0, 1.0)

  function Add3(a: Vec3, b: Vec3): Vec3 { Vec3(a.x + b.x, a.y + b.y, a.z + b.z) }
  function Sub3(a: Vec3, b: Vec3): Vec3 { Vec3(a.x - b.x, a.y - b.y, a.z - b.z) }
  function Neg3(v: Vec3): Vec3 { Vec3(-v.x, -v.y, -v.z) }
  function Scale3(v: Vec3, k: real): Vec3 { Vec3(v.x * k, v.y * k, v.z * k) }
  function Dot3(a: Vec3, b: Vec3): real { a.x * b.x + a.y * b.y + a.z * b.z }
  function Cross3(a: Vec3, b: Vec3): Vec3 {
    Vec3(a.y * b.z - a.z * b.y, a.z * b.x - a.x * b.z, a.x * b.y - a.y * b.x)
  }
  function LengthSq3(v: Vec3): real { Dot3(v, v) }

  /** Rotations as the host stores them; they are only ever passed to host conversions. */
  datatype Quat = Quat(w: real, x: real, y: real, z: real)
  datatype Euler = Euler(x: real, y: real, z: real)

  // ----- operator results and host events -----

  /** The one element of the set an operator's invoke/modal returns. */
  datatype Status = RunningModal | Cancelled | Finished | PassThrough

  datatype EventType = LeftMouse | RightMouse | Esc | MouseMove | OtherType
  datatype EventValue = Press | Release | OtherValue

  /** A host event: type, value, the pointer in region and in window
      coordinates, and the shift modifier. */
  datatype Event = Event(kind: EventType, value: EventValue,
                         regionX: int, regionY: int,
                         windowX: int, windowY: int,
                         shift: bool)

  /** (event.mouse_region_x, event.mouse_region_y) */
  function RegionPos(ev: Event): Vec2 { Vec2(ev.regionX as real, ev.regionY as real) }

  /** (event.mouse_x, event.mouse_y) */
  function WindowPos(ev: Event): Vec2 { Vec2(ev.windowX as real, ev.windowY as real) }

  predicate IsLeftPress(ev: Event) { ev.kind == LeftMouse && ev.value == Press }
}

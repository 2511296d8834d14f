/** Vocabulary shared by every component of the room viewer: the five paintable
    surfaces, optional values, 3-vectors, the room's dimensions, the surfaces'
    outward normals and the numeric helpers (clamping, linear interpolation)
    that the camera and visibility code use. */
module Surfaces {

  /** The closed set of paintable surfaces (`SurfaceType`). */
  datatype Surface = Wall1 | Wall2 | Wall3 | Wall4 | Floor

  /** The surfaces in declaration order: the order of the object literals the
      components iterate with `forEach` and `Object.entries`. */
  const AllSurfaces: seq<Surface> := [Wall1, Wall2, Wall3, Wall4, Floor]

  /** The walls in declaration order. */
  const Walls: seq<Surface> := [Wall1, Wall2, Wall3, Wall4]

  predicate IsWall(s: Surface) { s != Floor }

  /** A surface's position in `AllSurfaces`. */
  function IndexOf(s: Surface): (i: nat)
    ensures i < |AllSurfaces| && AllSurfaces[i] == s
  {
    match s
    case Wall1 => 0
    case Wall2 => 1
    case Wall3 => 2
    case Wall4 => 3
    case Floor => 4
  }

  /** Every surface is one of the five listed. */
  lemma EverySurfaceListed()
    ensures forall s: Surface :: s in AllSurfaces
    ensures forall s: Surface :: IsWall(s) <==> s in Walls
  {
    forall s: Surface ensures s in AllSurfaces && (IsWall(s) <==> s in Walls) {
      match s
      case Wall1 =>
      case Wall2 =>
      case Wall3 =>
      case Wall4 =>
      case Floor =>
    }
  }

  /** The caption both button components print under a surface's button. */
  function Label(s: Surface): (l: string)
    ensures IsWall(s) <==> |l| >= 4 && l[|l| - 4..] == "Wall"
  {
    match s
    case Wall1 => "Front Wall"
    case Wall2 => "Back Wall"
    case Wall3 => "Left Wall"
    case Wall4 => "Right Wall"
    case Floor => "Floor"
  }

  /** Different surfaces carry different captions. */
  lemma LabelsDistinct(s: Surface, t: Surface)
    requires s != t
    ensures Label(s) != Label(t)
  {
  }

  datatype Option<T> = None | Some(value: T)

  /** A point or direction in world coordinates (three.js `Vector3`). */
  datatype Vec3 = Vec3(x: real, y: real, z: real)

  function Dot(a: Vec3, b: Vec3): real
  {
    a.x * b.x + a.y * b.y + a.z * b.z
  }

  function Sub(a: Vec3, b: Vec3): Vec3
  {
    Vec3(a.x - b.x, a.y - b.y, a.z - b.z)
  }

  /** What `getWorldDirection` delivers: a unit vector, so each component lies
      in [-1, 1]. Only the component bounds are used by the proofs. */
  predicate IsDirection(d: Vec3)
  {
    -1.0 <= d.x <= 1.0 && -1.0 <= d.y <= 1.0 && -1.0 <= d.z <= 1.0
  }

  /** `{ width, height, depth }` of the room. */
  datatype RoomDimensions = RoomDimensions(width: real, height: real, depth: real)

  /** A unit vector along one axis. */
  predicate IsAxis(n: Vec3)
  {
    || (n.x * n.x == 1.0 && n.y == 0.0 && n.z == 0.0)
    || (n.x == 0.0 && n.y * n.y == 1.0 && n.z == 0.0)
    || (n.x == 0.0 && n.y == 0.0 && n.z * n.z == 1.0)
  }

  /** The axis-aligned outward-facing normals both visibility components use:
      wall1 faces +z, wall2 -z, wall3 +x, wall4 -x and the floor +y. Walls
      are vertical: their normals are horizontal. */
  function Normal(s: Surface): (n: Vec3)
    ensures IsAxis(n)
    ensures s == Floor <==> n.y == 1.0
    ensures IsWall(s) <==> n.y == 0.0
  {
    match s
    case Wall1 => Vec3(0.0, 0.0, 1.0)
    case Wall2 => Vec3(0.0, 0.0, -1.0)
    case Wall3 => Vec3(1.0, 0.0, 0.0)
    case Wall4 => Vec3(-1.0, 0.0, 0.0)
    case Floor => Vec3(0.0, 1.0, 0.0)
  }

  /** `dot(direction, normal)` for a surface, read off the axis its normal
      points along. */
  function Facing(s: Surface, dir: Vec3): (d: real)
    ensures IsDirection(dir) ==> -1.0 <= d <= 1.0
  {
    match s
    case Wall1 => dir.z
    case Wall2 => -dir.z
    case Wall3 => dir.x
    case Wall4 => -dir.x
    case Floor => dir.y
  }

  /** `Facing` is the dot product with the surface's normal. */
  lemma FacingIsDot(s: Surface, dir: Vec3)
    ensures Facing(s, dir) == Dot(dir, Normal(s))
  {
  }

  /** `Math.PI` as JavaScript prints it. */
  const PI: real := 3.141592653589793

  /** `Math.max(lo, Math.min(hi, x))`. */
  function Clamp(lo: real, hi: real, x: real): (r: real)
    requires lo <= hi
    ensures lo <= r <= hi
    ensures lo <= x <= hi ==> r == x
    ensures x < lo ==> r == lo
    ensures hi < x ==> r == hi
  {
    var m := if hi < x then hi else x;
    if m < lo then lo else m
  }

  function Max(a: real, b: real): real { if a < b then b else a }

  function Min(a: real, b: real): real { if a < b then a else b }

  /** `THREE.MathUtils.lerp(a, b, t)`. For t in [0, 1] the result lies between
      the two end points. */
  function Lerp(a: real, b: real, t: real): (r: real)
    ensures 0.0 <= t <= 1.0 ==> Min(a, b) <= r <= Max(a, b)
    ensures t == 0.0 ==> r == a
    ensures t == 1.0 ==> r == b
  {
    LerpBetween(a, b, t);
    (1.0 - t) * a + t * b
  }

  lemma LerpBetween(a: real, b: real, t: real)
    ensures 0.0 <= t <= 1.0 ==> Min(a, b) <= (1.0 - t) * a + t * b <= Max(a, b)
  {
    if 0.0 <= t <= 1.0 {
      var r := (1.0 - t) * a + t * b;
      assert r - a == t * (b - a);
      assert r - b == (1.0 - t) * (a - b);
      if a <= b {
        MulNonNegative(t, b - a);
        MulNonNegative(1.0 - t, b - a);
      } else {
        MulNonNegative(t, a - b);
        MulNonNegative(1.0 - t, a - b);
      }
    }
  }

  lemma MulNonNegative(x: real, y: real)
    requires 0.0 <= x && 0.0 <= y
    ensures 0.0 <= x * y
  {
  }

  /** The facts assumed of `Math.pow(x, 1.5)`, which the model keeps abstract:
      it fixes 0 and 1 and maps [0, 1] monotonically into [0, 1]. */
  ghost predicate PowFacts(pow: real -> real)
  {
    && pow(0.0) == 0.0
    && pow(1.0) == 1.0
    && (forall x :: 0.0 <= x <= 1.0 ==> 0.0 <= pow(x) <= 1.0)
    && (forall x, y :: 0.0 <= x <= y <= 1.0 ==> pow(x) <= pow(y))
  }
}

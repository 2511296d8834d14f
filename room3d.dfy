/** The room canvas: its own drag-to-orbit camera controller (used when
    custom controls are on) and the keyboard shortcuts that flip the canvas's
    display flags.

    The camera position is kept in polar form, a unit direction from the
    orbit target and the distance `|pos|`; the trigonometric placement a drag
    computes from the two angles is the parameter `orbit`. */
module Room3D {
  import opened Surfaces

  /** Radians per pixel of drag. */
  const Sensitivity: real := 0.003
  /** Distance units per wheel delta unit. */
  const ZoomSensitivity: real := 0.001
  const MinDistance: real := 2.0
  const MaxDistance: real := 20.0
  /** Bound of the vertical orbit angle. */
  const OrbitPitchLimit: real := PI / 3.0

  /** Camera position as direction (unit vector) times distance. */
  datatype Placement = Placement(direction: Vec3, distance: real)

  datatype OrbitState = OrbitState(
    isMoving: bool,
    previousX: real,
    previousY: real,
    rotationX: real,   // vertical angle
    rotationY: real,   // horizontal angle
    placement: Placement)

  /** The controller's refs when it mounts, with the camera placed at `start`. */
  function InitialOrbit(start: Placement): (st: OrbitState)
    ensures !st.isMoving && st.rotationX == 0.0 && st.rotationY == 0.0 && st.placement == start
  {
    OrbitState(false, 0.0, 0.0, 0.0, 0.0, start)
  }

  predicate RotationInRange(st: OrbitState)
  {
    -OrbitPitchLimit <= st.rotationX <= OrbitPitchLimit
  }

  /** Only the left button starts a drag and records the cursor. */
  function AfterMouseDown(st: OrbitState, button: int, x: real, y: real): (r: OrbitState)
    ensures button != 0 ==> r == st
    ensures button == 0 ==> r == st.(isMoving := true, previousX := x, previousY := y)
  {
    if button == 0 then st.(isMoving := true, previousX := x, previousY := y) else st
  }

  /** A drag move turns both angles by the cursor delta, clamps the vertical
      one to [-PI/3, PI/3] and places the camera on the orbit for the new
      angles; a move without a drag changes nothing. */
  function AfterMouseMove(st: OrbitState, x: real, y: real, orbit: (real, real) -> Placement): (r: OrbitState)
    ensures !st.isMoving ==> r == st
    ensures st.isMoving ==> RotationInRange(r)
    ensures st.isMoving ==> r.rotationY == st.rotationY - (x - st.previousX) * Sensitivity
    ensures st.isMoving ==>
      r.rotationX == Clamp(-OrbitPitchLimit, OrbitPitchLimit, st.rotationX - (y - st.previousY) * Sensitivity)
    ensures st.isMoving ==> r.placement == orbit(r.rotationX, r.rotationY)
    ensures st.isMoving ==> r.isMoving && r.previousX == x && r.previousY == y
  {
    if !st.isMoving then st
    else
      var deltaX := x - st.previousX;
      var deltaY := y - st.previousY;
      var rotY := st.rotationY - deltaX * Sensitivity;
      var rotX := Max(-OrbitPitchLimit, Min(OrbitPitchLimit, st.rotationX - deltaY * Sensitivity));
      st.(rotationX := rotX, rotationY := rotY, placement := orbit(rotX, rotY),
          previousX := x, previousY := y)
  }

  /** Mouse up and mouse leave end a drag whatever the button. */
  function AfterMouseUp(st: OrbitState): (r: OrbitState)
    ensures !r.isMoving && r.(isMoving := st.isMoving) == st
  {
    st.(isMoving := false)
  }

  /** The wheel moves the camera along its direction to the clamped distance. */
  function AfterWheel(st: OrbitState, deltaY: real): (r: OrbitState)
    ensures MinDistance <= r.placement.distance <= MaxDistance
    ensures r.placement.distance == Clamp(MinDistance, MaxDistance, st.placement.distance + deltaY * ZoomSensitivity)
    ensures r.placement.direction == st.placement.direction
    ensures r.(placement := st.placement) == st
  {
    var currentDistance := st.placement.distance;
    var newDistance := Max(MinDistance, Min(MaxDistance, currentDistance + deltaY * ZoomSensitivity));
    st.(placement := Placement(st.placement.direction, newDistance))
  }

  datatype OrbitEvent =
    | MouseDown(button: int, x: real, y: real)
    | MouseMove(x: real, y: real)
    | MouseUp        // also `mouseleave`
    | Wheel(deltaY: real)

  function Handle(st: OrbitState, e: OrbitEvent, orbit: (real, real) -> Placement): OrbitState
  {
    match e
    case MouseDown(button, x, y) => AfterMouseDown(st, button, x, y)
    case MouseMove(x, y) => AfterMouseMove(st, x, y, orbit)
    case MouseUp => AfterMouseUp(st)
    case Wheel(deltaY) => AfterWheel(st, deltaY)
  }

  function Replay(st: OrbitState, events: seq<OrbitEvent>, orbit: (real, real) -> Placement): OrbitState
    decreases |events|
  {
    if events == [] then st else Replay(Handle(st, events[0], orbit), events[1..], orbit)
  }

  /** The vertical angle never leaves [-PI/3, PI/3]. */
  lemma {:induction false} RotationAlwaysInRange(st: OrbitState, events: seq<OrbitEvent>, orbit: (real, real) -> Placement)
    requires RotationInRange(st)
    ensures RotationInRange(Replay(st, events, orbit))
    decreases |events|
  {
    if events != [] {
      RotationAlwaysInRange(Handle(st, events[0], orbit), events[1..], orbit);
    }
  }

  /** Without a left-button press nothing but the wheel moves the camera: the
      angles stay put and the direction is kept. */
  lemma {:induction false} NoPressNoTurn(st: OrbitState, events: seq<OrbitEvent>, orbit: (real, real) -> Placement)
    requires !st.isMoving
    requires forall i :: 0 <= i < |events| ==> !(events[i].MouseDown? && events[i].button == 0)
    ensures Replay(st, events, orbit).rotationX == st.rotationX
    ensures Replay(st, events, orbit).rotationY == st.rotationY
    ensures Replay(st, events, orbit).placement.direction == st.placement.direction
    ensures !Replay(st, events, orbit).isMoving
    decreases |events|
  {
    if events != [] {
      NoPressNoTurn(Handle(st, events[0], orbit), events[1..], orbit);
    }
  }

  /** The canvas's display flags. */
  datatype CanvasFlags = CanvasFlags(
    controlsVisible: bool,
    sidebarVisible: bool,
    orbitEnabled: bool,
    freezeOrbit: bool,
    useCustomControls: bool)

  const InitialFlags: CanvasFlags := CanvasFlags(true, true, true, false, false)

  /** The four Ctrl+Shift key listeners, each run on every key-down: S flips
      the sidebar, F freezes the orbit, Z flips the controls panel and C
      switches between orbit and custom controls. */
  function AfterKeyDown(f: CanvasFlags, ctrlKey: bool, shiftKey: bool, key: string): (r: CanvasFlags)
    ensures !(ctrlKey && shiftKey) ==> r == f
    ensures key != "S" && key != "F" && key != "Z" && key != "C" ==> r == f
    ensures ctrlKey && shiftKey && key == "S" ==> r == f.(sidebarVisible := !f.sidebarVisible)
    ensures ctrlKey && shiftKey && key == "F" ==> r == f.(freezeOrbit := !f.freezeOrbit)
    ensures ctrlKey && shiftKey && key == "Z" ==> r == f.(controlsVisible := !f.controlsVisible)
    ensures ctrlKey && shiftKey && key == "C" ==> r == f.(useCustomControls := !f.useCustomControls)
    ensures r.orbitEnabled == f.orbitEnabled
  {
    var shortcut := ctrlKey && shiftKey;
    var f1 := if shortcut && key == "S" then f.(sidebarVisible := !f.sidebarVisible) else f;
    var f2 := if shortcut && key == "F" then f1.(freezeOrbit := !f1.freezeOrbit) else f1;
    var f3 := if shortcut && key == "Z" then f2.(controlsVisible := !f2.controlsVisible) else f2;
    if shortcut && key == "C" then f3.(useCustomControls := !f3.useCustomControls) else f3
  }

  /** Pressing the same key combination twice restores every flag. */
  lemma ShortcutTwiceRestores(f: CanvasFlags, ctrlKey: bool, shiftKey: bool, key: string)
    ensures AfterKeyDown(AfterKeyDown(f, ctrlKey, shiftKey, key), ctrlKey, shiftKey, key) == f
  {
  }

  /** The orbit controls respond iff the playground allows it and the orbit is
      not frozen. */
  function OrbitControlsEnabled(f: CanvasFlags): (b: bool)
    ensures b <==> f.orbitEnabled && !f.freezeOrbit
    ensures f.freezeOrbit ==> !b
  {
    f.orbitEnabled && !f.freezeOrbit
  }

  /** The custom controller, with its refs and the camera it moves. */
  class OrbitCameraController {
    var isMoving: bool
    var previousX: real
    var previousY: real
    var rotationX: real
    var rotationY: real
    var placement: Placement

    function Model(): OrbitState
      reads this
    {
      OrbitState(isMoving, previousX, previousY, rotationX, rotationY, placement)
    }

    ghost predicate Valid()
      reads this
    {
      RotationInRange(Model())
    }

    constructor (start: Placement)
      ensures Valid() && Model() == InitialOrbit(start)
    {
      isMoving := false;
      previousX, previousY := 0.0, 0.0;
      rotationX, rotationY := 0.0, 0.0;
      placement := start;
    }

    method HandleMouseDown(button: int, clientX: real, clientY: real)
      requires Valid()
      modifies this
      ensures Valid() && Model() == AfterMouseDown(old(Model()), button, clientX, clientY)
    {
      if button == 0 {
        isMoving := true;
        previousX, previousY := clientX, clientY;
      }
    }

    method HandleMouseMove(clientX: real, clientY: real, orbit: (real, real) -> Placement)
      requires Valid()
      modifies this
      ensures Valid() && Model() == AfterMouseMove(old(Model()), clientX, clientY, orbit)
    {
      if !isMoving {
        return;
      }
      var deltaX := clientX - previousX;
      var deltaY := clientY - previousY;
      rotationY := rotationY - deltaX * Sensitivity;
      rotationX := rotationX - deltaY * Sensitivity;
      rotationX := Max(-OrbitPitchLimit, Min(OrbitPitchLimit, rotationX));
      placement := orbit(rotationX, rotationY);
      previousX, previousY := clientX, clientY;
    }

    /** Bound to both `mouseup` and `mouseleave`. */
    method HandleMouseUp()
      requires Valid()
      modifies this
      ensures Valid() && Model() == AfterMouseUp(old(Model()))
    {
      isMoving := false;
    }

    method HandleWheel(deltaY: real)
      requires Valid()
      modifies this
      ensures Valid() && Model() == AfterWheel(old(Model()), deltaY)
    {
      var currentDistance := placement.distance;
      var newDistance := Max(MinDistance, Min(MaxDistance, currentDistance + deltaY * ZoomSensitivity));
      placement := Placement(placement.direction, newDistance);
    }
  }

  /** The canvas content's state hooks for the flags. */
  class CanvasContent {
    var controlsVisible: bool
    var sidebarVisible: bool
    var orbitEnabled: bool
    var freezeOrbit: bool
    var useCustomControls: bool

    function Flags(): CanvasFlags
      reads this
    {
      CanvasFlags(controlsVisible, sidebarVisible, orbitEnabled, freezeOrbit, useCustomControls)
    }

    constructor ()
      ensures Flags() == InitialFlags
    {
      controlsVisible := true;
      sidebarVisible := true;
      orbitEnabled := true;
      freezeOrbit := false;
      useCustomControls := false;
    }

    method HandleKeyDown(ctrlKey: bool, shiftKey: bool, key: string)
      modifies this
      ensures Flags() == AfterKeyDown(old(Flags()), ctrlKey, shiftKey, key)
    {
      if ctrlKey && shiftKey && key == "S" {
        sidebarVisible := !sidebarVisible;
      }
      if ctrlKey && shiftKey && key == "F" {
        freezeOrbit := !freezeOrbit;
      }
      if ctrlKey && shiftKey && key == "Z" {
        controlsVisible := !controlsVisible;
      }
      if ctrlKey && shiftKey && key == "C" {
        useCustomControls := !useCustomControls;
      }
    }

    /** The setter handed to the playground. */
    method SetOrbitEnabled(enabled: bool)
      modifies this
      ensures Flags() == old(Flags()).(orbitEnabled := enabled)
    {
      orbitEnabled := enabled;
    }
  }
}

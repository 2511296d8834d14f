/** The first-person look controller (`CameraController`): a set of held
    keys, a left-button drag, and yaw/pitch accumulators that the key handler
    of each frame and the drag handler both update. Pitch is clamped to
    [-PI/2, PI/2]; yaw is not clamped. */
module CameraController {
  import opened Surfaces

  /** Radians per frame per held arrow key. */
  const RotationSpeed: real := 0.02
  /** Radians per pixel of drag. */
  const MouseRotationSpeed: real := 0.002
  const PitchLimit: real := PI / 2.0

  datatype LookState = LookState(
    keysPressed: set<string>,
    isMouseDown: bool,
    mouseX: real,
    mouseY: real,
    yaw: real,
    pitch: real)

  const InitialLook: LookState := LookState({}, false, 0.0, 0.0, 0.0, 0.0)

  predicate PitchInRange(st: LookState)
  {
    -PitchLimit <= st.pitch <= PitchLimit
  }

  lemma InitialPitchInRange()
    ensures PitchInRange(InitialLook)
    ensures InitialLook.yaw == 0.0 && InitialLook.pitch == 0.0
  {
  }

  function AfterKeyDown(st: LookState, code: string): (r: LookState)
    ensures code in r.keysPressed
    ensures forall k :: k != code ==> (k in r.keysPressed <==> k in st.keysPressed)
    ensures r.(keysPressed := st.keysPressed) == st
  {
    st.(keysPressed := st.keysPressed + {code})
  }

  function AfterKeyUp(st: LookState, code: string): (r: LookState)
    ensures code !in r.keysPressed
    ensures forall k :: k != code ==> (k in r.keysPressed <==> k in st.keysPressed)
    ensures r.(keysPressed := st.keysPressed) == st
  {
    st.(keysPressed := st.keysPressed - {code})
  }

  /** Only the left button (0) starts a drag and records the cursor. */
  function AfterMouseDown(st: LookState, button: int, x: real, y: real): (r: LookState)
    ensures button != 0 ==> r == st
    ensures button == 0 ==> r == st.(isMouseDown := true, mouseX := x, mouseY := y)
  {
    if button == 0 then st.(isMouseDown := true, mouseX := x, mouseY := y) else st
  }

  /** Only the left button ends a drag. */
  function AfterMouseUp(st: LookState, button: int): (r: LookState)
    ensures button != 0 ==> r == st
    ensures button == 0 ==> !r.isMouseDown && r.(isMouseDown := st.isMouseDown) == st
  {
    if button == 0 then st.(isMouseDown := false) else st
  }

  /** A drag move turns by the cursor delta since the last sample and clamps
      pitch; a move without a drag changes nothing. */
  function AfterMouseMove(st: LookState, x: real, y: real): (r: LookState)
    ensures !st.isMouseDown ==> r == st
    ensures st.isMouseDown ==> PitchInRange(r)
    ensures st.isMouseDown ==> r.yaw == st.yaw - (x - st.mouseX) * MouseRotationSpeed
    ensures st.isMouseDown ==> r.pitch == Clamp(-PitchLimit, PitchLimit, st.pitch - (y - st.mouseY) * MouseRotationSpeed)
    ensures st.isMouseDown ==> r.mouseX == x && r.mouseY == y
    ensures r.keysPressed == st.keysPressed && r.isMouseDown == st.isMouseDown
  {
    if st.isMouseDown then
      var deltaX := x - st.mouseX;
      var deltaY := y - st.mouseY;
      var pitch := st.pitch - deltaY * MouseRotationSpeed;
      st.(yaw := st.yaw - deltaX * MouseRotationSpeed,
          pitch := Max(-PitchLimit, Min(PitchLimit, pitch)),
          mouseX := x, mouseY := y)
    else st
  }

  /** The per-frame update: left/right arrows turn yaw freely, up/down arrows
      turn pitch, each bounded on the side it moves towards. */
  function AfterFrame(st: LookState): (r: LookState)
    ensures PitchInRange(st) ==> PitchInRange(r)
    ensures r.yaw == st.yaw + (if "ArrowLeft" in st.keysPressed then RotationSpeed else 0.0)
                            - (if "ArrowRight" in st.keysPressed then RotationSpeed else 0.0)
    ensures "ArrowUp" !in st.keysPressed && "ArrowDown" !in st.keysPressed ==> r.pitch == st.pitch
    ensures "ArrowUp" in st.keysPressed && "ArrowDown" !in st.keysPressed ==>
      r.pitch == Min(st.pitch + RotationSpeed, PitchLimit)
    ensures "ArrowDown" in st.keysPressed && "ArrowUp" !in st.keysPressed ==>
      r.pitch == Max(st.pitch - RotationSpeed, -PitchLimit)
    ensures "ArrowUp" in st.keysPressed && "ArrowDown" in st.keysPressed ==>
      r.pitch == Max(Min(st.pitch + RotationSpeed, PitchLimit) - RotationSpeed, -PitchLimit)
    ensures r.keysPressed == st.keysPressed && r.isMouseDown == st.isMouseDown
    ensures r.mouseX == st.mouseX && r.mouseY == st.mouseY
  {
    var keys := st.keysPressed;
    var yaw1 := if "ArrowLeft" in keys then st.yaw + RotationSpeed else st.yaw;
    var yaw2 := if "ArrowRight" in keys then yaw1 - RotationSpeed else yaw1;
    var pitch1 := if "ArrowUp" in keys then Min(st.pitch + RotationSpeed, PitchLimit) else st.pitch;
    var pitch2 := if "ArrowDown" in keys then Max(pitch1 - RotationSpeed, -PitchLimit) else pitch1;
    st.(yaw := yaw2, pitch := pitch2)
  }

  /** Everything that reaches the controller. The wheel handler only cancels
      the browser's default action. */
  datatype LookEvent =
    | KeyDown(code: string)
    | KeyUp(code: string)
    | MouseDown(button: int, x: real, y: real)
    | MouseUp(button: int)
    | MouseMove(x: real, y: real)
    | Wheel
    | Frame

  function Handle(st: LookState, e: LookEvent): LookState
  {
    match e
    case KeyDown(code) => AfterKeyDown(st, code)
    case KeyUp(code) => AfterKeyUp(st, code)
    case MouseDown(button, x, y) => AfterMouseDown(st, button, x, y)
    case MouseUp(button) => AfterMouseUp(st, button)
    case MouseMove(x, y) => AfterMouseMove(st, x, y)
    case Wheel => st
    case Frame => AfterFrame(st)
  }

  function Replay(st: LookState, events: seq<LookEvent>): LookState
    decreases |events|
  {
    if events == [] then st else Replay(Handle(st, events[0]), events[1..])
  }

  /** Pitch never leaves [-PI/2, PI/2], whatever mix of frames, keys and drags. */
  lemma {:induction false} PitchAlwaysInRange(st: LookState, events: seq<LookEvent>)
    requires PitchInRange(st)
    ensures PitchInRange(Replay(st, events))
    decreases |events|
  {
    if events != [] {
      PitchAlwaysInRange(Handle(st, events[0]), events[1..]);
    }
  }

  function Frames(n: nat): (r: seq<LookEvent>)
    ensures |r| == n && forall i :: 0 <= i < n ==> r[i] == Frame
  {
    seq(n, i => Frame)
  }

  /** Yaw is never clamped: holding ArrowLeft alone for `n` frames turns the
      view by `n` times 0.02, however large. */
  lemma {:induction false} HeldLeftTurnsWithoutBound(st: LookState, n: nat)
    requires st.keysPressed == {"ArrowLeft"}
    ensures Replay(st, Frames(n)).yaw == st.yaw + n as real * RotationSpeed
    ensures Replay(st, Frames(n)).pitch == st.pitch
    decreases n
  {
    if n > 0 {
      var st1 := AfterFrame(st);
      assert Frames(n)[1..] == Frames(n - 1);
      HeldLeftTurnsWithoutBound(st1, n - 1);
    }
  }

  /** The controller's refs, mutated by the event handlers and the frame loop. */
  class LookController {
    var keysPressed: set<string>
    var isMouseDown: bool
    var mouseX: real
    var mouseY: real
    var yaw: real
    var pitch: real

    function Model(): LookState
      reads this
    {
      LookState(keysPressed, isMouseDown, mouseX, mouseY, yaw, pitch)
    }

    ghost predicate Valid()
      reads this
    {
      PitchInRange(Model())
    }

    constructor ()
      ensures Valid() && Model() == InitialLook
    {
      keysPressed := {};
      isMouseDown := false;
      mouseX, mouseY := 0.0, 0.0;
      yaw, pitch := 0.0, 0.0;
    }

    method HandleKeyDown(code: string)
      requires Valid()
      modifies this
      ensures Valid() && Model() == AfterKeyDown(old(Model()), code)
    {
      keysPressed := keysPressed + {code};
    }

    method HandleKeyUp(code: string)
      requires Valid()
      modifies this
      ensures Valid() && Model() == AfterKeyUp(old(Model()), code)
    {
      keysPressed := keysPressed - {code};
    }

    method HandleMouseDown(button: int, clientX: real, clientY: real)
      requires Valid()
      modifies this
      ensures Valid() && Model() == AfterMouseDown(old(Model()), button, clientX, clientY)
    {
      if button == 0 {
        isMouseDown := true;
        mouseX := clientX;
        mouseY := clientY;
      }
    }

    method HandleMouseUp(button: int)
      requires Valid()
      modifies this
      ensures Valid() && Model() == AfterMouseUp(old(Model()), button)
    {
      if button == 0 {
        isMouseDown := false;
      }
    }

    method HandleMouseMove(clientX: real, clientY: real)
      requires Valid()
      modifies this
      ensures Valid() && Model() == AfterMouseMove(old(Model()), clientX, clientY)
    {
      if isMouseDown {
        var deltaX := clientX - mouseX;
        var deltaY := clientY - mouseY;
        yaw := yaw - deltaX * MouseRotationSpeed;
        pitch := pitch - deltaY * MouseRotationSpeed;
        pitch := Max(-PitchLimit, Min(PitchLimit, pitch));
        mouseX := clientX;
        mouseY := clientY;
      }
    }

    method OnFrame()
      requires Valid()
      modifies this
      ensures Valid() && Model() == AfterFrame(old(Model()))
    {
      var keys := keysPressed;
      if "ArrowLeft" in keys {
        yaw := yaw + RotationSpeed;
      }
      if "ArrowRight" in keys {
        yaw := yaw - RotationSpeed;
      }
      if "ArrowUp" in keys {
        pitch := Min(pitch + RotationSpeed, PitchLimit);
      }
      if "ArrowDown" in keys {
        pitch := Max(pitch - RotationSpeed, -PitchLimit);
      }
    }
  }
}

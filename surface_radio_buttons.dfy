/** The screen-space surface buttons: on every frame each surface's anchor is
    projected to the screen, and a surface's button is drawn at that spot
    while the camera faces the surface and the anchor is not behind the far
    plane. Clicking a button selects its surface.

    The camera's world direction is an input of a frame, and the camera's
    projection to normalised device coordinates is the parameter `project`. */
module SurfaceRadioButtons {
  import opened Surfaces
  import TextureContext

  /** A surface counts as faced when `dot(direction, normal)` is below this. */
  const FacingThreshold: real := -0.3
  /** How far the floor button's anchor sits above the floor. */
  const FloorLift: real := 0.1

  /** The canvas size in pixels. */
  datatype ScreenSize = ScreenSize(width: real, height: real)

  /** What the component keeps per surface: visibility and the anchor's
      screen position in pixels with its projected depth. */
  datatype ButtonEntry = ButtonEntry(visible: bool, screenPos: Vec3)

  const Hidden: ButtonEntry := ButtonEntry(false, Vec3(0.0, 0.0, 0.0))

  /** Where a surface's button is anchored: walls at 30% of the half height
      on their wall plane, the floor a tenth of a unit above the floor. */
  function Anchor(s: Surface, dims: RoomDimensions): (p: Vec3)
    ensures IsWall(s) ==> p.y == dims.height / 2.0 * 0.3
    ensures s == Wall1 ==> p.x == 0.0 && p.z == -dims.depth / 2.0
    ensures s == Wall2 ==> p.x == 0.0 && p.z == dims.depth / 2.0
    ensures s == Wall3 ==> p.x == -dims.width / 2.0 && p.z == 0.0
    ensures s == Wall4 ==> p.x == dims.width / 2.0 && p.z == 0.0
    ensures s == Floor ==> p == Vec3(0.0, -dims.height / 2.0 + FloorLift, 0.0)
  {
    var halfWidth := dims.width / 2.0;
    var halfHeight := dims.height / 2.0;
    var halfDepth := dims.depth / 2.0;
    match s
    case Wall1 => Vec3(0.0, halfHeight * 0.3, -halfDepth)
    case Wall2 => Vec3(0.0, halfHeight * 0.3, halfDepth)
    case Wall3 => Vec3(-halfWidth, halfHeight * 0.3, 0.0)
    case Wall4 => Vec3(halfWidth, halfHeight * 0.3, 0.0)
    case Floor => Vec3(0.0, -halfHeight + FloorLift, 0.0)
  }

  /** Horizontal pixel of a device x coordinate: -1 is the left edge, 1 the
      right edge. */
  function ScreenX(ndcX: real, width: real): (px: real)
    ensures -1.0 <= ndcX <= 1.0 && 0.0 <= width ==> 0.0 <= px <= width
    ensures ndcX == -1.0 ==> px == 0.0
    ensures ndcX == 0.0 ==> px == width / 2.0
    ensures ndcX == 1.0 ==> px == width
  {
    var f := ndcX * 0.5 + 0.5;
    ScreenInRange(f, width);
    assert -1.0 <= ndcX <= 1.0 ==> 0.0 <= f <= 1.0;
    f * width
  }

  /** Vertical pixel of a device y coordinate, flipped: 1 is the top edge,
      -1 the bottom edge. */
  function ScreenY(ndcY: real, height: real): (py: real)
    ensures -1.0 <= ndcY <= 1.0 && 0.0 <= height ==> 0.0 <= py <= height
    ensures ndcY == 1.0 ==> py == 0.0
    ensures ndcY == 0.0 ==> py == height / 2.0
    ensures ndcY == -1.0 ==> py == height
    ensures py == ScreenX(-ndcY, height)
  {
    var f := ndcY * -0.5 + 0.5;
    ScreenInRange(f, height);
    assert -1.0 <= ndcY <= 1.0 ==> 0.0 <= f <= 1.0;
    FlippedScreen(ndcY, f, height);
    f * height
  }

  lemma FlippedScreen(ndcY: real, f: real, height: real)
    requires f == ndcY * -0.5 + 0.5
    ensures f * height == ScreenX(-ndcY, height)
  {
    var g := -ndcY * 0.5 + 0.5;
    assert f == g;
  }

  lemma ScreenInRange(f: real, extent: real)
    ensures 0.0 <= f <= 1.0 && 0.0 <= extent ==> 0.0 <= f * extent <= extent
  {
    if 0.0 <= f <= 1.0 && 0.0 <= extent {
      MulNonNegative(f, extent);
      MulNonNegative(1.0 - f, extent);
      assert extent - f * extent == (1.0 - f) * extent;
    }
  }

  /** The entry for one surface in one frame: visible iff the surface is
      faced and its projected anchor is nearer than the far plane; the
      screen position is the projected anchor in pixels. */
  function Assess(s: Surface, dims: RoomDimensions, dir: Vec3, project: Vec3 -> Vec3, size: ScreenSize): (e: ButtonEntry)
    ensures e.visible <==> Facing(s, dir) < FacingThreshold && project(Anchor(s, dims)).z < 1.0
    ensures e.screenPos.z == project(Anchor(s, dims)).z
    ensures e.screenPos.x == ScreenX(project(Anchor(s, dims)).x, size.width)
    ensures e.screenPos.y == ScreenY(project(Anchor(s, dims)).y, size.height)
    ensures IsDirection(project(Anchor(s, dims))) && 0.0 <= size.width && 0.0 <= size.height ==>
      0.0 <= e.screenPos.x <= size.width && 0.0 <= e.screenPos.y <= size.height
  {
    var ndc := project(Anchor(s, dims));
    ButtonEntry(
      Facing(s, dir) < FacingThreshold && ndc.z < 1.0,
      Vec3(ScreenX(ndc.x, size.width), ScreenY(ndc.y, size.height), ndc.z))
  }

  /** The entries for every surface in one frame. */
  function AssessAll(dims: RoomDimensions, dir: Vec3, project: Vec3 -> Vec3, size: ScreenSize): (m: map<Surface, ButtonEntry>)
    ensures forall s: Surface :: s in m && m[s] == Assess(s, dims, dir, project, size)
  {
    EverySurfaceListed();
    map s | s in AllSurfaces :: Assess(s, dims, dir, project, size)
  }

  /** The `forEach` of a frame: a copy of the previous entries with every
      surface's entry overwritten. */
  method ComputeVisibleSurfaces(previous: map<Surface, ButtonEntry>, dims: RoomDimensions, dir: Vec3,
                                project: Vec3 -> Vec3, size: ScreenSize)
    returns (next: map<Surface, ButtonEntry>)
    ensures next == AssessAll(dims, dir, project, size)
  {
    next := previous;
    for i := 0 to |AllSurfaces|
      invariant forall j :: 0 <= j < i ==>
        AllSurfaces[j] in next && next[AllSurfaces[j]] == Assess(AllSurfaces[j], dims, dir, project, size)
    {
      var s := AllSurfaces[i];
      var dot := Facing(s, dir);
      var shouldBeVisible := dot < FacingThreshold;
      var ndc := project(Anchor(s, dims));
      var screenX := ScreenX(ndc.x, size.width);
      var screenY := ScreenY(ndc.y, size.height);
      next := next[s := ButtonEntry(shouldBeVisible && ndc.z < 1.0, Vec3(screenX, screenY, ndc.z))];
    }
    EverySurfaceListed();
    var m := AssessAll(dims, dir, project, size);
    assert forall s: Surface :: s in next && next[s] == m[s] by {
      forall s: Surface ensures s in next && next[s] == m[s] {
        var j := IndexOf(s);
      }
    }
  }

  /** The buttons actually drawn, in the entries' order: a button whose
      entry is not visible renders nothing. */
  function Shown(ws: seq<Surface>, m: map<Surface, ButtonEntry>): (r: seq<Surface>)
    requires forall s: Surface :: s in m
    ensures forall s :: s in r <==> s in ws && m[s].visible
    ensures |r| <= |ws|
    decreases |ws|
  {
    if ws == [] then []
    else
      var rest := Shown(ws[1..], m);
      assert forall s :: s in ws <==> s == ws[0] || s in ws[1..];
      if m[ws[0]].visible then [ws[0]] + rest else rest
  }

  /** Opposite walls are never both drawn, so at most two walls and the floor:
      never more than three buttons. */
  lemma AtMostThreeButtons(dims: RoomDimensions, dir: Vec3, project: Vec3 -> Vec3, size: ScreenSize)
    ensures |Shown(AllSurfaces, AssessAll(dims, dir, project, size))| <= 3
  {
    var m := AssessAll(dims, dir, project, size);
    assert !(m[Wall1].visible && m[Wall2].visible);
    assert !(m[Wall3].visible && m[Wall4].visible);
    ShownCount(m);
  }

  function Drawn(e: ButtonEntry): nat
  {
    if e.visible then 1 else 0
  }

  /** The number of buttons drawn is the number of visible entries. */
  lemma ShownCount(m: map<Surface, ButtonEntry>)
    requires forall s: Surface :: s in m
    ensures |Shown(AllSurfaces, m)| ==
      Drawn(m[Wall1]) + Drawn(m[Wall2]) + Drawn(m[Wall3]) + Drawn(m[Wall4]) + Drawn(m[Floor])
  {
    var ws := AllSurfaces;
    assert ws[4..][1..] == [] && ws[3..][1..] == ws[4..];
    assert ws[2..][1..] == ws[3..] && ws[1..][1..] == ws[2..] && ws[0..][1..] == ws[1..];
    ShownCons(ws[4..], m);
    ShownCons(ws[3..], m);
    ShownCons(ws[2..], m);
    ShownCons(ws[1..], m);
    ShownCons(ws, m);
  }

  lemma ShownCons(ws: seq<Surface>, m: map<Surface, ButtonEntry>)
    requires forall s: Surface :: s in m
    requires ws != []
    ensures |Shown(ws, m)| == Drawn(m[ws[0]]) + |Shown(ws[1..], m)|
  {
  }

  /** The floor's button is drawn iff the camera looks down more steeply than
      0.3 and the floor anchor projects in front of the far plane. */
  lemma FloorButtonRule(dims: RoomDimensions, dir: Vec3, project: Vec3 -> Vec3, size: ScreenSize)
    ensures Floor in Shown(AllSurfaces, AssessAll(dims, dir, project, size)) <==>
      dir.y < -0.3 && project(Anchor(Floor, dims)).z < 1.0
  {
    assert Floor in AllSurfaces;
  }

  /** The selection a button click leaves: always its own surface, so a second
      click keeps it selected. */
  function ClickSelection(selected: Option<Surface>, s: Surface): (r: Option<Surface>)
    ensures r == Some(s)
  {
    Some(s)
  }

  /** Unlike the radio manager's toggle, a second click keeps the surface
      selected. */
  lemma SecondClickKeepsSelection(selected: Option<Surface>, s: Surface)
    ensures ClickSelection(ClickSelection(selected, s), s) == Some(s)
  {
  }

  /** The caption of a surface's button. */
  function Caption(s: Surface): (c: string)
    ensures c == "Change Floor" <==> s == Floor
    ensures c == "Change Wall" <==> IsWall(s)
  {
    if s == Floor then "Change Floor" else "Change Wall"
  }

  /** The component's state hook, with the store it reads the dimensions from
      and writes the selection to. */
  class RadioButtons {
    const store: TextureContext.TextureProvider
    var visibleSurfaces: map<Surface, ButtonEntry>

    ghost predicate Valid()
      reads this, store
    {
      store.Valid() && forall s: Surface :: s in visibleSurfaces
    }

    constructor (store: TextureContext.TextureProvider)
      requires store.Valid()
      ensures this.store == store && Valid()
      ensures forall s: Surface :: visibleSurfaces[s] == Hidden
    {
      this.store := store;
      EverySurfaceListed();
      visibleSurfaces := map s | s in AllSurfaces :: Hidden;
    }

    /** Every frame recomputes every entry. */
    method OnFrame(dir: Vec3, project: Vec3 -> Vec3, size: ScreenSize)
      requires Valid()
      modifies this
      ensures Valid()
      ensures visibleSurfaces == AssessAll(store.roomDimensions, dir, project, size)
    {
      var next := ComputeVisibleSurfaces(visibleSurfaces, store.roomDimensions, dir, project, size);
      visibleSurfaces := next;
    }

    method HandleRadioChange(s: Surface)
      requires Valid()
      modifies store
      ensures Valid()
      ensures store.selectedSurface == ClickSelection(old(store.selectedSurface), s)
      ensures store.Textures() == old(store.Textures()) && store.roomDimensions == old(store.roomDimensions)
    {
      store.SetSelectedSurface(Some(s));
    }
  }
}

/** The radio-style surface picker: every third frame it rates how squarely
    the camera faces each surface, then offers one button for the most
    visible wall and one for the floor; a button toggles the store's
    selection.

    The camera's world direction and position are inputs of a frame, and
    `Math.pow(x, 1.5)` is the parameter `pow`, assumed only to satisfy
    `PowFacts`. */
module SurfaceRadioManager {
  import opened Surfaces
  import TextureContext

  /** Only frames whose count is a multiple of this refresh the ratings. */
  const UpdateInterval: nat := 3
  /** The floor's rating must exceed this for its button to show. */
  const FloorThreshold: real := 0.25
  /** A wall counts as faced when `dot(direction, normal)` is below this. */
  const WallThreshold: real := -0.3
  /** How far a wall button's anchor sits in front of its wall. */
  const AnchorInset: real := 0.01
  /** How far the floor button's anchor sits above the floor. */
  const FloorLift: real := 0.5

  /** What the manager keeps per surface (`SurfaceButtonData`). */
  datatype ButtonData = ButtonData(visible: bool, position: Vec3, visibility: real)

  const Hidden: ButtonData := ButtonData(false, Vec3(0.0, 0.0, 0.0), 0.0)

  /** Where a surface's button hangs: walls at 30% of the half height, just
      inside their wall plane; the floor half a unit above the floor. */
  function Anchor(s: Surface, dims: RoomDimensions): (p: Vec3)
    ensures IsWall(s) ==> p.y == dims.height / 2.0 * 0.3
    ensures s == Wall1 ==> p.x == 0.0 && p.z == -dims.depth / 2.0 + AnchorInset
    ensures s == Wall2 ==> p.x == 0.0 && p.z == dims.depth / 2.0 - AnchorInset
    ensures s == Wall3 ==> p.x == -dims.width / 2.0 + AnchorInset && p.z == 0.0
    ensures s == Wall4 ==> p.x == dims.width / 2.0 - AnchorInset && p.z == 0.0
    ensures s == Floor ==> p == Vec3(0.0, -dims.height / 2.0 + FloorLift, 0.0)
  {
    var halfWidth := dims.width / 2.0;
    var halfHeight := dims.height / 2.0;
    var halfDepth := dims.depth / 2.0;
    match s
    case Wall1 => Vec3(0.0, halfHeight * 0.3, -halfDepth + AnchorInset)
    case Wall2 => Vec3(0.0, halfHeight * 0.3, halfDepth - AnchorInset)
    case Wall3 => Vec3(-halfWidth + AnchorInset, halfHeight * 0.3, 0.0)
    case Wall4 => Vec3(halfWidth - AnchorInset, halfHeight * 0.3, 0.0)
    case Floor => Vec3(0.0, -halfHeight + FloorLift, 0.0)
  }

  /** The floor's rating: how far the camera looks down, through `pow`. */
  function FloorScore(dir: Vec3, pow: real -> real): real
  {
    pow(Max(0.0, -dir.y))
  }

  /** The floor's rating lies in [0, 1]; it is 0 whenever the camera does not
      look down and 1 when it looks straight down. */
  lemma FloorScoreBounds(dir: Vec3, pow: real -> real)
    requires PowFacts(pow) && IsDirection(dir)
    ensures 0.0 <= FloorScore(dir, pow) <= 1.0
    ensures dir.y >= 0.0 ==> FloorScore(dir, pow) == 0.0
    ensures dir.y == -1.0 ==> FloorScore(dir, pow) == 1.0
  {
    var lookingDown := Max(0.0, -dir.y);
    assert 0.0 <= lookingDown <= 1.0;
  }

  /** Looking further down never rates the floor lower. */
  lemma FloorScoreMonotone(a: Vec3, b: Vec3, pow: real -> real)
    requires PowFacts(pow) && IsDirection(a) && IsDirection(b)
    requires b.y <= a.y
    ensures FloorScore(a, pow) <= FloorScore(b, pow)
  {
    var la, lb := Max(0.0, -a.y), Max(0.0, -b.y);
    assert 0.0 <= la <= lb <= 1.0;
  }

  /** The camera looks towards `p`: the direction and the offset to `p` make
      an acute angle. Normalising the offset first, as the component does,
      does not change the sign (a zero offset normalises to zero). */
  predicate InFront(dir: Vec3, camPos: Vec3, p: Vec3)
  {
    Dot(dir, Sub(p, camPos)) > 0.0
  }

  /** The button data for one surface in one refresh. A wall is visible iff
      it is faced (dot below -0.3) and its anchor lies in front of the
      camera; the floor iff its rating exceeds 0.25. */
  function Assess(s: Surface, dims: RoomDimensions, dir: Vec3, camPos: Vec3, pow: real -> real): (b: ButtonData)
    ensures b.position == Anchor(s, dims)
    ensures s == Floor ==> b.visibility == FloorScore(dir, pow)
    ensures s == Floor ==> (b.visible <==> FloorScore(dir, pow) > FloorThreshold)
    ensures IsWall(s) ==> b.visibility == Max(0.0, -Facing(s, dir))
    ensures IsWall(s) ==>
      (b.visible <==> Facing(s, dir) < WallThreshold && InFront(dir, camPos, Anchor(s, dims)))
    ensures IsWall(s) && b.visible ==> b.visibility > 0.3
    ensures IsWall(s) ==> b.visibility >= 0.0
  {
    var position := Anchor(s, dims);
    if s == Floor then
      var floorVisibility := FloorScore(dir, pow);
      ButtonData(floorVisibility > FloorThreshold, position, floorVisibility)
    else
      var dot := Facing(s, dir);
      ButtonData(dot < WallThreshold && InFront(dir, camPos, position), position, Max(0.0, -dot))
  }

  /** The button data for every surface in one refresh. */
  function AssessAll(dims: RoomDimensions, dir: Vec3, camPos: Vec3, pow: real -> real): (m: map<Surface, ButtonData>)
    ensures forall s: Surface :: s in m && m[s] == Assess(s, dims, dir, camPos, pow)
  {
    EverySurfaceListed();
    map s | s in AllSurfaces :: Assess(s, dims, dir, camPos, pow)
  }

  /** The `forEach` of a refresh: a copy of the previous data with every
      surface's entry overwritten. */
  method ComputeVisibleSurfaces(previous: map<Surface, ButtonData>, dims: RoomDimensions, dir: Vec3, camPos: Vec3, pow: real -> real)
    returns (next: map<Surface, ButtonData>)
    ensures next == AssessAll(dims, dir, camPos, pow)
  {
    var floorVisibility := FloorScore(dir, pow);
    var newFloorVisible := floorVisibility > FloorThreshold;
    next := previous;
    for i := 0 to |AllSurfaces|
      invariant forall j :: 0 <= j < i ==>
        AllSurfaces[j] in next && next[AllSurfaces[j]] == Assess(AllSurfaces[j], dims, dir, camPos, pow)
    {
      var s := AllSurfaces[i];
      var position := Anchor(s, dims);
      var visibility: real;
      var shouldBeVisible: bool;
      if s == Floor {
        visibility := floorVisibility;
        shouldBeVisible := newFloorVisible;
      } else {
        var dot := Facing(s, dir);
        visibility := Max(0.0, -dot);
        shouldBeVisible := dot < WallThreshold;
      }
      var isInFront := true;
      if s != Floor {
        isInFront := InFront(dir, camPos, position);
      }
      next := next[s := ButtonData(shouldBeVisible && isInFront, position, visibility)];
    }
    EverySurfaceListed();
    var m := AssessAll(dims, dir, camPos, pow);
    assert forall s: Surface :: s in next && next[s] == m[s] by {
      forall s: Surface ensures s in next && next[s] == m[s] {
        var j := IndexOf(s);
      }
    }
  }

  /** Two opposite walls are never offered together. */
  lemma OppositeWallsExclusive(dims: RoomDimensions, dir: Vec3, camPos: Vec3, pow: real -> real)
    ensures !(Assess(Wall1, dims, dir, camPos, pow).visible && Assess(Wall2, dims, dir, camPos, pow).visible)
    ensures !(Assess(Wall3, dims, dir, camPos, pow).visible && Assess(Wall4, dims, dir, camPos, pow).visible)
  {
  }

  /** The first wall, in wall1..wall4 order, that is visible and rated at
      least as high as every later visible wall: the head of the visible
      walls after a stable sort by decreasing rating. */
  function MostVisibleIn(ws: seq<Surface>, m: map<Surface, ButtonData>): (r: Option<Surface>)
    requires forall s: Surface :: s in m
    ensures r.Some? ==> r.value in ws && m[r.value].visible
    decreases |ws|
  {
    if ws == [] then None
    else
      var rest := MostVisibleIn(ws[1..], m);
      var head := ws[0];
      if m[head].visible && (rest.None? || m[rest.value].visibility <= m[head].visibility) then Some(head)
      else rest
  }

  /** No wall is picked exactly when none is visible. */
  lemma {:induction false} MostVisibleInNone(ws: seq<Surface>, m: map<Surface, ButtonData>)
    requires forall s: Surface :: s in m
    ensures MostVisibleIn(ws, m).None? <==> forall i :: 0 <= i < |ws| ==> !m[ws[i]].visible
    decreases |ws|
  {
    if ws != [] {
      MostVisibleInNone(ws[1..], m);
      assert forall i :: 1 <= i < |ws| ==> ws[i] == ws[1..][i - 1];
    }
  }

  /** The picked wall is rated at least as high as every visible wall. */
  lemma {:induction false} MostVisibleInIsMaximal(ws: seq<Surface>, m: map<Surface, ButtonData>)
    requires forall s: Surface :: s in m
    ensures var r := MostVisibleIn(ws, m);
      r.Some? ==> forall i :: 0 <= i < |ws| && m[ws[i]].visible ==> m[ws[i]].visibility <= m[r.value].visibility
    decreases |ws|
  {
    if ws != [] {
      MostVisibleInIsMaximal(ws[1..], m);
      MostVisibleInNone(ws[1..], m);
      assert forall i :: 1 <= i < |ws| ==> ws[i] == ws[1..][i - 1];
    }
  }

  /** Ties go to the earliest wall: a visible wall rated as high as the
      picked one does not come before it. */
  lemma {:induction false} MostVisibleInIsFirst(ws: seq<Surface>, m: map<Surface, ButtonData>)
    requires forall s: Surface :: s in m
    ensures var r := MostVisibleIn(ws, m);
      r.Some? ==> forall i :: 0 <= i < |ws| && m[ws[i]].visible && m[ws[i]].visibility == m[r.value].visibility ==>
        r.value in ws[..i + 1]
    decreases |ws|
  {
    if ws != [] {
      var r := MostVisibleIn(ws, m);
      var rest := MostVisibleIn(ws[1..], m);
      MostVisibleInIsFirst(ws[1..], m);
      forall i | 0 <= i < |ws| && r.Some? && m[ws[i]].visible && m[ws[i]].visibility == m[r.value].visibility
        ensures r.value in ws[..i + 1]
      {
        if r == Some(ws[0]) {
          assert ws[..i + 1][0] == ws[0];
        } else if i == 0 {
          assert false;
        } else {
          assert ws[1..][i - 1] == ws[i];
          PrefixOfTail(ws, i);
        }
      }
    }
  }

  lemma PrefixOfTail(ws: seq<Surface>, i: nat)
    requires 0 < i < |ws|
    ensures forall s :: s in ws[1..][..i] ==> s in ws[..i + 1]
  {
    assert ws[..i + 1] == [ws[0]] + ws[1..][..i];
  }

  /** The wall whose button is shown. */
  function MostVisibleWall(m: map<Surface, ButtonData>): (r: Option<Surface>)
    requires forall s: Surface :: s in m
    ensures r.None? <==> forall w :: w in Walls ==> !m[w].visible
    ensures r.Some? ==> IsWall(r.value) && m[r.value].visible
    ensures r.Some? ==> forall w :: w in Walls && m[w].visible ==> m[w].visibility <= m[r.value].visibility
  {
    EverySurfaceListed();
    MostVisibleInNone(Walls, m);
    MostVisibleInIsMaximal(Walls, m);
    MostVisibleIn(Walls, m)
  }

  /** Standing inside the room and looking straight at the front wall, the
      front wall's button is the one offered. */
  lemma FacingFrontWall(dims: RoomDimensions, camPos: Vec3, pow: real -> real)
    requires -dims.depth / 2.0 + AnchorInset < camPos.z
    ensures MostVisibleWall(AssessAll(dims, Vec3(0.0, 0.0, -1.0), camPos, pow)) == Some(Wall1)
  {
    var dir := Vec3(0.0, 0.0, -1.0);
    var m := AssessAll(dims, dir, camPos, pow);
    LookingAlongMinusZ(camPos, Anchor(Wall1, dims));
    assert m[Wall1].visible;
    forall w | w in [Wall2, Wall3, Wall4]
      ensures !m[w].visible
    {
      UnfacedWallHidden(w, dims, dir, camPos, pow);
    }
    var r := MostVisibleWall(m);
    assert r.Some? && r.value in Walls;
  }

  /** A wall the camera does not face is never offered, wherever it stands. */
  lemma UnfacedWallHidden(s: Surface, dims: RoomDimensions, dir: Vec3, camPos: Vec3, pow: real -> real)
    requires IsWall(s) && Facing(s, dir) >= WallThreshold
    ensures !Assess(s, dims, dir, camPos, pow).visible
  {
  }

  /** Looking along -z, a point is in front iff it lies further towards -z. */
  lemma LookingAlongMinusZ(camPos: Vec3, p: Vec3)
    ensures InFront(Vec3(0.0, 0.0, -1.0), camPos, p) <==> p.z < camPos.z
  {
    var offset := Sub(p, camPos);
    calc {
      Dot(Vec3(0.0, 0.0, -1.0), offset);
      0.0 * offset.x + 0.0 * offset.y + -1.0 * offset.z;
      -offset.z;
    }
  }

  /** Looking straight down offers the floor button; looking level or up never does. */
  lemma FloorButtonFollowsPitch(dir: Vec3, pow: real -> real)
    requires PowFacts(pow) && IsDirection(dir)
    ensures dir.y == -1.0 ==> FloorScore(dir, pow) > FloorThreshold
    ensures dir.y >= 0.0 ==> !(FloorScore(dir, pow) > FloorThreshold)
  {
    FloorScoreBounds(dir, pow);
  }

  /** The selection a surface button's click leaves: clicking the selected
      surface deselects it, clicking any other selects that one. */
  function ToggleSelection(selected: Option<Surface>, s: Surface): (r: Option<Surface>)
    ensures r == Some(s) <==> selected != Some(s)
    ensures r.None? <==> selected == Some(s)
  {
    if selected == Some(s) then None else Some(s)
  }

  /** Clicking the same button twice from an empty selection, or from that
      surface selected, returns to where it started. */
  lemma ToggleTwice(selected: Option<Surface>, s: Surface)
    requires selected.None? || selected == Some(s)
    ensures ToggleSelection(ToggleSelection(selected, s), s) == selected
  {
  }

  /** The manager's state between frames. */
  datatype ManagerState = ManagerState(
    frameCount: nat,
    isFloorVisible: bool,
    floorVisibilityAmount: real,
    visibleSurfaces: map<Surface, ButtonData>)

  function InitialManager(): (st: ManagerState)
    ensures st.frameCount == 0 && !st.isFloorVisible && st.floorVisibilityAmount == 0.0
    ensures forall s: Surface :: s in st.visibleSurfaces && !st.visibleSurfaces[s].visible
  {
    EverySurfaceListed();
    ManagerState(0, false, 0.0, map s | s in AllSurfaces :: Hidden)
  }

  /** One frame: the counter always advances; only when it reaches a
      multiple of three are the floor flag, its rating and every surface's
      data recomputed. */
  function AfterFrame(st: ManagerState, dims: RoomDimensions, dir: Vec3, camPos: Vec3, pow: real -> real): (r: ManagerState)
    ensures r.frameCount == st.frameCount + 1
    ensures r.frameCount % UpdateInterval != 0 ==> r == st.(frameCount := st.frameCount + 1)
    ensures r.frameCount % UpdateInterval == 0 ==>
      && r.isFloorVisible == (FloorScore(dir, pow) > FloorThreshold)
      && r.floorVisibilityAmount == FloorScore(dir, pow)
      && r.visibleSurfaces == AssessAll(dims, dir, camPos, pow)
  {
    var count := st.frameCount + 1;
    if count % UpdateInterval != 0 then st.(frameCount := count)
    else
      var floorVisibility := FloorScore(dir, pow);
      ManagerState(count, floorVisibility > FloorThreshold, floorVisibility, AssessAll(dims, dir, camPos, pow))
  }

  /** `n` frames with the same view. */
  function RunFrames(st: ManagerState, n: nat, dims: RoomDimensions, dir: Vec3, camPos: Vec3, pow: real -> real): ManagerState
    decreases n
  {
    if n == 0 then st else RunFrames(AfterFrame(st, dims, dir, camPos, pow), n - 1, dims, dir, camPos, pow)
  }

  /** The state a refresh with this view produces, but for the counter. */
  predicate Settled(st: ManagerState, dims: RoomDimensions, dir: Vec3, camPos: Vec3, pow: real -> real)
  {
    && st.isFloorVisible == (FloorScore(dir, pow) > FloorThreshold)
    && st.floorVisibilityAmount == FloorScore(dir, pow)
    && st.visibleSurfaces == AssessAll(dims, dir, camPos, pow)
  }

  /** Once settled, further frames with the same view keep it settled. */
  lemma {:induction false} SettledStays(st: ManagerState, n: nat, dims: RoomDimensions, dir: Vec3, camPos: Vec3, pow: real -> real)
    requires Settled(st, dims, dir, camPos, pow)
    ensures Settled(RunFrames(st, n, dims, dir, camPos, pow), dims, dir, camPos, pow)
    ensures RunFrames(st, n, dims, dir, camPos, pow).frameCount == st.frameCount + n
    decreases n
  {
    if n > 0 {
      SettledStays(AfterFrame(st, dims, dir, camPos, pow), n - 1, dims, dir, camPos, pow);
    }
  }

  /** A steady view is reflected within three frames, whatever the counter. */
  lemma SteadyViewSettles(st: ManagerState, n: nat, dims: RoomDimensions, dir: Vec3, camPos: Vec3, pow: real -> real)
    requires n >= UpdateInterval
    ensures Settled(RunFrames(st, n, dims, dir, camPos, pow), dims, dir, camPos, pow)
  {
    var k: nat := UpdateInterval - 1 - st.frameCount % UpdateInterval;
    var before := RunFrames(st, k, dims, dir, camPos, pow);
    FramesWithoutRefresh(st, k, dims, dir, camPos, pow);
    NextMultiple(st.frameCount, k);
    var refreshed := AfterFrame(before, dims, dir, camPos, pow);
    SettledStays(refreshed, n - k - 1, dims, dir, camPos, pow);
    RunFramesSplit(st, k, n - k, dims, dir, camPos, pow);
  }

  lemma NextMultiple(count: int, k: int)
    requires k == UpdateInterval - 1 - count % UpdateInterval
    ensures (count + k + 1) % UpdateInterval == 0
  {
  }

  /** Until the counter reaches the next multiple of three, frames only count. */
  lemma {:induction false} FramesWithoutRefresh(st: ManagerState, k: nat, dims: RoomDimensions, dir: Vec3, camPos: Vec3, pow: real -> real)
    requires st.frameCount % UpdateInterval + k < UpdateInterval
    ensures RunFrames(st, k, dims, dir, camPos, pow) == st.(frameCount := st.frameCount + k)
    decreases k
  {
    if k > 0 {
      FramesWithoutRefresh(AfterFrame(st, dims, dir, camPos, pow), k - 1, dims, dir, camPos, pow);
    }
  }

  lemma {:induction false} RunFramesSplit(st: ManagerState, a: nat, b: nat, dims: RoomDimensions, dir: Vec3, camPos: Vec3, pow: real -> real)
    ensures RunFrames(st, a + b, dims, dir, camPos, pow) ==
      RunFrames(RunFrames(st, a, dims, dir, camPos, pow), b, dims, dir, camPos, pow)
    decreases a
  {
    if a > 0 {
      RunFramesSplit(AfterFrame(st, dims, dir, camPos, pow), a - 1, b, dims, dir, camPos, pow);
    }
  }

  /** The buttons drawn: the most visible wall's, and the floor's while the
      floor flag is up. */
  datatype Buttons = Buttons(wall: Option<Surface>, floor: bool)

  function Render(st: ManagerState): (b: Buttons)
    requires forall s: Surface :: s in st.visibleSurfaces
    ensures b.floor <==> st.isFloorVisible
    ensures b.wall == MostVisibleWall(st.visibleSurfaces)
    ensures b.wall.Some? ==> st.visibleSurfaces[b.wall.value].visible
  {
    Buttons(MostVisibleWall(st.visibleSurfaces), st.isFloorVisible)
  }

  /** The component's state hooks and frame counter, with the store it reads
      the dimensions and selection from. */
  class RadioManager {
    const store: TextureContext.TextureProvider
    var frameCount: nat
    var isFloorVisible: bool
    var floorVisibilityAmount: real
    var visibleSurfaces: map<Surface, ButtonData>

    function Model(): ManagerState
      reads this
    {
      ManagerState(frameCount, isFloorVisible, floorVisibilityAmount, visibleSurfaces)
    }

    ghost predicate Valid()
      reads this, store
    {
      store.Valid() && forall s: Surface :: s in visibleSurfaces
    }

    constructor (store: TextureContext.TextureProvider)
      requires store.Valid()
      ensures this.store == store
      ensures Valid() && Model() == InitialManager()
    {
      this.store := store;
      var init := InitialManager();
      frameCount := 0;
      isFloorVisible := false;
      floorVisibilityAmount := 0.0;
      visibleSurfaces := init.visibleSurfaces;
    }

    method OnFrame(dir: Vec3, camPos: Vec3, pow: real -> real)
      requires Valid()
      modifies this
      ensures Valid()
      ensures Model() == AfterFrame(old(Model()), store.roomDimensions, dir, camPos, pow)
    {
      frameCount := frameCount + 1;
      if frameCount % UpdateInterval != 0 {
        return;
      }
      var floorVisibility := FloorScore(dir, pow);
      var newFloorVisible := floorVisibility > FloorThreshold;
      if newFloorVisible != isFloorVisible {
        isFloorVisible := newFloorVisible;
      }
      floorVisibilityAmount := floorVisibility;
      var next := ComputeVisibleSurfaces(visibleSurfaces, store.roomDimensions, dir, camPos, pow);
      visibleSurfaces := next;
    }

    method HandleRadioChange(s: Surface)
      requires Valid()
      modifies store
      ensures Valid()
      ensures store.selectedSurface == ToggleSelection(old(store.selectedSurface), s)
      ensures store.Textures() == old(store.Textures()) && store.roomDimensions == old(store.roomDimensions)
    {
      if store.selectedSurface == Some(s) {
        store.SetSelectedSurface(None);
      } else {
        store.SetSelectedSurface(Some(s));
      }
    }
  }
}

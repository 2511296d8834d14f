/** The per-surface texture store (`TextureProvider`): for each surface the
    committed texture (`currentTextures`) and an optional staged one
    (`pendingTextures`), plus the selected surface and the room's dimensions.
    A request stages a texture; the surface's fade commits it later. */
module TextureContext {
  import opened Surfaces

  /** The wall catalog offered to the selection panel. */
  const WallTextures: seq<string> := [
    "/textures/walls/brick-wall.jpg",
    "/textures/walls/wood-panel.jpg",
    "/textures/walls/wood-panel2.jpg",
    "/textures/walls/concrete.jpg",
    "/textures/walls/marble.jpg",
    "/textures/walls/wall1.png"
  ]

  /** The floor catalog offered to the selection panel. */
  const FloorTextures: seq<string> := [
    "/textures/floors/floor1.jpg",
    "/textures/floors/floor2.jpg",
    "/textures/floors/floor3.png",
    "/textures/floors/floor4.jpg"
  ]

  const DefaultWallTexture: string := "/textures/walls/wall1.png"
  const DefaultFloorTexture: string := "/textures/floors/floor2.jpg"
  const DefaultDimensions: RoomDimensions := RoomDimensions(15.0, 8.0, 15.0)

  /** The two per-surface records of the store. `None` stands for `null`. */
  datatype TextureRecords = TextureRecords(current: map<Surface, string>, pending: map<Surface, Option<string>>)

  /** Both records have an entry for every surface (`Record<SurfaceType, …>`). */
  ghost predicate Total(t: TextureRecords)
  {
    forall s: Surface :: s in t.current && s in t.pending
  }

  /** JavaScript truthiness of a `string | null`: `null` and `""` are falsy. */
  predicate Truthy(p: Option<string>)
  {
    p.Some? && p.value != ""
  }

  /** The records `TextureProvider` starts with. */
  function InitialTextures(): (t: TextureRecords)
    ensures Total(t)
    ensures forall s: Surface :: t.pending[s] == None
    ensures forall s: Surface :: t.current[s] == if s == Floor then DefaultFloorTexture else DefaultWallTexture
  {
    var t := TextureRecords(
      map[Wall1 := DefaultWallTexture, Wall2 := DefaultWallTexture, Wall3 := DefaultWallTexture,
          Wall4 := DefaultWallTexture, Floor := DefaultFloorTexture],
      map[Wall1 := None, Wall2 := None, Wall3 := None, Wall4 := None, Floor := None]);
    EverySurfaceListed();
    assert forall s: Surface :: s in AllSurfaces ==> s in t.current && s in t.pending;
    t
  }

  /** The records after `setPendingTexture(s, tex)`: unconditional staging. */
  function AfterSetPendingTexture(t: TextureRecords, s: Surface, tex: string): (r: TextureRecords)
    requires Total(t)
    ensures Total(r)
    ensures r.current == t.current
    ensures r.pending[s] == Some(tex)
    ensures forall o: Surface :: o != s ==> r.pending[o] == t.pending[o]
  {
    t.(pending := t.pending[s := Some(tex)])
  }

  /** The records after `setTexture(s, tex)`: a request for the committed
      texture changes nothing (an earlier staged texture survives); any other
      request replaces whatever was staged for `s`. Nothing is committed. */
  function AfterSetTexture(t: TextureRecords, s: Surface, tex: string): (r: TextureRecords)
    requires Total(t)
    ensures Total(r)
    ensures t.current[s] == tex ==> r == t
    ensures r.current == t.current
    ensures r.pending[s] == if t.current[s] == tex then t.pending[s] else Some(tex)
    ensures forall o: Surface :: o != s ==> r.pending[o] == t.pending[o]
  {
    if t.current[s] == tex then t else AfterSetPendingTexture(t, s, tex)
  }

  /** The records after `clearPendingTexture(s)`: a truthy staged texture
      becomes the committed one and the staging slot empties; otherwise
      nothing changes. Other surfaces are never touched. */
  function AfterClearPendingTexture(t: TextureRecords, s: Surface): (r: TextureRecords)
    requires Total(t)
    ensures Total(r)
    ensures !Truthy(t.pending[s]) ==> r == t
    ensures Truthy(t.pending[s]) ==> r.current[s] == t.pending[s].value && r.pending[s] == None
    ensures forall o: Surface :: o != s ==> r.current[o] == t.current[o] && r.pending[o] == t.pending[o]
  {
    var p := t.pending[s];
    if Truthy(p) then TextureRecords(t.current[s := p.value], t.pending[s := None]) else t
  }

  /** One call on the store, for reasoning about sequences of calls. */
  datatype TextureOp =
    | Request(surface: Surface, texture: string)   // setTexture
    | Stage(surface: Surface, texture: string)     // setPendingTexture
    | Commit(surface: Surface)                     // clearPendingTexture

  function Apply(t: TextureRecords, op: TextureOp): (r: TextureRecords)
    requires Total(t)
    ensures Total(r)
  {
    match op
    case Request(s, tex) => AfterSetTexture(t, s, tex)
    case Stage(s, tex) => AfterSetPendingTexture(t, s, tex)
    case Commit(s) => AfterClearPendingTexture(t, s)
  }

  function ApplyAll(t: TextureRecords, ops: seq<TextureOp>): (r: TextureRecords)
    requires Total(t)
    ensures Total(r)
    decreases |ops|
  {
    if ops == [] then t else ApplyAll(Apply(t, ops[0]), ops[1..])
  }

  /** Calls on other surfaces never touch a surface's records. */
  lemma {:induction false} OtherSurfacesUnaffected(t: TextureRecords, ops: seq<TextureOp>, s: Surface)
    requires Total(t)
    requires forall i :: 0 <= i < |ops| ==> ops[i].surface != s
    ensures ApplyAll(t, ops).current[s] == t.current[s]
    ensures ApplyAll(t, ops).pending[s] == t.pending[s]
    decreases |ops|
  {
    if ops != [] {
      OtherSurfacesUnaffected(Apply(t, ops[0]), ops[1..], s);
    }
  }

  /** A burst of requests for one surface with no commit in between: nothing is
      committed, the staged texture is the last request that differed from the
      committed one (last writer wins) or, if none differed, what was staged
      before, and other surfaces are untouched. */
  lemma {:induction false} LastRequestWins(t: TextureRecords, s: Surface, ops: seq<TextureOp>)
    requires Total(t)
    requires forall i :: 0 <= i < |ops| ==> ops[i].Request? && ops[i].surface == s
    ensures ApplyAll(t, ops).current == t.current
    ensures forall o: Surface :: o != s ==> ApplyAll(t, ops).pending[o] == t.pending[o]
    ensures ops != [] && ops[|ops| - 1].texture != t.current[s] ==>
      ApplyAll(t, ops).pending[s] == Some(ops[|ops| - 1].texture)
    ensures (forall i :: 0 <= i < |ops| ==> ops[i].texture == t.current[s]) ==>
      ApplyAll(t, ops).pending[s] == t.pending[s]
    ensures ApplyAll(t, ops).pending[s] == t.pending[s] ||
      exists i :: 0 <= i < |ops| && ops[i].texture != t.current[s] && ApplyAll(t, ops).pending[s] == Some(ops[i].texture)
    decreases |ops|
  {
    if ops != [] {
      var t1 := Apply(t, ops[0]);
      LastRequestWins(t1, s, ops[1..]);
      var r := ApplyAll(t, ops);
      assert r == ApplyAll(t1, ops[1..]);
      if |ops| > 1 {
        assert ops[|ops| - 1] == ops[1..][|ops| - 2];
      }
      if r.pending[s] != t1.pending[s] {
        var i :| 0 <= i < |ops[1..]| && ops[1..][i].texture != t.current[s] && r.pending[s] == Some(ops[1..][i].texture);
        assert ops[i + 1] == ops[1..][i];
      }
    }
  }

  /** A second request before the commit supersedes the first: the commit
      installs the later texture, never the earlier one. */
  lemma Supersede(t: TextureRecords, s: Surface, first: string, second: string)
    requires Total(t)
    requires second != t.current[s] && second != ""
    ensures AfterClearPendingTexture(AfterSetTexture(AfterSetTexture(t, s, first), s, second), s).current[s] == second
    ensures AfterClearPendingTexture(AfterSetTexture(AfterSetTexture(t, s, first), s, second), s).pending[s] == None
  {
  }

  /** The state `TextureProvider` owns, updated through its setters. */
  class TextureProvider {
    var selectedSurface: Option<Surface>
    var roomDimensions: RoomDimensions
    var currentTextures: map<Surface, string>
    var pendingTextures: map<Surface, Option<string>>

    ghost predicate Valid()
      reads this
    {
      Total(Textures())
    }

    function Textures(): TextureRecords
      reads this
    {
      TextureRecords(currentTextures, pendingTextures)
    }

    constructor ()
      ensures Valid()
      ensures Textures() == InitialTextures()
      ensures selectedSurface == None
      ensures roomDimensions == DefaultDimensions
    {
      selectedSurface := None;
      roomDimensions := DefaultDimensions;
      var init := InitialTextures();
      currentTextures := init.current;
      pendingTextures := init.pending;
    }

    method SetSelectedSurface(sel: Option<Surface>)
      requires Valid()
      modifies this
      ensures Valid()
      ensures selectedSurface == sel
      ensures Textures() == old(Textures()) && roomDimensions == old(roomDimensions)
    {
      selectedSurface := sel;
    }

    method SetRoomDimensions(dims: RoomDimensions)
      requires Valid()
      modifies this
      ensures Valid()
      ensures roomDimensions == dims
      ensures Textures() == old(Textures()) && selectedSurface == old(selectedSurface)
    {
      roomDimensions := dims;
    }

    method SetPendingTexture(s: Surface, tex: string)
      requires Valid()
      modifies this
      ensures Valid()
      ensures Textures() == AfterSetPendingTexture(old(Textures()), s, tex)
      ensures selectedSurface == old(selectedSurface) && roomDimensions == old(roomDimensions)
    {
      pendingTextures := pendingTextures[s := Some(tex)];
    }

    method SetTexture(s: Surface, tex: string)
      requires Valid()
      modifies this
      ensures Valid()
      ensures Textures() == AfterSetTexture(old(Textures()), s, tex)
      ensures selectedSurface == old(selectedSurface) && roomDimensions == old(roomDimensions)
    {
      if currentTextures[s] == tex {
        return;
      }
      SetPendingTexture(s, tex);
    }

    method ClearPendingTexture(s: Surface)
      requires Valid()
      modifies this
      ensures Valid()
      ensures Textures() == AfterClearPendingTexture(old(Textures()), s)
      ensures selectedSurface == old(selectedSurface) && roomDimensions == old(roomDimensions)
    {
      var pendingTexture := pendingTextures[s];
      if Truthy(pendingTexture) {
        currentTextures := currentTextures[s := pendingTexture.value];
        pendingTextures := pendingTextures[s := None];
      }
    }
  }
}

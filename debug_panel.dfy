/** The debug panel: a surface chosen by id from a fixed table, the texture
    catalog for that surface's kind, and a texture click reported to the
    host through its texture-change callback (the call is returned here). */
module DebugPanel {

  /** The images the catalogs offer. */
  datatype Image =
    | Wall1Png | Wall2Png | Wall3Png | Wall4Png | BrickPattern | WoodGrain
    | FloorPng | Checkerboard | WoodenFloor | MarbleTiles | Carpet | Concrete

  /** The path handed to the texture-change callback for an image: a file
      under the public folder or an inline SVG image. */
  function ImagePath(i: Image): string
  {
    match i
    case Wall1Png =>
      "/wall1.png"
    case Wall2Png =>
      "/wall2.png"
    case Wall3Png =>
      "/wall3.png"
    case Wall4Png =>
      "/wall4.png"
    case BrickPattern =>
      "data:image/svg+xml;base64,PHN2ZyB3aWR0aD0iMTAwIiBoZWlnaHQ9IjEwMCIgeG1sbnM9Imh0dHA6Ly93d3cudzMub3JnLzIwMDAvc3ZnIj48ZGVmcz48cGF0dGVybiBpZD0iYnJpY2siIHBhdHRlcm5Vbml0cz0idXNlclNwYWNlT25Vc2UiIHdpZHRoPSI2MCIgaGVpZ2h0PSIzMCI+PHJlY3Qgd2lkdGg9IjYwIiBoZWlnaHQ9IjMwIiBmaWxsPSIjYjc0MTJhIi8+PHJlY3QgeD0iMCIgeT0iMCIgd2lkdGg9IjMwIiBoZWlnaHQ9IjE1IiBmaWxsPSIjYTQzYjI2IiBzdHJva2U9IiM5MDMxMjAiIHN0cm9rZS13aWR0aD0iMSIvPjxyZWN0IHg9IjMwIiB5PSIwIiB3aWR0aD0iMzAiIGhlaWdodD0iMTUiIGZpbGw9IiNhNDNiMjYiIHN0cm9rZT0iIzkwMzEyMCIgc3Ryb2tlLXdpZHRoPSIxIi8+PHJlY3QgeD0iMTUiIHk9IjE1IiB3aWR0aD0iMzAiIGhlaWdodD0iMTUiIGZpbGw9IiNhNDNiMjYiIHN0cm9rZT0iIzkwMzEyMCIgc3Ryb2tlLXdpZHRoPSIxIi8+PC9wYXR0ZXJuPjwvZGVmcz48cmVjdCB3aWR0aD0iMTAwIiBoZWlnaHQ9IjEwMCIgZmlsbD0idXJsKCNicmljaykiLz48L3N2Zz4="
    case WoodGrain =>
      "data:image/svg+xml;base64,PHN2ZyB3aWR0aD0iMTAwIiBoZWlnaHQ9IjEwMCIgeG1sbnM9Imh0dHA6Ly93d3cudzMub3JnLzIwMDAvc3ZnIj48ZGVmcz48bGluZWFyR3JhZGllbnQgaWQ9Indvb2QiIHgxPSIwJSIgeTE9IjAlIiB4Mj0iMTAwJSIgeTI9IjAlIj48c3RvcCBvZmZzZXQ9IjAlIiBzdHlsZT0ic3RvcC1jb2xvcjojOGI2ZjQ3O3N0b3Atb3BhY2l0eToxIiAvPjxzdG9wIG9mZnNldD0iNTAlIiBzdHlsZT0ic3RvcC1jb2xvcjojYTY4YjViO3N0b3Atb3BhY2l0eToxIiAvPjxzdG9wIG9mZnNldD0iMTAwJSIgc3R5bGU9InN0b3AtY29sb3I6Izc0NWUzOTtzdG9wLW9wYWNpdHk6MSIgLz48L2xpbmVhckdyYWRpZW50PjwvZGVmcz48cmVjdCB3aWR0aD0iMTAwIiBoZWlnaHQ9IjEwMCIgZmlsbD0idXJsKCN3b29kKSIvPjwvc3ZnPg=="
    case FloorPng =>
      "/floor.png"
    case Checkerboard =>
      "data:image/svg+xml;base64,PHN2ZyB3aWR0aD0iMTAwIiBoZWlnaHQ9IjEwMCIgeG1sbnM9Imh0dHA6Ly93d3cudzMub3JnLzIwMDAvc3ZnIj48ZGVmcz48cGF0dGVybiBpZD0iY2hlY2tlciIgcGF0dGVyblVuaXRzPSJ1c2VyU3BhY2VPblVzZSIgd2lkdGg9IjIwIiBoZWlnaHQ9IjIwIj48cmVjdCB3aWR0aD0iMjAiIGhlaWdodD0iMjAiIGZpbGw9IiNmZmZmZmYiLz48cmVjdCB3aWR0aD0iMTAiIGhlaWdodD0iMTAiIGZpbGw9IiMwMDAwMDAiLz48cmVjdCB4PSIxMCIgeT0iMTAiIHdpZHRoPSIxMCIgaGVpZ2h0PSIxMCIgZmlsbD0iIzAwMDAwMCIvPjwvcGF0dGVybj48L2RlZnM+PHJlY3Qgd2lkdGg9IjEwMCIgaGVpZ2h0PSIxMDAiIGZpbGw9InVybCgjY2hlY2tlcikiLz48L3N2Zz4="
    case WoodenFloor =>
      "data:image/svg+xml;base64,PHN2ZyB3aWR0aD0iMTAwIiBoZWlnaHQ9IjEwMCIgeG1sbnM9Imh0dHA6Ly93d3cudzMub3JnLzIwMDAvc3ZnIj48ZGVmcz48cGF0dGVybiBpZD0id29vZGZsb29yIiBwYXR0ZXJuVW5pdHM9InVzZXJTcGFjZU9uVXNlIiB3aWR0aD0iMTAwIiBoZWlnaHQ9IjIwIj48cmVjdCB3aWR0aD0iMTAwIiBoZWlnaHQ9IjIwIiBmaWxsPSIjZGViODg3Ii8+PHJlY3QgeD0iMCIgeT0iMCIgd2lkdGg9IjUwIiBoZWlnaHQ9IjIwIiBmaWxsPSIjZDRhNTc0IiBzdHJva2U9IiNjNDk1NjQiIHN0cm9rZS13aWR0aD0iMSIvPjxyZWN0IHg9IjUwIiB5PSIwIiB3aWR0aD0iNTAiIGhlaWdodD0iMjAiIGZpbGw9IiNkNGE1NzQiIHN0cm9rZT0iI2M0OTU2NCIgc3Ryb2tlLXdpZHRoPSIxIi8+PC9wYXR0ZXJuPjwvZGVmcz48cmVjdCB3aWR0aD0iMTAwIiBoZWlnaHQ9IjEwMCIgZmlsbD0idXJsKCN3b29kZmxvb3IpIi8+PC9zdmc+"
    case MarbleTiles =>
      "data:image/svg+xml;base64,PHN2ZyB3aWR0aD0iMTAwIiBoZWlnaHQ9IjEwMCIgeG1sbnM9Imh0dHA6Ly93d3cudzMub3JnLzIwMDAvc3ZnIj48ZGVmcz48cGF0dGVybiBpZD0ibWFyYmxlIiBwYXR0ZXJuVW5pdHM9InVzZXJTcGFjZU9uVXNlIiB3aWR0aD0iNTAiIGhlaWdodD0iNTAiPjxyZWN0IHdpZHRoPSI1MCIgaGVpZ2h0PSI1MCIgZmlsbD0iI2Y4ZjhmOCIgc3Ryb2tlPSIjZGRkZGRkIiBzdHJva2Utd2lkdGg9IjIiLz48L3BhdHRlcm4+PC9kZWZzPjxyZWN0IHdpZHRoPSIxMDAiIGhlaWdodD0iMTAwIiBmaWxsPSJ1cmwoI21hcmJsZSkiLz48L3N2Zz4="
    case Carpet =>
      "data:image/svg+xml;base64,PHN2ZyB3aWR0aD0iMTAwIiBoZWlnaHQ9IjEwMCIgeG1sbnM9Imh0dHA6Ly93d3cudzMub3JnLzIwMDAvc3ZnIj48ZGVmcz48ZmlsdGVyIGlkPSJub2lzZSI+PGZlVHVyYnVsZW5jZSBiYXNlRnJlcXVlbmN5PSIwLjkiIG51bU9jdGF2ZXM9IjQiIHNlZWQ9IjIiLz48ZmVDb2xvck1hdHJpeCB0eXBlPSJzYXR1cmF0ZSIgdmFsdWVzPSIwIi8+PC9maWx0ZXI+PC9kZWZzPjxyZWN0IHdpZHRoPSIxMDAiIGhlaWdodD0iMTAwIiBmaWxsPSIjOGQzNTNiIi8+PHJlY3Qgd2lkdGg9IjEwMCIgaGVpZ2h0PSIxMDAiIGZpbGw9IiM4ZDM1M2IiIGZpbHRlcj0idXJsKCNub2lzZSkiIG9wYWNpdHk9IjAuMyIvPjwvc3ZnPg=="
    case Concrete =>
      "data:image/svg+xml;base64,PHN2ZyB3aWR0aD0iMTAwIiBoZWlnaHQ9IjEwMCIgeG1sbnM9Imh0dHA6Ly93d3cudzMub3JnLzIwMDAvc3ZnIj48ZGVmcz48ZmlsdGVyIGlkPSJjb25jcmV0ZSI+PGZlVHVyYnVsZW5jZSBiYXNlRnJlcXVlbmN5PSIwLjUiIG51bU9jdGF2ZXM9IjMiIHNlZWQ9IjEiLz48ZmVDb2xvck1hdHJpeCB0eXBlPSJzYXR1cmF0ZSIgdmFsdWVzPSIwIi8+PC9maWx0ZXI+PC9kZWZzPjxyZWN0IHdpZHRoPSIxMDAiIGhlaWdodD0iMTAwIiBmaWxsPSIjOWY5ZjlmIi8+PHJlY3Qgd2lkdGg9IjEwMCIgaGVpZ2h0PSIxMDAiIGZpbGw9IiM5ZjlmOWYiIGZpbHRlcj0idXJsKCNjb25jcmV0ZSkiIG9wYWNpdHk9IjAuNCIvPjwvc3ZnPg=="
  }

  /** A catalog entry: display name and image. */
  datatype TextureOption = TextureOption(name: string, image: Image)

  /** The wall catalog of the panel. */
  const WallOptions: seq<TextureOption> := [
    TextureOption("Default Wall 1", Wall1Png),
    TextureOption("Default Wall 2", Wall2Png),
    TextureOption("Default Wall 3", Wall3Png),
    TextureOption("Default Wall 4", Wall4Png),
    TextureOption("Brick Pattern", BrickPattern),
    TextureOption("Wood Grain", WoodGrain)
  ]

  /** The floor catalog of the panel. */
  const FloorOptions: seq<TextureOption> := [
    TextureOption("Default Floor", FloorPng),
    TextureOption("Checkerboard", Checkerboard),
    TextureOption("Wooden Floor", WoodenFloor),
    TextureOption("Marble Tiles", MarbleTiles),
    TextureOption("Carpet", Carpet),
    TextureOption("Concrete", Concrete)
  ]

  /** A row of the surface table. */
  datatype SurfaceOption = SurfaceOption(id: string, caption: string, kind: string)

  const SurfaceOptions: seq<SurfaceOption> := [
    SurfaceOption("wall1", "Front Wall", "wall"),
    SurfaceOption("wall2", "Back Wall", "wall"),
    SurfaceOption("wall3", "Left Wall", "wall"),
    SurfaceOption("wall4", "Right Wall", "wall"),
    SurfaceOption("floor", "Floor", "floor")
  ]

  datatype Option<T> = None | Some(value: T)

  /** The first row of `table` with the given id (`Array.prototype.find`). */
  function Find(table: seq<SurfaceOption>, id: string): (r: Option<SurfaceOption>)
    ensures r.None? <==> forall i :: 0 <= i < |table| ==> table[i].id != id
    ensures r.Some? ==> r.value in table && r.value.id == id
    ensures r.Some? ==> exists k :: 0 <= k < |table| && table[k] == r.value &&
                          forall j :: 0 <= j < k ==> table[j].id != id
    decreases |table|
  {
    if table == [] then None
    else if table[0].id == id then Some(table[0])
    else
      var r := Find(table[1..], id);
      assert forall i :: 1 <= i < |table| ==> table[i] == table[1..][i - 1];
      r
  }

  predicate IsWallId(id: string)
  {
    id == "wall1" || id == "wall2" || id == "wall3" || id == "wall4"
  }

  /** The row the table holds for an id, read off directly. */
  lemma FindInTable(id: string)
    ensures IsWallId(id) ==> Find(SurfaceOptions, id).Some? && Find(SurfaceOptions, id).value.kind == "wall"
    ensures id == "floor" ==> Find(SurfaceOptions, id) == Some(SurfaceOption("floor", "Floor", "floor"))
    ensures !IsWallId(id) && id != "floor" ==> Find(SurfaceOptions, id).None?
  {
    var t := SurfaceOptions;
    assert forall o :: o in t ==> (IsWallId(o.id) && o.kind == "wall") || o == t[4];
    if id == "wall1" {
      assert t[0].id == id;
    } else if id == "wall2" {
      assert t[1].id == id;
    } else if id == "wall3" {
      assert t[2].id == id;
    } else if id == "wall4" {
      assert t[3].id == id;
    } else if id == "floor" {
      assert t[4].id == id;
    }
  }

  /** The catalog offered: none before a surface is chosen, the wall catalog
      for a row of kind "wall", and the floor catalog for everything else,
      including an id the table does not hold. */
  function TextureOptions(selected: string): (r: seq<TextureOption>)
    ensures selected == "" ==> r == []
    ensures selected != "" && IsWallId(selected) ==> r == WallOptions
    ensures selected != "" && !IsWallId(selected) ==> r == FloorOptions
  {
    FindInTable(selected);
    if selected == "" then []
    else
      var option := Find(SurfaceOptions, selected);
      if option.Some? && option.value.kind == "wall" then WallOptions else FloorOptions
  }

  /** The callback call a texture click makes: the chosen id and the path, or
      nothing while no surface is chosen. */
  function TextureSelectCall(selected: string, path: string): (call: Option<(string, string)>)
    ensures call.None? <==> selected == ""
    ensures call.Some? ==> call.value == (selected, path)
  {
    if selected != "" then Some((selected, path)) else None
  }

  /** The toggle button's caption. */
  function ToggleCaption(isOpen: bool): (c: string)
    ensures isOpen <==> c == "Hide Panel"
    ensures !isOpen <==> c == "Debug Panel"
  {
    if isOpen then "Hide Panel" else "Debug Panel"
  }

  /** Each catalog has six entries, every wall id gets the wall catalog and the
      floor id the floor catalog. */
  lemma CatalogPerSurface()
    ensures |WallOptions| == 6 && |FloorOptions| == 6
    ensures forall id :: IsWallId(id) ==> TextureOptions(id) == WallOptions
    ensures TextureOptions("floor") == FloorOptions
    ensures TextureOptions("") == []
  {
  }

  /** No image is offered both for walls and for the floor. */
  lemma CatalogsDisjoint()
    ensures forall i, j :: 0 <= i < |WallOptions| && 0 <= j < |FloorOptions| ==>
      WallOptions[i].image != FloorOptions[j].image
  {
  }

  /** The panel's chosen surface id. */
  class DebugPanelState {
    var selectedSurface: string

    constructor ()
      ensures selectedSurface == ""
    {
      selectedSurface := "";
    }

    method HandleSurfaceChange(surfaceId: string)
      modifies this
      ensures selectedSurface == surfaceId
    {
      selectedSurface := surfaceId;
    }

    /** A texture click: the callback call it makes, if any. */
    method HandleTextureSelect(imagePath: string) returns (call: Option<(string, string)>)
      ensures call == TextureSelectCall(selectedSurface, imagePath)
    {
      if selectedSurface != "" {
        call := Some((selectedSurface, imagePath));
      } else {
        call := None;
      }
    }

    function Options(): (r: seq<TextureOption>)
      reads this
      ensures r == TextureOptions(selectedSurface)
    {
      TextureOptions(selectedSurface)
    }
  }
}
